/**
 * The customer screen: the search over name and e-mail, the inline
 * create/edit form and the endpoint it saves to, the expandable detail
 * panel, the status label and the per-customer counts.
 */
module Customers {
  import opened Common
  import opened Seqs
  import opened Text
  import opened Entities

  // ---------------------------------------------------------------------
  // Search

  predicate MatchesTerm(c: Customer, term: string)
  {
    Contains(Lower(c.name), Lower(term)) || Contains(Lower(c.email), Lower(term))
  }

  function Matching(term: string): Customer -> bool
  {
    (c: Customer) => MatchesTerm(c, term)
  }

  /**
   * The customers whose lower-cased name or lower-cased e-mail contains the
   * lower-cased term, each as often as fetched and in fetched order.
   */
  function SearchCustomers(cs: seq<Customer>, term: string): (r: seq<Customer>)
    ensures forall i :: 0 <= i < |r| ==> r[i] in cs && MatchesTerm(r[i], term)
    ensures forall i :: 0 <= i < |cs| && MatchesTerm(cs[i], term) ==> cs[i] in r
    ensures forall c :: multiset(r)[c] == if MatchesTerm(c, term) then multiset(cs)[c] else 0
    ensures IsSubsequence(r, cs)
  {
    FilterIsSubsequence(cs, Matching(term));
    forall c ensures multiset(Filter(cs, Matching(term)))[c] == if MatchesTerm(c, term) then multiset(cs)[c] else 0 {
      FilterMultiplicity(cs, Matching(term), c);
    }
    Filter(cs, Matching(term))
  }

  /** An empty search box lists every customer. */
  lemma EmptySearchKeepsAll(cs: seq<Customer>)
    ensures SearchCustomers(cs, "") == cs
  {
    forall i | 0 <= i < |cs| ensures Matching("")(cs[i]) {
      ContainsEmpty(Lower(cs[i].name));
    }
    FilterKeepsAll(cs, Matching(""));
  }

  /** The search ignores the case of the term. */
  lemma SearchIgnoresTermCase(cs: seq<Customer>, term: string)
    ensures SearchCustomers(cs, Lower(term)) == SearchCustomers(cs, term)
  {
    LowerIdempotent(term);
    forall c ensures Matching(Lower(term))(c) == Matching(term)(c) {
    }
    FilterAgree(cs, Matching(Lower(term)), Matching(term));
  }

  // ---------------------------------------------------------------------
  // Create / edit form

  datatype CustomerForm = CustomerForm(name: string, email: string, password: string, phone: string, status: string)

  const EMPTY_CUSTOMER_FORM := CustomerForm("", "", "", "", "active")

  /**
   * The form and the id of the customer being edited; `editing` is compared
   * by truthiness, so an id of 0 counts as not editing.
   */
  datatype Editor = Editor(form: CustomerForm, editing: Option<Id>)

  const INITIAL_EDITOR := Editor(EMPTY_CUSTOMER_FORM, None)

  predicate IsEditing(e: Editor)
  {
    e.editing.Some? && e.editing.value != 0
  }

  /** `handleEdit`: name, e-mail, phone and status copied, the password left empty for an optional new one. */
  function Edit(c: Customer): (e: Editor)
    ensures e.form.name == c.name && e.form.email == c.email && e.form.phone == c.phone
    ensures e.form.status == c.status && e.form.password == ""
    ensures e.editing == Some(c.id)
  {
    Editor(CustomerForm(c.name, c.email, "", c.phone, c.status), Some(c.id))
  }

  /** After a successful save the form is empty again with status "active", and nothing is being edited. */
  function AfterSave(e: Editor): (e': Editor)
    ensures e'.form.name == "" && e'.form.email == "" && e'.form.phone == "" && e'.form.password == ""
    ensures e'.form.status == "active"
    ensures !IsEditing(e')
  {
    INITIAL_EDITOR
  }

  /** The form as the request body: its five fields, each as typed. */
  function FormBody(f: CustomerForm): (b: map<string, Value>)
    ensures b.Keys == {"name", "email", "password", "phone", "status"}
    ensures b["name"] == Str(f.name) && b["email"] == Str(f.email) && b["password"] == Str(f.password)
    ensures b["phone"] == Str(f.phone) && b["status"] == Str(f.status)
  {
    map["name" := Str(f.name), "email" := Str(f.email), "password" := Str(f.password),
        "phone" := Str(f.phone), "status" := Str(f.status)]
  }

  /**
   * `handleSubmit`: PUT to the edited customer's profile or POST a new one,
   * the form sent as it is — an empty password included.
   */
  function SaveRequest(e: Editor): (r: Request)
    ensures IsEditing(e) ==> r.verb == PUT && r.path == "/api/customers/profile/" + IdText(e.editing.value)
    ensures !IsEditing(e) ==> r.verb == POST && r.path == "/api/customers/profile"
    ensures r.body == Some(FormBody(e.form))
  {
    if IsEditing(e) then Request(PUT, "/api/customers/profile/" + IdText(e.editing.value), Some(FormBody(e.form)))
    else Request(POST, "/api/customers/profile", Some(FormBody(e.form)))
  }

  /**
   * Saving right after "Editar" updates that customer (when its id is not
   * 0) with its own fields and an empty password.
   */
  lemma SaveAfterEdit(c: Customer)
    requires c.id != 0
    ensures SaveRequest(Edit(c)) == Request(PUT, "/api/customers/profile/" + IdText(c.id), Some(map[
      "name" := Str(c.name), "email" := Str(c.email), "password" := Str(""),
      "phone" := Str(c.phone), "status" := Str(c.status)]))
  {
  }

  /** "Cancelar Edición": nothing is being edited any more, but the form keeps what it holds. */
  function CancelEdit(e: Editor): (e': Editor)
    ensures !IsEditing(e') && e'.form == e.form
  {
    e.(editing := None)
  }

  /**
   * Cancelling an edit and then submitting creates a new customer carrying
   * the edited customer's name, e-mail, phone and status.
   */
  lemma SaveAfterCancelledEdit(c: Customer)
    ensures SaveRequest(CancelEdit(Edit(c))) == Request(POST, "/api/customers/profile", Some(map[
      "name" := Str(c.name), "email" := Str(c.email), "password" := Str(""),
      "phone" := Str(c.phone), "status" := Str(c.status)]))
  {
  }

  // ---------------------------------------------------------------------
  // Detail panel

  /** `toggleCustomerDetails`: clicking the expanded customer collapses it, clicking any other expands that one. */
  function Toggle(expanded: Option<Id>, id: Id): (r: Option<Id>)
    ensures r.None? <==> expanded == Some(id)
    ensures r.Some? ==> r.value == id
  {
    if expanded == Some(id) then None else Some(id)
  }

  /** Clicking the same customer twice restores the panel when it was closed or showed that customer. */
  lemma ToggleTwice(expanded: Option<Id>, id: Id)
    requires expanded.None? || expanded == Some(id)
    ensures Toggle(Toggle(expanded, id), id) == expanded
  {
  }

  /** With another customer expanded, two clicks on a customer leave every panel closed. */
  lemma ToggleTwiceFromOther(expanded: Option<Id>, id: Id)
    requires expanded.Some? && expanded.value != id
    ensures Toggle(Toggle(expanded, id), id) == None
  {
  }

  // ---------------------------------------------------------------------
  // Labels and counts

  function StatusLabel(status: string): (l: string)
    ensures l == "Activo" <==> status == "active"
    ensures l != "Activo" ==> l == "Inactivo"
  {
    if status == "active" then "Activo" else "Inactivo"
  }

  /** The order count in the detail panel: the list's length, 0 when absent. */
  function OrderCount(c: Customer): (n: nat)
    ensures c.orders.None? ==> n == 0
    ensures c.orders.Some? ==> n == |c.orders.value|
  {
    if c.orders.Some? then |c.orders.value| else 0
  }

  /** The document count in the detail panel: the list's length, 0 when absent. */
  function SheetCount(c: Customer): (n: nat)
    ensures c.technicalSheets.None? ==> n == 0
    ensures c.technicalSheets.Some? ==> n == |c.technicalSheets.value|
  {
    if c.technicalSheets.Some? then |c.technicalSheets.value| else 0
  }
}
