/**
 * The technical-document screen: the customer picker, the assignment
 * guard and request, the name search, the shortened link text, the
 * role-gated actions and the date column's empty case.
 */
module Sheets {
  import opened Common
  import opened Seqs
  import opened Text
  import opened Entities

  // ---------------------------------------------------------------------
  // Customer picker

  /**
   * The customers the assignment form offers: the active ones of a successful
   * fetch, which is made for admin and logistics users only; nobody else ever
   * gets a candidate.
   */
  function CustomerPicker(role: string, fetched: Option<seq<Customer>>): (r: seq<Customer>)
    ensures !IsStaff(role) || fetched.None? ==> r == []
    ensures IsStaff(role) && fetched.Some? ==> r == ActiveCustomers(fetched.value)
    ensures forall i :: 0 <= i < |r| ==> r[i].status == "active"
  {
    if IsStaff(role) && fetched.Some? then ActiveCustomers(fetched.value) else []
  }

  // ---------------------------------------------------------------------
  // Assigning a document to a customer

  const ASSIGN_INCOMPLETE := "Selecciona una ficha y un cliente"

  datatype AssignOutcome = AssignRefused(error: string) | AssignSent(request: Request)

  function AssignPath(customerId: string, sheetId: Id): string
  {
    "/api/customersheets/" + customerId + "/sheets/" + IdText(sheetId)
  }

  /**
   * `handleAssignSubmit`: without a selected document or a chosen customer
   * no request is made and the error is set; otherwise a body-less POST
   * names the customer and the document in its path.
   */
  function AssignSubmit(selected: Option<Sheet>, customerId: string): (o: AssignOutcome)
    ensures o.AssignRefused? <==> selected.None? || customerId == ""
    ensures o.AssignRefused? ==> o.error == ASSIGN_INCOMPLETE
    ensures o.AssignSent? ==> o.request == Request(POST, AssignPath(customerId, selected.value.id), None)
  {
    if selected.None? || customerId == "" then AssignRefused(ASSIGN_INCOMPLETE)
    else AssignSent(Request(POST, AssignPath(customerId, selected.value.id), None))
  }

  predicate AllDigits(s: string)
  {
    forall i :: 0 <= i < |s| ==> IsDigit(s[i])
  }

  /** The number of digits at the start of a text. */
  function DigitRun(s: string): (k: nat)
    ensures k <= |s|
  {
    if s == [] || !IsDigit(s[0]) then 0 else 1 + DigitRun(s[1..])
  }

  lemma {:induction false} DigitRunOf(c: string, rest: string)
    requires AllDigits(c)
    requires rest != [] && !IsDigit(rest[0])
    ensures DigitRun(c + rest) == |c|
  {
    if c != [] {
      assert (c + rest)[1..] == c[1..] + rest;
      DigitRunOf(c[1..], rest);
    }
  }

  /**
   * The picker's values are customer ids in decimal, so an assignment path
   * names exactly one (customer, document) pair: two different pairs never
   * share a path.
   */
  lemma AssignPathInjective(c1: string, s1: Id, c2: string, s2: Id)
    requires AllDigits(c1) && AllDigits(c2)
    requires AssignPath(c1, s1) == AssignPath(c2, s2)
    ensures c1 == c2 && s1 == s2
  {
    var pre := "/api/customersheets/";
    var p1, p2 := AssignPath(c1, s1), AssignPath(c2, s2);
    var n := |pre|;
    assert p1 == pre + (c1 + ("/sheets/" + IdText(s1)));
    assert p2 == pre + (c2 + ("/sheets/" + IdText(s2)));
    // The customer id is the run of digits after the prefix in both paths.
    DigitRunOf(c1, "/sheets/" + IdText(s1));
    DigitRunOf(c2, "/sheets/" + IdText(s2));
    assert p1[n..] == c1 + ("/sheets/" + IdText(s1));
    assert p2[n..] == c2 + ("/sheets/" + IdText(s2));
    assert c1 == p1[n..n + |c1|] == p2[n..n + |c2|] == c2;
    assert IdText(s1) == p1[n + |c1| + 8..] == p2[n + |c2| + 8..] == IdText(s2);
    IdTextInjective(s1, s2);
  }

  /** Every value the picker offers is an id in decimal. */
  lemma PickerValuesAreDigits(c: Customer)
    ensures AllDigits(IdText(c.id)) && IdText(c.id) != ""
  {
  }

  // ---------------------------------------------------------------------
  // Search

  function NameMatches(term: string): Sheet -> bool
  {
    (s: Sheet) => Contains(Lower(s.name), Lower(term))
  }

  /**
   * The documents whose lower-cased name contains the lower-cased term, each
   * as often as fetched and in fetched order.
   */
  function SearchSheets(sheets: seq<Sheet>, term: string): (r: seq<Sheet>)
    ensures forall i :: 0 <= i < |r| ==> r[i] in sheets && Contains(Lower(r[i].name), Lower(term))
    ensures forall i :: 0 <= i < |sheets| && Contains(Lower(sheets[i].name), Lower(term)) ==> sheets[i] in r
    ensures forall s :: multiset(r)[s] == if Contains(Lower(s.name), Lower(term)) then multiset(sheets)[s] else 0
    ensures IsSubsequence(r, sheets)
  {
    FilterIsSubsequence(sheets, NameMatches(term));
    forall s ensures multiset(Filter(sheets, NameMatches(term)))[s]
                     == if Contains(Lower(s.name), Lower(term)) then multiset(sheets)[s] else 0 {
      FilterMultiplicity(sheets, NameMatches(term), s);
    }
    Filter(sheets, NameMatches(term))
  }

  /** An empty search box lists every document. */
  lemma EmptySearchKeepsAll(sheets: seq<Sheet>)
    ensures SearchSheets(sheets, "") == sheets
  {
    forall i | 0 <= i < |sheets| ensures NameMatches("")(sheets[i]) {
      ContainsEmpty(Lower(sheets[i].name));
    }
    FilterKeepsAll(sheets, NameMatches(""));
  }

  /** The search ignores the case of the term. */
  lemma SearchIgnoresTermCase(sheets: seq<Sheet>, term: string)
    ensures SearchSheets(sheets, Lower(term)) == SearchSheets(sheets, term)
  {
    LowerIdempotent(term);
    forall s ensures NameMatches(Lower(term))(s) == NameMatches(term)(s) {
    }
    FilterAgree(sheets, NameMatches(Lower(term)), NameMatches(term));
  }

  // ---------------------------------------------------------------------
  // Link text

  const LINK_WIDTH := 40

  /** A link longer than 40 characters is shown as its first 40 and "..."; a shorter one as is. */
  function Shorten(url: string): (r: string)
    ensures |url| <= LINK_WIDTH ==> r == url
    ensures |url| > LINK_WIDTH ==> |r| == LINK_WIDTH + 3 && r[..LINK_WIDTH] == url[..LINK_WIDTH] && r[LINK_WIDTH..] == "..."
    ensures |r| <= LINK_WIDTH + 3
  {
    if |url| > LINK_WIDTH then url[..LINK_WIDTH] + "..." else url
  }

  /** Shortening shortened text changes nothing. */
  lemma ShortenIdempotent(url: string)
    ensures Shorten(Shorten(url)) == Shorten(url)
  {
    if |url| > LINK_WIDTH {
      var r := Shorten(url);
      assert r[..LINK_WIDTH] + "..." == r;
    }
  }

  // ---------------------------------------------------------------------
  // Role-gated actions

  datatype SheetControl = NewDocument | ViewLink | Assign | ViewAssignments | EditSheet | DeleteSheet | DeleteAssignment

  /**
   * "Ver" is offered to everyone; creating, assigning and listing assignments
   * to admin and logistics users; editing, deleting a document and deleting an
   * assignment to admins only.
   */
  predicate Offers(role: string, c: SheetControl)
    ensures c == ViewLink ==> Offers(role, c)
    ensures c == NewDocument || c == Assign || c == ViewAssignments ==>
              (Offers(role, c) <==> role == "admin" || role == "logistica")
    ensures c == EditSheet || c == DeleteSheet || c == DeleteAssignment ==> (Offers(role, c) <==> role == "admin")
  {
    match c
    case ViewLink => true
    case NewDocument => IsStaff(role)
    case Assign => IsStaff(role)
    case ViewAssignments => IsStaff(role)
    case EditSheet => IsAdmin(role)
    case DeleteSheet => IsAdmin(role)
    case DeleteAssignment => IsAdmin(role)
  }

  /** Whoever may remove or change something may also assign and create. */
  lemma AdminControlsIncludeStaffControls(role: string, c: SheetControl)
    requires Offers(role, EditSheet)
    ensures Offers(role, c)
  {
  }

  /** A user who is neither admin nor logistics only gets the links. */
  lemma OthersOnlyView(role: string, c: SheetControl)
    requires !IsStaff(role)
    ensures Offers(role, c) <==> c == ViewLink
  {
  }

  // ---------------------------------------------------------------------
  // Dates

  /** `formatDate`: "N/A" for an absent or empty date, the locale rendering otherwise. */
  function FormatDate(d: Option<string>, render: string -> string): (r: string)
    ensures d.None? || d.value == "" ==> r == "N/A"
    ensures d.Some? && d.value != "" ==> r == render(d.value)
  {
    if d.None? || d.value == "" then "N/A" else render(d.value)
  }

  // ---------------------------------------------------------------------
  // Create / edit form

  datatype SheetForm = SheetForm(name: string, url: string)

  const EMPTY_SHEET_FORM := SheetForm("", "")

  function Prefill(s: Sheet): (f: SheetForm)
    ensures f.name == s.name && f.url == s.url
  {
    SheetForm(s.name, s.url)
  }

  /** `handleSubmit`: PUT to the edited document or POST, with the form as body. */
  function SaveRequest(editing: Option<Sheet>, f: SheetForm): (r: Request)
    ensures editing.Some? ==> r.verb == PUT && r.path == "/api/sheets/" + IdText(editing.value.id)
    ensures editing.None? ==> r.verb == POST && r.path == "/api/sheets"
    ensures r.body == Some(map["name" := Str(f.name), "url" := Str(f.url)])
  {
    var body := Some(map["name" := Str(f.name), "url" := Str(f.url)]);
    if editing.Some? then Request(PUT, "/api/sheets/" + IdText(editing.value.id), body)
    else Request(POST, "/api/sheets", body)
  }
}
