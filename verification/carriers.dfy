/**
 * The carrier screen: admin-only create, edit and delete, the form's
 * defaults and pre-fill, the state labels and badge classes, and where
 * saves and deletions are sent.
 */
module Carriers {
  import opened Common
  import opened Entities

  // ---------------------------------------------------------------------
  // Labels

  /** `getStateText`: Spanish text for the three known states, anything else unchanged. */
  function StateText(state: string): (t: string)
    ensures state == "available" ==> t == "Disponible"
    ensures state == "on trip" ==> t == "En viaje"
    ensures state == "not available" ==> t == "No disponible"
  {
    match state
    case "available" => "Disponible"
    case "on trip" => "En viaje"
    case "not available" => "No disponible"
    case _ => state
  }

  const CARRIER_STATES := {"available", "on trip", "not available"}

  /** An unknown state is shown as it is, and a known one never is. */
  lemma StateTextPassThrough(state: string)
    ensures StateText(state) == state <==> state !in CARRIER_STATES
  {
  }

  /** `getStateBadgeClass`: "state-badge" plus a modifier for each known state. */
  function StateBadgeClass(state: string): (c: string)
    ensures "state-badge" <= c
    ensures c == "state-badge" <==> state !in CARRIER_STATES
    ensures state == "available" ==> c == "state-badge available"
    ensures state == "on trip" ==> c == "state-badge on-trip"
    ensures state == "not available" ==> c == "state-badge not-available"
  {
    match state
    case "available" => "state-badge available"
    case "on trip" => "state-badge on-trip"
    case "not available" => "state-badge not-available"
    case _ => "state-badge"
  }

  /** Two known states never share a badge. */
  lemma StateBadgeClassDistinct(s1: string, s2: string)
    requires s1 in CARRIER_STATES && s2 in CARRIER_STATES && s1 != s2
    ensures StateBadgeClass(s1) != StateBadgeClass(s2)
  {
  }

  // ---------------------------------------------------------------------
  // Table

  /** The "Acciones" column is shown to admins only. */
  function TableHeaders(role: string): (h: seq<string>)
    ensures "Acciones" in h <==> IsAdmin(role)
  {
    ["Nombre", "Contacto", "Estado", "Fecha de creación"] + (if IsAdmin(role) then ["Acciones"] else [])
  }

  function EmptyColSpan(role: string): nat
  {
    if role == "admin" then 5 else 4
  }

  /** The "no carriers" row spans exactly the columns the header shows. */
  lemma EmptyRowSpansHeader(role: string)
    ensures EmptyColSpan(role) == |TableHeaders(role)|
  {
  }

  // ---------------------------------------------------------------------
  // Form

  datatype CarrierForm = CarrierForm(name: string, contact: string, state: string)

  const EMPTY_CARRIER_FORM := CarrierForm("", "", "available")

  /** `handleEdit`: the carrier's own name, contact and state, unaltered. */
  function Prefill(c: Carrier): (f: CarrierForm)
    ensures f.name == c.name && f.contact == c.contact && f.state == c.state
  {
    CarrierForm(c.name, c.contact, c.state)
  }

  datatype CarrierField = NameField | ContactField | StateField

  function SetField(f: CarrierForm, field: CarrierField, value: string): CarrierForm
  {
    match field
    case NameField => f.(name := value)
    case ContactField => f.(contact := value)
    case StateField => f.(state := value)
  }

  // ---------------------------------------------------------------------
  // The screen as a sequence of user steps

  datatype CarrierScreen = CarrierScreen(
    modalOpen: bool,
    editing: Option<Carrier>,
    form: CarrierForm,
    deleteOpen: bool,
    toDelete: Option<Carrier>)

  const INITIAL_SCREEN := CarrierScreen(false, None, EMPTY_CARRIER_FORM, false, None)

  datatype ScreenStep =
    | OpenNew                                     // "+ Nuevo Transportista"
    | ClickEdit(carrier: Carrier)                 // "Editar" on a row
    | ClickDelete(carrier: Carrier)               // "Eliminar" on a row
    | Type(field: CarrierField, value: string)    // a change event in the open modal
    | CloseModal
    | SaveSucceeded
    | SaveFailed
    | CancelDelete
    | DeleteSucceeded
    | DeleteFailed

  /** One step; the create, edit and delete buttons exist for admins only, so for anyone else a click does nothing. */
  function Step(role: string, m: CarrierScreen, s: ScreenStep): CarrierScreen
  {
    match s
    case OpenNew => if IsAdmin(role) then m.(modalOpen := true) else m
    case ClickEdit(c) => if IsAdmin(role) then m.(modalOpen := true, editing := Some(c), form := Prefill(c)) else m
    case ClickDelete(c) => if IsAdmin(role) then m.(deleteOpen := true, toDelete := Some(c)) else m
    case Type(field, value) => if m.modalOpen then m.(form := SetField(m.form, field, value)) else m
    case CloseModal => m.(modalOpen := false, editing := None, form := EMPTY_CARRIER_FORM)
    case SaveSucceeded => m.(modalOpen := false, editing := None, form := EMPTY_CARRIER_FORM)
    case SaveFailed => m
    case CancelDelete => m.(deleteOpen := false, toDelete := None)
    case DeleteSucceeded => m.(deleteOpen := false, toDelete := None)
    case DeleteFailed => m
  }

  function Run(role: string, m: CarrierScreen, steps: seq<ScreenStep>): CarrierScreen
    decreases |steps|
  {
    if steps == [] then m else Run(role, Step(role, m, steps[0]), steps[1..])
  }

  /**
   * What every reachable screen satisfies: a closed modal holds the empty
   * form and edits nothing; the delete dialog is open exactly while a carrier
   * is chosen; and a non-admin never leaves the initial screen.
   */
  ghost predicate ScreenInv(role: string, m: CarrierScreen)
  {
    && (!m.modalOpen ==> m.editing.None? && m.form == EMPTY_CARRIER_FORM)
    && (m.deleteOpen <==> m.toDelete.Some?)
    && (!IsAdmin(role) ==> m == INITIAL_SCREEN)
  }

  lemma {:induction false} RunKeepsInv(role: string, m: CarrierScreen, steps: seq<ScreenStep>)
    requires ScreenInv(role, m)
    ensures ScreenInv(role, Run(role, m, steps))
    decreases |steps|
  {
    if steps != [] {
      var m' := Step(role, m, steps[0]);
      assert ScreenInv(role, m');
      RunKeepsInv(role, m', steps[1..]);
    }
  }

  /** `handleSubmit`: PUT to the carrier being edited or POST, with the form as body. */
  function SaveRequest(m: CarrierScreen): (r: Request)
    ensures m.editing.Some? ==> r.verb == PUT && r.path == "/api/carriers/" + IdText(m.editing.value.id)
    ensures m.editing.None? ==> r.verb == POST && r.path == "/api/carriers"
    ensures r.body == Some(map["name" := Str(m.form.name), "contact" := Str(m.form.contact), "state" := Str(m.form.state)])
  {
    var body := Some(map["name" := Str(m.form.name), "contact" := Str(m.form.contact), "state" := Str(m.form.state)]);
    if m.editing.Some? then Request(PUT, "/api/carriers/" + IdText(m.editing.value.id), body)
    else Request(POST, "/api/carriers", body)
  }

  /**
   * `handleDeleteConfirm`: a DELETE of the carrier chosen with "Eliminar";
   * with none chosen the id lookup fails and no request is made.
   */
  function DeleteRequest(m: CarrierScreen): (r: Option<Request>)
    ensures r.None? <==> m.toDelete.None?
    ensures r.Some? ==> r.value == Request(DELETE, "/api/carriers/" + IdText(m.toDelete.value.id), None)
  {
    if m.toDelete.Some? then Some(Request(DELETE, "/api/carriers/" + IdText(m.toDelete.value.id), None)) else None
  }

  /**
   * Whatever an admin does, confirming after clicking "Eliminar" on a carrier
   * deletes that carrier, and cancelling leaves nothing to delete.
   */
  lemma DeleteTargetsClickedCarrier(steps: seq<ScreenStep>, c: Carrier)
    ensures var m := Step("admin", Run("admin", INITIAL_SCREEN, steps), ClickDelete(c));
      && DeleteRequest(m) == Some(Request(DELETE, "/api/carriers/" + IdText(c.id), None))
      && DeleteRequest(Step("admin", m, CancelDelete)).None?
  {
  }

  /** A user who is not an admin can never have a save or a deletion pending, whatever they do. */
  lemma NonAdminNeverMutates(role: string, steps: seq<ScreenStep>)
    requires !IsAdmin(role)
    ensures var m := Run(role, INITIAL_SCREEN, steps);
      !m.modalOpen && !m.deleteOpen && DeleteRequest(m).None?
  {
    RunKeepsInv(role, INITIAL_SCREEN, steps);
  }
}
