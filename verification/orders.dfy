/**
 * The order screen: who may create, edit and add events to orders, the
 * create/edit modal with its form, the event history badges, and the
 * requests the screen sends.
 */
module Orders {
  import opened Common
  import opened Seqs
  import opened Entities

  // ---------------------------------------------------------------------
  // Controls offered by role

  datatype OrderControl = NewOrder | ViewOrder | AddEvent | EditOrder

  /** Whether the screen renders a control for a role: "Ver" for everyone, the rest for staff. */
  predicate Offers(role: string, c: OrderControl)
    ensures c == ViewOrder ==> Offers(role, c)
    ensures c != ViewOrder ==> (Offers(role, c) <==> role == "admin" || role == "logistica")
  {
    match c
    case ViewOrder => true
    case NewOrder => IsStaff(role)
    case AddEvent => IsStaff(role)
    case EditOrder => IsStaff(role)
  }

  // ---------------------------------------------------------------------
  // The create/edit form

  datatype OrderForm = OrderForm(customerId: string, trackingCode: string, description: string, state: string)

  const EMPTY_ORDER_FORM := OrderForm("", "", "", "pending")

  /** The form `handleEdit` fills in from an order: absent fields become "", an absent state "pending". */
  function Prefill(o: Order): (f: OrderForm)
    ensures f.customerId == (if o.customerId.Some? then o.customerId.value else "")
    ensures f.trackingCode == (if o.trackingCode.Some? then o.trackingCode.value else "")
    ensures f.description == (if o.description.Some? then o.description.value else "")
    ensures f.state != ""
    ensures o.state.Some? && o.state.value != "" ==> f.state == o.state.value
    ensures o.state.None? || o.state.value == "" ==> f.state == "pending"
  {
    OrderForm(OrDefault(o.customerId, ""), OrDefault(o.trackingCode, ""), OrDefault(o.description, ""), OrDefault(o.state, "pending"))
  }

  /** The JSON body the form is sent as. */
  function FormBody(f: OrderForm): (b: map<string, Value>)
    ensures b.Keys == {"customer_id", "tracking_code", "description", "state"}
    ensures b["customer_id"] == Str(f.customerId) && b["tracking_code"] == Str(f.trackingCode)
    ensures b["description"] == Str(f.description) && b["state"] == Str(f.state)
  {
    map["customer_id" := Str(f.customerId), "tracking_code" := Str(f.trackingCode),
        "description" := Str(f.description), "state" := Str(f.state)]
  }

  datatype OrderField = CustomerIdField | TrackingCodeField | DescriptionField | StateField

  /**
   * Whether the modal lets the user change a field: the customer and the
   * tracking code are disabled while editing, and the state selector is only
   * rendered while editing.
   */
  predicate Editable(field: OrderField, editing: bool)
  {
    match field
    case CustomerIdField => !editing
    case TrackingCodeField => !editing
    case DescriptionField => true
    case StateField => editing
  }

  function SetField(f: OrderForm, field: OrderField, value: string): OrderForm
  {
    match field
    case CustomerIdField => f.(customerId := value)
    case TrackingCodeField => f.(trackingCode := value)
    case DescriptionField => f.(description := value)
    case StateField => f.(state := value)
  }

  // ---------------------------------------------------------------------
  // The modal as a sequence of user steps

  /** The modal's state: open or not, the order being edited, the form. */
  datatype OrderModal = OrderModal(open: bool, editing: Option<Order>, form: OrderForm)

  const INITIAL_MODAL := OrderModal(false, None, EMPTY_ORDER_FORM)

  datatype ModalStep =
    | OpenNew                                   // "+ Nuevo Pedido"
    | EditRow(order: Order)                     // "Editar" on a row
    | Type(field: OrderField, value: string)    // a change event on an input
    | CloseModal                                // "×" or "Cancelar"
    | SaveSucceeded                             // the save request answered ok
    | SaveFailed                                // the save request failed

  /** One step of a session of a user with the given role; a click on a button the role is not offered does nothing. */
  function Step(role: string, m: OrderModal, s: ModalStep): OrderModal
  {
    match s
    case OpenNew => if Offers(role, NewOrder) then m.(open := true) else m
    case EditRow(o) => if Offers(role, EditOrder) then OrderModal(true, Some(o), Prefill(o)) else m
    case Type(field, value) =>
      if m.open && Editable(field, m.editing.Some?) then m.(form := SetField(m.form, field, value)) else m
    case CloseModal => INITIAL_MODAL
    case SaveSucceeded => INITIAL_MODAL
    case SaveFailed => m
  }

  function Run(role: string, m: OrderModal, steps: seq<ModalStep>): OrderModal
    decreases |steps|
  {
    if steps == [] then m else Run(role, Step(role, m, steps[0]), steps[1..])
  }

  /**
   * What every reachable modal satisfies: a closed modal holds the empty form
   * and no order; while creating, the state is still "pending"; while editing,
   * the customer and tracking code are the ones filled in from the order; a
   * user who is neither admin nor logistics never opens it.
   */
  ghost predicate ModalInv(role: string, m: OrderModal)
  {
    && (!m.open ==> m.editing.None? && m.form == EMPTY_ORDER_FORM)
    && (!IsStaff(role) ==> !m.open)
    && (m.editing.None? ==> m.form.state == "pending")
    && (m.editing.Some? ==>
          m.form.customerId == Prefill(m.editing.value).customerId &&
          m.form.trackingCode == Prefill(m.editing.value).trackingCode)
  }

  lemma StepKeepsInv(role: string, m: OrderModal, s: ModalStep)
    requires ModalInv(role, m)
    ensures ModalInv(role, Step(role, m, s))
  {
  }

  lemma {:induction false} RunKeepsInv(role: string, m: OrderModal, steps: seq<ModalStep>)
    requires ModalInv(role, m)
    ensures ModalInv(role, Run(role, m, steps))
    decreases |steps|
  {
    if steps != [] {
      StepKeepsInv(role, m, steps[0]);
      RunKeepsInv(role, Step(role, m, steps[0]), steps[1..]);
    }
  }

  /** `handleSubmit`'s request: PUT to the edited order, POST otherwise, with the form as body. */
  function SaveRequest(m: OrderModal): (r: Request)
    ensures m.editing.Some? ==> r.verb == PUT && r.path == "/api/orders/" + IdText(m.editing.value.id)
    ensures m.editing.None? ==> r.verb == POST && r.path == "/api/orders"
    ensures r.body == Some(FormBody(m.form))
  {
    if m.editing.Some? then Request(PUT, "/api/orders/" + IdText(m.editing.value.id), Some(FormBody(m.form)))
    else Request(POST, "/api/orders", Some(FormBody(m.form)))
  }

  /**
   * Whatever the user does, starting from the initial screen: a create
   * request carries state "pending", and an update request carries the
   * customer and tracking code of the order being edited, unchanged; and a
   * user who is neither admin nor logistics never has the modal open.
   */
  lemma SavedFormsFromAnySession(role: string, steps: seq<ModalStep>)
    ensures var m := Run(role, INITIAL_MODAL, steps);
      && (!IsStaff(role) ==> !m.open)
      && (m.editing.None? ==> SaveRequest(m).body.value["state"] == Str("pending"))
      && (m.editing.Some? ==>
            SaveRequest(m).body.value["customer_id"] == Str(OrDefault(m.editing.value.customerId, "")) &&
            SaveRequest(m).body.value["tracking_code"] == Str(OrDefault(m.editing.value.trackingCode, "")))
  {
    RunKeepsInv(role, INITIAL_MODAL, steps);
  }

  /** Two different orders are updated through different paths. */
  lemma UpdatePathsDistinct(a: OrderModal, b: OrderModal)
    requires a.editing.Some? && b.editing.Some? && a.editing.value.id != b.editing.value.id
    ensures SaveRequest(a).path != SaveRequest(b).path
  {
    var p := "/api/orders/";
    if SaveRequest(a).path == SaveRequest(b).path {
      assert (p + IdText(a.editing.value.id))[|p|..] == IdText(a.editing.value.id);
      assert (p + IdText(b.editing.value.id))[|p|..] == IdText(b.editing.value.id);
      IdTextInjective(a.editing.value.id, b.editing.value.id);
    }
  }

  // ---------------------------------------------------------------------
  // State labels

  const ORDER_STATES := {"pending", "in_transit", "delivered", "cancelled"}

  /** `getEstadoTexto`: the Spanish label of a known state, any other value unchanged. */
  function EstadoTexto(state: string): (t: string)
    ensures state == "pending" ==> t == "Pendiente"
    ensures state == "in_transit" ==> t == "En tránsito"
    ensures state == "delivered" ==> t == "Entregado"
    ensures state == "cancelled" ==> t == "Cancelado"
    ensures state !in ORDER_STATES ==> t == state
  {
    match state
    case "pending" => "Pendiente"
    case "in_transit" => "En tránsito"
    case "delivered" => "Entregado"
    case "cancelled" => "Cancelado"
    case _ => state
  }

  /** A state is shown as itself exactly when it is not one of the four known states. */
  lemma EstadoTextoPassThrough(state: string)
    ensures EstadoTexto(state) == state <==> state !in ORDER_STATES
  {
  }

  /** `getEstadoBadgeClass`: always the base class, plus a suffix for a known state. */
  function EstadoBadgeClass(state: string): (c: string)
    ensures |c| >= |"estado-badge"| && c[..|"estado-badge"|] == "estado-badge"
    ensures state !in ORDER_STATES <==> c == "estado-badge"
    ensures state == "pending" ==> c == "estado-badge pending"
    ensures state == "in_transit" ==> c == "estado-badge in-transit"
    ensures state == "delivered" ==> c == "estado-badge delivered"
    ensures state == "cancelled" ==> c == "estado-badge cancelled"
  {
    match state
    case "pending" => "estado-badge pending"
    case "in_transit" => "estado-badge in-transit"
    case "delivered" => "estado-badge delivered"
    case "cancelled" => "estado-badge cancelled"
    case _ => "estado-badge"
  }

  /** Each known state gets a badge class of its own. */
  lemma EstadoBadgeClassDistinct(a: string, b: string)
    requires a in ORDER_STATES && b in ORDER_STATES && a != b
    ensures EstadoBadgeClass(a) != EstadoBadgeClass(b)
  {
  }

  // ---------------------------------------------------------------------
  // Events

  datatype EventForm = EventForm(eventType: string, note: string)

  const EVENT_FORM_RESET := EventForm("Alistando pedido", "")

  datatype EventOption = EventOption(value: string, caption: string, color: string)

  const EVENT_OPTIONS: seq<EventOption> := [
    EventOption("Alistando pedido", "Alistando pedido", "#1976d2"),
    EventOption("Se despacho el pedido", "Se despachó el pedido", "#2e7d32"),
    EventOption("En transito", "En tránsito", "#ef6c00"),
    EventOption("En transito con novedad", "En tránsito con novedad", "#d84315"),
    EventOption("El vehículo llega a la ciudad de destino", "El vehículo llega a la ciudad de destino", "#6a1b9a"),
    EventOption("En reparto", "En reparto", "#0288d1"),
    EventOption("En reparto con novedad", "En reparto con novedad", "#c62828"),
    EventOption("Entregado", "Entregado", "#388e3c")
  ]

  /** The option values are pairwise distinct, so a value selects at most one option. */
  lemma EventOptionValuesDistinct()
    ensures forall i, j :: 0 <= i < j < |EVENT_OPTIONS| ==> EVENT_OPTIONS[i].value != EVENT_OPTIONS[j].value
  {
  }

  /** The colours of a history entry's badge. */
  datatype BadgeStyle = BadgeStyle(background: string, foreground: string)

  const FALLBACK_STYLE := BadgeStyle("#eee", "#333")

  function HasValue(t: string): EventOption -> bool
  {
    (o: EventOption) => o.value == t
  }

  /** A history entry of a listed type is drawn in that option's colour; any other type in grey. */
  function EventStyle(eventType: string): (s: BadgeStyle)
    ensures forall i :: 0 <= i < |EVENT_OPTIONS| && EVENT_OPTIONS[i].value == eventType ==>
              s == BadgeStyle(EVENT_OPTIONS[i].color + "20", EVENT_OPTIONS[i].color)
    ensures (forall i :: 0 <= i < |EVENT_OPTIONS| ==> EVENT_OPTIONS[i].value != eventType) ==> s == FALLBACK_STYLE
  {
    EventOptionValuesDistinct();
    match Find(EVENT_OPTIONS, HasValue(eventType))
    case Some(o) => BadgeStyle(o.color + "20", o.color)
    case None => FALLBACK_STYLE
  }

  /** After a reset the event selector shows its first option. */
  lemma ResetSelectsFirstOption()
    ensures Find(EVENT_OPTIONS, HasValue(EVENT_FORM_RESET.eventType)) == Some(EVENT_OPTIONS[0])
  {
  }

  /** The outcome of `handleEventSubmit`. */
  datatype EventSubmission = Refused(error: string) | Sent(request: Request)

  const NO_ORDER_SELECTED := "No se ha seleccionado ningún pedido"

  /** The event form as the request body: its type and its note, as chosen and typed. */
  function EventBody(f: EventForm): (b: map<string, Value>)
    ensures b.Keys == {"event_type", "note"}
    ensures b["event_type"] == Str(f.eventType) && b["note"] == Str(f.note)
  {
    map["event_type" := Str(f.eventType), "note" := Str(f.note)]
  }

  /**
   * Submitting an event: refused, with no request, unless an order with an id
   * (JavaScript treats the id 0 as none) is selected; otherwise a POST to
   * that order's event path with the event form as body.
   */
  function SubmitEvent(selected: Option<Order>, f: EventForm): (r: EventSubmission)
    ensures r.Refused? <==> selected.None? || selected.value.id == 0
    ensures r.Refused? ==> r.error == NO_ORDER_SELECTED
    ensures r.Sent? ==> r.request == Request(POST, "/api/orders/" + IdText(selected.value.id) + "/event", Some(EventBody(f)))
  {
    if selected.None? || selected.value.id == 0 then Refused(NO_ORDER_SELECTED)
    else Sent(Request(POST, "/api/orders/" + IdText(selected.value.id) + "/event", Some(EventBody(f))))
  }
}
