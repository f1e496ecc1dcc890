/**
 * The route screen: the create/edit modal and the payload it sends, the
 * carrier picker, the role-gated cost column and edit button, and the
 * lookups that show an order's tracking code and a carrier's name.
 */
module Routes {
  import opened Common
  import opened Seqs
  import opened Entities

  // ---------------------------------------------------------------------
  // Form and payload

  datatype RouteForm = RouteForm(
    orderId: string,
    carrierId: string,
    sourceAddress: string,
    destinationAddress: string,
    departureDate: string,
    estimatedDeliveryDate: string,
    comment: string,
    cost: string)

  const EMPTY_ROUTE_FORM := RouteForm("", "", "", "", "", "", "", "")

  const ROUTE_FIELDS := {"order_id", "carrier_id", "source_address", "destination_address",
                         "departure_date", "estimated_delivery_date", "comment", "cost"}

  /** The fields a route keeps from its creation on. */
  const WRITE_ONCE_FIELDS := {"order_id", "carrier_id", "source_address", "departure_date"}

  const EDITABLE_FIELDS := {"destination_address", "estimated_delivery_date", "comment", "cost"}

  /** The text the form holds under a JSON key. */
  function FieldText(f: RouteForm, key: string): string
    requires key in ROUTE_FIELDS
  {
    match key
    case "order_id" => f.orderId
    case "carrier_id" => f.carrierId
    case "source_address" => f.sourceAddress
    case "destination_address" => f.destinationAddress
    case "departure_date" => f.departureDate
    case "estimated_delivery_date" => f.estimatedDeliveryDate
    case "comment" => f.comment
    case "cost" => f.cost
  }

  /** `formData.cost ? parseFloat(formData.cost) : null` */
  function CostValue(cost: string): (v: Value)
    ensures v == Null <==> cost == ""
    ensures v != Null ==> v == Num(cost)
  {
    if cost == "" then Null else Num(cost)
  }

  /**
   * The payload of a save: every field of the form as text, except the cost,
   * which is null when empty and the parsed number otherwise; an update
   * leaves out the four write-once fields.
   */
  function RoutePayload(f: RouteForm, editing: bool): (p: map<string, Value>)
    ensures editing ==> p.Keys == EDITABLE_FIELDS && p.Keys !! WRITE_ONCE_FIELDS
    ensures !editing ==> p.Keys == ROUTE_FIELDS
    ensures p["cost"] == CostValue(f.cost)
    ensures forall k :: k in p && k != "cost" ==> p[k] == Str(FieldText(f, k))
  {
    var keys := if editing then EDITABLE_FIELDS else ROUTE_FIELDS;
    map k | k in keys :: if k == "cost" then CostValue(f.cost) else Str(FieldText(f, k))
  }

  /** An update sends the create payload minus the write-once fields, and nothing in it altered. */
  lemma UpdateIsCreateWithoutWriteOnce(f: RouteForm)
    ensures RoutePayload(f, true) == RoutePayload(f, false) - WRITE_ONCE_FIELDS
  {
    var u, c := RoutePayload(f, true), RoutePayload(f, false);
    assert u.Keys == (c - WRITE_ONCE_FIELDS).Keys;
  }

  /**
   * `handleSubmit`'s payload as the source builds it: copy the form with the
   * cost converted, then, when editing, delete the write-once keys one by one.
   */
  method BuildPayload(f: RouteForm, editing: bool) returns (data: map<string, Value>)
    ensures data == RoutePayload(f, editing)
  {
    data := map[
      "order_id" := Str(f.orderId),
      "carrier_id" := Str(f.carrierId),
      "source_address" := Str(f.sourceAddress),
      "destination_address" := Str(f.destinationAddress),
      "departure_date" := Str(f.departureDate),
      "estimated_delivery_date" := Str(f.estimatedDeliveryDate),
      "comment" := Str(f.comment),
      "cost" := Str(f.cost)];
    data := data["cost" := CostValue(f.cost)];
    if editing {
      data := data - {"order_id"};
      data := data - {"carrier_id"};
      data := data - {"source_address"};
      data := data - {"departure_date"};
    }
    assert data.Keys == RoutePayload(f, editing).Keys;
  }

  // ---------------------------------------------------------------------
  // Edit pre-fill

  /** The text before the first 'T' (all of it when there is none): `s.split('T')[0]`. */
  function BeforeT(s: string): (r: string)
    ensures r <= s && 'T' !in r
    ensures 'T' in s ==> |r| < |s| && s[|r|] == 'T'
    ensures 'T' !in s ==> r == s
  {
    if s == [] then []
    else if s[0] == 'T' then []
    else [s[0]] + BeforeT(s[1..])
  }

  /** A stored timestamp cut to its day for a date input; "" when absent. */
  function DatePart(d: Option<string>): (r: string)
    ensures d.None? || d.value == "" ==> r == ""
    ensures d.Some? && d.value != "" ==> r == BeforeT(d.value)
    ensures d.Some? ==> r <= d.value && 'T' !in r
    ensures d.Some? && 'T' in d.value ==> d.value[|r|] == 'T'
    ensures d.Some? && 'T' !in d.value ==> r == d.value
  {
    if d.Some? && d.value != "" then BeforeT(d.value) else ""
  }

  /** `handleEdit`: ids and addresses copied, dates cut to the day, comment and cost "" when absent. */
  function Prefill(r: Route): (f: RouteForm)
    ensures f.orderId == IdText(r.orderId) && f.carrierId == IdText(r.carrierId)
    ensures f.sourceAddress == r.sourceAddress && f.destinationAddress == r.destinationAddress
    ensures f.departureDate == DatePart(r.departureDate)
    ensures f.estimatedDeliveryDate == DatePart(r.estimatedDeliveryDate)
    ensures f.comment == (if r.comment.Some? then r.comment.value else "")
    ensures f.cost == (if r.cost.Some? then r.cost.value else "")
  {
    RouteForm(IdText(r.orderId), IdText(r.carrierId), r.sourceAddress, r.destinationAddress,
              DatePart(r.departureDate), DatePart(r.estimatedDeliveryDate),
              OrDefault(r.comment, ""), OrDefault(r.cost, ""))
  }

  /**
   * Saving an edit form nobody changed sends the route's own destination,
   * its estimated date cut to the day, its comment, and its cost (null when
   * it has none).
   */
  lemma UnchangedEditPayload(r: Route)
    ensures RoutePayload(Prefill(r), true) == map[
      "destination_address" := Str(r.destinationAddress),
      "estimated_delivery_date" := Str(DatePart(r.estimatedDeliveryDate)),
      "comment" := Str(OrDefault(r.comment, "")),
      "cost" := if r.cost.None? || r.cost.value == "" then Null else Num(r.cost.value)]
  {
  }

  // ---------------------------------------------------------------------
  // Role-gated parts of the screen

  /** The cost column, form field and detail row are shown to admin and logistics users only. */
  predicate ShowsCost(role: string)
  {
    IsStaff(role)
  }

  function TableHeaders(role: string): (h: seq<string>)
    ensures "Costo" in h <==> ShowsCost(role)
  {
    ["ID Pedido", "Transportista", "Dirección Origen", "Dirección Destino"]
    + (if ShowsCost(role) then ["Costo"] else [])
    + ["Fecha Creación", "Acciones"]
  }

  /** The column span of the "no routes" row. */
  function EmptyColSpan(role: string): nat
  {
    if role == "admin" || role == "logistica" then 7 else 6
  }

  /** The "no routes" row spans exactly the columns the header shows. */
  lemma EmptyRowSpansHeader(role: string)
    ensures EmptyColSpan(role) == |TableHeaders(role)|
    ensures EmptyColSpan(role) == (if ShowsCost(role) then 7 else 6)
  {
  }

  datatype EditButton = NoEditButton | EditEnabled | EditDisabled

  /** "Editar" is rendered for admins only, and disabled on a cancelled route. */
  function EditButtonFor(role: string, r: Route): (b: EditButton)
    ensures b == NoEditButton <==> !IsAdmin(role)
    ensures b == EditDisabled <==> IsAdmin(role) && r.state == Some("cancelled")
    ensures b == EditEnabled <==> IsAdmin(role) && r.state != Some("cancelled")
  {
    if role != "admin" then NoEditButton
    else if r.state == Some("cancelled") then EditDisabled
    else EditEnabled
  }

  // ---------------------------------------------------------------------
  // Pickers and lookups

  predicate IsAvailable(c: Carrier)
  {
    c.state == "available"
  }

  /** The carriers the create form offers: exactly the available ones, in fetched order. */
  function AvailableCarriers(cs: seq<Carrier>): (r: seq<Carrier>)
    ensures forall i :: 0 <= i < |r| ==> r[i] in cs && r[i].state == "available"
    ensures forall i :: 0 <= i < |cs| && cs[i].state == "available" ==> cs[i] in r
    ensures forall c :: multiset(r)[c] == if c.state == "available" then multiset(cs)[c] else 0
    ensures IsSubsequence(r, cs)
  {
    FilterIsSubsequence(cs, IsAvailable);
    forall c ensures multiset(Filter(cs, IsAvailable))[c] == if c.state == "available" then multiset(cs)[c] else 0 {
      FilterMultiplicity(cs, IsAvailable, c);
    }
    Filter(cs, IsAvailable)
  }

  function OrderHasId(id: Id): Order -> bool
  {
    (o: Order) => o.id == id
  }

  function CarrierHasId(id: Id): Carrier -> bool
  {
    (c: Carrier) => c.id == id
  }

  /**
   * `getOrdenTracking`: the tracking code of the first order with the id
   * (absent when that order has none), or "N/A" when no order has it.
   */
  function OrderTracking(orders: seq<Order>, id: Id): (t: Option<string>)
    ensures (forall i :: 0 <= i < |orders| ==> orders[i].id != id) ==> t == Some("N/A")
    ensures forall i :: 0 <= i < |orders| && orders[i].id == id && (forall j :: 0 <= j < i ==> orders[j].id != id)
              ==> t == orders[i].trackingCode
  {
    match Find(orders, OrderHasId(id))
    case Some(o) => o.trackingCode
    case None => Some("N/A")
  }

  /** `getTransportistaNombre`: the name of the first carrier with the id, or "N/A". */
  function CarrierName(carriers: seq<Carrier>, id: Id): (n: string)
    ensures (forall i :: 0 <= i < |carriers| ==> carriers[i].id != id) ==> n == "N/A"
    ensures forall i :: 0 <= i < |carriers| && carriers[i].id == id && (forall j :: 0 <= j < i ==> carriers[j].id != id)
              ==> n == carriers[i].name
  {
    match Find(carriers, CarrierHasId(id))
    case Some(c) => c.name
    case None => "N/A"
  }

  /** When the fetched carriers have distinct ids, the lookup of a listed carrier's id gives its name. */
  lemma CarrierNameOfListed(carriers: seq<Carrier>, k: nat)
    requires k < |carriers|
    requires forall i, j :: 0 <= i < j < |carriers| ==> carriers[i].id != carriers[j].id
    ensures CarrierName(carriers, carriers[k].id) == carriers[k].name
  {
  }

  /** When the fetched orders have distinct ids, the lookup of a listed order's id gives its tracking code. */
  lemma OrderTrackingOfListed(orders: seq<Order>, k: nat)
    requires k < |orders|
    requires forall i, j :: 0 <= i < j < |orders| ==> orders[i].id != orders[j].id
    ensures OrderTracking(orders, orders[k].id) == orders[k].trackingCode
  {
  }

  // ---------------------------------------------------------------------
  // The modal as a sequence of user steps

  datatype RouteModal = RouteModal(open: bool, editing: Option<Route>, form: RouteForm)

  const INITIAL_MODAL := RouteModal(false, None, EMPTY_ROUTE_FORM)

  datatype RouteField =
    | OrderIdField | CarrierIdField | SourceField | DestinationField
    | DepartureField | EstimatedField | CommentField | CostField

  /**
   * Which inputs the modal renders: the write-once ones only when creating,
   * the cost only for admin and logistics users, the rest always.
   */
  predicate Rendered(field: RouteField, editing: bool, role: string)
  {
    match field
    case OrderIdField => !editing
    case CarrierIdField => !editing
    case SourceField => !editing
    case DepartureField => !editing
    case CostField => ShowsCost(role)
    case _ => true
  }

  function SetField(f: RouteForm, field: RouteField, value: string): RouteForm
  {
    match field
    case OrderIdField => f.(orderId := value)
    case CarrierIdField => f.(carrierId := value)
    case SourceField => f.(sourceAddress := value)
    case DestinationField => f.(destinationAddress := value)
    case DepartureField => f.(departureDate := value)
    case EstimatedField => f.(estimatedDeliveryDate := value)
    case CommentField => f.(comment := value)
    case CostField => f.(cost := value)
  }

  datatype ModalStep =
    | OpenNew                                   // "+ Nueva Ruta", offered to every role
    | ClickEdit(route: Route)                   // "Editar" on a row
    | Type(field: RouteField, value: string)    // a change event on an input
    | CloseModal
    | SaveSucceeded
    | SaveFailed

  /** One step of a session of a user with the given role; a click on an absent or disabled button does nothing. */
  function Step(role: string, m: RouteModal, s: ModalStep): RouteModal
  {
    match s
    case OpenNew => m.(open := true)
    case ClickEdit(r) =>
      if EditButtonFor(role, r) == EditEnabled then RouteModal(true, Some(r), Prefill(r)) else m
    case Type(field, value) =>
      if m.open && Rendered(field, m.editing.Some?, role) then m.(form := SetField(m.form, field, value)) else m
    case CloseModal => INITIAL_MODAL
    case SaveSucceeded => INITIAL_MODAL
    case SaveFailed => m
  }

  function Run(role: string, m: RouteModal, steps: seq<ModalStep>): RouteModal
    decreases |steps|
  {
    if steps == [] then m else Run(role, Step(role, m, steps[0]), steps[1..])
  }

  /**
   * What every reachable modal satisfies: closed means empty; only an admin
   * edits, and never a cancelled route; a user who is not staff never has a
   * cost in the form.
   */
  ghost predicate ModalInv(role: string, m: RouteModal)
  {
    && (!m.open ==> m.editing.None? && m.form == EMPTY_ROUTE_FORM)
    && (m.editing.Some? ==> IsAdmin(role) && m.editing.value.state != Some("cancelled"))
    && (!ShowsCost(role) ==> m.form.cost == "")
  }

  lemma {:induction false} RunKeepsInv(role: string, m: RouteModal, steps: seq<ModalStep>)
    requires ModalInv(role, m)
    ensures ModalInv(role, Run(role, m, steps))
    decreases |steps|
  {
    if steps != [] {
      var m' := Step(role, m, steps[0]);
      assert ModalInv(role, m');
      RunKeepsInv(role, m', steps[1..]);
    }
  }

  /** `handleSubmit`'s request: PUT to the edited route or POST, with the shaped payload. */
  method SaveRequest(m: RouteModal) returns (req: Request)
    ensures m.editing.Some? ==> req.verb == PUT && req.path == "/api/router/" + IdText(m.editing.value.id)
    ensures m.editing.None? ==> req.verb == POST && req.path == "/api/router"
    ensures req.body == Some(RoutePayload(m.form, m.editing.Some?))
  {
    var path := if m.editing.Some? then "/api/router/" + IdText(m.editing.value.id) else "/api/router";
    var verb := if m.editing.Some? then PUT else POST;
    var data := BuildPayload(m.form, m.editing.Some?);
    req := Request(verb, path, Some(data));
  }

  /**
   * Whatever a user does from the initial screen: an update never targets a
   * cancelled route and never carries a write-once field, and a user who is
   * neither admin nor logistics always sends a null cost.
   */
  lemma SessionPayloads(role: string, steps: seq<ModalStep>)
    ensures var m := Run(role, INITIAL_MODAL, steps);
      && (m.editing.Some? ==> IsAdmin(role) && m.editing.value.state != Some("cancelled"))
      && (m.editing.Some? ==> RoutePayload(m.form, true).Keys !! WRITE_ONCE_FIELDS)
      && (!ShowsCost(role) ==> RoutePayload(m.form, m.editing.Some?)["cost"] == Null)
  {
    RunKeepsInv(role, INITIAL_MODAL, steps);
  }
}
