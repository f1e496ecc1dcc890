/**
 * The records the console fetches from its API, the two roles its screens
 * test for, and the candidate list of customers shared by the order form and
 * the document-assignment form.
 */
module Entities {
  import opened Common
  import opened Seqs

  /** An order as listed by the API; the fields the screens guard with `||` may be absent. */
  datatype Order = Order(
    id: Id,
    customerId: Option<string>,
    trackingCode: Option<string>,
    description: Option<string>,
    state: Option<string>)

  /** A technical document ("ficha"). */
  datatype Sheet = Sheet(id: Id, name: string, url: string, createdAt: Option<string>)

  /** A customer profile; `orders` and `technicalSheets` are absent in some responses. */
  datatype Customer = Customer(
    id: Id,
    name: string,
    email: string,
    phone: string,
    status: string,
    orders: Option<seq<Order>>,
    technicalSheets: Option<seq<Sheet>>)

  datatype Carrier = Carrier(id: Id, name: string, contact: string, state: string)

  /** A route; `cost` is the text the API sends for the amount, absent when null. */
  datatype Route = Route(
    id: Id,
    orderId: Id,
    carrierId: Id,
    sourceAddress: string,
    destinationAddress: string,
    departureDate: Option<string>,
    estimatedDeliveryDate: Option<string>,
    comment: Option<string>,
    cost: Option<string>,
    state: Option<string>)

  datatype User = User(id: Id, name: string, email: string, phone: string, role: string)

  /** `user.role === "admin"` */
  predicate IsAdmin(role: string)
  {
    role == "admin"
  }

  /** `user.role === "admin" || user.role === "logistica"` */
  predicate IsStaff(role: string)
  {
    role == "admin" || role == "logistica"
  }

  predicate IsActive(c: Customer)
  {
    c.status == "active"
  }

  /**
   * `data.filter(cliente => cliente.status === 'active')`: the customers the
   * order form and the assignment form offer. Exactly the active ones, each as
   * often as it was fetched, in fetched order.
   */
  function ActiveCustomers(cs: seq<Customer>): (r: seq<Customer>)
    ensures forall i :: 0 <= i < |r| ==> r[i] in cs && r[i].status == "active"
    ensures forall i :: 0 <= i < |cs| && cs[i].status == "active" ==> cs[i] in r
    ensures forall c :: multiset(r)[c] == if c.status == "active" then multiset(cs)[c] else 0
    ensures IsSubsequence(r, cs)
  {
    FilterIsSubsequence(cs, IsActive);
    forall c ensures multiset(Filter(cs, IsActive))[c] == if c.status == "active" then multiset(cs)[c] else 0 {
      FilterMultiplicity(cs, IsActive, c);
    }
    Filter(cs, IsActive)
  }
}
