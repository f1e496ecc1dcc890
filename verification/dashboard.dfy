/**
 * The admin dashboard: how the orders response is turned into a list,
 * what a fetch does to the screen's state, the per-state counts, and the
 * percentage that sizes each bar.
 */
module Dashboard {
  import opened Common
  import opened Seqs
  import opened Entities

  // ---------------------------------------------------------------------
  // Fetching

  /**
   * What the orders request can answer: an array; a non-null value whose
   * `orders` field holds a list or is absent; or null, on which reading
   * `orders` throws.
   */
  datatype OrdersResponse = OrderArray(orders: seq<Order>) | OrdersObject(field: Option<seq<Order>>) | NullData

  datatype FetchResult = Received(data: OrdersResponse) | Failed

  datatype DashboardState = DashboardState(orders: seq<Order>, loading: bool)

  const INITIAL_DASHBOARD := DashboardState([], true)

  /**
   * The effect of the fetch: an array is used as it is, otherwise the
   * `orders` field, otherwise the empty list; a failed request or a throw
   * keeps the previous list. Loading ends in every case.
   */
  function AfterFetch(prev: DashboardState, r: FetchResult): (next: DashboardState)
    ensures !next.loading
    ensures r.Failed? || r.data.NullData? ==> next.orders == prev.orders
    ensures r.Received? && r.data.OrderArray? ==> next.orders == r.data.orders
    ensures r.Received? && r.data.OrdersObject? && r.data.field.Some? ==> next.orders == r.data.field.value
    ensures r.Received? && r.data.OrdersObject? && r.data.field.None? ==> next.orders == []
  {
    match r
    case Failed => prev.(loading := false)
    case Received(NullData) => prev.(loading := false)
    case Received(OrderArray(os)) => DashboardState(os, false)
    case Received(OrdersObject(Some(os))) => DashboardState(os, false)
    case Received(OrdersObject(None)) => DashboardState([], false)
  }

  /** The screen only ever fetches once, from the empty list, so an unusable answer shows no orders. */
  lemma FirstFetchOfUnusableAnswer(r: FetchResult)
    requires r.Failed? || r.data.NullData? || r.data == OrdersObject(None)
    ensures AfterFetch(INITIAL_DASHBOARD, r) == DashboardState([], false)
  {
  }

  // ---------------------------------------------------------------------
  // Counts

  function StateIs(st: string): Order -> bool
  {
    (o: Order) => o.state == Some(st)
  }

  /** `orders.filter(o => o.state === st).length` */
  function CountState(os: seq<Order>, st: string): (n: nat)
    ensures n <= |os|
  {
    |Filter(os, StateIs(st))|
  }

  /** The positions of the orders whose state is exactly `st`. */
  ghost function Positions(os: seq<Order>, st: string): set<nat>
  {
    set i: nat | i < |os| && os[i].state == Some(st)
  }

  /** Appending an order adds its position exactly when it is in the state. */
  lemma PositionsSnoc(init: seq<Order>, last: Order, st: string)
    ensures Positions(init + [last], st)
            == Positions(init, st) + (if last.state == Some(st) then {|init|} else {})
  {
    var os := init + [last];
    forall i: nat | i < |init| ensures os[i] == init[i] {
    }
  }

  /** Each count is the number of orders in exactly that state. */
  lemma {:induction false} CountIsNumberOfPositions(os: seq<Order>, st: string)
    ensures CountState(os, st) == |Positions(os, st)|
    decreases |os|
  {
    if os != [] {
      var init, last := os[..|os| - 1], os[|os| - 1];
      assert os == init + [last];
      CountIsNumberOfPositions(init, st);
      FilterConcat(init, [last], StateIs(st));
      PositionsSnoc(init, last, st);
      assert |init| !in Positions(init, st);
    }
  }

  predicate OtherState(o: Order)
  {
    o.state != Some("cancelled") && o.state != Some("in_transit") && o.state != Some("pending")
  }

  /**
   * The cancelled, in-transit and pending counts and the orders in any other
   * state (delivered, unknown or absent) together make up the total.
   */
  lemma {:induction false} CountsPartitionTotal(os: seq<Order>)
    ensures CountState(os, "cancelled") + CountState(os, "in_transit") + CountState(os, "pending")
            + |Filter(os, OtherState)| == |os|
  {
    if os != [] {
      CountsPartitionTotal(os[1..]);
    }
  }

  /** The three bars never add up to more than the total. */
  lemma CountsWithinTotal(os: seq<Order>)
    ensures CountState(os, "cancelled") + CountState(os, "in_transit") + CountState(os, "pending") <= |os|
  {
    CountsPartitionTotal(os);
  }

  /** A delivered order, or one in a state the dashboard does not know, only adds to the total. */
  lemma OtherOrderOnlyAddsToTotal(os: seq<Order>, o: Order)
    requires OtherState(o)
    ensures |os + [o]| == |os| + 1
    ensures CountState(os + [o], "cancelled") == CountState(os, "cancelled")
    ensures CountState(os + [o], "in_transit") == CountState(os, "in_transit")
    ensures CountState(os + [o], "pending") == CountState(os, "pending")
  {
    FilterConcat(os, [o], StateIs("cancelled"));
    FilterConcat(os, [o], StateIs("in_transit"));
    FilterConcat(os, [o], StateIs("pending"));
  }

  // ---------------------------------------------------------------------
  // Bars

  /** `calcPercent`: the share of the total in percent, 0 when there are no orders. */
  function CalcPercent(value: nat, total: nat): (p: real)
    ensures total == 0 ==> p == 0.0
    ensures total > 0 && value == total ==> p == 100.0
    ensures value <= total ==> 0.0 <= p <= 100.0
  {
    if total == 0 then 0.0 else (value as real / total as real) * 100.0
  }

  /** Every bar of the chart is between empty and full, and the total's bar is full whenever there are orders. */
  lemma BarsWithinChart(os: seq<Order>, st: string)
    ensures 0.0 <= CalcPercent(CountState(os, st), |os|) <= 100.0
    ensures |os| > 0 ==> CalcPercent(|os|, |os|) == 100.0
  {
  }
}
