/**
 * The owner dashboard's figures, computed from the restaurant's orders: how
 * many were placed today, today's revenue, and how many are in progress or
 * waiting for the kitchen.
 */
module Stats {
  import opened Wrappers
  import opened Types
  import opened Seqs

  datatype DashboardStats = DashboardStats(todayOrders: nat, todayRevenue: Money, activeOrders: nat,
                                           avgOrderTime: int, pendingOrders: nat)

  /** The fixed average preparation time, in minutes. */
  const AvgOrderTime: int := 25

  /** The figures answered when the order query fails (384000 in hundredths). */
  const MockStats: DashboardStats := DashboardStats(12, 38400000, 3, AvgOrderTime, 1)

  /** The UTC day of an instant: what `toISOString().split('T')[0]` names. */
  function Day(t: Time): int {
    t / MsPerDay
  }

  function PlacedOn(day: int): OrderRecord -> bool {
    (o: OrderRecord) => Day(o.createdAt) == day
  }

  /** PAID, CONFIRMED, COOKING, READY and COMPLETED orders count towards revenue. */
  predicate CountsTowardRevenue(s: OrderStatus) {
    s == Paid || s == Confirmed || s == Cooking || s == Ready || s == Completed
  }

  /** PAID, CONFIRMED, COOKING and READY orders are active. */
  predicate IsActive(s: OrderStatus) {
    s == Paid || s == Confirmed || s == Cooking || s == Ready
  }

  function Active(o: OrderRecord): bool {
    IsActive(o.status)
  }

  function Pending(o: OrderRecord): bool {
    o.status == Paid
  }

  /** The reducer's step: the order's amount when it counts towards revenue, else nothing. */
  function RevenueOf(o: OrderRecord): int {
    if CountsTowardRevenue(o.status) then o.totalAmount else 0
  }

  function TotalOf(o: OrderRecord): int {
    o.totalAmount
  }

  function Paying(o: OrderRecord): bool {
    CountsTowardRevenue(o.status)
  }

  /** The figures for the orders `orders` of the restaurant at instant `now`. */
  function Figures(orders: seq<OrderRecord>, now: Time): (r: DashboardStats)
    ensures r.todayOrders <= |orders| && r.activeOrders <= |orders|
    ensures r.avgOrderTime == 25
  {
    var today := Filter(orders, PlacedOn(Day(now)));
    DashboardStats(|today|, SumOf(today, RevenueOf), Count(orders, Active), AvgOrderTime, Count(orders, Pending))
  }

  /**
   * GET /dashboard/stats?restaurantId=… `query` is the restaurant's orders,
   * or none when the query fails.
   */
  function GetDashboardStats(restaurantId: Option<string>, query: Option<seq<OrderRecord>>, now: Time): (r: Reply<DashboardStats>)
    ensures !Present(restaurantId) ==> r == Failure(Problem(400, "Restaurant ID is required"))
    ensures Present(restaurantId) ==> r.Answer? && r.status == 200
    ensures Present(restaurantId) && query.None? ==> r.value == MockStats
    ensures Present(restaurantId) && query.Some? ==> r.value == Figures(query.value, now)
  {
    if !Present(restaurantId) then Failure(Problem(400, "Restaurant ID is required"))
    else if query.None? then Answer(200, MockStats)
    else Answer(200, Figures(query.value, now))
  }

  /** Today's revenue is the sum of the amounts of today's paying orders; the others add nothing. */
  lemma {:induction false} RevenueOfPaying(orders: seq<OrderRecord>)
    ensures SumOf(orders, RevenueOf) == SumOf(Filter(orders, Paying), TotalOf)
    decreases |orders|
  {
    if orders != [] {
      var init := orders[..|orders| - 1];
      var last := orders[|orders| - 1];
      RevenueOfPaying(init);
      if Paying(last) {
        SumOfAppend(Filter(init, Paying), [last], TotalOf);
        assert [last][..0] == [];
      }
    }
  }

  /** Orders that do not count towards revenue (CREATED, CANCELLED) never change it. */
  lemma UnpaidAddsNothing(orders: seq<OrderRecord>, o: OrderRecord)
    requires o.status == Created || o.status == Cancelled
    ensures SumOf(orders + [o], RevenueOf) == SumOf(orders, RevenueOf)
  {
    assert (orders + [o])[..|orders|] == orders;
  }

  /** Every pending order is an active one. */
  lemma PendingWithinActive(orders: seq<OrderRecord>, now: Time)
    ensures Figures(orders, now).pendingOrders <= Figures(orders, now).activeOrders
  {
    CountMonotone(orders, Pending, Active);
  }

  /** With non-negative amounts, revenue is non-negative and at most the sum over all of today's orders. */
  lemma {:induction false} RevenueBounds(orders: seq<OrderRecord>)
    requires forall i :: 0 <= i < |orders| ==> orders[i].totalAmount >= 0
    ensures 0 <= SumOf(orders, RevenueOf) <= SumOf(orders, TotalOf)
    decreases |orders|
  {
    if orders != [] {
      RevenueBounds(orders[..|orders| - 1]);
    }
  }
}
