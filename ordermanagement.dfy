/**
 * The owner app's order list: the status filter, the active orders, the
 * buttons each order offers, and the "time since ordered" label.
 */
module OrderManagement {
  import opened Seqs
  import opened Text
  import opened ClientTypes

  // ----- filters -----

  function WithStatus(status: string): Order -> bool {
    (o: Order) => o.status == status
  }

  /** filteredOrders: every order for 'ALL', else the orders with the chosen status. */
  function FilteredOrders(orders: seq<Order>, statusFilter: string): seq<Order> {
    if statusFilter == "ALL" then orders else Filter(orders, WithStatus(statusFilter))
  }

  /** The filter keeps exactly the orders with the chosen status, in their order. */
  lemma FilteredOrdersMeaning(orders: seq<Order>, statusFilter: string)
    ensures statusFilter == "ALL" ==> FilteredOrders(orders, statusFilter) == orders
    ensures statusFilter != "ALL" ==>
      var r := FilteredOrders(orders, statusFilter);
      (forall i :: 0 <= i < |r| ==> r[i].status == statusFilter && r[i] in orders)
      && forall i :: 0 <= i < |orders| && orders[i].status == statusFilter ==> orders[i] in r
  {
  }

  /** The statuses the owner still has to act on. */
  predicate IsActive(status: string) {
    status == "PAID" || status == "COOKING" || status == "READY"
  }

  function Active(o: Order): bool {
    IsActive(o.status)
  }

  /** activeOrders. */
  function ActiveOrders(orders: seq<Order>): (r: seq<Order>)
    ensures forall i :: 0 <= i < |r| ==> IsActive(r[i].status) && r[i] in orders
    ensures forall i :: 0 <= i < |orders| && IsActive(orders[i].status) ==> orders[i] in r
  {
    Filter(orders, Active)
  }

  /** The active orders are as many as the PAID, COOKING and READY tabs show together. */
  lemma {:induction false} ActiveCount(orders: seq<Order>)
    ensures |ActiveOrders(orders)| ==
      |FilteredOrders(orders, "PAID")| + |FilteredOrders(orders, "COOKING")| + |FilteredOrders(orders, "READY")|
    decreases |orders|
  {
    if orders != [] {
      ActiveCount(orders[..|orders| - 1]);
    }
  }

  // ----- the buttons -----

  predicate CanStartCooking(o: Order) {
    o.status == "PAID"
  }

  predicate CanMarkReady(o: Order) {
    o.status == "COOKING"
  }

  predicate CanComplete(o: Order) {
    o.status == "READY"
  }

  predicate CanCancel(o: Order) {
    o.status == "CREATED" || o.status == "PAYMENT_PENDING" || o.status == "PAID"
  }

  /** The status the owner's forward button asks for: COOKING from PAID, READY from COOKING, COMPLETED from READY. */
  function NextStatus(o: Order): (r: string)
    requires CanStartCooking(o) || CanMarkReady(o) || CanComplete(o)
  {
    if CanStartCooking(o) then "COOKING" else if CanMarkReady(o) then "READY" else "COMPLETED"
  }

  /**
   * At most one forward button is shown, exactly for the active orders, and
   * the status it asks for is always one of the statuses the page lists.
   */
  lemma ForwardButtons(o: Order)
    ensures (CanStartCooking(o) || CanMarkReady(o) || CanComplete(o)) <==> IsActive(o.status)
    ensures !(CanStartCooking(o) && CanMarkReady(o)) && !(CanMarkReady(o) && CanComplete(o))
      && !(CanStartCooking(o) && CanComplete(o))
    ensures IsActive(o.status) ==> NextStatus(o) in {"COOKING", "READY", "COMPLETED"} && NextStatus(o) != o.status
  {
  }

  /** Following the forward buttons from PAID passes COOKING and READY and ends at COMPLETED, which offers none. */
  lemma ForwardPath(o: Order)
    requires o.status == "PAID"
    ensures var o1 := o.(status := NextStatus(o));
      o1.status == "COOKING" && CanMarkReady(o1)
      && var o2 := o1.(status := NextStatus(o1));
      o2.status == "READY" && CanComplete(o2)
      && var o3 := o2.(status := NextStatus(o2));
      o3.status == "COMPLETED" && !IsActive(o3.status) && !CanCancel(o3)
  {
  }

  // ----- time since ordered -----

  /** The elapsed time as the label shows it: whole minutes below an hour, else whole hours. */
  datatype Elapsed = Minutes(minutes: int) | Hours(hours: int)

  function ElapsedOf(nowMs: int, orderMs: int): (e: Elapsed)
  {
    var diffMins := (nowMs - orderMs) / 60000;
    if diffMins < 60 then Minutes(diffMins) else Hours(diffMins / 60)
  }

  function ElapsedText(e: Elapsed): string {
    match e
    case Minutes(m) => IntToString(m) + "분 전"
    case Hours(h) => IntToString(h) + "시간 전"
  }

  /** getTimeElapsed, with both instants given in milliseconds. */
  function GetTimeElapsed(nowMs: int, orderMs: int): string {
    ElapsedText(ElapsedOf(nowMs, orderMs))
  }

  /** The label's number is the elapsed time rounded down to whole minutes, or to whole hours from one hour on. */
  lemma ElapsedBounds(nowMs: int, orderMs: int)
    ensures var d := nowMs - orderMs;
      match ElapsedOf(nowMs, orderMs)
      case Minutes(m) => m < 60 && m * 60000 <= d < (m + 1) * 60000
      case Hours(h) => h >= 1 && h * 3600000 <= d < (h + 1) * 3600000
  {
    var d := nowMs - orderMs;
    var m := d / 60000;
    assert m * 60000 <= d < (m + 1) * 60000;
    if m >= 60 {
      var h := m / 60;
      assert h * 60 <= m < h * 60 + 60;
      assert h * 3600000 == (h * 60) * 60000;
      assert (h + 1) * 3600000 == (h * 60 + 60) * 60000;
    }
  }

  lemma MinutesNotHours(a: int, b: int)
    ensures ElapsedText(Minutes(a)) != ElapsedText(Hours(b))
  {
    var x, y := IntToString(a), IntToString(b);
    if |x| == |y| + 1 {
      assert ElapsedText(Minutes(a))[|x|] == '분';
      assert ElapsedText(Hours(b))[|y| + 1] == '간';
    }
  }

  lemma SuffixCancels(x: string, y: string, suffix: string)
    requires x + suffix == y + suffix
    ensures x == y
  {
    assert x == (x + suffix)[..|x|];
    assert y == (y + suffix)[..|y|];
  }

  /** Two labels are the same exactly when they report the same elapsed time. */
  lemma ElapsedTextInjective(a: Elapsed, b: Elapsed)
    ensures ElapsedText(a) == ElapsedText(b) <==> a == b
  {
    match a
    case Minutes(m) => {
      match b
      case Minutes(n) =>
        if ElapsedText(a) == ElapsedText(b) {
          SuffixCancels(IntToString(m), IntToString(n), "분 전");
          IntToStringInjective(m, n);
        }
      case Hours(n) => MinutesNotHours(m, n);
    }
    case Hours(m) => {
      match b
      case Minutes(n) => MinutesNotHours(n, m);
      case Hours(n) =>
        if ElapsedText(a) == ElapsedText(b) {
          SuffixCancels(IntToString(m), IntToString(n), "시간 전");
          IntToStringInjective(m, n);
        }
    }
  }
}
