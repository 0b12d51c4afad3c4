/**
 * Interleavings of the handlers that change order rows. Every change is one
 * atomic guarded update of one row, so a race is a sequence of those updates
 * in some order; the guards decide which of the competing changes sticks.
 */
module Races {
  import opened Wrappers
  import opened Types
  import opened Store
  import OrderHandler
  import PaymentCallback
  import AutoComplete

  /** No two rows share an order id (order ids are fresh UUIDs). */
  predicate UniqueOrderIds(rows: map<OrderKey, OrderRecord>) {
    forall k1, k2 :: k1 in rows && k2 in rows && k1.orderId == k2.orderId ==> k1 == k2
  }

  /**
   * The provider delivers the same verified SUCCESS callback twice. The order
   * goes to PAID at most once, with the first delivery's time; the second
   * delivery is answered 409 and changes nothing.
   */
  method DuplicateSuccessCallback(orders: OrderTable, cb: PaymentCallback.CallbackData, now1: Time, now2: Time)
    returns (first: Reply<PaymentCallback.CallbackAck>, second: Reply<PaymentCallback.CallbackAck>)
    requires cb.status == PaymentCallback.PaySuccess
    requires UniqueOrderIds(orders.rows)
    modifies orders
    ensures !PaymentCallback.HasOrder(old(orders.rows), cb.orderId) ==>
      first == Failure(Problem(404, "Order not found")) && second == first && orders.rows == old(orders.rows)
    ensures PaymentCallback.HasOrder(old(orders.rows), cb.orderId) ==>
      second == Failure(PaymentCallback.AlreadyUpdated)
      && (exists k :: k in old(orders.rows) && k.orderId == cb.orderId
           && (old(orders.rows)[k].status == Created ==>
                 first == Answer(200, PaymentCallback.CallbackAck(true, cb.orderId, PaymentCallback.PaySuccess))
                 && orders.rows == old(orders.rows)[k := PaymentCallback.MarkPaid(old(orders.rows)[k], cb, now1)])
           && (old(orders.rows)[k].status != Created ==>
                 first == Failure(PaymentCallback.AlreadyUpdated) && orders.rows == old(orders.rows)))
  {
    ghost var start := orders.rows;
    first := PaymentCallback.ProcessPaymentCallback(orders, cb, PaymentCallback.Verified, now1);
    ghost var middle := orders.rows;
    second := PaymentCallback.ProcessPaymentCallback(orders, cb, PaymentCallback.Verified, now2);
    if PaymentCallback.HasOrder(start, cb.orderId) {
      var k :| k in start && k.orderId == cb.orderId
        && (start[k].status == Created ==>
              middle == start[k := PaymentCallback.MarkPaid(start[k], cb, now1)]
              && first == Answer(200, PaymentCallback.CallbackAck(true, cb.orderId, PaymentCallback.PaySuccess)))
        && (start[k].status != Created ==> middle == start && first == Failure(PaymentCallback.AlreadyUpdated));
      assert middle.Keys == start.Keys;
      assert middle[k].status != Created;
      var k2 :| k2 in middle && k2.orderId == cb.orderId
        && (middle[k2].status == Created ==>
              orders.rows == middle[k2 := PaymentCallback.MarkPaid(middle[k2], cb, now2)])
        && (middle[k2].status != Created ==>
              orders.rows == middle && second == Failure(PaymentCallback.AlreadyUpdated));
      assert k2 == k;
    }
  }

  /**
   * A customer's cancel reads the order while it is READY, the sweep then
   * completes it, and only then the cancel writes. The cancel's guard fails:
   * the order stays COMPLETED and the cancel is answered 500.
   */
  method CancelLosesToSweep(orders: OrderTable, key: OrderKey, snapshot: OrderRecord,
                            cancelAt: Time, sweepAt: Time, minutes: int, capPercent: int)
    returns (cancel: Reply<OrderHandler.Cancellation>, swept: AutoComplete.ItemOutcome)
    requires key.orderId != "" && key.restaurantId != ""
    requires key in orders.rows && orders.rows[key].status == Ready
    requires snapshot.status == Ready && snapshot.updatedAt <= AutoComplete.Cutoff(sweepAt, minutes)
    modifies orders
    ensures swept == AutoComplete.CompletedNow
    ensures cancel == Failure(Unexpected) && cancel.problem.status == 500
    ensures orders.rows == old(orders.rows)[key := AutoComplete.MarkCompleted(old(orders.rows)[key], sweepAt)]
    ensures orders.rows[key].status == Completed && orders.rows[key].refundInfo == old(orders.rows)[key].refundInfo
  {
    assert OrderKey(key.orderId, key.restaurantId) == key;
    var plan := OrderHandler.PlanCancel(orders, Some(key.orderId), Some(key.restaurantId), capPercent);
    assert plan.Commit? && plan.key == key;
    var note;
    swept, note := AutoComplete.AutoCompleteOrder(orders, key, snapshot, sweepAt, minutes, false);
    cancel := OrderHandler.CommitCancel(orders, plan.key, plan.refund, plan.refundMethod, cancelAt);
  }

  /**
   * The other order of the same two requests: the sweep completes the order
   * first, and the cancel that comes after is refused with 400 and writes
   * nothing.
   */
  method SweepThenCancel(orders: OrderTable, key: OrderKey, snapshot: OrderRecord,
                         cancelAt: Time, sweepAt: Time, minutes: int, capPercent: int)
    returns (cancel: Reply<OrderHandler.Cancellation>, swept: AutoComplete.ItemOutcome)
    requires key.orderId != "" && key.restaurantId != ""
    requires key in orders.rows && orders.rows[key].status == Ready
    requires snapshot.status == Ready && snapshot.updatedAt <= AutoComplete.Cutoff(sweepAt, minutes)
    modifies orders
    ensures swept == AutoComplete.CompletedNow
    ensures cancel == Failure(Problem(400, "Cannot cancel completed order"))
    ensures orders.rows == old(orders.rows)[key := AutoComplete.MarkCompleted(old(orders.rows)[key], sweepAt)]
  {
    var note;
    swept, note := AutoComplete.AutoCompleteOrder(orders, key, snapshot, sweepAt, minutes, false);
    assert OrderKey(key.orderId, key.restaurantId) == key;
    assert orders.rows[key].status == Completed;
    assert OrderHandler.PlanCancel(orders, Some(key.orderId), Some(key.restaurantId), capPercent).Answered?;
    cancel := OrderHandler.DeleteOrder(orders, Some(key.orderId), Some(key.restaurantId), cancelAt, capPercent);
  }

  /**
   * Cancelling is not refused for an order that is already CANCELLED: the
   * second cancel goes through and records a new refund, the whole total
   * again, since CANCELLED is neither COOKING nor READY.
   */
  method CancelTwice(orders: OrderTable, key: OrderKey, now1: Time, now2: Time, capPercent: int)
    returns (first: Reply<OrderHandler.Cancellation>, second: Reply<OrderHandler.Cancellation>)
    requires key.orderId != "" && key.restaurantId != ""
    requires key in orders.rows && orders.rows[key].status != Completed
    modifies orders
    ensures first.Answer? && second.Answer?
    ensures second.value.refundAmount == old(orders.rows)[key].totalAmount as real
    ensures key in orders.rows && orders.rows[key].status == Cancelled
    ensures orders.rows[key].refundInfo == Some(RefundInfo(old(orders.rows)[key].totalAmount as real, now2, "Customer cancellation"))
  {
    ghost var total := orders.rows[key].totalAmount;
    assert OrderKey(key.orderId, key.restaurantId) == key;
    assert OrderHandler.PlanCancel(orders, Some(key.orderId), Some(key.restaurantId), capPercent).Commit?;
    first := OrderHandler.DeleteOrder(orders, Some(key.orderId), Some(key.restaurantId), now1, capPercent);
    assert key in orders.rows && orders.rows[key].status == Cancelled && orders.rows[key].totalAmount == total;
    assert OrderHandler.PlanCancel(orders, Some(key.orderId), Some(key.restaurantId), capPercent).Commit?;
    second := OrderHandler.DeleteOrder(orders, Some(key.orderId), Some(key.restaurantId), now2, capPercent);
  }
}
