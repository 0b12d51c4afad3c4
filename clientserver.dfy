/**
 * Where the customer app and the backend meet: the cart line the app sends
 * against the price check of the order endpoint, and the app's cancel button
 * against the backend's refund policy. The app's order request copies each
 * cart line's `price` and `quantity`; prices are whole won in the app and
 * hundredths on the backend, so a price of `p` won arrives as `p * 100`.
 */
module ClientServer {
  import opened Wrappers
  import opened Types
  import opened Seqs
  import OrderHandler
  import OrderStatusPage

  /**
   * A line carrying the unit price, as the app builds it after the option
   * dialog, is refused for any quantity of two or more: the backend compares
   * the price with the whole line's total. A single unit passes.
   */
  lemma UnitPriceAgainstLineTotal(menuItems: seq<MenuItem>, req: OrderHandler.OrderItemRequest, item: MenuItem, mods: Money)
    requires Find(menuItems, OrderHandler.ItemWithId(req.menuItemId)) == Some(item) && item.available
    requires req.selectedOptions.Some? && OrderHandler.OptionsTotal(item, req.selectedOptions.value) == OrderHandler.Priced(mods)
    requires item.price + mods > OrderHandler.Tolerance && req.price == item.price + mods
    ensures req.quantity >= 2 ==> OrderHandler.PriceLine(menuItems, req) == OrderHandler.Rejected(OrderHandler.PriceMismatch(item.name))
    ensures req.quantity == 1 ==> OrderHandler.PriceLine(menuItems, req).Priced?
  {
    PriceGap(item.price + mods, req.quantity);
  }

  lemma PriceGap(u: int, q: int)
    requires u > OrderHandler.Tolerance
    ensures q >= 2 ==> OrderHandler.Abs(u - u * q) > OrderHandler.Tolerance
    ensures q == 1 ==> OrderHandler.Abs(u - u * q) == 0
  {
    if q >= 2 {
      assert u * q - u == u * (q - 1) >= u;
    }
  }

  /** Every status in which the app offers cancelling is one the backend cancels with a full refund. */
  lemma AppCancelsWithFullRefund(s: OrderStatus, total: Money, capPercent: int)
    requires OrderStatusPage.CanCancel(StatusName(s))
    ensures s != Completed
    ensures OrderHandler.RefundAmount(s, total, capPercent) == total as real
  {
  }
}
