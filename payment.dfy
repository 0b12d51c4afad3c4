/**
 * Payment provider webhooks: each provider's payload is normalised into one
 * callback record, which is verified and then applied to the order with a
 * compare-and-swap on its status.
 */
module PaymentCallback {
  import opened Wrappers
  import opened Types
  import opened Store

  datatype CallbackStatus = PaySuccess | PayFailed

  /** The provider-independent callback record. */
  datatype CallbackData = CallbackData(
    orderId: string, transactionId: Option<string>, amount: Money, status: CallbackStatus,
    timestamp: string, signature: string, provider: Provider)

  /** The fields of a Naver Pay notification the handler reads. */
  datatype NaverPayload = NaverPayload(
    merchantPayKey: Option<string>, paymentId: Option<string>, totalPayAmount: Option<Money>,
    admissionState: Option<string>, admissionYmdt: Option<string>)

  /** The fields of a Kakao Pay notification the handler reads (`amountTotal` is `amount.total`). */
  datatype KakaoPayload = KakaoPayload(
    partnerOrderId: Option<string>, tid: Option<string>, amountTotal: Option<Money>,
    approvedAt: Option<string>, createdAt: Option<string>)

  /**
   * POST /payment/callback/naverpay, up to the common processing.
   * `signatureHeader` is the X-NaverPay-Signature header and `nowText` the
   * server's current time as text.
   */
  function NormalizeNaver(body: Body<NaverPayload>, signatureHeader: Option<string>, nowText: string): (r: Outcome<CallbackData>)
    ensures body.NoBody? ==> r == Err(Problem(400, "Request body is required"))
    ensures body.InvalidJson? ==> r == Err(Problem(400, "Invalid JSON in request body"))
    ensures body.Json? && !Present(body.value.merchantPayKey) ==> r == Err(Problem(400, "Order ID (merchantPayKey) is required"))
    ensures r.Ok? <==> body.Json? && Present(body.value.merchantPayKey)
    ensures r.Ok? ==> var p := body.value;
      r.value.orderId == p.merchantPayKey.value
      && r.value.provider == NaverPay
      && (r.value.status == PaySuccess <==> p.admissionState == Some("SUCCESS"))
      && r.value.amount == p.totalPayAmount.GetOr(0)
      && r.value.transactionId == p.paymentId
      && r.value.timestamp == OrElse(p.admissionYmdt, nowText)
      && r.value.signature == OrElse(signatureHeader, "")
  {
    match body
    case NoBody => Err(Problem(400, "Request body is required"))
    case InvalidJson => Err(Problem(400, "Invalid JSON in request body"))
    case Json(p) =>
      if !Present(p.merchantPayKey) then Err(Problem(400, "Order ID (merchantPayKey) is required"))
      else Ok(CallbackData(
        p.merchantPayKey.value,
        p.paymentId,
        p.totalPayAmount.GetOr(0),
        if p.admissionState == Some("SUCCESS") then PaySuccess else PayFailed,
        OrElse(p.admissionYmdt, nowText),
        OrElse(signatureHeader, ""),
        NaverPay))
  }

  /** POST /payment/callback/kakaopay, up to the common processing. */
  function NormalizeKakao(body: Body<KakaoPayload>, nowText: string): (r: Outcome<CallbackData>)
    ensures body.NoBody? ==> r == Err(Problem(400, "Request body is required"))
    ensures body.InvalidJson? ==> r == Err(Problem(400, "Invalid JSON in request body"))
    ensures body.Json? && !Present(body.value.partnerOrderId) ==> r == Err(Problem(400, "Order ID (partner_order_id) is required"))
    ensures r.Ok? <==> body.Json? && Present(body.value.partnerOrderId)
    ensures r.Ok? ==> var p := body.value;
      r.value.orderId == p.partnerOrderId.value
      && r.value.provider == KakaoPay
      && (r.value.status == PaySuccess <==> Present(p.approvedAt))
      && r.value.amount == p.amountTotal.GetOr(0)
      && r.value.transactionId == p.tid
      && r.value.timestamp == OrElse(p.approvedAt, OrElse(p.createdAt, nowText))
      && r.value.signature == ""
  {
    match body
    case NoBody => Err(Problem(400, "Request body is required"))
    case InvalidJson => Err(Problem(400, "Invalid JSON in request body"))
    case Json(p) =>
      if !Present(p.partnerOrderId) then Err(Problem(400, "Order ID (partner_order_id) is required"))
      else Ok(CallbackData(
        p.partnerOrderId.value,
        p.tid,
        p.amountTotal.GetOr(0),
        if Present(p.approvedAt) then PaySuccess else PayFailed,
        OrElse(p.approvedAt, OrElse(p.createdAt, nowText)),
        "",
        KakaoPay))
  }

  /** A successful Kakao payment is stamped with its approval time, whatever else it carries. */
  lemma KakaoApprovalStamp(body: Body<KakaoPayload>, nowText: string)
    requires NormalizeKakao(body, nowText).Ok? && NormalizeKakao(body, nowText).value.status == PaySuccess
    ensures NormalizeKakao(body, nowText).value.timestamp == body.value.approvedAt.value
  {
  }

  /** The outcome of the provider-side authenticity check, which may itself fail. */
  datatype Verification = Verified | NotVerified | VerifyThrew

  datatype CallbackAck = CallbackAck(success: bool, orderId: string, status: CallbackStatus)

  function MarkPaid(o: OrderRecord, cb: CallbackData, now: Time): OrderRecord {
    o.(status := Paid, updatedAt := now,
       paymentInfo := Some(PaymentInfo(cb.provider, cb.transactionId, cb.timestamp, cb.amount)),
       expiresAt := None)
  }

  function RecordFailure(o: OrderRecord, cb: CallbackData, now: Time): OrderRecord {
    o.(updatedAt := now,
       paymentFailureInfo := Some(PaymentFailureInfo(cb.provider, cb.transactionId, cb.timestamp, "Payment processing failed")))
  }

  /** Some order has the callback's order id (the callback carries no restaurant id). */
  predicate HasOrder(rows: map<OrderKey, OrderRecord>, orderId: string) {
    exists k :: k in rows && k.orderId == orderId
  }

  const CallbackFailed: Problem := Problem(500, "Failed to process payment callback")
  const AlreadyUpdated: Problem := Problem(409, "Order status has already been updated")

  /**
   * The common processing of a normalised callback: verify, find the order,
   * then mark it PAID if it is still CREATED, or record a failed payment.
   */
  method ProcessPaymentCallback(orders: OrderTable, cb: CallbackData, verification: Verification, now: Time)
    returns (reply: Reply<CallbackAck>)
    modifies orders
    ensures verification == VerifyThrew ==> reply == Failure(CallbackFailed) && orders.rows == old(orders.rows)
    ensures verification == NotVerified ==>
      reply == Failure(Problem(401, "Invalid payment callback signature")) && orders.rows == old(orders.rows)
    ensures verification == Verified && !HasOrder(old(orders.rows), cb.orderId) ==>
      reply == Failure(Problem(404, "Order not found")) && orders.rows == old(orders.rows)
    ensures verification == Verified && HasOrder(old(orders.rows), cb.orderId) && cb.status == PaySuccess ==>
      exists k :: k in old(orders.rows) && k.orderId == cb.orderId
        && (old(orders.rows)[k].status == Created ==>
              orders.rows == old(orders.rows)[k := MarkPaid(old(orders.rows)[k], cb, now)]
              && reply == Answer(200, CallbackAck(true, cb.orderId, PaySuccess)))
        && (old(orders.rows)[k].status != Created ==>
              orders.rows == old(orders.rows) && reply == Failure(AlreadyUpdated))
    ensures verification == Verified && HasOrder(old(orders.rows), cb.orderId) && cb.status == PayFailed ==>
      exists k :: k in old(orders.rows) && k.orderId == cb.orderId
        && orders.rows == old(orders.rows)[k := RecordFailure(old(orders.rows)[k], cb, now)]
        && reply == Answer(200, CallbackAck(true, cb.orderId, PayFailed))
  {
    if verification == VerifyThrew {
      return Failure(CallbackFailed);
    }
    if verification == NotVerified {
      return Failure(Problem(401, "Invalid payment callback signature"));
    }
    if !HasOrder(orders.rows, cb.orderId) {
      return Failure(Problem(404, "Order not found"));
    }
    var k :| k in orders.rows && k.orderId == cb.orderId;
    if cb.status == PaySuccess {
      var outcome := orders.ConditionalUpdate(k, (s: OrderStatus) => s == Created,
                                              (o: OrderRecord) => MarkPaid(o, cb, now));
      if outcome == ConditionFailed {
        return Failure(AlreadyUpdated);
      }
    } else {
      var _ := orders.ConditionalUpdate(k, (s: OrderStatus) => true,
                                        (o: OrderRecord) => RecordFailure(o, cb, now));
    }
    return Answer(200, CallbackAck(true, cb.orderId, cb.status));
  }

  /** A failed payment never changes the order's status, and a successful one always ends in PAID. */
  lemma CallbackStatusEffect(o: OrderRecord, cb: CallbackData, now: Time)
    ensures RecordFailure(o, cb, now).status == o.status
    ensures MarkPaid(o, cb, now).status == Paid && MarkPaid(o, cb, now).expiresAt.None?
    ensures KeyOf(MarkPaid(o, cb, now)) == KeyOf(o) && KeyOf(RecordFailure(o, cb, now)) == KeyOf(o)
  {
  }
}
