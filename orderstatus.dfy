/**
 * The customer app's order status page: the badge shown for a status, the
 * progress bar's step, and whether the customer may cancel.
 */
module OrderStatusPage {
  import opened ClientTypes
  import OrderManagement

  /** What the badge shows: a text, a colour class and an icon. */
  datatype StatusInfo = StatusInfo(text: string, color: string, icon: string)

  /** The badges of the seven known statuses. */
  const StatusMap: map<string, StatusInfo> := map[
    "CREATED" := StatusInfo("주문 접수", "bg-blue-500", "📝"),
    "PAYMENT_PENDING" := StatusInfo("결제 대기", "bg-yellow-500", "💳"),
    "PAID" := StatusInfo("결제 완료", "bg-green-500", "✅"),
    "COOKING" := StatusInfo("조리 중", "bg-orange-500", "👨‍🍳"),
    "READY" := StatusInfo("픽업 대기", "bg-purple-500", "🛎️"),
    "COMPLETED" := StatusInfo("완료", "bg-gray-500", "✅"),
    "CANCELLED" := StatusInfo("취소됨", "bg-red-500", "❌")
  ]

  /** The seven statuses the page knows, in lifecycle order. */
  const KnownStatuses: seq<string> := ["CREATED", "PAYMENT_PENDING", "PAID", "COOKING", "READY", "COMPLETED", "CANCELLED"]

  /** getStatusInfo: the status's badge, or a grey badge with the status's own name and '?'. */
  function GetStatusInfo(status: string): (r: StatusInfo)
    ensures status !in StatusMap ==> r == StatusInfo(status, "bg-gray-500", "?")
  {
    if status in StatusMap then StatusMap[status] else StatusInfo(status, "bg-gray-500", "?")
  }

  /** The known statuses are exactly the ones with a badge of their own. */
  lemma KnownStatusesHaveBadges()
    ensures forall s :: s in StatusMap <==> s in KnownStatuses
    ensures forall i :: 0 <= i < |KnownStatuses| ==> GetStatusInfo(KnownStatuses[i]).icon != "?"
  {
  }

  /** No two known statuses share a badge: their colours already differ. */
  lemma StatusInfoDistinct()
    ensures forall i, j :: 0 <= i < j < |KnownStatuses| ==>
      GetStatusInfo(KnownStatuses[i]).color != GetStatusInfo(KnownStatuses[j]).color
  {
  }

  /** The progress steps of the known statuses. */
  const ProgressMap: map<string, int> := map[
    "CREATED" := 1, "PAYMENT_PENDING" := 1, "PAID" := 2, "COOKING" := 3,
    "READY" := 4, "COMPLETED" := 5, "CANCELLED" := 0
  ]

  /** getStatusProgress: the status's step, 0 for one the table lacks (the `|| 0`). */
  function GetStatusProgress(status: string): (r: int)
    ensures 0 <= r <= 5
    ensures status !in ProgressMap ==> r == 0
  {
    if status in ProgressMap && ProgressMap[status] != 0 then ProgressMap[status] else 0
  }

  /** Along the lifecycle the progress never goes back, and it rises with every step after payment. */
  lemma ProgressAlongLifecycle()
    ensures forall i, j :: 0 <= i <= j < 6 ==>
      GetStatusProgress(KnownStatuses[i]) <= GetStatusProgress(KnownStatuses[j])
    ensures forall i, j :: 1 <= i < j < 6 ==>
      GetStatusProgress(KnownStatuses[i]) < GetStatusProgress(KnownStatuses[j])
    ensures GetStatusProgress("CANCELLED") == 0 && GetStatusProgress("CONFIRMED") == 0
  {
  }

  /** Each forward button of the owner's page moves the order exactly one step along the progress bar. */
  lemma ForwardStepsOne(o: Order)
    requires OrderManagement.IsActive(o.status)
    ensures GetStatusProgress(OrderManagement.NextStatus(o)) == GetStatusProgress(o.status) + 1
  {
  }

  /** canCancel. */
  predicate CanCancel(status: string) {
    status == "CREATED" || status == "PAYMENT_PENDING" || status == "PAID"
  }

  /** The customer may cancel exactly before cooking starts: at progress 1 or 2. */
  lemma CancelBeforeCooking(status: string)
    ensures CanCancel(status) <==> 1 <= GetStatusProgress(status) <= 2
  {
  }

  /** The customer and the owner may cancel in the same statuses. */
  lemma SameCancelRule(o: Order)
    ensures CanCancel(o.status) <==> OrderManagement.CanCancel(o)
  {
  }
}
