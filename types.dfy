/**
 * The records the backend keeps: menus and their versions, orders, print jobs,
 * and the shapes of the answers its HTTP handlers give.
 *
 * Money is held in integer hundredths of the currency unit (10000.00 is
 * 1000000), so rounding to two decimals is the identity. Instants are
 * milliseconds since the Unix epoch.
 */
module Types {
  import opened Wrappers

  type Money = int
  type Time = int

  const MsPerMinute: int := 60000
  const MsPerDay: int := 86400000

  /** The order lifecycle statuses the backend stores. */
  datatype OrderStatus = Created | Paid | Confirmed | Cooking | Ready | Completed | Cancelled

  function StatusName(s: OrderStatus): string {
    match s
    case Created => "CREATED"
    case Paid => "PAID"
    case Confirmed => "CONFIRMED"
    case Cooking => "COOKING"
    case Ready => "READY"
    case Completed => "COMPLETED"
    case Cancelled => "CANCELLED"
  }

  datatype OptionChoice = OptionChoice(id: string, name: string, priceModifier: Money)
  datatype OptionKind = Size | Addon | Choice
  datatype MenuOption = MenuOption(id: string, name: string, kind: OptionKind, required: bool, choices: seq<OptionChoice>)
  datatype MenuItem = MenuItem(id: string, name: string, description: string, price: Money, options: seq<MenuOption>, available: bool)

  /** A selected option as the order carries it: the client's own copy of name and modifier. */
  datatype SelectedOption = SelectedOption(optionId: string, choiceId: string, name: string, priceModifier: Money)
  datatype OrderItem = OrderItem(menuItemId: string, name: string, price: Money, quantity: int, selectedOptions: seq<SelectedOption>)

  datatype CustomerInfo = CustomerInfo(phone: Option<string>, email: Option<string>)

  datatype Provider = NaverPay | KakaoPay

  function ProviderName(p: Provider): string {
    match p
    case NaverPay => "naverpay"
    case KakaoPay => "kakaopay"
  }

  datatype PaymentInfo = PaymentInfo(paymentMethod: Provider, transactionId: Option<string>, paidAt: string, amount: Money)
  datatype PaymentFailureInfo = PaymentFailureInfo(provider: Provider, transactionId: Option<string>, failedAt: string, reason: string)
  /** The refund is `totalAmount * percent / 100`, not rounded, hence a real number of hundredths. */
  datatype RefundInfo = RefundInfo(amount: real, processedAt: Time, reason: string)

  datatype MenuSnapshot = MenuSnapshot(version: string, items: seq<MenuItem>)

  datatype OrderRecord = OrderRecord(
    orderId: string,
    restaurantId: string,
    menuSnapshot: MenuSnapshot,
    items: seq<OrderItem>,
    status: OrderStatus,
    totalAmount: Money,
    createdAt: Time,
    updatedAt: Time,
    expiresAt: Option<int>,
    customerInfo: Option<CustomerInfo>,
    paymentInfo: Option<PaymentInfo>,
    paymentFailureInfo: Option<PaymentFailureInfo>,
    refundInfo: Option<RefundInfo>,
    autoCompletedAt: Option<Time>)

  /** Orders are keyed by (orderId, restaurantId). */
  datatype OrderKey = OrderKey(orderId: string, restaurantId: string)

  function KeyOf(o: OrderRecord): OrderKey {
    OrderKey(o.orderId, o.restaurantId)
  }

  /** The customer's phone, when it is recorded and not empty. */
  function PhoneOf(o: OrderRecord): Option<string> {
    if o.customerInfo.Some? && Present(o.customerInfo.value.phone) then o.customerInfo.value.phone else None
  }

  datatype MenuStatus = MenuDraft | MenuConfirmed
  datatype MenuRecord = MenuRecord(restaurantId: string, version: string, items: seq<MenuItem>, status: MenuStatus, createdAt: Time, confirmedAt: Option<Time>)
  /** Menu versions are keyed by (restaurantId, version). */
  datatype MenuKey = MenuKey(restaurantId: string, version: string)

  function MenuKeyOf(m: MenuRecord): MenuKey {
    MenuKey(m.restaurantId, m.version)
  }

  datatype JobStatus = JobPending | JobSuccess | JobFailed
  datatype PosJob = PosJob(
    jobId: string,
    orderId: string,
    status: JobStatus,
    createdAt: Time,
    attempts: int,
    lastAttempt: Option<Time>,
    completedAt: Option<Time>,
    errorMessage: Option<string>,
    expiresAt: int)
  /** Print jobs are keyed by (jobId, orderId). */
  datatype JobKey = JobKey(jobId: string, orderId: string)

  /** The body of an HTTP request: absent, not parseable as JSON, or a parsed value. */
  datatype Body<T> = NoBody | InvalidJson | Json(value: T)

  /** An error answer: its HTTP status and the problem detail text. */
  datatype Problem = Problem(status: int, detail: string)

  /** A handler's answer: a success status with its payload, or a problem. */
  datatype Reply<T> = Answer(status: int, value: T) | Failure(problem: Problem) {
    function Status(): int {
      if Answer? then status else problem.status
    }
  }

  /** The result of a check that either yields a value or refuses with a problem. */
  datatype Outcome<T> = Ok(value: T) | Err(problem: Problem)

  /** A JavaScript number: a finite value (as an exact real), NaN, or an infinity. */
  datatype JsNumber = Finite(r: real) | NaN | PosInfinity | NegInfinity

  /** The JSON-ish JavaScript values handlers are handed and stores hold. */
  datatype JsValue = JsNull | JsUndefined | JsBool(b: bool) | JsNum(n: JsNumber) | JsString(s: string) | JsObject

  /** A menu category, kept in its restaurant's row; times are ISO strings. */
  datatype Category = Category(id: string, name: Option<string>, displayName: Option<string>, active: bool,
                               order: int, restaurantId: string, createdAt: string, updatedAt: string)

  /**
   * A row of the restaurants table: its scalar attributes by name, and the
   * `categories` list attribute when it has one.
   */
  datatype RestaurantRow = RestaurantRow(attrs: map<string, JsValue>, categories: Option<seq<Category>>)

  /** What an outer `catch` answers for an error nobody handled. */
  const Unexpected: Problem := Problem(500, "An unexpected error occurred")
}
