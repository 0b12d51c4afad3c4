/**
 * The order endpoints: creating an order from a cart, with every line price
 * recomputed from the restaurant's confirmed menu; reading an order back; and
 * cancelling it under the refund policy.
 */
module OrderHandler {
  import opened Wrappers
  import opened Types
  import opened Seqs
  import opened Store

  /** Client and server amounts may differ by at most 0.01, one hundredth. */
  const Tolerance: Money := 1
  const DefaultCartTtlMinutes: int := 10
  const DefaultRefundCapPercent: int := 5

  function Abs(x: int): nat {
    if x < 0 then -x else x
  }

  /** Why a cart line was refused, in the order the checks run. */
  datatype LineError =
    | UnknownItem(menuItemId: string)
    | Unavailable(itemName: string)
    | SelectedOptionsMissing
    | UnknownOption(optionId: string, itemName: string)
    | UnknownChoice(choiceId: string, optionName: string)
    | ModifierMismatch
    | PriceMismatch(itemName: string)

  datatype Priced<T> = Priced(value: T) | Rejected(error: LineError)

  /** A cart line as the client sends it; `price` is meant to be the line total. */
  datatype OrderItemRequest = OrderItemRequest(
    menuItemId: string, name: string, price: Money, quantity: int,
    selectedOptions: Option<seq<SelectedOption>>)
  datatype ItemsField = NoItems | NotAList | Items(list: seq<OrderItemRequest>)
  datatype OrderRequest = OrderRequest(restaurantId: Option<string>, items: ItemsField, customerInfo: Option<CustomerInfo>)

  function ItemWithId(id: string): MenuItem -> bool {
    (m: MenuItem) => m.id == id
  }

  function OptionWithId(id: string): MenuOption -> bool {
    (o: MenuOption) => o.id == id
  }

  function ChoiceWithId(id: string): OptionChoice -> bool {
    (c: OptionChoice) => c.id == id
  }

  /**
   * Checks one selected option against the menu item. Accepted, it yields the
   * menu's modifier for the chosen choice, which the client's copy matches
   * within the tolerance.
   */
  function MatchOption(item: MenuItem, sel: SelectedOption): Priced<Money> {
    match Find(item.options, OptionWithId(sel.optionId))
    case None => Rejected(UnknownOption(sel.optionId, item.name))
    case Some(opt) =>
      match Find(opt.choices, ChoiceWithId(sel.choiceId))
      case None => Rejected(UnknownChoice(sel.choiceId, opt.name))
      case Some(choice) =>
        if Abs(sel.priceModifier - choice.priceModifier) > Tolerance then Rejected(ModifierMismatch)
        else Priced(choice.priceModifier)
  }

  /**
   * An accepted selection names an option of the item and a choice of that
   * option, yields that choice's modifier, and declared a modifier within the
   * tolerance of it; a refused one names a missing option, a missing choice or
   * a modifier too far off.
   */
  lemma MatchOptionMeaning(item: MenuItem, sel: SelectedOption)
    ensures MatchOption(item, sel).Priced? ==>
      exists opt, choice :: opt in item.options && opt.id == sel.optionId
        && choice in opt.choices && choice.id == sel.choiceId
        && MatchOption(item, sel).value == choice.priceModifier
        && Abs(sel.priceModifier - choice.priceModifier) <= Tolerance
    ensures MatchOption(item, sel).Rejected? ==>
      match MatchOption(item, sel).error
      case UnknownOption(id, _) => id == sel.optionId && forall o :: o in item.options ==> o.id != sel.optionId
      case UnknownChoice(id, _) => id == sel.choiceId
        && (exists opt :: opt in item.options && opt.id == sel.optionId
             && forall c :: c in opt.choices ==> c.id != sel.choiceId)
      case ModifierMismatch => true
      case _ => false
  {
    var o := Find(item.options, OptionWithId(sel.optionId));
    FindMeaning(item.options, OptionWithId(sel.optionId));
    if o.Some? {
      var i := FindIndex(item.options, OptionWithId(sel.optionId));
      assert item.options[i] == o.value;
      var c := Find(o.value.choices, ChoiceWithId(sel.choiceId));
      FindMeaning(o.value.choices, ChoiceWithId(sel.choiceId));
      if c.Some? {
        var j := FindIndex(o.value.choices, ChoiceWithId(sel.choiceId));
        assert o.value.choices[j] == c.value;
      } else {
        assert forall c :: c in o.value.choices ==> c.id != sel.choiceId by {
          forall c | c in o.value.choices ensures c.id != sel.choiceId {
            var j :| 0 <= j < |o.value.choices| && o.value.choices[j] == c;
            assert !ChoiceWithId(sel.choiceId)(o.value.choices[j]);
          }
        }
      }
    } else {
      forall x | x in item.options ensures x.id != sel.optionId {
        var j :| 0 <= j < |item.options| && item.options[j] == x;
        assert !OptionWithId(sel.optionId)(item.options[j]);
      }
    }
  }

  /** The sum of the menu modifiers of all selections, or the first selection's refusal. */
  function OptionsTotal(item: MenuItem, sels: seq<SelectedOption>): Priced<Money>
    decreases |sels|
  {
    if sels == [] then Priced(0)
    else
      match OptionsTotal(item, sels[..|sels| - 1])
      case Rejected(e) => Rejected(e)
      case Priced(m) =>
        match MatchOption(item, sels[|sels| - 1])
        case Rejected(e) => Rejected(e)
        case Priced(d) => Priced(m + d)
  }

  /**
   * Prices one cart line: the first menu item with the line's id must exist
   * and be available, every selection must match, and the client's price must
   * be within the tolerance of (base + menu modifiers) * quantity. The stored
   * line keeps the client's fields and selections but the recomputed price.
   */
  function PriceLine(menuItems: seq<MenuItem>, req: OrderItemRequest): Priced<OrderItem> {
    match Find(menuItems, ItemWithId(req.menuItemId))
    case None => Rejected(UnknownItem(req.menuItemId))
    case Some(item) =>
      if !item.available then Rejected(Unavailable(item.name))
      else if req.selectedOptions.None? then Rejected(SelectedOptionsMissing)
      else
        match OptionsTotal(item, req.selectedOptions.value)
        case Rejected(e) => Rejected(e)
        case Priced(mods) =>
          var expected := (item.price + mods) * req.quantity;
          if Abs(req.price - expected) > Tolerance then Rejected(PriceMismatch(item.name))
          else Priced(OrderItem(req.menuItemId, req.name, expected, req.quantity, req.selectedOptions.value))
  }

  /** Prices every line in request order; the first refused line refuses the order. */
  function PriceLines(menuItems: seq<MenuItem>, reqs: seq<OrderItemRequest>): Priced<seq<OrderItem>>
    decreases |reqs|
  {
    if reqs == [] then Priced([])
    else
      match PriceLines(menuItems, reqs[..|reqs| - 1])
      case Rejected(e) => Rejected(e)
      case Priced(lines) =>
        match PriceLine(menuItems, reqs[|reqs| - 1])
        case Rejected(e) => Rejected(e)
        case Priced(l) => Priced(lines + [l])
  }

  function LinePrice(l: OrderItem): int {
    l.price
  }

  function LinesTotal(lines: seq<OrderItem>): Money {
    SumOf(lines, LinePrice)
  }

  /** Once a prefix of the selections is refused, the whole list is refused the same way. */
  lemma {:induction false} OptionsRejectedPrefix(item: MenuItem, sels: seq<SelectedOption>, j: nat)
    requires j <= |sels| && OptionsTotal(item, sels[..j]).Rejected?
    ensures OptionsTotal(item, sels) == OptionsTotal(item, sels[..j])
    decreases |sels| - j
  {
    if j < |sels| {
      assert sels[..j + 1][..j] == sels[..j];
      OptionsRejectedPrefix(item, sels, j + 1);
    } else {
      assert sels[..j] == sels;
    }
  }

  /** Once a prefix of the lines is refused, the whole order is refused the same way. */
  lemma {:induction false} LinesRejectedPrefix(menuItems: seq<MenuItem>, reqs: seq<OrderItemRequest>, i: nat)
    requires i <= |reqs| && PriceLines(menuItems, reqs[..i]).Rejected?
    ensures PriceLines(menuItems, reqs) == PriceLines(menuItems, reqs[..i])
    decreases |reqs| - i
  {
    if i < |reqs| {
      assert reqs[..i + 1][..i] == reqs[..i];
      LinesRejectedPrefix(menuItems, reqs, i + 1);
    } else {
      assert reqs[..i] == reqs;
    }
  }

  /** The running sum of the selections after one more selection. */
  lemma OptionsTotalStep(item: MenuItem, sels: seq<SelectedOption>, j: nat)
    requires j < |sels| && OptionsTotal(item, sels[..j]).Priced?
    ensures MatchOption(item, sels[j]).Rejected? ==>
      OptionsTotal(item, sels[..j + 1]) == Rejected(MatchOption(item, sels[j]).error)
    ensures MatchOption(item, sels[j]).Priced? ==>
      OptionsTotal(item, sels[..j + 1]) == Priced(OptionsTotal(item, sels[..j]).value + MatchOption(item, sels[j]).value)
  {
    assert sels[..j + 1][..j] == sels[..j] && sels[..j + 1][j] == sels[j];
  }

  /** One iteration of the selections loop: find the option, find the choice, compare the modifiers. */
  method MatchSelection(item: MenuItem, sel: SelectedOption) returns (r: Priced<Money>)
    ensures r == MatchOption(item, sel)
  {
    var option := Find(item.options, OptionWithId(sel.optionId));
    if option.None? {
      return Rejected(UnknownOption(sel.optionId, item.name));
    }
    var choice := Find(option.value.choices, ChoiceWithId(sel.choiceId));
    if choice.None? {
      return Rejected(UnknownChoice(sel.choiceId, option.value.name));
    }
    if Abs(sel.priceModifier - choice.value.priceModifier) > Tolerance {
      return Rejected(ModifierMismatch);
    }
    return Priced(choice.value.priceModifier);
  }

  /**
   * The inner loop of the create handler: walks one line's selections in
   * order, adding the menu's modifier of each to the item's base price.
   */
  method PriceSelections(item: MenuItem, sels: seq<SelectedOption>) returns (r: Priced<(Money, seq<SelectedOption>)>)
    ensures OptionsTotal(item, sels).Rejected? ==> r == Rejected(OptionsTotal(item, sels).error)
    ensures OptionsTotal(item, sels).Priced? ==> r == Priced((item.price + OptionsTotal(item, sels).value, sels))
  {
    var itemPrice := item.price;
    var validatedOptions: seq<SelectedOption> := [];
    var j := 0;
    while j < |sels|
      invariant 0 <= j <= |sels|
      invariant OptionsTotal(item, sels[..j]) == Priced(itemPrice - item.price)
      invariant validatedOptions == sels[..j]
    {
      var sel := sels[j];
      OptionsTotalStep(item, sels, j);
      var modifier := MatchSelection(item, sel);
      if modifier.Rejected? {
        OptionsRejectedPrefix(item, sels, j + 1);
        return Rejected(modifier.error);
      }
      itemPrice := itemPrice + modifier.value;
      validatedOptions := validatedOptions + [sel];
      j := j + 1;
    }
    assert sels[..j] == sels;
    return Priced((itemPrice, validatedOptions));
  }

  /**
   * The create handler's pricing loop: walks the lines in order, rejecting at
   * the first refused one, and accumulates the running total.
   */
  method PriceOrderItems(menuItems: seq<MenuItem>, reqs: seq<OrderItemRequest>)
    returns (r: Priced<(seq<OrderItem>, Money)>)
    ensures PriceLines(menuItems, reqs).Rejected? ==> r == Rejected(PriceLines(menuItems, reqs).error)
    ensures PriceLines(menuItems, reqs).Priced? ==>
      r == Priced((PriceLines(menuItems, reqs).value, LinesTotal(PriceLines(menuItems, reqs).value)))
  {
    var totalAmount := 0;
    var validatedItems: seq<OrderItem> := [];
    var i := 0;
    while i < |reqs|
      invariant 0 <= i <= |reqs|
      invariant PriceLines(menuItems, reqs[..i]) == Priced(validatedItems)
      invariant totalAmount == LinesTotal(validatedItems)
    {
      var req := reqs[i];
      assert reqs[..i + 1][..i] == reqs[..i];
      assert reqs[..i + 1][i] == req;
      var line := PriceOneLine(menuItems, req);
      if line.Rejected? {
        LinesRejectedPrefix(menuItems, reqs, i + 1);
        return Rejected(line.error);
      }
      SumOfAppend(validatedItems, [line.value], LinePrice);
      totalAmount := totalAmount + line.value.price;
      validatedItems := validatedItems + [line.value];
      i := i + 1;
    }
    assert reqs[..i] == reqs;
    return Priced((validatedItems, totalAmount));
  }

  /** One iteration of the pricing loop: find, availability, selections, price check. */
  method PriceOneLine(menuItems: seq<MenuItem>, req: OrderItemRequest) returns (r: Priced<OrderItem>)
    ensures r == PriceLine(menuItems, req)
  {
    var found := Find(menuItems, ItemWithId(req.menuItemId));
    if found.None? {
      return Rejected(UnknownItem(req.menuItemId));
    }
    var item := found.value;
    if !item.available {
      return Rejected(Unavailable(item.name));
    }
    if req.selectedOptions.None? {
      return Rejected(SelectedOptionsMissing);
    }
    var options := PriceSelections(item, req.selectedOptions.value);
    if options.Rejected? {
      return Rejected(options.error);
    }
    var itemPrice := options.value.0;
    var expectedItemTotal := itemPrice * req.quantity;
    if Abs(req.price - expectedItemTotal) > Tolerance {
      return Rejected(PriceMismatch(item.name));
    }
    return Priced(OrderItem(req.menuItemId, req.name, expectedItemTotal, req.quantity, options.value.1));
  }

  /** Every accepted order has one stored line per requested line, each priced on its own. */
  lemma {:induction false} PriceLinesAccepted(menuItems: seq<MenuItem>, reqs: seq<OrderItemRequest>)
    requires PriceLines(menuItems, reqs).Priced?
    ensures |PriceLines(menuItems, reqs).value| == |reqs|
    ensures forall i :: 0 <= i < |reqs| ==> PriceLine(menuItems, reqs[i]) == Priced(PriceLines(menuItems, reqs).value[i])
    decreases |reqs|
  {
    if reqs != [] {
      var init := reqs[..|reqs| - 1];
      PriceLinesAccepted(menuItems, init);
      assert forall i :: 0 <= i < |init| ==> init[i] == reqs[i];
    }
  }

  /** A refused order is refused with the error of its first refused line. */
  lemma {:induction false} PriceLinesRejected(menuItems: seq<MenuItem>, reqs: seq<OrderItemRequest>)
    requires PriceLines(menuItems, reqs).Rejected?
    ensures exists i :: (0 <= i < |reqs| && PriceLine(menuItems, reqs[i]) == Rejected(PriceLines(menuItems, reqs).error)
                         && forall j :: 0 <= j < i ==> PriceLine(menuItems, reqs[j]).Priced?)
    decreases |reqs|
  {
    var init := reqs[..|reqs| - 1];
    assert forall i :: 0 <= i < |init| ==> init[i] == reqs[i];
    if PriceLines(menuItems, init).Rejected? {
      PriceLinesRejected(menuItems, init);
      var i :| 0 <= i < |init| && PriceLine(menuItems, init[i]) == Rejected(PriceLines(menuItems, init).error)
        && forall j :: 0 <= j < i ==> PriceLine(menuItems, init[j]).Priced?;
      assert PriceLine(menuItems, reqs[i]) == Rejected(PriceLines(menuItems, reqs).error);
    } else {
      PriceLinesAccepted(menuItems, init);
      var i := |reqs| - 1;
      assert forall j :: 0 <= j < i ==> PriceLine(menuItems, reqs[j]).Priced?;
    }
  }

  /** The menu's modifier for each selection the menu accepts. */
  function MenuModifier(item: MenuItem): SelectedOption -> Money {
    (sel: SelectedOption) => match MatchOption(item, sel) case Priced(m) => m case Rejected(_) => 0
  }

  /**
   * Accepted selections add up the menu's modifiers: every selection names an
   * option and a choice of the item, and the client's declared modifiers only
   * have to lie within the tolerance.
   */
  lemma {:induction false} OptionsTotalAccepted(item: MenuItem, sels: seq<SelectedOption>)
    requires OptionsTotal(item, sels).Priced?
    ensures forall j :: 0 <= j < |sels| ==> MatchOption(item, sels[j]).Priced?
    ensures OptionsTotal(item, sels).value == SumOf(sels, MenuModifier(item))
    decreases |sels|
  {
    if sels != [] {
      var init := sels[..|sels| - 1];
      var last := sels[|sels| - 1];
      assert OptionsTotal(item, init).Priced? && MatchOption(item, last).Priced?;
      OptionsTotalAccepted(item, init);
      forall j | 0 <= j < |sels| ensures MatchOption(item, sels[j]).Priced? {
        if j < |init| {
          assert init[j] == sels[j];
        }
      }
      assert MenuModifier(item)(last) == MatchOption(item, last).value;
    }
  }

  /**
   * The price does not depend on the modifiers the client declares: two
   * selection lists naming the same options and choices, both accepted, cost
   * the same.
   */
  lemma {:induction false} ClientModifiersIgnored(item: MenuItem, a: seq<SelectedOption>, b: seq<SelectedOption>)
    requires |a| == |b|
    requires forall j :: 0 <= j < |a| ==> a[j].optionId == b[j].optionId && a[j].choiceId == b[j].choiceId
    requires OptionsTotal(item, a).Priced? && OptionsTotal(item, b).Priced?
    ensures OptionsTotal(item, a).value == OptionsTotal(item, b).value
    decreases |a|
  {
    if a != [] {
      var a', b' := a[..|a| - 1], b[..|b| - 1];
      var x, y := a[|a| - 1], b[|b| - 1];
      assert OptionsTotal(item, a').Priced? && MatchOption(item, x).Priced?;
      assert OptionsTotal(item, b').Priced? && MatchOption(item, y).Priced?;
      ClientModifiersIgnored(item, a', b');
      assert MatchOption(item, x).value == MatchOption(item, y).value by {
        assert x.optionId == y.optionId && x.choiceId == y.choiceId;
      }
    }
  }

  /**
   * An accepted line is stored with the recomputed total of its menu item:
   * (base + menu modifiers) * quantity, which the client's price matched
   * within the tolerance; its other fields are the client's.
   */
  lemma PriceLineAccepted(menuItems: seq<MenuItem>, req: OrderItemRequest)
    requires PriceLine(menuItems, req).Priced?
    ensures var l := PriceLine(menuItems, req).value;
      var item := Find(menuItems, ItemWithId(req.menuItemId));
      item.Some? && item.value.available && req.selectedOptions.Some?
      && OptionsTotal(item.value, req.selectedOptions.value).Priced?
      && l.price == (item.value.price + OptionsTotal(item.value, req.selectedOptions.value).value) * req.quantity
      && Abs(req.price - l.price) <= Tolerance
      && l.menuItemId == req.menuItemId && l.name == req.name && l.quantity == req.quantity
      && l.selectedOptions == req.selectedOptions.value
  {
  }

  /** The problem answered for a refused cart line. */
  function LineProblem(e: LineError): Problem {
    match e
    case UnknownItem(id) => Problem(422, "Menu item " + id + " not found")
    case Unavailable(name) => Problem(410, "Menu item " + name + " is not available")
    case SelectedOptionsMissing => Unexpected
    case UnknownOption(id, name) => Problem(422, "Option " + id + " not found for item " + name)
    case UnknownChoice(id, name) => Problem(422, "Choice " + id + " not found for option " + name)
    case ModifierMismatch => Problem(422, "Price modifier mismatch")
    case PriceMismatch(name) => Problem(422, "Price mismatch for item " + name)
  }

  datatype OrderCreated = OrderCreated(orderId: string, status: OrderStatus, totalAmount: Money, paymentUrl: string, createdAt: Time)

  /** A request naming a restaurant and a non-empty list of items. */
  predicate WellFormed(req: OrderRequest) {
    Present(req.restaurantId) && req.items.Items? && |req.items.list| > 0
  }

  /** The cart's expiry in seconds: `floor((now + ttl minutes) / 1000)`. */
  function CartExpiry(now: Time, ttlMinutes: int): int {
    (now + ttlMinutes * MsPerMinute) / 1000
  }

  /** The row a successful create stores. */
  function NewOrder(orderId: string, rid: string, menu: MenuRecord, lines: seq<OrderItem>,
                    customerInfo: Option<CustomerInfo>, now: Time, ttlMinutes: int): OrderRecord {
    OrderRecord(orderId, rid, MenuSnapshot(menu.version, menu.items), lines, Created, LinesTotal(lines),
                now, now, Some(CartExpiry(now, ttlMinutes)), customerInfo, None, None, None, None)
  }

  function PaymentUrl(paymentBaseUrl: Option<string>, orderId: string): string {
    OrElse(paymentBaseUrl, "https://example.com") + "/payment?orderId=" + orderId
  }

  /** `o` is what a create from `req` stores when the restaurant's latest confirmed menu is `menu`. */
  ghost predicate CreatedFrom(menus: map<MenuKey, MenuRecord>, req: OrderRequest, orderId: string,
                              now: Time, ttlMinutes: int, o: OrderRecord)
    requires WellFormed(req)
  {
    exists menu :: IsLatestConfirmed(menus, req.restaurantId.value, menu)
      && PriceLines(menu.items, req.items.list) == Priced(o.items)
      && o == NewOrder(orderId, req.restaurantId.value, menu, o.items, req.customerInfo, now, ttlMinutes)
  }

  /**
   * POST /order. Checks the request, prices it against the latest confirmed
   * menu and stores exactly one new CREATED row; a refused request stores
   * nothing. `orderId` is the fresh identifier the handler generates.
   */
  method PostOrder(orders: OrderTable, menus: MenuTable, body: Body<OrderRequest>, orderId: string,
                   now: Time, cartTtlMinutes: int, paymentBaseUrl: Option<string>)
    returns (reply: Reply<OrderCreated>)
    modifies orders
    ensures body.NoBody? ==> reply == Failure(Problem(400, "Request body is required"))
    ensures body.InvalidJson? ==> reply == Failure(Problem(400, "Invalid JSON in request body"))
    ensures body.Json? && !WellFormed(body.value) ==>
      reply == Failure(Problem(400, "Restaurant ID and items are required"))
    ensures (body.Json? && WellFormed(body.value)
             && forall k :: k in menus.rows ==> !ConfirmedFor(menus.rows[k], body.value.restaurantId.value)) ==>
      reply == Failure(Problem(404, "Menu not found for this restaurant"))
    ensures reply.Failure? && reply.problem.status != 400 && reply.problem.status != 404 ==>
      body.Json? && WellFormed(body.value)
      && (exists menu :: IsLatestConfirmed(menus.rows, body.value.restaurantId.value, menu)
           && PriceLines(menu.items, body.value.items.list).Rejected?
           && reply.problem == LineProblem(PriceLines(menu.items, body.value.items.list).error))
    ensures reply.Failure? && reply.problem.status == 400 ==>
      body.NoBody? || body.InvalidJson? || !WellFormed(body.value)
    ensures reply.Failure? && reply.problem.status == 404 ==>
      body.Json? && WellFormed(body.value)
      && forall k :: k in menus.rows ==> !ConfirmedFor(menus.rows[k], body.value.restaurantId.value)
    ensures (body.Json? && WellFormed(body.value)
             && (exists k :: k in menus.rows && ConfirmedFor(menus.rows[k], body.value.restaurantId.value))
             && forall menu :: IsLatestConfirmed(menus.rows, body.value.restaurantId.value, menu) ==>
                  PriceLines(menu.items, body.value.items.list).Priced?) ==>
      reply.Answer?
    ensures reply.Failure? ==> orders.rows == old(orders.rows)
    ensures reply.Answer? ==>
      body.Json? && WellFormed(body.value) && reply.status == 201
      && var k := OrderKey(orderId, body.value.restaurantId.value);
      k in orders.rows && orders.rows == old(orders.rows)[k := orders.rows[k]]
      && CreatedFrom(menus.rows, body.value, orderId, now, cartTtlMinutes, orders.rows[k])
      && reply.value == OrderCreated(orderId, Created, orders.rows[k].totalAmount, PaymentUrl(paymentBaseUrl, orderId), now)
  {
    if body.NoBody? {
      return Failure(Problem(400, "Request body is required"));
    }
    if body.InvalidJson? {
      return Failure(Problem(400, "Invalid JSON in request body"));
    }
    var req := body.value;
    if !WellFormed(req) {
      return Failure(Problem(400, "Restaurant ID and items are required"));
    }
    var rid := req.restaurantId.value;
    var menu := menus.GetLatestMenu(rid);
    if menu.None? {
      return Failure(Problem(404, "Menu not found for this restaurant"));
    }
    var priced := PriceOrderItems(menu.value.items, req.items.list);
    if priced.Rejected? {
      return Failure(LineProblem(priced.error));
    }
    var order := NewOrder(orderId, rid, menu.value, priced.value.0, req.customerInfo, now, cartTtlMinutes);
    orders.Put(order);
    return Answer(201, OrderCreated(orderId, Created, order.totalAmount, PaymentUrl(paymentBaseUrl, orderId), now));
  }

  /** What GET /order/{orderId} shows: no menu snapshot, customer details or refund. */
  datatype OrderView = OrderView(orderId: string, restaurantId: string, status: OrderStatus, items: seq<OrderItem>,
                                 totalAmount: Money, createdAt: Time, updatedAt: Time, paymentInfo: Option<PaymentInfo>)

  function ViewOf(o: OrderRecord): OrderView {
    OrderView(o.orderId, o.restaurantId, o.status, o.items, o.totalAmount, o.createdAt, o.updatedAt, o.paymentInfo)
  }

  /** Two rows that differ only in snapshot, customer details and refund look the same. */
  lemma ViewHidesPrivateFields(o: OrderRecord, snapshot: MenuSnapshot, customer: Option<CustomerInfo>, refund: Option<RefundInfo>)
    ensures ViewOf(o.(menuSnapshot := snapshot, customerInfo := customer, refundInfo := refund)) == ViewOf(o)
  {
  }

  /** GET /order/{orderId}?restaurantId=… */
  function GetOrder(orders: OrderTable, orderId: Option<string>, restaurantId: Option<string>): (r: Reply<OrderView>)
    reads orders
    ensures !Present(orderId) ==> r == Failure(Problem(400, "Order ID is required"))
    ensures Present(orderId) && !Present(restaurantId) ==> r == Failure(Problem(400, "Restaurant ID is required"))
    ensures r.Answer? <==> Present(orderId) && Present(restaurantId) && OrderKey(orderId.value, restaurantId.value) in orders.rows
    ensures r.Answer? ==> r.status == 200 && r.value == ViewOf(orders.rows[OrderKey(orderId.value, restaurantId.value)])
    ensures Present(orderId) && Present(restaurantId) && r.Failure? ==> r.problem == Problem(404, "Order not found")
  {
    if !Present(orderId) then Failure(Problem(400, "Order ID is required"))
    else if !Present(restaurantId) then Failure(Problem(400, "Restaurant ID is required"))
    else
      match orders.Get(OrderKey(orderId.value, restaurantId.value))
      case None => Failure(Problem(404, "Order not found"))
      case Some(o) => Answer(200, ViewOf(o))
  }

  /**
   * The refund for cancelling an order in `status`: the whole total, except
   * while it is being cooked or waits for pickup, when it is capped at
   * `capPercent` percent of the total.
   */
  function RefundAmount(status: OrderStatus, total: Money, capPercent: int): (r: real)
    ensures r <= total as real
    ensures status != Cooking && status != Ready ==> r == total as real
    ensures (status == Cooking || status == Ready) && total >= 0 && 0 <= capPercent <= 100 ==>
      r == (total * capPercent) as real / 100.0
  {
    var t := total as real;
    if status == Cooking || status == Ready then
      var maxRefund := t * (capPercent as real / 100.0);
      if maxRefund < t then maxRefund else t
    else t
  }

  /** The refund method shown: the payment provider, or "original" when nothing was paid. */
  function RefundMethod(o: OrderRecord): string {
    if o.paymentInfo.Some? then ProviderName(o.paymentInfo.value.paymentMethod) else "original"
  }

  datatype Cancellation = Cancellation(orderId: string, status: OrderStatus, refundAmount: real, refundMethod: string)

  /** The first, reading half of DELETE /order/{orderId}: either an answer, or the write to make. */
  datatype CancelPlan = Answered(reply: Reply<Cancellation>) | Commit(key: OrderKey, refund: real, refundMethod: string)

  function PlanCancel(orders: OrderTable, orderId: Option<string>, restaurantId: Option<string>, capPercent: int): (p: CancelPlan)
    reads orders
    ensures !Present(orderId) ==> p == Answered(Failure(Problem(400, "Order ID is required")))
    ensures Present(orderId) && !Present(restaurantId) ==> p == Answered(Failure(Problem(400, "Restaurant ID is required")))
    ensures p.Commit? <==>
      Present(orderId) && Present(restaurantId) && OrderKey(orderId.value, restaurantId.value) in orders.rows
      && orders.rows[OrderKey(orderId.value, restaurantId.value)].status != Completed
    ensures p.Commit? ==>
      (p.key == OrderKey(orderId.value, restaurantId.value) && p.key in orders.rows
       && p.refund == RefundAmount(orders.rows[p.key].status, orders.rows[p.key].totalAmount, capPercent)
       && p.refundMethod == RefundMethod(orders.rows[p.key]))
    ensures Present(orderId) && Present(restaurantId) && OrderKey(orderId.value, restaurantId.value) !in orders.rows ==>
      p == Answered(Failure(Problem(404, "Order not found")))
    ensures (Present(orderId) && Present(restaurantId) && OrderKey(orderId.value, restaurantId.value) in orders.rows
             && orders.rows[OrderKey(orderId.value, restaurantId.value)].status == Completed) ==>
      p == Answered(Failure(Problem(400, "Cannot cancel completed order")))
  {
    if !Present(orderId) then Answered(Failure(Problem(400, "Order ID is required")))
    else if !Present(restaurantId) then Answered(Failure(Problem(400, "Restaurant ID is required")))
    else
      var k := OrderKey(orderId.value, restaurantId.value);
      match orders.Get(k)
      case None => Answered(Failure(Problem(404, "Order not found")))
      case Some(o) =>
        if o.status == Completed then Answered(Failure(Problem(400, "Cannot cancel completed order")))
        else Commit(k, RefundAmount(o.status, o.totalAmount, capPercent), RefundMethod(o))
  }

  function MarkCancelled(o: OrderRecord, refund: real, now: Time): OrderRecord {
    o.(status := Cancelled, updatedAt := now, refundInfo := Some(RefundInfo(refund, now, "Customer cancellation")))
  }

  /**
   * The writing half of the cancel: a single update guarded by "not
   * COMPLETED". A lost guard is not handled locally and reaches the outer
   * catch, which answers 500.
   */
  method CommitCancel(orders: OrderTable, key: OrderKey, refund: real, refundMethod: string, now: Time)
    returns (reply: Reply<Cancellation>)
    modifies orders
    ensures key in old(orders.rows) && old(orders.rows)[key].status != Completed ==>
      orders.rows == old(orders.rows)[key := MarkCancelled(old(orders.rows)[key], refund, now)]
      && reply == Answer(200, Cancellation(key.orderId, Cancelled, refund, refundMethod))
    ensures !(key in old(orders.rows) && old(orders.rows)[key].status != Completed) ==>
      orders.rows == old(orders.rows) && reply == Failure(Unexpected)
  {
    var outcome := orders.ConditionalUpdate(key, (s: OrderStatus) => s != Completed,
                                            (o: OrderRecord) => MarkCancelled(o, refund, now));
    if outcome == ConditionFailed {
      return Failure(Unexpected);
    }
    return Answer(200, Cancellation(key.orderId, Cancelled, refund, refundMethod));
  }

  /** DELETE /order/{orderId}?restaurantId=…, with nothing else running in between its two halves. */
  method DeleteOrder(orders: OrderTable, orderId: Option<string>, restaurantId: Option<string>, now: Time, capPercent: int)
    returns (reply: Reply<Cancellation>)
    modifies orders
    ensures old(PlanCancel(orders, orderId, restaurantId, capPercent)).Answered? ==>
      reply == old(PlanCancel(orders, orderId, restaurantId, capPercent)).reply && orders.rows == old(orders.rows)
    ensures old(PlanCancel(orders, orderId, restaurantId, capPercent)).Commit? ==>
      var p := old(PlanCancel(orders, orderId, restaurantId, capPercent));
      reply == Answer(200, Cancellation(p.key.orderId, Cancelled, p.refund, p.refundMethod))
      && orders.rows == old(orders.rows)[p.key := MarkCancelled(old(orders.rows)[p.key], p.refund, now)]
  {
    var plan := PlanCancel(orders, orderId, restaurantId, capPercent);
    if plan.Answered? {
      return plan.reply;
    }
    reply := CommitCancel(orders, plan.key, plan.refund, plan.refundMethod, now);
  }
}
