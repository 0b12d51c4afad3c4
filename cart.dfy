/**
 * The customer app's cart: a reducer from the current cart and an action to
 * the next cart.
 */
module Cart {
  import opened Wrappers
  import opened Seqs
  import opened ClientTypes

  datatype CartState = CartState(items: seq<CartItem>, total: int, restaurantId: Option<string>)

  const InitialState: CartState := CartState([], 0, None)

  datatype CartAction =
    | AddItem(item: CartItem)
    | RemoveItem(menuItemId: string)
    | UpdateQuantity(menuItemId: string, quantity: int)
    | ClearCart
    | SetRestaurant(restaurantId: string)
    | OtherAction

  function LineTotal(i: CartItem): int {
    i.totalPrice
  }

  /** `items.reduce((sum, item) => sum + item.totalPrice, 0)`. */
  function Total(items: seq<CartItem>): int {
    SumOf(items, LineTotal)
  }

  /**
   * The same line: the same menu item with the same selected options (the
   * source compares the options' JSON texts).
   */
  function SameLine(p: CartItem): CartItem -> bool {
    (i: CartItem) => i.menuItemId == p.menuItemId && i.selectedOptions == p.selectedOptions
  }

  /** The existing line with the added quantity, priced at the existing line's unit price. */
  function Merge(existing: CartItem, added: CartItem): CartItem {
    existing.(quantity := existing.quantity + added.quantity,
              totalPrice := (existing.quantity + added.quantity) * existing.price)
  }

  function AddLine(items: seq<CartItem>, p: CartItem): seq<CartItem> {
    var k := FindIndex(items, SameLine(p));
    if k >= 0 then items[k := Merge(items[k], p)] else items + [p]
  }

  function OtherItem(id: string): CartItem -> bool {
    (i: CartItem) => i.menuItemId != id
  }

  function SetQuantity(items: seq<CartItem>, id: string, q: int): (r: seq<CartItem>)
    ensures |r| == |items|
  {
    seq(|items|, i requires 0 <= i < |items| =>
      if items[i].menuItemId == id then items[i].(quantity := q, totalPrice := q * items[i].price) else items[i])
  }

  function HasQuantity(i: CartItem): bool {
    i.quantity > 0
  }

  /** cartReducer. */
  function Reduce(state: CartState, action: CartAction): (r: CartState)
    ensures !action.SetRestaurant? ==> r.restaurantId == state.restaurantId
    ensures action.SetRestaurant? ==> r == state.(restaurantId := Some(action.restaurantId))
    ensures action.ClearCart? ==> r.items == [] && r.total == 0
    ensures action.OtherAction? ==> r == state
  {
    match action
    case AddItem(p) =>
      var items := AddLine(state.items, p);
      state.(items := items, total := Total(items))
    case RemoveItem(id) =>
      var items := Filter(state.items, OtherItem(id));
      state.(items := items, total := Total(items))
    case UpdateQuantity(id, q) =>
      var items := Filter(SetQuantity(state.items, id, q), HasQuantity);
      state.(items := items, total := Total(items))
    case ClearCart => state.(items := [], total := 0)
    case SetRestaurant(id) => state.(restaurantId := Some(id))
    case OtherAction => state
  }

  /** The cart's total is the sum of its lines' amounts. */
  predicate TotalAgrees(s: CartState) {
    s.total == Total(s.items)
  }

  /** Every action keeps the total equal to the sum of the lines. */
  lemma ReduceKeepsTotal(state: CartState, action: CartAction)
    requires TotalAgrees(state)
    ensures TotalAgrees(Reduce(state, action))
  {
  }

  /** A line whose amount is its unit price times its quantity. */
  predicate Priced(i: CartItem) {
    i.totalPrice == i.price * i.quantity
  }

  predicate AllPriced(items: seq<CartItem>) {
    forall i :: 0 <= i < |items| ==> Priced(items[i])
  }

  /** Every action keeps each line's amount equal to unit price times quantity, provided an added line has it. */
  lemma ReduceKeepsLinePrices(state: CartState, action: CartAction)
    requires AllPriced(state.items)
    requires action.AddItem? ==> Priced(action.item)
    ensures AllPriced(Reduce(state, action).items)
  {
    match action
    case AddItem(p) =>
      var k := FindIndex(state.items, SameLine(p));
      if k >= 0 {
        assert Priced(Merge(state.items[k], p));
      }
    case RemoveItem(id) =>
    case UpdateQuantity(id, q) =>
      var updated := SetQuantity(state.items, id, q);
      assert AllPriced(updated);
    case ClearCart =>
    case SetRestaurant(_) =>
    case OtherAction =>
  }

  /**
   * ADD_ITEM: a line equal in item and options to an existing one is merged
   * into the first such line, which is the only one changed; otherwise it is
   * appended.
   */
  lemma AddItemMeaning(state: CartState, p: CartItem)
    ensures var items := Reduce(state, AddItem(p)).items;
      ((forall i :: 0 <= i < |state.items| ==> !SameLine(p)(state.items[i])) ==> items == state.items + [p])
      && (forall k ::
            (0 <= k < |state.items| && SameLine(p)(state.items[k])
             && forall j :: 0 <= j < k ==> !SameLine(p)(state.items[j])) ==>
            |items| == |state.items| && items[k] == Merge(state.items[k], p)
            && items[k].quantity == state.items[k].quantity + p.quantity
            && forall j :: 0 <= j < |items| && j != k ==> items[j] == state.items[j])
  {
    FindIndexMeaning(state.items, SameLine(p));
  }

  lemma SumOfUpdate(s: seq<CartItem>, k: nat, y: CartItem)
    requires k < |s|
    ensures Total(s[k := y]) == Total(s) - s[k].totalPrice + y.totalPrice
  {
    var t := s[k := y];
    assert s == s[..k] + [s[k]] + s[k + 1..];
    assert t == s[..k] + [y] + s[k + 1..];
    SumOfAppend(s[..k] + [s[k]], s[k + 1..], LineTotal);
    SumOfAppend(s[..k], [s[k]], LineTotal);
    SumOfAppend(s[..k] + [y], s[k + 1..], LineTotal);
    SumOfAppend(s[..k], [y], LineTotal);
    assert [s[k]][..0] == [] && [y][..0] == [];
  }

  /** Adding a line raises the total by the added quantity at the unit price of the line it lands in. */
  lemma AddItemTotal(state: CartState, p: CartItem)
    requires AllPriced(state.items) && Priced(p)
    ensures var k := FindIndex(state.items, SameLine(p));
      Reduce(state, AddItem(p)).total
        == Total(state.items) + p.quantity * (if k >= 0 then state.items[k].price else p.price)
  {
    var k := FindIndex(state.items, SameLine(p));
    if k >= 0 {
      var e := state.items[k];
      SumOfUpdate(state.items, k, Merge(e, p));
      assert Priced(e);
      assert Merge(e, p).totalPrice == e.quantity * e.price + p.quantity * e.price;
    } else {
      SumOfAppend(state.items, [p], LineTotal);
      assert [p][..0] == [];
    }
  }

  /**
   * REMOVE_ITEM: no line of that item is left, every other line stays, and
   * nothing else is there: each line of another item occurs as often as before.
   */
  lemma RemoveItemMeaning(state: CartState, id: string)
    ensures var items := Reduce(state, RemoveItem(id)).items;
      (forall i :: 0 <= i < |items| ==> items[i].menuItemId != id && items[i] in state.items)
      && (forall i :: 0 <= i < |state.items| && state.items[i].menuItemId != id ==> state.items[i] in items)
      && (forall x :: multiset(items)[x] == if x.menuItemId != id then multiset(state.items)[x] else 0)
      && ((forall i :: 0 <= i < |state.items| ==> state.items[i].menuItemId != id) ==> items == state.items)
  {
    var items := Reduce(state, RemoveItem(id)).items;
    assert forall i :: 0 <= i < |items| ==> OtherItem(id)(items[i]);
    forall x
      ensures multiset(items)[x] == if x.menuItemId != id then multiset(state.items)[x] else 0
    {
      FilterCounts(state.items, OtherItem(id), x);
    }
    if forall i :: 0 <= i < |state.items| ==> state.items[i].menuItemId != id {
      FilterAll(state.items, OtherItem(id));
    }
  }

  /** Line `j` of the cart after UPDATE_QUANTITY sets item `id` to `q`, before the drop of empty lines. */
  function Requantified(items: seq<CartItem>, id: string, q: int, j: int): CartItem
    requires 0 <= j < |items|
  {
    if items[j].menuItemId == id then items[j].(quantity := q, totalPrice := q * items[j].price) else items[j]
  }

  /**
   * UPDATE_QUANTITY: every line of that item now has the new quantity and its
   * amount, lines without a positive quantity are dropped, and a quantity of
   * zero or less removes the item. With a positive quantity every line of the
   * item survives, re-quantified; every other line with a positive quantity
   * stays; and every line left comes from a line of the old cart.
   */
  lemma UpdateQuantityMeaning(state: CartState, id: string, q: int)
    ensures var items := Reduce(state, UpdateQuantity(id, q)).items;
      (forall i :: 0 <= i < |items| ==> items[i].quantity > 0)
      && (forall i :: 0 <= i < |items| && items[i].menuItemId == id ==>
            items[i].quantity == q && items[i].totalPrice == q * items[i].price)
      && (q <= 0 ==> forall i :: 0 <= i < |items| ==> items[i].menuItemId != id)
      && (q > 0 ==> forall j :: 0 <= j < |state.items| && state.items[j].menuItemId == id ==>
            Requantified(state.items, id, q, j) in items)
      && (forall i :: 0 <= i < |state.items| && state.items[i].menuItemId != id && state.items[i].quantity > 0 ==>
            state.items[i] in items)
      && (forall i :: 0 <= i < |items| ==>
            exists j :: 0 <= j < |state.items| && items[i] == Requantified(state.items, id, q, j))
  {
    var updated := SetQuantity(state.items, id, q);
    var items := Filter(updated, HasQuantity);
    assert forall j :: 0 <= j < |state.items| ==> updated[j] == Requantified(state.items, id, q, j);
    assert forall i :: 0 <= i < |items| ==> HasQuantity(items[i]) && items[i] in updated;
    forall i | 0 <= i < |state.items| && state.items[i].menuItemId != id && state.items[i].quantity > 0
      ensures state.items[i] in items
    {
      assert updated[i] == state.items[i];
    }
    forall i | 0 <= i < |items|
      ensures exists j :: 0 <= j < |state.items| && items[i] == Requantified(state.items, id, q, j)
    {
      var j :| 0 <= j < |updated| && updated[j] == items[i];
      assert items[i] == Requantified(state.items, id, q, j);
    }
  }

  /** The empty cart agrees with its total. */
  lemma InitialAgrees()
    ensures TotalAgrees(InitialState) && AllPriced(InitialState.items)
  {
  }
}
