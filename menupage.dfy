/**
 * The customer app's menu page: the category tabs, the items a tab shows, the
 * display names of categories, and the cart lines built when an item is
 * picked.
 */
module MenuPage {
  import opened Wrappers
  import opened Seqs
  import opened Text
  import opened ClientTypes
  import Cart
  import OptionModal

  // ----- category tabs -----

  function CategoryNames(items: seq<MenuItem>): (r: seq<string>)
    ensures |r| == |items|
  {
    seq(|items|, i requires 0 <= i < |items| => items[i].category)
  }

  /** `[...new Set(s)]`: each value once, in the order it first appears. */
  function Distinct(s: seq<string>): (r: seq<string>)
    decreases |s|
  {
    if s == [] then []
    else
      var d := Distinct(s[..|s| - 1]);
      if s[|s| - 1] in d then d else d + [s[|s| - 1]]
  }

  predicate NoDuplicates(s: seq<string>) {
    forall i, j :: 0 <= i < j < |s| ==> s[i] != s[j]
  }

  /** The distinct values are exactly the values of `s`, each once. */
  lemma {:induction false} DistinctMeaning(s: seq<string>)
    ensures forall x :: x in Distinct(s) <==> x in s
    ensures NoDuplicates(Distinct(s))
    decreases |s|
  {
    if s != [] {
      var init := s[..|s| - 1];
      assert s == init + [s[|s| - 1]];
      DistinctMeaning(init);
    }
  }

  function Equal(x: string): string -> bool {
    (y: string) => y == x
  }

  /** Where `x` first appears in `s`. */
  function FirstIndex(s: seq<string>, x: string): int {
    FindIndex(s, Equal(x))
  }

  lemma FirstIndexSnoc(init: seq<string>, last: string, x: string)
    requires x in init + [last]
    ensures FirstIndex(init + [last], x) == if x in init then FirstIndex(init, x) else |init|
  {
    var s := init + [last];
    FindIndexMeaning(s, Equal(x));
    FindIndexMeaning(init, Equal(x));
    var m := FindIndex(s, Equal(x));
    if x in init {
      var k :| 0 <= k < |init| && init[k] == x;
      assert Equal(x)(init[k]);
      var k0 := FindIndex(init, Equal(x));
      assert s[k0] == init[k0] && Equal(x)(s[k0]);
      assert m <= k0;
      assert s[m] == init[m];
    } else {
      assert Equal(x)(s[|init|]);
      assert forall j :: 0 <= j < |init| ==> s[j] == init[j] && !Equal(x)(s[j]);
    }
  }

  /** The values of `d` come in the order of their first appearance in `s`. */
  predicate InFirstAppearanceOrder(s: seq<string>, d: seq<string>) {
    forall i, j :: 0 <= i < j < |d| ==> 0 <= FirstIndex(s, d[i]) < FirstIndex(s, d[j])
  }

  lemma FirstIndexFound(s: seq<string>, x: string)
    requires x in s
    ensures 0 <= FirstIndex(s, x) < |s|
  {
    FindIndexMeaning(s, Equal(x));
    var k :| 0 <= k < |s| && s[k] == x;
    assert Equal(x)(s[k]);
  }

  /** Appending a value that is not yet there keeps the order of the others and puts it last. */
  lemma OrderSnoc(init: seq<string>, last: string, d0: seq<string>)
    requires InFirstAppearanceOrder(init, d0)
    requires forall x :: x in d0 ==> x in init
    ensures InFirstAppearanceOrder(init + [last], d0)
    ensures last !in init ==> InFirstAppearanceOrder(init + [last], d0 + [last])
  {
    forall i, j | 0 <= i < j < |d0|
      ensures 0 <= FirstIndex(init + [last], d0[i]) < FirstIndex(init + [last], d0[j])
    {
      FirstIndexSnoc(init, last, d0[i]);
      FirstIndexSnoc(init, last, d0[j]);
    }
    if last !in init {
      FirstIndexSnoc(init, last, last);
      forall i, j | 0 <= i < j < |d0 + [last]|
        ensures 0 <= FirstIndex(init + [last], (d0 + [last])[i]) < FirstIndex(init + [last], (d0 + [last])[j])
      {
        assert (d0 + [last])[i] == d0[i];
        if j == |d0| {
          FirstIndexSnoc(init, last, d0[i]);
          FirstIndexFound(init, d0[i]);
        } else {
          assert (d0 + [last])[j] == d0[j];
        }
      }
    }
  }

  /** The distinct values come in the order of their first appearance. */
  lemma {:induction false} DistinctInFirstAppearanceOrder(s: seq<string>)
    ensures InFirstAppearanceOrder(s, Distinct(s))
    decreases |s|
  {
    if s != [] {
      var init := s[..|s| - 1];
      var last := s[|s| - 1];
      assert s == init + [last];
      DistinctInFirstAppearanceOrder(init);
      DistinctMeaning(init);
      OrderSnoc(init, last, Distinct(init));
    }
  }

  /** The tabs: "all", then each category of the menu once, in order of first appearance. */
  function Categories(menu: Option<seq<MenuItem>>): (r: seq<string>)
    ensures |r| >= 1 && r[0] == "all"
  {
    if menu.Some? then ["all"] + Distinct(CategoryNames(menu.value)) else ["all"]
  }

  /** Every item's category has a tab, and every tab after "all" is some item's category. */
  lemma CategoriesMeaning(items: seq<MenuItem>)
    ensures var tabs := Categories(Some(items));
      (forall i :: 0 <= i < |items| ==> items[i].category in tabs)
      && forall k :: 1 <= k < |tabs| ==> exists i :: 0 <= i < |items| && items[i].category == tabs[k]
  {
    var names := CategoryNames(items);
    DistinctMeaning(names);
    var tabs := Categories(Some(items));
    forall i | 0 <= i < |items|
      ensures items[i].category in tabs
    {
      assert names[i] == items[i].category;
    }
    forall k | 1 <= k < |tabs|
      ensures exists i :: 0 <= i < |items| && items[i].category == tabs[k]
    {
      assert tabs[k] in Distinct(names);
      var i :| 0 <= i < |names| && names[i] == tabs[k];
      assert items[i].category == tabs[k];
    }
  }

  function Shown(selectedCategory: string): MenuItem -> bool {
    (i: MenuItem) => selectedCategory == "all" || i.category == selectedCategory
  }

  /** filteredItems: the items the selected tab shows; none while there is no menu. */
  function FilteredItems(menu: Option<seq<MenuItem>>, selectedCategory: string): (r: seq<MenuItem>)
    ensures menu.None? ==> r == []
  {
    if menu.Some? then Filter(menu.value, Shown(selectedCategory)) else []
  }

  /** The "all" tab shows every item. */
  lemma AllShowsEverything(items: seq<MenuItem>)
    ensures FilteredItems(Some(items), "all") == items
  {
    FilterAll(items, Shown("all"));
  }

  /** Any other tab shows exactly the items of that category, and a tab of the list shows at least one. */
  lemma TabShowsItsCategory(items: seq<MenuItem>, c: string)
    requires c != "all"
    ensures var shown := FilteredItems(Some(items), c);
      (forall i :: 0 <= i < |shown| ==> shown[i].category == c && shown[i] in items)
      && (forall i :: 0 <= i < |items| && items[i].category == c ==> items[i] in shown)
      && (c in Categories(Some(items)) ==> shown != [])
  {
    var shown := FilteredItems(Some(items), c);
    if c in Categories(Some(items)) {
      CategoriesMeaning(items);
      var k :| 0 <= k < |Categories(Some(items))| && Categories(Some(items))[k] == c;
      var i :| 0 <= i < |items| && items[i].category == c;
      assert items[i] in shown;
    }
  }

  // ----- category display names -----

  /** The Korean names of the common categories, by lower-case key. */
  const DisplayNames: map<string, string> := map[
    "all" := "전체",
    "main" := "메인",
    "burgers" := "버거",
    "burger" := "버거",
    "side" := "사이드",
    "sides" := "사이드",
    "drink" := "음료",
    "drinks" := "음료",
    "beverage" := "음료",
    "beverages" := "음료",
    "dessert" := "디저트",
    "desserts" := "디저트",
    "appetizer" := "애피타이저",
    "appetizers" := "애피타이저",
    "pasta" := "파스타",
    "pizza" := "피자",
    "salad" := "샐러드",
    "salads" := "샐러드"
  ]

  /** getCategoryDisplayName: the table's name for the lower-cased category, else the category itself. */
  function CategoryDisplayName(category: string): (r: string)
    ensures r != ""  || category == ""
  {
    var key := Lower(category);
    if key in DisplayNames && DisplayNames[key] != "" then DisplayNames[key] else category
  }

  /** A name in the table, in any letter case, is shown by the table's entry; any other comes back unchanged. */
  lemma DisplayNameMeaning(category: string)
    ensures Lower(category) in DisplayNames ==> CategoryDisplayName(category) == DisplayNames[Lower(category)]
    ensures Lower(category) !in DisplayNames ==> CategoryDisplayName(category) == category
  {
    assert forall k :: k in DisplayNames ==> DisplayNames[k] != "";
  }

  /** Two spellings differing only in letter case show the same thing when the table knows them. */
  lemma DisplayNameIgnoresCase(a: string, b: string)
    requires Lower(a) == Lower(b) && Lower(a) in DisplayNames
    ensures CategoryDisplayName(a) == CategoryDisplayName(b)
  {
  }

  // ----- building cart lines -----

  /** What picking an item does: nothing, open the option dialog, or add a line to the cart. */
  datatype ItemSelect = Ignored | OpenOptions(item: MenuItem) | AddToCart(line: CartItem)

  /** handleItemSelect. */
  function HandleItemSelect(item: MenuItem): (r: ItemSelect)
    ensures !item.available ==> r.Ignored?
    ensures item.available && item.options != [] ==> r == OpenOptions(item)
    ensures r.AddToCart? ==>
      item.available && item.options == []
      && r.line.menuItemId == item.id && r.line.quantity == 1 && r.line.selectedOptions == []
      && r.line.totalPrice == OptionModal.CalculateTotalPrice(item, OptionModal.Opened)
      && Cart.Priced(r.line)
  {
    if !item.available then Ignored
    else if |item.options| > 0 then OpenOptions(item)
    else AddToCart(CartItem(item.id, item.name, item.price, 1, [], item.price))
  }

  /**
   * handleOptionConfirm: the line for the confirmed selection, priced at the
   * item's price plus the modifiers per unit; nothing while no item is selected.
   */
  function HandleOptionConfirm(selectedItem: Option<MenuItem>, selected: seq<SelectedOption>, quantity: int): (r: Option<CartItem>)
    ensures selectedItem.None? ==> r.None?
    ensures selectedItem.Some? ==>
      r.Some? && r.value.menuItemId == selectedItem.value.id && r.value.quantity == quantity
      && r.value.selectedOptions == selected
      && r.value.price == selectedItem.value.price + OptionModal.OptionPrice(selected)
      && r.value.totalPrice == OptionModal.CalculateTotalPrice(selectedItem.value, OptionModal.ModalState(selected, quantity))
      && Cart.Priced(r.value)
  {
    if selectedItem.None? then None
    else
      var item := selectedItem.value;
      var optionPrice := OptionModal.OptionPrice(selected);
      Some(CartItem(item.id, item.name, item.price + optionPrice, quantity, selected, (item.price + optionPrice) * quantity))
  }

  /**
   * A confirmed line that starts a new cart line raises the cart's total by
   * exactly the price the dialog showed, and keeps every line priced.
   */
  lemma ConfirmedLineAddsShownPrice(cart: Cart.CartState, item: MenuItem, state: OptionModal.ModalState)
    requires Cart.AllPriced(cart.items)
    requires Find(cart.items, Cart.SameLine(HandleOptionConfirm(Some(item), state.selected, state.quantity).value)).None?
    ensures var line := HandleOptionConfirm(Some(item), state.selected, state.quantity).value;
      var next := Cart.Reduce(cart, Cart.AddItem(line));
      next.total == Cart.Total(cart.items) + OptionModal.CalculateTotalPrice(item, state)
      && Cart.AllPriced(next.items)
  {
    var line := HandleOptionConfirm(Some(item), state.selected, state.quantity).value;
    Cart.AddItemTotal(cart, line);
    Cart.ReduceKeepsLinePrices(cart, Cart.AddItem(line));
  }
}
