/**
 * The category endpoints: a restaurant's categories are a list kept in its
 * row, listed sorted by `order`, appended to, and edited one element at a time.
 */
module Categories {
  import opened Wrappers
  import opened Types
  import opened Store
  import opened Seqs
  import Text

  /** The parsed JSON body: POST reads name, displayName and order; PUT reads displayName, active and order. */
  datatype CategoryBody = CategoryBody(name: Option<string>, displayName: Option<string>,
                                       active: Option<bool>, order: Option<int>)

  /** The payloads the endpoints answer with. */
  datatype CategoryPayload = Listed(categories: seq<Category>) | One(category: Category) | NoContent

  // ----- the order categories are listed in -----

  predicate SortedByOrder(s: seq<Category>) {
    forall i, j :: 0 <= i < j < |s| ==> s[i].order <= s[j].order
  }

  /** Where a stable sort puts `x` into `s`: just after the last element whose order is not greater. */
  function Insert(x: Category, s: seq<Category>): (r: seq<Category>)
    ensures |r| == |s| + 1
  {
    if s == [] || s[|s| - 1].order <= x.order then s + [x]
    else Insert(x, s[..|s| - 1]) + [s[|s| - 1]]
  }

  /** The stable sort by ascending `order` that `sort((a, b) => a.order - b.order)` performs. */
  function StableSort(s: seq<Category>): (r: seq<Category>)
    ensures |r| == |s|
  {
    if s == [] then [] else Insert(s[|s| - 1], StableSort(s[..|s| - 1]))
  }

  lemma {:induction false} InsertSorted(x: Category, s: seq<Category>)
    requires SortedByOrder(s)
    ensures SortedByOrder(Insert(x, s))
    decreases |s|
  {
    if s != [] && s[|s| - 1].order > x.order {
      var init, last := s[..|s| - 1], s[|s| - 1];
      assert SortedByOrder(init);
      InsertSorted(x, init);
      InsertBounded(x, init, last.order);
      SortedSnoc(Insert(x, init), last);
    }
  }

  lemma {:induction false} InsertPermutes(x: Category, s: seq<Category>)
    ensures multiset(Insert(x, s)) == multiset(s) + multiset{x}
    decreases |s|
  {
    if s != [] && s[|s| - 1].order > x.order {
      var init, last := s[..|s| - 1], s[|s| - 1];
      assert s == init + [last];
      InsertPermutes(x, init);
    }
  }

  lemma SortedSnoc(t: seq<Category>, y: Category)
    requires SortedByOrder(t)
    requires forall i :: 0 <= i < |t| ==> t[i].order <= y.order
    ensures SortedByOrder(t + [y])
  {
  }

  /** Inserting keeps every element at most `b` when `x` and `s` are. */
  lemma {:induction false} InsertBounded(x: Category, s: seq<Category>, b: int)
    requires x.order <= b
    requires forall i :: 0 <= i < |s| ==> s[i].order <= b
    ensures forall i :: 0 <= i < |s| + 1 ==> Insert(x, s)[i].order <= b
    decreases |s|
  {
    if s != [] && s[|s| - 1].order > x.order {
      InsertBounded(x, s[..|s| - 1], b);
    }
  }

  /** The sort's result is ordered and holds exactly the input's categories. */
  lemma {:induction false} StableSortSorted(s: seq<Category>)
    ensures SortedByOrder(StableSort(s))
    ensures multiset(StableSort(s)) == multiset(s)
    decreases |s|
  {
    if s != [] {
      var init := s[..|s| - 1];
      assert s == init + [s[|s| - 1]];
      StableSortSorted(init);
      InsertSorted(s[|s| - 1], StableSort(init));
      InsertPermutes(s[|s| - 1], StableSort(init));
    }
  }

  function HasOrder(v: int): Category -> bool {
    (c: Category) => c.order == v
  }

  lemma FilterSnoc(s: seq<Category>, y: Category, p: Category -> bool)
    ensures Filter(s + [y], p) == Filter(s, p) + (if p(y) then [y] else [])
  {
    assert (s + [y])[..|s|] == s;
  }

  lemma {:induction false} InsertTies(x: Category, s: seq<Category>, v: int)
    ensures Filter(Insert(x, s), HasOrder(v)) == Filter(s, HasOrder(v)) + (if x.order == v then [x] else [])
    decreases |s|
  {
    var p := HasOrder(v);
    if s == [] || s[|s| - 1].order <= x.order {
      FilterSnoc(s, x, p);
    } else {
      var init, last := s[..|s| - 1], s[|s| - 1];
      assert s == init + [last];
      assert !(x.order == v && p(last));
      InsertTies(x, init, v);
      FilterSnoc(Insert(x, init), last, p);
      FilterSnoc(init, last, p);
    }
  }

  /** Stability: the categories sharing one `order` value keep their relative order. */
  lemma {:induction false} StableSortKeepsTies(s: seq<Category>, v: int)
    ensures Filter(StableSort(s), HasOrder(v)) == Filter(s, HasOrder(v))
    decreases |s|
  {
    if s != [] {
      var init, last := s[..|s| - 1], s[|s| - 1];
      assert s == init + [last];
      StableSortKeepsTies(init, v);
      InsertTies(last, StableSort(init), v);
      FilterSnoc(init, last, HasOrder(v));
    }
  }

  /** One shift of the insertion loop: an element greater than `x` moves from before the gap to after it. */
  lemma InsertShift(x: Category, p: seq<Category>, j: nat)
    requires 0 < j <= |p| && p[j - 1].order > x.order
    requires Insert(x, p) == Insert(x, p[..j]) + p[j..]
    ensures Insert(x, p) == Insert(x, p[..j - 1]) + p[j - 1..]
  {
    assert p[..j][..j - 1] == p[..j - 1];
    assert p[j - 1..] == [p[j - 1]] + p[j..];
    Text.AppendAssoc(Insert(x, p[..j - 1]), [p[j - 1]], p[j..]);
  }

  /** Where the insertion loop stops, `x` goes into the gap. */
  lemma InsertPlaced(x: Category, p: seq<Category>, j: nat)
    requires j <= |p| && (j == 0 || p[j - 1].order <= x.order)
    requires Insert(x, p) == Insert(x, p[..j]) + p[j..]
    ensures Insert(x, p) == p[..j] + [x] + p[j..]
  {
  }

  lemma SliceAround<T>(s: seq<T>, j: nat, n: nat)
    requires j < n <= |s|
    ensures s[..n] == s[..j] + [s[j]] + s[j + 1..n]
  {
  }

  /** The swap of the insertion loop on the array's contents: `x` moves one place left. */
  lemma SwapStep(s: seq<Category>, p: seq<Category>, x: Category, rest: seq<Category>, j: nat)
    requires 0 < j <= |p|
    requires s == p[..j] + [x] + p[j..] + rest
    ensures s[j - 1] == p[j - 1] && s[j] == x
    ensures s[j - 1 := x][j := p[j - 1]] == p[..j - 1] + [x] + p[j - 1..] + rest
  {
    assert p[..j] == p[..j - 1] + [p[j - 1]];
    assert p[j - 1..] == [p[j - 1]] + p[j..];
  }

  lemma SplitAfter(s: seq<Category>, front: seq<Category>, rest: seq<Category>)
    requires s == front + rest
    ensures s[..|front|] == front && s[|front|..] == rest
  {
  }

  /** One step of the insertion sort: `a[i]` moves left past the greater elements before it. */
  method InsertAt(a: array<Category>, i: nat)
    requires i < a.Length
    modifies a
    ensures a[..i + 1] == Insert(old(a[i]), old(a[..i]))
    ensures a[i + 1..] == old(a[i + 1..])
  {
    ghost var p, rest := a[..i], a[i + 1..];
    var x := a[i];
    var j := i;
    assert p[..j] == p && p[j..] == [];
    assert a[..] == p[..j] + [x] + p[j..] + rest;
    while j > 0 && a[j - 1].order > x.order
      invariant 0 <= j <= i
      invariant a[..] == p[..j] + [x] + p[j..] + rest
      invariant Insert(x, p) == Insert(x, p[..j]) + p[j..]
    {
      ghost var before := a[..];
      SwapStep(before, p, x, rest, j);
      InsertShift(x, p, j);
      a[j - 1], a[j] := x, a[j - 1];
      assert a[..] == before[j - 1 := x][j := p[j - 1]];
      j := j - 1;
    }
    InsertPlaced(x, p, j);
    SplitAfter(a[..], Insert(x, p), rest);
  }

  /**
   * `categories.sort((a, b) => a.order - b.order)`, in place: an insertion
   * sort that shifts the greater elements right, which is stable.
   */
  method SortByOrder(a: array<Category>)
    modifies a
    ensures a[..] == StableSort(old(a[..]))
  {
    ghost var A := a[..];
    var i := 0;
    while i < a.Length
      invariant 0 <= i <= a.Length
      invariant a[..i] == StableSort(A[..i])
      invariant a[i..] == A[i..]
    {
      InsertAt(a, i);
      assert A[..i + 1] == A[..i] + [A[i]];
      i := i + 1;
    }
    assert A[..a.Length] == A;
  }

  // ----- the endpoints -----

  const RestaurantNotFound: Problem := Problem(404, "Restaurant not found")

  /** The row's categories, or none when it has no list yet. */
  function CategoriesOf(row: RestaurantRow): seq<Category> {
    row.categories.GetOr([])
  }

  /** getCategories: the restaurant's categories, sorted by `order`. */
  method GetCategories(table: RestaurantTable, restaurantId: string) returns (reply: Reply<CategoryPayload>)
    ensures restaurantId !in table.rows ==> reply == Failure(RestaurantNotFound)
    ensures restaurantId in table.rows ==>
      reply == Answer(200, Listed(StableSort(CategoriesOf(table.rows[restaurantId]))))
  {
    var row := table.Get(restaurantId);
    if row.None? {
      return Failure(RestaurantNotFound);
    }
    var cats := CategoriesOf(row.value);
    var a := new Category[|cats|](i requires 0 <= i < |cats| => cats[i]);
    assert a[..] == cats;
    SortByOrder(a);
    reply := Answer(200, Listed(a[..]));
  }

  /** The category createCategory builds for a list of `count` categories. */
  function NewCategory(restaurantId: string, request: CategoryBody, count: nat, uuid: string, now: string): (c: Category)
    ensures c.id == "cat_" + uuid && c.active
    ensures c.order == if request.order.Some? then request.order.value else count
  {
    Category("cat_" + uuid, request.name, request.displayName, true,
             if request.order.Some? then request.order.value else count, restaurantId, now, now)
  }

  /** The row with its category list replaced and its updatedAt set. */
  function WithCategories(row: RestaurantRow, cats: seq<Category>, now: string): RestaurantRow {
    RestaurantRow(row.attrs["updatedAt" := JsString(now)], Some(cats))
  }

  /** createCategory: the new category appended after the existing ones. */
  method CreateCategory(table: RestaurantTable, restaurantId: string, request: CategoryBody, uuid: string, now: string)
    returns (reply: Reply<CategoryPayload>)
    modifies table
    ensures restaurantId !in old(table.rows) ==> reply == Failure(RestaurantNotFound) && table.rows == old(table.rows)
    ensures restaurantId in old(table.rows) ==>
      var row := old(table.rows)[restaurantId];
      var c := NewCategory(restaurantId, request, |CategoriesOf(row)|, uuid, now);
      reply == Answer(201, One(c))
      && table.rows == old(table.rows)[restaurantId := WithCategories(row, CategoriesOf(row) + [c], now)]
  {
    var row := table.Get(restaurantId);
    if row.None? {
      return Failure(RestaurantNotFound);
    }
    var cats := CategoriesOf(row.value);
    var c := NewCategory(restaurantId, request, |cats|, uuid, now);
    table.Put(restaurantId, WithCategories(row.value, cats + [c], now));
    reply := Answer(201, One(c));
  }

  /** An appended category is the last one, and the ones before it are untouched. */
  lemma AppendKeepsOthers(row: RestaurantRow, c: Category, now: string)
    ensures var after := CategoriesOf(WithCategories(row, CategoriesOf(row) + [c], now));
      |after| == |CategoriesOf(row)| + 1 && after[|after| - 1] == c
      && after[..|CategoriesOf(row)|] == CategoriesOf(row)
  {
    var after := CategoriesOf(WithCategories(row, CategoriesOf(row) + [c], now));
    assert after == CategoriesOf(row) + [c];
  }

  /** The category with only the requested fields replaced, and updatedAt set. */
  function Patch(c: Category, request: CategoryBody, now: string): (r: Category)
    ensures r.id == c.id && r.name == c.name && r.restaurantId == c.restaurantId && r.createdAt == c.createdAt
    ensures r.updatedAt == now
    ensures r.displayName == if request.displayName.Some? then request.displayName else c.displayName
    ensures r.active == if request.active.Some? then request.active.value else c.active
    ensures r.order == if request.order.Some? then request.order.value else c.order
  {
    var r := c.(updatedAt := now);
    var r := if request.displayName.Some? then r.(displayName := request.displayName) else r;
    var r := if request.active.Some? then r.(active := request.active.value) else r;
    if request.order.Some? then r.(order := request.order.value) else r
  }

  /** An empty request changes nothing but updatedAt. */
  lemma EmptyPatch(c: Category, now: string)
    ensures Patch(c, CategoryBody(None, None, None, None), now) == c.(updatedAt := now)
  {
  }

  function HasId(id: string): Category -> bool {
    (c: Category) => c.id == id
  }

  const CategoryNotFound: Problem := Problem(404, "The specified category does not exist")

  /** updateCategory: the first category with that id is replaced by its patched copy. */
  method UpdateCategory(table: RestaurantTable, restaurantId: string, categoryId: string, request: CategoryBody, now: string)
    returns (reply: Reply<CategoryPayload>)
    modifies table
    ensures restaurantId !in old(table.rows) ==> reply == Failure(RestaurantNotFound) && table.rows == old(table.rows)
    ensures restaurantId in old(table.rows) ==>
      var row := old(table.rows)[restaurantId];
      var cats := CategoriesOf(row);
      var k := FindIndex(cats, HasId(categoryId));
      (k == -1 ==> reply == Failure(CategoryNotFound) && table.rows == old(table.rows))
      && (k >= 0 ==>
            reply == Answer(200, One(Patch(cats[k], request, now)))
            && table.rows == old(table.rows)[restaurantId := WithCategories(row, cats[k := Patch(cats[k], request, now)], now)])
  {
    var row := table.Get(restaurantId);
    if row.None? {
      return Failure(RestaurantNotFound);
    }
    var cats := CategoriesOf(row.value);
    var k := FindIndex(cats, HasId(categoryId));
    if k == -1 {
      return Failure(CategoryNotFound);
    }
    var updated := Patch(cats[k], request, now);
    // Deactivating a category (request.active == Some(false)) only writes a
    // log line, and that hook swallows its own errors, so nothing happens here.
    var a := new Category[|cats|](i requires 0 <= i < |cats| => cats[i]);
    a[k] := updated;
    assert a[..] == cats[k := updated];
    table.Put(restaurantId, WithCategories(row.value, a[..], now));
    reply := Answer(200, One(updated));
  }

  /** The edited category is the first one with the id; every other one keeps its value and position. */
  lemma UpdateTouchesOne(cats: seq<Category>, categoryId: string, request: CategoryBody, now: string)
    requires FindIndex(cats, HasId(categoryId)) >= 0
    ensures var k := FindIndex(cats, HasId(categoryId));
      var after := cats[k := Patch(cats[k], request, now)];
      |after| == |cats| && after[k].id == categoryId
      && (forall i :: 0 <= i < |cats| && i != k ==> after[i] == cats[i])
      && (forall i :: 0 <= i < k ==> cats[i].id != categoryId)
  {
    FindIndexMeaning(cats, HasId(categoryId));
  }

  // ----- the handler -----

  /** The parts of a request the handler reads. */
  datatype CategoryEvent = CategoryEvent(httpMethod: string, restaurantId: Option<string>, categoryId: Option<string>,
                                         body: Body<CategoryBody>)

  /** handler: OPTIONS, then the path checks, then the method dispatch. */
  method Handle(table: RestaurantTable, event: CategoryEvent, uuid: string, now: string) returns (reply: Reply<CategoryPayload>)
    modifies table
    ensures event.httpMethod == "OPTIONS" ==> reply == Answer(200, NoContent) && table.rows == old(table.rows)
    ensures event.httpMethod != "OPTIONS" && !Present(event.restaurantId) ==>
      reply == Failure(Problem(400, "Restaurant ID is required")) && table.rows == old(table.rows)
    ensures event.httpMethod != "OPTIONS" && Present(event.restaurantId) ==>
      var rid := event.restaurantId.value;
      (event.httpMethod == "GET" ==>
            table.rows == old(table.rows)
            && (rid !in old(table.rows) ==> reply == Failure(RestaurantNotFound))
            && (rid in old(table.rows) ==> reply == Answer(200, Listed(StableSort(CategoriesOf(old(table.rows)[rid]))))))
      && (event.httpMethod == "POST" ==>
            (event.body.NoBody? ==> reply == Failure(Problem(400, "Request body is required")) && table.rows == old(table.rows))
            && (event.body.InvalidJson? ==> reply == Failure(Unexpected) && table.rows == old(table.rows))
            && (event.body.Json? && rid !in old(table.rows) ==> reply == Failure(RestaurantNotFound) && table.rows == old(table.rows))
            && (event.body.Json? && rid in old(table.rows) ==>
                  var row := old(table.rows)[rid];
                  var c := NewCategory(rid, event.body.value, |CategoriesOf(row)|, uuid, now);
                  reply == Answer(201, One(c))
                  && table.rows == old(table.rows)[rid := WithCategories(row, CategoriesOf(row) + [c], now)]))
      && (event.httpMethod == "PUT" ==>
            (!Present(event.categoryId) ==> reply == Failure(Problem(400, "Category ID is required")) && table.rows == old(table.rows))
            && (Present(event.categoryId) && event.body.NoBody? ==>
                  reply == Failure(Problem(400, "Request body is required")) && table.rows == old(table.rows))
            && (Present(event.categoryId) && event.body.InvalidJson? ==> reply == Failure(Unexpected) && table.rows == old(table.rows))
            && (Present(event.categoryId) && event.body.Json? && rid !in old(table.rows) ==>
                  reply == Failure(RestaurantNotFound) && table.rows == old(table.rows))
            && (Present(event.categoryId) && event.body.Json? && rid in old(table.rows) ==>
                  var row := old(table.rows)[rid];
                  var cats := CategoriesOf(row);
                  var k := FindIndex(cats, HasId(event.categoryId.value));
                  (k == -1 ==> reply == Failure(CategoryNotFound) && table.rows == old(table.rows))
                  && (k >= 0 ==>
                        var patched := Patch(cats[k], event.body.value, now);
                        reply == Answer(200, One(patched))
                        && table.rows == old(table.rows)[rid := WithCategories(row, cats[k := patched], now)])))
      && (event.httpMethod !in {"GET", "POST", "PUT"} ==>
            reply == Failure(Problem(405, "HTTP method " + event.httpMethod + " is not allowed")) && table.rows == old(table.rows))
  {
    if event.httpMethod == "OPTIONS" {
      return Answer(200, NoContent);
    }
    if !Present(event.restaurantId) {
      return Failure(Problem(400, "Restaurant ID is required"));
    }
    var rid := event.restaurantId.value;
    if event.httpMethod == "GET" {
      reply := GetCategories(table, rid);
    } else if event.httpMethod == "POST" {
      match event.body
      case NoBody => reply := Failure(Problem(400, "Request body is required"));
      case InvalidJson => reply := Failure(Unexpected);
      case Json(request) => reply := CreateCategory(table, rid, request, uuid, now);
    } else if event.httpMethod == "PUT" {
      if !Present(event.categoryId) {
        return Failure(Problem(400, "Category ID is required"));
      }
      match event.body
      case NoBody => reply := Failure(Problem(400, "Request body is required"));
      case InvalidJson => reply := Failure(Unexpected);
      case Json(request) => reply := UpdateCategory(table, rid, event.categoryId.value, request, now);
    } else {
      reply := Failure(Problem(405, "HTTP method " + event.httpMethod + " is not allowed"));
    }
  }
}
