/**
 * The menu endpoints: reading a restaurant's confirmed menu, and storing a
 * new menu version, which is kept as a DRAFT unless the request asks to
 * confirm it; confirming first demotes every other confirmed version of the
 * restaurant, so at most one version is confirmed at a time.
 */
module MenuHandler {
  import opened Wrappers
  import opened Types
  import opened Store

  /**
   * A menu item as posted. `id` and `name` are absent when the JSON leaves them
   * out; `price` is absent when it is not a JSON number.
   */
  datatype PostedItem = PostedItem(id: Option<string>, name: Option<string>, price: Option<Money>,
                                   description: string, options: seq<MenuOption>, available: bool)

  /** The body of POST /menu; `items` is absent when missing or not an array. */
  datatype PostMenuRequest = PostMenuRequest(items: Option<seq<PostedItem>>)

  /** The 201 answer to POST /menu. */
  datatype MenuCreated = MenuCreated(version: string, status: MenuStatus, createdAt: Time)

  /** The check each posted item must pass: an id, a name and a price that is a number not below zero. */
  predicate WellFormedItem(p: PostedItem) {
    Present(p.id) && Present(p.name) && p.price.Some? && p.price.value >= 0
  }

  function StoredItem(p: PostedItem): MenuItem
    requires WellFormedItem(p)
  {
    MenuItem(p.id.value, p.name.value, p.description, p.price.value, p.options, p.available)
  }

  function StoredItems(ps: seq<PostedItem>): (r: seq<MenuItem>)
    requires forall i :: 0 <= i < |ps| ==> WellFormedItem(ps[i])
    ensures |r| == |ps|
    ensures forall i :: 0 <= i < |ps| ==> r[i] == StoredItem(ps[i])
  {
    seq(|ps|, i requires 0 <= i < |ps| => StoredItem(ps[i]))
  }

  /** The `for … of` check over the posted items: true when none is malformed. */
  method AllWellFormed(ps: seq<PostedItem>) returns (ok: bool)
    ensures ok <==> forall i :: 0 <= i < |ps| ==> WellFormedItem(ps[i])
  {
    var i := 0;
    while i < |ps|
      invariant 0 <= i <= |ps|
      invariant forall j :: 0 <= j < i ==> WellFormedItem(ps[j])
    {
      if !WellFormedItem(ps[i]) {
        return false;
      }
      i := i + 1;
    }
    return true;
  }

  /** The version a POST stores first. */
  function DraftMenu(rid: string, version: string, items: seq<MenuItem>, now: Time): (m: MenuRecord)
    ensures m.status == MenuDraft && m.confirmedAt.None? && MenuKeyOf(m) == MenuKey(rid, version)
  {
    MenuRecord(rid, version, items, MenuDraft, now, None)
  }

  function Demote(m: MenuRecord): MenuRecord {
    m.(status := MenuDraft)
  }

  function Confirm(now: Time): MenuRecord -> MenuRecord {
    (m: MenuRecord) => m.(status := MenuConfirmed, confirmedAt := Some(now))
  }

  /** The rows after demoting the confirmed versions of `rid` among `done`. */
  function DemotedAmong(rows: map<MenuKey, MenuRecord>, rid: string, done: set<MenuKey>): (r: map<MenuKey, MenuRecord>)
    ensures r.Keys == rows.Keys
  {
    map k | k in rows :: if k in done && ConfirmedFor(rows[k], rid) then Demote(rows[k]) else rows[k]
  }

  /** Every confirmed version of `rid` demoted to DRAFT, everything else as it was. */
  function Demoted(rows: map<MenuKey, MenuRecord>, rid: string): (r: map<MenuKey, MenuRecord>)
    ensures r.Keys == rows.Keys
    ensures forall k :: k in rows ==> !ConfirmedFor(r[k], rid)
    ensures forall k :: k in rows && rows[k].restaurantId != rid ==> r[k] == rows[k]
  {
    DemotedAmong(rows, rid, rows.Keys)
  }

  lemma DemotedAmongStep(rows: map<MenuKey, MenuRecord>, rid: string, done: set<MenuKey>, k: MenuKey)
    requires k in rows && k !in done
    ensures ConfirmedFor(rows[k], rid) ==>
      DemotedAmong(rows, rid, done + {k}) == DemotedAmong(rows, rid, done)[k := Demote(rows[k])]
    ensures !ConfirmedFor(rows[k], rid) ==> DemotedAmong(rows, rid, done + {k}) == DemotedAmong(rows, rid, done)
  {
    var a := DemotedAmong(rows, rid, done + {k});
    var b := DemotedAmong(rows, rid, done);
    if ConfirmedFor(rows[k], rid) {
      assert a == b[k := Demote(rows[k])];
    } else {
      assert a == b;
    }
  }

  /**
   * The loop over the restaurant's versions: each CONFIRMED one is set back
   * to DRAFT, one update per version.
   */
  method DemoteConfirmed(menus: MenuTable, rid: string)
    modifies menus
    ensures menus.rows == Demoted(old(menus.rows), rid)
  {
    ghost var snapshot := menus.rows;
    var remaining := menus.rows.Keys;
    assert DemotedAmong(snapshot, rid, {}) == snapshot;
    while remaining != {}
      invariant remaining <= snapshot.Keys
      invariant menus.rows == DemotedAmong(snapshot, rid, snapshot.Keys - remaining)
      decreases remaining
    {
      var k :| k in remaining;
      ghost var done := snapshot.Keys - remaining;
      DemotedAmongStep(snapshot, rid, done, k);
      assert done + {k} == snapshot.Keys - (remaining - {k});
      assert menus.rows[k] == snapshot[k];
      if menus.rows[k].restaurantId == rid && menus.rows[k].status == MenuConfirmed {
        menus.Update(k, Demote);
      }
      remaining := remaining - {k};
    }
    assert snapshot.Keys - remaining == snapshot.Keys;
  }

  /** At most one version of `rid` is confirmed, and it is the one under `key`. */
  ghost predicate OnlyConfirmed(rows: map<MenuKey, MenuRecord>, rid: string, key: MenuKey) {
    key in rows && ConfirmedFor(rows[key], rid)
    && forall k :: k in rows && ConfirmedFor(rows[k], rid) ==> k == key
  }

  /** The table after a confirmed POST: every other version of `rid` demoted, the new one confirmed. */
  function AfterConfirm(rows: map<MenuKey, MenuRecord>, draft: MenuRecord, now: Time): map<MenuKey, MenuRecord> {
    var demoted := Demoted(rows[MenuKeyOf(draft) := draft], draft.restaurantId);
    demoted[MenuKeyOf(draft) := Confirm(now)(demoted[MenuKeyOf(draft)])]
  }

  /**
   * POST /menu?restaurantId=…&confirm=… `version` and `now` are the fresh
   * version id and the clock reading.
   */
  method PostMenu(menus: MenuTable, body: Body<PostMenuRequest>, restaurantId: Option<string>, confirm: Option<string>,
                  version: string, now: Time)
    returns (reply: Reply<MenuCreated>)
    modifies menus
    ensures body.NoBody? ==> reply == Failure(Problem(400, "Request body is required"))
    ensures body.InvalidJson? ==> reply == Failure(Problem(400, "Invalid JSON in request body"))
    ensures body.Json? && !Present(restaurantId) ==> reply == Failure(Problem(400, "Restaurant ID is required"))
    ensures body.Json? && Present(restaurantId) && (body.value.items.None? || body.value.items.value == []) ==>
      reply == Failure(Problem(400, "Menu items are required"))
    ensures body.Json? && Present(restaurantId) && body.value.items.Some? && body.value.items.value != []
            && !(forall i :: 0 <= i < |body.value.items.value| ==> WellFormedItem(body.value.items.value[i])) ==>
      reply == Failure(Problem(400, "Invalid menu item format"))
    ensures reply.Answer? <==>
      body.Json? && Present(restaurantId) && body.value.items.Some? && body.value.items.value != []
      && forall i :: 0 <= i < |body.value.items.value| ==> WellFormedItem(body.value.items.value[i])
    ensures reply.Failure? ==> menus.rows == old(menus.rows)
    ensures reply.Answer? ==>
      var draft := DraftMenu(restaurantId.value, version, StoredItems(body.value.items.value), now);
      reply.status == 201 && reply.value.version == version && reply.value.createdAt == now
      && (confirm == Some("true") ==>
            reply.value.status == MenuConfirmed && menus.rows == AfterConfirm(old(menus.rows), draft, now))
      && (confirm != Some("true") ==>
            reply.value.status == MenuDraft && menus.rows == old(menus.rows)[MenuKey(restaurantId.value, version) := draft])
  {
    if body.NoBody? {
      return Failure(Problem(400, "Request body is required"));
    }
    if body.InvalidJson? {
      return Failure(Problem(400, "Invalid JSON in request body"));
    }
    if !Present(restaurantId) {
      return Failure(Problem(400, "Restaurant ID is required"));
    }
    var rid := restaurantId.value;
    var items := body.value.items;
    if items.None? || items.value == [] {
      return Failure(Problem(400, "Menu items are required"));
    }
    var ok := AllWellFormed(items.value);
    if !ok {
      return Failure(Problem(400, "Invalid menu item format"));
    }
    var newMenu := DraftMenu(rid, version, StoredItems(items.value), now);
    menus.Put(newMenu);
    if confirm == Some("true") {
      DemoteConfirmed(menus, rid);
      menus.Update(MenuKey(rid, version), Confirm(now));
      newMenu := Confirm(now)(newMenu);
    }
    return Answer(201, MenuCreated(version, newMenu.status, now));
  }

  /** After a confirmed POST the new version is the restaurant's only confirmed one, and others' menus are untouched. */
  lemma ConfirmLeavesOneConfirmed(rows: map<MenuKey, MenuRecord>, draft: MenuRecord, now: Time)
    ensures OnlyConfirmed(AfterConfirm(rows, draft, now), draft.restaurantId, MenuKeyOf(draft))
    ensures forall k :: k in rows && rows[k].restaurantId != draft.restaurantId && k != MenuKeyOf(draft) ==>
      AfterConfirm(rows, draft, now)[k] == rows[k]
  {
    var rid := draft.restaurantId;
    var placed := rows[MenuKeyOf(draft) := draft];
    var demoted := Demoted(placed, rid);
    var r := AfterConfirm(rows, draft, now);
    forall k | k in rows && rows[k].restaurantId != rid && k != MenuKeyOf(draft)
      ensures r[k] == rows[k]
    {
      assert placed[k] == rows[k];
      assert r[k] == demoted[k];
    }
  }

  /**
   * The confirmed version is then the one readers get: the only confirmed
   * version is the latest confirmed one, whatever the creation times.
   */
  lemma OnlyConfirmedIsLatest(rows: map<MenuKey, MenuRecord>, rid: string, key: MenuKey, m: MenuRecord)
    requires OnlyConfirmed(rows, rid, key)
    ensures IsLatestConfirmed(rows, rid, m) <==> m == rows[key]
  {
    if IsLatestConfirmed(rows, rid, m) {
      var k :| k in rows && rows[k] == m;
      assert k == key;
    }
  }

  /** A POST that is not confirmed changes no stored version: it only adds its own. */
  lemma DraftTouchesNothingElse(rows: map<MenuKey, MenuRecord>, draft: MenuRecord)
    ensures forall k :: k in rows && k != MenuKeyOf(draft) ==> rows[MenuKeyOf(draft) := draft][k] == rows[k]
    ensures forall k :: k in rows && ConfirmedFor(rows[k], draft.restaurantId) && k != MenuKeyOf(draft) ==>
      ConfirmedFor(rows[MenuKeyOf(draft) := draft][k], draft.restaurantId)
  {
  }

  /**
   * GET /menu?restaurantId=… Answers the restaurant's latest confirmed
   * version, or 404 when it has none.
   */
  method GetMenu(menus: MenuTable, restaurantId: Option<string>) returns (reply: Reply<MenuRecord>)
    ensures !Present(restaurantId) ==> reply == Failure(Problem(400, "Restaurant ID is required"))
    ensures Present(restaurantId) && (forall k :: k in menus.rows ==> !ConfirmedFor(menus.rows[k], restaurantId.value)) ==>
      reply == Failure(Problem(404, "No menu found for this restaurant"))
    ensures reply.Answer? <==>
      Present(restaurantId) && exists k :: k in menus.rows && ConfirmedFor(menus.rows[k], restaurantId.value)
    ensures reply.Answer? ==> reply.status == 200 && IsLatestConfirmed(menus.rows, restaurantId.value, reply.value)
  {
    if !Present(restaurantId) {
      return Failure(Problem(400, "Restaurant ID is required"));
    }
    var menu := menus.GetLatestMenu(restaurantId.value);
    if menu.None? {
      return Failure(Problem(404, "No menu found for this restaurant"));
    }
    var m := menu.value;
    return Answer(200, MenuRecord(m.restaurantId, m.version, m.items, m.status, m.createdAt, m.confirmedAt));
  }
}
