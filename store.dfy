/**
 * The three tables the handlers use, as in-memory maps with the atomic
 * operations the handlers rely on: get, put (insert or replace) and update of
 * one row. Order rows also have a conditional update: the compare-and-swap
 * every order status change goes through.
 */
module Store {
  import opened Wrappers
  import opened Types

  datatype UpdateOutcome = Updated | ConditionFailed

  class OrderTable {
    var rows: map<OrderKey, OrderRecord>

    constructor ()
      ensures rows == map[]
    {
      rows := map[];
    }

    /** Every row sits under its own order's key. */
    predicate Keyed()
      reads this
    {
      forall k :: k in rows ==> KeyOf(rows[k]) == k
    }

    function Get(k: OrderKey): (r: Option<OrderRecord>)
      reads this
      ensures r.Some? <==> k in rows
      ensures r.Some? ==> r.value == rows[k]
    {
      if k in rows then Some(rows[k]) else None
    }

    method Put(o: OrderRecord)
      modifies this
      ensures rows == old(rows)[KeyOf(o) := o]
    {
      rows := rows[KeyOf(o) := o];
    }

    /**
     * Applies `mutate` to row `k` in one atomic step, only if the row exists
     * and its status satisfies `expected`; otherwise changes nothing.
     */
    method ConditionalUpdate(k: OrderKey, expected: OrderStatus -> bool, mutate: OrderRecord -> OrderRecord)
      returns (outcome: UpdateOutcome)
      modifies this
      ensures outcome == Updated <==> k in old(rows) && expected(old(rows)[k].status)
      ensures outcome == Updated ==> rows == old(rows)[k := mutate(old(rows)[k])]
      ensures outcome == ConditionFailed ==> rows == old(rows)
    {
      if k in rows && expected(rows[k].status) {
        rows := rows[k := mutate(rows[k])];
        outcome := Updated;
      } else {
        outcome := ConditionFailed;
      }
    }
  }

  /** A confirmed version of restaurant `rid`'s menu. */
  predicate ConfirmedFor(m: MenuRecord, rid: string) {
    m.restaurantId == rid && m.status == MenuConfirmed
  }

  /**
   * What `getLatestMenu` is for: `m` is a stored confirmed version of the
   * restaurant's menu and no confirmed version of it was created later.
   */
  ghost predicate IsLatestConfirmed(rows: map<MenuKey, MenuRecord>, rid: string, m: MenuRecord) {
    m in rows.Values && ConfirmedFor(m, rid)
    && forall k :: k in rows && ConfirmedFor(rows[k], rid) ==> rows[k].createdAt <= m.createdAt
  }

  class MenuTable {
    var rows: map<MenuKey, MenuRecord>

    /**
     * The restaurant's most recently created confirmed menu version, or none
     * when it has no confirmed version.
     */
    method GetLatestMenu(rid: string) returns (m: Option<MenuRecord>)
      ensures m.None? <==> forall k :: k in rows ==> !ConfirmedFor(rows[k], rid)
      ensures m.Some? ==> IsLatestConfirmed(rows, rid, m.value)
    {
      m := None;
      var remaining := rows.Keys;
      while remaining != {}
        invariant remaining <= rows.Keys
        invariant m.None? ==> forall k :: k in rows && k !in remaining ==> !ConfirmedFor(rows[k], rid)
        invariant m.Some? ==> m.value in rows.Values && ConfirmedFor(m.value, rid)
        invariant m.Some? ==> forall k :: k in rows && k !in remaining && ConfirmedFor(rows[k], rid) ==> rows[k].createdAt <= m.value.createdAt
        decreases remaining
      {
        var k :| k in remaining;
        if ConfirmedFor(rows[k], rid) && (m.None? || rows[k].createdAt > m.value.createdAt) {
          m := Some(rows[k]);
        }
        remaining := remaining - {k};
      }
    }

    constructor ()
      ensures rows == map[]
    {
      rows := map[];
    }

    method Put(m: MenuRecord)
      modifies this
      ensures rows == old(rows)[MenuKeyOf(m) := m]
    {
      rows := rows[MenuKeyOf(m) := m];
    }

    /** Applies `mutate` to row `k` if it exists. */
    method Update(k: MenuKey, mutate: MenuRecord -> MenuRecord)
      modifies this
      ensures k in old(rows) ==> rows == old(rows)[k := mutate(old(rows)[k])]
      ensures k !in old(rows) ==> rows == old(rows)
    {
      if k in rows {
        rows := rows[k := mutate(rows[k])];
      }
    }
  }

  class JobTable {
    var rows: map<JobKey, PosJob>

    constructor ()
      ensures rows == map[]
    {
      rows := map[];
    }

    function Get(k: JobKey): (r: Option<PosJob>)
      reads this
      ensures r.Some? <==> k in rows
      ensures r.Some? ==> r.value == rows[k]
    {
      if k in rows then Some(rows[k]) else None
    }

    method Put(k: JobKey, j: PosJob)
      modifies this
      ensures rows == old(rows)[k := j]
    {
      rows := rows[k := j];
    }

    /** Applies `mutate` to row `k` if it exists. */
    method Update(k: JobKey, mutate: PosJob -> PosJob)
      modifies this
      ensures k in old(rows) ==> rows == old(rows)[k := mutate(old(rows)[k])]
      ensures k !in old(rows) ==> rows == old(rows)
    {
      if k in rows {
        rows := rows[k := mutate(rows[k])];
      }
    }
  }

  /** The restaurants table, keyed by restaurantId. */
  class RestaurantTable {
    var rows: map<string, RestaurantRow>

    constructor ()
      ensures rows == map[]
    {
      rows := map[];
    }

    function Get(id: string): (r: Option<RestaurantRow>)
      reads this
      ensures r.Some? <==> id in rows
      ensures r.Some? ==> r.value == rows[id]
    {
      if id in rows then Some(rows[id]) else None
    }

    method Put(id: string, row: RestaurantRow)
      modifies this
      ensures rows == old(rows)[id := row]
    {
      rows := rows[id := row];
    }

    /**
     * An update: row `id`, or a row holding only its key when there is none
     * (an update creates a missing item), with `mutate` applied.
     */
    method Upsert(id: string, mutate: RestaurantRow -> RestaurantRow)
      modifies this
      ensures rows == old(rows)[id := mutate(if id in old(rows) then old(rows)[id] else KeyRow(id))]
    {
      var row := if id in rows then rows[id] else KeyRow(id);
      rows := rows[id := mutate(row)];
    }
  }

  /** The item an update creates for a missing key: the key attribute alone. */
  function KeyRow(id: string): (r: RestaurantRow)
    ensures r.attrs.Keys == {"restaurantId"} && r.categories.None?
  {
    RestaurantRow(map["restaurantId" := JsString(id)], None)
  }
}
