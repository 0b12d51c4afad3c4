/**
 * The scheduled sweep that completes orders left waiting for pickup: every
 * READY order not touched for AUTO_COMPLETE_MINUTES is moved to COMPLETED
 * behind a status guard, each order on its own.
 */
module AutoComplete {
  import opened Wrappers
  import opened Text
  import opened Types
  import opened Store

  const DefaultAutoCompleteMinutes: int := 30

  function Cutoff(now: Time, minutes: int): Time {
    now - minutes * MsPerMinute
  }

  /** The scan: READY rows updated strictly before the cutoff. */
  function Candidates(rows: map<OrderKey, OrderRecord>, now: Time, minutes: int): set<OrderKey> {
    set k | k in rows && rows[k].status == Ready && rows[k].updatedAt < Cutoff(now, minutes)
  }

  function MarkCompleted(o: OrderRecord, now: Time): OrderRecord {
    o.(status := Completed, updatedAt := now, autoCompletedAt := Some(now))
  }

  /** The rows after completing exactly those in `done`. */
  function CompleteAll(rows: map<OrderKey, OrderRecord>, done: set<OrderKey>, now: Time): (r: map<OrderKey, OrderRecord>)
    ensures r.Keys == rows.Keys
  {
    map k | k in rows :: if k in done then MarkCompleted(rows[k], now) else rows[k]
  }

  /** The customer notice sent after a completion (an SMS and an e-mail, when those are known). */
  datatype Notification = Notification(orderId: string, restaurantId: string, message: string,
                                       sms: Option<string>, email: Option<string>)

  function CompletionMessage(orderId: string): string {
    "Your order #" + ShortId(orderId) + " is ready for pickup!"
  }

  function NotificationFor(o: OrderRecord): (n: Notification)
    ensures n.message == "Your order #" + ShortId(o.orderId) + " is ready for pickup!"
    ensures n.sms.Some? <==> o.customerInfo.Some? && Present(o.customerInfo.value.phone)
    ensures n.email.Some? <==> o.customerInfo.Some? && Present(o.customerInfo.value.email)
  {
    var info := o.customerInfo;
    Notification(o.orderId, o.restaurantId, CompletionMessage(o.orderId),
                 if info.Some? && Present(info.value.phone) then info.value.phone else None,
                 if info.Some? && Present(info.value.email) then info.value.email else None)
  }

  /** How one order fared; every kind but UpdateError counts as a success. */
  datatype ItemOutcome = NotYetDue | NoLongerReady | CompletedNow | ChangedMeanwhile | UpdateError

  /**
   * Completes one candidate. `snapshot` is the row as the scan saw it;
   * `updateFails` says whether the store answers the update with an error
   * other than a failed guard.
   */
  method AutoCompleteOrder(orders: OrderTable, k: OrderKey, snapshot: OrderRecord, now: Time, minutes: int, updateFails: bool)
    returns (outcome: ItemOutcome, note: Option<Notification>)
    modifies orders
    ensures snapshot.updatedAt > Cutoff(now, minutes) ==> outcome == NotYetDue
    ensures snapshot.updatedAt <= Cutoff(now, minutes) && snapshot.status != Ready ==> outcome == NoLongerReady
    ensures snapshot.updatedAt <= Cutoff(now, minutes) && snapshot.status == Ready && updateFails ==> outcome == UpdateError
    ensures outcome == CompletedNow <==>
      snapshot.updatedAt <= Cutoff(now, minutes) && snapshot.status == Ready && !updateFails
      && k in old(orders.rows) && old(orders.rows)[k].status == Ready
    ensures outcome == CompletedNow ==>
      orders.rows == old(orders.rows)[k := MarkCompleted(old(orders.rows)[k], now)] && note == Some(NotificationFor(snapshot))
    ensures outcome != CompletedNow ==> orders.rows == old(orders.rows) && note.None?
  {
    note := None;
    if snapshot.updatedAt > Cutoff(now, minutes) {
      return NotYetDue, None;
    }
    if snapshot.status != Ready {
      return NoLongerReady, None;
    }
    if updateFails {
      return UpdateError, None;
    }
    var r := orders.ConditionalUpdate(k, (s: OrderStatus) => s == Ready, (o: OrderRecord) => MarkCompleted(o, now));
    if r == ConditionFailed {
      return ChangedMeanwhile, None;
    }
    return CompletedNow, Some(NotificationFor(snapshot));
  }

  datatype SweepResult = QueryFailed | NothingToDo | Swept(successCount: nat, errorCount: nat)

  /** The notices owed for the orders `keys` of `rows`. */
  function NoticesFor(rows: map<OrderKey, OrderRecord>, keys: set<OrderKey>): set<Notification> {
    set k | k in keys && k in rows :: NotificationFor(rows[k])
  }

  /**
   * `notes` are the notices of the orders `ks`, one each: `ks` lists every
   * order of `keys` exactly once.
   */
  predicate NoticesAlong(notes: seq<Notification>, ks: seq<OrderKey>, rows: map<OrderKey, OrderRecord>, keys: set<OrderKey>) {
    |ks| == |notes|
    && (forall i, j :: 0 <= i < j < |ks| ==> ks[i] != ks[j])
    && (forall i :: 0 <= i < |ks| ==> ks[i] in keys && ks[i] in rows && notes[i] == NotificationFor(rows[ks[i]]))
    && forall k :: k in keys ==> k in ks
  }

  /** Every order of `keys` gets exactly one notice in `notes`, and nothing else is sent. */
  ghost predicate NoticesOneEach(notes: seq<Notification>, rows: map<OrderKey, OrderRecord>, keys: set<OrderKey>) {
    exists ks :: NoticesAlong(notes, ks, rows, keys)
  }

  /** The notices sent, as a set. */
  function Sent(notes: seq<Notification>): set<Notification> {
    set i | 0 <= i < |notes| :: notes[i]
  }

  /** One notice per order gives exactly the notices owed. */
  lemma NoticesAlongSent(notes: seq<Notification>, ks: seq<OrderKey>, rows: map<OrderKey, OrderRecord>, keys: set<OrderKey>)
    requires NoticesAlong(notes, ks, rows, keys)
    ensures Sent(notes) == NoticesFor(rows, keys)
  {
    forall n | n in NoticesFor(rows, keys)
      ensures n in Sent(notes)
    {
      var k :| k in keys && k in rows && n == NotificationFor(rows[k]);
      var i :| 0 <= i < |ks| && ks[i] == k;
      assert notes[i] == n;
    }
  }

  /** Recording the notice of one more order, not yet listed. */
  lemma NoticesAlongAppend(notes: seq<Notification>, ks: seq<OrderKey>, rows: map<OrderKey, OrderRecord>, keys: set<OrderKey>, k: OrderKey)
    requires NoticesAlong(notes, ks, rows, keys) && k !in keys && k in rows
    ensures NoticesAlong(notes + [NotificationFor(rows[k])], ks + [k], rows, keys + {k})
  {
    var notes', ks' := notes + [NotificationFor(rows[k])], ks + [k];
    forall j | j in keys + {k}
      ensures j in ks'
    {
      if j != k {
        var i :| 0 <= i < |ks| && ks[i] == j;
        assert ks'[i] == j;
      } else {
        assert ks'[|ks|] == k;
      }
    }
  }

  /** Completing one more order extends the completed set by that key. */
  lemma CompleteAllStep(rows: map<OrderKey, OrderRecord>, done: set<OrderKey>, k: OrderKey, now: Time)
    requires k in rows
    ensures CompleteAll(rows, done + {k}, now) == CompleteAll(rows, done, now)[k := MarkCompleted(rows[k], now)]
  {
    var a := CompleteAll(rows, done + {k}, now);
    var b := CompleteAll(rows, done, now)[k := MarkCompleted(rows[k], now)];
    assert a.Keys == b.Keys;
    forall j | j in a.Keys
      ensures a[j] == b[j]
    {
    }
  }

  /** One step of the sweep: candidate `k`, after the candidates `done`. */
  method CompleteOne(orders: OrderTable, snapshot: map<OrderKey, OrderRecord>, cands: set<OrderKey>, done: set<OrderKey>,
                     k: OrderKey, now: Time, minutes: int, failing: set<OrderKey>)
    returns (ok: bool, note: Notification)
    requires k in cands && k !in done
    requires k in snapshot && snapshot[k].status == Ready && snapshot[k].updatedAt <= Cutoff(now, minutes)
    requires orders.rows == CompleteAll(snapshot, done - failing, now)
    modifies orders
    ensures ok <==> k !in failing
    ensures orders.rows == CompleteAll(snapshot, (done + {k}) - failing, now)
    ensures ok ==> note == NotificationFor(snapshot[k])
  {
    assert orders.rows[k] == snapshot[k];
    var outcome, n := AutoCompleteOrder(orders, k, snapshot[k], now, minutes, k in failing);
    if k in failing {
      assert (done + {k}) - failing == done - failing;
      return false, NotificationFor(snapshot[k]);
    }
    assert (done + {k}) - failing == (done - failing) + {k};
    CompleteAllStep(snapshot, done - failing, k, now);
    return true, n.value;
  }

  /** The set bookkeeping of one step of the sweep over `cands`. */
  lemma SweepStep(cands: set<OrderKey>, remaining: set<OrderKey>, failing: set<OrderKey>, k: OrderKey)
    requires remaining <= cands && k in remaining
    ensures cands - (remaining - {k}) == (cands - remaining) + {k}
    ensures k in failing ==>
      ((cands - remaining) + {k}) - failing == (cands - remaining) - failing
      && |((cands - remaining) + {k}) * failing| == |(cands - remaining) * failing| + 1
    ensures k !in failing ==>
      ((cands - remaining) + {k}) - failing == ((cands - remaining) - failing) + {k}
      && |((cands - remaining) + {k}) - failing| == |(cands - remaining) - failing| + 1
      && ((cands - remaining) + {k}) * failing == (cands - remaining) * failing
  {
    var done := cands - remaining;
    if k in failing {
      assert (done + {k}) * failing == (done * failing) + {k};
    } else {
      assert (done + {k}) - failing == (done - failing) + {k};
    }
  }

  /**
   * The per-order updates of one sweep over the candidates `cands` of the
   * rows `snapshot`; each candidate is handled once, in an unspecified order,
   * and one order's error does not stop the others.
   */
  method CompleteEach(orders: OrderTable, snapshot: map<OrderKey, OrderRecord>, cands: set<OrderKey>,
                      now: Time, minutes: int, failing: set<OrderKey>)
    returns (successCount: nat, errorCount: nat, notes: seq<Notification>)
    requires orders.rows == snapshot
    requires forall k :: k in cands ==> k in snapshot && snapshot[k].status == Ready && snapshot[k].updatedAt <= Cutoff(now, minutes)
    modifies orders
    ensures successCount + errorCount == |cands|
    ensures errorCount == |cands * failing|
    ensures successCount == |notes|
    ensures orders.rows == CompleteAll(snapshot, cands - failing, now)
    ensures NoticesOneEach(notes, snapshot, cands - failing)
    ensures Sent(notes) == NoticesFor(snapshot, cands - failing)
  {
    assert CompleteAll(snapshot, {}, now) == snapshot;
    var remaining := cands;
    successCount, errorCount, notes := 0, 0, [];
    ghost var ks: seq<OrderKey> := [];
    while remaining != {}
      invariant remaining <= cands
      invariant orders.rows == CompleteAll(snapshot, (cands - remaining) - failing, now)
      invariant successCount + errorCount == |cands - remaining|
      invariant errorCount == |(cands - remaining) * failing|
      invariant successCount == |notes|
      invariant NoticesAlong(notes, ks, snapshot, (cands - remaining) - failing)
      decreases remaining
    {
      var k :| k in remaining;
      SweepStep(cands, remaining, failing, k);
      var ok, note := CompleteOne(orders, snapshot, cands, cands - remaining, k, now, minutes, failing);
      if ok {
        successCount := successCount + 1;
        NoticesAlongAppend(notes, ks, snapshot, (cands - remaining) - failing, k);
        notes, ks := notes + [note], ks + [k];
      } else {
        errorCount := errorCount + 1;
      }
      remaining := remaining - {k};
    }
    assert cands - remaining == cands;
    NoticesAlongSent(notes, ks, snapshot, cands - failing);
  }

  /**
   * The scheduled handler. `queryFails` says whether the candidate scan
   * fails, the one error that leaves the handler; `failing` are the
   * candidates whose update the store answers with an error.
   */
  method Sweep(orders: OrderTable, now: Time, minutes: int, queryFails: bool, failing: set<OrderKey>)
    returns (result: SweepResult, notes: seq<Notification>)
    modifies orders
    ensures queryFails ==> result == QueryFailed && orders.rows == old(orders.rows)
    ensures !queryFails && Candidates(old(orders.rows), now, minutes) == {} ==>
      result == NothingToDo && orders.rows == old(orders.rows)
    ensures !queryFails && Candidates(old(orders.rows), now, minutes) != {} ==>
      var cands := Candidates(old(orders.rows), now, minutes);
      result.Swept?
      && result.successCount + result.errorCount == |cands|
      && result.errorCount == |cands * failing|
      && result.successCount == |notes|
      && orders.rows == CompleteAll(old(orders.rows), cands - failing, now)
      && NoticesOneEach(notes, old(orders.rows), cands - failing)
      && Sent(notes) == NoticesFor(old(orders.rows), cands - failing)
    ensures result.Swept? || orders.rows == old(orders.rows)
  {
    if queryFails {
      return QueryFailed, [];
    }
    var cands := Candidates(orders.rows, now, minutes);
    if cands == {} {
      return NothingToDo, [];
    }
    var snapshot := orders.rows;
    var successCount, errorCount;
    successCount, errorCount, notes := CompleteEach(orders, snapshot, cands, now, minutes, failing);
    result := Swept(successCount, errorCount);
  }

  /** Every candidate passes the handler's own eligibility re-check. */
  lemma CandidatesPassRecheck(rows: map<OrderKey, OrderRecord>, now: Time, minutes: int, k: OrderKey)
    requires k in Candidates(rows, now, minutes)
    ensures !(rows[k].updatedAt > Cutoff(now, minutes)) && rows[k].status == Ready
  {
  }
}
