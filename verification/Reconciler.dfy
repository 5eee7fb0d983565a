/**
 The reconciler's queue. A tick leases at most twenty due pending attempts, in the order of their
 next poll (never-polled first, ties in any order), and pushes each one's next poll thirty seconds
 out. With one reconciler and no new attempts, no due attempt waits longer than its place in the
 queue says.
 */
module Reconciler {
  import opened Common
  import opened PaymentTables
  import PaymentProtocol

  type Attempts = map<Id, Attempt>

  /** `ORDER BY next_poll_at NULLS FIRST`: a row polled at `p` may come before one polled at `q`. */
  predicate Before(p: Option<Time>, q: Option<Time>) {
    p.None? || (q.Some? && p.value <= q.value)
  }

  /** What the lease query selects at `now`, skipping the rows that some transaction has locked. */
  predicate IsBatch(attempts: Attempts, locked: set<Id>, now: Time, ids: seq<Id>) {
    && (forall i, j :: 0 <= i < j < |ids| ==> ids[i] != ids[j])
    && (forall a :: a in ids ==> a in attempts && a !in locked && Due(attempts[a], now))
    && |ids| <= BATCH
    && (forall a :: a in attempts && a !in locked && Due(attempts[a], now) && a !in ids ==>
          |ids| == BATCH && forall x :: x in ids ==> Before(attempts[x].nextPollAt, attempts[a].nextPollAt))
  }

  // ---- Selecting a batch ----

  predicate IsFirst(attempts: Attempts, due: set<Id>, a: Id) {
    a in attempts && forall b :: b in due && b in attempts ==> Before(attempts[a].nextPollAt, attempts[b].nextPollAt)
  }

  lemma FirstExists(attempts: Attempts, due: set<Id>)
    requires due != {} && forall a :: a in due ==> a in attempts
    ensures exists a :: a in due && IsFirst(attempts, due, a)
  {
    var x :| x in due;
    var rest := due - {x};
    if rest == {} {
      assert due == {x} && IsFirst(attempts, due, x);
    } else {
      FirstExists(attempts, rest);
      var m :| m in rest && IsFirst(attempts, rest, m);
      var first := if Before(attempts[m].nextPollAt, attempts[x].nextPollAt) then m else x;
      forall b | b in due ensures Before(attempts[first].nextPollAt, attempts[b].nextPollAt) {
        assert b == x || b in rest;
      }
      assert IsFirst(attempts, due, first);
    }
  }

  /** `ids` has been selected, in order, and `due` is what else there is. */
  ghost predicate IsSelection(attempts: Attempts, locked: set<Id>, now: Time, ids: seq<Id>, due: set<Id>) {
    && |ids| <= BATCH
    && (forall i, j :: 0 <= i < j < |ids| ==> ids[i] != ids[j])
    && (forall a :: a in ids ==> a !in due)
    && (forall a :: a in ids || a in due <==> a in attempts && a !in locked && Due(attempts[a], now))
    && (forall a :: a in ids && a in attempts ==> IsFirst(attempts, due, a))
  }

  lemma SelectionGrows(attempts: Attempts, locked: set<Id>, now: Time, ids: seq<Id>, due: set<Id>, a: Id)
    requires IsSelection(attempts, locked, now, ids, due) && |ids| < BATCH && a in due && IsFirst(attempts, due, a)
    ensures IsSelection(attempts, locked, now, ids + [a], due - {a})
  {
    var more, less := ids + [a], due - {a};
    forall x ensures x in more <==> x in ids || x == a {
    }
    forall x | x in more ensures IsFirst(attempts, less, x) {
      assert IsFirst(attempts, due, x);
    }
  }

  /** A batch of the query is one of the leases that the payment protocol allows, with the same effect. */
  lemma BatchIsALease(s: PaymentProtocol.Sys, w: PaymentProtocol.WorkerId, locked: set<Id>, ids: seq<Id>)
    requires IsBatch(s.db.attempts, locked, s.now, ids) && ids != [] && PaymentProtocol.NewWorker(s, w)
    ensures PaymentProtocol.Enabled(s, PaymentProtocol.Lease(w, ids))
    ensures PaymentProtocol.Apply(s, PaymentProtocol.Lease(w, ids)).db.attempts
            == Do(s.db.attempts, Tick(s.now, locked, ids))
  {
  }

  datatype Activity =
    | Tick(now: Time, locked: set<Id>, ids: seq<Id>)
    | Outcome(now: Time, id: Id, result: PspResult)

  function Do(attempts: Attempts, act: Activity): Attempts {
    match act
    case Tick(now, _, ids) => LeaseRows(attempts, ids, now)
    case Outcome(now, id, result) => SettleRow(attempts, id, result, now)
  }

  function DoAll(attempts: Attempts, acts: seq<Activity>): Attempts {
    if acts == [] then attempts else DoAll(Do(attempts, acts[0]), acts[1..])
  }

  /** The clock runs forward and each tick takes a proper batch. */
  predicate Proceeds(attempts: Attempts, acts: seq<Activity>, clock: Time) {
    acts == []
    || (&& clock <= acts[0].now
        && (acts[0].Tick? ==> IsBatch(attempts, acts[0].locked, acts[0].now, acts[0].ids))
        && Proceeds(Do(attempts, acts[0]), acts[1..], acts[0].now))
  }

  /** A tick found the target's row locked, or a call still in progress reported an unknown outcome for it. */
  predicate HeldUp(acts: seq<Activity>, target: Id) {
    acts != []
    && (|| (acts[0].Tick? && target in acts[0].locked)
        || (acts[0].Outcome? && acts[0].id == target && acts[0].result.Unknown?)
        || HeldUp(acts[1..], target))
  }

  function Ticks(acts: seq<Activity>): nat {
    if acts == [] then 0 else (if acts[0].Tick? then 1 else 0) + Ticks(acts[1..])
  }

  predicate Leased(acts: seq<Activity>, target: Id) {
    acts != [] && ((acts[0].Tick? && target in acts[0].ids) || Leased(acts[1..], target))
  }

  /** The pending attempts ordered before `target` or tied with it. */
  function Ahead(attempts: Attempts, target: Id): set<Id>
    requires target in attempts
  {
    set a | a in attempts && a != target && attempts[a].status.Pending?
            && Before(attempts[a].nextPollAt, attempts[target].nextPollAt)
  }

  function Members(ids: seq<Id>): set<Id> { set a | a in ids }

  lemma {:induction false} DistinctCount(ids: seq<Id>)
    requires forall i, j :: 0 <= i < j < |ids| ==> ids[i] != ids[j]
    ensures |Members(ids)| == |ids|
  {
    if ids != [] {
      var rest := ids[1..];
      DistinctCount(rest);
      assert ids[0] !in Members(rest);
      assert Members(ids) == Members(rest) + {ids[0]};
    }
  }

  /** A full batch that does not contain the target moves twenty attempts from before it to behind it. */
  lemma TickMovesTwenty(attempts: Attempts, now: Time, locked: set<Id>, ids: seq<Id>, target: Id)
    requires target in attempts && Due(attempts[target], now) && IsBatch(attempts, locked, now, ids)
    requires target !in ids && target !in locked
    ensures |Ahead(LeaseRows(attempts, ids, now), target)| == |Ahead(attempts, target)| - 20
  {
    var ahead, taken := Ahead(attempts, target), Members(ids);
    DistinctCount(ids);
    assert taken <= ahead;
    assert Ahead(LeaseRows(attempts, ids, now), target) == ahead - taken;
  }

  lemma OutcomeOvertakesNobody(attempts: Attempts, now: Time, id: Id, result: PspResult, target: Id)
    requires target in attempts && Due(attempts[target], now) && id != target
    ensures |Ahead(SettleRow(attempts, id, result, now), target)| <= |Ahead(attempts, target)|
  {
    var p, q := Ahead(SettleRow(attempts, id, result, now), target), Ahead(attempts, target);
    assert p <= q;
    SubsetIsSmaller(p, q);
  }

  lemma SubsetIsSmaller(p: set<Id>, q: set<Id>)
    requires p <= q
    ensures |p| <= |q|
  {
    assert q == p + (q - p);
  }

  lemma {:induction false} SettledStaysSettled(attempts: Attempts, acts: seq<Activity>, target: Id)
    requires target in attempts && !attempts[target].status.Pending?
    ensures target in DoAll(attempts, acts) && !DoAll(attempts, acts)[target].status.Pending?
  {
    if acts != [] {
      SettledStaysSettled(Do(attempts, acts[0]), acts[1..], target);
    }
  }

  /**
   A due pending attempt with k attempts before it or tied with it is leased, or has settled, within
   floor(k / 20) + 1 ticks, unless it is held up meanwhile.
   */
  lemma {:induction false} NoStarvation(attempts: Attempts, acts: seq<Activity>, target: Id, clock: Time)
    requires target in attempts && Due(attempts[target], clock) && Proceeds(attempts, acts, clock)
    requires Ticks(acts) >= |Ahead(attempts, target)| / 20 + 1
    ensures target in DoAll(attempts, acts)
    ensures Leased(acts, target) || !DoAll(attempts, acts)[target].status.Pending? || HeldUp(acts, target)
    decreases |acts|
  {
    DoAllKeepsRows(attempts, acts, target);
    var act, rest := acts[0], acts[1..];
    match act {
      case Tick(now, locked, ids) =>
        if target !in ids && target !in locked {
          TickMovesTwenty(attempts, now, locked, ids, target);
          NoStarvation(Do(attempts, act), rest, target, now);
        }
      case Outcome(now, id, result) =>
        if id != target {
          OutcomeOvertakesNobody(attempts, now, id, result, target);
          NoStarvation(Do(attempts, act), rest, target, now);
        } else if !result.Unknown? {
          SettledStaysSettled(Do(attempts, act), rest, target);
        }
    }
  }

  // ---- What a hold-up does ----

  predicate AllBefore(acts: seq<Activity>, time: Time) { forall n :: 0 <= n < |acts| ==> acts[n].now < time }

  predicate NotDueBefore(at: Attempt, time: Time) {
    at.status.Pending? ==> at.nextPollAt.Some? && time <= at.nextPollAt.value
  }

  lemma {:induction false} NotLeasedBefore(attempts: Attempts, acts: seq<Activity>, target: Id, clock: Time, time: Time)
    requires target in attempts && NotDueBefore(attempts[target], time) && Proceeds(attempts, acts, clock)
    requires AllBefore(acts, time) && (forall n :: 0 <= n < |acts| && acts[n].Outcome? ==> time <= acts[n].now + 5)
    ensures !Leased(acts, target)
    decreases |acts|
  {
    if acts != [] {
      var rest := acts[1..];
      assert forall n :: 0 <= n < |rest| ==> rest[n] == acts[n + 1];
      assert acts[0].now < time;
      NotLeasedBefore(Do(attempts, acts[0]), rest, target, acts[0].now, time);
    }
  }

  lemma {:induction false} LaterThan(attempts: Attempts, acts: seq<Activity>, clock: Time, n: nat)
    requires Proceeds(attempts, acts, clock) && n < |acts|
    ensures clock <= acts[n].now
    decreases |acts|
  {
    if n > 0 {
      LaterThan(Do(attempts, acts[0]), acts[1..], acts[0].now, n - 1);
    }
  }

  /**
   The bound does not survive an unknown outcome for the target itself: for five seconds no number
   of ticks leases it, however short the queue.
   */
  lemma UnknownPostpones(attempts: Attempts, acts: seq<Activity>, target: Id, now: Time, reason: string)
    requires target in attempts && attempts[target].status.Pending?
    requires Proceeds(Do(attempts, Outcome(now, target, Unknown(reason))), acts, now) && AllBefore(acts, now + 5)
    ensures !Leased([Outcome(now, target, Unknown(reason))] + acts, target)
  {
    var act := Outcome(now, target, Unknown(reason));
    forall n | 0 <= n < |acts| ensures now <= acts[n].now {
      LaterThan(Do(attempts, act), acts, now, n);
    }
    NotLeasedBefore(Do(attempts, act), acts, target, now, now + 5);
    assert ([act] + acts)[1..] == acts;
  }

  lemma {:induction false} DoAllKeepsRows(attempts: Attempts, acts: seq<Activity>, target: Id)
    requires target in attempts
    ensures target in DoAll(attempts, acts)
  {
    if acts != [] {
      DoAllKeepsRows(Do(attempts, acts[0]), acts[1..], target);
    }
  }
}
