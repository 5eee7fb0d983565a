/**
 The delivery table as the dispatcher and the redeliver endpoint update it, row by row and in place.
 */
module WebhookStore {
  import opened Common
  import opened Webhooks
  import Backoff

  /** One send of a batch has come back: with what, when it is marked, and the delay drawn for a retry. */
  datatype Sending = Sending(id: nat, started: nat, result: SendResult, at: Time, delay: nat)

  predicate InTable(sends: seq<Sending>, size: nat) { forall k :: 0 <= k < |sends| ==> sends[k].id < size }

  predicate Distinct(sends: seq<Sending>) {
    forall i, j :: 0 <= i < j < |sends| ==> sends[i].id != sends[j].id
  }

  function MarkBy(d: Delivery, s: Sending, maxAttempts: int): Delivery {
    Mark(d, s.started, s.result, maxAttempts, s.at, s.delay)
  }

  /** Marking the deliveries of a batch, one after the other. */
  function MarkAll(rows: seq<Delivery>, sends: seq<Sending>, maxAttempts: int): (q: seq<Delivery>)
    requires InTable(sends, |rows|)
    ensures |q| == |rows|
    decreases |sends|
  {
    if sends == [] then rows
    else
      var s := sends[0];
      MarkAll(rows[s.id := MarkBy(rows[s.id], s, maxAttempts)], sends[1..], maxAttempts)
  }

  // ---- What the claim query selects ----

  /** The query's selection: claimable rows that nobody has locked, by next attempt, at most a batch. */
  predicate IsClaim(rows: seq<Delivery>, locked: set<nat>, now: Time, ids: seq<nat>) {
    && (forall i, j :: 0 <= i < j < |ids| ==> ids[i] != ids[j])
    && (forall i :: 0 <= i < |ids| ==> ids[i] < |rows| && ids[i] !in locked && Claimable(rows[ids[i]], now))
    && |ids| <= BATCH
    && (forall a :: 0 <= a < |rows| && a !in locked && Claimable(rows[a], now) && a !in ids ==>
          |ids| == BATCH && forall x :: x in ids && x < |rows| ==> rows[x].nextAttemptAt <= rows[a].nextAttemptAt)
  }

  /** A selection of the query is one of the claims that the dispatcher's state machine allows, with the same effect. */
  lemma SelectionIsAClaim(s: Hooks, locked: set<nat>, ids: seq<nat>, maxAttempts: int)
    requires IsClaim(s.rows, locked, s.now, ids) && ids != [] && s.working == map[]
    ensures Enabled(s, Step.ClaimBatch(ids))
    ensures var t := Apply(s, Step.ClaimBatch(ids), maxAttempts);
      && t.rows == ClaimRows(s.rows, ids, s.now)
      && (forall id :: id in t.working <==> id in ids)
      && (forall id :: id in ids ==> t.working[id] == t.rows[id].attempts)
  {
  }

  function Members(ids: seq<nat>): set<nat> { set a | a in ids }

  lemma {:induction false} DistinctCount(ids: seq<nat>)
    requires forall i, j :: 0 <= i < j < |ids| ==> ids[i] != ids[j]
    ensures |Members(ids)| == |ids|
  {
    if ids != [] {
      var rest := ids[1..];
      DistinctCount(rest);
      assert ids[0] !in Members(rest);
      assert Members(ids) == Members(rest) + {ids[0]};
    }
  }

  /** The other deliveries that may be claimed and are due no later than `a`. */
  function DueNoLater(rows: seq<Delivery>, now: Time, a: nat): set<nat>
    requires a < |rows|
  {
    set b: nat | b < |rows| && b != a && Claimable(rows[b], now) && rows[b].nextAttemptAt <= rows[a].nextAttemptAt
  }

  /** Deliveries that are due first go first: one is passed over only if fifty others are due no later. */
  lemma PassedOverByFifty(rows: seq<Delivery>, locked: set<nat>, now: Time, ids: seq<nat>, a: nat)
    requires IsClaim(rows, locked, now, ids) && a < |rows| && a !in locked && Claimable(rows[a], now) && a !in ids
    ensures |DueNoLater(rows, now, a)| >= 50
    ensures forall id :: id in ids ==> id in DueNoLater(rows, now, a)
  {
    DistinctCount(ids);
    var taken, ahead := Members(ids), DueNoLater(rows, now, a);
    assert taken <= ahead;
    assert ahead == taken + (ahead - taken);
  }

  predicate IsFirst(rows: seq<Delivery>, due: set<nat>, a: nat) {
    a < |rows| && forall b :: b in due && b < |rows| ==> rows[a].nextAttemptAt <= rows[b].nextAttemptAt
  }

  lemma FirstExists(rows: seq<Delivery>, due: set<nat>)
    requires due != {} && forall a :: a in due ==> a < |rows|
    ensures exists a :: a in due && IsFirst(rows, due, a)
  {
    var x :| x in due;
    var rest := due - {x};
    if rest == {} {
      assert due == {x} && IsFirst(rows, due, x);
    } else {
      FirstExists(rows, rest);
      var m :| m in rest && IsFirst(rows, rest, m);
      var first := if rows[m].nextAttemptAt <= rows[x].nextAttemptAt then m else x;
      forall b | b in due ensures rows[first].nextAttemptAt <= rows[b].nextAttemptAt {
        assert b == x || b in rest;
      }
      assert IsFirst(rows, due, first);
    }
  }

  /** `ids` has been selected, in order, and `due` is what else there is. */
  ghost predicate IsSelection(rows: seq<Delivery>, locked: set<nat>, now: Time, ids: seq<nat>, due: set<nat>) {
    && |ids| <= BATCH
    && (forall i, j :: 0 <= i < j < |ids| ==> ids[i] != ids[j])
    && (forall a :: a in ids ==> a !in due)
    && (forall a: nat :: a in ids || a in due <==> a < |rows| && a !in locked && Claimable(rows[a], now))
    && (forall a :: a in ids ==> IsFirst(rows, due, a))
  }

  lemma SelectionGrows(rows: seq<Delivery>, locked: set<nat>, now: Time, ids: seq<nat>, due: set<nat>, a: nat)
    requires IsSelection(rows, locked, now, ids, due) && |ids| < BATCH && a in due && IsFirst(rows, due, a)
    ensures IsSelection(rows, locked, now, ids + [a], due - {a})
  {
    var more, less := ids + [a], due - {a};
    forall x ensures x in more <==> x in ids || x == a {
    }
    forall x | x in more ensures IsFirst(rows, less, x) {
      assert IsFirst(rows, due, x);
    }
  }

  class DeliveryTable {
    var rows: seq<Delivery>
    const maxAttempts: int

    constructor (maxAttempts: int)
      ensures rows == [] && this.maxAttempts == maxAttempts
    {
      rows := [];
      this.maxAttempts := maxAttempts;
    }

    method Select(locked: set<nat>, now: Time) returns (ids: seq<nat>)
      ensures IsClaim(rows, locked, now, ids)
    {
      var due: set<nat> := set a: nat | a < |rows| && a !in locked && Claimable(rows[a], now);
      ids := [];
      while |ids| < BATCH && due != {}
        invariant IsSelection(rows, locked, now, ids, due)
        decreases |due|
      {
        FirstExists(rows, due);
        var a :| a in due && IsFirst(rows, due, a);
        SelectionGrows(rows, locked, now, ids, due, a);
        ids, due := ids + [a], due - {a};
      }
    }

    /** Claim and lease what the query selects; the attempt numbers are what the senders start with. */
    method ClaimBatch(locked: set<nat>, now: Time) returns (ids: seq<nat>, started: seq<nat>)
      modifies this`rows
      ensures IsClaim(old(rows), locked, now, ids)
      ensures rows == ClaimRows(old(rows), ids, now)
      ensures |started| == |ids| && forall n :: 0 <= n < |ids| ==> started[n] == old(rows)[ids[n]].attempts + 1
    {
      ids := Select(locked, now);
      started := [];
      for n := 0 to |ids|
        invariant |rows| == |old(rows)| && |started| == n
        invariant forall i :: 0 <= i < |rows| ==>
          rows[i] == if i in ids[..n] then Claim(old(rows)[i], now) else old(rows)[i]
        invariant forall m :: 0 <= m < n ==> started[m] == old(rows)[ids[m]].attempts + 1
      {
        var id := ids[n];
        assert id in ids && id !in ids[..n];
        assert ids[..n + 1] == ids[..n] + [id];
        rows := rows[id := Claim(rows[id], now)];
        started := started + [rows[id].attempts];
      }
      assert ids[..|ids|] == ids;
      assert rows == ClaimRows(old(rows), ids, now);
    }

    /** `mark_succeeded` / `mark_failed`, with the delay drawn between zero and the ceiling. */
    method MarkOne(id: nat, attempts: nat, result: SendResult, now: Time, delay: nat)
      requires id < |rows| && delay <= Backoff.Ceiling(attempts)
      modifies this`rows
      ensures rows == old(rows)[id := Mark(old(rows)[id], attempts, result, maxAttempts, now, delay)]
    {
      var d := rows[id];
      if result.Response? && 200 <= result.code < 300 {
        rows := rows[id := d.(status := Succeeded, lastStatusCode := Some(result.code), lockedUntil := None)];
        return;
      }
      var nonRetryable := result.Response? && 400 <= result.code < 500 && result.code != 408 && result.code != 429;
      var code := if result.Response? then Some(result.code) else None;
      var error := if result.Response? then "non-2xx response" else result.error;
      if nonRetryable || attempts >= maxAttempts {
        rows := rows[id := d.(status := Dead, lastStatusCode := code, lastError := Some(error), lockedUntil := None)];
        return;
      }
      rows := rows[id := d.(status := Failed, lastStatusCode := code, lastError := Some(error),
                            nextAttemptAt := now + delay, lockedUntil := None)];
    }

    /** The senders of a claimed batch mark their deliveries as they come back, in whatever order that is. */
    method DeliverBatch(sends: seq<Sending>)
      requires InTable(sends, |rows|)
      requires forall n :: 0 <= n < |sends| ==> sends[n].delay <= Backoff.Ceiling(sends[n].started)
      modifies this`rows
      ensures rows == MarkAll(old(rows), sends, maxAttempts)
    {
      for n := 0 to |sends|
        invariant |rows| == |old(rows)|
        invariant MarkAll(rows, sends[n..], maxAttempts) == MarkAll(old(rows), sends, maxAttempts)
      {
        var s := sends[n];
        assert sends[n..][1..] == sends[n + 1..];
        MarkOne(s.id, s.started, s.result, s.at, s.delay);
      }
    }

    /** Manual replay of a failed or dead delivery of this business. */
    method Redeliver(business: Id, id: nat, now: Time) returns (found: bool)
      modifies this`rows
      ensures found <==> id < |old(rows)| && Redeliverable(old(rows)[id], business)
      ensures rows == if found then old(rows)[id := Reset(old(rows)[id], now)] else old(rows)
    {
      found := id < |rows| && rows[id].business == business && (rows[id].status.Failed? || rows[id].status.Dead?);
      if found {
        rows := rows[id := rows[id].(status := Pending, attempts := 0, nextAttemptAt := now,
                                     lockedUntil := None, lastError := None)];
      }
    }
  }

  /** A delivery that is not in the batch is left alone. */
  lemma {:induction false} MarkAllLeavesOthers(rows: seq<Delivery>, sends: seq<Sending>, maxAttempts: int, i: nat)
    requires InTable(sends, |rows|) && i < |rows| && forall k :: 0 <= k < |sends| ==> sends[k].id != i
    ensures MarkAll(rows, sends, maxAttempts)[i] == rows[i]
    decreases |sends|
  {
    if sends != [] {
      var s := sends[0];
      MarkAllLeavesOthers(rows[s.id := MarkBy(rows[s.id], s, maxAttempts)], sends[1..], maxAttempts, i);
    }
  }

  /** In a batch of distinct deliveries, each row is marked once, by its own result and nobody else's. */
  lemma {:induction false} MarkAllMarksEachOnce(rows: seq<Delivery>, sends: seq<Sending>, maxAttempts: int, m: nat)
    requires InTable(sends, |rows|) && Distinct(sends) && m < |sends|
    ensures MarkAll(rows, sends, maxAttempts)[sends[m].id] == MarkBy(rows[sends[m].id], sends[m], maxAttempts)
    decreases |sends|
  {
    var s, rest := sends[0], sends[1..];
    var q := rows[s.id := MarkBy(rows[s.id], s, maxAttempts)];
    if m == 0 {
      MarkAllLeavesOthers(q, rest, maxAttempts, s.id);
    } else {
      MarkAllMarksEachOnce(q, rest, maxAttempts, m - 1);
      assert rest[m - 1] == sends[m];
    }
  }

  /** The senders run concurrently, and it does not matter in which order they come to mark. */
  lemma MarkingOrderIsIrrelevant(rows: seq<Delivery>, p: seq<Sending>, q: seq<Sending>, maxAttempts: int)
    requires InTable(p, |rows|) && InTable(q, |rows|) && Distinct(p) && Distinct(q)
    requires forall s :: s in p <==> s in q
    ensures MarkAll(rows, p, maxAttempts) == MarkAll(rows, q, maxAttempts)
  {
    forall i | 0 <= i < |rows| ensures MarkAll(rows, p, maxAttempts)[i] == MarkAll(rows, q, maxAttempts)[i] {
      if m :| 0 <= m < |p| && p[m].id == i {
        assert p[m] in q;
        var n :| 0 <= n < |q| && q[n] == p[m];
        MarkAllMarksEachOnce(rows, p, maxAttempts, m);
        MarkAllMarksEachOnce(rows, q, maxAttempts, n);
      } else {
        forall k | 0 <= k < |q| ensures q[k].id != i {
          assert q[k] in p;
        }
        MarkAllLeavesOthers(rows, p, maxAttempts, i);
        MarkAllLeavesOthers(rows, q, maxAttempts, i);
      }
    }
  }
}
