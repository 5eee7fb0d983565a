/**
 When a delivery is sent, told by the history of the run alone: as soon as it is created, when the
 delay drawn after a failed attempt is over, after its lease has run out, and right after its
 business asks for a redelivery; and what is recorded about each attempt.
 */
module WebhookTiming {
  import opened Common
  import opened Webhooks
  import opened WebhookDelivery
  import Backoff

  lemma OneMore(steps: seq<Step>, step: Step, maxAttempts: int)
    ensures Run(steps + [step], maxAttempts) == Apply(Run(steps, maxAttempts), step, maxAttempts)
  {
    assert (steps + [step])[..|steps|] == steps;
  }

  // ---- What is recorded ----

  /** The receiver's answer settles the delivery: it was taken, or refused for good. */
  predicate Final(r: SendResult) {
    r.Response? && (r.code / 100 == 2 || (r.code / 100 == 4 && r.code != 408 && r.code != 429))
  }

  /** In every run, a mark records the receiver's status code or the error, and decides by them and the sends so far. */
  lemma MarkRecords(steps: seq<Step>, id: nat, result: SendResult, delay: nat, maxAttempts: int)
    requires Enabled(Run(steps, maxAttempts), Sent(id, result, delay))
    ensures var s, t := Run(steps, maxAttempts), Run(steps + [Sent(id, result, delay)], maxAttempts);
      && id < |s.rows| && id < |t.rows| && id in s.working && t.working == s.working - {id}
      && var d, e := s.rows[id], t.rows[id];
      && e.event == d.event && e.endpoint == d.endpoint && e.business == d.business && e.attempts == d.attempts
      && e.lastStatusCode == (if result.Response? then Some(result.code) else None)
      && e.status == (if result.Response? && result.code / 100 == 2 then Succeeded
                      else if Final(result) || Sends(steps, maxAttempts, id) >= maxAttempts then Dead
                      else Failed)
      && e.lastError == (if e.status == Succeeded then d.lastError
                         else if result.Response? then Some("non-2xx response") else Some(result.error))
      && e.lockedUntil == None
      && e.nextAttemptAt == (if e.status == Failed then s.now + delay else d.nextAttemptAt)
  {
    OneMore(steps, Sent(id, result, delay), maxAttempts);
    RunKeeps(steps, maxAttempts);
    AttemptsAreBounded(steps, maxAttempts, id);
  }

  /** In every run, a redelivery starts a failed or dead delivery of its business afresh, and does nothing else. */
  lemma RedeliveryStartsAfresh(steps: seq<Step>, business: Id, id: nat, maxAttempts: int)
    ensures var s, t := Run(steps, maxAttempts), Run(steps + [Redeliver(business, id)], maxAttempts);
      t == if id < |s.rows| && s.rows[id].business == business && s.rows[id].status in {Failed, Dead} then
             var d := s.rows[id];
             s.(rows := s.rows[id := Delivery(d.event, d.endpoint, d.business, Pending, 0, s.now, None,
                                              d.lastStatusCode, None)])
           else s
  {
    OneMore(steps, Redeliver(business, id), maxAttempts);
  }

  lemma ClaimStarts(s: Hooks, ids: seq<nat>, maxAttempts: int, id: nat)
    requires Enabled(s, Step.ClaimBatch(ids)) && id < |s.rows|
    ensures var t := Apply(s, Step.ClaimBatch(ids), maxAttempts);
      && t.rows == ClaimRows(s.rows, ids, s.now) && (id in t.working <==> id in ids)
      && (id in ids ==> t.working[id] == s.rows[id].attempts + 1)
  {
  }

  /** The delivery is in flight, leased for thirty seconds, with one attempt more. */
  predicate Taken(d: Delivery, e: Delivery, now: Time) {
    e == Delivery(d.event, d.endpoint, d.business, InFlight, d.attempts + 1, d.nextAttemptAt, Some(now + 30),
                  d.lastStatusCode, d.lastError)
  }

  lemma ClaimTakes(rows: seq<Delivery>, ids: seq<nat>, now: Time, id: nat)
    requires id < |rows|
    ensures var q := ClaimRows(rows, ids, now);
      |q| == |rows| && if id in ids then Taken(rows[id], q[id], now) else q[id] == rows[id]
  {
  }

  /** In every run, a claim leases its deliveries for thirty seconds, counts the attempt, and touches no other. */
  lemma ClaimLeases(steps: seq<Step>, ids: seq<nat>, maxAttempts: int, id: nat)
    requires Enabled(Run(steps, maxAttempts), Step.ClaimBatch(ids)) && id < |Run(steps, maxAttempts).rows|
    ensures var s, t := Run(steps, maxAttempts), Run(steps + [Step.ClaimBatch(ids)], maxAttempts);
      && |t.rows| == |s.rows| && (id in t.working <==> id in ids)
      && if id in ids then Taken(s.rows[id], t.rows[id], s.now) && t.working[id] == t.rows[id].attempts
         else t.rows[id] == s.rows[id]
  {
    OneMore(steps, Step.ClaimBatch(ids), maxAttempts);
    ClaimTakes(Run(steps, maxAttempts).rows, ids, Run(steps, maxAttempts).now, id);
    ClaimStarts(Run(steps, maxAttempts), ids, maxAttempts, id);
  }

  // ---- From when on a delivery may be claimed ----

  datatype Wait = From(t: Time) | After(t: Time) | Forever

  predicate Over(w: Wait, now: Time) {
    match w
    case From(t) => t <= now
    case After(t) => t < now
    case Forever => false
  }

  /** The step claims the delivery, marks it or redelivers it. */
  ghost predicate Moves(s: Hooks, step: Step, id: nat) {
    Enabled(s, step) && ((step.ClaimBatch? && id in step.ids) || ((step.Sent? || step.Redeliver?) && step.id == id))
  }

  ghost function WaitOf(steps: seq<Step>, maxAttempts: int, id: nat): Wait {
    if steps == [] then Forever
    else
      var front, last := steps[..|steps| - 1], steps[|steps| - 1];
      var s := Run(front, maxAttempts);
      if id >= |s.rows| then From(s.now)
      else if !Enabled(s, last) then WaitOf(front, maxAttempts, id)
      else match last
           case ClaimBatch(ids) => if id in ids then After(s.now + 30) else WaitOf(front, maxAttempts, id)
           case Sent(i, result, delay) =>
             if i != id then WaitOf(front, maxAttempts, id)
             else if Final(result) || Sends(front, maxAttempts, id) >= maxAttempts then Forever
             else From(s.now + delay)
           case Redeliver(_, i) => if i == id then From(s.now) else WaitOf(front, maxAttempts, id)
           case _ => WaitOf(front, maxAttempts, id)
  }

  predicate Waits(d: Delivery, w: Wait) {
    match d.status
    case Pending => w == From(d.nextAttemptAt)
    case Failed => w == From(d.nextAttemptAt)
    case InFlight => d.lockedUntil.Some? && w == After(d.lockedUntil.value)
    case Succeeded => w == Forever
    case Dead => w == Forever
  }

  lemma {:induction false} InsertsDueNow(rows: seq<Delivery>, events: seq<HookEvent>, pairs: seq<Pair>, now: Time)
    requires forall pair :: pair in pairs ==> pair.event < |events|
    ensures var q := InsertAll(rows, events, pairs, now);
      && rows <= q && forall i :: |rows| <= i < |q| ==> q[i].status == Pending && q[i].nextAttemptAt == now
    decreases |pairs|
  {
    if pairs != [] {
      var pair := pairs[0];
      var next := if Has(rows, pair) then rows else rows + [NewRow(pair, events[pair.event].business, now)];
      InsertsDueNow(next, events, pairs[1..], now);
    }
  }

  lemma NewRowsWait(s: Hooks, step: Step, maxAttempts: int, id: nat)
    requires |s.rows| <= id < |Apply(s, step, maxAttempts).rows|
    ensures Waits(Apply(s, step, maxAttempts).rows[id], From(s.now))
  {
    if step.FanOut? && Enabled(s, step) {
      InsertsDueNow(s.rows, s.events, step.pairs, s.now);
    }
  }

  /** Only a claim, a mark or a redelivery touches a row. */
  lemma OthersTouchNoRow(s: Hooks, step: Step, maxAttempts: int, id: nat)
    requires id < |s.rows| && !Moves(s, step, id)
    ensures id < |Apply(s, step, maxAttempts).rows| && Apply(s, step, maxAttempts).rows[id] == s.rows[id]
  {
    if step.FanOut? && Enabled(s, step) {
      InsertsDueNow(s.rows, s.events, step.pairs, s.now);
    } else if step.ClaimBatch? && Enabled(s, step) {
      ClaimTakes(s.rows, step.ids, s.now, id);
    }
  }

  lemma OldRowsWait(steps: seq<Step>, last: Step, maxAttempts: int, id: nat)
    requires var s := Run(steps, maxAttempts);
      id < |s.rows| && Waits(s.rows[id], WaitOf(steps, maxAttempts, id))
    ensures var t := Run(steps + [last], maxAttempts);
      id < |t.rows| && Waits(t.rows[id], WaitOf(steps + [last], maxAttempts, id))
  {
    var s := Run(steps, maxAttempts);
    assert (steps + [last])[..|steps|] == steps;
    if !Moves(s, last, id) {
      OneMore(steps, last, maxAttempts);
      OthersTouchNoRow(s, last, maxAttempts, id);
    } else {
      match last {
        case ClaimBatch(ids) => ClaimLeases(steps, ids, maxAttempts, id);
        case Sent(_, result, delay) => MarkRecords(steps, id, result, delay, maxAttempts);
        case Redeliver(business, _) => RedeliveryStartsAfresh(steps, business, id, maxAttempts);
      }
    }
  }

  lemma {:induction false} WaitIsKnown(steps: seq<Step>, maxAttempts: int, id: nat)
    requires id < |Run(steps, maxAttempts).rows|
    ensures Waits(Run(steps, maxAttempts).rows[id], WaitOf(steps, maxAttempts, id))
    decreases |steps|
  {
    var front, last := steps[..|steps| - 1], steps[|steps| - 1];
    assert steps == front + [last];
    if id < |Run(front, maxAttempts).rows| {
      WaitIsKnown(front, maxAttempts, id);
      OldRowsWait(front, last, maxAttempts, id);
    } else {
      NewRowsWait(Run(front, maxAttempts), last, maxAttempts, id);
    }
  }

  /** In every run, an idle dispatcher may claim up to fifty deliveries exactly if the wait of each is over. */
  lemma ClaimableIff(steps: seq<Step>, maxAttempts: int, ids: seq<nat>)
    ensures var s := Run(steps, maxAttempts);
      Enabled(s, Step.ClaimBatch(ids))
      <==> && s.working == map[] && 0 < |ids| <= 50
           && forall id :: id in ids ==> id < |s.rows| && Over(WaitOf(steps, maxAttempts, id), s.now)
  {
    var s := Run(steps, maxAttempts);
    RunKeeps(steps, maxAttempts);
    forall id | id in ids && id < |s.rows| ensures Waits(s.rows[id], WaitOf(steps, maxAttempts, id)) {
      WaitIsKnown(steps, maxAttempts, id);
    }
  }

  // ---- After a failed attempt ----

  ghost predicate LeftAlone(p: seq<Step>, q: seq<Step>, maxAttempts: int, id: nat) {
    forall n :: 0 <= n < |q| ==> !Moves(Run(p + q[..n], maxAttempts), q[n], id)
  }

  lemma {:induction false} WaitStays(p: seq<Step>, q: seq<Step>, maxAttempts: int, id: nat)
    requires id < |Run(p, maxAttempts).rows| && LeftAlone(p, q, maxAttempts, id)
    ensures id < |Run(p + q, maxAttempts).rows| && WaitOf(p + q, maxAttempts, id) == WaitOf(p, maxAttempts, id)
    decreases |q|
  {
    if q == [] {
      assert p + q == p;
    } else {
      var front, last := q[..|q| - 1], q[|q| - 1];
      assert (p + q)[..|p + q| - 1] == p + front;
      assert LeftAlone(p, front, maxAttempts, id) by {
        forall n | 0 <= n < |front| ensures !Moves(Run(p + front[..n], maxAttempts), front[n], id) {
          assert front[..n] == q[..n] && front[n] == q[n];
        }
      }
      WaitStays(p, front, maxAttempts, id);
      assert !Moves(Run(p + q[..|q| - 1], maxAttempts), q[|q| - 1], id);
      NewRowsAreFresh(Run(p + front, maxAttempts), last, maxAttempts);
    }
  }

  /** Until it is touched again, a failed delivery with attempts to spare may be claimed exactly from T + d on. */
  lemma RetryIsDueWhenLeftAlone(p: seq<Step>, id: nat, result: SendResult, delay: nat, q: seq<Step>, maxAttempts: int)
    requires Enabled(Run(p, maxAttempts), Sent(id, result, delay)) && !Final(result)
    requires Sends(p, maxAttempts, id) < maxAttempts
    requires LeftAlone(p + [Sent(id, result, delay)], q, maxAttempts, id)
    ensures var r := p + [Sent(id, result, delay)] + q;
      && id < |Run(r, maxAttempts).rows|
      && WaitOf(r, maxAttempts, id) == From(Run(p, maxAttempts).now + delay)
  {
    var sent := Sent(id, result, delay);
    assert (p + [sent])[..|p|] == p;
    MarkRecords(p, id, result, delay, maxAttempts);
    WaitStays(p + [sent], q, maxAttempts, id);
  }

  ghost predicate NotRedelivered(p: seq<Step>, q: seq<Step>, maxAttempts: int, id: nat) {
    forall n :: 0 <= n < |q| && q[n].Redeliver? && q[n].id == id ==> !Enabled(Run(p + q[..n], maxAttempts), q[n])
  }

  /** Left alone, or else the time has come. */
  ghost predicate AloneOrDue(p: seq<Step>, q: seq<Step>, maxAttempts: int, id: nat, due: Time) {
    LeftAlone(p, q, maxAttempts, id) || due <= Run(p + q, maxAttempts).now
  }

  lemma AloneOrDueNext(p: seq<Step>, q: seq<Step>, step: Step, maxAttempts: int, id: nat, due: Time)
    requires AloneOrDue(p, q, maxAttempts, id, due)
    requires Moves(Run(p + q, maxAttempts), step, id) ==> due <= Run(p + q, maxAttempts).now
    ensures AloneOrDue(p, q + [step], maxAttempts, id, due)
  {
    var s := Run(p + q, maxAttempts);
    assert p + (q + [step]) == p + q + [step];
    OneMore(p + q, step, maxAttempts);
    if s.now < due {
      forall n | 0 <= n < |q + [step]| ensures !Moves(Run(p + (q + [step])[..n], maxAttempts), (q + [step])[n], id) {
        assert (q + [step])[..n] == q[..n];
        assert q[..|q|] == q;
      }
    }
  }

  lemma {:induction false} RetryIsAloneOrDue(p: seq<Step>, id: nat, result: SendResult, delay: nat, q: seq<Step>,
                                             maxAttempts: int)
    requires Enabled(Run(p, maxAttempts), Sent(id, result, delay)) && !Final(result)
    requires Sends(p, maxAttempts, id) < maxAttempts
    requires NotRedelivered(p + [Sent(id, result, delay)], q, maxAttempts, id)
    ensures AloneOrDue(p + [Sent(id, result, delay)], q, maxAttempts, id, Run(p, maxAttempts).now + delay)
    decreases |q|
  {
    if q != [] {
      var r, due := p + [Sent(id, result, delay)], Run(p, maxAttempts).now + delay;
      var front, last := q[..|q| - 1], q[|q| - 1];
      assert q == front + [last];
      assert NotRedelivered(r, front, maxAttempts, id) by {
        forall n | 0 <= n < |front| && front[n].Redeliver? && front[n].id == id
          ensures !Enabled(Run(r + front[..n], maxAttempts), front[n])
        {
          assert front[..n] == q[..n] && front[n] == q[n];
        }
      }
      RetryIsAloneOrDue(p, id, result, delay, front, maxAttempts);
      assert q[|q| - 1].Redeliver? && q[|q| - 1].id == id ==> !Enabled(Run(r + q[..|q| - 1], maxAttempts), q[|q| - 1]);
      if LeftAlone(r, front, maxAttempts, id) && Moves(Run(r + front, maxAttempts), last, id) {
        RetryIsDueWhenLeftAlone(p, id, result, delay, front, maxAttempts);
        OnlyClaimsMoveWaiting(r + front, last, maxAttempts, id, due);
      }
      AloneOrDueNext(r, front, last, maxAttempts, id, due);
    }
  }

  lemma OnlyClaimsMoveWaiting(steps: seq<Step>, step: Step, maxAttempts: int, id: nat, due: Time)
    requires id < |Run(steps, maxAttempts).rows| && WaitOf(steps, maxAttempts, id) == From(due)
    requires Moves(Run(steps, maxAttempts), step, id) && !step.Redeliver?
    ensures due <= Run(steps, maxAttempts).now
  {
    WaitIsKnown(steps, maxAttempts, id);
    RunKeeps(steps, maxAttempts);
    if step.ClaimBatch? {
      ClaimableIff(steps, maxAttempts, step.ids);
    }
  }

  /**
   A delivery whose attempt failed with attempts to spare, at time T with delay d drawn, is not claimed
   before T + d unless its business redelivers it; and if nothing has touched it, it may be claimed from
   T + d on.
   */
  lemma RetryWaitsForItsDelay(p: seq<Step>, id: nat, result: SendResult, delay: nat, q: seq<Step>, maxAttempts: int)
    requires Enabled(Run(p, maxAttempts), Sent(id, result, delay)) && !Final(result)
    requires Sends(p, maxAttempts, id) < maxAttempts
    requires NotRedelivered(p + [Sent(id, result, delay)], q, maxAttempts, id)
    ensures var r := p + [Sent(id, result, delay)];
      && var s, t := Run(p, maxAttempts), Run(r + q, maxAttempts);
      && (forall ids :: Enabled(t, Step.ClaimBatch(ids)) && id in ids ==> s.now + delay <= t.now)
      && (LeftAlone(r, q, maxAttempts, id) && t.working == map[] && s.now + delay <= t.now ==>
            Enabled(t, Step.ClaimBatch([id])))
  {
    var r := p + [Sent(id, result, delay)];
    RetryIsAloneOrDue(p, id, result, delay, q, maxAttempts);
    if LeftAlone(r, q, maxAttempts, id) {
      RetryIsDueWhenLeftAlone(p, id, result, delay, q, maxAttempts);
      ClaimableIff(r + q, maxAttempts, [id]);
      var t := Run(r + q, maxAttempts);
      forall ids | Enabled(t, Step.ClaimBatch(ids)) && id in ids ensures Run(p, maxAttempts).now + delay <= t.now {
        ClaimableIff(r + q, maxAttempts, ids);
      }
    }
  }

  /** The delay that may be drawn: anything from none up to the capped doubling for the number of sends so far. */
  lemma DelayIsBoundedByBackoff(steps: seq<Step>, id: nat, result: SendResult, delay: nat, maxAttempts: int)
    requires var s := Run(steps, maxAttempts); id in s.working
    ensures var n := Sends(steps, maxAttempts, id);
      && n >= 1
      && (n <= 64 ==> (Enabled(Run(steps, maxAttempts), Sent(id, result, delay)) <==> delay <= Backoff.Doubling(n)))
  {
    RunKeeps(steps, maxAttempts);
    var s := Run(steps, maxAttempts);
    assert RowOk(s.rows[id], maxAttempts);
    AttemptsAreBounded(steps, maxAttempts, id);
    var n := Sends(steps, maxAttempts, id);
    Backoff.BackoffIsCappedDoubling(n);
  }
}
