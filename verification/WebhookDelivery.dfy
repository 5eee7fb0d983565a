/**
 The retry state machine of one dispatcher, over every run: which states a delivery can be in, how
 it leaves them, and how often it can be sent.
 */
module WebhookDelivery {
  import opened Common
  import opened Webhooks

  predicate RowOk(d: Delivery, maxAttempts: int) {
    && (d.status.Pending? <==> d.attempts == 0)
    && (d.status.Failed? ==> d.attempts < maxAttempts)
    && (d.lockedUntil.Some? <==> d.status.InFlight?)
    && (d.status.Succeeded? ==> Accepted(d.lastStatusCode))
    && (d.status.Dead? ==> d.attempts >= maxAttempts || Rejected(d.lastStatusCode))
    && (d.status.Failed? ==> !Accepted(d.lastStatusCode) && !Rejected(d.lastStatusCode))
  }

  /** The receiver took the delivery. */
  predicate Accepted(code: Option<int>) { code.Some? && code.value / 100 == 2 }

  /** The receiver refused it for good: any 4xx but "timeout" and "too many requests". */
  predicate Rejected(code: Option<int>) { code.Some? && code.value / 100 == 4 && code.value !in {408, 429} }

  predicate RowsOk(rows: seq<Delivery>, maxAttempts: int) {
    forall i :: 0 <= i < |rows| ==> RowOk(rows[i], maxAttempts)
  }

  predicate WorkingOk(rows: seq<Delivery>, working: map<nat, nat>) {
    forall id :: id in working ==> id < |rows| && rows[id].status.InFlight? && rows[id].attempts == working[id]
  }

  predicate Inv(s: Hooks, maxAttempts: int) {
    RowsOk(s.rows, maxAttempts) && WorkingOk(s.rows, s.working)
  }

  /** What a step may do to a row: nothing, a claim, a mark, a redelivery. */
  ghost predicate RowMoves(s: Hooks, step: Step, maxAttempts: int, id: nat)
    requires id < |s.rows|
  {
    var t := Apply(s, step, maxAttempts);
    && id < |t.rows|
    && (|| t.rows[id] == s.rows[id]
        || (ClaimsRow(s, step, id) && t.rows[id] == Claim(s.rows[id], s.now))
        || (step.Sent? && step.id == id && s.rows[id].status.InFlight? && id in s.working
            && s.rows[id].attempts == s.working[id]
            && t.rows[id] == Mark(s.rows[id], s.working[id], step.result, maxAttempts, s.now, step.delay))
        || (step.Redeliver? && step.id == id && Redeliverable(s.rows[id], step.business)
            && t.rows[id] == Reset(s.rows[id], s.now)))
  }

  ghost predicate ClaimsRow(s: Hooks, step: Step, id: nat) {
    step.ClaimBatch? && Enabled(s, step) && id in step.ids
  }

  lemma {:induction false} InsertAppends(rows: seq<Delivery>, events: seq<HookEvent>, pairs: seq<Pair>, now: Time)
    requires forall pair :: pair in pairs ==> pair.event < |events|
    ensures var q := InsertAll(rows, events, pairs, now);
      && rows <= q
      && forall i :: |rows| <= i < |q| ==> q[i].status.Pending? && q[i].attempts == 0 && q[i].lockedUntil.None?
    decreases |pairs|
  {
    if pairs != [] {
      var pair := pairs[0];
      var next := if Has(rows, pair) then rows else rows + [NewRow(pair, events[pair.event].business, now)];
      InsertAppends(next, events, pairs[1..], now);
    }
  }

  lemma RowStep(s: Hooks, step: Step, maxAttempts: int, id: nat)
    requires WorkingOk(s.rows, s.working) && id < |s.rows|
    ensures RowMoves(s, step, maxAttempts, id)
  {
    if step.FanOut? && Enabled(s, step) {
      InsertAppends(s.rows, s.events, step.pairs, s.now);
    }
  }

  lemma NewRowsAreFresh(s: Hooks, step: Step, maxAttempts: int)
    ensures var t := Apply(s, step, maxAttempts);
      && |s.rows| <= |t.rows|
      && forall i :: |s.rows| <= i < |t.rows| ==>
           t.rows[i].status.Pending? && t.rows[i].attempts == 0 && t.rows[i].lockedUntil.None?
  {
    if step.FanOut? && Enabled(s, step) {
      InsertAppends(s.rows, s.events, step.pairs, s.now);
    }
  }

  lemma WorkingStep(s: Hooks, step: Step, maxAttempts: int)
    requires WorkingOk(s.rows, s.working)
    ensures WorkingOk(Apply(s, step, maxAttempts).rows, Apply(s, step, maxAttempts).working)
  {
    var t := Apply(s, step, maxAttempts);
    NewRowsAreFresh(s, step, maxAttempts);
    forall id | id in t.working
      ensures id < |t.rows| && t.rows[id].status.InFlight? && t.rows[id].attempts == t.working[id]
    {
      if id < |s.rows| {
        RowStep(s, step, maxAttempts, id);
      }
    }
  }

  lemma StepKeeps(s: Hooks, step: Step, maxAttempts: int)
    requires Inv(s, maxAttempts)
    ensures Inv(Apply(s, step, maxAttempts), maxAttempts)
  {
    WorkingStep(s, step, maxAttempts);
    NewRowsAreFresh(s, step, maxAttempts);
    var t := Apply(s, step, maxAttempts);
    forall id | 0 <= id < |t.rows| ensures RowOk(t.rows[id], maxAttempts) {
      if id < |s.rows| {
        RowStep(s, step, maxAttempts, id);
        assert RowOk(s.rows[id], maxAttempts);
      }
    }
  }

  lemma {:induction false} RunKeeps(steps: seq<Step>, maxAttempts: int)
    ensures Inv(Run(steps, maxAttempts), maxAttempts)
  {
    if steps != [] {
      RunKeeps(steps[..|steps| - 1], maxAttempts);
      StepKeeps(Run(steps[..|steps| - 1], maxAttempts), steps[|steps| - 1], maxAttempts);
    }
  }

  // ---- How deliveries move ----

  /** In every run: a failed delivery has attempts left, and only rows in flight hold a lease. */
  lemma FailedHasAttemptsLeft(steps: seq<Step>, maxAttempts: int, id: nat)
    requires id < |Run(steps, maxAttempts).rows|
    ensures var d := Run(steps, maxAttempts).rows[id];
      && (d.status.Failed? ==> 1 <= d.attempts < maxAttempts)
      && (d.status.Pending? <==> d.attempts == 0)
      && (d.lockedUntil.Some? <==> d.status.InFlight?)
  {
    RunKeeps(steps, maxAttempts);
    assert RowOk(Run(steps, maxAttempts).rows[id], maxAttempts);
  }

  /**
   In every run: succeeded means the receiver accepted it, dead means the attempts are used up or the
   receiver rejected it for good, and what was neither accepted nor rejected is retried.
   */
  lemma StatusTellsWhy(steps: seq<Step>, maxAttempts: int, id: nat)
    requires id < |Run(steps, maxAttempts).rows|
    ensures var d := Run(steps, maxAttempts).rows[id];
      && (d.status.Succeeded? ==> Accepted(d.lastStatusCode))
      && (d.status.Dead? ==> d.attempts >= maxAttempts || Rejected(d.lastStatusCode))
      && (d.status.Failed? ==> !Accepted(d.lastStatusCode) && !Rejected(d.lastStatusCode))
  {
    RunKeeps(steps, maxAttempts);
    assert RowOk(Run(steps, maxAttempts).rows[id], maxAttempts);
  }

  lemma {:induction false} SucceededStays(s: Hooks, steps: seq<Step>, maxAttempts: int, id: nat)
    requires Inv(s, maxAttempts) && id < |s.rows| && s.rows[id].status.Succeeded?
    ensures var t := Exec(s, steps, maxAttempts);
      Inv(t, maxAttempts) && id < |t.rows| && t.rows[id] == s.rows[id]
    decreases |steps|
  {
    if steps != [] {
      var front := steps[..|steps| - 1];
      SucceededStays(s, front, maxAttempts, id);
      var m := Exec(s, front, maxAttempts);
      StepKeeps(m, steps[|steps| - 1], maxAttempts);
      RowStep(m, steps[|steps| - 1], maxAttempts, id);
    }
  }

  /** A succeeded delivery's row never changes again. */
  lemma SucceededIsAbsorbing(p: seq<Step>, q: seq<Step>, maxAttempts: int, id: nat)
    requires id < |Run(p, maxAttempts).rows| && Run(p, maxAttempts).rows[id].status.Succeeded?
    ensures id < |Run(p + q, maxAttempts).rows| && Run(p + q, maxAttempts).rows[id] == Run(p, maxAttempts).rows[id]
  {
    RunKeeps(p, maxAttempts);
    ExecConcat(Init(), p, q, maxAttempts);
    SucceededStays(Run(p, maxAttempts), q, maxAttempts, id);
  }

  /** A dead delivery is revived by a redelivery and by nothing else. */
  lemma DeadOnlyRedelivered(steps: seq<Step>, step: Step, maxAttempts: int, id: nat)
    requires id < |Run(steps, maxAttempts).rows| && Run(steps, maxAttempts).rows[id].status.Dead?
    ensures var s, t := Run(steps, maxAttempts), Run(steps + [step], maxAttempts);
      && id < |t.rows|
      && (t.rows[id] == s.rows[id]
          || (step.Redeliver? && step.id == id && step.business == s.rows[id].business && t.rows[id].status.Pending?))
  {
    RunKeeps(steps, maxAttempts);
    ExecConcat(Init(), steps, [step], maxAttempts);
    var s := Run(steps, maxAttempts);
    assert [step][..0] == [];
    assert Exec(s, [step], maxAttempts) == Apply(s, step, maxAttempts);
    RowStep(s, step, maxAttempts, id);
  }

  // ---- How often deliveries are sent ----

  /** How many times in a row, up to now, the delivery was reclaimed because its lease ran out. */
  ghost function Reclaims(steps: seq<Step>, maxAttempts: int, id: nat): nat {
    if steps == [] then 0
    else
      var front, last := steps[..|steps| - 1], steps[|steps| - 1];
      var s := Run(front, maxAttempts);
      if !ClaimsRow(s, last, id) then Reclaims(front, maxAttempts, id)
      else if id < |s.rows| && s.rows[id].status.InFlight? then Reclaims(front, maxAttempts, id) + 1
      else 0
  }

  /** How many times the delivery was claimed for sending since it was created or last redelivered. */
  ghost function Sends(steps: seq<Step>, maxAttempts: int, id: nat): nat {
    if steps == [] then 0
    else
      var front, last := steps[..|steps| - 1], steps[|steps| - 1];
      var s := Run(front, maxAttempts);
      if ClaimsRow(s, last, id) then Sends(front, maxAttempts, id) + 1
      else if last.Redeliver? && last.id == id && Enabled(s, last) then 0
      else Sends(front, maxAttempts, id)
  }

  /** Every delivery is tried once, whatever the configured maximum. */
  function AtLeastOne(maxAttempts: int): nat { if maxAttempts >= 1 then maxAttempts else 1 }

  /** The attempt counter counts the sends, and passes the maximum only by lease-expiry reclaims. */
  lemma {:induction false} AttemptsAreBounded(steps: seq<Step>, maxAttempts: int, id: nat)
    ensures var s := Run(steps, maxAttempts);
      && (id >= |s.rows| ==> Sends(steps, maxAttempts, id) == 0)
      && (id < |s.rows| ==>
            && s.rows[id].attempts == Sends(steps, maxAttempts, id)
            && s.rows[id].attempts <= AtLeastOne(maxAttempts) + Reclaims(steps, maxAttempts, id))
    decreases |steps|
  {
    if steps != [] {
      var front, last := steps[..|steps| - 1], steps[|steps| - 1];
      AttemptsAreBounded(front, maxAttempts, id);
      RunKeeps(front, maxAttempts);
      var s := Run(front, maxAttempts);
      NewRowsAreFresh(s, last, maxAttempts);
      assert Run(steps, maxAttempts) == Apply(s, last, maxAttempts);
      if id < |s.rows| {
        assert RowOk(s.rows[id], maxAttempts);
        RowStep(s, last, maxAttempts, id);
        CountingStep(s, last, maxAttempts, id);
      }
    }
  }

  lemma CountingStep(s: Hooks, step: Step, maxAttempts: int, id: nat)
    requires Inv(s, maxAttempts) && id < |s.rows|
    ensures var t := Apply(s, step, maxAttempts);
      && id < |t.rows|
      && t.rows[id].attempts ==
           if ClaimsRow(s, step, id) then s.rows[id].attempts + 1
           else if step.Redeliver? && step.id == id && Enabled(s, step) then 0
           else s.rows[id].attempts
  {
    RowStep(s, step, maxAttempts, id);
  }

  predicate NoLoss(steps: seq<Step>) {
    forall n :: 0 <= n < |steps| ==> !steps[n].Crash? && !steps[n].LoseMark?
  }

  /** Without a crash or a lost mark, everything in flight is in the current batch. */
  lemma {:induction false} InFlightIsWorking(steps: seq<Step>, maxAttempts: int, id: nat)
    requires NoLoss(steps)
    ensures var s := Run(steps, maxAttempts);
      id < |s.rows| && s.rows[id].status.InFlight? ==> id in s.working
    decreases |steps|
  {
    if steps != [] {
      var front, last := steps[..|steps| - 1], steps[|steps| - 1];
      InFlightIsWorking(front, maxAttempts, id);
      RunKeeps(front, maxAttempts);
      var s := Run(front, maxAttempts);
      NewRowsAreFresh(s, last, maxAttempts);
      assert Run(steps, maxAttempts) == Apply(s, last, maxAttempts);
      if id < |s.rows| {
        RowStep(s, last, maxAttempts, id);
      }
    }
  }

  lemma {:induction false} NoLossNoReclaim(steps: seq<Step>, maxAttempts: int, id: nat)
    requires NoLoss(steps)
    ensures Reclaims(steps, maxAttempts, id) == 0
    decreases |steps|
  {
    if steps != [] {
      NoLossNoReclaim(steps[..|steps| - 1], maxAttempts, id);
      InFlightIsWorking(steps[..|steps| - 1], maxAttempts, id);
    }
  }

  /** Without a crash or a lost mark, a delivery is sent at most `maxAttempts` times between redeliveries. */
  lemma SentAtMostMaxAttempts(steps: seq<Step>, maxAttempts: int, id: nat)
    requires NoLoss(steps)
    ensures Sends(steps, maxAttempts, id) <= AtLeastOne(maxAttempts)
  {
    AttemptsAreBounded(steps, maxAttempts, id);
    NoLossNoReclaim(steps, maxAttempts, id);
  }
}
