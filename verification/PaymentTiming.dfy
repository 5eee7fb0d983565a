/**
 When a pending attempt may be leased, told by the history of the run alone: at once after it was
 made, thirty seconds after a lease, five seconds after an outcome that was not known.
 */
module PaymentTiming {
  import opened Common
  import opened PaymentTables
  import opened PaymentProtocol
  import opened PaymentSafety
  import opened PaymentEffects

  /** The time before which the attempt is not to be leased, if there is one. */
  ghost function DueFrom(steps: seq<Step>, a: Id): Option<Time> {
    if steps == [] then None
    else
      var front, last := steps[..|steps| - 1], steps[|steps| - 1];
      var s := Run(front);
      if !Enabled(s, last) then DueFrom(front, a)
      else match last
           case Lease(_, ids) => if a in ids then Some(s.now + 30) else DueFrom(front, a)
           case RunFinalize(w) =>
             var k := s.workers[w];
             if k.job.attempt == a && k.result.Unknown? && a in s.db.attempts && s.db.attempts[a].status == Pending
             then Some(s.now + 5) else DueFrom(front, a)
           case _ => DueFrom(front, a)
  }

  predicate PollIs(s: Sys, a: Id, due: Option<Time>) {
    if a in s.db.attempts then s.db.attempts[a].nextPollAt == due else due == None
  }

  lemma FinalizePolls(steps: seq<Step>, w: WorkerId, a: Id)
    requires Enabled(Run(steps), RunFinalize(w)) && PollIs(Run(steps), a, DueFrom(steps, a))
    ensures PollIs(Run(steps + [RunFinalize(w)]), a, DueFrom(steps + [RunFinalize(w)], a))
  {
    FinalizeWrites(steps, w);
    assert (steps + [RunFinalize(w)])[..|steps|] == steps;
  }

  /** Transaction 1 makes attempts that may be leased at once; no other transaction touches the next poll. */
  lemma OthersDoNotPoll(s: Sys, step: Step, a: Id)
    requires !step.RunFinalize? && !step.Lease?
    ensures a in s.db.attempts ==>
      a in Apply(s, step).db.attempts && Apply(s, step).db.attempts[a].nextPollAt == s.db.attempts[a].nextPollAt
    ensures a !in s.db.attempts ==> PollIs(Apply(s, step), a, None)
  {
    if !IsTransaction(step) {
      ReadOnlyLeavesTables(s, step);
    } else if step.RunClaim? && Enabled(s, step) {
      ClaimCases(s, step.w, step.attempt);
    }
  }

  lemma PollStep(steps: seq<Step>, last: Step, a: Id)
    requires PollIs(Run(steps), a, DueFrom(steps, a))
    ensures PollIs(Run(steps + [last]), a, DueFrom(steps + [last], a))
  {
    if last.RunFinalize? && Enabled(Run(steps), last) {
      FinalizePolls(steps, last.w, a);
    } else {
      OneMore(steps, last);
      assert (steps + [last])[..|steps|] == steps;
      if !last.RunFinalize? && !last.Lease? {
        OthersDoNotPoll(Run(steps), last, a);
      }
    }
  }

  lemma {:induction false} PollsAreTimed(steps: seq<Step>, a: Id)
    ensures PollIs(Run(steps), a, DueFrom(steps, a))
    decreases |steps|
  {
    if steps != [] {
      var front, last := steps[..|steps| - 1], steps[|steps| - 1];
      assert steps == front + [last];
      PollsAreTimed(front, a);
      PollStep(front, last, a);
    }
  }

  predicate Reached(due: Option<Time>, now: Time) { due == None || due.value <= now }

  /** In every run, up to twenty attempts may be leased together exactly if all are pending and due by their history. */
  lemma LeasableIff(steps: seq<Step>, w: WorkerId, ids: seq<Id>)
    ensures var s := Run(steps);
      Enabled(s, Lease(w, ids))
      <==> && NewWorker(s, w) && 0 < |ids| <= 20
           && (forall i, j :: 0 <= i < j < |ids| ==> ids[i] != ids[j])
           && (forall a :: a in ids ==>
                 a in s.db.attempts && s.db.attempts[a].status == Pending && Reached(DueFrom(steps, a), s.now))
  {
    forall a | a in ids ensures PollIs(Run(steps), a, DueFrom(steps, a)) {
      PollsAreTimed(steps, a);
    }
  }

  /** The step leases the attempt, or reports an unknown outcome for it. */
  ghost predicate Touches(s: Sys, step: Step, a: Id) {
    && Enabled(s, step)
    && (|| (step.Lease? && a in step.ids)
        || (step.RunFinalize? && s.workers[step.w].job.attempt == a && s.workers[step.w].result.Unknown?))
  }

  ghost predicate Undisturbed(p: seq<Step>, q: seq<Step>, a: Id) {
    forall n :: 0 <= n < |q| ==> !Touches(Run(p + q[..n]), q[n], a)
  }

  lemma DueStaysStep(steps: seq<Step>, step: Step, a: Id)
    requires !Touches(Run(steps), step, a)
    ensures DueFrom(steps + [step], a) == DueFrom(steps, a)
  {
    assert (steps + [step])[..|steps|] == steps;
  }

  lemma {:induction false} DueStays(p: seq<Step>, q: seq<Step>, a: Id)
    requires Undisturbed(p, q, a)
    ensures DueFrom(p + q, a) == DueFrom(p, a)
    decreases |q|
  {
    if q == [] {
      assert p + q == p;
    } else {
      var front, last := q[..|q| - 1], q[|q| - 1];
      assert p + q == p + front + [last];
      UndisturbedFront(p, q, a);
      DueStays(p, front, a);
      DueStaysStep(p + front, last, a);
    }
  }

  lemma UndisturbedFront(p: seq<Step>, q: seq<Step>, a: Id)
    requires Undisturbed(p, q, a) && q != []
    ensures var n := |q| - 1; Undisturbed(p, q[..n], a) && !Touches(Run(p + q[..n]), q[n], a)
  {
    var front := q[..|q| - 1];
    forall n | 0 <= n < |front| ensures !Touches(Run(p + front[..n]), front[n], a) {
      assert front[..n] == q[..n] && front[n] == q[n];
    }
  }

  /** Once leased, an attempt is not leased again for thirty seconds, unless an unknown outcome changes that. */
  lemma LeaseLasts(p: seq<Step>, w: WorkerId, ids: seq<Id>, q: seq<Step>, a: Id, v: WorkerId, more: seq<Id>)
    requires Enabled(Run(p), Lease(w, ids)) && a in ids && Undisturbed(p + [Lease(w, ids)], q, a)
    ensures var t := Run(p + [Lease(w, ids)] + q);
      Enabled(t, Lease(v, more)) && a in more ==> Run(p).now + 30 <= t.now
  {
    var r := p + [Lease(w, ids)];
    assert r[..|p|] == p;
    DueStays(r, q, a);
    LeasableIff(r + q, v, more);
  }
}
