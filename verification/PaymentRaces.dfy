/**
 Where a successful charge leaves its invoice. The admin endpoints may void or write off an invoice
 while a payment is in flight, so a succeeded attempt does not by itself mean a paid invoice; this
 is exactly when it does. Also the one place where two businesses can disturb each other: the
 idempotency key is sent to the PSP without the business it belongs to.
 */
module PaymentRaces {
  import opened Common
  import opened InvoiceLifecycle
  import opened PaymentTables
  import opened PaymentProtocol
  import opened PaymentInvariant
  import opened PaymentSafety
  import opened PaymentTheorems

  lemma FinalizeDecides(s: Sys, w: WorkerId)
    requires Inv(s) && Enabled(s, RunFinalize(w)) && s.workers[w].result.Charged?
    requires s.workers[w].job.attempt in s.db.attempts && s.db.attempts[s.workers[w].job.attempt].status.Pending?
    ensures var job := s.workers[w].job;
      && var t := Apply(s, RunFinalize(w));
      && job.attempt in t.db.attempts && t.db.attempts[job.attempt].status.Succeeded?
      && job.invoice in s.db.invoices && job.invoice in t.db.invoices && IsTerminal(t.db.invoices[job.invoice].state)
      && (t.db.invoices[job.invoice].state.Paid? <==> s.db.invoices[job.invoice].state.Open?)
  {
    var k := s.workers[w];
    assert WorkerOk(s.db, s.ledger, k);
    PendingMeansNotPaid(s, k.job.attempt);
    ChargeDecides(s.db, k.job, k.result.pspRef, s.now);
    assert Apply(s, RunFinalize(w)).db == FinalizeTx(s.db, k.job, k.result, s.now);
  }

  lemma ChargeDecides(db: Db, job: Job, ref: Text, now: Time)
    requires job.attempt in db.attempts && db.attempts[job.attempt].status.Pending?
    requires job.invoice in db.invoices
    requires var st := db.invoices[job.invoice].state; st.Open? || st.Void? || st.Uncollectible?
    ensures var q := FinalizeTx(db, job, Charged(ref), now);
      && job.attempt in q.attempts && q.attempts[job.attempt].status.Succeeded?
      && job.invoice in q.invoices && IsTerminal(q.invoices[job.invoice].state)
      && (q.invoices[job.invoice].state.Paid? <==> db.invoices[job.invoice].state.Open?)
  {
  }

  /**
   When the finalize of a pending attempt's success commits, the attempt is succeeded for good, and
   the invoice ends up paid, for good, exactly if it was still open at that moment.
   */
  lemma SuccessPaysIffStillOpen(p: seq<Step>, w: WorkerId, q: seq<Step>)
    requires Enabled(Run(p), RunFinalize(w)) && Run(p).workers[w].result.Charged?
    requires Run(p).workers[w].job.attempt in Run(p).db.attempts
    requires Run(p).db.attempts[Run(p).workers[w].job.attempt].status.Pending?
    ensures var job := Run(p).workers[w].job;
      && var t := Run(p + [RunFinalize(w)] + q);
      && job.attempt in t.db.attempts && t.db.attempts[job.attempt].status.Succeeded?
      && job.invoice in Run(p).db.invoices && job.invoice in t.db.invoices
      && (t.db.invoices[job.invoice].state.Paid? <==> Run(p).db.invoices[job.invoice].state.Open?)
  {
    var s, f := Run(p), RunFinalize(w);
    RunOk(p);
    FinalizeDecides(s, w);
    ExecConcat(Init(), p, [f]);
    ExecConcat(Init(), p + [f], q);
    assert Exec(s, [f]) == Apply(s, f);
    RunOk(p + [f]);
    SettledForGood(Apply(s, f), q, s.workers[w].job.attempt, s.workers[w].job.invoice);
  }

  lemma SettledForGood(s: Sys, q: seq<Step>, a: Id, i: Id)
    requires Inv(s) && a in s.db.attempts && !s.db.attempts[a].status.Pending?
    requires i in s.db.invoices && IsTerminal(s.db.invoices[i].state)
    ensures var t := Exec(s, q);
      && a in t.db.attempts && t.db.attempts[a] == s.db.attempts[a]
      && i in t.db.invoices && t.db.invoices[i] == s.db.invoices[i]
  {
    TerminalIsForever(s, q);
    RunKeeps(s, q);
  }

  // ---- No admin, no race ----

  /** The step is an admin update that finds invoice `i` as it was read, and so changes it. */
  ghost predicate AdminHits(s: Sys, step: Step, i: Id) {
    && step.RunAdmin? && Enabled(s, step) && s.workers[step.w].invoice == i
    && i in s.db.invoices && s.db.invoices[i].state == s.workers[step.w].seen
  }

  ghost predicate HitAt(s: Sys, steps: seq<Step>, n: nat, i: Id)
    requires n < |steps|
  {
    AdminHits(Exec(s, steps[..n]), steps[n], i)
  }

  ghost predicate NoAdminOn(s: Sys, steps: seq<Step>, i: Id) {
    forall n :: 0 <= n < |steps| ==> !HitAt(s, steps, n, i)
  }

  predicate OpenOrPaid(s: Sys, i: Id) {
    i in s.db.invoices && (s.db.invoices[i].state.Open? || s.db.invoices[i].state.Paid?)
  }

  predicate CalledOff(s: Sys, i: Id) {
    i in s.db.invoices && (s.db.invoices[i].state.Void? || s.db.invoices[i].state.Uncollectible?)
  }

  lemma OpenOrPaidStep(s: Sys, step: Step, i: Id)
    requires Inv(s) && OpenOrPaid(s, i) && !AdminHits(s, step, i)
    ensures OpenOrPaid(Apply(s, step), i)
  {
    if !IsTransaction(step) {
      ReadOnlyLeavesTables(s, step);
    } else if Enabled(s, step) {
      OpenOrPaidTransaction(s, step, i);
    }
  }

  lemma OpenOrPaidTransaction(s: Sys, step: Step, i: Id)
    requires IsTransaction(step) && Enabled(s, step) && OpenOrPaid(s, i) && !AdminHits(s, step, i)
    ensures OpenOrPaid(Apply(s, step), i)
  {
    match step {
      case RunClaim(w, attempt) => ClaimAddsNoInvoice(s, w, attempt);
      case RunFinalize(w) => OpenOrPaidFinalize(s, w, i);
      case _ =>
    }
  }

  lemma OpenOrPaidFinalize(s: Sys, w: WorkerId, i: Id)
    requires Enabled(s, RunFinalize(w)) && OpenOrPaid(s, i)
    ensures OpenOrPaid(DoFinalize(s, w), i)
  {
    var k := s.workers[w];
    assert DoFinalize(s, w).db == FinalizeTx(s.db, k.job, k.result, s.now);
  }

  /** An admin update that hits an open invoice calls it off; a paid one it cannot hit. */
  lemma AdminCallsOff(s: Sys, step: Step, i: Id)
    requires Inv(s) && OpenOrPaid(s, i) && AdminHits(s, step, i)
    ensures CalledOff(Apply(s, step), i)
  {
    assert WorkerOk(s.db, s.ledger, s.workers[step.w]);
    assert Apply(s, step) == DoAdmin(s, step.w);
  }

  lemma CalledOffStep(s: Sys, step: Step, i: Id)
    requires Inv(s) && CalledOff(s, i)
    ensures CalledOff(Apply(s, step), i)
  {
    StepKeeps(s, step);
    assert Succeeds(s.db.invoices[i], Apply(s, step).db.invoices[i]);
  }

  lemma HitInFront(s: Sys, steps: seq<Step>, n: nat, i: Id)
    requires n < |steps| - 1
    ensures HitAt(s, steps[..|steps| - 1], n, i) <==> HitAt(s, steps, n, i)
  {
    assert steps[..|steps| - 1][..n] == steps[..n];
  }

  lemma NoAdminByLast(s: Sys, steps: seq<Step>, i: Id)
    requires steps != []
    ensures NoAdminOn(s, steps, i)
            <==> NoAdminOn(s, steps[..|steps| - 1], i) && !HitAt(s, steps, |steps| - 1, i)
  {
    var front := steps[..|steps| - 1];
    if NoAdminOn(s, steps, i) {
      forall n | 0 <= n < |front| ensures !HitAt(s, front, n, i) {
        HitInFront(s, steps, n, i);
      }
    } else {
      var n :| 0 <= n < |steps| && HitAt(s, steps, n, i);
      if n < |front| {
        HitInFront(s, steps, n, i);
      }
    }
  }

  /** From open, an invoice stays open or gets paid if no admin hits it, and is called off otherwise. */
  lemma {:induction false} OpenOrPaidRun(s: Sys, steps: seq<Step>, i: Id)
    requires Inv(s) && i in s.db.invoices && s.db.invoices[i].state.Open?
    ensures if NoAdminOn(s, steps, i) then OpenOrPaid(Exec(s, steps), i) else CalledOff(Exec(s, steps), i)
    decreases |steps|
  {
    if steps != [] {
      var front, last := steps[..|steps| - 1], steps[|steps| - 1];
      OpenOrPaidRun(s, front, i);
      RunKeeps(s, front);
      NoAdminByLast(s, steps, i);
      if !NoAdminOn(s, front, i) {
        CalledOffStep(Exec(s, front), last, i);
      } else if AdminHits(Exec(s, front), last, i) {
        AdminCallsOff(Exec(s, front), last, i);
      } else {
        OpenOrPaidStep(Exec(s, front), last, i);
      }
    }
  }

  /**
   An invoice was open when read, and in the end an attempt on it has succeeded: then the invoice is
   paid if and only if no admin update hit it in between. Updates that lose their race do not count,
   and none can hit once the success is recorded.
   */
  lemma SuccessPaysIffNoAdminHit(p: seq<Step>, q: seq<Step>, a: Id, i: Id)
    requires i in Run(p).db.invoices && Run(p).db.invoices[i].state.Open?
    requires PaidBy(Run(p + q).db.attempts, i, a)
    ensures i in Run(p + q).db.invoices
    ensures Run(p + q).db.invoices[i].state.Paid? <==> NoAdminOn(Run(p), q, i)
  {
    RunOk(p);
    RunOk(p + q);
    ExecConcat(Init(), p, q);
    OpenOrPaidRun(Run(p), q, i);
    var db := Run(p + q).db;
    assert AttemptOk(db.invoices, db.keys, a, db.attempts[a]);
  }
}
