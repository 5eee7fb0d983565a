/**
 The outbox over every run: no event is lost and none is a phantom. Payment outcome events are
 at-least-once (a reconciler may finalize an attempt that a live request also finalizes): their
 number is exactly the number of committed definite finalizes, and it exceeds one exactly if one of
 these found the attempt settled.
 */
module PaymentOutbox {
  import opened Common
  import opened LineItems
  import opened PaymentTables
  import opened PaymentProtocol
  import opened PaymentInvariant
  import opened PaymentSafety
  import opened PaymentTheorems
  import opened PaymentContent

  function Outcomes(events: seq<Event>, a: Id): nat {
    if events == [] then 0
    else var last := events[|events| - 1];
         Outcomes(events[..|events| - 1], a) + if last.PaymentOutcome? && last.attempt == a then 1 else 0
  }

  function Creations(events: seq<Event>, i: Id): nat {
    if events == [] then 0
    else var last := events[|events| - 1];
         Creations(events[..|events| - 1], i) + if last.InvoiceCreated? && last.invoice == i then 1 else 0
  }

  /** The step commits a definite outcome for `a`. */
  ghost predicate CommitsOutcome(s: Sys, step: Step, a: Id) {
    step.RunFinalize? && Enabled(s, step) && s.workers[step.w].job.attempt == a && !s.workers[step.w].result.Unknown?
  }

  /** How often a run commits a definite outcome for `a`. */
  ghost function Commits(steps: seq<Step>, a: Id): nat {
    if steps == [] then 0
    else var front := steps[..|steps| - 1];
         Commits(front, a) + if CommitsOutcome(Run(front), steps[|steps| - 1], a) then 1 else 0
  }

  /** What a step appends to the outbox. */
  ghost function Emitted(s: Sys, step: Step): seq<Event> {
    if !Enabled(s, step) then []
    else match step
         case CreateInvoice(id, business, customer, items) =>
           if Storable(items) then [InvoiceCreated(business, id, customer, Total(items))] else []
         case RunFinalize(w) =>
           var k := s.workers[w];
           if k.result.Unknown? then [] else [OutcomeEvent(k.job, Respond(k.job, k.result).body)]
         case _ => []
  }

  lemma StepEmits(s: Sys, step: Step)
    requires Inv(s)
    ensures Apply(s, step).db.events == s.db.events + Emitted(s, step)
  {
    if !IsTransaction(step) {
      ReadOnlyLeavesTables(s, step);
    } else if Enabled(s, step) {
      TransactionEmits(s, step);
    }
  }

  lemma TransactionEmits(s: Sys, step: Step)
    requires IsTransaction(step) && Enabled(s, step)
    ensures Apply(s, step).db.events == s.db.events + Emitted(s, step)
  {
  }

  lemma CountOne(events: seq<Event>, e: Event, x: Id)
    ensures Outcomes(events + [e], x) == Outcomes(events, x) + if e.PaymentOutcome? && e.attempt == x then 1 else 0
    ensures Creations(events + [e], x) == Creations(events, x) + if e.InvoiceCreated? && e.invoice == x then 1 else 0
  {
    assert (events + [e])[..|events|] == events;
  }

  lemma CountAppend(events: seq<Event>, added: seq<Event>, x: Id)
    requires |added| <= 1
    ensures Outcomes(events + added, x)
            == Outcomes(events, x) + if added != [] && added[0].PaymentOutcome? && added[0].attempt == x then 1 else 0
    ensures Creations(events + added, x)
            == Creations(events, x) + if added != [] && added[0].InvoiceCreated? && added[0].invoice == x then 1 else 0
  {
    if added == [] {
      assert events + added == events;
    } else {
      assert added == [added[0]];
      CountOne(events, added[0], x);
    }
  }

  lemma CountStep(s: Sys, step: Step, x: Id)
    requires Apply(s, step).db.events == s.db.events + Emitted(s, step)
    ensures var p, q := s.db.events, Apply(s, step).db.events;
      && Outcomes(q, x) == Outcomes(p, x) + (if CommitsOutcome(s, step, x) then 1 else 0)
      && Creations(q, x)
         == Creations(p, x) + if step.CreateInvoice? && step.id == x && Emitted(s, step) != [] then 1 else 0
  {
    CountAppend(s.db.events, Emitted(s, step), x);
  }

  /** The event that a settled attempt deserves. */
  function NoticeFor(a: Id, at: Attempt): Event {
    PaymentOutcome(at.business, at.invoice, a, at.status, at.amount, at.failureCode)
  }

  predicate Truthful(attempts: map<Id, Attempt>, e: Event) {
    e.PaymentOutcome? ==>
      e.attempt in attempts && !attempts[e.attempt].status.Pending? && e == NoticeFor(e.attempt, attempts[e.attempt])
  }

  predicate AllTruthful(db: Db) {
    forall n :: 0 <= n < |db.events| ==> Truthful(db.attempts, db.events[n])
  }

  lemma NoticeIsTruthful(attempts: map<Id, Attempt>, job: Job, result: PspResult, now: Time)
    requires JobOk(attempts, job) && AttemptShape(attempts[job.attempt]) && Agrees(attempts[job.attempt], result)
    requires !result.Unknown?
    ensures Truthful(SettleRow(attempts, job.attempt, result, now), OutcomeEvent(job, Respond(job, result).body))
  {
  }

  lemma NewEventIsTruthful(s: Sys, step: Step)
    requires Inv(s) && step.RunFinalize? && Enabled(s, step) && !s.workers[step.w].result.Unknown?
    ensures Truthful(Apply(s, step).db.attempts, Emitted(s, step)[0])
  {
    var k := s.workers[step.w];
    assert WorkerOk(s.db, s.ledger, k);
    assert AttemptOk(s.db.invoices, s.db.keys, k.job.attempt, s.db.attempts[k.job.attempt]);
    SettleAgreesWithLedger(s.db.attempts, s.ledger, k.job, k.result, s.now);
    NoticeIsTruthful(s.db.attempts, k.job, k.result, s.now);
    assert Apply(s, step).db == FinalizeTx(s.db, k.job, k.result, s.now);
  }

  lemma TruthStep(s: Sys, step: Step)
    requires Inv(s) && AllTruthful(s.db)
    ensures AllTruthful(Apply(s, step).db)
  {
    StepKeeps(s, step);
    StepEmits(s, step);
    var added := Emitted(s, step);
    if added != [] && step.RunFinalize? {
      NewEventIsTruthful(s, step);
    }
    TruthStays(s.db, Apply(s, step).db, added);
  }

  lemma TruthStays(p: Db, q: Db, added: seq<Event>)
    requires AllTruthful(p) && AttemptsGrow(p.attempts, q.attempts) && q.events == p.events + added
    requires |added| <= 1 && (added != [] ==> Truthful(q.attempts, added[0]))
    ensures AllTruthful(q)
  {
    forall n | 0 <= n < |q.events| ensures Truthful(q.attempts, q.events[n]) {
      if n < |p.events| {
        assert q.events[n] == p.events[n] && Truthful(p.attempts, p.events[n]);
      }
    }
  }

  /** Attempts settle only by a committed definite outcome. */
  lemma SettledByCommit(s: Sys, step: Step, a: Id)
    requires Inv(s) && a in Apply(s, step).db.attempts && !Apply(s, step).db.attempts[a].status.Pending?
    ensures CommitsOutcome(s, step, a) || (a in s.db.attempts && !s.db.attempts[a].status.Pending?)
  {
    if !IsTransaction(step) {
      ReadOnlyLeavesTables(s, step);
    } else if Enabled(s, step) && !CommitsOutcome(s, step, a) && Unsettled(s.db.attempts, a) {
      NotSettledByOthers(s, step, a);
    }
  }

  predicate Unsettled(attempts: map<Id, Attempt>, a: Id) {
    a in attempts ==> attempts[a].status.Pending?
  }

  lemma NotSettledByOthers(s: Sys, step: Step, a: Id)
    requires IsTransaction(step) && Enabled(s, step) && !CommitsOutcome(s, step, a)
    requires Unsettled(s.db.attempts, a)
    ensures Unsettled(Apply(s, step).db.attempts, a)
  {
    match step {
      case RunClaim(w, attempt) => ClaimSettlesNothing(s, w, attempt, a);
      case Lease(w, ids) => assert Unsettled(LeaseRows(s.db.attempts, ids, s.now), a);
      case RunFinalize(w) =>
        var k := s.workers[w];
        assert Unsettled(SettleRow(s.db.attempts, k.job.attempt, k.result, s.now), a);
      case _ =>
    }
  }

  lemma ClaimSettlesNothing(s: Sys, w: WorkerId, attempt: Id, a: Id)
    requires Enabled(s, RunClaim(w, attempt)) && Unsettled(s.db.attempts, a)
    ensures Unsettled(DoClaim(s, w, attempt).db.attempts, a)
  {
  }

  /** The outbox agrees with the tables about every attempt and every invoice. */
  ghost predicate Complete(steps: seq<Step>, x: Id) {
    var db := Run(steps).db;
    && Outcomes(db.events, x) == Commits(steps, x)
    && (x in db.attempts && !db.attempts[x].status.Pending? ==> Outcomes(db.events, x) >= 1)
    && Creations(db.events, x) == if x in db.invoices then 1 else 0
  }

  lemma CreateIsAnnounced(db: Db, id: Id, business: Id, customer: Id, items: seq<LineItem>, x: Id)
    requires id !in db.invoices && Creations(db.events, x) == if x in db.invoices then 1 else 0
    ensures var q := CreateTx(db, id, business, customer, items);
      Creations(q.events, x) == if x in q.invoices then 1 else 0
  {
    if Storable(items) {
      CountOne(db.events, InvoiceCreated(business, id, customer, Total(items)), x);
    }
  }

  lemma CreationStep(s: Sys, step: Step, x: Id)
    requires Inv(s) && Creations(s.db.events, x) == if x in s.db.invoices then 1 else 0
    ensures var t := Apply(s, step); Creations(t.db.events, x) == if x in t.db.invoices then 1 else 0
  {
    if !step.CreateInvoice? {
      StepEmits(s, step);
      CountStep(s, step, x);
      StepAddsRows(s, step);
    } else if Enabled(s, step) {
      CreateIsAnnounced(s.db, step.id, step.business, step.customer, step.items, x);
    }
  }

  lemma OutboxStep(s: Sys, step: Step, x: Id)
    requires Inv(s)
    ensures var t := Apply(s, step);
      && Outcomes(t.db.events, x) == Outcomes(s.db.events, x) + (if CommitsOutcome(s, step, x) then 1 else 0)
      && (x in t.db.attempts && !t.db.attempts[x].status.Pending? ==>
            CommitsOutcome(s, step, x) || (x in s.db.attempts && !s.db.attempts[x].status.Pending?))
  {
    StepEmits(s, step);
    CountStep(s, step, x);
    var t := Apply(s, step);
    if x in t.db.attempts && !t.db.attempts[x].status.Pending? {
      SettledByCommit(s, step, x);
    }
  }

  lemma {:induction false} RunIsComplete(steps: seq<Step>, x: Id)
    ensures AllTruthful(Run(steps).db) && Complete(steps, x)
    decreases |steps|
  {
    if steps != [] {
      var front, last := steps[..|steps| - 1], steps[|steps| - 1];
      RunIsComplete(front, x);
      RunOk(front);
      TruthStep(Run(front), last);
      OutboxStep(Run(front), last, x);
      CreationStep(Run(front), last, x);
    }
  }

  lemma {:induction false} CountedMeansPresent(events: seq<Event>, a: Id)
    ensures Outcomes(events, a) >= 1 <==>
            exists n :: 0 <= n < |events| && events[n].PaymentOutcome? && events[n].attempt == a
  {
    if events != [] {
      var front := events[..|events| - 1];
      CountedMeansPresent(front, a);
      if n :| 0 <= n < |front| && front[n].PaymentOutcome? && front[n].attempt == a {
        assert events[n] == front[n];
      }
      if n :| 0 <= n < |events| && events[n].PaymentOutcome? && events[n].attempt == a {
        assert n < |front| ==> front[n] == events[n];
      }
    }
  }

  /**
   No lost and no phantom events: an attempt has as many outcome events as committed definite
   finalizes, at least one exactly when it is settled, each telling its status, amount and code;
   and every invoice has exactly one created event.
   */
  lemma NoLostNoPhantomEvents(steps: seq<Step>, x: Id)
    ensures var db := Run(steps).db;
      && Outcomes(db.events, x) == Commits(steps, x)
      && (Outcomes(db.events, x) >= 1 <==> x in db.attempts && !db.attempts[x].status.Pending?)
      && (forall n :: 0 <= n < |db.events| && db.events[n].PaymentOutcome? && db.events[n].attempt == x ==>
            x in db.attempts && db.events[n] == NoticeFor(x, db.attempts[x]))
      && Creations(db.events, x) == if x in db.invoices then 1 else 0
  {
    RunIsComplete(steps, x);
    var db := Run(steps).db;
    CountedMeansPresent(db.events, x);
    forall n | 0 <= n < |db.events| ensures Truthful(db.attempts, db.events[n]) {
    }
  }

  // ---- Exactly when an outcome is announced once ----

  /** The step commits a definite outcome for an attempt that has settled already. */
  ghost predicate CommitsLate(s: Sys, step: Step, a: Id) {
    CommitsOutcome(s, step, a) && a in s.db.attempts && !s.db.attempts[a].status.Pending?
  }

  /** A definite finalize announces its attempt a second time exactly if the attempt is no longer pending. */
  lemma SecondNoticeIffSettled(steps: seq<Step>, next: Step, a: Id)
    requires CommitsOutcome(Run(steps), next, a)
    ensures var before, after := Outcomes(Run(steps).db.events, a), Outcomes(Run(steps + [next]).db.events, a);
      && after == before + 1
      && (after >= 2 <==> a in Run(steps).db.attempts && !Run(steps).db.attempts[a].status.Pending?)
  {
    RunOk(steps);
    NoLostNoPhantomEvents(steps, a);
    OutboxStep(Run(steps), next, a);
    assert (steps + [next])[..|steps|] == steps;
  }

  ghost predicate LateAt(steps: seq<Step>, n: nat, a: Id)
    requires n < |steps|
  {
    CommitsLate(Run(steps[..n]), steps[n], a)
  }

  ghost predicate NoneLate(steps: seq<Step>, a: Id) {
    forall n :: 0 <= n < |steps| ==> !LateAt(steps, n, a)
  }

  lemma LateInFront(steps: seq<Step>, n: nat, a: Id)
    requires n < |steps| - 1
    ensures LateAt(steps[..|steps| - 1], n, a) <==> LateAt(steps, n, a)
  {
    assert steps[..|steps| - 1][..n] == steps[..n];
  }

  lemma NoneLateByLast(steps: seq<Step>, a: Id)
    requires steps != []
    ensures NoneLate(steps, a) <==> NoneLate(steps[..|steps| - 1], a) && !LateAt(steps, |steps| - 1, a)
  {
    var front := steps[..|steps| - 1];
    if NoneLate(steps, a) {
      forall n | 0 <= n < |front| ensures !LateAt(front, n, a) {
        LateInFront(steps, n, a);
      }
    } else {
      var n :| 0 <= n < |steps| && LateAt(steps, n, a);
      if n < |front| {
        LateInFront(steps, n, a);
      }
    }
  }

  /** In a run, an attempt is announced at most once if and only if none of its definite finalizes comes late. */
  lemma {:induction false} AnnouncedOnceIffNoneLate(steps: seq<Step>, a: Id)
    ensures Outcomes(Run(steps).db.events, a) <= 1 <==> NoneLate(steps, a)
    decreases |steps|
  {
    if steps != [] {
      var front, last := steps[..|steps| - 1], steps[|steps| - 1];
      assert front + [last] == steps;
      AnnouncedOnceIffNoneLate(front, a);
      NoneLateByLast(steps, a);
      if CommitsOutcome(Run(front), last, a) {
        SecondNoticeIffSettled(front, last, a);
      } else {
        RunOk(front);
        OutboxStep(Run(front), last, a);
      }
    }
  }
}
