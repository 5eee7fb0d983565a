/**
 Every step of the payment system keeps the invariant and only moves forward; therefore every run
 does.
 */
module PaymentSafety {
  import opened Common
  import opened LineItems
  import opened InvoiceLifecycle
  import opened PaymentTables
  import opened PaymentProtocol
  import opened PaymentInvariant
  import Fingerprint

  // ---- The three ways a step moves the system ----

  lemma TablesMove(s: Sys, db: Db)
    requires Inv(s) && DbInv(db) && DbGrows(s.db, db) && AllSettledOk(db.attempts, s.ledger)
    ensures Inv(s.(db := db)) && Grows(s, s.(db := db))
  {
    var t := s.(db := db);
    assert LedgerGrows(s.ledger, t.ledger);
    FrameStaysOk(s, t);
  }

  lemma WorkerMoves(s: Sys, w: WorkerId, k: Worker)
    requires Inv(s) && WorkerOk(s.db, s.ledger, k)
    ensures Inv(Becomes(s, w, k))
  {
  }

  lemma WorkerLeaves(s: Sys, w: WorkerId, a: Answer)
    requires Inv(s)
    ensures Inv(Done(s, w)) && Inv(Answered(s, w, a))
  {
  }

  lemma GrowsReflexive(s: Sys)
    ensures Grows(s, s)
  {
  }

  // ---- Step by step ----

  lemma ClaimedStep(s: Sys, w: WorkerId, job: Job, seen: InvoiceState)
    requires Inv(s) && ClaimTx(s.db, job, seen).1.Claimed?
    requires var db := ClaimTx(s.db, job, seen).0; DbInv(db) && DbGrows(s.db, db) && JobOk(db.attempts, job)
    ensures var t := Becomes(s.(db := ClaimTx(s.db, job, seen).0), w, Calling(job, [], true)); Inv(t) && Grows(s, t)
  {
    var db := ClaimTx(s.db, job, seen).0;
    assert AllSettledOk(db.attempts, s.ledger);
    TablesMove(s, db);
    WorkerMoves(s.(db := db), w, Calling(job, [], true));
  }

  lemma ClaimStep(s: Sys, w: WorkerId, attempt: Id)
    requires Inv(s) && Enabled(s, RunClaim(w, attempt))
    ensures Inv(DoClaim(s, w, attempt)) && Grows(s, DoClaim(s, w, attempt))
  {
    GrowsReflexive(s);
    var k := s.workers[w];
    assert WorkerOk(s.db, s.ledger, k);
    var job := Job(k.business, k.invoice, attempt, k.key, k.token, k.amount);
    ClaimKeeps(s.db, job, k.seen);
    match ClaimTx(s.db, job, k.seen).1 {
      case MustReplay =>
        WorkerMoves(s, w, Replaying(k.business, k.invoice, k.key, Fingerprint.Of(k.invoice, k.token, k.amount)));
      case NotPayable => WorkerLeaves(s, w, Conflict("invoice_not_payable"));
      case InProgress => WorkerLeaves(s, w, Conflict("payment_in_progress"));
      case Claimed => ClaimedStep(s, w, job, k.seen);
    }
  }

  lemma LedgerMoves(s: Sys, ledger: map<Key, Charge>)
    requires Inv(s) && LedgerGrows(s.ledger, ledger) && LedgerOk(s.db.attempts, ledger)
    ensures Inv(s.(ledger := ledger)) && Grows(s, s.(ledger := ledger))
  {
    GrowsReflexive(s);
    forall w | w in s.workers ensures WorkerOk(s.db, ledger, s.workers[w]) {
      WorkerStaysOk(s.db, s.ledger, s.db, ledger, s.workers[w]);
    }
    forall a | a in s.db.attempts ensures SettledOk(ledger, s.db.attempts[a]) {
      assert SettledOk(s.ledger, s.db.attempts[a]);
    }
  }

  lemma ProcessStep(s: Sys, r: Request, decided: Option<Verdict>)
    requires Inv(s) && r in s.sent
    ensures Inv(DoProcess(s, r, decided)) && Grows(s, DoProcess(s, r, decided))
  {
    GrowsReflexive(s);
    if r.key !in s.ledger && decided.Some? {
      var c := Charge(decided.value, r.token, r.amount, r.origin);
      assert ChargeOk(s.db.attempts, r.key, c);
      LedgerMoves(s, s.ledger[r.key := c]);
    }
  }

  lemma SettleAgreesWithLedger(attempts: map<Id, Attempt>, ledger: map<Key, Charge>, job: Job, result: PspResult,
                               now: Time)
    requires AllSettledOk(attempts, ledger) && JobOk(attempts, job) && ResultOk(ledger, job.key, result)
    ensures AllSettledOk(SettleRow(attempts, job.attempt, result, now), ledger)
    ensures Agrees(attempts[job.attempt], result)
  {
    assert SettledOk(ledger, attempts[job.attempt]);
  }

  lemma FinalizeTables(s: Sys, k: Worker)
    requires Inv(s) && k.Settling? && WorkerOk(s.db, s.ledger, k)
    ensures var t := s.(db := FinalizeTx(s.db, k.job, k.result, s.now)); Inv(t) && Grows(s, t)
  {
    SettleAgreesWithLedger(s.db.attempts, s.ledger, k.job, k.result, s.now);
    FinalizeKeeps(s.db, k.job, k.result, s.now);
    TablesMove(s, FinalizeTx(s.db, k.job, k.result, s.now));
  }

  lemma FinalizeStep(s: Sys, w: WorkerId)
    requires Inv(s) && Enabled(s, RunFinalize(w))
    ensures Inv(DoFinalize(s, w)) && Grows(s, DoFinalize(s, w))
  {
    var k := s.workers[w];
    assert WorkerOk(s.db, s.ledger, k);
    FinalizeTables(s, k);
    var t := s.(db := FinalizeTx(s.db, k.job, k.result, s.now));
    MoveOnStep(t, w, Replied(Respond(k.job, k.result)));
    GrowsSame(s, t, DoFinalize(s, w));
  }

  lemma GrowsSame(s: Sys, t: Sys, u: Sys)
    requires Grows(s, t) && u.db == t.db && u.ledger == t.ledger && u.now == t.now
    ensures Grows(s, u)
  {
  }

  lemma MoveOnStep(s: Sys, w: WorkerId, answer: Answer)
    requires Inv(s) && w in s.workers && s.workers[w].Settling?
    ensures var t := MoveOn(s, w, answer); Inv(t) && t.db == s.db && t.ledger == s.ledger && t.now == s.now
  {
    var k := s.workers[w];
    assert WorkerOk(s.db, s.ledger, k);
    if k.rest != [] {
      WorkerMoves(s, w, Calling(k.rest[0], k.rest[1..], k.client));
    } else {
      WorkerLeaves(s, w, answer);
    }
  }

  lemma LeaseAgreesWithLedger(attempts: map<Id, Attempt>, ledger: map<Key, Charge>, ids: seq<Id>, now: Time)
    requires AllSettledOk(attempts, ledger) && forall a :: a in ids ==> a in attempts
    ensures AllSettledOk(LeaseRows(attempts, ids, now), ledger)
    ensures JobsOk(LeaseRows(attempts, ids, now), JobsOf(attempts, ids))
  {
    var q, jobs := LeaseRows(attempts, ids, now), JobsOf(attempts, ids);
    forall a | a in q ensures SettledOk(ledger, q[a]) {
      assert SettledOk(ledger, attempts[a]);
    }
    forall i | 0 <= i < |jobs| ensures JobOk(q, jobs[i]) {
      assert ids[i] in ids;
    }
  }

  lemma LeaseTables(s: Sys, ids: seq<Id>)
    requires Inv(s) && forall a :: a in ids ==> a in s.db.attempts && Due(s.db.attempts[a], s.now)
    ensures var t := s.(db := s.db.(attempts := LeaseRows(s.db.attempts, ids, s.now))); Inv(t) && Grows(s, t)
  {
    LeaseKeeps(s.db, ids, s.now);
    LeaseAgreesWithLedger(s.db.attempts, s.ledger, ids, s.now);
    TablesMove(s, s.db.(attempts := LeaseRows(s.db.attempts, ids, s.now)));
  }

  lemma LeaseWorker(db: Db, ledger: map<Key, Charge>, jobs: seq<Job>)
    requires jobs != [] && JobsOk(db.attempts, jobs)
    ensures WorkerOk(db, ledger, Calling(jobs[0], jobs[1..], false))
  {
  }

  lemma LeaseStep(s: Sys, w: WorkerId, ids: seq<Id>)
    requires Inv(s) && Enabled(s, Lease(w, ids))
    ensures Inv(DoLease(s, w, ids)) && Grows(s, DoLease(s, w, ids))
  {
    LeaseTables(s, ids);
    LeaseAgreesWithLedger(s.db.attempts, s.ledger, ids, s.now);
    var t := s.(db := s.db.(attempts := LeaseRows(s.db.attempts, ids, s.now)));
    var jobs := JobsOf(s.db.attempts, ids);
    LeaseWorker(t.db, s.ledger, jobs);
    WorkerMoves(t, w, Calling(jobs[0], jobs[1..], false));
    GrowsSame(s, t, DoLease(s, w, ids));
  }

  lemma AdminStep(s: Sys, w: WorkerId)
    requires Inv(s) && Enabled(s, RunAdmin(w))
    ensures Inv(DoAdmin(s, w)) && Grows(s, DoAdmin(s, w))
  {
    var k := s.workers[w];
    assert WorkerOk(s.db, s.ledger, k);
    AdminKeeps(s.db, k.business, k.invoice, k.seen, k.to, s.now);
    var db := AdminTx(s.db, k.business, k.invoice, k.seen, k.to, s.now);
    TablesMove(s, db);
    WorkerLeaves(s.(db := db), w, ConnectionLost);
  }

  lemma ReceiveStep(s: Sys, w: WorkerId, reply: HttpReply)
    requires Inv(s) && Enabled(s, Receive(w, reply))
    ensures Inv(Apply(s, Receive(w, reply)))
  {
    var k := s.workers[w];
    assert WorkerOk(s.db, s.ledger, k);
    WorkerMoves(s, w, Settling(k.job, Classify(reply), k.rest, k.client));
  }

  lemma SendStep(s: Sys, w: WorkerId)
    requires Inv(s) && Enabled(s, Send(w))
    ensures Inv(Apply(s, Send(w)))
  {
    assert WorkerOk(s.db, s.ledger, s.workers[w]);
  }

  lemma StartPayStep(s: Sys, w: WorkerId, business: Id, invoice: Id, key: Key, token: Text)
    requires Inv(s)
    ensures Inv(DoStartPay(s, w, business, invoice, key, token))
  {
    if IsBlank(token) {
      WorkerLeaves(s, w, BlankToken);
    } else if invoice !in s.db.invoices || s.db.invoices[invoice].business != business {
      WorkerLeaves(s, w, InvoiceNotFound);
    } else {
      var inv := s.db.invoices[invoice];
      WorkerMoves(s, w, PayRead(business, invoice, key, token, inv.state, inv.total));
    }
  }

  lemma CreateStep(s: Sys, id: Id, business: Id, customer: Id, items: seq<LineItem>)
    requires Inv(s) && id !in s.db.invoices
    ensures var t := s.(db := CreateTx(s.db, id, business, customer, items)); Inv(t) && Grows(s, t)
  {
    CreateKeeps(s.db, id, business, customer, items);
    TablesMove(s, CreateTx(s.db, id, business, customer, items));
  }

  lemma AdminReadStep(s: Sys, step: Step)
    requires Inv(s) && step.AdminRead? && Enabled(s, step)
    ensures Inv(Apply(s, step))
  {
    WorkerMoves(s, step.w, Deciding(step.business, step.invoice, s.db.invoices[step.invoice].state, step.to));
  }

  lemma ReplayStep(s: Sys, w: WorkerId)
    requires Inv(s) && Enabled(s, RunReplay(w))
    ensures Inv(DoReplay(s, w))
  {
    var k := s.workers[w];
    WorkerLeaves(s, w, ReplayAnswer(s.db.keys[KeyId(k.business, k.key)], k.fingerprint, k.invoice));
  }

  /** The steps that run a transaction or reach the PSP's ledger. */
  predicate IsTransaction(step: Step) {
    step.CreateInvoice? || step.RunClaim? || step.PspProcess? || step.RunFinalize? || step.Lease? || step.RunAdmin?
  }

  lemma TransactionKeeps(s: Sys, step: Step)
    requires Inv(s) && IsTransaction(step)
    ensures Inv(Apply(s, step)) && Grows(s, Apply(s, step))
  {
    GrowsReflexive(s);
    if Enabled(s, step) {
      match step {
        case CreateInvoice(id, business, customer, items) => CreateStep(s, id, business, customer, items);
        case RunClaim(w, attempt) => ClaimStep(s, w, attempt);
        case PspProcess(request, decided) => ProcessStep(s, request, decided);
        case RunFinalize(w) => FinalizeStep(s, w);
        case Lease(w, ids) => LeaseStep(s, w, ids);
        case RunAdmin(w) => AdminStep(s, w);
      }
    }
  }

  lemma ReadOnlyLeavesTables(s: Sys, step: Step)
    requires !IsTransaction(step)
    ensures Apply(s, step).db == s.db && Apply(s, step).ledger == s.ledger && s.now <= Apply(s, step).now
  {
  }

  lemma ReadOnlyKeeps(s: Sys, step: Step)
    requires Inv(s) && !IsTransaction(step)
    ensures Inv(Apply(s, step))
  {
    if Enabled(s, step) {
      match step {
        case StartPay(w, business, invoice, key, token) => StartPayStep(s, w, business, invoice, key, token);
        case RunReplay(w) => ReplayStep(s, w);
        case Send(w) => SendStep(s, w);
        case Receive(w, reply) => ReceiveStep(s, w, reply);
        case FailFinalize(w) => MoveOnStep(s, w, InternalError);
        case AdminRead(_, _, _, _) => AdminReadStep(s, step);
        case Crash(w) => WorkerLeaves(s, w, ConnectionLost);
        case Advance(_) =>
      }
    }
  }

  /** Whatever happens next, the invariant holds afterwards and nothing settled has been undone. */
  lemma StepKeeps(s: Sys, step: Step)
    requires Inv(s)
    ensures Inv(Apply(s, step)) && Grows(s, Apply(s, step))
  {
    if IsTransaction(step) {
      TransactionKeeps(s, step);
    } else {
      ReadOnlyKeeps(s, step);
      ReadOnlyLeavesTables(s, step);
      GrowsReflexive(s);
    }
  }

  lemma AttemptsGrowTrans(p: map<Id, Attempt>, q: map<Id, Attempt>, r: map<Id, Attempt>)
    requires AttemptsGrow(p, q) && AttemptsGrow(q, r)
    ensures AttemptsGrow(p, r)
  {
    forall a | a in p
      ensures a in r && JobOf(a, r[a]) == JobOf(a, p[a]) && (!p[a].status.Pending? ==> r[a] == p[a])
    {
      assert a in q;
    }
  }

  /** Runs keep the invariant. Of any two states of one run, attempts, keys and ledger only moved forward. */
  lemma {:induction false} RunKeeps(s: Sys, steps: seq<Step>)
    requires Inv(s)
    ensures var t := Exec(s, steps);
            && Inv(t) && AttemptsGrow(s.db.attempts, t.db.attempts) && KeysGrow(s.db.keys, t.db.keys)
            && LedgerGrows(s.ledger, t.ledger) && s.db.events <= t.db.events && s.now <= t.now
    decreases |steps|
  {
    if steps == [] {
      GrowsReflexive(s);
    } else {
      var mid := Exec(s, steps[..|steps| - 1]);
      RunKeeps(s, steps[..|steps| - 1]);
      StepKeeps(mid, steps[|steps| - 1]);
      AttemptsGrowTrans(s.db.attempts, mid.db.attempts, Exec(s, steps).db.attempts);
    }
  }

  lemma InitOk()
    ensures Inv(Init())
  {
  }
}
