/**
 What each step does in every run, down to the last field: which of its answers transaction 1 gives
 and when, what a finalize and an admin update write, what the PSP records. Each statement speaks of
 the rows before and after, and of the history that led to the step.
 */
module PaymentEffects {
  import opened Common
  import opened InvoiceLifecycle
  import opened PaymentTables
  import opened PaymentProtocol
  import opened PaymentInvariant
  import opened PaymentTheorems
  import opened PaymentRetry
  import opened PaymentAdmission
  import Fingerprint

  lemma OneMore(steps: seq<Step>, step: Step)
    ensures Run(steps + [step]) == Apply(Run(steps), step)
  {
    assert (steps + [step])[..|steps|] == steps;
  }

  // ---- Transaction 1 ----

  /** Some attempt on the invoice is pending or has succeeded. */
  predicate UnderWay(attempts: map<Id, Attempt>, invoice: Id) {
    exists a :: a in attempts && attempts[a].invoice == invoice && attempts[a].status in {Pending, Succeeded}
  }

  predicate SameOutside(s: Sys, t: Sys) {
    t.now == s.now && t.ledger == s.ledger && t.sent == s.sent && t.replies == s.replies
  }

  /** The request was refused with this code, and that is all that happened. */
  predicate Refused(s: Sys, t: Sys, w: WorkerId, code: string) {
    t == s.(workers := s.workers - {w}, answers := s.answers[w := Conflict(code)])
  }

  lemma ClaimCases(s: Sys, w: WorkerId, attempt: Id)
    requires Enabled(s, RunClaim(w, attempt))
    ensures var k, t := s.workers[w], DoClaim(s, w, attempt);
      if KeyId(k.business, k.key) in s.db.keys then
        t == Becomes(s, w, Replaying(k.business, k.invoice, k.key, Fingerprint.Of(k.invoice, k.token, k.amount)))
      else if k.seen != Open then Refused(s, t, w, "invoice_not_payable")
      else if UnderWay(s.db.attempts, k.invoice) then Refused(s, t, w, "payment_in_progress")
      else Admitted(s, t, w, attempt)
  {
    var k := s.workers[w];
    if UnderWay(s.db.attempts, k.invoice) {
      var a :| a in s.db.attempts && s.db.attempts[a].invoice == k.invoice
               && s.db.attempts[a].status in {Pending, Succeeded};
      assert Active(s.db.attempts[a]);
    }
  }

  /** The request claimed its key and inserted its attempt, and nothing else changed. */
  predicate Admitted(s: Sys, t: Sys, w: WorkerId, attempt: Id)
    requires w in s.workers && s.workers[w].PayRead?
  {
    var k := s.workers[w];
    var at := Attempt(k.invoice, k.business, k.key, k.amount, k.token, Pending, None, None, None, 1, None);
    var row := KeyRow(Fingerprint.Of(k.invoice, k.token, k.amount), false, Some(attempt), None);
    && SameOutside(s, t) && t.answers == s.answers
    && t.db.invoices == s.db.invoices && t.db.events == s.db.events
    && t.db.attempts == s.db.attempts[attempt := at] && t.db.keys == s.db.keys[KeyId(k.business, k.key) := row]
    && t.workers == s.workers[w := Calling(Job(k.business, k.invoice, attempt, k.key, k.token, k.amount), [], true)]
  }

  /**
   In every run transaction 1 decides, in this order: a used key is replayed; a request that at its
   earlier read found the invoice not open is refused as not payable; one that comes while another
   attempt is pending or has succeeded is refused as in progress; any other is admitted.
   */
  lemma ClaimDecides(steps: seq<Step>, w: WorkerId, attempt: Id) returns (n: nat)
    requires Enabled(Run(steps), RunClaim(w, attempt))
    ensures var s, t := Run(steps), Run(steps + [RunClaim(w, attempt)]);
      && var k := s.workers[w];
      && ReadAt(steps, n, w, k)
      && var read := Run(steps[..n]).db.invoices[k.invoice].state;
      && if KeyId(k.business, k.key) in s.db.keys then
           t == Becomes(s, w, Replaying(k.business, k.invoice, k.key, Fingerprint.Of(k.invoice, k.token, k.amount)))
         else if read != Open then Refused(s, t, w, "invoice_not_payable")
         else if UnderWay(s.db.attempts, k.invoice) then Refused(s, t, w, "payment_in_progress")
         else Admitted(s, t, w, attempt)
  {
    OneMore(steps, RunClaim(w, attempt));
    ClaimCases(Run(steps), w, attempt);
    n := ReadHappened(steps, w);
  }

  // ---- Transaction 2 ----

  function Completed(keys: map<KeyId, KeyRow>, id: KeyId, code: nat, body: Body): map<KeyId, KeyRow>
    requires id in keys
  {
    keys[id := KeyRow(keys[id].fingerprint, true, keys[id].attempt, Some(Response(code, body)))]
  }

  /** A success: the attempt if still pending, the invoice if still open, the event and the key. */
  predicate SettlesCharged(s: Sys, q: Db, a: Id, ref: Text) {
    && a in s.db.attempts
    && var at := s.db.attempts[a];
    && var id := KeyId(at.business, at.key);
    && at.invoice in s.db.invoices && id in s.db.keys
    && var inv := s.db.invoices[at.invoice];
    && q.attempts
       == s.db.attempts[a := if at.status == Pending then at.(status := Succeeded, pspRef := Some(ref)) else at]
    && q.invoices == s.db.invoices[at.invoice :=
         if inv.state == Open then inv.(state := Paid, paidAt := Some(s.now), version := inv.version + 1) else inv]
    && q.events == s.db.events + [PaymentOutcome(at.business, at.invoice, a, Succeeded, at.amount, None)]
    && q.keys == Completed(s.db.keys, id, 200, ChargedBody(a, at, ref))
  }

  /** A refusal: the attempt if still pending, the event and the key; the invoice stays as it is. */
  predicate SettlesDeclined(s: Sys, q: Db, a: Id, code: Text) {
    && a in s.db.attempts
    && var at := s.db.attempts[a];
    && var id := KeyId(at.business, at.key);
    && id in s.db.keys && q.invoices == s.db.invoices
    && q.attempts
       == s.db.attempts[a := if at.status == Pending then at.(status := Failed, failureCode := Some(code)) else at]
    && q.events == s.db.events + [PaymentOutcome(at.business, at.invoice, a, Failed, at.amount, Some(code))]
    && q.keys == Completed(s.db.keys, id, 402, DeclinedBody(a, at, code))
  }

  /** No verdict: a pending attempt is to be polled again in five seconds, and nothing else changes. */
  predicate SettlesNothing(s: Sys, q: Db, a: Id, reason: string) {
    && a in s.db.attempts
    && var at := s.db.attempts[a];
    && q.invoices == s.db.invoices && q.keys == s.db.keys && q.events == s.db.events
    && q.attempts == s.db.attempts[a :=
         if at.status == Pending
         then at.(lastError := Some(reason), attemptCount := at.attemptCount + 1, nextPollAt := Some(s.now + 5))
         else at]
  }

  lemma FinalizeCases(s: Sys, job: Job, result: PspResult)
    requires job.attempt in s.db.attempts && job == JobOf(job.attempt, s.db.attempts[job.attempt])
    requires job.invoice in s.db.invoices && KeyId(job.business, job.key) in s.db.keys
    ensures var q := FinalizeTx(s.db, job, result, s.now);
      match result
      case Charged(ref) => SettlesCharged(s, q, job.attempt, ref)
      case Declined(code) => SettlesDeclined(s, q, job.attempt, code)
      case Unknown(reason) => SettlesNothing(s, q, job.attempt, reason)
  {
  }

  /** What the client of a first-hand finalize is told. */
  function FirstHand(a: Id, at: Attempt, result: PspResult): Response {
    match result
    case Charged(ref) => Response(200, ChargedBody(a, at, ref))
    case Declined(code) => Response(402, DeclinedBody(a, at, code))
    case Unknown(_) => Response(202, ProcessingBody(a, at))
  }

  /** In every run, exactly this is what a finalize writes, and what it tells its client. */
  lemma FinalizeWrites(steps: seq<Step>, w: WorkerId)
    requires Enabled(Run(steps), RunFinalize(w))
    ensures var s, t := Run(steps), Run(steps + [RunFinalize(w)]);
      && var k := s.workers[w];
      && var a := k.job.attempt;
      && SameOutside(s, t) && a in s.db.attempts
      && (match k.result
          case Charged(ref) => SettlesCharged(s, t.db, a, ref)
          case Declined(code) => SettlesDeclined(s, t.db, a, code)
          case Unknown(reason) => SettlesNothing(s, t.db, a, reason))
      && (k.rest == [] ==>
            && t.workers == s.workers - {w}
            && t.answers == if k.client then s.answers[w := Replied(FirstHand(a, s.db.attempts[a], k.result))]
                            else s.answers)
  {
    var s := Run(steps);
    var k := s.workers[w];
    RunOk(steps);
    OneMore(steps, RunFinalize(w));
    assert WorkerOk(s.db, s.ledger, k);
    assert AttemptOk(s.db.invoices, s.db.keys, k.job.attempt, s.db.attempts[k.job.attempt]);
    FinalizeCases(s, k.job, k.result);
    FinalizeFrame(s, w);
  }

  lemma FinalizeFrame(s: Sys, w: WorkerId)
    requires Enabled(s, RunFinalize(w)) && s.workers[w].job.attempt in s.db.attempts
    requires s.workers[w].job == JobOf(s.workers[w].job.attempt, s.db.attempts[s.workers[w].job.attempt])
    ensures var k, t := s.workers[w], DoFinalize(s, w);
      && t.db == FinalizeTx(s.db, k.job, k.result, s.now) && SameOutside(s, t)
      && (k.rest == [] ==>
            && t.workers == s.workers - {w}
            && t.answers == if k.client
                 then s.answers[w := Replied(FirstHand(k.job.attempt, s.db.attempts[k.job.attempt], k.result))]
                 else s.answers)
  {
  }

  /**
   A finalize that fails writes nothing: its client is told of an internal error, a batch goes on with
   its next job. A crash writes nothing either, and drops the whole of its worker's work.
   */
  lemma FailureWritesNothing(steps: seq<Step>, w: WorkerId)
    requires w in Run(steps).workers
    ensures var s, t, u := Run(steps), Run(steps + [FailFinalize(w)]), Run(steps + [Crash(w)]);
      && var k := s.workers[w];
      && t.db == s.db && SameOutside(s, t)
      && u == s.(workers := s.workers - {w}, answers := s.answers[w := ConnectionLost])
      && (k.Settling? ==>
            if k.rest != [] then t == Becomes(s, w, Calling(k.rest[0], k.rest[1..], k.client))
            else t == s.(workers := s.workers - {w},
                         answers := if k.client then s.answers[w := InternalError] else s.answers))
  {
    OneMore(steps, FailFinalize(w));
    OneMore(steps, Crash(w));
  }

  // ---- The reconciler's lease ----

  /** The `n`th job of a batch worker. */
  function JobAt(k: Worker, n: nat): Job
    requires k.Calling? && n <= |k.rest|
  {
    if n == 0 then k.job else k.rest[n - 1]
  }

  /** A lease pushes the next poll of its attempts out by thirty seconds and takes up one job for each, in order. */
  lemma LeaseWrites(steps: seq<Step>, w: WorkerId, ids: seq<Id>)
    requires Enabled(Run(steps), Lease(w, ids))
    ensures var s, t := Run(steps), Run(steps + [Lease(w, ids)]);
      && SameOutside(s, t) && t.answers == s.answers
      && t.db.invoices == s.db.invoices && t.db.keys == s.db.keys && t.db.events == s.db.events
      && t.db.attempts.Keys == s.db.attempts.Keys
      && (forall a :: a in s.db.attempts ==>
            t.db.attempts[a]
            == if a in ids then s.db.attempts[a].(nextPollAt := Some(s.now + 30)) else s.db.attempts[a])
      && w in t.workers && t.workers == s.workers[w := t.workers[w]]
      && var k := t.workers[w];
      && k.Calling? && !k.client && |k.rest| == |ids| - 1
      && forall n :: 0 <= n < |ids| ==>
           && ids[n] in s.db.attempts
           && var at := s.db.attempts[ids[n]];
           && JobAt(k, n) == Job(at.business, at.invoice, ids[n], at.key, at.token, at.amount)
  {
    var s := Run(steps);
    OneMore(steps, Lease(w, ids));
    forall n | 0 <= n < |ids| ensures ids[n] in s.db.attempts {
      assert ids[n] in ids;
    }
  }

  // ---- Admin updates ----

  /** An admin may ask for a state exactly in these four cases. */
  lemma AdminMayAsk(s: Sys, w: WorkerId, business: Id, i: Id, to: InvoiceState)
    ensures Enabled(s, AdminRead(w, business, i, to))
            <==> && NewWorker(s, w) && i in s.db.invoices && s.db.invoices[i].business == business
                 && (s.db.invoices[i].state, to) in {(Draft, Open), (Draft, Void), (Open, Void), (Open, Uncollectible)}
  {
  }

  /** At the `n`th step, the admin call asked for state `k.to` and found the invoice as `k.seen`. */
  ghost predicate AskedAt(steps: seq<Step>, n: nat, w: WorkerId, k: Worker) {
    && k.Deciding? && n < |steps| && steps[n] == AdminRead(w, k.business, k.invoice, k.to)
    && var db := Run(steps[..n]).db;
    && k.invoice in db.invoices && db.invoices[k.invoice].business == k.business
    && db.invoices[k.invoice].state == k.seen
  }

  lemma DecidingComes(s: Sys, step: Step, w: WorkerId)
    requires w in Apply(s, step).workers && Apply(s, step).workers[w].Deciding?
    ensures var k := Apply(s, step).workers[w];
      || (w in s.workers && s.workers[w] == k)
      || (&& step == AdminRead(w, k.business, k.invoice, k.to)
          && k.invoice in s.db.invoices && s.db.invoices[k.invoice].business == k.business
          && s.db.invoices[k.invoice].state == k.seen)
  {
    if Actor(step) != Some(w) {
      OthersLeaveAlone(s, step, w);
    }
  }

  lemma {:induction false} AskHappened(steps: seq<Step>, w: WorkerId) returns (n: nat)
    requires w in Run(steps).workers && Run(steps).workers[w].Deciding?
    ensures AskedAt(steps, n, w, Run(steps).workers[w])
    decreases |steps|
  {
    var front, last := steps[..|steps| - 1], steps[|steps| - 1];
    DecidingComes(Run(front), last, w);
    if w in Run(front).workers && Run(front).workers[w] == Run(steps).workers[w] {
      n := AskHappened(front, w);
      assert front[..n] == steps[..n];
    } else {
      n := |front|;
    }
  }

  /** The invoice moved to state `to`, with the stamps that go with it. */
  function Moved(inv: Invoice, to: InvoiceState, now: Time): Invoice {
    Invoice(inv.business, inv.customer, to, inv.items, inv.total,
            if to == Open then Some(now) else inv.finalizedAt,
            inv.paidAt,
            if to == Void then Some(now) else inv.voidedAt,
            inv.version + 1)
  }

  lemma AdminCases(s: Sys, w: WorkerId)
    requires Enabled(s, RunAdmin(w)) && s.workers[w].invoice in s.db.invoices
    requires s.db.invoices[s.workers[w].invoice].business == s.workers[w].business
    ensures var k, t := s.workers[w], DoAdmin(s, w);
      && var inv := s.db.invoices[k.invoice];
      && SameOutside(s, t) && t.workers == s.workers - {w} && t.answers == s.answers
      && t.db == if inv.state == k.seen
                 then s.db.(invoices := s.db.invoices[k.invoice := Moved(inv, k.to, s.now)]) else s.db
  {
    var k := s.workers[w];
    var inv := s.db.invoices[k.invoice];
    assert inv.state != k.seen ==> s.db.invoices[k.invoice := inv] == s.db.invoices;
  }

  /**
   In every run, an admin update that still finds the invoice as it was read leaves it in exactly the
   state that was asked for, stamped accordingly; any other changes nothing.
   */
  lemma AdminDecides(steps: seq<Step>, w: WorkerId) returns (n: nat)
    requires Enabled(Run(steps), RunAdmin(w))
    ensures var s, t := Run(steps), Run(steps + [RunAdmin(w)]);
      && var k := s.workers[w];
      && AskedAt(steps, n, w, k) && k.invoice in s.db.invoices
      && var read, inv := Run(steps[..n]).db.invoices[k.invoice].state, s.db.invoices[k.invoice];
      && SameOutside(s, t) && t.workers == s.workers - {w} && t.answers == s.answers
      && t.db == if inv.state == read
                 then s.db.(invoices := s.db.invoices[k.invoice := Moved(inv, steps[n].to, s.now)]) else s.db
  {
    RunOk(steps);
    OneMore(steps, RunAdmin(w));
    assert WorkerOk(Run(steps).db, Run(steps).ledger, Run(steps).workers[w]);
    AdminCases(Run(steps), w);
    n := AskHappened(steps, w);
  }

  // ---- The PSP ----

  /**
   In every run, a request that reaches the PSP carries the key, token and amount of the attempt it
   was sent for; a known key is answered from its entry; a new one is recorded as decided, if at all.
   */
  lemma PspDecides(steps: seq<Step>, r: Request, decided: Option<Verdict>)
    requires r in Run(steps).sent
    ensures var s, t := Run(steps), Run(steps + [PspProcess(r, decided)]);
      && r.origin in s.db.attempts
      && var at := s.db.attempts[r.origin];
      && r == Request(at.key, at.token, at.amount, r.origin)
      && t.db == s.db && t.workers == s.workers && t.answers == s.answers && t.sent == s.sent && t.now == s.now
      && if at.key in s.ledger then
           t.ledger == s.ledger && t.replies == s.replies + {PspReply(at.key, s.ledger[at.key].verdict)}
         else if decided == None then t == s
         else && t.ledger == s.ledger[at.key := Charge(decided.value, at.token, at.amount, r.origin)]
              && t.replies == s.replies + {PspReply(at.key, decided.value)}
  {
    RunOk(steps);
    OneMore(steps, PspProcess(r, decided));
  }
}
