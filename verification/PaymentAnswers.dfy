/**
 What clients are told is true. Every answer a payment request ever got, first-hand or from the
 cache, is one of three: charged, declined, or still in progress with a place to poll; and a client
 told "charged" or "declined" was told what the attempt and the PSP's ledger say, for good.
 */
module PaymentAnswers {
  import opened Common
  import opened PaymentTables
  import opened PaymentProtocol
  import opened PaymentInvariant
  import opened PaymentSafety
  import opened PaymentTheorems
  import opened PaymentContent
  import opened PaymentAdmission
  import Fingerprint

  /** A fingerprint that matches a key's is one for the invoice of the key's attempt. */
  lemma DigestNamesInvoice(attempts: map<Id, Attempt>, row: KeyRow, invoice: Id, token: Text, amount: Cents)
    requires KeyFingerprinted(attempts, row) && row.attempt.Some? && row.attempt.value in attempts
    requires row.fingerprint == Fingerprint.Of(invoice, token, amount)
    ensures attempts[row.attempt.value].invoice == invoice
  {
    var at := attempts[row.attempt.value];
    Fingerprint.FingerprintDeterminesRequest(at.invoice, at.token, at.amount, invoice, token, amount);
  }

  predicate ResponseOk(attempts: map<Id, Attempt>, r: Response) {
    && r.body.attempt in attempts
    && var at := attempts[r.body.attempt];
    match r.code
    case 200 => at.pspRef.Some? && r.body == ChargedBody(r.body.attempt, at, at.pspRef.value)
    case 402 => at.failureCode.Some? && r.body == DeclinedBody(r.body.attempt, at, at.failureCode.value)
    case 202 =>
      || r.body == ProcessingBody(r.body.attempt, at)
      || r.body == StillBody(r.body.attempt, at.invoice)
    case _ => false
  }

  predicate AnswerOk(attempts: map<Id, Attempt>, a: Answer) {
    a.Replied? ==> ResponseOk(attempts, a.response)
  }

  predicate AnswersOk(s: Sys) {
    forall w :: w in s.answers ==> AnswerOk(s.db.attempts, s.answers[w])
  }

  lemma AnswerStaysOk(p: map<Id, Attempt>, q: map<Id, Attempt>, a: Answer)
    requires AttemptsGrow(p, q) && AnswerOk(p, a)
    requires forall x :: x in p ==> AttemptShape(p[x])
    ensures AnswerOk(q, a)
  {
  }

  lemma FinalizeAnswer(attempts: map<Id, Attempt>, job: Job, result: PspResult, now: Time)
    requires JobOk(attempts, job) && AttemptShape(attempts[job.attempt]) && Agrees(attempts[job.attempt], result)
    ensures AnswerOk(SettleRow(attempts, job.attempt, result, now), Replied(Respond(job, result)))
  {
  }

  lemma ReplayedAnswer(attempts: map<Id, Attempt>, id: KeyId, row: KeyRow, digest: Fingerprint.Digest, invoice: Id)
    requires KeyOk(attempts, id, row)
    requires row.fingerprint == digest ==> attempts[row.attempt.value].invoice == invoice
    ensures AnswerOk(attempts, ReplayAnswer(row, digest, invoice))
  {
  }

  lemma ReplayIsTruthful(steps: seq<Step>, w: WorkerId)
    requires Enabled(Run(steps), RunReplay(w))
    ensures var s := Run(steps);
      && var k := s.workers[w];
      && AnswerOk(s.db.attempts, ReplayAnswer(s.db.keys[KeyId(k.business, k.key)], k.fingerprint, k.invoice))
  {
    var s := Run(steps);
    var k := s.workers[w];
    var id := KeyId(k.business, k.key);
    var row := s.db.keys[id];
    RunOk(steps);
    RunFingerprints(steps);
    var n, start := ReplayingHappened(steps, w);
    assert KeyOk(s.db.attempts, id, row) && KeyFingerprinted(s.db.attempts, row);
    if row.fingerprint == k.fingerprint {
      DigestNamesInvoice(s.db.attempts, row, k.invoice, start.token, start.amount);
    }
    ReplayedAnswer(s.db.attempts, id, row, k.fingerprint, k.invoice);
  }

  lemma KeptAnswers(s: Sys, t: Sys, v: WorkerId)
    requires Inv(s) && AnswersOk(s) && AttemptsGrow(s.db.attempts, t.db.attempts)
    requires v in s.answers && v in t.answers && t.answers[v] == s.answers[v]
    ensures AnswerOk(t.db.attempts, t.answers[v])
  {
    forall x | x in s.db.attempts ensures AttemptShape(s.db.attempts[x]) {
      assert AttemptOk(s.db.invoices, s.db.keys, x, s.db.attempts[x]);
    }
    AnswerStaysOk(s.db.attempts, t.db.attempts, s.answers[v]);
  }

  /** Where a step's new answers come from. */
  predicate NewAnswer(s: Sys, step: Step, v: WorkerId, a: Answer) {
    || !a.Replied?
    || (step.RunReplay? && step.w == v && v in s.workers && s.workers[v].Replaying?
        && var id := KeyId(s.workers[v].business, s.workers[v].key);
        id in s.db.keys && a == ReplayAnswer(s.db.keys[id], s.workers[v].fingerprint, s.workers[v].invoice))
    || (step.RunFinalize? && step.w == v && v in s.workers && s.workers[v].Settling?
        && a == Replied(Respond(s.workers[v].job, s.workers[v].result)))
  }

  lemma AnswersCome(s: Sys, step: Step, v: WorkerId)
    requires v in Apply(s, step).answers
    ensures var a := Apply(s, step).answers[v];
      (v in s.answers && a == s.answers[v]) || (Enabled(s, step) && NewAnswer(s, step, v, a))
  {
    if step.RunClaim? && Enabled(s, step) {
      ClaimRepliesNothing(s, step.w, step.attempt, v);
    }
  }

  lemma ClaimRepliesNothing(s: Sys, w: WorkerId, attempt: Id, v: WorkerId)
    requires Enabled(s, RunClaim(w, attempt)) && v in DoClaim(s, w, attempt).answers
    ensures var a := DoClaim(s, w, attempt).answers[v]; !a.Replied? || (v in s.answers && a == s.answers[v])
  {
  }

  lemma JobInHand(s: Sys, w: WorkerId)
    requires Inv(s) && w in s.workers && s.workers[w].Settling?
    ensures var k := s.workers[w];
      && JobOk(s.db.attempts, k.job) && AttemptShape(s.db.attempts[k.job.attempt])
      && ResultOk(s.ledger, k.job.key, k.result)
  {
    assert WorkerOk(s.db, s.ledger, s.workers[w]);
    var a := s.workers[w].job.attempt;
    assert AttemptOk(s.db.invoices, s.db.keys, a, s.db.attempts[a]);
  }

  lemma FinalizedAttempts(s: Sys, w: WorkerId)
    requires Enabled(s, RunFinalize(w))
    ensures var k := s.workers[w];
      Apply(s, RunFinalize(w)).db.attempts == SettleRow(s.db.attempts, k.job.attempt, k.result, s.now)
  {
  }

  lemma FinalizeIsTruthful(s: Sys, w: WorkerId)
    requires Inv(s) && w in s.workers && s.workers[w].Settling?
    ensures var k := s.workers[w];
      AnswerOk(SettleRow(s.db.attempts, k.job.attempt, k.result, s.now), Replied(Respond(k.job, k.result)))
  {
    var k := s.workers[w];
    JobInHand(s, w);
    SettleAgreesWithLedger(s.db.attempts, s.ledger, k.job, k.result, s.now);
    FinalizeAnswer(s.db.attempts, k.job, k.result, s.now);
  }

  lemma AnswerStep(steps: seq<Step>, step: Step, v: WorkerId)
    requires AnswersOk(Run(steps)) && v in Apply(Run(steps), step).answers
    ensures AnswerOk(Apply(Run(steps), step).db.attempts, Apply(Run(steps), step).answers[v])
  {
    var s := Run(steps);
    var t := Apply(s, step);
    RunOk(steps);
    AnswersCome(s, step, v);
    if v in s.answers && t.answers[v] == s.answers[v] {
      StepKeeps(s, step);
      KeptAnswers(s, t, v);
    } else if step.RunFinalize? {
      FinalizeIsTruthful(s, step.w);
      FinalizedAttempts(s, step.w);
    } else if step.RunReplay? {
      ReadOnlyLeavesTables(s, step);
      ReplayIsTruthful(steps, step.w);
    }
  }

  lemma {:induction false} RunAnswers(steps: seq<Step>)
    ensures AnswersOk(Run(steps))
    decreases |steps|
  {
    if steps != [] {
      var front, last := steps[..|steps| - 1], steps[|steps| - 1];
      RunAnswers(front);
      forall v | v in Run(steps).answers ensures AnswerOk(Run(steps).db.attempts, Run(steps).answers[v]) {
        AnswerStep(front, last, v);
      }
    }
  }

  /**
   In every run, every reply that a client ever got, first-hand or from the cache, is a 200, a 402 or a
   202, word for word. A 200 says that the invoice is paid and names a charge that the ledger holds
   under the attempt's key; a 402 says that it is open and names a refusal that the ledger holds; a 202
   says that it is open and where to poll the attempt.
   */
  lemma ClientsAreToldTheTruth(steps: seq<Step>, w: WorkerId)
    requires w in Run(steps).answers && Run(steps).answers[w].Replied?
    ensures var s := Run(steps);
      && var r := s.answers[w].response;
      && var a := r.body.attempt;
      && a in s.db.attempts
      && var at := s.db.attempts[a];
      match r.code
      case 200 =>
        && at.status.Succeeded? && at.key in s.ledger && s.ledger[at.key].verdict.Success?
        && r.body == ChargedBody(a, at, s.ledger[at.key].verdict.pspRef)
      case 402 =>
        && at.status.Failed? && at.key in s.ledger && s.ledger[at.key].verdict.Failure?
        && r.body == DeclinedBody(a, at, s.ledger[at.key].verdict.code)
      case 202 => r.body == ProcessingBody(a, at) || r.body == StillBody(a, at.invoice)
      case _ => false
  {
    RunAnswers(steps);
    RunOk(steps);
    var s := Run(steps);
    var a := s.answers[w].response.body.attempt;
    assert AnswerOk(s.db.attempts, s.answers[w]);
    assert AttemptOk(s.db.invoices, s.db.keys, a, s.db.attempts[a]);
    assert SettledOk(s.ledger, s.db.attempts[a]);
  }
}
