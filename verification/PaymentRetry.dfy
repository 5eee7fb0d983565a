/**
 Retrying a request whose key has completed: over every continuation of every run the retry is
 answered from the cache, whatever the invoice's state, and never reaches the tables or the PSP.
 */
module PaymentRetry {
  import opened Common
  import opened PaymentTables
  import opened PaymentProtocol
  import opened PaymentInvariant
  import opened PaymentSafety
  import opened PaymentTheorems
  import opened PaymentContent
  import Fingerprint

  /** The worker a step belongs to; the PSP, creation and the clock belong to none. */
  function Actor(step: Step): Option<WorkerId> {
    match step
    case CreateInvoice(_, _, _, _) => None
    case PspProcess(_, _) => None
    case Advance(_) => None
    case _ => Some(step.w)
  }

  predicate SameFor(s: Sys, t: Sys, w: WorkerId) {
    && (w in t.workers <==> w in s.workers) && (w in s.workers ==> t.workers[w] == s.workers[w])
    && (w in t.answers <==> w in s.answers) && (w in s.answers ==> t.answers[w] == s.answers[w])
  }

  lemma ClaimLeavesOthersAlone(s: Sys, v: WorkerId, attempt: Id, w: WorkerId)
    requires v != w && Enabled(s, RunClaim(v, attempt))
    ensures SameFor(s, DoClaim(s, v, attempt), w)
  {
  }

  lemma MoveOnLeavesOthersAlone(s: Sys, v: WorkerId, answer: Answer, w: WorkerId)
    requires v != w && v in s.workers && s.workers[v].Settling?
    ensures SameFor(s, MoveOn(s, v, answer), w)
  {
  }

  /** Steps of others leave a worker and its answer alone. */
  lemma OthersLeaveAlone(s: Sys, step: Step, w: WorkerId)
    requires Actor(step) != Some(w)
    ensures SameFor(s, Apply(s, step), w)
  {
    if Enabled(s, step) {
      match step {
        case RunClaim(v, attempt) => ClaimLeavesOthersAlone(s, v, attempt, w);
        case RunFinalize(v) =>
          var k := s.workers[v];
          var t := s.(db := FinalizeTx(s.db, k.job, k.result, s.now));
          MoveOnLeavesOthersAlone(t, v, Replied(Respond(k.job, k.result)), w);
        case FailFinalize(v) => MoveOnLeavesOthersAlone(s, v, InternalError, w);
        case _ =>
      }
    }
  }

  /** A retry of a key whose row is `row`, part-way through. */
  ghost predicate Retrying(s: Sys, w: WorkerId, start: Worker, row: KeyRow)
    requires start.PayRead?
  {
    var id := KeyId(start.business, start.key);
    var digest := Fingerprint.Of(start.invoice, start.token, start.amount);
    && id in s.db.keys && s.db.keys[id] == row
    && (w in s.workers || w in s.answers)
    && (w in s.workers ==>
          || s.workers[w] == start
          || s.workers[w] == Replaying(start.business, start.invoice, start.key, digest))
    && (w in s.answers ==> s.answers[w] == ConnectionLost || s.answers[w] == ReplayAnswer(row, digest, start.invoice))
  }

  lemma RetryActs(s: Sys, w: WorkerId, start: Worker, row: KeyRow, step: Step)
    requires start.PayRead? && Retrying(s, w, start, row) && Actor(step) == Some(w)
    ensures Retrying(Apply(s, step), w, start, row)
    ensures Apply(s, step).db == s.db && Apply(s, step).sent == s.sent
  {
  }

  lemma RetryStep(s: Sys, w: WorkerId, start: Worker, row: KeyRow, step: Step)
    requires Inv(s) && start.PayRead? && Retrying(s, w, start, row) && row.completed
    ensures Retrying(Apply(s, step), w, start, row)
  {
    if Actor(step) == Some(w) {
      RetryActs(s, w, start, row, step);
    } else {
      OthersLeaveAlone(s, step, w);
      StepKeeps(s, step);
      assert KeysGrow(s.db.keys, Apply(s, step).db.keys);
    }
  }

  lemma {:induction false} RetryRuns(s: Sys, w: WorkerId, start: Worker, row: KeyRow, steps: seq<Step>)
    requires Inv(s) && start.PayRead? && Retrying(s, w, start, row) && row.completed
    ensures Retrying(Exec(s, steps), w, start, row)
    decreases |steps|
  {
    if steps != [] {
      var front := steps[..|steps| - 1];
      RetryRuns(s, w, start, row, front);
      RunKeeps(s, front);
      RetryStep(Exec(s, front), w, start, row, steps[|steps| - 1]);
    }
  }

  /**
   After a key has completed, a request under that key for the same invoice and token is answered
   with the cached response, and one for anything else is refused; neither ever calls the PSP.
   */
  lemma RetryIsAnsweredFromCache(p: seq<Step>, q: seq<Step>, w: WorkerId, business: Id, i: Id, key: Key, token: Text)
    requires NewWorker(Run(p), w) && !IsBlank(token)
    requires KeyId(business, key) in Run(p).db.keys && Run(p).db.keys[KeyId(business, key)].completed
    requires i in Run(p).db.invoices && Run(p).db.invoices[i].business == business
    ensures var row := Run(p).db.keys[KeyId(business, key)];
      && row.attempt.Some? && row.attempt.value in Run(p).db.attempts && row.response.Some?
      && var at := Run(p).db.attempts[row.attempt.value];
      && var want := if i == at.invoice && token == at.token then Replied(row.response.value)
                     else Conflict("idempotency_key_reuse");
      && var t := Run(p + [StartPay(w, business, i, key, token)] + q);
      && (w in t.workers ==> t.workers[w].PayRead? || t.workers[w].Replaying?)
      && (w in t.answers ==> t.answers[w] == want || t.answers[w] == ConnectionLost)
      && (w in t.workers || w in t.answers)
  {
    var s, first := Run(p), StartPay(w, business, i, key, token);
    var row := s.db.keys[KeyId(business, key)];
    var start := PayRead(business, i, key, token, s.db.invoices[i].state, s.db.invoices[i].total);
    RunOk(p);
    WantedAnswer(p, business, key, i, token);
    ExecConcat(Init(), p, [first]);
    ExecConcat(Init(), p + [first], q);
    assert Exec(s, [first]) == Apply(s, first) == Becomes(s, w, start);
    ReadOnlyKeeps(s, first);
    ReadOnlyLeavesTables(s, first);
    RetryRuns(Apply(s, first), w, start, row, q);
  }

  lemma WantedAnswer(p: seq<Step>, business: Id, key: Key, i: Id, token: Text)
    requires KeyId(business, key) in Run(p).db.keys && Run(p).db.keys[KeyId(business, key)].completed
    requires i in Run(p).db.invoices
    ensures var db := Run(p).db;
      && var row := db.keys[KeyId(business, key)];
      && row.attempt.Some? && row.attempt.value in db.attempts && row.response.Some?
      && var at := db.attempts[row.attempt.value];
      && ReplayAnswer(row, Fingerprint.Of(i, token, db.invoices[i].total), i)
         == if i == at.invoice && token == at.token then Replied(row.response.value)
            else Conflict("idempotency_key_reuse")
  {
    RunOk(p);
    KeyIsComplete(Run(p), KeyId(business, key));
    SameRequestSameDigest(p, KeyId(business, key), i, token);
  }

  // ---- Retrying a key that may still be in progress ----

  /** What a retry may have been told: still in progress, or what the key was completed with. */
  predicate Fits(row: KeyRow, digest: Fingerprint.Digest, invoice: Id, a: Answer) {
    || a == ConnectionLost
    || a == ReplayAnswer(row.(completed := false), digest, invoice)
    || (row.completed && a == ReplayAnswer(row, digest, invoice))
  }

  ghost predicate Following(s: Sys, w: WorkerId, start: Worker)
    requires start.PayRead?
  {
    var id := KeyId(start.business, start.key);
    var digest := Fingerprint.Of(start.invoice, start.token, start.amount);
    && id in s.db.keys
    && (w in s.workers || w in s.answers)
    && (w in s.workers ==>
          || s.workers[w] == start
          || s.workers[w] == Replaying(start.business, start.invoice, start.key, digest))
    && (w in s.answers ==> Fits(s.db.keys[id], digest, start.invoice, s.answers[w]))
  }

  lemma FollowingActs(s: Sys, w: WorkerId, start: Worker, step: Step)
    requires start.PayRead? && Following(s, w, start) && Actor(step) == Some(w)
    ensures Following(Apply(s, step), w, start) && Apply(s, step).db == s.db && Apply(s, step).sent == s.sent
  {
  }

  lemma FollowingStep(s: Sys, w: WorkerId, start: Worker, step: Step)
    requires Inv(s) && start.PayRead? && Following(s, w, start)
    ensures Following(Apply(s, step), w, start)
  {
    if Actor(step) == Some(w) {
      FollowingActs(s, w, start, step);
    } else {
      OthersLeaveAlone(s, step, w);
      StepKeeps(s, step);
      FollowingStays(s, Apply(s, step), w, start);
    }
  }

  lemma FollowingStays(s: Sys, t: Sys, w: WorkerId, start: Worker)
    requires start.PayRead? && Following(s, w, start) && SameFor(s, t, w) && KeysGrow(s.db.keys, t.db.keys)
    ensures Following(t, w, start)
  {
  }

  lemma {:induction false} FollowingRuns(s: Sys, w: WorkerId, start: Worker, steps: seq<Step>)
    requires Inv(s) && start.PayRead? && Following(s, w, start)
    ensures Following(Exec(s, steps), w, start)
    decreases |steps|
  {
    if steps != [] {
      var front := steps[..|steps| - 1];
      FollowingRuns(s, w, start, front);
      RunKeeps(s, front);
      FollowingStep(Exec(s, front), w, start, steps[|steps| - 1]);
    }
  }

  /** The 202 of a request under a key whose attempt is still pending. */
  predicate StillProcessing(a: Answer, invoice: Id, attempt: Id) {
    a == Replied(Response(202, StillBody(attempt, invoice)))
  }

  /**
   A request under a key already in use is told, over every continuation, exactly one of: that the
   attempt is still pending and where to poll it; what the key was completed with; or, if invoice or
   token differ, that the key was reused. It never starts a second attempt.
   */
  lemma RetryIsNeverASecondAttempt(p: seq<Step>, q: seq<Step>, w: WorkerId, business: Id, i: Id, key: Key, token: Text)
    requires NewWorker(Run(p), w) && !IsBlank(token) && KeyId(business, key) in Run(p).db.keys
    requires i in Run(p).db.invoices && Run(p).db.invoices[i].business == business
    ensures var row := Run(p).db.keys[KeyId(business, key)];
      && row.attempt.Some? && row.attempt.value in Run(p).db.attempts
      && var at := Run(p).db.attempts[row.attempt.value];
      && var t := Run(p + [StartPay(w, business, i, key, token)] + q);
      && KeyId(business, key) in t.db.keys
      && var later := t.db.keys[KeyId(business, key)];
      && (w in t.workers ==> t.workers[w].PayRead? || t.workers[w].Replaying?)
      && (w in t.answers ==>
            || t.answers[w] == ConnectionLost
            || if i == at.invoice && token == at.token
               then StillProcessing(t.answers[w], i, row.attempt.value)
                    || (later.completed && later.response.Some? && t.answers[w] == Replied(later.response.value))
               else t.answers[w] == Conflict("idempotency_key_reuse"))
  {
    var s, first := Run(p), StartPay(w, business, i, key, token);
    var id := KeyId(business, key);
    var start := PayRead(business, i, key, token, s.db.invoices[i].state, s.db.invoices[i].total);
    RunOk(p);
    SameRequestSameDigest(p, id, i, token);
    ExecConcat(Init(), p, [first]);
    ExecConcat(Init(), p + [first], q);
    assert Exec(s, [first]) == Apply(s, first) == Becomes(s, w, start);
    ReadOnlyKeeps(s, first);
    ReadOnlyLeavesTables(s, first);
    FollowingRuns(Apply(s, first), w, start, q);
    RunKeeps(Apply(s, first), q);
    var t := Exec(Apply(s, first), q);
    KeyIsComplete(t, id);
    if w in t.answers {
      FittingAnswer(s.db.keys[id], t.db.keys[id], Fingerprint.Of(i, token, start.amount), i, t.answers[w]);
    }
  }

  lemma FittingAnswer(row: KeyRow, later: KeyRow, digest: Fingerprint.Digest, i: Id, a: Answer)
    requires Fits(later, digest, i, a) && row.attempt.Some? && (later.completed <==> later.response.Some?)
    requires later.fingerprint == row.fingerprint && later.attempt == row.attempt
    ensures || a == ConnectionLost
            || if row.fingerprint == digest
               then StillProcessing(a, i, row.attempt.value)
                    || (later.completed && later.response.Some? && a == Replied(later.response.value))
               else a == Conflict("idempotency_key_reuse")
  {
  }

  lemma KeyIsComplete(s: Sys, id: KeyId)
    requires Inv(s) && id in s.db.keys
    ensures s.db.keys[id].attempt.Some? && s.db.keys[id].attempt.value in s.db.attempts
    ensures s.db.keys[id].completed <==> s.db.keys[id].response.Some?
  {
    assert KeyOk(s.db.attempts, id, s.db.keys[id]);
  }

  lemma SameRequestSameDigest(p: seq<Step>, id: KeyId, i: Id, token: Text)
    requires id in Run(p).db.keys && i in Run(p).db.invoices
    ensures var db := Run(p).db;
      && db.keys[id].attempt.Some? && db.keys[id].attempt.value in db.attempts
      && var at := db.attempts[db.keys[id].attempt.value];
      && (db.keys[id].fingerprint == Fingerprint.Of(i, token, db.invoices[i].total)
          <==> i == at.invoice && token == at.token)
  {
    var db := Run(p).db;
    RunOk(p);
    RunFingerprints(p);
    var row := db.keys[id];
    KeyIsComplete(Run(p), id);
    var at := db.attempts[row.attempt.value];
    assert AttemptOk(db.invoices, db.keys, row.attempt.value, at);
    assert KeyFingerprinted(db.attempts, row);
    Fingerprint.FingerprintDeterminesRequest(at.invoice, at.token, at.amount, i, token, db.invoices[i].total);
  }
}
