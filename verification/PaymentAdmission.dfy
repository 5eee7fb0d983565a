/**
 Who may start a payment: a new attempt comes only from a request that read its invoice as open,
 under a key its business had not used, while no other attempt was active. A request that read the
 invoice in any other state never reaches the PSP.
 */
module PaymentAdmission {
  import opened Common
  import opened PaymentTables
  import opened PaymentProtocol
  import opened PaymentInvariant
  import opened PaymentSafety
  import opened PaymentTheorems
  import opened PaymentContent
  import opened PaymentRetry
  import Fingerprint

  lemma ClaimAdmits(s: Sys, w: WorkerId, attempt: Id, a: Id)
    requires Enabled(s, RunClaim(w, attempt)) && a !in s.db.attempts && a in DoClaim(s, w, attempt).db.attempts
    ensures var k, t := s.workers[w], DoClaim(s, w, attempt);
      && a == attempt && k.seen.Open? && !Pinned(s.db.attempts, k.invoice) && KeyId(k.business, k.key) !in s.db.keys
      && JobOf(a, t.db.attempts[a]) == Job(k.business, k.invoice, a, k.key, k.token, k.amount)
      && t.db.attempts[a].status.Pending?
  {
  }

  /** At the `n`th step, request `k` read its invoice: as it then was, in the state and with the total it remembers. */
  ghost predicate ReadAt(steps: seq<Step>, n: nat, w: WorkerId, k: Worker) {
    && k.PayRead? && n < |steps| && steps[n] == StartPay(w, k.business, k.invoice, k.key, k.token)
    && !IsBlank(k.token)
    && var db := Run(steps[..n]).db;
    && k.invoice in db.invoices && db.invoices[k.invoice].business == k.business
    && db.invoices[k.invoice].state == k.seen && db.invoices[k.invoice].total == k.amount
  }

  lemma PayReadComes(s: Sys, step: Step, w: WorkerId)
    requires w in Apply(s, step).workers && Apply(s, step).workers[w].PayRead?
    ensures var k := Apply(s, step).workers[w];
      || (w in s.workers && s.workers[w] == k)
      || (&& step == StartPay(w, k.business, k.invoice, k.key, k.token) && !IsBlank(k.token)
          && k.invoice in s.db.invoices && s.db.invoices[k.invoice].business == k.business
          && s.db.invoices[k.invoice].state == k.seen && s.db.invoices[k.invoice].total == k.amount)
  {
    if Actor(step) != Some(w) {
      OthersLeaveAlone(s, step, w);
    }
  }

  /** What a request remembers about its invoice, it read. */
  lemma {:induction false} ReadHappened(steps: seq<Step>, w: WorkerId) returns (n: nat)
    requires w in Run(steps).workers && Run(steps).workers[w].PayRead?
    ensures ReadAt(steps, n, w, Run(steps).workers[w])
    decreases |steps|
  {
    var front, last := steps[..|steps| - 1], steps[|steps| - 1];
    PayReadComes(Run(front), last, w);
    if w in Run(front).workers && Run(front).workers[w] == Run(steps).workers[w] {
      n := ReadHappened(front, w);
      assert front[..n] == steps[..n];
    } else {
      n := |front|;
    }
  }

  lemma ReplayingComes(s: Sys, step: Step, w: WorkerId)
    requires w in Apply(s, step).workers && Apply(s, step).workers[w].Replaying?
    ensures var r := Apply(s, step).workers[w];
      || (w in s.workers && s.workers[w] == r)
      || (&& w in s.workers && s.workers[w].PayRead?
          && var k := s.workers[w];
          && r == Replaying(k.business, k.invoice, k.key, Fingerprint.Of(k.invoice, k.token, k.amount)))
  {
    if Actor(step) != Some(w) {
      OthersLeaveAlone(s, step, w);
    } else if step.RunClaim? && Enabled(s, step) {
      assert Apply(s, step) == DoClaim(s, w, step.attempt);
    }
  }

  /** A replaying request carries the fingerprint of what it asked for and read. */
  lemma {:induction false} ReplayingHappened(steps: seq<Step>, w: WorkerId) returns (n: nat, k: Worker)
    requires w in Run(steps).workers && Run(steps).workers[w].Replaying?
    ensures ReadAt(steps, n, w, k)
    ensures Run(steps).workers[w]
            == Replaying(k.business, k.invoice, k.key, Fingerprint.Of(k.invoice, k.token, k.amount))
    decreases |steps|
  {
    var front, last := steps[..|steps| - 1], steps[|steps| - 1];
    ReplayingComes(Run(front), last, w);
    if w in Run(front).workers && Run(front).workers[w] == Run(steps).workers[w] {
      n, k := ReplayingHappened(front, w);
    } else {
      n := ReadHappened(front, w);
      k := Run(front).workers[w];
    }
    assert front[..n] == steps[..n];
  }

  /**
   Every attempt of every run was admitted by transaction 1, for a request that at an earlier step
   had read its invoice and found it open, when no other attempt was active and the key was fresh.
   */
  lemma AttemptsNeedAnOpenRead(steps: seq<Step>, next: Step, a: Id) returns (n: nat)
    requires a !in Run(steps).db.attempts && a in Run(steps + [next]).db.attempts
    ensures var s, t := Run(steps), Run(steps + [next]);
      && next.RunClaim? && next.attempt == a && next.w in s.workers && s.workers[next.w].PayRead?
      && var k := s.workers[next.w];
      && ReadAt(steps, n, next.w, k) && Run(steps[..n]).db.invoices[k.invoice].state.Open?
      && !Pinned(s.db.attempts, k.invoice) && KeyId(k.business, k.key) !in s.db.keys
      && JobOf(a, t.db.attempts[a]) == Job(k.business, k.invoice, a, k.key, k.token, k.amount)
      && t.db.attempts[a].status.Pending?
  {
    RunOk(steps);
    ExecConcat(Init(), steps, [next]);
    assert [next][..0] == [];
    assert Exec(Run(steps), [next]) == Apply(Run(steps), next);
    StepAddsRows(Run(steps), next);
    ClaimAdmits(Run(steps), next.w, next.attempt, a);
    n := ReadHappened(steps, next.w);
  }

  /** A request that read its invoice in a state other than open, part-way through. */
  ghost predicate Barred(s: Sys, w: WorkerId, start: Worker)
    requires start.PayRead?
  {
    var id := KeyId(start.business, start.key);
    var digest := Fingerprint.Of(start.invoice, start.token, start.amount);
    && (w in s.workers || w in s.answers)
    && (w in s.workers ==>
          || s.workers[w] == start
          || (id in s.db.keys && s.workers[w] == Replaying(start.business, start.invoice, start.key, digest)))
    && (w in s.answers ==>
          || s.answers[w] == ConnectionLost
          || s.answers[w] == Conflict("invoice_not_payable")
          || (id in s.db.keys && Fits(s.db.keys[id], digest, start.invoice, s.answers[w])))
  }

  lemma BarredActs(s: Sys, w: WorkerId, start: Worker, step: Step)
    requires start.PayRead? && !start.seen.Open? && Barred(s, w, start) && Actor(step) == Some(w)
    ensures Barred(Apply(s, step), w, start) && Apply(s, step).db == s.db && Apply(s, step).sent == s.sent
  {
  }

  lemma BarredStays(s: Sys, t: Sys, w: WorkerId, start: Worker)
    requires start.PayRead? && Barred(s, w, start) && SameFor(s, t, w) && KeysGrow(s.db.keys, t.db.keys)
    ensures Barred(t, w, start)
  {
  }

  lemma BarredStep(s: Sys, w: WorkerId, start: Worker, step: Step)
    requires Inv(s) && start.PayRead? && !start.seen.Open? && Barred(s, w, start)
    ensures Barred(Apply(s, step), w, start)
  {
    if Actor(step) == Some(w) {
      BarredActs(s, w, start, step);
    } else {
      OthersLeaveAlone(s, step, w);
      StepKeeps(s, step);
      BarredStays(s, Apply(s, step), w, start);
    }
  }

  lemma {:induction false} BarredRuns(s: Sys, w: WorkerId, start: Worker, steps: seq<Step>)
    requires Inv(s) && start.PayRead? && !start.seen.Open? && Barred(s, w, start)
    ensures Barred(Exec(s, steps), w, start)
    decreases |steps|
  {
    if steps != [] {
      var front := steps[..|steps| - 1];
      BarredRuns(s, w, start, front);
      RunKeeps(s, front);
      BarredStep(Exec(s, front), w, start, steps[|steps| - 1]);
    }
  }

  /** What a key in use tells a request for invoice `i` with this token. */
  predicate ToldByKey(db: Db, id: KeyId, i: Id, token: Text, a: Answer) {
    && id in db.keys && db.keys[id].attempt.Some? && db.keys[id].attempt.value in db.attempts
    && var row := db.keys[id];
    && var at := db.attempts[row.attempt.value];
    && if i == at.invoice && token == at.token
       then StillProcessing(a, i, row.attempt.value)
            || (row.completed && row.response.Some? && a == Replied(row.response.value))
       else a == Conflict("idempotency_key_reuse")
  }

  lemma FitsMeansTold(steps: seq<Step>, id: KeyId, i: Id, token: Text, amount: Cents, a: Answer)
    requires id in Run(steps).db.keys && i in Run(steps).db.invoices && Run(steps).db.invoices[i].total == amount
    requires Fits(Run(steps).db.keys[id], Fingerprint.Of(i, token, amount), i, a) && a != ConnectionLost
    ensures ToldByKey(Run(steps).db, id, i, token, a)
  {
    var row := Run(steps).db.keys[id];
    RunOk(steps);
    KeyIsComplete(Run(steps), id);
    SameRequestSameDigest(steps, id, i, token);
    FittingAnswer(row, row, Fingerprint.Of(i, token, amount), i, a);
  }

  /**
   A payment of an invoice that is not open is never sent to the PSP, whatever happens while it is
   under way: it is refused as not payable, or told what its key says: that the attempt of the very
   same request is still pending or how it ended, or that the key was used for something else.
   */
  lemma NotOpenIsNeverCharged(p: seq<Step>, q: seq<Step>, w: WorkerId, business: Id, i: Id, key: Key, token: Text)
    requires NewWorker(Run(p), w) && !IsBlank(token)
    requires i in Run(p).db.invoices && Run(p).db.invoices[i].business == business
    requires !Run(p).db.invoices[i].state.Open?
    ensures var t := Run(p + [StartPay(w, business, i, key, token)] + q);
      && (w in t.workers || w in t.answers)
      && (w in t.workers ==> t.workers[w].PayRead? || t.workers[w].Replaying?)
      && (w in t.answers ==>
            || t.answers[w] == ConnectionLost
            || t.answers[w] == Conflict("invoice_not_payable")
            || ToldByKey(t.db, KeyId(business, key), i, token, t.answers[w]))
  {
    var s, first := Run(p), StartPay(w, business, i, key, token);
    var start := PayRead(business, i, key, token, s.db.invoices[i].state, s.db.invoices[i].total);
    RunOk(p);
    ExecConcat(Init(), p, [first]);
    ExecConcat(Init(), p + [first], q);
    assert Exec(s, [first]) == Apply(s, first) == Becomes(s, w, start);
    ReadOnlyKeeps(s, first);
    BarredRuns(Apply(s, first), w, start, q);
    TerminalIsForever(Apply(s, first), q);
    var t := Exec(Apply(s, first), q);
    assert InvoiceSettles(s.db.invoices[i], t.db.invoices[i]);
    if w in t.answers && t.answers[w] != ConnectionLost && t.answers[w] != Conflict("invoice_not_payable") {
      FitsMeansTold(p + [first] + q, KeyId(business, key), i, token, start.amount, t.answers[w]);
    }
  }
}
