/**
 What the rows contain, over every run: each invoice is worth exactly its line items, each key
 remembers the fingerprint of the request that claimed it, and the amount that reaches the PSP is
 the invoice's worth.
 */
module PaymentContent {
  import opened Common
  import opened LineItems
  import opened InvoiceLifecycle
  import opened PaymentTables
  import opened PaymentProtocol
  import opened PaymentInvariant
  import opened PaymentSafety
  import opened PaymentTheorems
  import Fingerprint

  lemma FinalizeAddsNoRow(db: Db, job: Job, result: PspResult, now: Time)
    ensures var q := FinalizeTx(db, job, result, now);
      q.invoices.Keys == db.invoices.Keys && q.attempts.Keys == db.attempts.Keys && q.keys.Keys == db.keys.Keys
  {
    assert SettleRow(db.attempts, job.attempt, result, now).Keys == db.attempts.Keys;
    assert PayRow(db.invoices, job.invoice, now).Keys == db.invoices.Keys;
    assert CompleteKey(db.keys, KeyId(job.business, job.key), Respond(job, result)).Keys == db.keys.Keys;
  }

  /** Invoices appear only by creation; keys and attempts only by transaction 1. */
  ghost predicate RowsAppear(s: Sys, step: Step) {
    var p, q := s.db, Apply(s, step).db;
    && (!step.CreateInvoice? ==> q.invoices.Keys == p.invoices.Keys)
    && (!step.RunClaim? ==> q.attempts.Keys == p.attempts.Keys && q.keys.Keys == p.keys.Keys)
  }

  lemma TransactionAddsRows(s: Sys, step: Step)
    requires IsTransaction(step) && Enabled(s, step)
    ensures RowsAppear(s, step)
  {
    match step {
      case RunClaim(w, attempt) => ClaimAddsNoInvoice(s, w, attempt);
      case RunFinalize(w) => FinalizeAddsNoRow(s.db, s.workers[w].job, s.workers[w].result, s.now);
      case Lease(w, ids) => assert LeaseRows(s.db.attempts, ids, s.now).Keys == s.db.attempts.Keys;
      case RunAdmin(w) =>
        var k := s.workers[w];
        assert AdminTx(s.db, k.business, k.invoice, k.seen, k.to, s.now).invoices.Keys == s.db.invoices.Keys;
      case _ =>
    }
  }

  lemma StepAddsRows(s: Sys, step: Step)
    requires Inv(s)
    ensures RowsAppear(s, step)
  {
    if !IsTransaction(step) {
      ReadOnlyLeavesTables(s, step);
    } else if Enabled(s, step) {
      TransactionAddsRows(s, step);
    }
  }

  // ---- Prices ----

  ghost predicate Priced(invoices: map<Id, Invoice>) {
    forall i :: i in invoices ==> PricedExactly(invoices[i])
  }

  lemma CreatePrices(db: Db, id: Id, business: Id, customer: Id, items: seq<LineItem>)
    requires Priced(db.invoices)
    ensures Priced(CreateTx(db, id, business, customer, items).invoices)
  {
  }

  lemma PricesStay(p: map<Id, Invoice>, q: map<Id, Invoice>)
    requires Priced(p) && InvoicesGrow(p, q) && q.Keys == p.Keys
    ensures Priced(q)
  {
    forall i | i in q ensures PricedExactly(q[i]) {
      assert i in p && Succeeds(p[i], q[i]) && PricedExactly(p[i]);
    }
  }

  lemma {:induction false} RunPrices(steps: seq<Step>)
    ensures Priced(Run(steps).db.invoices)
    decreases |steps|
  {
    if steps != [] {
      var front, last := steps[..|steps| - 1], steps[|steps| - 1];
      RunPrices(front);
      RunOk(front);
      StepKeeps(Run(front), last);
      StepAddsRows(Run(front), last);
      if last.CreateInvoice? {
        CreatePrices(Run(front).db, last.id, last.business, last.customer, last.items);
      } else {
        PricesStay(Run(front).db.invoices, Run(steps).db.invoices);
      }
    }
  }

  /**
   Creating an invoice stores it as a draft for its customer, with its items and their exact
   non-negative 64-bit total, and announces just that; or it stores nothing.
   */
  lemma CreationIsExactOrNothing(db: Db, id: Id, business: Id, customer: Id, items: seq<LineItem>)
    requires id !in db.invoices
    ensures var q := CreateTx(db, id, business, customer, items);
      if Acceptable(items) && Total(items) <= 0x7FFF_FFFF_FFFF_FFFF
      then && 0 <= Total(items)
           && q.invoices
              == db.invoices[id := Invoice(business, customer, Draft, items, Total(items), None, None, None, 0)]
           && q.events == db.events + [InvoiceCreated(business, id, customer, Total(items))]
           && q.attempts == db.attempts && q.keys == db.keys
      else q == db
  {
    if Acceptable(items) {
      TotalIsMonotone(items, 0);
    }
  }

  /** What an attempt is charged for: the sum of quantity times unit amount over its invoice's items. */
  ghost function Worth(db: Db, a: Id): int {
    if a in db.attempts && db.attempts[a].invoice in db.invoices
    then Total(db.invoices[db.attempts[a].invoice].items) else -1
  }

  /** Every amount that was ever put on the wire or charged is the exact worth of the attempt's invoice. */
  lemma AmountIsExactEndToEnd(steps: seq<Step>)
    ensures var s := Run(steps);
      && (forall r :: r in s.sent ==> r.amount == Worth(s.db, r.origin) >= 0)
      && (forall k :: k in s.ledger ==> s.ledger[k].amount == Worth(s.db, s.ledger[k].origin) >= 0)
  {
    RunOk(steps);
    RunPrices(steps);
    var s := Run(steps);
    forall r | r in s.sent ensures r.amount == Worth(s.db, r.origin) >= 0 {
      AttemptIsWorth(s, r.origin);
    }
    forall k | k in s.ledger ensures s.ledger[k].amount == Worth(s.db, s.ledger[k].origin) >= 0 {
      assert ChargeOk(s.db.attempts, k, s.ledger[k]);
      AttemptIsWorth(s, s.ledger[k].origin);
    }
  }

  lemma AttemptIsWorth(s: Sys, a: Id)
    requires Inv(s) && Priced(s.db.invoices) && a in s.db.attempts
    ensures s.db.attempts[a].amount == Worth(s.db, a) >= 0
  {
    assert AttemptOk(s.db.invoices, s.db.keys, a, s.db.attempts[a]);
    assert PricedExactly(s.db.invoices[s.db.attempts[a].invoice]);
  }

  // ---- Fingerprints ----

  predicate KeyFingerprinted(attempts: map<Id, Attempt>, row: KeyRow) {
    row.attempt.Some? && row.attempt.value in attempts ==>
      var at := attempts[row.attempt.value];
      row.fingerprint == Fingerprint.Of(at.invoice, at.token, at.amount)
  }

  predicate Fingerprinted(db: Db) {
    forall id :: id in db.keys ==> KeyFingerprinted(db.attempts, db.keys[id])
  }

  lemma ClaimFingerprints(db: Db, job: Job, seen: InvoiceState)
    requires Fingerprinted(db) && KeysOk(db.attempts, db.keys) && job.attempt !in db.attempts
    ensures Fingerprinted(ClaimTx(db, job, seen).0)
  {
    var q := ClaimTx(db, job, seen).0;
    forall id | id in q.keys ensures KeyFingerprinted(q.attempts, q.keys[id]) {
      if id in db.keys {
        assert KeyOk(db.attempts, id, db.keys[id]);
        assert KeyFingerprinted(db.attempts, db.keys[id]);
      }
    }
  }

  lemma FingerprintsStay(p: Db, q: Db)
    requires Fingerprinted(p) && KeysOk(p.attempts, p.keys)
    requires AttemptsGrow(p.attempts, q.attempts) && KeysGrow(p.keys, q.keys) && q.keys.Keys == p.keys.Keys
    ensures Fingerprinted(q)
  {
    forall id | id in q.keys ensures KeyFingerprinted(q.attempts, q.keys[id]) {
      assert id in p.keys && KeyOk(p.attempts, id, p.keys[id]) && KeyFingerprinted(p.attempts, p.keys[id]);
      var a := p.keys[id].attempt.value;
      assert JobOf(a, q.attempts[a]) == JobOf(a, p.attempts[a]);
    }
  }

  lemma {:induction false} RunFingerprints(steps: seq<Step>)
    ensures Fingerprinted(Run(steps).db)
    decreases |steps|
  {
    if steps != [] {
      var front, last := steps[..|steps| - 1], steps[|steps| - 1];
      RunFingerprints(front);
      RunOk(front);
      var s := Run(front);
      StepKeeps(s, last);
      StepAddsRows(s, last);
      if last.RunClaim? {
        ClaimStepFingerprints(s, last);
      } else {
        FingerprintsStay(s.db, Run(steps).db);
      }
    }
  }

  lemma ClaimStepFingerprints(s: Sys, step: Step)
    requires Inv(s) && Fingerprinted(s.db) && step.RunClaim?
    ensures Fingerprinted(Apply(s, step).db)
  {
    if Enabled(s, step) {
      var k := s.workers[step.w];
      var job := Job(k.business, k.invoice, step.attempt, k.key, k.token, k.amount);
      ClaimFingerprints(s.db, job, k.seen);
      ClaimReaches(s, step.w, step.attempt, job);
    }
  }

  lemma ClaimReaches(s: Sys, w: WorkerId, attempt: Id, job: Job)
    requires w in s.workers && s.workers[w].PayRead?
    requires var k := s.workers[w]; job == Job(k.business, k.invoice, attempt, k.key, k.token, k.amount)
    ensures DoClaim(s, w, attempt).db == ClaimTx(s.db, job, s.workers[w].seen).0
  {
  }
}
