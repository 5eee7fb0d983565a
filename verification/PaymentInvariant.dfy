/**
 The inductive invariant of the payment system, and the order in which every step moves the
 tables and the ledger: rows are only added, requests are never rewritten, terminal rows and
 completed keys never change, and a ledger entry is written once.
 */
module PaymentInvariant {
  import opened Common
  import opened LineItems
  import opened InvoiceLifecycle
  import opened PaymentTables
  import opened PaymentProtocol

  // ---- Invariant of the tables ----

  predicate AttemptShape(at: Attempt) {
    && (at.status.Succeeded? <==> at.pspRef.Some?)
    && (at.status.Failed? <==> at.failureCode.Some?)
    && !at.status.Expired?
  }

  /** The response a key must hold, given where its attempt stands. */
  function CachedFor(id: Id, at: Attempt): Option<Response> {
    if at.pspRef.Some? then Some(Respond(JobOf(id, at), Charged(at.pspRef.value)))
    else if at.failureCode.Some? then Some(Respond(JobOf(id, at), Declined(at.failureCode.value)))
    else None
  }

  predicate KeyOk(attempts: map<Id, Attempt>, id: KeyId, row: KeyRow) {
    && row.attempt.Some? && row.attempt.value in attempts
    && var at := attempts[row.attempt.value];
    && at.business == id.business && at.key == id.key
    && row.response == CachedFor(row.attempt.value, at)
    && (row.completed <==> row.response.Some?)
  }

  predicate AttemptOk(invoices: map<Id, Invoice>, keys: map<KeyId, KeyRow>, id: Id, at: Attempt) {
    && AttemptShape(at)
    && KeyId(at.business, at.key) in keys && keys[KeyId(at.business, at.key)].attempt == Some(id)
    && at.invoice in invoices
    && var inv := invoices[at.invoice];
    && inv.business == at.business && inv.total == at.amount && !inv.state.Draft?
    && (at.status.Succeeded? ==> IsTerminal(inv.state))
  }

  predicate PaidBy(attempts: map<Id, Attempt>, invoice: Id, a: Id) {
    a in attempts && attempts[a].invoice == invoice && attempts[a].status.Succeeded?
  }

  predicate InvoiceOk(attempts: map<Id, Attempt>, id: Id, inv: Invoice) {
    && PathRecorded(inv)
    && (inv.state.Paid? ==> exists a :: PaidBy(attempts, id, a))
  }

  predicate KeysOk(attempts: map<Id, Attempt>, keys: map<KeyId, KeyRow>) {
    forall id :: id in keys ==> KeyOk(attempts, id, keys[id])
  }

  predicate AttemptsOk(invoices: map<Id, Invoice>, keys: map<KeyId, KeyRow>, attempts: map<Id, Attempt>) {
    forall a :: a in attempts ==> AttemptOk(invoices, keys, a, attempts[a])
  }

  predicate InvoicesOk(attempts: map<Id, Attempt>, invoices: map<Id, Invoice>) {
    forall i :: i in invoices ==> InvoiceOk(attempts, i, invoices[i])
  }

  predicate Rivals(attempts: map<Id, Attempt>, a: Id, b: Id)
    requires a in attempts && b in attempts
  {
    Active(attempts[a]) && Active(attempts[b]) && attempts[a].invoice == attempts[b].invoice
  }

  predicate SingleActive(attempts: map<Id, Attempt>) {
    forall a, b :: a in attempts && b in attempts && Rivals(attempts, a, b) ==> a == b
  }

  predicate DbInv(db: Db) {
    && KeysOk(db.attempts, db.keys)
    && AttemptsOk(db.invoices, db.keys, db.attempts)
    && InvoicesOk(db.attempts, db.invoices)
    && SingleActive(db.attempts)
  }

  // ---- Invariant of the ledger, the wire and the workers ----

  predicate ChargeOk(attempts: map<Id, Attempt>, k: Key, c: Charge) {
    && c.origin in attempts && attempts[c.origin].key == k
    && attempts[c.origin].token == c.token && attempts[c.origin].amount == c.amount
  }

  predicate LedgerOk(attempts: map<Id, Attempt>, ledger: map<Key, Charge>) {
    forall k :: k in ledger ==> ChargeOk(attempts, k, ledger[k])
  }

  predicate ResultOk(ledger: map<Key, Charge>, key: Key, result: PspResult) {
    result.Unknown? || (key in ledger && result == ResultOf(ledger[key].verdict))
  }

  /** A settled attempt says what the ledger says. */
  predicate SettledOk(ledger: map<Key, Charge>, at: Attempt) {
    && (at.pspRef.Some? ==> at.key in ledger && ledger[at.key].verdict == Success(at.pspRef.value))
    && (at.failureCode.Some? ==> at.key in ledger && ledger[at.key].verdict == Failure(at.failureCode.value))
  }

  predicate AllSettledOk(attempts: map<Id, Attempt>, ledger: map<Key, Charge>) {
    forall a :: a in attempts ==> SettledOk(ledger, attempts[a])
  }

  predicate SentOk(attempts: map<Id, Attempt>, sent: set<Request>) {
    forall r :: r in sent ==> r.origin in attempts && r == RequestFor(JobOf(r.origin, attempts[r.origin]))
  }

  predicate RepliesOk(ledger: map<Key, Charge>, replies: set<PspReply>) {
    forall r :: r in replies ==> r.key in ledger && ledger[r.key].verdict == r.verdict
  }

  predicate JobOk(attempts: map<Id, Attempt>, job: Job) {
    job.attempt in attempts && job == JobOf(job.attempt, attempts[job.attempt])
  }

  predicate JobsOk(attempts: map<Id, Attempt>, jobs: seq<Job>) {
    forall i :: 0 <= i < |jobs| ==> JobOk(attempts, jobs[i])
  }

  predicate WorkerOk(db: Db, ledger: map<Key, Charge>, k: Worker) {
    match k
    case PayRead(business, invoice, _, _, seen, amount) =>
      && invoice in db.invoices && db.invoices[invoice].business == business
      && db.invoices[invoice].total == amount && (seen.Open? ==> !db.invoices[invoice].state.Draft?)
    case Replaying(business, _, key, _) => KeyId(business, key) in db.keys
    case Calling(job, rest, _) => JobOk(db.attempts, job) && JobsOk(db.attempts, rest)
    case Settling(job, result, rest, _) =>
      JobOk(db.attempts, job) && JobsOk(db.attempts, rest) && ResultOk(ledger, job.key, result)
    case Deciding(business, invoice, seen, to) =>
      && invoice in db.invoices && db.invoices[invoice].business == business
      && CanTransitionTo(seen, to) && !to.Paid?
  }

  predicate WorkersOk(db: Db, ledger: map<Key, Charge>, workers: map<WorkerId, Worker>) {
    forall w :: w in workers ==> WorkerOk(db, ledger, workers[w])
  }

  predicate Inv(s: Sys) {
    && DbInv(s.db)
    && LedgerOk(s.db.attempts, s.ledger)
    && AllSettledOk(s.db.attempts, s.ledger)
    && SentOk(s.db.attempts, s.sent)
    && RepliesOk(s.ledger, s.replies)
    && WorkersOk(s.db, s.ledger, s.workers)
  }

  // ---- The direction in which everything moves ----

  predicate AttemptsGrow(p: map<Id, Attempt>, q: map<Id, Attempt>) {
    forall a :: a in p ==> a in q && JobOf(a, q[a]) == JobOf(a, p[a]) && (!p[a].status.Pending? ==> q[a] == p[a])
  }

  predicate InvoicesGrow(p: map<Id, Invoice>, q: map<Id, Invoice>) {
    forall i :: i in p ==> i in q && Succeeds(p[i], q[i])
  }

  predicate KeysGrow(p: map<KeyId, KeyRow>, q: map<KeyId, KeyRow>) {
    forall id :: id in p ==>
      id in q && q[id].fingerprint == p[id].fingerprint && q[id].attempt == p[id].attempt
      && (p[id].completed ==> q[id] == p[id])
  }

  predicate LedgerGrows(p: map<Key, Charge>, q: map<Key, Charge>) {
    forall k :: k in p ==> k in q && q[k] == p[k]
  }

  predicate DbGrows(p: Db, q: Db) {
    && AttemptsGrow(p.attempts, q.attempts) && InvoicesGrow(p.invoices, q.invoices)
    && KeysGrow(p.keys, q.keys) && p.events <= q.events
  }

  predicate Grows(p: Sys, q: Sys) { DbGrows(p.db, q.db) && LedgerGrows(p.ledger, q.ledger) && p.now <= q.now }

  lemma WorkerStaysOk(p: Db, l: map<Key, Charge>, q: Db, m: map<Key, Charge>, k: Worker)
    requires DbGrows(p, q) && LedgerGrows(l, m) && WorkerOk(p, l, k)
    ensures WorkerOk(q, m, k)
  {
  }

  lemma FrameStaysOk(s: Sys, t: Sys)
    requires Inv(s) && Grows(s, t) && t.ledger == s.ledger
    ensures LedgerOk(t.db.attempts, s.ledger)
    ensures SentOk(t.db.attempts, s.sent)
    ensures WorkersOk(t.db, s.ledger, s.workers)
  {
    var p, q := s.db.attempts, t.db.attempts;
    forall r | r in s.sent ensures r.origin in q && r == RequestFor(JobOf(r.origin, q[r.origin])) {
      assert JobOf(r.origin, q[r.origin]) == JobOf(r.origin, p[r.origin]);
    }
    forall k | k in s.ledger ensures ChargeOk(q, k, s.ledger[k]) {
      var a := s.ledger[k].origin;
      assert JobOf(a, q[a]) == JobOf(a, p[a]);
    }
    forall w | w in s.workers ensures WorkerOk(t.db, s.ledger, s.workers[w]) {
      WorkerStaysOk(s.db, s.ledger, t.db, s.ledger, s.workers[w]);
    }
  }

  // ---- Each transaction keeps the table invariant ----

  lemma AttemptsOkUnderInvoices(p: map<Id, Invoice>, q: map<Id, Invoice>, keys: map<KeyId, KeyRow>,
                                attempts: map<Id, Attempt>)
    requires AttemptsOk(p, keys, attempts) && InvoicesGrow(p, q)
    ensures AttemptsOk(q, keys, attempts)
  {
  }

  lemma InvoicesOkUnderAttempts(p: map<Id, Attempt>, q: map<Id, Attempt>, invoices: map<Id, Invoice>)
    requires InvoicesOk(p, invoices) && AttemptsGrow(p, q)
    ensures InvoicesOk(q, invoices)
  {
    forall i | i in invoices ensures InvoiceOk(q, i, invoices[i]) {
      if invoices[i].state.Paid? {
        var a :| PaidBy(p, i, a);
        assert JobOf(a, q[a]) == JobOf(a, p[a]);
        assert PaidBy(q, i, a);
      }
    }
  }

  lemma CreateKeeps(db: Db, id: Id, business: Id, customer: Id, items: seq<LineItem>)
    requires DbInv(db) && id !in db.invoices
    ensures DbInv(CreateTx(db, id, business, customer, items))
    ensures DbGrows(db, CreateTx(db, id, business, customer, items))
  {
    AttemptsOkUnderInvoices(db.invoices, CreateTx(db, id, business, customer, items).invoices, db.keys, db.attempts);
  }

  lemma ClaimAddsAttempt(attempts: map<Id, Attempt>, id: Id, at: Attempt)
    requires SingleActive(attempts) && id !in attempts && !Pinned(attempts, at.invoice)
    ensures SingleActive(attempts[id := at]) && AttemptsGrow(attempts, attempts[id := at])
  {
    var q := attempts[id := at];
    forall a, b | a in q && b in q && Rivals(q, a, b) ensures a == b {
      assert a != id && b != id ==> Rivals(attempts, a, b);
    }
  }

  lemma ClaimAddsKey(db: Db, job: Job, seen: InvoiceState)
    requires KeysOk(db.attempts, db.keys) && job.attempt !in db.attempts && ClaimTx(db, job, seen).1.Claimed?
    ensures var q := ClaimTx(db, job, seen).0; KeysOk(q.attempts, q.keys) && KeysGrow(db.keys, q.keys)
  {
    var q := ClaimTx(db, job, seen).0;
    forall x | x in q.keys ensures KeyOk(q.attempts, x, q.keys[x]) {
      if x in db.keys { assert KeyOk(db.attempts, x, db.keys[x]); }
    }
  }

  lemma ClaimLinksAttempt(db: Db, job: Job, seen: InvoiceState)
    requires AttemptsOk(db.invoices, db.keys, db.attempts) && ClaimTx(db, job, seen).1.Claimed?
    requires job.invoice in db.invoices && db.invoices[job.invoice].business == job.business
    requires db.invoices[job.invoice].total == job.amount && !db.invoices[job.invoice].state.Draft?
    ensures var q := ClaimTx(db, job, seen).0;
            AttemptsOk(db.invoices, q.keys, q.attempts) && JobOk(q.attempts, job)
  {
    var q := ClaimTx(db, job, seen).0;
    forall a | a in q.attempts ensures AttemptOk(db.invoices, q.keys, a, q.attempts[a]) {
      if a != job.attempt { assert AttemptOk(db.invoices, db.keys, a, db.attempts[a]); }
    }
  }

  lemma ClaimKeeps(db: Db, job: Job, seen: InvoiceState)
    requires DbInv(db) && job.attempt !in db.attempts
    requires job.invoice in db.invoices && db.invoices[job.invoice].business == job.business
    requires db.invoices[job.invoice].total == job.amount
    requires seen.Open? ==> !db.invoices[job.invoice].state.Draft?
    ensures var q := ClaimTx(db, job, seen).0; DbInv(q) && DbGrows(db, q)
    ensures ClaimTx(db, job, seen).1.Claimed? ==> JobOk(ClaimTx(db, job, seen).0.attempts, job)
  {
    var (q, c) := ClaimTx(db, job, seen);
    if c.Claimed? {
      ClaimAddsAttempt(db.attempts, job.attempt, q.attempts[job.attempt]);
      ClaimAddsKey(db, job, seen);
      ClaimLinksAttempt(db, job, seen);
      InvoicesOkUnderAttempts(db.attempts, q.attempts, db.invoices);
    }
  }

  /** The result of a finalize says what the attempt already says, if it has settled. */
  predicate Agrees(at: Attempt, result: PspResult) {
    result.Unknown?
    || (&& (at.pspRef.Some? ==> result == Charged(at.pspRef.value))
        && (at.failureCode.Some? ==> result == Declined(at.failureCode.value)))
  }

  lemma SettleKeepsSingle(attempts: map<Id, Attempt>, id: Id, result: PspResult, now: Time)
    requires SingleActive(attempts)
    ensures var q := SettleRow(attempts, id, result, now); SingleActive(q) && AttemptsGrow(attempts, q)
  {
    var q := SettleRow(attempts, id, result, now);
    forall a, b | a in q && b in q && Rivals(q, a, b) ensures a == b {
      assert Rivals(attempts, a, b);
    }
  }

  lemma PayRowGrows(invoices: map<Id, Invoice>, id: Id, now: Time)
    ensures InvoicesGrow(invoices, PayRow(invoices, id, now))
  {
  }

  lemma FinalizeKeepsKeys(db: Db, job: Job, result: PspResult, now: Time)
    requires KeysOk(db.attempts, db.keys) && JobOk(db.attempts, job)
    requires AttemptOk(db.invoices, db.keys, job.attempt, db.attempts[job.attempt])
    requires Agrees(db.attempts[job.attempt], result)
    ensures var q := FinalizeTx(db, job, result, now); KeysOk(q.attempts, q.keys)
  {
    var q := FinalizeTx(db, job, result, now);
    forall x | x in q.keys ensures KeyOk(q.attempts, x, q.keys[x]) {
      assert KeyOk(db.attempts, x, db.keys[x]);
    }
  }

  lemma FinalizeGrowsKeys(db: Db, job: Job, result: PspResult, now: Time)
    requires JobOk(db.attempts, job) && Agrees(db.attempts[job.attempt], result)
    requires AttemptOk(db.invoices, db.keys, job.attempt, db.attempts[job.attempt])
    requires KeyOk(db.attempts, KeyId(job.business, job.key), db.keys[KeyId(job.business, job.key)])
    ensures KeysGrow(db.keys, FinalizeTx(db, job, result, now).keys)
  {
  }

  lemma FinalizeKeepsAttempts(db: Db, job: Job, result: PspResult, now: Time)
    requires AttemptsOk(db.invoices, db.keys, db.attempts) && JobOk(db.attempts, job)
    requires InvoicesGrow(db.invoices, FinalizeTx(db, job, result, now).invoices)
    requires Agrees(db.attempts[job.attempt], result)
    ensures var q := FinalizeTx(db, job, result, now); AttemptsOk(q.invoices, q.keys, q.attempts)
  {
    var q := FinalizeTx(db, job, result, now);
    AttemptsOkUnderInvoices(db.invoices, q.invoices, db.keys, db.attempts);
    forall a | a in q.attempts ensures AttemptOk(q.invoices, q.keys, a, q.attempts[a]) {
      assert AttemptOk(q.invoices, db.keys, a, db.attempts[a]);
    }
  }

  lemma FinalizeKeepsInvoices(db: Db, job: Job, result: PspResult, now: Time)
    requires InvoicesOk(db.attempts, db.invoices) && JobOk(db.attempts, job)
    requires AttemptShape(db.attempts[job.attempt])
    requires AttemptsGrow(db.attempts, FinalizeTx(db, job, result, now).attempts)
    requires Agrees(db.attempts[job.attempt], result)
    ensures var q := FinalizeTx(db, job, result, now); InvoicesOk(q.attempts, q.invoices)
  {
    var q := FinalizeTx(db, job, result, now);
    InvoicesOkUnderAttempts(db.attempts, q.attempts, db.invoices);
    forall i | i in q.invoices ensures InvoiceOk(q.attempts, i, q.invoices[i]) {
      assert InvoiceOk(q.attempts, i, db.invoices[i]);
      if i == job.invoice && result.Charged? {
        assert PaidBy(q.attempts, i, job.attempt);
      }
    }
  }

  lemma FinalizeKeeps(db: Db, job: Job, result: PspResult, now: Time)
    requires DbInv(db) && JobOk(db.attempts, job) && Agrees(db.attempts[job.attempt], result)
    ensures var q := FinalizeTx(db, job, result, now); DbInv(q) && DbGrows(db, q)
  {
    assert AttemptOk(db.invoices, db.keys, job.attempt, db.attempts[job.attempt]);
    SettleKeepsSingle(db.attempts, job.attempt, result, now);
    PayRowGrows(db.invoices, job.invoice, now);
    FinalizeKeepsKeys(db, job, result, now);
    FinalizeGrowsKeys(db, job, result, now);
    FinalizeKeepsAttempts(db, job, result, now);
    FinalizeKeepsInvoices(db, job, result, now);
  }

  lemma LeaseKeepsRows(db: Db, ids: seq<Id>, now: Time)
    requires AttemptsOk(db.invoices, db.keys, db.attempts) && SingleActive(db.attempts)
    requires forall a :: a in ids ==> a in db.attempts && Due(db.attempts[a], now)
    ensures var q := LeaseRows(db.attempts, ids, now);
            AttemptsOk(db.invoices, db.keys, q) && SingleActive(q) && AttemptsGrow(db.attempts, q)
  {
    var q := LeaseRows(db.attempts, ids, now);
    forall a, b | a in q && b in q && Rivals(q, a, b) ensures a == b {
      assert Rivals(db.attempts, a, b);
    }
    forall a | a in q ensures AttemptOk(db.invoices, db.keys, a, q[a]) {
      assert AttemptOk(db.invoices, db.keys, a, db.attempts[a]);
    }
  }

  lemma LeaseKeepsKeys(db: Db, ids: seq<Id>, now: Time)
    requires KeysOk(db.attempts, db.keys)
    ensures KeysOk(LeaseRows(db.attempts, ids, now), db.keys)
  {
    forall x | x in db.keys ensures KeyOk(LeaseRows(db.attempts, ids, now), x, db.keys[x]) {
      assert KeyOk(db.attempts, x, db.keys[x]);
    }
  }

  lemma LeaseKeeps(db: Db, ids: seq<Id>, now: Time)
    requires DbInv(db) && forall a :: a in ids ==> a in db.attempts && Due(db.attempts[a], now)
    ensures var q := db.(attempts := LeaseRows(db.attempts, ids, now)); DbInv(q) && DbGrows(db, q)
  {
    LeaseKeepsRows(db, ids, now);
    LeaseKeepsKeys(db, ids, now);
    InvoicesOkUnderAttempts(db.attempts, LeaseRows(db.attempts, ids, now), db.invoices);
  }

  lemma AdminKeepsInvoices(attempts: map<Id, Attempt>, invoices: map<Id, Invoice>, id: Id,
                           from: InvoiceState, to: InvoiceState, now: Time)
    requires InvoicesOk(attempts, invoices) && id in invoices && CanTransitionTo(from, to) && !to.Paid?
    ensures var q := invoices[id := AdminUpdate(invoices[id], from, to, now)];
            InvoicesOk(attempts, q) && InvoicesGrow(invoices, q)
  {
    var q := invoices[id := AdminUpdate(invoices[id], from, to, now)];
    forall i | i in q ensures InvoiceOk(attempts, i, q[i]) {
      assert InvoiceOk(attempts, i, invoices[i]);
    }
  }

  lemma AdminKeeps(db: Db, business: Id, invoice: Id, from: InvoiceState, to: InvoiceState, now: Time)
    requires DbInv(db) && CanTransitionTo(from, to) && !to.Paid?
    ensures var q := AdminTx(db, business, invoice, from, to, now); DbInv(q) && DbGrows(db, q)
  {
    if invoice in db.invoices {
      var q := AdminTx(db, business, invoice, from, to, now);
      AdminKeepsInvoices(db.attempts, db.invoices, invoice, from, to, now);
      AttemptsOkUnderInvoices(db.invoices, q.invoices, db.keys, db.attempts);
    }
  }
}
