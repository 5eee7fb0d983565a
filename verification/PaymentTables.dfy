/**
 The payment tables and the transactions that `/pay`, the reconciler and the admin endpoints run
 against them, each transaction as one function from tables to tables.
 */
module PaymentTables {
  import opened Common
  import opened LineItems
  import opened InvoiceLifecycle
  import Fingerprint

  type Key = Text

  datatype PaymentStatus = Pending | Succeeded | Failed | Expired

  datatype Attempt = Attempt(
    invoice: Id,
    business: Id,
    key: Key,
    amount: Cents,
    token: Text,
    status: PaymentStatus,
    pspRef: Option<Text>,
    failureCode: Option<Text>,
    lastError: Option<string>,
    attemptCount: nat,
    nextPollAt: Option<Time>)

  /** The predicate of the partial unique index: an attempt that pins its invoice. */
  predicate Active(at: Attempt) { at.status.Pending? || at.status.Succeeded? }

  datatype KeyId = KeyId(business: Id, key: Key)

  datatype PollUrl = PollUrl(invoice: Id, attempt: Id)

  datatype Body = Body(
    attempt: Id,
    invoice: Id,
    status: PaymentStatus,
    amount: Cents,
    invoiceState: InvoiceState,
    pspRef: Option<Text>,
    failureCode: Option<Text>,
    message: Option<string>,
    pollUrl: Option<PollUrl>)

  datatype Response = Response(code: nat, body: Body)

  datatype KeyRow = KeyRow(
    fingerprint: Fingerprint.Digest,
    completed: bool,
    attempt: Option<Id>,
    response: Option<Response>)

  datatype Event =
    | InvoiceCreated(business: Id, invoice: Id, customer: Id, total: Cents)
    | PaymentOutcome(business: Id, invoice: Id, attempt: Id, status: PaymentStatus, amount: Cents,
                     failureCode: Option<Text>)

  datatype Db = Db(
    invoices: map<Id, Invoice>,
    attempts: map<Id, Attempt>,
    keys: map<KeyId, KeyRow>,
    events: seq<Event>)

  /** What the PSP client hands back. */
  datatype PspResult = Charged(pspRef: Text) | Declined(code: Text) | Unknown(reason: string)

  /** What a call to the PSP and the finalize after it carry along. */
  datatype Job = Job(business: Id, invoice: Id, attempt: Id, key: Key, token: Text, amount: Cents)

  function JobOf(id: Id, at: Attempt): Job {
    Job(at.business, at.invoice, id, at.key, at.token, at.amount)
  }

  // ---- Invoice creation ----

  /** The items pass validation and their total fits its column. */
  ghost predicate Storable(items: seq<LineItem>) { Acceptable(items) && 0 <= Total(items) <= I64_MAX }

  /** A request that passed validation either stores the invoice and its event, or nothing. */
  ghost function CreateTx(db: Db, id: Id, business: Id, customer: Id, items: seq<LineItem>): Db {
    if !Storable(items) then db
    else
      db.(invoices := db.invoices[id := Invoice(business, customer, Draft, items, Total(items), None, None, None, 0)],
          events := db.events + [InvoiceCreated(business, id, customer, Total(items))])
  }

  // ---- Transaction 1 of /pay ----

  datatype Claim = Claimed | MustReplay | NotPayable | InProgress

  predicate Pinned(attempts: map<Id, Attempt>, invoice: Id) {
    exists a :: a in attempts && attempts[a].invoice == invoice && Active(attempts[a])
  }

  /** Claim the key, check the invoice state that was read, insert the pending attempt, link the two. */
  function ClaimTx(db: Db, job: Job, seen: InvoiceState): (Db, Claim) {
    var id := KeyId(job.business, job.key);
    if id in db.keys then (db, MustReplay)
    else if !seen.Open? then (db, NotPayable)
    else if Pinned(db.attempts, job.invoice) then (db, InProgress)
    else
      var at := Attempt(job.invoice, job.business, job.key, job.amount, job.token, Pending, None, None, None, 1, None);
      var row := KeyRow(Fingerprint.Of(job.invoice, job.token, job.amount), false, Some(job.attempt), None);
      (db.(attempts := db.attempts[job.attempt := at], keys := db.keys[id := row]), Claimed)
  }

  // ---- Replaying a key ----

  datatype Answer =
    | Replied(response: Response)
    | BlankToken
    | InvoiceNotFound
    | Conflict(code: string)
    | InternalError
    | ConnectionLost

  function ReplayAnswer(row: KeyRow, fingerprint: Fingerprint.Digest, invoice: Id): Answer {
    if row.fingerprint != fingerprint then Conflict("idempotency_key_reuse")
    else if row.completed then
      if row.response.Some? then Replied(row.response.value) else InternalError
    else
      var attempt := if row.attempt.Some? then row.attempt.value else 0;
      Replied(Response(202, Body(attempt, invoice, Pending, 0, Open, None, None,
                                 Some("payment is still being processed"),
                                 if row.attempt.Some? then Some(PollUrl(invoice, attempt)) else None)))
  }

  // ---- Transaction 2: finalize ----

  function Settle(at: Attempt, result: PspResult, now: Time): Attempt {
    if !at.status.Pending? then at
    else match result
         case Charged(ref) => at.(status := Succeeded, pspRef := Some(ref))
         case Declined(code) => at.(status := Failed, failureCode := Some(code))
         case Unknown(reason) =>
           at.(lastError := Some(reason), attemptCount := at.attemptCount + 1, nextPollAt := Some(now + 5))
  }

  function Respond(job: Job, result: PspResult): Response {
    match result
    case Charged(ref) =>
      Response(200, Body(job.attempt, job.invoice, Succeeded, job.amount, Paid, Some(ref), None, None, None))
    case Declined(code) =>
      Response(402, Body(job.attempt, job.invoice, Failed, job.amount, Open, None, Some(code),
                         Some("the payment was declined"), None))
    case Unknown(_) =>
      Response(202, Body(job.attempt, job.invoice, Pending, job.amount, Open, None, None,
                         Some("payment is being processed; poll for the result"),
                         Some(PollUrl(job.invoice, job.attempt))))
  }

  function OutcomeEvent(job: Job, body: Body): Event {
    PaymentOutcome(job.business, job.invoice, body.attempt, body.status, job.amount, body.failureCode)
  }

  function SettleRow(attempts: map<Id, Attempt>, id: Id, result: PspResult, now: Time): map<Id, Attempt> {
    if id in attempts then attempts[id := Settle(attempts[id], result, now)] else attempts
  }

  function CompleteKey(keys: map<KeyId, KeyRow>, id: KeyId, response: Response): map<KeyId, KeyRow> {
    if id in keys then keys[id := keys[id].(completed := true, response := Some(response))] else keys
  }

  function PayRow(invoices: map<Id, Invoice>, id: Id, now: Time): map<Id, Invoice> {
    if id in invoices then invoices[id := PaymentUpdate(invoices[id], now)] else invoices
  }

  function FinalizeTx(db: Db, job: Job, result: PspResult, now: Time): Db {
    var response := Respond(job, result);
    var attempts := SettleRow(db.attempts, job.attempt, result, now);
    if result.Unknown? then db.(attempts := attempts)
    else Db(if result.Charged? then PayRow(db.invoices, job.invoice, now) else db.invoices,
            attempts,
            CompleteKey(db.keys, KeyId(job.business, job.key), response),
            db.events + [OutcomeEvent(job, response.body)])
  }

  // ---- The reconciler's lease ----

  const BATCH := 20

  predicate Due(at: Attempt, now: Time) {
    at.status.Pending? && (at.nextPollAt.None? || at.nextPollAt.value <= now)
  }

  function LeaseRows(attempts: map<Id, Attempt>, ids: seq<Id>, now: Time): map<Id, Attempt> {
    map a | a in attempts ::
      if a in ids then attempts[a].(nextPollAt := Some(now + 30)) else attempts[a]
  }

  function JobsOf(attempts: map<Id, Attempt>, ids: seq<Id>): (jobs: seq<Job>)
    requires forall a :: a in ids ==> a in attempts
    ensures |jobs| == |ids|
    ensures forall i :: 0 <= i < |ids| ==> jobs[i] == JobOf(ids[i], attempts[ids[i]])
  {
    if ids == [] then [] else [JobOf(ids[0], attempts[ids[0]])] + JobsOf(attempts, ids[1..])
  }

  // ---- Admin transition ----

  function AdminTx(db: Db, business: Id, invoice: Id, from: InvoiceState, to: InvoiceState, now: Time): Db {
    if invoice in db.invoices && db.invoices[invoice].business == business
    then db.(invoices := db.invoices[invoice := AdminUpdate(db.invoices[invoice], from, to, now)])
    else db
  }
}
