/**
 The whole payment system as a state machine: the tables, the PSP's ledger, the messages between
 them, and every request, reconciler batch and admin call that is part-way through. Each SQL
 transaction is one step; everything between two transactions of one worker is open to any other
 worker, to the PSP, and to a crash. A step that is not enabled leaves the state alone, so every
 sequence of steps is a run.
 */
module PaymentProtocol {
  import opened Common
  import opened LineItems
  import opened InvoiceLifecycle
  import opened PaymentTables
  import Fingerprint

  // ---- The PSP ----

  /** The outcome the PSP records under a key. */
  datatype Verdict = Success(pspRef: Text) | Failure(code: Text)

  /** A ledger entry; `origin` is the attempt whose request created it (history, not seen by the PSP). */
  datatype Charge = Charge(verdict: Verdict, token: Text, amount: Cents, origin: Id)

  /** A charge request on the wire; `origin` is the attempt it was sent for (history). */
  datatype Request = Request(key: Key, token: Text, amount: Cents, origin: Id)

  datatype PspReply = PspReply(key: Key, verdict: Verdict)

  /** What the HTTP call came back with. */
  datatype HttpReply =
    | TransportError(timeout: bool)
    | Http(status: nat, body: Option<Verdict>)

  function ResultOf(v: Verdict): PspResult {
    match v
    case Success(ref) => Charged(ref)
    case Failure(code) => Declined(code)
  }

  /** `PspClient::charge`, after the call: anything short of a readable non-5xx outcome is unknown. */
  function Classify(reply: HttpReply): (r: PspResult)
    ensures r.Unknown? <==> reply.TransportError? || reply.body.None? || 500 <= reply.status < 600
    ensures !r.Unknown? ==>
      r == match reply.body.value case Success(ref) => Charged(ref) case Failure(code) => Declined(code)
    ensures r.Unknown? ==> r.reason in {"psp_timeout", "psp_network_error"}
    ensures r == Unknown("psp_timeout") <==> reply == TransportError(true)
  {
    match reply
    case TransportError(timeout) => Unknown(if timeout then "psp_timeout" else "psp_network_error")
    case Http(status, body) =>
      if 500 <= status < 600 || body.None? then Unknown("psp_network_error") else ResultOf(body.value)
  }

  // ---- Workers ----

  datatype Worker =
    /** `/pay` has read the invoice and not yet run transaction 1. */
    | PayRead(business: Id, invoice: Id, key: Key, token: Text, seen: InvoiceState, amount: Cents)
    /** `/pay` found its key taken and will read the key row. */
    | Replaying(business: Id, invoice: Id, key: Key, fingerprint: Fingerprint.Digest)
    /** In, or about to make, the PSP call for `job`; `rest` is what remains of a reconciler batch. */
    | Calling(job: Job, rest: seq<Job>, client: bool)
    /** The call returned `result`; transaction 2 has not run. */
    | Settling(job: Job, result: PspResult, rest: seq<Job>, client: bool)
    /** An admin call has read the invoice and validated the transition. */
    | Deciding(business: Id, invoice: Id, seen: InvoiceState, to: InvoiceState)

  type WorkerId = nat

  datatype Sys = Sys(
    db: Db,
    now: Time,
    ledger: map<Key, Charge>,
    sent: set<Request>,
    replies: set<PspReply>,
    workers: map<WorkerId, Worker>,
    answers: map<WorkerId, Answer>)

  function Init(): Sys {
    Sys(Db(map[], map[], map[], []), 0, map[], {}, {}, map[], map[])
  }

  datatype Step =
    | CreateInvoice(id: Id, business: Id, customer: Id, items: seq<LineItem>)
    | StartPay(w: WorkerId, business: Id, invoice: Id, key: Key, token: Text)
    | RunClaim(w: WorkerId, attempt: Id)
    | RunReplay(w: WorkerId)
    | Send(w: WorkerId)
    | PspProcess(request: Request, decided: Option<Verdict>)
    | Receive(w: WorkerId, reply: HttpReply)
    | RunFinalize(w: WorkerId)
    | FailFinalize(w: WorkerId)
    | Lease(w: WorkerId, ids: seq<Id>)
    | AdminRead(w: WorkerId, business: Id, invoice: Id, to: InvoiceState)
    | RunAdmin(w: WorkerId)
    | Crash(w: WorkerId)
    | Advance(seconds: nat)

  predicate NewWorker(s: Sys, w: WorkerId) { w !in s.workers && w !in s.answers }

  predicate Enabled(s: Sys, step: Step) {
    match step
    case CreateInvoice(id, _, _, _) => id !in s.db.invoices
    case StartPay(w, _, _, _, _) => NewWorker(s, w)
    case RunClaim(w, attempt) => w in s.workers && s.workers[w].PayRead? && attempt !in s.db.attempts
    case RunReplay(w) =>
      w in s.workers && s.workers[w].Replaying?
      && KeyId(s.workers[w].business, s.workers[w].key) in s.db.keys
    case Send(w) => w in s.workers && s.workers[w].Calling?
    case PspProcess(request, _) => request in s.sent
    case Receive(w, reply) =>
      && w in s.workers && s.workers[w].Calling?
      && (reply.Http? && reply.body.Some? ==> PspReply(s.workers[w].job.key, reply.body.value) in s.replies)
    case RunFinalize(w) => w in s.workers && s.workers[w].Settling?
    case FailFinalize(w) => w in s.workers && s.workers[w].Settling?
    case Lease(w, ids) =>
      && NewWorker(s, w) && 0 < |ids| <= BATCH
      && (forall i, j :: 0 <= i < j < |ids| ==> ids[i] != ids[j])
      && (forall a :: a in ids ==> a in s.db.attempts && Due(s.db.attempts[a], s.now))
    case AdminRead(w, business, invoice, to) =>
      && NewWorker(s, w) && (to.Open? || to.Void? || to.Uncollectible?)
      && invoice in s.db.invoices && s.db.invoices[invoice].business == business
      && CanTransitionTo(s.db.invoices[invoice].state, to)
    case RunAdmin(w) => w in s.workers && s.workers[w].Deciding?
    case Crash(w) => w in s.workers
    case Advance(_) => true
  }

  function Done(s: Sys, w: WorkerId): Sys { s.(workers := s.workers - {w}) }

  function Answered(s: Sys, w: WorkerId, a: Answer): Sys {
    s.(workers := s.workers - {w}, answers := s.answers[w := a])
  }

  function Becomes(s: Sys, w: WorkerId, k: Worker): Sys { s.(workers := s.workers[w := k]) }

  function DoStartPay(s: Sys, w: WorkerId, business: Id, invoice: Id, key: Key, token: Text): Sys {
    if IsBlank(token) then Answered(s, w, BlankToken)
    else if invoice !in s.db.invoices || s.db.invoices[invoice].business != business
    then Answered(s, w, InvoiceNotFound)
    else Becomes(s, w, PayRead(business, invoice, key, token, s.db.invoices[invoice].state,
                               s.db.invoices[invoice].total))
  }

  function DoClaim(s: Sys, w: WorkerId, attempt: Id): Sys
    requires w in s.workers && s.workers[w].PayRead?
  {
    var k := s.workers[w];
    var job := Job(k.business, k.invoice, attempt, k.key, k.token, k.amount);
    var (db, outcome) := ClaimTx(s.db, job, k.seen);
    match outcome
    case MustReplay =>
      Becomes(s, w, Replaying(k.business, k.invoice, k.key, Fingerprint.Of(k.invoice, k.token, k.amount)))
    case NotPayable => Answered(s, w, Conflict("invoice_not_payable"))
    case InProgress => Answered(s, w, Conflict("payment_in_progress"))
    case Claimed => Becomes(s.(db := db), w, Calling(job, [], true))
  }

  function DoReplay(s: Sys, w: WorkerId): Sys
    requires w in s.workers && s.workers[w].Replaying?
    requires KeyId(s.workers[w].business, s.workers[w].key) in s.db.keys
  {
    var k := s.workers[w];
    Answered(s, w, ReplayAnswer(s.db.keys[KeyId(k.business, k.key)], k.fingerprint, k.invoice))
  }

  function RequestFor(job: Job): Request { Request(job.key, job.token, job.amount, job.attempt) }

  /** The PSP answers a known key from its ledger; a new key gets a verdict recorded, or an error and no record. */
  function DoProcess(s: Sys, r: Request, decided: Option<Verdict>): Sys {
    if r.key in s.ledger then
      s.(replies := s.replies + {PspReply(r.key, s.ledger[r.key].verdict)})
    else if decided.None? then s
    else s.(ledger := s.ledger[r.key := Charge(decided.value, r.token, r.amount, r.origin)],
            replies := s.replies + {PspReply(r.key, decided.value)})
  }

  /** A worker is through with its job: on to the next of its batch, or done. */
  function MoveOn(s: Sys, w: WorkerId, answer: Answer): Sys
    requires w in s.workers && s.workers[w].Settling?
  {
    var k := s.workers[w];
    if k.rest != [] then Becomes(s, w, Calling(k.rest[0], k.rest[1..], k.client))
    else if k.client then Answered(s, w, answer)
    else Done(s, w)
  }

  function DoFinalize(s: Sys, w: WorkerId): Sys
    requires w in s.workers && s.workers[w].Settling?
  {
    var k := s.workers[w];
    MoveOn(s.(db := FinalizeTx(s.db, k.job, k.result, s.now)), w, Replied(Respond(k.job, k.result)))
  }

  function DoLease(s: Sys, w: WorkerId, ids: seq<Id>): Sys
    requires ids != [] && forall a :: a in ids ==> a in s.db.attempts
  {
    var jobs := JobsOf(s.db.attempts, ids);
    Becomes(s.(db := s.db.(attempts := LeaseRows(s.db.attempts, ids, s.now))), w,
            Calling(jobs[0], jobs[1..], false))
  }

  function DoAdmin(s: Sys, w: WorkerId): Sys
    requires w in s.workers && s.workers[w].Deciding?
  {
    var k := s.workers[w];
    Done(s.(db := AdminTx(s.db, k.business, k.invoice, k.seen, k.to, s.now)), w)
  }

  ghost function Apply(s: Sys, step: Step): Sys {
    if !Enabled(s, step) then s
    else match step
         case CreateInvoice(id, business, customer, items) => s.(db := CreateTx(s.db, id, business, customer, items))
         case StartPay(w, business, invoice, key, token) => DoStartPay(s, w, business, invoice, key, token)
         case RunClaim(w, attempt) => DoClaim(s, w, attempt)
         case RunReplay(w) => DoReplay(s, w)
         case Send(w) => s.(sent := s.sent + {RequestFor(s.workers[w].job)})
         case PspProcess(request, decided) => DoProcess(s, request, decided)
         case Receive(w, reply) =>
           Becomes(s, w, Settling(s.workers[w].job, Classify(reply), s.workers[w].rest, s.workers[w].client))
         case RunFinalize(w) => DoFinalize(s, w)
         case FailFinalize(w) => MoveOn(s, w, InternalError)
         case Lease(w, ids) => DoLease(s, w, ids)
         case AdminRead(w, business, invoice, to) =>
           Becomes(s, w, Deciding(business, invoice, s.db.invoices[invoice].state, to))
         case RunAdmin(w) => DoAdmin(s, w)
         case Crash(w) => Answered(s, w, ConnectionLost)
         case Advance(seconds) => s.(now := s.now + seconds)
  }

  /** The state after taking `steps` from `s`. */
  ghost function Exec(s: Sys, steps: seq<Step>): Sys {
    if steps == [] then s else Apply(Exec(s, steps[..|steps| - 1]), steps[|steps| - 1])
  }

  /** A run from the empty system. */
  ghost function Run(steps: seq<Step>): Sys { Exec(Init(), steps) }

  lemma {:induction false} ExecConcat(s: Sys, p: seq<Step>, q: seq<Step>)
    ensures Exec(s, p + q) == Exec(Exec(s, p), q)
  {
    if q == [] {
      assert p + q == p;
    } else {
      var n := |p + q| - 1;
      assert (p + q)[..n] == p + q[..|q| - 1];
      ExecConcat(s, p, q[..|q| - 1]);
    }
  }
}
