/**
 Particular runs, step by step: an undisturbed payment, a payment overtaken by a void, a payment
 announced twice, and two businesses that happen to use one idempotency key. They show that
 the states the theorems speak of are reached, and that the conditions they make are needed.
 */
module PaymentScenarios {
  import opened Common
  import opened LineItems
  import opened InvoiceLifecycle
  import opened PaymentTables
  import opened PaymentProtocol
  import opened PaymentTheorems
  import opened PaymentOutbox

  lemma ExecOne(s: Sys, step: Step)
    ensures Exec(s, [step]) == Apply(s, step)
  {
    assert [step][..0] == [];
  }

  lemma ExecTwo(s: Sys, x: Step, y: Step)
    ensures Exec(s, [x, y]) == Apply(Apply(s, x), y)
  {
    assert [x, y] == [x] + [y];
    ExecConcat(s, [x], [y]);
    ExecOne(s, x);
    ExecOne(Apply(s, x), y);
  }

  /** Some priced content: two units of fifty cents. */
  function SomeItems(): seq<LineItem> { [LineItem([0x41], 2, 50)] }

  lemma SomeItemsCost()
    ensures Acceptable(SomeItems()) && Total(SomeItems()) == 100
  {
    assert SomeItems()[..0] == [];
    assert Total([]) == 0;
    assert LeadingSpace([0x41]) == 0;
  }

  // ---- Creating and opening an invoice ----

  function OpenSteps(w: WorkerId, business: Id, i: Id): seq<Step> {
    [CreateInvoice(i, business, 0, SomeItems())] + [AdminRead(w, business, i, Open), RunAdmin(w)]
  }

  function DraftInvoice(business: Id): Invoice {
    Invoice(business, 0, Draft, SomeItems(), 100, None, None, None, 0)
  }

  function OpenInvoice(business: Id, now: Time): Invoice {
    Invoice(business, 0, Open, SomeItems(), 100, Some(now), None, None, 1)
  }

  function AfterOpen(s: Sys, business: Id, i: Id): Sys {
    s.(db := s.db.(invoices := s.db.invoices[i := OpenInvoice(business, s.now)],
                   events := s.db.events + [InvoiceCreated(business, i, 0, 100)]))
  }

  lemma Finalizing(s: Sys, w: WorkerId, business: Id, i: Id)
    requires NewWorker(s, w)
    requires i in s.db.invoices && s.db.invoices[i].business == business && s.db.invoices[i].state.Draft?
    ensures Apply(Apply(s, AdminRead(w, business, i, Open)), RunAdmin(w))
            == s.(db := AdminTx(s.db, business, i, Draft, Open, s.now))
  {
    var k := Deciding(business, i, Draft, Open);
    assert Apply(s, AdminRead(w, business, i, Open)) == Becomes(s, w, k);
    assert s.workers[w := k] - {w} == s.workers;
  }

  lemma Creating(s: Sys, business: Id, i: Id)
    requires i !in s.db.invoices
    ensures Apply(s, CreateInvoice(i, business, 0, SomeItems()))
            == s.(db := s.db.(invoices := s.db.invoices[i := DraftInvoice(business)],
                              events := s.db.events + [InvoiceCreated(business, i, 0, 100)]))
  {
    SomeItemsCost();
  }

  lemma Opening(s: Sys, w: WorkerId, business: Id, i: Id)
    requires i !in s.db.invoices && NewWorker(s, w)
    ensures Exec(s, OpenSteps(w, business, i)) == AfterOpen(s, business, i)
  {
    var create := CreateInvoice(i, business, 0, SomeItems());
    ExecConcat(s, [create], [AdminRead(w, business, i, Open), RunAdmin(w)]);
    ExecOne(s, create);
    Creating(s, business, i);
    var t := Apply(s, create);
    ExecTwo(t, AdminRead(w, business, i, Open), RunAdmin(w));
    Finalizing(t, w, business, i);
    OpenedRow(s.db.invoices, business, i, s.now);
  }

  lemma OpenedRow(invoices: map<Id, Invoice>, business: Id, i: Id, now: Time)
    ensures var draft := DraftInvoice(business);
      && AdminUpdate(draft, Draft, Open, now) == OpenInvoice(business, now)
      && invoices[i := draft][i := OpenInvoice(business, now)] == invoices[i := OpenInvoice(business, now)]
  {
  }

  // ---- Paying, up to the moment before transaction 2 ----

  /** A first payment of `i` under a key that this business has not used. */
  predicate CanPay(s: Sys, w: WorkerId, job: Job) {
    && NewWorker(s, w) && !IsBlank(job.token) && job.attempt !in s.db.attempts
    && job.invoice in s.db.invoices && s.db.invoices[job.invoice].business == job.business
    && s.db.invoices[job.invoice].state.Open? && s.db.invoices[job.invoice].total == job.amount
    && KeyId(job.business, job.key) !in s.db.keys && !Pinned(s.db.attempts, job.invoice)
  }

  /** What the PSP says about `key`, if it decides `decided` about a charge that is new to it. */
  function VerdictOn(s: Sys, key: Key, decided: Verdict): Verdict {
    if key in s.ledger then s.ledger[key].verdict else decided
  }

  function ClaimSteps(w: WorkerId, job: Job): seq<Step> {
    [StartPay(w, job.business, job.invoice, job.key, job.token), RunClaim(w, job.attempt)]
  }

  function AfterClaim(s: Sys, w: WorkerId, job: Job): Sys {
    Becomes(s.(db := ClaimTx(s.db, job, Open).0), w, Calling(job, [], true))
  }

  lemma Claiming(s: Sys, w: WorkerId, job: Job)
    requires CanPay(s, w, job)
    ensures Exec(s, ClaimSteps(w, job)) == AfterClaim(s, w, job)
  {
    ExecTwo(s, StartPay(w, job.business, job.invoice, job.key, job.token), RunClaim(w, job.attempt));
    var start := PayRead(job.business, job.invoice, job.key, job.token, Open, job.amount);
    assert Apply(s, StartPay(w, job.business, job.invoice, job.key, job.token)) == Becomes(s, w, start);
    assert s.workers[w := start][w := Calling(job, [], true)] == s.workers[w := Calling(job, [], true)];
  }

  function AfterSend(s: Sys, job: Job, decided: Verdict): Sys {
    DoProcess(s.(sent := s.sent + {RequestFor(job)}), RequestFor(job), Some(decided))
  }

  function CallSteps(w: WorkerId, job: Job, decided: Verdict, v: Verdict): seq<Step> {
    [Send(w), PspProcess(RequestFor(job), Some(decided))] + [Receive(w, Http(200, Some(v)))]
  }

  lemma CallingThePsp(s: Sys, w: WorkerId, job: Job, decided: Verdict, client: bool)
    requires w in s.workers && s.workers[w] == Calling(job, [], client)
    ensures Exec(s, CallSteps(w, job, decided, VerdictOn(s, job.key, decided)))
            == Becomes(AfterSend(s, job, decided), w,
                       Settling(job, ResultOf(VerdictOn(s, job.key, decided)), [], client))
  {
    var v := VerdictOn(s, job.key, decided);
    var process, receive := PspProcess(RequestFor(job), Some(decided)), Receive(w, Http(200, Some(v)));
    ExecConcat(s, [Send(w), process], [receive]);
    ExecTwo(s, Send(w), process);
    ExecOne(AfterSend(s, job, decided), receive);
    Sending(s, w, job, decided);
    Receiving(AfterSend(s, job, decided), w, v);
  }

  lemma Sending(s: Sys, w: WorkerId, job: Job, decided: Verdict)
    requires w in s.workers && s.workers[w].Calling? && s.workers[w].job == job
    ensures var t := AfterSend(s, job, decided);
      && Apply(Apply(s, Send(w)), PspProcess(RequestFor(job), Some(decided))) == t
      && t.workers == s.workers && PspReply(job.key, VerdictOn(s, job.key, decided)) in t.replies
  {
    assert Apply(s, Send(w)) == s.(sent := s.sent + {RequestFor(job)});
  }

  lemma Receiving(s: Sys, w: WorkerId, v: Verdict)
    requires w in s.workers && s.workers[w].Calling? && PspReply(s.workers[w].job.key, v) in s.replies
    ensures var k := s.workers[w];
      Apply(s, Receive(w, Http(200, Some(v)))) == Becomes(s, w, Settling(k.job, ResultOf(v), k.rest, k.client))
  {
    assert Classify(Http(200, Some(v))) == ResultOf(v);
  }

  function PaySteps(s: Sys, w: WorkerId, job: Job, decided: Verdict): seq<Step> {
    ClaimSteps(w, job) + CallSteps(w, job, decided, VerdictOn(s, job.key, decided))
  }

  /** The state in which the verdict is in hand and nothing has been recorded about it yet. */
  function InHand(s: Sys, w: WorkerId, job: Job, decided: Verdict): Sys {
    Becomes(AfterSend(AfterClaim(s, w, job), job, decided), w,
            Settling(job, ResultOf(VerdictOn(s, job.key, decided)), [], true))
  }

  lemma Paying(s: Sys, w: WorkerId, job: Job, decided: Verdict)
    requires CanPay(s, w, job)
    ensures Exec(s, PaySteps(s, w, job, decided)) == InHand(s, w, job, decided)
  {
    Claiming(s, w, job);
    CallingThePsp(AfterClaim(s, w, job), w, job, decided, true);
    ExecConcat(s, ClaimSteps(w, job), CallSteps(w, job, decided, VerdictOn(s, job.key, decided)));
  }

  // ---- What an undisturbed payment does ----

  lemma PaymentDone(s: Sys, w: WorkerId, job: Job, decided: Verdict)
    requires CanPay(s, w, job)
    ensures var result := ResultOf(VerdictOn(s, job.key, decided));
      && var t := Apply(InHand(s, w, job, decided), RunFinalize(w));
      && t.db == FinalizeTx(ClaimTx(s.db, job, Open).0, job, result, s.now)
      && t.ledger == InHand(s, w, job, decided).ledger
      && t.workers == s.workers && t.answers == s.answers[w := Replied(Respond(job, result))]
  {
    assert s.workers[w := InHand(s, w, job, decided).workers[w]] - {w} == s.workers;
  }

  lemma PaymentSettles(db: Db, job: Job, v: Verdict, now: Time)
    requires ClaimTx(db, job, Open).1.Claimed? && job.invoice in db.invoices && db.invoices[job.invoice].state.Open?
    ensures var q := FinalizeTx(ClaimTx(db, job, Open).0, job, ResultOf(v), now);
      && job.attempt in q.attempts && job.invoice in q.invoices
      && (if v.Success? then q.invoices[job.invoice].state.Paid?
          else q.invoices[job.invoice] == db.invoices[job.invoice])
      && (if v.Success? then q.attempts[job.attempt].status.Succeeded? else q.attempts[job.attempt].status.Failed?)
  {
  }

  /**
   A payment that nobody disturbs: the attempt is settled by the PSP's verdict on the key, a charge
   or a refusal, and the ledger entry is this attempt's own exactly if the key was new to the PSP.
   */
  lemma UndisturbedPayment(s: Sys, w: WorkerId, job: Job, decided: Verdict)
    requires CanPay(s, w, job)
    requires job.key in s.ledger ==> s.ledger[job.key].origin in s.db.attempts
    ensures var t, v := Exec(s, PaySteps(s, w, job, decided) + [RunFinalize(w)]), VerdictOn(s, job.key, decided);
      && job.attempt in t.db.attempts && job.invoice in t.db.invoices && job.key in t.ledger
      && t.ledger[job.key].verdict == v
      && (t.ledger[job.key].origin == job.attempt <==> job.key !in s.ledger)
      && (if v.Success? then t.db.invoices[job.invoice].state.Paid?
          else t.db.invoices[job.invoice] == s.db.invoices[job.invoice])
      && (if v.Success? then t.db.attempts[job.attempt].status.Succeeded?
          else t.db.attempts[job.attempt].status.Failed?)
      && (job.key !in s.ledger ==> t.ledger == s.ledger[job.key := Charge(decided, job.token, job.amount, job.attempt)])
      && (job.key in s.ledger ==> t.ledger == s.ledger)
      && w in t.answers && t.answers[w] == Replied(Respond(job, ResultOf(v)))
  {
    Paying(s, w, job, decided);
    ExecConcat(s, PaySteps(s, w, job, decided), [RunFinalize(w)]);
    ExecOne(InHand(s, w, job, decided), RunFinalize(w));
    PaymentDone(s, w, job, decided);
    PaymentSettles(s.db, job, VerdictOn(s, job.key, decided), s.now);
  }

  // ---- A void overtakes the payment ----

  function SomeJob(business: Id, i: Id, a: Id): Job { Job(business, i, a, [0x6B], [0x74], 100) }

  lemma SomeJobCanPay(s: Sys, w: WorkerId, business: Id, i: Id, a: Id)
    requires NewWorker(s, w) && a !in s.db.attempts
    requires i in s.db.invoices && s.db.invoices[i] == OpenInvoice(business, 0)
    requires KeyId(business, [0x6B]) !in s.db.keys && !Pinned(s.db.attempts, i)
    ensures CanPay(s, w, SomeJob(business, i, a))
  {
    assert LeadingSpace([0x74]) == 0;
  }

  lemma Voiding(s: Sys, w: WorkerId, business: Id, i: Id)
    requires NewWorker(s, w)
    requires i in s.db.invoices && s.db.invoices[i].business == business && s.db.invoices[i].state.Open?
    ensures Exec(s, [AdminRead(w, business, i, Void), RunAdmin(w)])
            == s.(db := AdminTx(s.db, business, i, Open, Void, s.now))
  {
    ExecTwo(s, AdminRead(w, business, i, Void), RunAdmin(w));
    var k := Deciding(business, i, Open, Void);
    assert Apply(s, AdminRead(w, business, i, Void)) == Becomes(s, w, k);
    assert s.workers[w := k] - {w} == s.workers;
  }

  /** A reachable state in which the money has moved, the client was told "paid", and the invoice is void. */
  lemma VoidedYetCharged() returns (steps: seq<Step>)
    ensures var s := Run(steps);
      && 5 in s.db.attempts && s.db.attempts[5].status.Succeeded? && s.db.attempts[5].invoice == 1
      && 1 in s.db.invoices && s.db.invoices[1].state.Void?
      && ChargesOn(s, 1) == {[0x6B]}
      && 1 in s.answers && s.answers[1].Replied? && s.answers[1].response.code == 200
      && s.answers[1].response.body.invoiceState.Paid?
  {
    var job := SomeJob(3, 1, 5);
    var s := AfterOpen(Init(), 3, 1);
    Opening(Init(), 0, 3, 1);
    SomeJobCanPay(s, 1, 3, 1, 5);
    Paying(s, 1, job, Success([0x72]));
    var t := InHand(s, 1, job, Success([0x72]));
    Voiding(t, 2, 3, 1);
    var u := t.(db := AdminTx(t.db, 3, 1, Open, Void, t.now));
    ExecOne(u, RunFinalize(1));
    var pay, v := PaySteps(s, 1, job, Success([0x72])), [AdminRead(2, 3, 1, Void), RunAdmin(2)];
    ExecConcat(Init(), OpenSteps(0, 3, 1), pay);
    ExecConcat(Init(), OpenSteps(0, 3, 1) + pay, v);
    ExecConcat(Init(), OpenSteps(0, 3, 1) + pay + v, [RunFinalize(1)]);
    steps := OpenSteps(0, 3, 1) + pay + v + [RunFinalize(1)];
    OvertakenFinalize(u, job);
  }

  lemma OvertakenFinalize(u: Sys, job: Job)
    requires 1 in u.workers && u.workers[1] == Settling(job, Charged([0x72]), [], true) && job == SomeJob(3, 1, 5)
    requires u.db.attempts == map[5 := Attempt(1, 3, job.key, 100, job.token, Pending, None, None, None, 1, None)]
    requires 1 in u.db.invoices && u.db.invoices[1].state.Void?
    requires u.ledger == map[job.key := Charge(Success([0x72]), job.token, 100, 5)]
    ensures var s := Apply(u, RunFinalize(1));
      && 5 in s.db.attempts && s.db.attempts[5].status.Succeeded? && s.db.attempts[5].invoice == 1
      && 1 in s.db.invoices && s.db.invoices[1].state.Void?
      && ChargesOn(s, 1) == {job.key}
      && 1 in s.answers && s.answers[1] == Replied(Respond(job, Charged([0x72])))
  {
    var s := Apply(u, RunFinalize(1));
    assert s.db.attempts[5].invoice == 1 && s.ledger == u.ledger;
    assert forall k :: k in ChargesOn(s, 1) <==> k == job.key;
  }

  // ---- A request and a reconciler announce the same payment ----

  lemma BothFinalize(s: Sys, w: WorkerId, v: WorkerId, job: Job, result: PspResult)
    requires w in s.workers && s.workers[w] == Settling(job, result, [], true) && w != v && !result.Unknown?
    requires v in s.workers && s.workers[v] == Settling(job, result, [], false)
    ensures var t := Apply(Apply(s, RunFinalize(w)), RunFinalize(v));
      Outcomes(t.db.events, job.attempt) == Outcomes(s.db.events, job.attempt) + 2
  {
    var notice := OutcomeEvent(job, Respond(job, result).body);
    var t := Apply(s, RunFinalize(w));
    assert t.db.events == s.db.events + [notice] && v in t.workers && t.workers[v] == s.workers[v];
    assert Apply(t, RunFinalize(v)).db.events == t.db.events + [notice];
    CountOne(s.db.events, notice, job.attempt);
    CountOne(t.db.events, notice, job.attempt);
  }

  lemma LeasingOne(s: Sys, v: WorkerId, a: Id)
    requires NewWorker(s, v) && a in s.db.attempts
    requires s.db.attempts[a].status.Pending? && s.db.attempts[a].nextPollAt.None?
    ensures var t := Apply(s, Lease(v, [a]));
      && t.workers == s.workers[v := Calling(JobOf(a, s.db.attempts[a]), [], false)]
      && t.db.events == s.db.events && t.ledger == s.ledger
  {
    assert JobsOf(s.db.attempts, [a]) == [JobOf(a, s.db.attempts[a])];
    assert [JobOf(a, s.db.attempts[a])][1..] == [];
  }

  /** A reconciler may lease a pending attempt whose request is still alive, and settle it too. */
  lemma Reclaiming(s: Sys, v: WorkerId, job: Job, verdict: Verdict)
    requires NewWorker(s, v) && job.attempt in s.db.attempts && JobOf(job.attempt, s.db.attempts[job.attempt]) == job
    requires s.db.attempts[job.attempt].status.Pending? && s.db.attempts[job.attempt].nextPollAt.None?
    requires job.key in s.ledger && s.ledger[job.key].verdict == verdict
    ensures var t := Exec(s, [Lease(v, [job.attempt])] + CallSteps(v, job, verdict, verdict));
      && t.db.events == s.db.events && t.workers == s.workers[v := Settling(job, ResultOf(verdict), [], false)]
  {
    var lease, k := Lease(v, [job.attempt]), Settling(job, ResultOf(verdict), [], false);
    LeasingOne(s, v, job.attempt);
    var t := Apply(s, lease);
    ExecConcat(s, [lease], CallSteps(v, job, verdict, verdict));
    ExecOne(s, lease);
    CallingThePsp(t, v, job, verdict, false);
    assert t.workers[v := k] == s.workers[v := k];
  }

  /** A reachable state in which one payment has been announced twice. */
  lemma AnnouncedTwice() returns (steps: seq<Step>)
    ensures Outcomes(Run(steps).db.events, 5) == 2
  {
    var job, yes := SomeJob(3, 1, 5), Success([0x72]);
    var s := AfterOpen(Init(), 3, 1);
    Opening(Init(), 0, 3, 1);
    SomeJobCanPay(s, 1, 3, 1, 5);
    Paying(s, 1, job, yes);
    var t := InHand(s, 1, job, yes);
    Reclaiming(t, 2, job, yes);
    var pay, again := PaySteps(s, 1, job, yes), [Lease(2, [5])] + CallSteps(2, job, yes, yes);
    var u := Exec(t, again);
    BothFinalize(u, 1, 2, job, ResultOf(yes));
    ExecTwo(u, RunFinalize(1), RunFinalize(2));
    ExecConcat(Init(), OpenSteps(0, 3, 1), pay);
    ExecConcat(Init(), OpenSteps(0, 3, 1) + pay, again);
    ExecConcat(Init(), OpenSteps(0, 3, 1) + pay + again, [RunFinalize(1), RunFinalize(2)]);
    steps := OpenSteps(0, 3, 1) + pay + again + [RunFinalize(1), RunFinalize(2)];
    CountOne([], InvoiceCreated(3, 1, 0, 100), 5);
    assert [] + [InvoiceCreated(3, 1, 0, 100)] == u.db.events;
  }

  // ---- Two businesses, one key ----

  lemma PinsOnlyItsInvoice(db: Db, job: Job, result: PspResult, now: Time, i: Id)
    requires job.attempt !in db.attempts && i != job.invoice && !Pinned(db.attempts, i)
    requires ClaimTx(db, job, Open).1.Claimed?
    ensures !Pinned(FinalizeTx(ClaimTx(db, job, Open).0, job, result, now).attempts, i)
  {
    var q := FinalizeTx(ClaimTx(db, job, Open).0, job, result, now).attempts;
    forall a | a in q && q[a].invoice == i ensures !Active(q[a]) {
      assert a in db.attempts && q[a] == db.attempts[a];
    }
  }

  lemma OthersCanStillPay(s: Sys, w: WorkerId, job: Job, decided: Verdict, v: WorkerId, other: Job)
    requires CanPay(s, w, job) && CanPay(s, v, other) && w != v
    requires job.business != other.business && job.attempt != other.attempt
    ensures CanPay(Apply(InHand(s, w, job, decided), RunFinalize(w)), v, other)
  {
    PaymentDone(s, w, job, decided);
    PinsOnlyItsInvoice(s.db, job, ResultOf(VerdictOn(s, job.key, decided)), s.now, other.invoice);
  }

  /**
   If another business pays first under the same key, the second payment is settled by the first
   one's entry: it is paid or refused just like the first, and the PSP never decided about it.
   */
  lemma SharedKeyPaysWithoutCharge(s: Sys, w: WorkerId, job: Job, decided: Verdict, v: WorkerId, other: Job,
                                   later: Verdict)
    requires CanPay(s, w, job) && CanPay(s, v, other) && w != v
    requires job.business != other.business && job.attempt != other.attempt && other.key == job.key
    requires job.key !in s.ledger
    requires forall k :: k in s.ledger ==> s.ledger[k].origin in s.db.attempts
    ensures var t := Exec(s, PaySteps(s, w, job, decided) + [RunFinalize(w)]);
      && CanPay(t, v, other)
      && var u := Exec(t, PaySteps(t, v, other, later) + [RunFinalize(v)]);
      && other.invoice in u.db.invoices && (decided.Success? <==> u.db.invoices[other.invoice].state.Paid?)
      && u.ledger == s.ledger[job.key := Charge(decided, job.token, job.amount, job.attempt)]
  {
    UndisturbedPayment(s, w, job, decided);
    Paying(s, w, job, decided);
    ExecConcat(s, PaySteps(s, w, job, decided), [RunFinalize(w)]);
    ExecOne(InHand(s, w, job, decided), RunFinalize(w));
    OthersCanStillPay(s, w, job, decided, v, other);
    UndisturbedPayment(Exec(s, PaySteps(s, w, job, decided) + [RunFinalize(w)]), v, other, later);
  }

  /** Two businesses that could each pay under one key do occur. */
  lemma SharedKeyOccurs() returns (steps: seq<Step>)
    ensures CanPay(Run(steps), 1, SomeJob(3, 1, 5)) && CanPay(Run(steps), 2, SomeJob(4, 2, 6))
    ensures Run(steps).ledger == map[]
  {
    var s := AfterOpen(Init(), 3, 1);
    Opening(Init(), 0, 3, 1);
    Opening(s, 0, 4, 2);
    var t := AfterOpen(s, 4, 2);
    ExecConcat(Init(), OpenSteps(0, 3, 1), OpenSteps(0, 4, 2));
    steps := OpenSteps(0, 3, 1) + OpenSteps(0, 4, 2);
    SomeJobCanPay(t, 1, 3, 1, 5);
    SomeJobCanPay(t, 2, 4, 2, 6);
  }
}
