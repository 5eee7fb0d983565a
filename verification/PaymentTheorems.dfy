/**
 What holds in every run of the payment system, with any number of concurrent payments,
 reconcilers, lost or late replies, crashes, expired leases and admin transitions.
 */
module PaymentTheorems {
  import opened Common
  import opened InvoiceLifecycle
  import opened PaymentTables
  import opened PaymentProtocol
  import opened PaymentInvariant
  import opened PaymentSafety

  lemma RunOk(steps: seq<Step>)
    ensures Inv(Run(steps))
  {
    InitOk();
    RunKeeps(Init(), steps);
  }

  // ---- The PSP ledger ----

  /** The ledger entries that moved money for an invoice. */
  ghost function ChargesOn(s: Sys, invoice: Id): set<Key> {
    set k | k in s.ledger && s.ledger[k].verdict.Success?
            && s.ledger[k].origin in s.db.attempts && s.db.attempts[s.ledger[k].origin].invoice == invoice
  }

  /** At most one successful charge ever exists per invoice. */
  lemma AtMostOneCharge(steps: seq<Step>, invoice: Id)
    ensures |ChargesOn(Run(steps), invoice)| <= 1
  {
    RunOk(steps);
    var charges := ChargesOn(Run(steps), invoice);
    if c :| c in charges {
      forall k | k in charges ensures k == c {
        ChargesCoincide(Run(steps), invoice, k, c);
      }
      assert charges == {c};
    }
  }

  lemma ChargesCoincide(s: Sys, invoice: Id, k: Key, l: Key)
    requires Inv(s) && k in ChargesOn(s, invoice) && l in ChargesOn(s, invoice)
    ensures k == l
  {
    ChargePinsInvoice(s, k);
    ChargePinsInvoice(s, l);
    assert Rivals(s.db.attempts, s.ledger[k].origin, s.ledger[l].origin);
  }

  /** A key with a successful charge always has a pending or succeeded attempt: nothing unpins the invoice. */
  lemma ChargePinsInvoice(s: Sys, k: Key)
    requires Inv(s) && k in s.ledger && s.ledger[k].verdict.Success?
    ensures var a := s.ledger[k].origin;
            && a in s.db.attempts && s.db.attempts[a].key == k && Active(s.db.attempts[a])
            && Pinned(s.db.attempts, s.db.attempts[a].invoice)
  {
    var a := s.ledger[k].origin;
    assert ChargeOk(s.db.attempts, k, s.ledger[k]);
    assert SettledOk(s.ledger, s.db.attempts[a]);
    assert AttemptOk(s.db.invoices, s.db.keys, a, s.db.attempts[a]);
  }

  /** What the attempts, the replies in flight and the results in hand say is what the ledger says. */
  lemma LedgerAgreement(steps: seq<Step>)
    ensures var s := Run(steps);
      && (forall a :: a in s.db.attempts && s.db.attempts[a].status.Succeeded? ==>
            var at := s.db.attempts[a];
            at.key in s.ledger && at.pspRef.Some? && s.ledger[at.key].verdict == Success(at.pspRef.value))
      && (forall a :: a in s.db.attempts && s.db.attempts[a].status.Failed? ==>
            var at := s.db.attempts[a];
            at.key in s.ledger && at.failureCode.Some? && s.ledger[at.key].verdict == Failure(at.failureCode.value))
      && (forall r :: r in s.replies ==> r.key in s.ledger && s.ledger[r.key].verdict == r.verdict)
      && (forall w :: w in s.workers && s.workers[w].Settling? && !s.workers[w].result.Unknown? ==>
            s.workers[w].job.key in s.ledger
            && s.workers[w].result == ResultOf(s.ledger[s.workers[w].job.key].verdict))
      && (forall k :: k in s.ledger && s.ledger[k].verdict.Success? ==>
            s.ledger[k].origin in s.db.attempts && Active(s.db.attempts[s.ledger[k].origin]))
  {
    RunOk(steps);
    var s := Run(steps);
    forall a | a in s.db.attempts ensures AttemptShape(s.db.attempts[a]) && SettledOk(s.ledger, s.db.attempts[a]) {
      assert AttemptOk(s.db.invoices, s.db.keys, a, s.db.attempts[a]);
    }
    forall w | w in s.workers ensures WorkerOk(s.db, s.ledger, s.workers[w]) {
    }
    forall k | k in s.ledger && s.ledger[k].verdict.Success?
      ensures s.ledger[k].origin in s.db.attempts && Active(s.db.attempts[s.ledger[k].origin])
    {
      ChargePinsInvoice(s, k);
    }
  }

  /** Only one business has used this idempotency key. */
  predicate OneBusiness(keys: map<KeyId, KeyRow>, k: Key) {
    forall x, y :: x in keys && y in keys && x.key == k && y.key == k ==> x == y
  }

  /** Every attempt under the key is the one that the PSP's entry was made for: its token and its amount. */
  predicate AllOwn(s: Sys, k: Key)
    requires k in s.ledger
  {
    forall a :: a in s.db.attempts && s.db.attempts[a].key == k ==>
      s.ledger[k] == Charge(s.ledger[k].verdict, s.db.attempts[a].token, s.db.attempts[a].amount, a)
  }

  lemma OwnIfOneBusiness(s: Sys, k: Key, a: Id)
    requires Inv(s) && k in s.ledger && OneBusiness(s.db.keys, k)
    requires a in s.db.attempts && s.db.attempts[a].key == k
    ensures s.ledger[k] == Charge(s.ledger[k].verdict, s.db.attempts[a].token, s.db.attempts[a].amount, a)
  {
    var o := s.ledger[k].origin;
    assert ChargeOk(s.db.attempts, k, s.ledger[k]);
    assert AttemptOk(s.db.invoices, s.db.keys, a, s.db.attempts[a]);
    assert AttemptOk(s.db.invoices, s.db.keys, o, s.db.attempts[o]);
    assert KeyId(s.db.attempts[a].business, k) == KeyId(s.db.attempts[o].business, k);
  }

  /**
   The PSP is not told which business a key belongs to. Under a key it has an entry for, every
   attempt is charged or refused in its own right if and only if a single business uses the key.
   */
  lemma ChargeIsOwnIffOneBusiness(steps: seq<Step>, k: Key)
    requires k in Run(steps).ledger
    ensures AllOwn(Run(steps), k) <==> OneBusiness(Run(steps).db.keys, k)
  {
    RunOk(steps);
    var s := Run(steps);
    if OneBusiness(s.db.keys, k) {
      forall a | a in s.db.attempts && s.db.attempts[a].key == k
        ensures s.ledger[k] == Charge(s.ledger[k].verdict, s.db.attempts[a].token, s.db.attempts[a].amount, a)
      {
        OwnIfOneBusiness(s, k, a);
      }
    }
    if AllOwn(s, k) {
      forall x, y | x in s.db.keys && y in s.db.keys && x.key == k && y.key == k ensures x == y {
        assert KeyOk(s.db.attempts, x, s.db.keys[x]) && KeyOk(s.db.attempts, y, s.db.keys[y]);
      }
    }
  }

  /** If no other business uses its key, the charge behind a settled attempt was made for that attempt. */
  lemma ChargeWasForThisAttempt(steps: seq<Step>, a: Id)
    requires a in Run(steps).db.attempts && !Run(steps).db.attempts[a].status.Pending?
    requires OneBusiness(Run(steps).db.keys, Run(steps).db.attempts[a].key)
    ensures var s := Run(steps);
      var at := s.db.attempts[a];
      && at.key in s.ledger && s.ledger[at.key].origin == a
      && s.ledger[at.key].token == at.token && s.ledger[at.key].amount == at.amount
  {
    RunOk(steps);
    var s := Run(steps);
    assert AttemptOk(s.db.invoices, s.db.keys, a, s.db.attempts[a]);
    assert SettledOk(s.ledger, s.db.attempts[a]);
    ChargeIsOwnIffOneBusiness(steps, s.db.attempts[a].key);
  }

  // ---- What clients are to be told ----

  function ChargedBody(a: Id, at: Attempt, ref: Text): Body {
    Body(a, at.invoice, Succeeded, at.amount, Paid, Some(ref), None, None, None)
  }

  function DeclinedBody(a: Id, at: Attempt, code: Text): Body {
    Body(a, at.invoice, Failed, at.amount, Open, None, Some(code), Some("the payment was declined"), None)
  }

  /** Told first-hand, when the outcome is not known yet. */
  function ProcessingBody(a: Id, at: Attempt): Body {
    Body(a, at.invoice, Pending, at.amount, Open, None, None,
         Some("payment is being processed; poll for the result"), Some(PollUrl(at.invoice, a)))
  }

  /** Told to a repeated request, as long as the outcome is not known. */
  function StillBody(a: Id, invoice: Id): Body {
    Body(a, invoice, Pending, 0, Open, None, None, Some("payment is still being processed"),
         Some(PollUrl(invoice, a)))
  }

  // ---- Keys and attempts ----

  /** Keys and attempts are in one-to-one correspondence; a key is completed exactly when its attempt settled. */
  lemma KeysMirrorAttempts(steps: seq<Step>)
    ensures var db := Run(steps).db;
      && (forall id :: id in db.keys ==>
            && db.keys[id].attempt.Some? && db.keys[id].attempt.value in db.attempts
            && var a := db.keys[id].attempt.value;
            && var at := db.attempts[a];
            && KeyId(at.business, at.key) == id
            && (db.keys[id].completed <==> at.status.Succeeded? || at.status.Failed?)
            && (at.status.Succeeded? ==>
                  at.pspRef.Some?
                  && db.keys[id].response == Some(Response(200, ChargedBody(a, at, at.pspRef.value))))
            && (at.status.Failed? ==>
                  at.failureCode.Some?
                  && db.keys[id].response == Some(Response(402, DeclinedBody(a, at, at.failureCode.value)))))
      && (forall a :: a in db.attempts ==>
            var id := KeyId(db.attempts[a].business, db.attempts[a].key);
            id in db.keys && db.keys[id].attempt == Some(a) && !db.attempts[a].status.Expired?)
  {
    RunOk(steps);
    var db := Run(steps).db;
    forall id | id in db.keys
      ensures KeyOk(db.attempts, id, db.keys[id]) && AttemptShape(db.attempts[db.keys[id].attempt.value])
    {
      var a := db.keys[id].attempt.value;
      assert AttemptOk(db.invoices, db.keys, a, db.attempts[a]);
    }
    forall a | a in db.attempts ensures AttemptOk(db.invoices, db.keys, a, db.attempts[a]) {
    }
  }

  /** A request that found its key taken always finds the key row when it reads it. */
  lemma ReplayFindsItsRow(steps: seq<Step>, w: WorkerId)
    requires w in Run(steps).workers && Run(steps).workers[w].Replaying?
    ensures Enabled(Run(steps), RunReplay(w))
  {
    RunOk(steps);
    assert WorkerOk(Run(steps).db, Run(steps).ledger, Run(steps).workers[w]);
  }

  /** A completed key's row never changes again, although every definite finalize overwrites it. */
  lemma CompletedKeyIsFrozen(p: seq<Step>, q: seq<Step>, id: KeyId)
    requires id in Run(p).db.keys && Run(p).db.keys[id].completed
    ensures id in Run(p + q).db.keys && Run(p + q).db.keys[id] == Run(p).db.keys[id]
  {
    RunOk(p);
    ExecConcat(Init(), p, q);
    RunKeeps(Run(p), q);
  }

  // ---- Invoices and their attempts ----

  /** Paid means exactly one succeeded attempt; a draft has none at all; success leaves the invoice terminal. */
  lemma PaidMeansOneSuccess(steps: seq<Step>, i: Id)
    requires i in Run(steps).db.invoices
    ensures var db := Run(steps).db;
      && (db.invoices[i].state.Paid? ==> exists a :: PaidBy(db.attempts, i, a))
      && (forall a, b :: PaidBy(db.attempts, i, a) && PaidBy(db.attempts, i, b) ==> a == b)
      && (forall a :: a in db.attempts && db.attempts[a].invoice == i ==> !db.invoices[i].state.Draft?)
      && (forall a :: PaidBy(db.attempts, i, a) ==> IsTerminal(db.invoices[i].state))
  {
    RunOk(steps);
    var db := Run(steps).db;
    assert InvoiceOk(db.attempts, i, db.invoices[i]);
    forall a, b | PaidBy(db.attempts, i, a) && PaidBy(db.attempts, i, b) ensures a == b {
      assert Rivals(db.attempts, a, b);
    }
    forall a | a in db.attempts && db.attempts[a].invoice == i
      ensures AttemptOk(db.invoices, db.keys, a, db.attempts[a])
    {
    }
  }

  /** A pending attempt's invoice is open unless an admin has voided it or written it off. */
  lemma PendingMeansNotPaid(s: Sys, a: Id)
    requires Inv(s) && a in s.db.attempts && s.db.attempts[a].status.Pending?
    ensures s.db.attempts[a].invoice in s.db.invoices
    ensures var st := s.db.invoices[s.db.attempts[a].invoice].state; st.Open? || st.Void? || st.Uncollectible?
  {
    var i := s.db.attempts[a].invoice;
    assert AttemptOk(s.db.invoices, s.db.keys, a, s.db.attempts[a]);
    assert InvoiceOk(s.db.attempts, i, s.db.invoices[i]);
    if s.db.invoices[i].state.Paid? {
      var b :| PaidBy(s.db.attempts, i, b);
      assert Rivals(s.db.attempts, a, b);
    }
  }

  // ---- Invoice rows over a run ----

  predicate InvoiceSettles(inv: Invoice, later: Invoice) {
    && later.business == inv.business && later.customer == inv.customer
    && later.items == inv.items && later.total == inv.total
    && (IsTerminal(inv.state) ==> later == inv)
  }

  predicate InvoicesSettle(p: map<Id, Invoice>, q: map<Id, Invoice>) {
    forall i :: i in p ==> i in q && InvoiceSettles(p[i], q[i])
  }

  /** Over a whole run the priced content of an invoice is fixed and a terminal invoice never changes. */
  lemma {:induction false} TerminalIsForever(s: Sys, steps: seq<Step>)
    requires Inv(s)
    ensures InvoicesSettle(s.db.invoices, Exec(s, steps).db.invoices)
    decreases |steps|
  {
    if steps != [] {
      var front := steps[..|steps| - 1];
      TerminalIsForever(s, front);
      RunKeeps(s, front);
      StepKeeps(Exec(s, front), steps[|steps| - 1]);
      SettlesThenGrows(s.db.invoices, Exec(s, front).db.invoices, Exec(s, steps).db.invoices);
    }
  }

  lemma SettlesThenGrows(p: map<Id, Invoice>, q: map<Id, Invoice>, r: map<Id, Invoice>)
    requires InvoicesSettle(p, q) && InvoicesGrow(q, r)
    ensures InvoicesSettle(p, r)
  {
    forall i | i in p ensures i in r && InvoiceSettles(p[i], r[i]) {
      assert i in q && Succeeds(q[i], r[i]);
    }
  }

  /** Each change of an invoice, by an admin or by the payment path, is one the transition table allows. */
  lemma TransitionsAreLegal(steps: seq<Step>, next: Step, i: Id)
    requires i in Run(steps).db.invoices
    ensures i in Run(steps + [next]).db.invoices
    ensures var before, after := Run(steps).db.invoices[i], Run(steps + [next]).db.invoices[i];
      && PathRecorded(before) && PathRecorded(after)
      && (after == before || CanTransitionTo(before.state, after.state))
      && (after.state.Paid? && !before.state.Paid? ==> next.RunFinalize?)
  {
    RunOk(steps);
    ExecConcat(Init(), steps, [next]);
    InvoiceMoves(Run(steps), next, i);
  }

  lemma InvoiceMoves(s: Sys, next: Step, i: Id)
    requires Inv(s) && i in s.db.invoices
    ensures var t := Exec(s, [next]);
      && i in t.db.invoices && PathRecorded(s.db.invoices[i]) && PathRecorded(t.db.invoices[i])
      && Succeeds(s.db.invoices[i], t.db.invoices[i])
      && (t.db.invoices[i].state.Paid? && !s.db.invoices[i].state.Paid? ==> next.RunFinalize?)
  {
    StepKeeps(s, next);
    var t := Apply(s, next);
    assert Exec(s, [next]) == t;
    assert Succeeds(s.db.invoices[i], t.db.invoices[i]);
    assert InvoiceOk(s.db.attempts, i, s.db.invoices[i]);
    assert InvoiceOk(t.db.attempts, i, t.db.invoices[i]);
    if !next.RunFinalize? && !s.db.invoices[i].state.Paid? {
      OnlyFinalizePays(s, next, i);
    }
  }

  lemma OnlyFinalizePays(s: Sys, next: Step, i: Id)
    requires Inv(s) && i in s.db.invoices && !s.db.invoices[i].state.Paid? && !next.RunFinalize?
    ensures i in Apply(s, next).db.invoices && !Apply(s, next).db.invoices[i].state.Paid?
  {
    if !IsTransaction(next) {
      ReadOnlyLeavesTables(s, next);
    } else if Enabled(s, next) {
      if next.RunAdmin? {
        assert WorkerOk(s.db, s.ledger, s.workers[next.w]);
      }
      TransactionPaysNothing(s, next, i);
    }
  }

  lemma TransactionPaysNothing(s: Sys, next: Step, i: Id)
    requires IsTransaction(next) && Enabled(s, next) && !next.RunFinalize?
    requires next.RunAdmin? ==> !s.workers[next.w].to.Paid?
    requires i in s.db.invoices && !s.db.invoices[i].state.Paid?
    ensures i in Apply(s, next).db.invoices && !Apply(s, next).db.invoices[i].state.Paid?
  {
    if next.RunClaim? {
      ClaimAddsNoInvoice(s, next.w, next.attempt);
    }
  }

  lemma ClaimAddsNoInvoice(s: Sys, w: WorkerId, attempt: Id)
    requires Enabled(s, RunClaim(w, attempt))
    ensures DoClaim(s, w, attempt).db.invoices == s.db.invoices
  {
  }
}
