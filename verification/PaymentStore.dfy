/**
 The payment tables as the service updates them: statement by statement, in place. Each method is
 one transaction, and is proved to take the tables exactly where the corresponding function of
 `PaymentTables` does; everything proved about those functions is thereby about these methods.
 */
module PaymentStore {
  import opened Common
  import opened LineItems
  import opened InvoiceLifecycle
  import opened PaymentTables
  import opened PaymentProtocol
  import opened PaymentBatch
  import opened Reconciler
  import Fingerprint

  /** What an invoice request comes to. */
  datatype Creation = Invalid(issues: seq<FieldIssue>) | CustomerNotFound | Overflow | Stored

  class Store {
    var invoices: map<Id, Invoice>
    var attempts: map<Id, Attempt>
    var keys: map<KeyId, KeyRow>
    var events: seq<Event>
    /** The customers, each with the business it belongs to. */
    var customers: map<Id, Id>

    constructor (customers: map<Id, Id>)
      ensures Tables() == Db(map[], map[], map[], []) && this.customers == customers
    {
      invoices, attempts, keys, events := map[], map[], map[], [];
      this.customers := customers;
    }

    function Tables(): Db
      reads this
    {
      Db(invoices, attempts, keys, events)
    }

    predicate Knows(business: Id, customer: Id)
      reads this
    {
      customer in customers && customers[customer] == business
    }

    /** `invoice_service::create`: validation first, then the customer, then one transaction. */
    method Create(id: Id, business: Id, customer: Id, items: seq<LineItem>) returns (outcome: Creation)
      modifies this`invoices, this`events
      ensures Tables()
              == if outcome.Stored? then CreateTx(old(Tables()), id, business, customer, items) else old(Tables())
      ensures outcome.Invalid? <==> !Acceptable(items)
      ensures outcome.Invalid? ==> ReportsExactly(outcome.issues, items)
      ensures outcome.CustomerNotFound? <==> Acceptable(items) && !Knows(business, customer)
      ensures outcome.Stored? <==> Acceptable(items) && Knows(business, customer) && Total(items) <= I64_MAX
    {
      var issues := ValidateLineItems(items);
      if issues != [] {
        return Invalid(issues);
      }
      if customer !in customers || customers[customer] != business {
        return CustomerNotFound;
      }
      var total := StoreLineItems(items);
      TotalIsMonotone(items, 0);
      if total.None? {
        return Overflow;
      }
      invoices := invoices[id := Invoice(business, customer, Draft, items, total.value, None, None, None, 0)];
      events := events + [InvoiceCreated(business, id, customer, total.value)];
      return Stored;
    }

    /** Transaction 1: insert the key, check, insert the attempt, link; any failure rolls the key back. */
    method Claim(job: Job, seen: InvoiceState) returns (claim: PaymentTables.Claim)
      modifies this`attempts, this`keys
      ensures (Tables(), claim) == ClaimTx(old(Tables()), job, seen)
    {
      var id := KeyId(job.business, job.key);
      if id in keys {
        return MustReplay;
      }
      var saved := keys;
      keys := keys[id := KeyRow(Fingerprint.Of(job.invoice, job.token, job.amount), false, None, None)];
      if !seen.Open? {
        keys := saved;
        return NotPayable;
      }
      if Pinned(attempts, job.invoice) {
        keys := saved;
        return InProgress;
      }
      attempts := attempts[job.attempt :=
        Attempt(job.invoice, job.business, job.key, job.amount, job.token, Pending, None, None, None, 1, None)];
      keys := keys[id := keys[id].(attempt := Some(job.attempt))];
      assert keys == saved[id := keys[id]];
      return Claimed;
    }

    /** Transaction 2: the attempt, the invoice, the event and the key, in that order. */
    method Finalize(job: Job, result: PspResult, now: Time) returns (response: Response)
      modifies this`invoices, this`attempts, this`keys, this`events
      ensures Tables() == FinalizeTx(old(Tables()), job, result, now)
      ensures response == Respond(job, result)
    {
      response := Respond(job, result);
      match result {
        case Charged(ref) =>
          if job.attempt in attempts && attempts[job.attempt].status.Pending? {
            attempts := attempts[job.attempt := attempts[job.attempt].(status := Succeeded, pspRef := Some(ref))];
          }
          if job.invoice in invoices && invoices[job.invoice].state.Open? {
            var inv := invoices[job.invoice];
            invoices := invoices[job.invoice := inv.(state := Paid, paidAt := Some(now), version := inv.version + 1)];
          }
          Conclude(job, response);
        case Declined(code) =>
          if job.attempt in attempts && attempts[job.attempt].status.Pending? {
            attempts := attempts[job.attempt := attempts[job.attempt].(status := Failed, failureCode := Some(code))];
          }
          Conclude(job, response);
        case Unknown(reason) =>
          if job.attempt in attempts && attempts[job.attempt].status.Pending? {
            var at := attempts[job.attempt];
            attempts := attempts[job.attempt :=
              at.(lastError := Some(reason), attemptCount := at.attemptCount + 1, nextPollAt := Some(now + 5))];
          }
      }
      assert attempts == SettleRow(old(attempts), job.attempt, result, now);
      assert result.Charged? ==> invoices == PayRow(old(invoices), job.invoice, now);
    }

    /** `emit` and `complete_key`; the key's cached response is overwritten, whatever it held. */
    method Conclude(job: Job, response: Response)
      modifies this`events, this`keys
      ensures events == old(events) + [OutcomeEvent(job, response.body)]
      ensures keys == CompleteKey(old(keys), KeyId(job.business, job.key), response)
    {
      events := events + [OutcomeEvent(job, response.body)];
      var id := KeyId(job.business, job.key);
      if id in keys {
        keys := keys[id := keys[id].(completed := true, response := Some(response))];
      }
    }

    /** The lease query's selection: due rows that nobody has locked, by next poll, at most a batch. */
    method SelectBatch(locked: set<Id>, now: Time) returns (ids: seq<Id>)
      ensures IsBatch(attempts, locked, now, ids)
    {
      var due := set a | a in attempts && a !in locked && Due(attempts[a], now);
      ids := [];
      while |ids| < BATCH && due != {}
        invariant IsSelection(attempts, locked, now, ids, due)
        decreases |due|
      {
        FirstExists(attempts, due);
        var a :| a in due && IsFirst(attempts, due, a);
        SelectionGrows(attempts, locked, now, ids, due, a);
        ids, due := ids + [a], due - {a};
      }
    }

    /** The lease: push the selected rows' next poll out by thirty seconds and return their jobs. */
    method LeaseBatch(locked: set<Id>, now: Time) returns (ids: seq<Id>, jobs: seq<Job>)
      modifies this`attempts
      ensures IsBatch(old(attempts), locked, now, ids)
      ensures attempts == LeaseRows(old(attempts), ids, now)
      ensures jobs == JobsOf(old(attempts), ids)
    {
      ids := SelectBatch(locked, now);
      jobs := JobsOf(attempts, ids);
      attempts := map a | a in attempts ::
        if a in ids then attempts[a].(nextPollAt := Some(now + 30)) else attempts[a];
    }

    /** The reconciler's loop over a leased batch; the PSP's replies and the clock are inputs. */
    method Reconcile(rounds: seq<Round>)
      modifies this`invoices, this`attempts, this`keys, this`events
      ensures Tables() == Pass(old(Tables()), rounds)
    {
      for n := 0 to |rounds|
        invariant Pass(Tables(), rounds[n..]) == Pass(old(Tables()), rounds)
      {
        assert rounds[n..][1..] == rounds[n + 1..];
        if rounds[n].commits {
          var _ := Finalize(rounds[n].job, Classify(rounds[n].reply), rounds[n].at);
        }
      }
    }

    /** `invoice_repo::transition`: tells whether the row was still in `from`. */
    method Transition(business: Id, id: Id, from: InvoiceState, to: InvoiceState, now: Time) returns (updated: bool)
      modifies this`invoices
      ensures Tables() == AdminTx(old(Tables()), business, id, from, to, now)
      ensures updated ==> id in invoices && invoices[id].state == to
      ensures updated
              <==> id in old(invoices) && old(invoices)[id].business == business && old(invoices)[id].state == from
    {
      updated := id in invoices && invoices[id].business == business && invoices[id].state == from;
      if updated {
        var inv := invoices[id];
        invoices := invoices[id := inv.(state := to,
                                        version := inv.version + 1,
                                        finalizedAt := if to.Open? then Some(now) else inv.finalizedAt,
                                        voidedAt := if to.Void? then Some(now) else inv.voidedAt)];
      }
      assert invoices == AdminTx(old(Tables()), business, id, from, to, now).invoices;
    }
  }
}
