# Verified model of the invoice and payment service

A Dafny model of a small billing backend: businesses create invoices, customers pay them through a
payment service provider (PSP), and businesses are notified by webhooks. The model covers what the
service is for: that money moves at most once per invoice and that the tables, the PSP's ledger, the
cached responses and the events agree about it, in every interleaving.

## How it is built

- **Payments.** `PaymentTables` holds the rows and each SQL transaction as a function on them;
  `PaymentStore` holds the same transactions as they are written, statement by statement on mutable
  tables, proved equal to those functions. `PaymentProtocol` is the whole system as a state machine:
  requests, reconciler batches and admin calls that are part-way through, requests and replies on the
  wire (delayed, lost or duplicated at will), the PSP's ledger, crashes, failed transactions, and a
  clock. The unlocked invoice read, transaction 1, the PSP call and transaction 2 are separate steps.
  A step that is not enabled changes nothing, so every sequence of steps is a run. `PaymentInvariant`
  and `PaymentSafety` prove the inductive invariant; `PaymentTheorems`, `PaymentContent`,
  `PaymentRetry`, `PaymentAdmission`, `PaymentAnswers`, `PaymentRaces`, `PaymentOutbox`,
  `PaymentConvergence` and `PaymentBatch` state what follows; `PaymentEffects`, `PaymentReasons` and
  `PaymentTiming` say what each step writes and answers, and when it may come, from the history of the
  run; `PaymentScenarios` gives particular runs.
- **Reconciler.** `Reconciler` is the lease queue and its starvation bound.
- **PSP.** `MockPsp` is the mock as written, whose lookup and record are separate critical sections.
- **Webhooks.** `Webhooks` is the dispatcher, its delivery table and the fan-out as a state machine;
  `WebhookStore` is the table updated in place; `WebhookDelivery`, `WebhookTiming`, `WebhookFanOut` and
  `Backoff` state the results.
- **Validation.** `LineItems` and `Blank` are the checks on what requests contain.
- **Lists.** `Pagination` and `Cursor` are the keyset pages and their opaque cursors.

## Assumptions

- A PSP outcome is written once per key (the contract at crates/mock-psp/src/main.rs:15-17), built
  into `PaymentProtocol.DoProcess`. The mock keeps it if and only if two calls on the key are never
  asleep together unless both are declines that say the same (`MockPsp.WriteOnceIffNeverClash`); for
  a key used with one token, if and only if no call comes in while another is asleep, or the token
  does not charge (`MockPsp.ContractIffSerialOrNoCharge`).
- Each SQL transaction is atomic; unique indexes are guards; `FOR UPDATE SKIP LOCKED` may choose any
  subset of the due rows, and leases may run out at any time.
- Row ids are fresh and SHA-256 is collision-free (a digest is a free constructor over its pre-image).
- Safety does not need that businesses do not share idempotency keys. Whose charge an attempt is
  settled by does, for that attempt's key: `PaymentTheorems.ChargeIsOwnIffOneBusiness` says exactly
  how, and only `PaymentTheorems.ChargeWasForThisAttempt` has it as a hypothesis.
- The text forms of timestamps and UUIDs are inverse pairs, and a timestamp's text has no `|`.
- One dispatcher process and one reconciler where the results say so.

## Where the code differs from its documentation

- A key reused with a different request is answered 409 (`Conflict`), not 422 as DESIGN.md:154-156 and
  migrations/0009_idempotency_keys.sql:6 say.
- "Succeeded" does not imply "paid": an invoice can be voided or written off while its payment is in
  flight, and the response and the event still say paid. `PaymentRaces.SuccessPaysIffStillOpen` and
  `PaymentRaces.SuccessPaysIffNoAdminHit` are the exact conditions.
- The key is sent to the PSP without the business, so one business's charge can settle another's
  payment (`PaymentScenarios.SharedKeyPaysWithoutCharge`), exactly if both use the key
  (`PaymentTheorems.ChargeIsOwnIffOneBusiness`).
- The mock PSP can charge twice under one key when a re-query overlaps a sleeping call.
- Payment outcome events are at-least-once: `PaymentScenarios.AnnouncedTwice` is a run with two for one
  attempt, and `PaymentOutbox.AnnouncedOnceIffNoneLate` is the exact condition.
- The backoff shift wraps after 64 attempts in a release build.

## Model

| member | source | states |
|---|---|---|
| `LineItems.ValidateLineItems` | crates/invoice-service/src/services/invoice_service.rs:171-201 | An invoice request is reported with exactly the faults it has (empty list, blank description, non-positive quantity, negative unit amount), each once, by item and field, and passes exactly when it has none |
| `LineItems.StoreLineItems` | crates/invoice-service/src/repositories/invoice_repo.rs:65-84 | The inserts and the SUM go through exactly when the exact sum of quantity times unit amount fits a bigint, and then the stored total is that sum |
| `LineItems.TotalIsMonotone` | migrations/0007_line_items.sql:9-12 | With valid items no partial sum is negative or exceeds the total, so a product overflows only if the total does |
| `Blank.BlankIffAllWhite` | crates/invoice-service/src/services/payment_service.rs:40 | Text is refused as empty exactly if every character of it, decoded from UTF-8, is Unicode white space |
| `Fingerprint.FingerprintDeterminesRequest` | crates/invoice-service/src/services/payment_service.rs:439-447 | Two requests have the same fingerprint if and only if invoice, token and amount are the same, for all tokens (zero bytes included) and all 64-bit amounts |
| `PaymentStore.Store.Create` | crates/invoice-service/src/services/invoice_service.rs:19-77 | Creation reports the faults, or that the customer is not the business's, or that the total does not fit, in that order, and then changes nothing; otherwise it stores invoice and created event together, as `CreateTx` does |
| `PaymentStore.Store.Claim` | crates/invoice-service/src/services/payment_service.rs:64-139 | Transaction 1 with its rollbacks: claims the key and inserts the pending attempt, or leaves the tables as they were and says why |
| `PaymentStore.Store.Finalize` | crates/invoice-service/src/services/payment_service.rs:280-386 | Transaction 2 with its status-conditional updates takes the tables where `FinalizeTx` does and returns the matching response |
| `PaymentStore.Store.Conclude` | crates/invoice-service/src/services/payment_service.rs:388-435 | Appends the outcome event and overwrites the key row as completed |
| `PaymentStore.Store.LeaseBatch` | crates/invoice-service/src/reconciler.rs:47-64 | Selects at most twenty due rows that nobody has locked, by next poll with never-polled first; these, and no others, get their next poll thirty seconds out, and their jobs are returned in order |
| `PaymentStore.Store.SelectBatch` | crates/invoice-service/src/reconciler.rs:51-58 | The selection alone: distinct, due, not locked, and anything left out is due no earlier than all of a full batch |
| `PaymentStore.Store.Reconcile` | crates/invoice-service/src/reconciler.rs:71-101 | The loop over a leased batch, a failed finalize being skipped, takes the tables where `Pass` does |
| `PaymentBatch.PassSettlesEachByItsOwn` | crates/invoice-service/src/reconciler.rs:71-101 | After a pass each job's attempt and key stand as that job's own reply says and nobody else's; an unknown reply or a failed finalize leaves the key alone |
| `PaymentBatch.PassLeavesOthers` | crates/invoice-service/src/reconciler.rs:71-101 | Attempts and keys outside the batch keep their rows |
| `PaymentBatch.PassAnnounces` | crates/invoice-service/src/reconciler.rs:82-95 | A pass appends one outcome event for each committed definite result, in order, and nothing else |
| `PaymentBatch.LeasedRoundsAreSeparate` | crates/invoice-service/src/reconciler.rs:47-64 | In every run the jobs of one lease concern different attempts and different keys, and their rows exist |
| `PaymentBatch.PassIsARun` | crates/invoice-service/src/reconciler.rs:43-104 | A batch worker of the protocol that nobody disturbs takes the tables exactly where the pass does |
| `PaymentStore.Store.Transition` | crates/invoice-service/src/repositories/invoice_repo.rs:148-175 | The conditional update succeeds exactly when the row is the business's and still in the expected state, and then leaves it in the state asked for |
| `PaymentProtocol.Classify` | crates/invoice-service/src/psp/mod.rs:49-100 | A reply is definite exactly if it is a readable outcome without a server error, and then it is that outcome; everything else is unknown |
| `PaymentInvariant.ClaimKeeps` | crates/invoice-service/src/services/payment_service.rs:67-139 | Transaction 1 keeps the invariant of the tables: key and attempt linked one to one, one active attempt per invoice, attempt amount equal to the invoice total |
| `PaymentInvariant.FinalizeKeeps` | crates/invoice-service/src/services/payment_service.rs:291-386 | A finalize whose result agrees with what the attempt already says keeps the invariant and only moves rows forward: completed keys and settled attempts are unchanged |
| `PaymentInvariant.LeaseKeeps` | crates/invoice-service/src/reconciler.rs:47-64 | Leasing keeps the invariant; safety does not depend on leases |
| `PaymentInvariant.AdminKeeps` | crates/invoice-service/src/services/invoice_service.rs:134-169 | Admin transitions keep the invariant |
| `PaymentSafety.StepKeeps` | crates/invoice-service/src/services/payment_service.rs:33-150 | Every step of the whole system (requests, reconcilers, PSP, network, admins, crashes, failed transactions, time) keeps the invariant, and settled attempts, completed keys and ledger entries are never rewritten |
| `PaymentSafety.RunKeeps` | crates/invoice-service/src/services/payment_service.rs:33-150 | The same over every run |
| `PaymentTheorems.AtMostOneCharge` | migrations/0008_payment_attempts.sql:26-33 | In every run the PSP ledger holds at most one successful charge per invoice; no assumption on keys is needed |
| `PaymentTheorems.ChargePinsInvoice` | crates/invoice-service/src/services/payment_service.rs:351-354 | A key with a successful charge always has a pending or succeeded attempt: an unknown outcome never unpins the invoice |
| `PaymentTheorems.LedgerAgreement` | crates/invoice-service/src/services/payment_service.rs:291-382 | In every run succeeded and failed attempts, replies in flight and results in hand all say what the ledger says |
| `PaymentTheorems.ChargeIsOwnIffOneBusiness` | crates/invoice-service/src/services/payment_service.rs:141-145 | In every run, under every key the PSP knows, all attempts are the ones its entry was made for (their token, their amount) if and only if a single business uses the key |
| `PaymentTheorems.ChargeWasForThisAttempt` | crates/invoice-service/src/services/payment_service.rs:141-145 | If no other business uses its key, the charge behind a settled attempt was made for that attempt, its token and its amount |
| `PaymentTheorems.KeysMirrorAttempts` | migrations/0009_idempotency_keys.sql:8-25 | In every run keys and attempts correspond one to one; a key is completed exactly when its attempt succeeded or failed, and then holds exactly the 200 or 402 that tells so; expired is unreachable |
| `PaymentTheorems.ReplayFindsItsRow` | crates/invoice-service/src/services/payment_service.rs:205-215 | A request that found its key taken always finds the key row |
| `PaymentTheorems.CompletedKeyIsFrozen` | crates/invoice-service/src/services/payment_service.rs:413-435 | Once completed, a key row with its cached response never changes again, although every definite finalize overwrites it |
| `PaymentTheorems.PaidMeansOneSuccess` | crates/invoice-service/src/services/payment_service.rs:292-307 | A paid invoice has exactly one succeeded attempt, a draft has no attempts, and a succeeded attempt's invoice is terminal |
| `PaymentTheorems.PendingMeansNotPaid` | crates/invoice-service/src/services/payment_service.rs:90-117 | The invoice of a pending attempt is open, void or written off, never paid |
| `PaymentTheorems.TerminalIsForever` | crates/invoice-service/src/domain/invoice.rs:31-37 | Over every run the priced content of an invoice is fixed and a terminal invoice never changes |
| `PaymentTheorems.TransitionsAreLegal` | crates/invoice-service/src/domain/invoice.rs:39-53 | Every change of an invoice, by the admin path or the payment path, is allowed by the transition table; version and timestamps record the path taken; only a finalize makes an invoice paid |
| `PaymentContent.CreationIsExactOrNothing` | crates/invoice-service/src/services/invoice_service.rs:38-72 | Creation stores a draft for that customer with its items and their exact non-negative 64-bit total, and announces just that, or changes nothing |
| `PaymentContent.RunPrices` | crates/invoice-service/src/repositories/invoice_repo.rs:63-84 | In every run every invoice is worth exactly its line items |
| `PaymentContent.AmountIsExactEndToEnd` | crates/invoice-service/src/services/payment_service.rs:47-60 | In every run every amount sent to the PSP or charged by it is the exact sum of quantity times unit amount over the invoice's items |
| `PaymentContent.RunFingerprints` | crates/invoice-service/src/services/payment_service.rs:67-80 | In every run each key holds the fingerprint of the request that claimed it |
| `PaymentContent.StepAddsRows` | crates/invoice-service/src/services/payment_service.rs:100-137 | Invoices appear only by creation, keys and attempts only by transaction 1 |
| `PaymentRetry.RetryActs` | crates/invoice-service/src/services/payment_service.rs:82-87 | A request under a taken key touches neither the tables nor the wire |
| `PaymentRetry.RetryIsAnsweredFromCache` | crates/invoice-service/src/services/payment_service.rs:198-252 | Over every continuation of every run, a request under a completed key is answered with the cached response if invoice and token are the same and refused otherwise, whatever the invoice's state, and never reaches the PSP |
| `PaymentRetry.RetryIsNeverASecondAttempt` | crates/invoice-service/src/services/payment_service.rs:237-251 | Over every continuation, a request under a key already in use is told, word for word, that the attempt is still pending and where to poll it, or what the key was completed with, or that the key was reused for something else; it never starts a second attempt |
| `PaymentAdmission.AttemptsNeedAnOpenRead` | crates/invoice-service/src/services/payment_service.rs:49-129 | Every attempt of every run was inserted by transaction 1 of a request that at an earlier step had read its invoice and found it open, under a key its business had not used, with no other active attempt, and carries that request's data |
| `PaymentAdmission.NotOpenIsNeverCharged` | crates/invoice-service/src/services/payment_service.rs:82-98 | Over every continuation, a payment of an invoice that was not open when read never reaches the PSP; it is refused as not payable, or told what its key says: that the very same request is still pending or how it ended, or that the key was used for something else |
| `PaymentEffects.ClaimDecides` | crates/invoice-service/src/services/payment_service.rs:64-139 | In every run transaction 1 replays a used key; else refuses as not payable a request that at its earlier read found the invoice not open; else refuses as in progress one whose invoice has a pending or succeeded attempt; else admits it. A refusal or replay changes no table and sends nothing; an admission writes exactly its key and its attempt |
| `PaymentReasons.RefusalsAreDeserved` | crates/invoice-service/src/services/payment_service.rs:40-126 | In every run, whoever was told that the token is missing, the invoice is unknown or not payable, a payment is in progress, or the key was used for something else, was told so for exactly that reason; not payable only if its own read was not open |
| `PaymentEffects.FinalizeWrites` | crates/invoice-service/src/services/payment_service.rs:291-386 | In every run a finalize writes exactly this: the attempt if pending, the invoice if open on a success (paid now, one version on), one event, and the completed key with its full response; an unknown outcome only schedules a poll in five seconds, with its reason and one attempt more |
| `PaymentEffects.FailureWritesNothing` | crates/invoice-service/src/reconciler.rs:82-100 | In every run a failed finalize or a crash writes nothing; a failed finalize lets a batch go on with its next job |
| `PaymentEffects.AdminMayAsk` | crates/invoice-service/src/services/invoice_service.rs:138-160 | An admin call goes ahead for exactly draft to open or void and open to void or uncollectible |
| `PaymentEffects.AdminDecides` | crates/invoice-service/src/repositories/invoice_repo.rs:148-175 | In every run an admin update that still finds the invoice as its call had read it leaves it in exactly the state asked for, stamps only what belongs to that state, and keeps every other field; any other changes nothing |
| `PaymentEffects.LeaseWrites` | crates/invoice-service/src/reconciler.rs:47-79 | In every run a lease pushes the next poll of its attempts out by thirty seconds, changes nothing else, and takes up one job for each in order, with the attempt's own data |
| `PaymentEffects.PspDecides` | crates/mock-psp/src/main.rs:15-17 | In every run a request at the PSP carries its attempt's key, token and amount; a known key is answered from its entry and a new one recorded as decided |
| `PaymentTiming.LeasableIff` | crates/invoice-service/src/reconciler.rs:51-58 | In every run up to twenty attempts may be leased together exactly if all are pending and due by their history: at once when new, thirty seconds after a lease, five after an unknown outcome |
| `PaymentTiming.LeaseLasts` | crates/invoice-service/src/reconciler.rs:47-50 | Over every continuation a leased attempt is not leased again for thirty seconds, unless an unknown outcome changes that |
| `PaymentAnswers.ClientsAreToldTheTruth` | crates/invoice-service/src/services/payment_service.rs:227-382 | In every run every reply a client got, first-hand or cached, is word for word one of these: a 200 with the invoice paid and a charge the ledger holds, a 402 with the invoice open and a refusal the ledger holds, a 202 with the invoice open and where to poll |
| `PaymentAnswers.RunAnswers` | crates/invoice-service/src/services/payment_service.rs:227-251 | The same for first-hand and cached replies alike, as an induction over runs |
| `PaymentRaces.SuccessPaysIffStillOpen` | crates/invoice-service/src/services/payment_service.rs:292-307 | When a pending attempt's success is finalized, the invoice ends up paid, for good, if and only if it was still open at that moment |
| `PaymentRaces.SuccessPaysIffNoAdminHit` | crates/invoice-service/src/services/invoice_service.rs:115-169 | If the invoice was open when read and an attempt on it has succeeded in the end, the invoice is paid if and only if no admin update hit it in between; updates that lose their race do not count |
| `PaymentScenarios.UndisturbedPayment` | crates/invoice-service/src/services/payment_service.rs:141-150 | A payment nobody disturbs is settled, charged or declined, by the PSP's verdict on its key, and the ledger entry is its own exactly if the key was new to the PSP |
| `PaymentScenarios.VoidedYetCharged` | crates/invoice-service/src/services/invoice_service.rs:119-121 | A reachable state: one successful charge, attempt succeeded, client told paid, invoice void |
| `PaymentScenarios.SharedKeyPaysWithoutCharge` | crates/invoice-service/src/services/payment_service.rs:142-145 | If another business pays first under the same key, the second invoice is paid or not just like the first, although the PSP decided nothing for it |
| `PaymentScenarios.SharedKeyOccurs` | crates/invoice-service/src/services/payment_service.rs:142-145 | Two businesses that can each pay under one key are reachable |
| `PaymentOutbox.NoLostNoPhantomEvents` | crates/invoice-service/src/services/webhook_service.rs:16-45 | In every run an attempt has as many outcome events as committed definite finalizes, at least one exactly when it is settled, each with its status, amount and code; every invoice has exactly one created event |
| `PaymentOutbox.RunIsComplete` | crates/invoice-service/src/services/payment_service.rs:320-347 | The same count and the truth of every event, as an induction over runs |
| `PaymentOutbox.SecondNoticeIffSettled` | crates/invoice-service/src/services/payment_service.rs:318-349 | In every run a definite finalize announces its attempt a second time if and only if the attempt is no longer pending when it commits |
| `PaymentOutbox.AnnouncedOnceIffNoneLate` | crates/invoice-service/src/services/payment_service.rs:318-349 | In every run an attempt is announced at most once if and only if no definite finalize found it settled |
| `PaymentScenarios.AnnouncedTwice` | crates/invoice-service/src/reconciler.rs:53-54 | A reachable state: a live request and a reconciler have both finalized one attempt, and there are two outcome events |
| `PaymentConvergence.FirstStandsLastIsReplayed` | crates/invoice-service/src/services/payment_service.rs:291-435 | After any interleaving of finalizes, with any results, and admin transitions, the attempt tells the first definite result and its key replays the last |
| `PaymentConvergence.HistoriesAgreeIff` | crates/invoice-service/src/services/payment_service.rs:279-386 | Two histories of one attempt leave attempt, key and cached response alike if and only if their first definite results are the same and their last ones are |
| `PaymentConvergence.AnyChargePays` | crates/invoice-service/src/services/payment_service.rs:292-307 | Without admin transitions an open invoice is paid after a history if and only if some result in it was a successful charge |
| `PaymentConvergence.StandingConverges` | crates/invoice-service/src/services/payment_service.rs:291-382 | Under one verdict, after any interleaving the attempt and its key stand as after one definite finalize, or as before if none was definite |
| `PaymentConvergence.FinalizeConverges` | crates/invoice-service/src/services/payment_service.rs:279-386 | Any two histories of one attempt with a definite outcome agree on attempt, key and cached response, and on the invoice state if no admin intervened |
| `PaymentConvergence.UnknownAfterDefiniteIsNothing` | crates/invoice-service/src/services/payment_service.rs:351-368 | Once an attempt has settled, an unknown outcome changes nothing at all |
| `PaymentConvergence.CacheMatchesIff` | crates/invoice-service/src/services/payment_service.rs:413-435 | Once decided, the cached response is the attempt's own if and only if the last definite result repeats the first |
| `Reconciler.NoStarvation` | crates/invoice-service/src/reconciler.rs:43-64 | With one reconciler and no new attempts, a due attempt with k attempts before or tied with it is leased, or has settled, within floor(k/20)+1 ticks, unless its row was locked at a tick or a call in progress reported an unknown outcome for it |
| `Reconciler.UnknownPostpones` | crates/invoice-service/src/services/payment_service.rs:355-367 | That exception is real: after an unknown outcome for the attempt no number of ticks leases it within five seconds, however short the queue |
| `Reconciler.TickMovesTwenty` | crates/invoice-service/src/reconciler.rs:47-64 | A batch without the target moves exactly twenty attempts from before it to behind it |
| `Reconciler.BatchIsALease` | crates/invoice-service/src/reconciler.rs:47-64 | What the query selects is a lease the protocol allows, with the same effect |
| `MockPsp.Seen.Begin` | crates/mock-psp/src/main.rs:81-134 | Up to the sleep: a known key is answered from the record, an erring token with its error, anything else sleeps |
| `MockPsp.Seen.Finish` | crates/mock-psp/src/main.rs:136-141 | After the sleep: records unconditionally and replies |
| `MockPsp.ArrivalDecides` | crates/mock-psp/src/main.rs:83-134 | A call that comes in is answered from the record of its key; else tok_network_error and unknown tokens are refused at once, each in its way; the four others go to sleep |
| `MockPsp.TokensGetTheirAnswers` | crates/mock-psp/src/main.rs:90-133 | In every run, however calls overlap, a call without a key, or on a key used with one token, is answered as that very token says: success for tok_success and tok_timeout, the right decline code for the two declining tokens |
| `MockPsp.OutcomeClassIsStable` | crates/mock-psp/src/main.rs:78-142 | However calls overlap, if a key is always used with one token every outcome recorded or returned for it is of that token's class |
| `MockPsp.SerialCallsAgree` | crates/mock-psp/src/main.rs:83-88 | If calls on a key never overlap, every outcome returned for it is the recorded one |
| `MockPsp.SerialRecordIsWriteOnce` | crates/mock-psp/src/main.rs:15-17 | If calls on a key never overlap, its record is write-once, as the payment protocol assumes |
| `MockPsp.SerialIffNeverTogether` | crates/mock-psp/src/main.rs:83-139 | Under one token that is not refused, no call comes in while another is asleep if and only if two are never asleep together |
| `MockPsp.WriteOnceIffNeverClash` | crates/mock-psp/src/main.rs:83-139 | In every run, with any tokens, a key's record is written once, however the sleeping calls wake, if and only if two calls on it are never asleep together unless both are declines that say the same |
| `MockPsp.ContractIffSerialOrNoCharge` | crates/mock-psp/src/main.rs:15-17 | For a key used with one token, its record is written once, however the calls wake, if and only if calls on it do not overlap or the token does not charge |
| `MockPsp.OverlapChargesTwice` | crates/mock-psp/src/main.rs:90-139 | Two charging calls asleep together under one key both charge, and the later record wins |
| `MockPsp.OverlapOccurs` | crates/mock-psp/src/main.rs:109-115 | Such an overlap is reachable |
| `Backoff.BackoffIsCappedDoubling` | crates/invoice-service/src/webhooks/dispatcher.rs:237-239 | Shift, saturating multiply and clamp give min(3600, 10 * 2^(n-1)) if and only if n is at most 64 or the wrapped shift count is at least 9 |
| `Backoff.BackoffWraps` | crates/invoice-service/src/webhooks/dispatcher.rs:238-239 | After the 65th attempt the delay falls from an hour back to ten seconds |
| `Backoff.BackoffNeverShrinks` | crates/invoice-service/src/webhooks/dispatcher.rs:237-239 | Up to attempt 64 the ceiling never decreases |
| `Backoff.RetryBudget` | crates/invoice-service/src/webhooks/dispatcher.rs:27-28 | The worst total of the first n delays is 10 * (2^n - 1) seconds up to nine and an hour for each one beyond |
| `WebhookStore.DeliveryTable.ClaimBatch` | crates/invoice-service/src/webhooks/dispatcher.rs:91-114 | Claims what the query selects (at most fifty claimable rows that nobody has locked, by next attempt), and nothing else: in flight, leased for thirty seconds, one attempt more |
| `WebhookStore.SelectionIsAClaim` | crates/invoice-service/src/webhooks/dispatcher.rs:94-114 | What the query selects is a claim that the dispatcher's state machine allows, with the same effect |
| `WebhookStore.PassedOverByFifty` | crates/invoice-service/src/webhooks/dispatcher.rs:100-107 | Deliveries that are due first go first: a claimable delivery is passed over only if the batch is full of others that are due no later |
| `WebhookStore.DeliveryTable.MarkOne` | crates/invoice-service/src/webhooks/dispatcher.rs:184-257 | Marks one row by its result: succeeded, dead-lettered, or failed with a delayed retry |
| `WebhookStore.DeliveryTable.DeliverBatch` | crates/invoice-service/src/webhooks/dispatcher.rs:139-159 | The senders of a batch mark their deliveries one after the other, each at its own time |
| `WebhookStore.MarkingOrderIsIrrelevant` | crates/invoice-service/src/webhooks/dispatcher.rs:139-159 | In whatever order the concurrent senders come to mark, the table ends up the same |
| `WebhookStore.DeliveryTable.Redeliver` | crates/invoice-service/src/services/webhook_service.rs:163-181 | Resets a failed or dead delivery of the business, and reports not found otherwise |
| `WebhookStore.MarkAllMarksEachOnce` | crates/invoice-service/src/webhooks/dispatcher.rs:142-156 | In a batch of distinct deliveries each row is marked by its own result and nobody else's |
| `WebhookStore.MarkAllLeavesOthers` | crates/invoice-service/src/webhooks/dispatcher.rs:142-156 | A delivery that is not in the batch is left alone |
| `WebhookDelivery.FailedHasAttemptsLeft` | crates/invoice-service/src/webhooks/dispatcher.rs:223-235 | In every run a failed delivery has attempts left, only untried ones are pending, only those in flight hold a lease |
| `WebhookDelivery.StatusTellsWhy` | crates/invoice-service/src/webhooks/dispatcher.rs:184-235 | In every run succeeded means a 2xx, dead means the attempts are used up or a 4xx other than 408 and 429, and failed means neither |
| `WebhookDelivery.SucceededIsAbsorbing` | crates/invoice-service/src/webhooks/dispatcher.rs:94-110 | In every run a succeeded delivery never changes again |
| `WebhookDelivery.DeadOnlyRedelivered` | crates/invoice-service/src/services/webhook_service.rs:163-181 | In every run a dead delivery is revived by its business's redelivery and by nothing else |
| `WebhookDelivery.AttemptsAreBounded` | crates/invoice-service/src/webhooks/dispatcher.rs:94-114 | In every run the counter equals the sends since the last redelivery and exceeds the maximum by at most the consecutive lease-expiry reclaims |
| `WebhookDelivery.SentAtMostMaxAttempts` | crates/invoice-service/src/webhooks/dispatcher.rs:223-224 | Without crashes or lost marks a delivery is sent at most the maximum number of times (at least once) between redeliveries |
| `WebhookTiming.MarkRecords` | crates/invoice-service/src/webhooks/dispatcher.rs:184-257 | In every run a mark records the status code or the error, settles the delivery by them and by the number of sends so far, and puts a retry off by exactly the delay drawn |
| `WebhookTiming.ClaimLeases` | crates/invoice-service/src/webhooks/dispatcher.rs:94-110 | In every run a claim leases its deliveries for thirty seconds, counts the attempt, and touches no other row |
| `WebhookTiming.RedeliveryStartsAfresh` | crates/invoice-service/src/services/webhook_service.rs:163-181 | In every run a redelivery puts a failed or dead delivery of its business back to pending, untried and due now, and does nothing otherwise |
| `WebhookTiming.ClaimableIff` | crates/invoice-service/src/webhooks/dispatcher.rs:100-107 | In every run an idle dispatcher may claim up to fifty deliveries exactly if each one's wait, as told by the history, is over: from its creation, from its delay's end, from its redelivery, or after its lease |
| `WebhookTiming.RetryWaitsForItsDelay` | crates/invoice-service/src/webhooks/dispatcher.rs:236-254 | Over every continuation, an attempt that failed at T with attempts to spare and delay d is not followed by a claim before T + d unless the business redelivers it, and can be from T + d on |
| `WebhookTiming.DelayIsBoundedByBackoff` | crates/invoice-service/src/webhooks/dispatcher.rs:236-240 | The delay drawn after the n-th send may be anything up to the capped doubling for n, and nothing else, for n up to 64 |
| `WebhookFanOut.FanOutIsIdempotent` | crates/invoice-service/src/webhooks/dispatcher.rs:70-89 | Fan-out leaves existing deliveries as they are, gives each selected pair without a row one, adds nothing else, and adds nothing when repeated in any order |
| `WebhookFanOut.OneRowPerPair` | migrations/0010_webhooks.sql:65-67 | In every run there is one delivery per event and endpoint |
| `WebhookFanOut.DeliveriesAreRightful` | crates/invoice-service/src/webhooks/dispatcher.rs:75-81 | In every run each delivery carries its own business's event to an endpoint of that business that subscribed to its kind or to all |
| `WebhookFanOut.FanOutAddsExactlyWhatIsOwed` | crates/invoice-service/src/webhooks/dispatcher.rs:70-89 | In every run a fan-out adds a row for exactly the pairs that have none, whose endpoint is active at that moment, belongs to the event's business and asked for its kind, and whose event is less than an hour old; each is pending, untried and due at once |
| `WebhookFanOut.ActiveAsLastSet` | migrations/0010_webhooks.sql:5-16 | In every run an endpoint is active exactly if that is how it was last set, or it was never set |
| `WebhookFanOut.EventsAndEndpointsStay` | crates/invoice-service/src/services/webhook_service.rs:16-45 | In every run events are appended with their time and never rewritten, and endpoints keep their business and kinds |
| `WebhookFanOut.NoEventIsForgotten` | crates/invoice-service/src/webhooks/dispatcher.rs:82-83 | If fan-outs are less than an hour apart, every event seen by the last one has a delivery for each matching endpoint active since before it |
| `WebhookFanOut.TooLateIsNever` | crates/invoice-service/src/webhooks/dispatcher.rs:82-83 | An event that is an hour old without its row never gets one |
| `Cursor.CursorRoundTrip` | crates/common/src/pagination.rs:19-32 | Decoding an encoded cursor gives back the timestamp and the id |
| `Cursor.HexRoundTrip` | crates/common/src/pagination.rs:21-26 | Hex decoding inverts hex encoding on all byte strings |
| `Cursor.SplitAtBar` | crates/common/src/pagination.rs:28-28 | Splitting at the first bar recovers both parts whatever the second one contains |
| `Pagination.ClampLimit` | crates/common/src/pagination.rs:15-17 | The limit is the one between 1 and 100 that is nearest to the requested one, 25 if none is requested |
| `Pagination.List` | crates/invoice-service/src/services/customer_service.rs:49-70 | Truncates the fetched rows to the page and hands out a cursor to the last row kept exactly if there was one more |
| `Pagination.PageSplits` | crates/invoice-service/src/repositories/customer_repo.rs:57-91 | A page lists the rows between the cursor it was asked with and the one it hands out; what remains lies below |
| `Pagination.WalkTerminates` | crates/invoice-service/src/services/webhook_service.rs:92-136 | Walks end: with any limits and whatever newer rows arrive, a walk that still has a cursor has made no more requests than there were rows at the first one, and every cursor handed out gets an answer |
| `Pagination.WalkReadsTheList` | crates/invoice-service/src/services/webhook_service.rs:92-136 | So far, a walk has read the rows present at the first request down to its cursor; followed to the end it has read exactly these, by creation time and then id, newest first, without skip or repeat, undisturbed by newer rows |
| `Pagination.WalkUnderChange` | crates/invoice-service/src/repositories/invoice_repo.rs:112-142 | When rows come and go between pages, as under a state filter, a walk never repeats a row or reads one that was not there, and a finished one has read every row that was there all along |
| `Pagination.ListIsUnique` | crates/invoice-service/src/services/invoice_service.rs:87-113 | There is only one such list, so the outcome does not depend on the limits |

## Left out

- HTTP routing, extractors, the error envelope, configuration, start-up and shutdown: plumbing.
- API keys, authentication and webhook signing: thin use of cryptographic libraries.
- Customer creation, endpoint registration, the poll endpoint and the delivery listing: easy reads and inserts. In `PaymentProtocol` any customer may be invoiced; `PaymentStore.Store.Create` has the check.
- `Money`'s checked helpers: not on the path that computes totals, which the database does.
- Postgres isolation and locking: each transaction is one step.
- 32-bit counters (`attempt_count`, `attempts`, `version`): unbounded here; they overflow only after two billion updates, and `version` is proved to stay at most 2.
- Sub-second time: the clock counts whole seconds.
- JSON encoding of cached responses and payloads: stored as values.
- Several dispatcher processes: marks are not guarded by lease or status, so the results are for one.
- Eventual resolution of a pending attempt: the code does not promise it.
- Payload text of webhook events: in `Webhooks` an event is its business, kind and creation time; the payment events proper are in `PaymentTables`.
- PaymentStore.Store.Transition: the read and the validation before it are a separate step (`AdminRead` in `PaymentProtocol`).
- WebhookFanOut.FanOutIsIdempotent: fan-out is modelled on values, as the single SQL statement it is, not as in-place updates.
