# Settlement protocol of Atlas ERP Core

A Dafny model of how an invoice becomes paid: the invoices, billings and payments tables, the transactional outbox, the
re-entrant synchronous event bus that chains the three modules, the transaction boundary, and the two requests that drive
everything (create an invoice, retry its payment).

No single function holds the guarantees, so the model has three layers and connects them.

1. **The specification.** `Accounts` has one account per billing: the list of attempt outcomes, and whether another attempt
   is due. `Ledger` says which contents of the three tables are right (`LedgerInv`) and lists the only four commits that
   ever change them; each commit is at most one step of one account.
2. **Concurrency.** `Concurrency` runs any number of requests at once, one SQL statement per step, under READ COMMITTED:
   uncommitted rows, row locks, inserts that wait on a unique key, rollback at any point. Every step is no commit or one
   ledger commit, so every interleaving refines the specification.
3. **The program.** `Application` is the imperative code: the bus, its handlers and both use cases, over `Database`
   (committed tables plus the working copy of the open transaction), one request at a time. `Environment.World` decides every
   fault, fresh id, clock reading and gateway reply by arbitrary functions; what is proved for every `World` holds for every
   schedule of faults.

In between, `Tables` has the unique indexes, `Storage` the text columns, `IdempotencyKey` and `Text` the strings, `Outbox`
the invariants that tie outbox rows to business rows, `Effects` what delivering each event does and why delivering it again
does nothing, and the accounting of gateway calls. `Delivery`, `Requests` and `Cascade` carry those facts through the program.
`Statements`, `Recovery`, `Liveness` and `Interruptions` continue concurrent runs; `FaultProfiles` has the shipped fault
profiles as particular worlds.

The bus comes twice, because Dafny has no methods as values. `EventBus.SyncBus.Publish` is the bus by itself: any event names,
any subscriptions, and handlers that do whatever a script says, which may be to subscribe and publish again.
`Application.App.Publish` is the same loop with the program's own handlers and the outbox. Both keep the same log, and
`BusLog` says once for both which logs are right and what follows from that.

The central invariant, `Ledger.LedgerInv`, says for every state: a billing copies its invoice; an invoice has at most one
billing; a billing requested for attempt n has failed payments for exactly the attempts 1 to n-1, a failed one for exactly
1 to n, an approved one n-1 failed payments followed by the approved payment n; no stored payment is pending; the billing is
approved exactly when the invoice is paid, and the invoice has been paid since its payment was approved.
`Ledger.Consistent` says the same in the tables' own columns, for a reader of the database.

What an approval is, is decided in one place of the program and stated in the gateway's own words wherever an invoice is
paid: the reply is an answer whose status is "Approved" (`Storage.RecordsReply`, `Requests.StopsAtApproval`).

The gateway is outside the database, so what relates the two is a second invariant, `Effects.CallsKept`: every stored
payment records the reply of the last call made for its attempt, whatever was rolled back before; different payments record
different calls; and no call is ever made for an attempt that is stored already.

Two results differ from what one might expect.

- `Billing.MarkFailed` guards nothing and `Update` writes back an attempt number that was read without a lock, so neither "an
  approval is final" nor "attempt numbers never decrease" is a property of those functions: `Ledger.MarkFailedLeavesApproval`,
  `Ledger.StaleWriteUndoesApproval` and `Ledger.StaleWriteLowersAttempt` show rows for which they fail,
  `Ledger.MarkingFailedGoesForward` and `Ledger.StaleWriteGoesForward` say exactly when they hold. Both hold of the system,
  because an uncommitted payment row pins its billing (`Concurrency.ReservationPinsBilling`, `Concurrency.RunGoesForward`).
- A retry needs a billing. Under the append-failure profile the announcement of a new invoice is refused after the invoice
  was stored, and then no request ever bills or pays it (`FaultProfiles.OrphanStays`). Without faults a retry succeeds if and
  only if the invoice has a billing and no approved payment (`Application.App.ProcessPayment`).

On a unique violation the payment use case reloads the stored payment; PostgreSQL would have aborted the transaction by then.
`Concurrency` allows both outcomes and the results hold for either.

Verify with `dafny verify dfyconfig.toml`.

## Model

| member | source | states |
|---|---|---|
| `Ledger.CommitKeeps` | internal/payments/application/usecases/process_billing_request.go:102-256 | Every commit of the system (new invoice, new billing, reactivation, settlement) keeps the ledger: gap-free attempts, one payment per attempt, statuses that agree across the three tables, nothing pending. |
| `Ledger.CommitGoesForward` | internal/billing/infrastructure/persistence/postgres_repository.go:88-114 | No commit deletes a row, lowers an attempt number, leaves an approval, changes a stored payment, or changes an amount, customer or due date. |
| `Ledger.CommitKeepsRows` | internal/payments/infrastructure/persistence/postgres_repository.go:48-108 | Every commit leaves every row readable back as written, under its own id, each payment under the key of its attempt. |
| `Ledger.AttemptIffSettled` | internal/billing/application/usecases/get_processable_billing.go:45-61 | The payments of a billing are exactly those for attempts 1 up to its settled count, in both directions. |
| `Ledger.ModulesAgree` | internal/invoices/application/usecases/apply_payment_approved.go:44-70 | Invoice paid if and only if a billing of it is approved, and if and only if it has an approved payment. |
| `Ledger.ApprovedPaymentIsUnique` | migrations/000006_payments_retry.up.sql:29-30 | Two approved payments of one invoice are the same payment, and it carries the current attempt number of the approved billing. |
| `Ledger.SettlementPaysOnTime` | internal/invoices/application/usecases/apply_payment_approved.go:50-60 | After a settlement every approved payment has a paid invoice, paid at the time of that payment unless that is the zero instant. |
| `Ledger.KeptIsConsistent` | internal/payments/application/usecases/process_billing_request.go:102-256 | Column by column: a billing copies its invoice; exactly its attempts up to the last are stored, only the last one approved and only if the billing is; an invoice is paid if and only if a payment of it is approved, and its payment time is that payment's. |
| `Ledger.MarkingFailedGoesForward` | internal/billing/domain/entities/billing.go:87-94 | Marking a billing failed is a step forward if and only if it was not approved. |
| `Ledger.StaleWriteGoesForward` | internal/billing/infrastructure/persistence/postgres_repository.go:88-114 | Settling a row read earlier and writing it back is a step forward if and only if nobody has moved on to another attempt since and, if the row was approved since, exactly that approval is written again. |
| `Ledger.MarkFailedLeavesApproval` | internal/billing/domain/entities/billing.go:87-94 | A stored approved billing that becomes failed. |
| `Ledger.StaleWriteUndoesApproval` | internal/billing/infrastructure/persistence/postgres_repository.go:88-114 | A stale write that turns an approval made since the read into a failure, at the same attempt. |
| `Ledger.StaleWriteLowersAttempt` | internal/billing/infrastructure/persistence/postgres_repository.go:88-114 | A stale write that takes a billing from attempt 2 back to attempt 1. |
| `Accounts.AccountDescribesBilling` | internal/billing/domain/entities/billing.go:78-109 | Status and attempt number of a billing can be read off its outcomes; only the last may be an approval, and that is when the invoice is paid. |
| `Accounts.CommitRefines` | internal/payments/application/usecases/process_billing_request.go:205-255 | Every commit moves every account by exactly one step of the specification, or leaves it alone. |
| `Accounts.SettlementCharges` | internal/payments/application/usecases/process_billing_request.go:168-217 | A settlement appends exactly the outcome its payment row records. |
| `Accounts.NewBillingOpens` | internal/billing/domain/entities/billing.go:28-46 | A new billing starts with no outcome and its first attempt due. |
| `Accounts.RetriesCut` | internal/billing/domain/entities/billing.go:96-109 | Retrying over and over yields the outcomes up to and including the first approval; every later retry changes nothing. |
| `Accounts.CutStops` | internal/billing/domain/entities/billing.go:96-109 | The cut is a prefix without an approval before its end, and stops early only at one. |
| `Accounts.StepsKeepLegal` | internal/billing/domain/entities/billing.go:96-109 | Reopening and charging in any order leave at most the last outcome an approval; after one, nothing changes any more; before, a retry adds exactly its outcome. |
| `Accounts.Conservation` | internal/billing/application/usecases/create_billing_from_invoice.go:75-113 | The sum over approved billings equals the sum over paid invoices. |
| `Concurrency.StepKeepsSafe` | internal/payments/application/usecases/process_billing_request.go:102-256 | Any statement of any request keeps the ledger and every other request's knowledge and reservations right. |
| `Concurrency.StepIsCommit` | internal/shared/postgres/tx.go:30-50 | A statement leaves the committed tables alone or makes exactly one enabled ledger commit. |
| `Concurrency.RunKeeps` | internal/shared/postgres/tx.go:30-50 | Every state of every interleaving, with rollbacks anywhere, is safe and its rows are in order. |
| `Concurrency.RunGoesForward` | internal/billing/domain/entities/billing.go:78-109 | No lost update: between any two states of a run attempts never decrease, approvals and payments are final. |
| `Concurrency.RunRefinesAccounts` | internal/payments/application/usecases/process_billing_request.go:205-255 | Every step of every run is a step of each billing's account, or none. |
| `Concurrency.ReservationPinsBilling` | internal/payments/application/usecases/process_billing_request.go:123-150 | While a transaction holds an uncommitted payment for attempt n, the committed billing is requested for exactly n with the charged amount, n is not settled, and nobody else pays that billing. |
| `Concurrency.ApprovedIndexNeverFires` | migrations/000006_payments_retry.up.sql:29-30 | Whatever the gateway replies, the approved-only index never refuses the reply and never makes it wait. |
| `Concurrency.RunMeans` | migrations/000007_phase4_resilience.up.sql:26-27 | In every state of every run: one payment per attempt, at most one approved payment per invoice, none pending, paid exactly when approved and at that time, every billing a copy of its invoice with exactly its attempts, money conserved. |
| `Concurrency.WriteBillingKeeps` | internal/billing/application/usecases/mark_billing_approved.go:38-50 | The row the billing handler read without a lock is still the current one when it is written back. |
| `Concurrency.CommitReactivationIsCommit` | internal/billing/infrastructure/persistence/postgres_repository.go:77-114 | Under its row lock a retry writes back exactly the reactivation of the current row. |
| `Concurrency.InsertBillingIsCommit` | internal/billing/application/usecases/create_billing_from_invoice.go:75-95 | A billing inserted from an announcement copies the stored invoice and can be stored. |
| `Concurrency.CommitPaymentIsCommit` | internal/shared/postgres/tx.go:43-59 | What a payment transaction publishes on commit is one settlement of payment, billing and, for an approval, invoice. |
| `Recovery.NeverWedged` | internal/payments/application/usecases/process_payment.go:55-73 | After any concurrent run at whose end all requests have ended, and for any billing not yet approved, one retry with an approving gateway is possible statement by statement and ends with billing, payment and invoice paid. |
| `Recovery.RunsToApproval` | internal/payments/application/usecases/process_billing_request.go:102-256 | From any point of such a retry the run can be continued to the approval, in exactly the statements that are left. |
| `Liveness.NoDeadlock` | internal/shared/postgres/tx.go:30-50 | In every state of every concurrent run, as long as a request has not ended, some request that has not ended can do something other than give up. |
| `Liveness.OnlyRetriesBlock` | internal/billing/infrastructure/persistence/postgres_repository.go:77-86 | A payment transaction waits for its billing only behind a retry that holds the row lock. |
| `Liveness.InvoiceIsFree` | internal/invoices/infrastructure/persistence/postgres_repository.go:134-160 | No payment transaction ever waits for an invoice row. |
| `Liveness.EverybodyEnds` | internal/payments/application/usecases/process_billing_request.go:102-256 | Every run can go on, without anybody giving up, until all requests have ended. |
| `Liveness.AlwaysPayable` | internal/payments/application/usecases/process_payment.go:55-73 | From every state of every run, and without anybody giving up any more, every billing can still become approved with its payment and its invoice. |
| `Liveness.NewInvoicesGetPaid` | internal/invoices/application/usecases/create_invoice.go:75-108 | From every state of every run and for every good input, an invoice can be created, billed and paid with nobody giving up. |
| `Interruptions.AnybodyCanRollBack` | internal/shared/postgres/tx.go:37-50 | After every run any request can end at once, the tables and all other requests staying as they are. |
| `Interruptions.ReservedAgain` | internal/shared/postgres/tx.go:37-50 | After any reservation is rolled back the same attempt is reserved again with the tables unchanged, by whoever holds the lock of the billing or by a new retry. |
| `Interruptions.ResultDeliveredAgain` | internal/shared/event/bus.go:164-170 | A result event delivered again inside its transaction leads back to the very same state. |
| `Interruptions.RequestedAgain` | internal/shared/event/bus.go:164-170 | BillingRequested can be delivered again; with its attempt stored everything is as before three statements later, without a gateway call. |
| `Interruptions.AnnouncedAgain` | internal/shared/event/bus.go:164-170 | InvoiceCreated can be delivered again; for a billed invoice it changes nothing. |
| `Statements.GivingUp` | internal/shared/postgres/tx.go:37-50 | Rolling back is always possible and ends the request. |
| `Statements.CreatingInvoice` | internal/invoices/application/usecases/create_invoice.go:75-83 | Whatever NewInvoice makes under an unused id can be stored and is announced as stored. |
| `Statements.Locking` | internal/billing/infrastructure/persistence/postgres_repository.go:77-86 | A retry locks any stored billing that nobody holds. |
| `Statements.BeingTooLate` | migrations/000006_payments_retry.up.sql:29-30 | An approval of an invoice that has one is refused and ends the request. |
| `IdempotencyKey.KeyInjective` | internal/payments/application/usecases/process_billing_request.go:269-271 | For all strings and all integers, equal keys come from the same billing id and attempt number. |
| `IdempotencyKey.KeyReads` | internal/payments/application/usecases/process_billing_request.go:269-271 | The key starts with the billing id between its labels, and the rest reads back as the attempt number. |
| `Tables.IndexesAgree` | migrations/000007_phase4_resilience.up.sql:26-27 | The index on (billing, attempt) and the index on the key accept and refuse the same inserts. |
| `Tables.RefusedInserts` | migrations/000007_phase4_resilience.up.sql:26-27 | A payment is refused if and only if its id is taken or one of the three unique indexes would not hold afterwards. |
| `Tables.RefusedUpdates` | migrations/000006_payments_retry.up.sql:29-30 | Settling a pending row is refused if and only if an index would not hold afterwards. |
| `Tables.RefusedBillings` | migrations/000005_billings.up.sql:1-11 | A billing is refused if and only if its id is taken or its invoice would have two. |
| `Text.FormatIntInjective` | internal/payments/application/usecases/process_billing_request.go:270 | Decimal printing of integers, signs included, loses nothing. |
| `Text.FormatIntReads` | internal/payments/application/usecases/process_billing_request.go:270 | Printed numbers read back, with a minus sign exactly if negative and no leading zero. |
| `Text.TrimIsIdempotent` | internal/payments/domain/entities/payment.go:34-83 | Trimming reaches a fixed point at once. |
| `Text.TrimStrips` | internal/payments/domain/entities/payment.go:34-83 | Trimming takes white space off both ends, all of it and nothing else; nothing is left exactly of a blank text. |
| `Storage.PaymentRoundTrip` | internal/payments/infrastructure/persistence/postgres_repository.go:196-254 | Saving and rehydrating a payment, with its empty category as NULL, gives it back if and only if it validates and its texts are trimmed. |
| `Storage.BillingRoundTrip` | internal/billing/domain/entities/billing.go:48-76 | Likewise for a billing, whose due date must also be a midnight. |
| `Storage.InvoiceRoundTrip` | internal/invoices/domain/entities/invoice.go:46-72 | Likewise for an invoice. |
| `Storage.ReadPayments` | internal/payments/domain/entities/payment.go:53-129 | Exactly which payment columns can be read, and what was read can be stored and read again. |
| `Storage.ReadBillings` | internal/billing/domain/entities/billing.go:48-135 | The same for billing columns. |
| `Storage.ReadInvoices` | internal/invoices/domain/entities/invoice.go:46-111 | The same for invoice columns. |
| `Storage.NewPaymentsAreStorable` | internal/payments/domain/entities/payment.go:34-51 | Every payment the constructor accepts survives the round trip. |
| `Storage.SettledPaymentsStayStorable` | internal/payments/domain/entities/payment.go:85-129 | Whatever the gateway replies, the settled payment still does. |
| `Storage.ReplyDecides` | internal/payments/application/usecases/process_billing_request.go:175-212 | A reply approves the payment if and only if it is an answer whose status is "Approved"; any other answer is declined with its trimmed reference, a deadline is a timeout and any other error a gateway error, both without reference; nothing else of the payment changes. |
| `Storage.RecordedReply` | internal/payments/application/usecases/process_billing_request.go:205-212 | A payment records the outcome of a reply if and only if its columns say so in the gateway's words. |
| `Storage.ColumnsTellReply` | internal/payments/infrastructure/persistence/postgres_repository.go:48-108 | The texts of status and failure category that each kind of reply leaves in the table. |
| `Storage.IndexSeesApproved` | migrations/000006_payments_retry.up.sql:29-30 | The partial index sees exactly the approved payments, under the text the gateway answers with. |
| `Storage.StorablePaymentsPass` | migrations/000007_phase4_resilience.up.sql:15-18 | Storable payments pass the CHECK constraints, with a failure category exactly if failed. |
| `Storage.StorableBillingsPass` | migrations/000005_billings.up.sql:1-11 | So do billings. |
| `Storage.StorableInvoicesPass` | migrations/000003_invoices.up.sql:1-10 | So do invoices. |
| `Storage.BillingsStayStorable` | internal/billing/domain/entities/billing.go:28-135 | So does every billing, from its constructor through every transition. |
| `Storage.InvoicesStayStorable` | internal/invoices/domain/entities/invoice.go:28-111 | So does every invoice. |
| `Events.FailingNeedsUnprocessed` | internal/shared/outbox/recorder.go:58-104 | Marking a row failed leaves its columns coherent if and only if it was not marked processed before; marking it processed always does. |
| `Outbox.SettlementKeepsData` | internal/shared/postgres/tx.go:37-43 | Committing a payment transaction keeps all table and outbox invariants together: its events are stored only as processed, and results match payments and InvoicePaid events match paid invoices one to one. |
| `Outbox.PlainCommitKeepsOutbox` | internal/billing/application/usecases/get_processable_billing.go:45-61 | Every other commit keeps them too. |
| `Outbox.SettlementKeepsTelling` | internal/shared/event/envelope.go:40-64 | After a settlement every recorded event, envelope included, still tells the truth of stored rows: its aggregate, customer, amount, due date and attempt, and the time of the invoice, payment or payment of the invoice it is about. |
| `Outbox.TellsStays` | internal/shared/event/envelope.go:40-64 | What an event tells of the tables stays true whatever commits follow. |
| `Outbox.RequestRowKeepsOutbox` | internal/shared/event/bus.go:234-249 | Writing the row of InvoiceCreated or BillingRequested keeps them if a row that says processed is true: the first attempt, or the requested one, is settled. |
| `Outbox.ResultsMatchAttempts` | internal/payments/application/usecases/process_billing_request.go:219-255 | Each PaymentApproved or PaymentFailed row belongs to a stored attempt and no two rows to the same one. |
| `Effects.RedeliveryIsStutter` | internal/shared/event/bus.go:161-170 | For every event and every list of handlers, a second complete delivery right after the first changes no invoice, billing, payment or outbox row and makes no gateway call. |
| `Cascade.RedeliveryChangesNothing` | internal/shared/event/bus.go:161-170 | The same for every second delivery, also one that a fault stops partway. |
| `Effects.HandlingAgainIsStutter` | internal/invoices/application/usecases/apply_payment_approved.go:50-54 | The same for each handler alone, as soon as it has nothing left to do. |
| `Effects.DoneStays` | internal/billing/domain/entities/billing.go:78-94 | No handler undoes what another has done for the same event. |
| `Effects.HandlersKeepToTheirModule` | internal/billing/module.go:34-36 | Inside the payment transaction only the invoices module writes invoices, only the billing module billings and nobody payments; records are made in the name of the handler's module. |
| `Effects.DeliveryKeepsRows` | internal/shared/outbox/recorder.go:58-80 | A delivery leaves all earlier outbox rows exactly as they were, so no row is marked twice. |
| `Effects.AttemptKeepsSeen` | internal/payments/application/usecases/process_billing_request.go:168-173 | An attempt keeps the data and the call log right, changes only its own invoice, calls the gateway with the stored billing's invoice, amount and due date, and never for a stored attempt. |
| `Effects.SettlementAnswers` | internal/payments/application/usecases/process_billing_request.go:168-217 | A settlement keeps every stored payment recording the reply of the last call for its attempt, its own included. |
| `Effects.CallAloneKeepsSeen` | internal/shared/postgres/tx.go:37-43 | A call whose payment was rolled back keeps all that, because its attempt is not stored. |
| `Effects.CallsMatchPayments` | internal/payments/application/usecases/process_billing_request.go:103-121 | Two payments are the same if and only if the calls whose replies they record are. |
| `Effects.CallsGrowTransitive` | internal/payments/application/usecases/process_billing_request.go:103-107 | Over any number of steps no call is made for an attempt that was stored before them, and no call already wasted is recovered. |
| `Effects.NeverRejected` | internal/payments/application/usecases/process_billing_request.go:113-121 | With one request at a time the already-approved rejection is unreachable. |
| `Effects.ApprovedPublished` | internal/invoices/application/usecases/apply_payment_approved.go:56-70 | Publishing an approval settles payment, billing and invoice and records the result and the paid invoice, all as one settlement. |
| `Effects.FailedPublished` | internal/billing/application/usecases/mark_billing_failed.go:38-50 | Publishing a failure settles payment and billing and leaves the invoice unpaid, as one settlement. |
| `Effects.BillingPublished` | internal/billing/application/usecases/create_billing_from_invoice.go:99-116 | Publishing the request of a stored billing makes its first attempt. |
| `Effects.NewPaymentCollides` | internal/payments/infrastructure/persistence/postgres_repository.go:48-76 | A payment made for a missing attempt is refused by the indexes if and only if its id is taken. |
| `Requests.AnnouncementCharges` | internal/invoices/application/usecases/create_invoice.go:86-108 | Announcing a new invoice leaves its one billing with exactly one outcome, the gateway's one reply. |
| `Requests.ReactivationAsks` | internal/billing/application/usecases/get_processable_billing.go:45-61 | Reactivating reopens the account and asks for an attempt nobody has made. |
| `Requests.AnsweringCharges` | internal/payments/application/usecases/process_billing_request.go:168-217 | Making the asked attempt appends the reply of exactly one new gateway call. |
| `Requests.ClosedIffPaid` | internal/invoices/domain/entities/invoice.go:74-88 | An account ends in an approval if and only if the invoice is paid. |
| `Requests.SuccessIsAllProcessed` | internal/shared/event/bus.go:181-249 | Failure travels upward: when InvoiceCreated ends processed so did every record of the cascade, four of them if the gateway approved and three if not. |
| `Requests.AttemptRecords` | internal/payments/application/usecases/process_billing_request.go:219-255 | A made attempt leaves two records, or one if not approved; all processed; a found one leaves none. |
| `Requests.RetriedPays` | internal/payments/application/usecases/process_payment.go:55-73 | A successful retry pays the invoice if and only if the gateway approved. |
| `Requests.NextRetry` | internal/billing/domain/entities/billing.go:96-109 | One more retry draws one more reply if and only if the account is still open. |
| `Requests.RepliesDecide` | internal/payments/application/usecases/process_billing_request.go:205-212 | An invoice retried through n replies draws them up to the first that says "Approved" and is paid if and only if there is one. |
| `Requests.OneReplyDecides` | internal/payments/application/usecases/process_billing_request.go:205-212 | After one charge the invoice is paid if and only if that reply says "Approved". |
| `Cascade.AfterAnnouncement` | internal/invoices/application/usecases/create_invoice.go:86-108 | Announcing a stored invoice leaves it as stored; success means one call, one outcome and three or four processed records; an injected handler failure leaves its first attempt due. |
| `Cascade.LogOfLife` | internal/shared/event/bus.go:125-232 | The log of a whole run has no more than four publishes open at once, at most one injected failure and one duplicate, each on exactly the first occasion it is configured for, and every event, at any depth, delivered in order to those subscribed at the time. |
| `Cascade.PublishedIsRepeated` | internal/shared/event/bus.go:164-170 | A successful publish of BillingRequested has spent the duplicate meant for it. |
| `Application.App.constructor` | cmd/api/main.go:86-91 | From empty tables that satisfy every invariant, with the subscriptions made in the order invoices, billing, payments and logged. |
| `Application.App.NewMetadata` | internal/shared/event/envelope.go:47-64 | A fresh event id; the given time is kept unless it is zero. |
| `Application.App.Publish` | internal/shared/event/bus.go:125-179 | In the wired system: on success the pending record, the complete delivery and the processed record, nothing else. A refused append changes nothing. On failure outside the payment transaction the record never says processed and, if it could be written, says failed with that error. At most one record per rank is added, whatever fails. The bus logs the publish with its rounds, rightly. |
| `Application.App.DispatchMaybeTwice` | internal/shared/event/bus.go:156-170 | For any list of handlers and under any faults: after two deliveries, however the second one ended, everything is as one complete delivery leaves it; the second happens if and only if the first was complete and the duplicate is due. |
| `Application.App.Dispatch` | internal/shared/event/bus.go:181-232 | For any list of handlers: the effects of all of them in order, or a stop at the first failure; the calls logged are exactly that prefix; no more records than the event has left to set off. |
| `Application.App.DeliverTo` | internal/shared/event/bus.go:188-227 | One handler is called unless the bus fails it itself, and what happens inside becomes part of its call. |
| `Application.App.HandleLogged` | internal/shared/event/bus.go:188-229 | What the bus logs while a handler runs is right, of lower rank only, and kept apart. |
| `Application.App.Deliver` | internal/shared/event/bus.go:152-176 | Publishing without the log: append, and deliver if that was possible. |
| `Application.App.DeliverRecorded` | internal/shared/event/bus.go:157-176 | Deliver what is recorded, perhaps twice, and mark the record processed or failed. |
| `Application.App.Handle` | internal/shared/event/bus.go:266-284 | Each handler does what its event asks when it accepts it; without faults every wired handler accepts. |
| `Application.App.HandleResult` | internal/billing/module.go:34-36 | The handlers of PaymentApproved and PaymentFailed, with nothing left to do, leave everything as it is, also when they fail. |
| `Application.App.HandleRequest` | internal/payments/module.go:52 | The same for the handlers of InvoiceCreated and BillingRequested. |
| `Application.App.HandleDispatchFailure` | internal/shared/event/bus.go:234-249 | Outside the payment transaction: the record says failed with the delivery's error, or, if that write failed, still pending; never processed. |
| `Application.App.AppendRecord` | internal/shared/event/bus.go:304-325 | One pending row under a new event id, or nothing. |
| `Application.App.MarkDelivered` | internal/shared/event/bus.go:327-333 | The delivered event's row becomes processed, or nothing changes. |
| `Application.App.ApplyPaymentApproved` | internal/invoices/application/usecases/apply_payment_approved.go:31-71 | The invoice is paid at the approval's time with one processed InvoicePaid record; an already paid one is left alone without error. |
| `Application.App.PayInvoice` | internal/invoices/application/usecases/apply_payment_approved.go:44-60 | Exactly the invoice's status, payment and update time change, the payment time being the event's, or nothing if it was paid before. |
| `Application.App.MarkBillingApproved` | internal/billing/application/usecases/mark_billing_approved.go:26-51 | Exactly the billing's status and update time change, to the clock's reading. |
| `Application.App.MarkBillingFailed` | internal/billing/application/usecases/mark_billing_failed.go:26-51 | The same for a failure, with no guard and no attempt check. |
| `Application.App.ProcessBillingRequest` | internal/payments/application/usecases/process_billing_request.go:102-267 | All or nothing under any fault: the answer is the stored payment of the attempt, found or settled by exactly one gateway call; on error the database is as before; no call for a stored attempt; an attempt number below 1 is refused, and without faults nothing else is. |
| `Application.App.AttemptWithinTransaction` | internal/payments/application/usecases/process_billing_request.go:102-256 | The same for a valid attempt number: begin, the body, and then commit or roll back. |
| `Application.App.Attempt` | internal/payments/application/usecases/process_billing_request.go:103-121 | The transaction body answers with the stored payment of the attempt, found or settled now; it commits nothing, and calls the gateway at most once and never for a stored attempt. |
| `Application.App.ReserveAndCharge` | internal/payments/application/usecases/process_billing_request.go:123-150 | With the attempt missing and nothing approved: on success the attempt is settled by one gateway call; without faults it succeeds; if the id is taken, the reload says that the attempt is not there. |
| `Application.App.Reserve` | internal/payments/application/usecases/process_billing_request.go:123-139 | On success exactly the pending row of the attempt is there, under its key and the clock's time; on failure nothing; a taken id is told from other errors. |
| `Application.App.SettlePayment` | internal/payments/application/usecases/process_billing_request.go:175-212 | Approved if and only if the reply is an answer with the text of the approved status, else declined, timed out or failed, with the trimmed reference or none; each column stated. |
| `Application.App.SettleReserved` | internal/payments/application/usecases/process_billing_request.go:168-217 | One call with the billing's data, its reply settled into the reserved row and nowhere else. |
| `Application.App.ChargeReserved` | internal/payments/application/usecases/process_billing_request.go:168-255 | Exactly one gateway call, after which the transaction holds the whole settlement or fails. |
| `Application.App.PublishResult` | internal/payments/application/usecases/process_billing_request.go:219-255 | Publishing the result completes the settlement. |
| `Application.App.CreateBillingFromInvoice` | internal/billing/application/usecases/create_billing_from_invoice.go:43-119 | The invoice's billing exists afterwards: left alone if it did, else stored with its first attempt made. |
| `Application.App.OpenBilling` | internal/billing/application/usecases/create_billing_from_invoice.go:75-119 | For an unbilled invoice: success means the billing is stored and its first attempt made. |
| `Application.App.StoreBilling` | internal/billing/application/usecases/create_billing_from_invoice.go:75-95 | Success stores one billing that copies the announced invoice; failure changes nothing. |
| `Application.App.RequestFirstAttempt` | internal/billing/application/usecases/create_billing_from_invoice.go:99-116 | Publishing BillingRequested for attempt 1 of the stored billing. |
| `Application.App.GetProcessableBilling` | internal/billing/application/usecases/get_processable_billing.go:33-73 | Success is one committed reactivation of the invoice's billing, failure changes nothing; without faults it succeeds if and only if there is a billing and no approved payment, and says which was missing. |
| `Application.App.ReactivateInTransaction` | internal/billing/application/usecases/get_processable_billing.go:45-61 | Inside its transaction: success is one reactivation and nothing is committed yet; an approved billing is refused. |
| `Application.App.WriteReactivated` | internal/billing/domain/entities/billing.go:96-109 | The billing read under the lock is written back reactivated; an approved one is refused. |
| `Application.App.CreateInvoice` | internal/invoices/application/usecases/create_invoice.go:50-108 | Success stores the given invoice, due at the midnight that begins the given date, with one billing charged once, and paid if and only if the gateway answered "Approved". Under any fault all invariants stay, gateway accounting included, at most the new invoice's rows change and at most four records are added. Without faults it succeeds if and only if the customer is not blank, the amount positive and the date not the zero instant, and says which was wrong. A refused announcement leaves the invoice stored and unbilled; an injected handler failure leaves its first attempt due. |
| `Application.App.StoreInvoice` | internal/invoices/application/usecases/create_invoice.go:75-83 | Success stores the invoice as given, every column stated, the due date cut to its midnight; failure changes nothing; without faults it succeeds if and only if the input is good. |
| `Application.App.AnnounceInvoice` | internal/invoices/application/usecases/create_invoice.go:86-108 | Success means one gateway call, one outcome, and three or four records, all processed; the stored invoice keeps its amount, customer and due date. |
| `Application.App.ProcessPayment` | internal/payments/application/usecases/process_payment.go:37-74 | Never wedged: from every kept state, whatever was rolled back before, a retry without faults succeeds if and only if there is a billing and no approved payment, and pays exactly if the gateway answers "Approved", the payment recording the reply in those words; a conflict changes nothing; an error at most reopens the account. |
| `Application.App.Serve` | internal/shared/postgres/tx.go:30-59 | Any requests under any faults: every invariant holds, gateway accounting included; the books only go forward; no outbox row left by one request is changed by a later one; no call is made for a stored attempt; unbilled invoices stay unbilled and unpaid; the bus does only what its log may say. Without faults every call has its payment and exactly the creations with good input are stored. |
| `Application.App.ServeOne` | internal/shared/postgres/tx.go:30-59 | One request under any faults is about one invoice, a new one or one that has a billing, or it changes nothing; without faults exactly the creations with good input add an invoice. |
| `Application.Life` | cmd/api/main.go:86-91 | The whole life of a fresh system under any faults: every payment records the reply of the last gateway call for its attempt, no more than four publishes are open at once, each fault of the bus happens at most once, for exactly the first occasion it is configured for, every event reaches its subscribers in order; the tables are consistent column by column; without faults as many calls as payments. |
| `Application.App.Orphan` | internal/invoices/application/usecases/create_invoice.go:81-108 | An invoice whose announcement the recorder refuses is stored, unbilled and unpaid. |
| `Application.App.RetryInVain` | internal/billing/application/usecases/get_processable_billing.go:45-61 | Retrying an unbilled invoice any number of times, under any faults, changes nothing at all. |
| `Application.App.RecoverAndRetry` | internal/shared/event/bus.go:359-377 | After an injected failure of the payments handler the retries are all the attempts there are. |
| `Application.App.RetryTimes` | internal/payments/application/usecases/process_payment.go:55-73 | Any number of retries of an open or closed account continue it by the gateway's next replies, up to the first approval. |
| `Application.App.CreateAndRetry` | internal/payments/application/usecases/process_payment.go:55-73 | Refinement: creating an invoice and retrying n times gives the account cut after the first approval of the gateway's replies, with exactly that many gateway calls: the invoice is paid if and only if one of the first n+1 replies is an answer "Approved", and the call that got it is the last. |
| `Application.App.RetryOnce` | internal/payments/application/usecases/process_payment.go:55-73 | One more retry is one more step of the account; a paid invoice is left alone and its gateway reply never drawn. |
| `Database.Db.Commit` | internal/shared/postgres/tx.go:37-50 | All of the working copy or nothing. |
| `Database.Db.Begin` | internal/shared/postgres/tx.go:30-36 | Entered only without an open transaction; the working copy starts as the committed data. |
| `Database.Db.Rollback` | internal/shared/postgres/tx.go:37-43 | Committed data untouched, also when the rollback reports an error. |
| `Database.Db.SavePayment` | internal/payments/infrastructure/persistence/postgres_repository.go:48-76 | A fault, and a violated index, each refuse the row with their own error; otherwise it is added. |
| `Database.Db.UpdatePayment` | internal/payments/infrastructure/persistence/postgres_repository.go:78-108 | A fault, a missing row and a second approval of the invoice each refuse the update with their own error; otherwise only status, reference, category and update time change. |
| `Database.Db.GetPayment` | internal/payments/infrastructure/persistence/postgres_repository.go:196-233 | The stored payment of the attempt, unchanged by storage, or not found exactly when there is none. |
| `Database.Db.HasApprovedByInvoice` | internal/payments/infrastructure/persistence/postgres_repository.go:28-46 | Whether the transaction's own view has an approved payment of the invoice. |
| `Database.Db.SaveBilling` | internal/billing/infrastructure/persistence/postgres_repository.go:28-55 | A fault, and a taken id or invoice, each refuse the row with their own error; otherwise it is added. |
| `Database.Db.GetBillingByInvoice` | internal/billing/infrastructure/persistence/postgres_repository.go:67-86 | The invoice's billing, unchanged by storage, or not found exactly when there is none. |
| `Database.Db.UpdateBilling` | internal/billing/infrastructure/persistence/postgres_repository.go:88-114 | Refused by a fault or for a missing row; otherwise status and attempt number are written together and the other columns stay. |
| `Database.Db.GetBilling` | internal/billing/infrastructure/persistence/postgres_repository.go:57-65 | The billing with that id, unchanged by storage, or not found exactly when there is none. |
| `Database.Db.UpdateInvoice` | internal/invoices/infrastructure/persistence/postgres_repository.go:134-160 | Refused by a fault or for a missing row; otherwise only status, update time and payment time change. |
| `Database.Db.SaveInvoice` | internal/invoices/infrastructure/persistence/postgres_repository.go:27-50 | The row is added if and only if nothing fails and its id is new. |
| `Database.Db.GetInvoice` | internal/invoices/infrastructure/persistence/postgres_repository.go:52-86 | The invoice with that id, unchanged by storage, or not found exactly when there is none. |
| `Database.Db.Append` | internal/shared/outbox/recorder.go:32-56 | A pending row under an id that had none, or nothing; with the decorator the first append of all is refused and no other. |
| `Database.Db.MarkProcessed` | internal/shared/outbox/recorder.go:58-80 | Exactly that row becomes processed and loses its failure. |
| `Database.Db.MarkFailed` | internal/shared/outbox/recorder.go:82-104 | Exactly that row becomes failed; its processing time stays. |
| `Entities.Invoice.MarkPaid` | internal/invoices/domain/entities/invoice.go:74-88 | Refused if paid or cancelled, with nothing changed; else status, payment time and update time are those of the payment. |
| `Entities.NormalizedIsMidnight` | internal/invoices/domain/entities/invoice.go:149-155 | A time becomes the midnight that begins its day. |
| `Entities.MadeInvoices` | internal/invoices/domain/entities/invoice.go:28-44 | Exactly which invoices are made and of what, and the error for every other input. |
| `Entities.MadeBillings` | internal/billing/domain/entities/billing.go:28-46 | The same for billings. |
| `Entities.MadePayments` | internal/payments/domain/entities/payment.go:34-51 | The same for payments. |
| `Entities.Billing.MarkRequested` | internal/billing/domain/entities/billing.go:96-109 | Refused if approved; a failed billing moves to the next attempt; a requested one stays as it is. |
| `Entities.Billing.MarkApproved` | internal/billing/domain/entities/billing.go:78-85 | Approved, untouched if it was already. |
| `Entities.Billing.MarkFailed` | internal/billing/domain/entities/billing.go:87-94 | Failed from any other status, approved included. |
| `Entities.Payment.MarkApproved` | internal/payments/domain/entities/payment.go:85-90 | Approved with the trimmed reference and no category. |
| `Entities.Payment.MarkFailed` | internal/payments/domain/entities/payment.go:92-97 | Failed with the trimmed reference and the category. |
| `Environment.World.Process` | internal/payments/application/usecases/process_billing_request.go:168-173 | One call and its reply are logged; nothing takes them back. |
| `BusLog.PublishedInOrder` | internal/shared/event/bus.go:125-232 | For every right log and every publish in it: the calls are everyone who had subscribed before, in order, up to the first failure; a second round only after a complete first one and only if none was made before. |
| `BusLog.FaultsHappenOnce` | internal/shared/event/bus.go:343-377 | The flags count exactly how often, at any depth, a handler was failed and an event duplicated: at most once each. |
| `BusLog.FirstIsRepeated` | internal/shared/event/bus.go:343-357 | Of all events delivered completely, at any depth and in that order, exactly the first of the configured name is delivered twice. |
| `BusLog.FirstIsFailed` | internal/shared/event/bus.go:359-377 | Of all calls, at any depth and in order, exactly the first of the configured event and consumer is failed by the bus. |
| `BusLog.OneIsTaken` | internal/shared/event/bus.go:343-377 | A configured fault with an occasion happens exactly once and for what it is configured for, an unconfigured one never. |
| `BusLog.SubscriptionsInOrder` | internal/shared/event/bus.go:251-256 | The subscriptions to an event are all that were ever made to it, in order, also those made by handlers. |
| `BusLog.InnerLogIsRight` | internal/shared/event/bus.go:188-229 | What happens while a handler runs is a right log again, so all of this holds at any depth. |
| `BusLog.RightLogsAreOrderly` | internal/shared/event/bus.go:125-232 | In every right log every publish, also those made while handlers run, calls those subscribed at that moment in order up to the first failure, again only after a complete round. |
| `BusLog.DepthIsBounded` | internal/shared/event/bus.go:188-229 | If every publish is of lower rank than the one it happens in, no more are open at once than there are ranks. |
| `EventBus.SyncBus.Perform` | internal/shared/event/bus.go:125-256 | Whatever users and handlers do, for any subscriptions, the bus keeps a right log of it, entry by entry what they did. |
| `EventBus.SyncBus.Publish` | internal/shared/event/bus.go:125-179 | For any subscriptions and any handlers: one entry with its rounds, right for the bus as it was; no round without a record, failure exactly if record, handler or marking failed, and the handlers did what their script says. |
| `EventBus.SyncBus.Dispatch` | internal/shared/event/bus.go:181-232 | One round over any handlers: it stops at the first failure and fails if and only if it is not complete. |
| `EventBus.SyncBus.DeliverTo` | internal/shared/event/bus.go:188-227 | One handler does what its script says, or is failed without running. |
| `EventBus.Life` | internal/shared/event/bus.go:108-179 | From its making on, for all users and handlers: at most one failure and one duplicate injected, each on the first occasion it is configured for, and every event, at any depth, delivered in order to those subscribed at the time. |
| `EventBus.SyncBus.Subscribe` | internal/shared/event/bus.go:251-256 | Appends the handler to that event's list and to no other, and logs it. |
| `EventBus.SyncBus.ShouldDuplicate` | internal/shared/event/bus.go:343-357 | True if and only if the event is the configured one and the duplicate is unspent, which it then spends (`BusLog.FirstIsRepeated` says the same of whole logs). |
| `EventBus.SyncBus.ShouldFailConsumer` | internal/shared/event/bus.go:359-377 | True if and only if event and consumer are the configured ones and the failure is unspent, which it then spends. |
| `FaultProfiles.FailFirstGateway.Process` | internal/shared/runtimefaults/runtimefaults.go:90-107 | The first call fails, all later ones are passed on in order. |
| `FaultProfiles.FlakyFirstShiftsByOne` | internal/shared/runtimefaults/runtimefaults.go:47-70 | With the flaky-first gateway the account is one failure followed by the account without the profile. |
| `FaultProfiles.TimeoutsNeverPay` | internal/shared/runtimefaults/runtimefaults.go:47-70 | With the timeout profile no number of retries pays, and every one is an attempt. |
| `FaultProfiles.DecorationDecides` | internal/shared/runtimefaults/runtimefaults.go:47-70 | What the replies seen through each profile's decorator decide, in terms of the gateway behind it, which four profiles leave as it is. |
| `FaultProfiles.LogTellsInjections` | internal/shared/runtimefaults/runtimefaults.go:18-37 | Which event is delivered twice and which call is failed under each profile: at most the configured one, exactly once. |
| `FaultProfiles.CreateAndRetryUnder` | internal/shared/runtimefaults/runtimefaults.go:18-70 | The freshly started system under each of the six profiles: with a refused append the invoice stays unbilled and the gateway is never called; otherwise its account is what the decorated replies make of it, the injected handler failure costing the first attempt and the duplicate nothing; who pays is also stated in the replies of the gateway behind the decorator. BillingRequested is delivered twice exactly under its profile, once and nothing else, and the payments handler is failed exactly under its own. |
| `FaultProfiles.OrphanStays` | internal/shared/runtimefaults/runtimefaults.go:39-45 | Under the append-failure profile the created invoice stays unbilled and unpaid whatever requests follow. |
| `FaultProfiles.FlakyFirstRecovers` | internal/shared/runtimefaults/runtimefaults.go:90-107 | Under the flaky-first profile the creation's attempt fails and the retries decide as if they were the first attempts. |

## Left out

- HTTP handlers, JSON, UUID syntax checks, error codes, configuration, metrics, spans, logs and correlation ids: no effect on the tables.
- SQL text, connection pools and migrations with their data backfills: runs start from empty tables.
- The customers module: its answer to an invoice request is the parameter `refusal`. Its CustomerCreated goes through the same bus and recorder and would spend the one refused append; the profile worlds assume that the customer existed before the process started.
- ListByInvoiceID, ListByCustomerID and lookups by payment id: read-only queries outside the protocol.
- Outbox rows in the concurrent model: requests share none of them, and they are proved over sequential requests under arbitrary faults.
- Foreign keys: the share locks they take would only rule out interleavings that the concurrent model allows, and the rows they require are proved to be there.
- The loss of a commit's acknowledgement: a commit that reports an error has stored nothing.
- Exactly-once gateway charging: a call whose payment is rolled back stays in the call log and the attempt is charged again, as in the program.
- Go's int64 and time zones: amounts are only copied and compared with zero, times are seconds of one clock.
- Text columns inside the tables: the tables hold typed rows, every read passes through the text form and back.
- The delayed gateway's timer: the profile's replies are deadline errors, whatever the gateway behind it would have said.
- Payment times when a payment's own time is the zero instant: the event then takes the clock's, and the invoice that time.
- The moment between a gateway call and the update that follows, in the concurrent model: they are one step, because the call touches no table.
- Application.App.ProcessPayment: is about one request at a time; `Recovery.NeverWedged` is its counterpart after concurrent ones, where a retry may also be told of a conflict.
- Application.App.Publish: is for the wiring of cmd/api/main.go, the bus under any other subscriptions being `EventBus.SyncBus.Publish`; and not for announcing an invoice whose billing has its first attempt still open, which no caller does.
