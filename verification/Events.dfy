/** The events of the settlement protocol, their envelopes, and who listens to them. */
module Events {
  import opened Wrappers
  import opened Entities

  datatype ModuleName = InvoicesModule | BillingModule | PaymentsModule

  /** The correlation id is not part of this model. */
  datatype Metadata = Metadata(eventId: string, aggregateId: string, occurredAt: Time)

  datatype Event =
    | InvoiceCreated(meta: Metadata, invoiceId: string, customerId: string, amountCents: int, dueDate: Time)
    | BillingRequested(meta: Metadata, billingId: string, invoiceId: string, customerId: string, amountCents: int,
                       dueDate: Time, attemptNumber: int)
    | PaymentApproved(meta: Metadata, paymentId: string, billingId: string, invoiceId: string, customerId: string,
                      attemptNumber: int, idempotencyKey: string, gatewayReference: string)
    | PaymentFailed(meta: Metadata, paymentId: string, billingId: string, invoiceId: string, customerId: string,
                    attemptNumber: int, idempotencyKey: string, failureCategory: FailureCategory,
                    gatewayReference: string)
    | InvoicePaid(meta: Metadata, invoiceId: string)
  {
    /** Published inside the payment transaction, about one payment. */
    predicate IsResult() { PaymentApproved? || PaymentFailed? }

    predicate InPaymentTransaction() { IsResult() || InvoicePaid? }
  }

  datatype EventName =
    | NameInvoiceCreated | NameBillingRequested | NamePaymentApproved | NamePaymentFailed | NameInvoicePaid

  function NameOf(e: Event): EventName {
    match e
    case InvoiceCreated(_, _, _, _, _) => NameInvoiceCreated
    case BillingRequested(_, _, _, _, _, _, _) => NameBillingRequested
    case PaymentApproved(_, _, _, _, _, _, _, _) => NamePaymentApproved
    case PaymentFailed(_, _, _, _, _, _, _, _, _) => NamePaymentFailed
    case InvoicePaid(_, _) => NameInvoicePaid
  }

  /** How many further publishes an event can still set off, one inside the other. */
  function Rank(name: EventName): nat {
    match name
    case NameInvoiceCreated => 3
    case NameBillingRequested => 2
    case NamePaymentApproved => 1
    case NamePaymentFailed => 1
    case NameInvoicePaid => 0
  }

  /** The event handlers the modules register. */
  datatype Subscriber =
    | InvoicesOnPaymentApproved
    | BillingOnInvoiceCreated
    | BillingOnPaymentApproved
    | BillingOnPaymentFailed
    | PaymentsOnBillingRequested

  function ModuleOf(h: Subscriber): ModuleName {
    match h
    case InvoicesOnPaymentApproved => InvoicesModule
    case BillingOnInvoiceCreated => BillingModule
    case BillingOnPaymentApproved => BillingModule
    case BillingOnPaymentFailed => BillingModule
    case PaymentsOnBillingRequested => PaymentsModule
  }

  /** The order in which cmd/api/main.go wires the modules: invoices, billing, payments. */
  function Subscribers(name: EventName): seq<Subscriber> {
    match name
    case NameInvoiceCreated => [BillingOnInvoiceCreated]
    case NameBillingRequested => [PaymentsOnBillingRequested]
    case NamePaymentApproved => [InvoicesOnPaymentApproved, BillingOnPaymentApproved]
    case NamePaymentFailed => [BillingOnPaymentFailed]
    case NameInvoicePaid => []
  }

  // ---- The outbox ----

  datatype RecordStatus = RecordPending | RecordProcessed | RecordFailed

  datatype OutboxRow = OutboxRow(
    event: Event,
    emitter: ModuleName,
    status: RecordStatus,
    recordedAt: Time,
    processedAt: Option<Time>,
    failedAt: Option<Time>,
    errorMessage: Option<Error>)
  {
    function AsProcessed(at: Time): OutboxRow {
      this.(status := RecordProcessed, processedAt := Some(at), failedAt := None, errorMessage := None)
    }

    /** Leaves `processedAt` as it was. */
    function AsFailed(at: Time, e: Error): OutboxRow {
      this.(status := RecordFailed, failedAt := Some(at), errorMessage := Some(e))
    }

    /** The columns agree with the status. */
    predicate Coherent() {
      match status
      case RecordPending => processedAt.None? && failedAt.None? && errorMessage.None?
      case RecordProcessed => processedAt.Some? && failedAt.None? && errorMessage.None?
      case RecordFailed => processedAt.None? && failedAt.Some? && errorMessage.Some?
    }
  }

  /** Marking a row failed keeps it coherent only if it was not marked processed before: the time of processing
      stays. */
  lemma FailingNeedsUnprocessed(r: OutboxRow, at: Time, e: Error)
    requires r.Coherent()
    ensures r.AsFailed(at, e).Coherent() <==> r.status != RecordProcessed
    ensures r.AsProcessed(at).Coherent()
  {
  }

  function Appended(e: Event, emitter: ModuleName, at: Time): OutboxRow {
    OutboxRow(e, emitter, RecordPending, at, None, None, None)
  }
}
