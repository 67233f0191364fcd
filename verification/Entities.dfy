/** The three aggregates: invoices, billings and payments.

A `...Row` is the value an aggregate stores; the classes are the aggregates themselves, whose methods
update their fields in place. `AsPaid`, `As`, `AsReactivated`, `AsApproved` and `AsFailed` say
what those methods do to the stored value. */
module Entities {
  import opened Wrappers
  import opened Text

  /** Seconds since the zero instant, which Go's `Time.IsZero` recognises. */
  type Time = int

  const ZERO_TIME: Time := 0
  const DAY: int := 86400

  /** Truncation to midnight; the zero instant stays the zero instant. */
  function NormalizeDate(t: Time): Time {
    if t == ZERO_TIME then ZERO_TIME else t - t % DAY
  }

  /** A time becomes the midnight that begins its day. */
  lemma NormalizedIsMidnight(t: Time)
    ensures NormalizeDate(t) % 86400 == 0 && NormalizeDate(t) <= t < NormalizeDate(t) + 86400
  {
  }

  datatype Error =
    | InvalidInvoiceId | InvalidBillingId | InvalidPaymentId
    | InvalidCustomerReference | InvalidInvoiceReference | InvalidBillingReference
    | InvalidAttemptNumber | InvalidIdempotencyKey
    | InvoiceAmountMustBePositive | InvoiceDueDateRequired
    | InvoiceNotPayable | InvoiceImmutable | InvoiceNotFound
    | BillingAlreadyApproved | BillingAlreadyExists | BillingNotFound
    | PaymentAlreadyExists | PaymentNotFound
    | CustomerRejected
    | InjectedConsumerFailure | SimulatedAppendFailure | UnexpectedEvent
    | Infrastructure

  // ---- Invoices ----

  datatype InvoiceStatus = PendingInvoice | PaidInvoice | OverdueInvoice | CancelledInvoice

  datatype InvoiceRow = InvoiceRow(
    id: string,
    customerId: string,
    amountCents: int,
    dueDate: Time,
    status: InvoiceStatus,
    createdAt: Time,
    updatedAt: Time,
    paidAt: Option<Time>)
  {
    function AsPaid(now: Time): InvoiceRow {
      this.(status := PaidInvoice, paidAt := Some(now), updatedAt := now)
    }
  }

  function ValidateInvoice(r: InvoiceRow): Option<Error> {
    if r.id == "" then Some(InvalidInvoiceId)
    else if r.customerId == "" then Some(InvalidCustomerReference)
    else if r.amountCents <= 0 then Some(InvoiceAmountMustBePositive)
    else if r.dueDate == ZERO_TIME then Some(InvoiceDueDateRequired)
    else None
  }

  function NewInvoice(id: string, customerId: string, amountCents: int, dueDate: Time, now: Time):
    Result<InvoiceRow, Error>
  {
    var r := InvoiceRow(TrimSpace(id), TrimSpace(customerId), amountCents, NormalizeDate(dueDate), PendingInvoice,
                        now, now, None);
    match ValidateInvoice(r)
    case Some(e) => Err(e)
    case None => Ok(r)
  }

  /** An invoice can be made for these, whatever its id: a customer, a positive amount, and a date that does not
      become the zero instant. */
  predicate CanInvoice(customerId: string, amountCents: int, dueDate: Time) {
    !Blank(customerId) && 0 < amountCents && !(0 <= dueDate < 86400)
  }

  /** Why it cannot, if the id is not to blame. */
  function InvoiceRefusal(customerId: string, amountCents: int): Error {
    if Blank(customerId) then InvalidCustomerReference
    else if amountCents <= 0 then InvoiceAmountMustBePositive
    else InvoiceDueDateRequired
  }

  /** Which invoices are made, of what, and why others are not. */
  lemma MadeInvoices(id: string, customerId: string, amountCents: int, dueDate: Time, now: Time)
    ensures NewInvoice(id, customerId, amountCents, dueDate, now)
            == if Blank(id) then Err(InvalidInvoiceId)
               else if !CanInvoice(customerId, amountCents, dueDate) then Err(InvoiceRefusal(customerId, amountCents))
               else Ok(InvoiceRow(TrimSpace(id), TrimSpace(customerId), amountCents, dueDate - dueDate % 86400,
                                  PendingInvoice, now, now, None))
  {
    TrimStrips(id);
    TrimStrips(customerId);
  }

  class Invoice {
    const id: string
    const customerId: string
    const amountCents: int
    const dueDate: Time
    const createdAt: Time
    var status: InvoiceStatus
    var updatedAt: Time
    var paidAt: Option<Time>

    constructor (r: InvoiceRow)
      ensures Row() == r
    {
      id, customerId, amountCents, dueDate, createdAt := r.id, r.customerId, r.amountCents, r.dueDate, r.createdAt;
      status, updatedAt, paidAt := r.status, r.updatedAt, r.paidAt;
    }

    function Row(): InvoiceRow
      reads this
    {
      InvoiceRow(id, customerId, amountCents, dueDate, status, createdAt, updatedAt, paidAt)
    }

    /** A paid invoice is immutable, a cancelled one cannot be paid; anything else becomes paid. */
    method MarkPaid(now: Time) returns (refusal: Option<Error>)
      modifies this
      ensures refusal == (match old(status)
                          case PaidInvoice => Some(InvoiceImmutable)
                          case CancelledInvoice => Some(InvoiceNotPayable)
                          case _ => None)
      ensures Row() == if refusal.None? then old(Row()).AsPaid(now) else old(Row())
      ensures refusal.None? ==> status == PaidInvoice && paidAt == Some(now) && updatedAt == now
    {
      if status == PaidInvoice {
        return Some(InvoiceImmutable);
      }
      if status == CancelledInvoice {
        return Some(InvoiceNotPayable);
      }
      status := PaidInvoice;
      paidAt := Some(now);
      updatedAt := now;
      return None;
    }
  }

  // ---- Billings ----

  datatype BillingStatus = RequestedBilling | FailedBilling | ApprovedBilling

  datatype BillingRow = BillingRow(
    id: string,
    invoiceId: string,
    customerId: string,
    amountCents: int,
    dueDate: Time,
    status: BillingStatus,
    attemptNumber: int,
    createdAt: Time,
    updatedAt: Time)
  {
    /** Moves to `s`, touching nothing when already there. No guard protects an approved billing. */
    function As(s: BillingStatus, now: Time): BillingRow {
      if status == s then this else this.(status := s, updatedAt := now)
    }

    /** A failed billing is requested again under the next attempt number; a requested one stays as it is. */
    function AsReactivated(now: Time): BillingRow {
      if status == FailedBilling
      then this.(status := RequestedBilling, attemptNumber := attemptNumber + 1, updatedAt := now)
      else this
    }
  }

  function ValidateBilling(r: BillingRow): Option<Error> {
    if r.id == "" then Some(InvalidBillingId)
    else if r.invoiceId == "" then Some(InvalidInvoiceReference)
    else if r.customerId == "" then Some(InvalidCustomerReference)
    else if r.amountCents <= 0 then Some(InvalidInvoiceReference)
    else if r.dueDate == ZERO_TIME then Some(InvalidInvoiceReference)
    else if r.attemptNumber <= 0 then Some(InvalidAttemptNumber)
    else None
  }

  function NewBilling(id: string, invoiceId: string, customerId: string, amountCents: int, dueDate: Time, now: Time):
    Result<BillingRow, Error>
  {
    var r := BillingRow(TrimSpace(id), TrimSpace(invoiceId), TrimSpace(customerId), amountCents, NormalizeDate(dueDate),
                        RequestedBilling, 1, now, now);
    match ValidateBilling(r)
    case Some(e) => Err(e)
    case None => Ok(r)
  }

  lemma MadeBillings(id: string, invoiceId: string, customerId: string, amountCents: int, dueDate: Time, now: Time)
    ensures NewBilling(id, invoiceId, customerId, amountCents, dueDate, now)
            == if Blank(id) then Err(InvalidBillingId)
               else if Blank(invoiceId) then Err(InvalidInvoiceReference)
               else if Blank(customerId) then Err(InvalidCustomerReference)
               else if amountCents <= 0 || 0 <= dueDate < 86400 then Err(InvalidInvoiceReference)
               else Ok(BillingRow(TrimSpace(id), TrimSpace(invoiceId), TrimSpace(customerId), amountCents,
                                  dueDate - dueDate % 86400, RequestedBilling, 1, now, now))
  {
    TrimStrips(id);
    TrimStrips(invoiceId);
    TrimStrips(customerId);
  }

  class Billing {
    const id: string
    const invoiceId: string
    const customerId: string
    const amountCents: int
    const dueDate: Time
    const createdAt: Time
    var status: BillingStatus
    var attemptNumber: int
    var updatedAt: Time

    constructor (r: BillingRow)
      ensures Row() == r
    {
      id, invoiceId, customerId, amountCents := r.id, r.invoiceId, r.customerId, r.amountCents;
      dueDate, createdAt := r.dueDate, r.createdAt;
      status, attemptNumber, updatedAt := r.status, r.attemptNumber, r.updatedAt;
    }

    function Row(): BillingRow
      reads this
    {
      BillingRow(id, invoiceId, customerId, amountCents, dueDate, status, attemptNumber, createdAt, updatedAt)
    }

    method MarkApproved(now: Time)
      modifies this
      ensures Row() == old(Row()).As(ApprovedBilling, now)
      ensures status == ApprovedBilling && attemptNumber == old(attemptNumber)
      ensures updatedAt == if old(status) == ApprovedBilling then old(updatedAt) else now
    {
      if status == ApprovedBilling {
        return;
      }
      status := ApprovedBilling;
      updatedAt := now;
    }

    method MarkFailed(now: Time)
      modifies this
      ensures Row() == old(Row()).As(FailedBilling, now)
      ensures status == FailedBilling && attemptNumber == old(attemptNumber)
      ensures updatedAt == if old(status) == FailedBilling then old(updatedAt) else now
    {
      if status == FailedBilling {
        return;
      }
      status := FailedBilling;
      updatedAt := now;
    }

    method MarkRequested(now: Time) returns (refusal: Option<Error>)
      modifies this
      ensures refusal == if old(status) == ApprovedBilling then Some(BillingAlreadyApproved) else None
      ensures Row() == old(Row()).AsReactivated(now)
      ensures if old(status) == FailedBilling
              then status == RequestedBilling && attemptNumber == old(attemptNumber) + 1 && updatedAt == now
              else Row() == old(Row())
    {
      if status == ApprovedBilling {
        return Some(BillingAlreadyApproved);
      }
      if status == RequestedBilling {
        return None;
      }
      status := RequestedBilling;
      attemptNumber := attemptNumber + 1;
      updatedAt := now;
      return None;
    }
  }

  // ---- Payments ----

  datatype PaymentStatus = PendingPayment | ApprovedPayment | FailedPayment

  /** `NoFailure` is the empty category. */
  datatype FailureCategory = NoFailure | GatewayDeclined | GatewayTimeout | GatewayError

  datatype PaymentRow = PaymentRow(
    id: string,
    billingId: string,
    invoiceId: string,
    attemptNumber: int,
    idempotencyKey: string,
    status: PaymentStatus,
    gatewayReference: string,
    failureCategory: FailureCategory,
    createdAt: Time,
    updatedAt: Time)
  {
    function AsApproved(reference: string, now: Time): PaymentRow {
      this.(status := ApprovedPayment, gatewayReference := TrimSpace(reference), failureCategory := NoFailure,
            updatedAt := now)
    }

    function AsFailed(reference: string, category: FailureCategory, now: Time): PaymentRow {
      this.(status := FailedPayment, gatewayReference := TrimSpace(reference), failureCategory := category,
            updatedAt := now)
    }
  }

  function ValidatePayment(r: PaymentRow): Option<Error> {
    if r.id == "" then Some(InvalidPaymentId)
    else if r.billingId == "" then Some(InvalidBillingReference)
    else if r.invoiceId == "" then Some(InvalidInvoiceReference)
    else if r.attemptNumber <= 0 then Some(InvalidAttemptNumber)
    else if r.idempotencyKey == "" then Some(InvalidIdempotencyKey)
    else if r.status == FailedPayment && r.failureCategory == NoFailure then Some(InvalidPaymentId)
    else if r.status != FailedPayment && r.failureCategory != NoFailure then Some(InvalidPaymentId)
    else None
  }

  function NewPayment(
      id: string, billingId: string, invoiceId: string, attemptNumber: int, idempotencyKey: string, now: Time):
    Result<PaymentRow, Error>
  {
    var r := PaymentRow(TrimSpace(id), TrimSpace(billingId), TrimSpace(invoiceId), attemptNumber,
                        TrimSpace(idempotencyKey), PendingPayment, "", NoFailure, now, now);
    match ValidatePayment(r)
    case Some(e) => Err(e)
    case None => Ok(r)
  }

  lemma MadePayments(id: string, billingId: string, invoiceId: string, attemptNumber: int, key: string, now: Time)
    ensures NewPayment(id, billingId, invoiceId, attemptNumber, key, now)
            == if Blank(id) then Err(InvalidPaymentId)
               else if Blank(billingId) then Err(InvalidBillingReference)
               else if Blank(invoiceId) then Err(InvalidInvoiceReference)
               else if attemptNumber <= 0 then Err(InvalidAttemptNumber)
               else if Blank(key) then Err(InvalidIdempotencyKey)
               else Ok(PaymentRow(TrimSpace(id), TrimSpace(billingId), TrimSpace(invoiceId), attemptNumber,
                                  TrimSpace(key), PendingPayment, "", NoFailure, now, now))
  {
    TrimStrips(id);
    TrimStrips(billingId);
    TrimStrips(invoiceId);
    TrimStrips(key);
  }

  class Payment {
    const id: string
    const billingId: string
    const invoiceId: string
    const attemptNumber: int
    const idempotencyKey: string
    const createdAt: Time
    var status: PaymentStatus
    var gatewayReference: string
    var failureCategory: FailureCategory
    var updatedAt: Time

    constructor (r: PaymentRow)
      ensures Row() == r
    {
      id, billingId, invoiceId, attemptNumber := r.id, r.billingId, r.invoiceId, r.attemptNumber;
      idempotencyKey, createdAt := r.idempotencyKey, r.createdAt;
      status, gatewayReference, failureCategory, updatedAt := r.status, r.gatewayReference, r.failureCategory,
          r.updatedAt;
    }

    function Row(): PaymentRow
      reads this
    {
      PaymentRow(id, billingId, invoiceId, attemptNumber, idempotencyKey, status, gatewayReference, failureCategory,
                 createdAt, updatedAt)
    }

    method MarkApproved(reference: string, now: Time)
      modifies this
      ensures Row() == old(Row()).AsApproved(reference, now)
      ensures status == ApprovedPayment && failureCategory == NoFailure && gatewayReference == TrimSpace(reference)
              && updatedAt == now
    {
      status := ApprovedPayment;
      gatewayReference := TrimSpace(reference);
      failureCategory := NoFailure;
      updatedAt := now;
    }

    method MarkFailed(reference: string, category: FailureCategory, now: Time)
      modifies this
      ensures Row() == old(Row()).AsFailed(reference, category, now)
      ensures status == FailedPayment && failureCategory == category && gatewayReference == TrimSpace(reference)
              && updatedAt == now
    {
      status := FailedPayment;
      gatewayReference := TrimSpace(reference);
      failureCategory := category;
      updatedAt := now;
    }
  }

  // ---- The gateway's answer, and what it makes of a pending payment ----

  /** An answer carrying the gateway's own status text, or one of the two kinds of error. */
  datatype Reply = Answer(status: string, reference: string) | DeadlineExceeded | OtherError
  {
    predicate Approves() { Answer? && status == "Approved" }
  }

  function ClassifyGatewayError(reply: Reply): FailureCategory
    requires !reply.Answer?
  {
    if reply.DeadlineExceeded? then GatewayTimeout else GatewayError
  }

  /** What a payment keeps of the reply: approved or not, why not, and the trimmed reference. */
  datatype Outcome = Outcome(approved: bool, category: FailureCategory, reference: string)

  function OutcomeOf(reply: Reply): Outcome {
    if reply.Approves() then Outcome(true, NoFailure, TrimSpace(reply.reference))
    else if reply.Answer? then Outcome(false, GatewayDeclined, TrimSpace(reply.reference))
    else Outcome(false, ClassifyGatewayError(reply), "")
  }

  /** The outcome a settled payment row records. */
  function Recorded(p: PaymentRow): Outcome {
    Outcome(p.status == ApprovedPayment, p.failureCategory, p.gatewayReference)
  }

  /** `p` settled with `o` at `now`. */
  function SettledAs(p: PaymentRow, o: Outcome, now: Time): PaymentRow {
    p.(status := if o.approved then ApprovedPayment else FailedPayment,
       gatewayReference := o.reference, failureCategory := o.category, updatedAt := now)
  }
}
