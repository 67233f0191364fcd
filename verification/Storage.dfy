/** Aggregates as table columns: text statuses, a nullable failure category, and reading them back. */
module Storage {
  import opened Wrappers
  import opened Text
  import opened Entities

  // ---- Payments ----

  datatype PaymentColumns = PaymentColumns(
    id: string, billingId: string, invoiceId: string, attemptNumber: int, idempotencyKey: string,
    status: string, gatewayReference: string, failureCategory: Option<string>, createdAt: Time, updatedAt: Time)

  function PaymentStatusText(s: PaymentStatus): string {
    match s
    case PendingPayment => "Pending"
    case ApprovedPayment => "Approved"
    case FailedPayment => "Failed"
  }

  function CategoryText(c: FailureCategory): string {
    match c
    case NoFailure => ""
    case GatewayDeclined => "gateway_declined"
    case GatewayTimeout => "gateway_timeout"
    case GatewayError => "gateway_error"
  }

  /** The empty category is stored as NULL. */
  function NullableFailureCategory(c: string): Option<string> {
    if c == "" then None else Some(c)
  }

  function DerefString(v: Option<string>): string {
    if v.None? then "" else v.value
  }

  function ParsePaymentStatus(s: string): Option<PaymentStatus> {
    if s == "Pending" then Some(PendingPayment)
    else if s == "Approved" then Some(ApprovedPayment)
    else if s == "Failed" then Some(FailedPayment)
    else None
  }

  function ParseCategory(s: string): Option<FailureCategory> {
    if s == "" then Some(NoFailure)
    else if s == "gateway_declined" then Some(GatewayDeclined)
    else if s == "gateway_timeout" then Some(GatewayTimeout)
    else if s == "gateway_error" then Some(GatewayError)
    else None
  }

  function PaymentToColumns(p: PaymentRow): PaymentColumns {
    PaymentColumns(p.id, p.billingId, p.invoiceId, p.attemptNumber, p.idempotencyKey, PaymentStatusText(p.status),
                   p.gatewayReference, NullableFailureCategory(CategoryText(p.failureCategory)), p.createdAt,
                   p.updatedAt)
  }

  /** An unknown status or category is refused with the error that validation gives for it; the references
      are validated first, as in the source. */
  function RehydratePayment(c: PaymentColumns): Result<PaymentRow, Error> {
    var status := ParsePaymentStatus(TrimSpace(c.status));
    var category := ParseCategory(TrimSpace(DerefString(c.failureCategory)));
    var known := status.Some? && category.Some?;
    var p := PaymentRow(TrimSpace(c.id), TrimSpace(c.billingId), TrimSpace(c.invoiceId), c.attemptNumber,
                        TrimSpace(c.idempotencyKey), if known then status.value else PendingPayment,
                        TrimSpace(c.gatewayReference), if known then category.value else NoFailure,
                        c.createdAt, c.updatedAt);
    match ValidatePayment(p)
    case Some(e) => Err(e)
    case None => if known then Ok(p) else Err(InvalidPaymentId)
  }

  /** The payments that storage can hold. */
  predicate StorablePayment(p: PaymentRow) {
    && ValidatePayment(p).None?
    && Trimmed(p.id) && Trimmed(p.billingId) && Trimmed(p.invoiceId) && Trimmed(p.idempotencyKey)
       && Trimmed(p.gatewayReference)
  }

  lemma TextsAreTrimmed()
    ensures forall s :: TrimSpace(PaymentStatusText(s)) == PaymentStatusText(s)
    ensures forall c :: TrimSpace(CategoryText(c)) == CategoryText(c)
    ensures forall s :: TrimSpace(BillingStatusText(s)) == BillingStatusText(s)
    ensures forall s :: TrimSpace(InvoiceStatusText(s)) == InvoiceStatusText(s)
  {
    forall s: PaymentStatus ensures TrimSpace(PaymentStatusText(s)) == PaymentStatusText(s) {
      TrimKeepsTrimmed(PaymentStatusText(s));
    }
    forall c: FailureCategory ensures TrimSpace(CategoryText(c)) == CategoryText(c) {
      TrimKeepsTrimmed(CategoryText(c));
    }
    forall s: BillingStatus ensures TrimSpace(BillingStatusText(s)) == BillingStatusText(s) {
      TrimKeepsTrimmed(BillingStatusText(s));
    }
    forall s: InvoiceStatus ensures TrimSpace(InvoiceStatusText(s)) == InvoiceStatusText(s) {
      TrimKeepsTrimmed(InvoiceStatusText(s));
    }
  }

  /** Only fixed points of trimming read back unchanged. */
  lemma TrimFixedPoints(s: string)
    ensures TrimSpace(s) == s <==> Trimmed(s)
  {
    TrimIsIdempotent(s);
    if Trimmed(s) {
      TrimKeepsTrimmed(s);
    }
  }

  /** Saving and rehydrating gives back a payment exactly when it is storable. */
  lemma PaymentRoundTrip(p: PaymentRow)
    ensures RehydratePayment(PaymentToColumns(p)) == Ok(p) <==> StorablePayment(p)
  {
    TextsAreTrimmed();
    TrimFixedPoints(p.id);
    TrimFixedPoints(p.billingId);
    TrimFixedPoints(p.invoiceId);
    TrimFixedPoints(p.idempotencyKey);
    TrimFixedPoints(p.gatewayReference);
    var c := PaymentToColumns(p);
    assert DerefString(c.failureCategory) == CategoryText(p.failureCategory);
    assert ParseCategory(CategoryText(p.failureCategory)) == Some(p.failureCategory);
    assert ParsePaymentStatus(c.status) == Some(p.status);
  }

  /** Which columns can be read at all; and what was read can be stored and read again. */
  lemma ReadPayments(c: PaymentColumns)
    ensures var status, category := TrimSpace(c.status), TrimSpace(DerefString(c.failureCategory));
            RehydratePayment(c).Ok? <==>
            && !Blank(c.id) && !Blank(c.billingId) && !Blank(c.invoiceId) && c.attemptNumber > 0
            && !Blank(c.idempotencyKey)
            && (if status == "Failed" then category in {"gateway_declined", "gateway_timeout", "gateway_error"}
                else status in {"Pending", "Approved"} && category == "")
    ensures RehydratePayment(c).Ok? ==> StorablePayment(RehydratePayment(c).value)
  {
    hide TrimSpace;
    TrimStrips(c.id);
    TrimStrips(c.billingId);
    TrimStrips(c.invoiceId);
    TrimStrips(c.idempotencyKey);
    TrimStrips(c.gatewayReference);
  }

  lemma NewPaymentsAreStorable(id: string, billingId: string, invoiceId: string, attempt: int, key: string, now: Time)
    requires NewPayment(id, billingId, invoiceId, attempt, key, now).Ok?
    ensures StorablePayment(NewPayment(id, billingId, invoiceId, attempt, key, now).value)
  {
    TrimIsIdempotent(id);
    TrimIsIdempotent(billingId);
    TrimIsIdempotent(invoiceId);
    TrimIsIdempotent(key);
  }

  /** The partial index on approved payments sees exactly the approved ones, under the text the gateway answers with. */
  lemma IndexSeesApproved(p: PaymentRow)
    ensures PaymentToColumns(p).status == "Approved" <==> p.status == ApprovedPayment
    ensures PaymentStatusText(ApprovedPayment) == "Approved"
  {
  }

  /** The table's CHECK constraints. */
  predicate PaymentChecks(c: PaymentColumns) {
    && c.status in {"Pending", "Approved", "Failed"} && c.attemptNumber > 0
    && (c.failureCategory.Some? ==>
          c.failureCategory.value in {"gateway_declined", "gateway_timeout", "gateway_error"})
  }

  /** A storable payment passes them, and has a failure category exactly if it failed. */
  lemma StorablePaymentsPass(p: PaymentRow)
    requires StorablePayment(p)
    ensures PaymentChecks(PaymentToColumns(p))
    ensures PaymentToColumns(p).failureCategory.Some? <==> PaymentToColumns(p).status == "Failed"
  {
  }

  /** What a payment says of the gateway's reply, in the gateway's words: approved exactly if that is what it answered,
      declined on any other answer, timed out or failed without one; the reference is the answer's, trimmed. */
  predicate RecordsReply(p: PaymentRow, reply: Reply) {
    match reply
    case Answer(status, reference) =>
      && p.gatewayReference == TrimSpace(reference)
      && if status == "Approved" then p.status == ApprovedPayment && p.failureCategory == NoFailure
         else p.status != ApprovedPayment && p.failureCategory == GatewayDeclined
    case DeadlineExceeded =>
      p.gatewayReference == "" && p.status != ApprovedPayment && p.failureCategory == GatewayTimeout
    case OtherError => p.gatewayReference == "" && p.status != ApprovedPayment && p.failureCategory == GatewayError
  }

  lemma RecordedReply(p: PaymentRow, reply: Reply)
    ensures Recorded(p) == OutcomeOf(reply) <==> RecordsReply(p, reply)
  {
  }

  /** What a reply makes of a payment. */
  lemma ReplyDecides(p: PaymentRow, reply: Reply, now: Time)
    ensures var q := SettledAs(p, OutcomeOf(reply), now);
            && RecordsReply(q, reply) && q.status != PendingPayment
            && q == p.(status := q.status, gatewayReference := q.gatewayReference,
                       failureCategory := q.failureCategory, updatedAt := now)
  {
  }

  /** And what the table then says. */
  lemma ColumnsTellReply(p: PaymentRow, reply: Reply, now: Time)
    ensures var c := PaymentToColumns(SettledAs(p, OutcomeOf(reply), now));
            match reply
            case Answer("Approved", _) => c.status == "Approved" && c.failureCategory == None
            case Answer(_, _) => c.status == "Failed" && c.failureCategory == Some("gateway_declined")
            case DeadlineExceeded => c.status == "Failed" && c.failureCategory == Some("gateway_timeout")
            case OtherError => c.status == "Failed" && c.failureCategory == Some("gateway_error")
  {
  }

  /** Whatever the gateway replies, the settled payment is storable again. */
  lemma SettledPaymentsStayStorable(p: PaymentRow, reply: Reply, later: Time)
    requires StorablePayment(p)
    ensures StorablePayment(SettledAs(p, OutcomeOf(reply), later))
  {
    if reply.Answer? {
      TrimIsIdempotent(reply.reference);
    }
  }

  // ---- Billings ----

  datatype BillingColumns = BillingColumns(
    id: string, invoiceId: string, customerId: string, amountCents: int, dueDate: Time,
    status: string, attemptNumber: int, createdAt: Time, updatedAt: Time)

  function BillingStatusText(s: BillingStatus): string {
    match s
    case RequestedBilling => "Requested"
    case FailedBilling => "Failed"
    case ApprovedBilling => "Approved"
  }

  function ParseBillingStatus(s: string): Option<BillingStatus> {
    if s == "Requested" then Some(RequestedBilling)
    else if s == "Failed" then Some(FailedBilling)
    else if s == "Approved" then Some(ApprovedBilling)
    else None
  }

  function BillingToColumns(b: BillingRow): BillingColumns {
    BillingColumns(b.id, b.invoiceId, b.customerId, b.amountCents, b.dueDate, BillingStatusText(b.status),
                   b.attemptNumber, b.createdAt, b.updatedAt)
  }

  function RehydrateBilling(c: BillingColumns): Result<BillingRow, Error> {
    var status := ParseBillingStatus(TrimSpace(c.status));
    var b := BillingRow(TrimSpace(c.id), TrimSpace(c.invoiceId), TrimSpace(c.customerId), c.amountCents,
                        NormalizeDate(c.dueDate), if status.Some? then status.value else RequestedBilling,
                        c.attemptNumber, c.createdAt, c.updatedAt);
    match ValidateBilling(b)
    case Some(e) => Err(e)
    case None => if status.Some? then Ok(b) else Err(InvalidBillingId)
  }

  predicate StorableBilling(b: BillingRow) {
    && ValidateBilling(b).None?
    && Trimmed(b.id) && Trimmed(b.invoiceId) && Trimmed(b.customerId)
    && b.dueDate % DAY == 0
  }

  lemma BillingRoundTrip(b: BillingRow)
    ensures RehydrateBilling(BillingToColumns(b)) == Ok(b) <==> StorableBilling(b)
  {
    TextsAreTrimmed();
    TrimFixedPoints(b.id);
    TrimFixedPoints(b.invoiceId);
    TrimFixedPoints(b.customerId);
    assert ParseBillingStatus(BillingStatusText(b.status)) == Some(b.status);
  }

  lemma ReadBillings(c: BillingColumns)
    ensures RehydrateBilling(c).Ok? <==>
            && !Blank(c.id) && !Blank(c.invoiceId) && !Blank(c.customerId) && c.amountCents > 0
            && !(0 <= c.dueDate < 86400) && c.attemptNumber > 0
            && TrimSpace(c.status) in {"Requested", "Failed", "Approved"}
    ensures RehydrateBilling(c).Ok? ==> StorableBilling(RehydrateBilling(c).value)
  {
    hide TrimSpace;
    TrimStrips(c.id);
    TrimStrips(c.invoiceId);
    TrimStrips(c.customerId);
  }

  predicate BillingChecks(c: BillingColumns) {
    c.status in {"Requested", "Failed", "Approved"} && c.amountCents > 0 && c.attemptNumber > 0
  }

  lemma StorableBillingsPass(b: BillingRow)
    requires StorableBilling(b)
    ensures BillingChecks(BillingToColumns(b))
  {
  }

  lemma BillingsStayStorable(id: string, invoiceId: string, customerId: string, amount: int, due: Time, now: Time)
    requires NewBilling(id, invoiceId, customerId, amount, due, now).Ok?
    ensures StorableBilling(NewBilling(id, invoiceId, customerId, amount, due, now).value)
    ensures forall b, s, t :: StorableBilling(b) ==> StorableBilling(b.As(s, t)) && StorableBilling(b.AsReactivated(t))
  {
    TrimIsIdempotent(id);
    TrimIsIdempotent(invoiceId);
    TrimIsIdempotent(customerId);
  }

  // ---- Invoices ----

  datatype InvoiceColumns = InvoiceColumns(
    id: string, customerId: string, amountCents: int, dueDate: Time, status: string,
    createdAt: Time, updatedAt: Time, paidAt: Option<Time>)

  function InvoiceStatusText(s: InvoiceStatus): string {
    match s
    case PendingInvoice => "Pending"
    case PaidInvoice => "Paid"
    case OverdueInvoice => "Overdue"
    case CancelledInvoice => "Cancelled"
  }

  function ParseInvoiceStatus(s: string): Option<InvoiceStatus> {
    if s == "Pending" then Some(PendingInvoice)
    else if s == "Paid" then Some(PaidInvoice)
    else if s == "Overdue" then Some(OverdueInvoice)
    else if s == "Cancelled" then Some(CancelledInvoice)
    else None
  }

  function InvoiceToColumns(i: InvoiceRow): InvoiceColumns {
    InvoiceColumns(i.id, i.customerId, i.amountCents, i.dueDate, InvoiceStatusText(i.status), i.createdAt, i.updatedAt,
                   i.paidAt)
  }

  function RehydrateInvoice(c: InvoiceColumns): Result<InvoiceRow, Error> {
    var status := ParseInvoiceStatus(TrimSpace(c.status));
    var i := InvoiceRow(TrimSpace(c.id), TrimSpace(c.customerId), c.amountCents, NormalizeDate(c.dueDate),
                        if status.Some? then status.value else PendingInvoice, c.createdAt, c.updatedAt, c.paidAt);
    match ValidateInvoice(i)
    case Some(e) => Err(e)
    case None => if status.Some? then Ok(i) else Err(InvoiceNotPayable)
  }

  predicate StorableInvoice(i: InvoiceRow) {
    && ValidateInvoice(i).None?
    && Trimmed(i.id) && Trimmed(i.customerId)
    && i.dueDate % DAY == 0
  }

  lemma InvoiceRoundTrip(i: InvoiceRow)
    ensures RehydrateInvoice(InvoiceToColumns(i)) == Ok(i) <==> StorableInvoice(i)
  {
    TextsAreTrimmed();
    TrimFixedPoints(i.id);
    TrimFixedPoints(i.customerId);
    assert ParseInvoiceStatus(InvoiceStatusText(i.status)) == Some(i.status);
  }

  lemma ReadInvoices(c: InvoiceColumns)
    ensures RehydrateInvoice(c).Ok? <==>
            && !Blank(c.id) && CanInvoice(c.customerId, c.amountCents, c.dueDate)
            && TrimSpace(c.status) in {"Pending", "Paid", "Overdue", "Cancelled"}
    ensures RehydrateInvoice(c).Ok? ==> StorableInvoice(RehydrateInvoice(c).value)
  {
    hide TrimSpace;
    TrimStrips(c.id);
    TrimStrips(c.customerId);
  }

  predicate InvoiceChecks(c: InvoiceColumns) {
    c.status in {"Pending", "Paid", "Overdue", "Cancelled"} && c.amountCents > 0
  }

  lemma StorableInvoicesPass(i: InvoiceRow)
    requires StorableInvoice(i)
    ensures InvoiceChecks(InvoiceToColumns(i))
  {
  }

  lemma InvoicesStayStorable(id: string, customerId: string, amount: int, due: Time, now: Time)
    requires NewInvoice(id, customerId, amount, due, now).Ok?
    ensures StorableInvoice(NewInvoice(id, customerId, amount, due, now).value)
    ensures forall i, t :: StorableInvoice(i) ==> StorableInvoice(i.AsPaid(t))
  {
    TrimIsIdempotent(id);
    TrimIsIdempotent(customerId);
  }
}
