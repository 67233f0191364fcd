/** The stored state of the three business tables, and what their unique indexes forbid. */
module Tables {
  import opened Wrappers
  import opened Entities
  import opened IdempotencyKey

  /** The business tables, keyed by primary key. */
  datatype Books = Books(
    invoices: map<string, InvoiceRow>,
    billings: map<string, BillingRow>,
    payments: map<string, PaymentRow>)

  const EMPTY_BOOKS := Books(map[], map[], map[])

  predicate HasBilling(t: Books, invoiceId: string) {
    exists b :: b in t.billings && t.billings[b].invoiceId == invoiceId
  }

  predicate HasAttempt(t: Books, billingId: string, attemptNumber: int) {
    exists p :: p in t.payments && t.payments[p].billingId == billingId && t.payments[p].attemptNumber == attemptNumber
  }

  predicate HasApproved(t: Books, invoiceId: string) {
    exists p :: p in t.payments && t.payments[p].invoiceId == invoiceId && t.payments[p].status == ApprovedPayment
  }

  /** The invoice of the payment has another approved payment. */
  predicate ApprovedElsewhere(t: Books, paymentId: string)
    requires paymentId in t.payments
  {
    exists p :: p in t.payments && p != paymentId && t.payments[p].invoiceId == t.payments[paymentId].invoiceId
                && t.payments[p].status == ApprovedPayment
  }

  predicate HasKey(t: Books, key: string) {
    exists p :: p in t.payments && t.payments[p].idempotencyKey == key
  }

  /** Every payment carries the key of its own attempt. */
  ghost predicate KeysMatch(t: Books) {
    forall p :: p in t.payments ==>
                  var r := t.payments[p];
                  r.idempotencyKey == BuildIdempotencyKey(r.billingId, r.attemptNumber)
  }

  /** The billings table refuses a row with a known id or for an already billed invoice. */
  predicate BillingCollides(t: Books, r: BillingRow) {
    r.id in t.billings || HasBilling(t, r.invoiceId)
  }

  /** The payments table has a primary key and three unique indexes: on (billing, attempt), on the
      idempotency key, and, for approved rows only, on the invoice. */
  predicate PaymentCollides(t: Books, r: PaymentRow) {
    || r.id in t.payments
    || HasAttempt(t, r.billingId, r.attemptNumber)
    || HasKey(t, r.idempotencyKey)
    || (r.status == ApprovedPayment && HasApproved(t, r.invoiceId))
  }

  /** What the unique indexes on payments are there for: no two rows for one attempt, none with the same key, and no two
      approved ones of one invoice. */
  predicate PaymentsIndexed(payments: map<string, PaymentRow>) {
    forall p, q :: p in payments && q in payments && p != q ==> !Clash(payments[p], payments[q])
  }

  predicate Clash(r: PaymentRow, s: PaymentRow) {
    || (r.billingId == s.billingId && r.attemptNumber == s.attemptNumber)
    || r.idempotencyKey == s.idempotencyKey
    || (r.status == ApprovedPayment && s.status == ApprovedPayment && r.invoiceId == s.invoiceId)
  }

  /** An insert is refused exactly if its id is taken or the indexes would not hold afterwards. */
  lemma RefusedInserts(t: Books, r: PaymentRow)
    requires PaymentsIndexed(t.payments)
    ensures !PaymentCollides(t, r) <==> r.id !in t.payments && PaymentsIndexed(t.payments[r.id := r])
  {
    var payments := t.payments[r.id := r];
    if r.id !in t.payments {
      if PaymentCollides(t, r) {
        var p :| p in t.payments && Clash(t.payments[p], r);
        assert Clash(payments[p], payments[r.id]);
      } else {
        forall p | p in t.payments ensures !Clash(t.payments[p], r) && !Clash(r, t.payments[p]) {
        }
      }
    }
  }

  /** Settling a pending row is refused exactly if the indexes would not hold afterwards. */
  lemma RefusedUpdates(t: Books, r: PaymentRow)
    requires PaymentsIndexed(t.payments) && r.id in t.payments && t.payments[r.id].status != ApprovedPayment
    ensures r.status == ApprovedPayment && ApprovedElsewhere(t, r.id)
            <==> !PaymentsIndexed(t.payments[r.id := OverwritePayment(t.payments[r.id], r)])
  {
    var s := OverwritePayment(t.payments[r.id], r);
    var payments := t.payments[r.id := s];
    if r.status == ApprovedPayment && ApprovedElsewhere(t, r.id) {
      var p :| p in t.payments && p != r.id && t.payments[p].invoiceId == s.invoiceId
               && t.payments[p].status == ApprovedPayment;
      assert Clash(payments[p], payments[r.id]);
    } else {
      forall p | p in t.payments && p != r.id ensures !Clash(t.payments[p], s) && !Clash(s, t.payments[p]) {
        assert !Clash(t.payments[p], t.payments[r.id]);
      }
    }
  }

  /** A billing is refused exactly if its id is taken or its invoice is billed. */
  predicate BillingsIndexed(billings: map<string, BillingRow>) {
    forall b, c :: b in billings && c in billings && b != c ==> billings[b].invoiceId != billings[c].invoiceId
  }

  lemma RefusedBillings(t: Books, r: BillingRow)
    requires BillingsIndexed(t.billings)
    ensures !BillingCollides(t, r) <==> r.id !in t.billings && BillingsIndexed(t.billings[r.id := r])
  {
    var billings := t.billings[r.id := r];
    if r.id !in t.billings && HasBilling(t, r.invoiceId) {
      var b :| b in t.billings && t.billings[b].invoiceId == r.invoiceId;
      assert billings[b].invoiceId == billings[r.id].invoiceId;
    }
  }

  /** UPDATE invoices SET status, updated_at, paid_at: the other columns keep what the row has. */
  function OverwriteInvoice(current: InvoiceRow, r: InvoiceRow): InvoiceRow {
    current.(status := r.status, updatedAt := r.updatedAt, paidAt := r.paidAt)
  }

  /** UPDATE billings SET status, attempt_number, updated_at. */
  function OverwriteBilling(current: BillingRow, r: BillingRow): BillingRow {
    current.(status := r.status, attemptNumber := r.attemptNumber, updatedAt := r.updatedAt)
  }

  /** UPDATE payments SET status, gateway_reference, failure_category, updated_at. */
  function OverwritePayment(current: PaymentRow, r: PaymentRow): PaymentRow {
    current.(status := r.status, gatewayReference := r.gatewayReference, failureCategory := r.failureCategory,
             updatedAt := r.updatedAt)
  }

  /** The index on (billing, attempt) and the index on the key accept and refuse the same inserts. */
  lemma IndexesAgree(t: Books, billingId: string, attemptNumber: int)
    requires KeysMatch(t)
    ensures HasKey(t, BuildIdempotencyKey(billingId, attemptNumber)) <==> HasAttempt(t, billingId, attemptNumber)
  {
    var key := BuildIdempotencyKey(billingId, attemptNumber);
    if p :| p in t.payments && t.payments[p].idempotencyKey == key {
      KeyInjective(t.payments[p].billingId, t.payments[p].attemptNumber, billingId, attemptNumber);
      assert HasAttempt(t, billingId, attemptNumber);
    }
    if p :| p in t.payments && t.payments[p].billingId == billingId && t.payments[p].attemptNumber == attemptNumber {
      assert t.payments[p].idempotencyKey == key;
    }
  }
}
