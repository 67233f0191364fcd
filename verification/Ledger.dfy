/** What the settlement protocol keeps in its tables, and the commits that can change them.

Every transaction of the running system, whatever it does meanwhile, ends in nothing or in one `Commit`. */
module Ledger {
  import opened Wrappers
  import opened Text
  import opened Entities
  import opened Storage
  import opened IdempotencyKey
  import opened Tables

  // ---- The invariant ----

  /** How many attempts of a billing have been settled. */
  function SettledCount(b: BillingRow): int {
    if b.status == RequestedBilling then b.attemptNumber - 1 else b.attemptNumber
  }

  function StatusOfAttempt(b: BillingRow, attemptNumber: int): PaymentStatus {
    if b.status == ApprovedBilling && attemptNumber == b.attemptNumber then ApprovedPayment else FailedPayment
  }

  /** Every row reads back as it was written, sits under its own id, and a payment carries its attempt's key. */
  ghost predicate RowsKept(t: Books) {
    && (forall i :: i in t.invoices ==> t.invoices[i].id == i && StorableInvoice(t.invoices[i]))
    && (forall b :: b in t.billings ==> t.billings[b].id == b && StorableBilling(t.billings[b]))
    && (forall p :: p in t.payments ==> t.payments[p].id == p && StorablePayment(t.payments[p]))
    && KeysMatch(t)
  }

  ghost predicate InvoicesKept(t: Books) {
    forall i :: i in t.invoices ==>
                  var r := t.invoices[i];
                  && (r.status == PendingInvoice || r.status == PaidInvoice)
                  && (r.status == PaidInvoice ==> HasBilling(t, i))
                  && (r.paidAt.Some? <==> r.status == PaidInvoice)
  }

  /** A billing copies its invoice, and is approved exactly when the invoice is paid. */
  ghost predicate BillingsKept(t: Books) {
    forall b :: b in t.billings ==>
                  var r := t.billings[b];
                  && r.invoiceId in t.invoices
                  && var i := t.invoices[r.invoiceId];
                     && 1 <= r.attemptNumber
                     && r.customerId == i.customerId && r.amountCents == i.amountCents && r.dueDate == i.dueDate
                     && (r.status == ApprovedBilling <==> i.status == PaidInvoice)
  }

  ghost predicate OneBillingPerInvoice(t: Books) {
    forall b, c :: b in t.billings && c in t.billings && t.billings[b].invoiceId == t.billings[c].invoiceId ==> b == c
  }

  /** A stored payment is settled, belongs to a settled attempt of its billing, and has the status that attempt must
      have. */
  ghost predicate PaymentsKept(t: Books) {
    forall p :: p in t.payments ==> PaymentKept(t, t.payments[p])
  }

  predicate PaymentKept(t: Books, r: PaymentRow) {
    && r.billingId in t.billings
    && var b := t.billings[r.billingId];
       && r.invoiceId == b.invoiceId
       && 1 <= r.attemptNumber <= SettledCount(b)
       && r.status == StatusOfAttempt(b, r.attemptNumber)
  }

  ghost predicate OnePaymentPerAttempt(t: Books) {
    forall p, q ::
      (&& p in t.payments && q in t.payments
       && t.payments[p].billingId == t.payments[q].billingId
       && t.payments[p].attemptNumber == t.payments[q].attemptNumber) ==> p == q
  }

  ghost predicate GapFree(t: Books) {
    forall b, n :: b in t.billings && 1 <= n <= SettledCount(t.billings[b]) ==> HasAttempt(t, b, n)
  }

  /** What happens because of a row happens at the row's time, or, if that is the zero instant, at some other. */
  predicate OccursAt(rowTime: Time, at: Time) {
    rowTime != ZERO_TIME ==> at == rowTime
  }

  /** An invoice is paid at the time its payment was approved. */
  ghost predicate PaidOnTime(t: Books) {
    forall p :: p in t.payments && t.payments[p].status == ApprovedPayment ==> PaidWhenApproved(t, t.payments[p])
  }

  predicate PaidWhenApproved(t: Books, r: PaymentRow) {
    && r.invoiceId in t.invoices
    && t.invoices[r.invoiceId].paidAt.Some? && OccursAt(r.updatedAt, t.invoices[r.invoiceId].paidAt.value)
  }

  ghost predicate LedgerInv(t: Books) {
    && InvoicesKept(t) && BillingsKept(t) && OneBillingPerInvoice(t)
    && PaymentsKept(t) && OnePaymentPerAttempt(t) && GapFree(t) && PaidOnTime(t)
  }

  ghost predicate Inv(t: Books) {
    LedgerInv(t) && RowsKept(t)
  }

  // ---- What requests hand on to each other ----

  /** The payload of InvoiceCreated. */
  datatype Announcement = Announcement(invoiceId: string, customerId: string, amountCents: int, dueDate: Time)

  function AnnouncementFor(r: InvoiceRow): Announcement {
    Announcement(r.id, r.customerId, r.amountCents, r.dueDate)
  }

  ghost predicate AnnouncementOk(t: Books, a: Announcement) {
    && a.invoiceId in t.invoices
    && var r := t.invoices[a.invoiceId];
       r.customerId == a.customerId && r.amountCents == a.amountCents && r.dueDate == a.dueDate
  }

  /** The payload of BillingRequested, which a retry hands on directly. */
  datatype ChargeInput = ChargeInput(
    billingId: string, invoiceId: string, customerId: string, amountCents: int, dueDate: Time, attemptNumber: int)

  function InputFor(b: BillingRow): ChargeInput {
    ChargeInput(b.id, b.invoiceId, b.customerId, b.amountCents, b.dueDate, b.attemptNumber)
  }

  /** An input describes its billing, and asks for a settled attempt or for the one the billing waits for. No third
      case. */
  ghost predicate InputOk(t: Books, c: ChargeInput) {
    && c.billingId in t.billings && 1 <= c.attemptNumber
    && var b := t.billings[c.billingId];
       && c.invoiceId == b.invoiceId && c.customerId == b.customerId
       && c.amountCents == b.amountCents && c.dueDate == b.dueDate
       && (HasAttempt(t, c.billingId, c.attemptNumber)
           || (b.status == RequestedBilling && b.attemptNumber == c.attemptNumber))
  }

  // ---- The commits ----

  datatype Commit =
    | SaveNewInvoice(invoice: InvoiceRow)
    | SaveNewBilling(billing: BillingRow)
    | Reactivate(billingId: string, now: Time)
      /** Payment, billing and, for an approval, invoice: all settled together. */
    | Settle(payment: PaymentRow, billedAt: Time, paidAt: Time)

  function BillingStatusAfter(p: PaymentRow): BillingStatus {
    if p.status == ApprovedPayment then ApprovedBilling else FailedBilling
  }

  ghost predicate Enabled(t: Books, c: Commit) {
    match c
    case SaveNewInvoice(r) =>
      r.id !in t.invoices && r.status == PendingInvoice && r.paidAt.None?
    case SaveNewBilling(r) =>
      && !BillingCollides(t, r) && r.invoiceId in t.invoices
      && r.status == RequestedBilling && r.attemptNumber == 1
      && var i := t.invoices[r.invoiceId];
         r.customerId == i.customerId && r.amountCents == i.amountCents && r.dueDate == i.dueDate
    case Reactivate(b, _) =>
      b in t.billings && t.billings[b].status != ApprovedBilling
    case Settle(p, _, paidAt) =>
      && p.id !in t.payments && p.status != PendingPayment
      && (p.status == ApprovedPayment ==> OccursAt(p.updatedAt, paidAt))
      && p.billingId in t.billings
      && var b := t.billings[p.billingId];
         b.status == RequestedBilling && b.attemptNumber == p.attemptNumber
         && b.invoiceId == p.invoiceId && b.invoiceId in t.invoices
  }

  /** The rows a commit brings in are themselves in order. */
  ghost predicate BringsStorableRows(c: Commit) {
    match c
    case SaveNewInvoice(r) => StorableInvoice(r)
    case SaveNewBilling(r) => StorableBilling(r)
    case Reactivate(_, _) => true
    case Settle(p, _, _) => StorablePayment(p) && p.idempotencyKey == BuildIdempotencyKey(p.billingId, p.attemptNumber)
  }

  ghost function Apply(t: Books, c: Commit): Books
    requires Enabled(t, c)
  {
    match c
    case SaveNewInvoice(r) => t.(invoices := t.invoices[r.id := r])
    case SaveNewBilling(r) => t.(billings := t.billings[r.id := r])
    case Reactivate(b, now) => t.(billings := t.billings[b := t.billings[b].AsReactivated(now)])
    case Settle(p, billedAt, paidAt) =>
      t.(payments := t.payments[p.id := p],
         billings := t.billings[p.billingId := t.billings[p.billingId].As(BillingStatusAfter(p), billedAt)],
         invoices := if p.status != ApprovedPayment then t.invoices
                     else t.invoices[p.invoiceId := t.invoices[p.invoiceId].AsPaid(paidAt)])
  }

  lemma StartsKept()
    ensures Inv(EMPTY_BOOKS)
  {
    assert forall p :: p !in EMPTY_BOOKS.payments;
    assert KeysMatch(EMPTY_BOOKS);
  }

  // ---- Each commit keeps the invariant ----

  lemma InvoiceCommitKeeps(t: Books, r: InvoiceRow)
    requires LedgerInv(t) && Enabled(t, SaveNewInvoice(r))
    ensures LedgerInv(Apply(t, SaveNewInvoice(r)))
  {
    var u := Apply(t, SaveNewInvoice(r));
    NewInvoiceKeepsModules(t, r);
    NewInvoiceKeepsPayments(t, r);
    assert OneBillingPerInvoice(u) by {
      hide InvoicesKept, BillingsKept, PaymentsKept, OnePaymentPerAttempt, GapFree, PaidOnTime;
    }
    hide InvoicesKept, BillingsKept, OneBillingPerInvoice, PaymentsKept, OnePaymentPerAttempt, GapFree, PaidOnTime,
         Apply, Enabled;
  }

  lemma NewInvoiceKeepsModules(t: Books, r: InvoiceRow)
    requires LedgerInv(t) && Enabled(t, SaveNewInvoice(r))
    ensures var u := Apply(t, SaveNewInvoice(r)); InvoicesKept(u) && BillingsKept(u)
  {
    hide OneBillingPerInvoice, PaymentsKept, OnePaymentPerAttempt, GapFree, PaidOnTime;
    var u := Apply(t, SaveNewInvoice(r));
    assert forall i :: HasBilling(t, i) ==> HasBilling(u, i);
  }

  lemma NewInvoiceKeepsPayments(t: Books, r: InvoiceRow)
    requires LedgerInv(t) && Enabled(t, SaveNewInvoice(r))
    ensures var u := Apply(t, SaveNewInvoice(r));
            PaymentsKept(u) && OnePaymentPerAttempt(u) && GapFree(u) && PaidOnTime(u)
  {
    hide InvoicesKept, BillingsKept, OneBillingPerInvoice;
    var u := Apply(t, SaveNewInvoice(r));
    assert forall b, n :: HasAttempt(t, b, n) ==> HasAttempt(u, b, n);
  }

  lemma BillingCommitKeeps(t: Books, r: BillingRow)
    requires LedgerInv(t) && Enabled(t, SaveNewBilling(r))
    ensures LedgerInv(Apply(t, SaveNewBilling(r)))
  {
    var u := Apply(t, SaveNewBilling(r));
    NewBillingKeepsModules(t, r);
    NewBillingKeepsPayments(t, r);
    assert OneBillingPerInvoice(u) by {
      hide InvoicesKept, BillingsKept, PaymentsKept, OnePaymentPerAttempt, GapFree, HasAttempt;
    }
    hide InvoicesKept, BillingsKept, OneBillingPerInvoice, PaymentsKept, OnePaymentPerAttempt, GapFree, PaidOnTime,
         Apply, Enabled;
  }

  lemma NewBillingKeepsModules(t: Books, r: BillingRow)
    requires LedgerInv(t) && Enabled(t, SaveNewBilling(r))
    ensures var u := Apply(t, SaveNewBilling(r)); InvoicesKept(u) && BillingsKept(u)
  {
    hide PaymentsKept, OnePaymentPerAttempt, GapFree, HasAttempt, OneBillingPerInvoice;
    BillingUpdateKeepsLookups(t, Apply(t, SaveNewBilling(r)), r.id, r);
    assert t.invoices[r.invoiceId].status != PaidInvoice;
  }

  lemma NewBillingKeepsPayments(t: Books, r: BillingRow)
    requires LedgerInv(t) && Enabled(t, SaveNewBilling(r))
    ensures var u := Apply(t, SaveNewBilling(r));
            PaymentsKept(u) && OnePaymentPerAttempt(u) && GapFree(u) && PaidOnTime(u)
  {
    hide InvoicesKept, BillingsKept, OneBillingPerInvoice;
    var u := Apply(t, SaveNewBilling(r));
    assert forall b, n :: HasAttempt(t, b, n) ==> HasAttempt(u, b, n);
    hide HasAttempt;
    GapFreeCarriesOver(t, u);
  }

  /** Writing a billing row under its own invoice loses no billing of any invoice. */
  lemma BillingUpdateKeepsLookups(t: Books, u: Books, b: string, r: BillingRow)
    requires u.billings == t.billings[b := r]
    requires b in t.billings ==> t.billings[b].invoiceId == r.invoiceId
    ensures forall i :: HasBilling(u, i) <==> HasBilling(t, i) || i == r.invoiceId
  {
    forall i ensures HasBilling(u, i) <==> HasBilling(t, i) || i == r.invoiceId {
      if i == r.invoiceId {
        assert u.billings[b].invoiceId == i;
      }
      if c :| c in t.billings && t.billings[c].invoiceId == i {
        assert u.billings[c].invoiceId == i;
      }
    }
  }

  /** Gaps appear only where a settled count grows without its attempt. */
  lemma GapFreeCarriesOver(t: Books, u: Books)
    requires GapFree(t)
    requires forall b, n :: HasAttempt(t, b, n) ==> HasAttempt(u, b, n)
    requires forall b, n :: b in u.billings && 1 <= n <= SettledCount(u.billings[b]) ==>
                              (b in t.billings && n <= SettledCount(t.billings[b])) || HasAttempt(u, b, n)
    ensures GapFree(u)
  {
    forall b, n | b in u.billings && 1 <= n <= SettledCount(u.billings[b]) ensures HasAttempt(u, b, n) {
      if b in t.billings && n <= SettledCount(t.billings[b]) {
        assert HasAttempt(t, b, n);
      }
    }
  }

  lemma ReactivationKeeps(t: Books, b: string, now: Time)
    requires LedgerInv(t) && Enabled(t, Reactivate(b, now))
    ensures LedgerInv(Apply(t, Reactivate(b, now)))
  {
    var u := Apply(t, Reactivate(b, now));
    ReactivationKeepsModules(t, b, now);
    ReactivationKeepsPayments(t, b, now);
    OneBillingStays(t, u);
    hide InvoicesKept, BillingsKept, OneBillingPerInvoice, PaymentsKept, OnePaymentPerAttempt, GapFree, PaidOnTime,
         Apply, Enabled;
  }

  lemma ReactivationKeepsModules(t: Books, b: string, now: Time)
    requires LedgerInv(t) && Enabled(t, Reactivate(b, now))
    ensures var u := Apply(t, Reactivate(b, now)); InvoicesKept(u) && BillingsKept(u)
  {
    hide PaymentsKept, OnePaymentPerAttempt, GapFree, HasAttempt, OneBillingPerInvoice;
    var u := Apply(t, Reactivate(b, now));
    BillingUpdateKeepsLookups(t, u, b, u.billings[b]);
  }

  lemma ReactivationKeepsPayments(t: Books, b: string, now: Time)
    requires LedgerInv(t) && Enabled(t, Reactivate(b, now))
    ensures var u := Apply(t, Reactivate(b, now));
            PaymentsKept(u) && OnePaymentPerAttempt(u) && GapFree(u) && PaidOnTime(u)
  {
    hide InvoicesKept, BillingsKept, OneBillingPerInvoice;
    var u := Apply(t, Reactivate(b, now));
    assert SettledCount(u.billings[b]) == SettledCount(t.billings[b]);
    assert forall c, n :: HasAttempt(t, c, n) ==> HasAttempt(u, c, n);
    hide HasAttempt;
    GapFreeCarriesOver(t, u);
  }

  /** Adding a payment adds its attempt and nothing else. */
  lemma PaymentAddsAttempt(t: Books, u: Books, p: PaymentRow)
    requires p.id !in t.payments && u.payments == t.payments[p.id := p]
    ensures forall b, n :: HasAttempt(u, b, n) <==> HasAttempt(t, b, n) || (b == p.billingId && n == p.attemptNumber)
  {
    forall b, n ensures HasAttempt(u, b, n) <==> HasAttempt(t, b, n) || (b == p.billingId && n == p.attemptNumber) {
      if b == p.billingId && n == p.attemptNumber {
        assert u.payments[p.id] == p;
      }
      if q :| q in t.payments && t.payments[q].billingId == b && t.payments[q].attemptNumber == n {
        assert u.payments[q] == t.payments[q];
      }
    }
  }

  lemma SettlementFillsGap(t: Books, p: PaymentRow, billedAt: Time, paidAt: Time)
    requires LedgerInv(t) && Enabled(t, Settle(p, billedAt, paidAt))
    ensures GapFree(Apply(t, Settle(p, billedAt, paidAt)))
  {
    hide InvoicesKept, BillingsKept, OneBillingPerInvoice, PaymentsKept, OnePaymentPerAttempt, HasAttempt;
    var u := Apply(t, Settle(p, billedAt, paidAt));
    PaymentAddsAttempt(t, u, p);
    assert SettledCount(t.billings[p.billingId]) == p.attemptNumber - 1
           && SettledCount(u.billings[p.billingId]) == p.attemptNumber;
    GapFreeCarriesOver(t, u);
  }

  lemma NewAttemptIsUnique(t: Books, u: Books, p: PaymentRow)
    requires OnePaymentPerAttempt(t) && u.payments == t.payments[p.id := p]
    requires forall q :: q in t.payments && t.payments[q].billingId == p.billingId ==>
                           t.payments[q].attemptNumber < p.attemptNumber
    ensures OnePaymentPerAttempt(u)
  {
  }

  lemma SettlementComesLast(t: Books, p: PaymentRow, billedAt: Time, paidAt: Time)
    requires LedgerInv(t) && Enabled(t, Settle(p, billedAt, paidAt))
    ensures 1 <= p.attemptNumber
    ensures forall q :: q in t.payments && t.payments[q].billingId == p.billingId ==>
                          t.payments[q].attemptNumber < p.attemptNumber
  {
    hide InvoicesKept, OneBillingPerInvoice, OnePaymentPerAttempt, GapFree;
  }

  lemma SettlementKeepsPayments(t: Books, p: PaymentRow, billedAt: Time, paidAt: Time)
    requires LedgerInv(t) && Enabled(t, Settle(p, billedAt, paidAt))
    ensures var u := Apply(t, Settle(p, billedAt, paidAt)); PaymentsKept(u) && OnePaymentPerAttempt(u)
  {
    var u := Apply(t, Settle(p, billedAt, paidAt));
    SettlementComesLast(t, p, billedAt, paidAt);
    NewAttemptIsUnique(t, u, p);
    hide InvoicesKept, BillingsKept, OneBillingPerInvoice, GapFree, HasAttempt, OnePaymentPerAttempt;
    forall q | q in u.payments ensures PaymentKept(u, u.payments[q]) {
      if q != p.id {
        assert PaymentKept(t, t.payments[q]);
      }
    }
  }

  lemma SettlementPaysOnTime(t: Books, p: PaymentRow, billedAt: Time, paidAt: Time)
    requires LedgerInv(t) && Enabled(t, Settle(p, billedAt, paidAt))
    ensures PaidOnTime(Apply(t, Settle(p, billedAt, paidAt)))
  {
    hide OneBillingPerInvoice, OnePaymentPerAttempt, GapFree, HasBilling, HasAttempt;
    var u := Apply(t, Settle(p, billedAt, paidAt));
    assert t.invoices[p.invoiceId].status != PaidInvoice;
    forall q | q in u.payments && u.payments[q].status == ApprovedPayment ensures PaidWhenApproved(u, u.payments[q]) {
      if q != p.id {
        assert PaidWhenApproved(t, t.payments[q]);
      }
    }
  }

  lemma SettlementKeepsInvoices(t: Books, p: PaymentRow, billedAt: Time, paidAt: Time)
    requires LedgerInv(t) && Enabled(t, Settle(p, billedAt, paidAt))
    ensures InvoicesKept(Apply(t, Settle(p, billedAt, paidAt)))
  {
    var u := Apply(t, Settle(p, billedAt, paidAt));
    BillingUpdateKeepsLookups(t, u, p.billingId, u.billings[p.billingId]);
    hide PaymentsKept, OnePaymentPerAttempt, GapFree, HasBilling;
  }

  lemma OneBillingStays(t: Books, u: Books)
    requires OneBillingPerInvoice(t) && u.billings.Keys == t.billings.Keys
    requires forall c :: c in t.billings ==> u.billings[c].invoiceId == t.billings[c].invoiceId
    ensures OneBillingPerInvoice(u)
  {
  }

  lemma SettlementKeepsBillings(t: Books, p: PaymentRow, billedAt: Time, paidAt: Time)
    requires LedgerInv(t) && Enabled(t, Settle(p, billedAt, paidAt))
    ensures var u := Apply(t, Settle(p, billedAt, paidAt)); BillingsKept(u) && OneBillingPerInvoice(u)
  {
    hide InvoicesKept, PaymentsKept, OnePaymentPerAttempt, GapFree, HasBilling, HasAttempt;
    var u := Apply(t, Settle(p, billedAt, paidAt));
    var b := p.billingId;
    OneBillingStays(t, u);
    assert u.billings[b].invoiceId == t.billings[b].invoiceId == p.invoiceId;
    assert forall c :: c in t.billings && c != b ==>
                         u.billings[c] == t.billings[c] && t.billings[c].invoiceId != p.invoiceId;
    hide OneBillingPerInvoice;
    assert BillingsKept(u);
  }

  lemma SettlementKeeps(t: Books, p: PaymentRow, billedAt: Time, paidAt: Time)
    requires LedgerInv(t) && Enabled(t, Settle(p, billedAt, paidAt))
    ensures LedgerInv(Apply(t, Settle(p, billedAt, paidAt)))
  {
    SettlementKeepsPayments(t, p, billedAt, paidAt);
    SettlementFillsGap(t, p, billedAt, paidAt);
    SettlementKeepsInvoices(t, p, billedAt, paidAt);
    SettlementKeepsBillings(t, p, billedAt, paidAt);
    SettlementPaysOnTime(t, p, billedAt, paidAt);
    hide InvoicesKept, BillingsKept, OneBillingPerInvoice, PaymentsKept, OnePaymentPerAttempt, GapFree, PaidOnTime,
         Apply, Enabled;
  }

  lemma CommitKeepsPaymentRows(t: Books, c: Commit)
    requires RowsKept(t) && Enabled(t, c) && BringsStorableRows(c)
    ensures var u := Apply(t, c);
            (forall p :: p in u.payments ==> u.payments[p].id == p && StorablePayment(u.payments[p])) && KeysMatch(u)
  {
    hide StorablePayment, StorableBilling, StorableInvoice, BuildIdempotencyKey;
    var u := Apply(t, c);
    forall p | p in u.payments
      ensures u.payments[p].id == p && StorablePayment(u.payments[p])
      ensures u.payments[p].idempotencyKey == BuildIdempotencyKey(u.payments[p].billingId, u.payments[p].attemptNumber)
    {
      assert u.payments[p] == if c.Settle? && p == c.payment.id then c.payment else t.payments[p];
    }
  }

  lemma CommitKeepsBillingRows(t: Books, c: Commit)
    requires RowsKept(t) && Enabled(t, c) && BringsStorableRows(c)
    ensures var u := Apply(t, c);
            forall b :: b in u.billings ==> u.billings[b].id == b && StorableBilling(u.billings[b])
  {
    hide StorablePayment, StorableInvoice, BuildIdempotencyKey, KeysMatch;
  }

  lemma CommitKeepsInvoiceRows(t: Books, c: Commit)
    requires RowsKept(t) && Enabled(t, c) && BringsStorableRows(c)
    ensures var u := Apply(t, c);
            forall i :: i in u.invoices ==> u.invoices[i].id == i && StorableInvoice(u.invoices[i])
  {
    hide StorablePayment, StorableBilling, BuildIdempotencyKey, KeysMatch;
  }

  lemma CommitKeepsRows(t: Books, c: Commit)
    requires RowsKept(t) && Enabled(t, c) && BringsStorableRows(c)
    ensures RowsKept(Apply(t, c))
  {
    CommitKeepsPaymentRows(t, c);
    CommitKeepsBillingRows(t, c);
    CommitKeepsInvoiceRows(t, c);
    hide StorablePayment, StorableBilling, StorableInvoice, BuildIdempotencyKey, Apply, Enabled, BringsStorableRows,
         KeysMatch;
  }

  /** The invariant survives every commit. */
  lemma CommitKeeps(t: Books, c: Commit)
    requires LedgerInv(t) && Enabled(t, c)
    ensures LedgerInv(Apply(t, c))
  {
    match c
    case SaveNewInvoice(r) => InvoiceCommitKeeps(t, r);
    case SaveNewBilling(r) => BillingCommitKeeps(t, r);
    case Reactivate(b, now) => ReactivationKeeps(t, b, now);
    case Settle(p, billedAt, paidAt) => SettlementKeeps(t, p, billedAt, paidAt);
  }

  // ---- What no commit undoes ----

  /** Nothing is deleted; settled payments are final; attempt numbers never decrease; approval and payment are final;
      amounts, customers and dates never change. */
  ghost predicate OnlyForward(t: Books, u: Books) {
    && (forall i :: i in t.invoices ==> i in u.invoices && InvoiceForward(t.invoices[i], u.invoices[i]))
    && (forall b :: b in t.billings ==> b in u.billings && BillingForward(t.billings[b], u.billings[b]))
    && (forall p :: p in t.payments ==> p in u.payments && u.payments[p] == t.payments[p])
  }

  predicate InvoiceForward(r: InvoiceRow, s: InvoiceRow) {
    && s == r.(status := s.status, updatedAt := s.updatedAt, paidAt := s.paidAt)
    && (r.status == PaidInvoice ==> s == r)
  }

  predicate BillingForward(r: BillingRow, s: BillingRow) {
    && s == r.(status := s.status, attemptNumber := s.attemptNumber, updatedAt := s.updatedAt)
    && r.attemptNumber <= s.attemptNumber && SettledCount(r) <= SettledCount(s)
    && (r.status == ApprovedBilling ==> s == r)
  }

  lemma SettlementGoesForward(t: Books, p: PaymentRow, billedAt: Time, paidAt: Time)
    requires LedgerInv(t) && Enabled(t, Settle(p, billedAt, paidAt))
    ensures OnlyForward(t, Apply(t, Settle(p, billedAt, paidAt)))
  {
    hide PaymentsKept, OnePaymentPerAttempt, GapFree, OneBillingPerInvoice, PaidOnTime;
    assert t.invoices[p.invoiceId].status != PaidInvoice;
    hide LedgerInv, HasBilling, HasAttempt;
  }

  lemma CommitGoesForward(t: Books, c: Commit)
    requires LedgerInv(t) && Enabled(t, c)
    ensures OnlyForward(t, Apply(t, c))
  {
    if c.Settle? {
      SettlementGoesForward(t, c.payment, c.billedAt, c.paidAt);
    } else {
      hide LedgerInv, HasBilling, RowsKept;
      var u := Apply(t, c);
      assert forall b :: b in t.billings ==> b in u.billings && BillingForward(t.billings[b], u.billings[b]);
    }
  }

  // ---- What the single functions do not keep ----

  /** Marking a billing failed is a step forward exactly if it was not approved: nothing in the function says so. */
  lemma MarkingFailedGoesForward(r: BillingRow, now: Time)
    ensures BillingForward(r, r.As(FailedBilling, now)) <==> r.status != ApprovedBilling
  {
  }

  /** Settling a row that was read earlier and writing it back is a step forward exactly if nobody has moved on to
      another attempt since, and an approval made since is written again as it stands. */
  lemma StaleWriteGoesForward(seen: BillingRow, current: BillingRow, status: BillingStatus, now: Time)
    requires BillingForward(seen, current) && status != RequestedBilling
    ensures BillingForward(current, OverwriteBilling(current, seen.As(status, now)))
            <==> && seen.attemptNumber == current.attemptNumber
                 && (current.status == ApprovedBilling ==>
                       && status == ApprovedBilling
                       && current.updatedAt == if seen.status == ApprovedBilling then seen.updatedAt else now)
  {
  }

  /** An approved billing that `MarkFailed` turns into a failed one. */
  lemma MarkFailedLeavesApproval()
    ensures var r := BillingRow("b", "i", "c", 1, DAY, ApprovedBilling, 1, 1, 1);
            StorableBilling(r) && r.As(FailedBilling, 2).status == FailedBilling
  {
  }

  /** A stale row whose write lowers the attempt number: read at attempt 1, written after a retry asked for attempt
      2. */
  lemma StaleWriteLowersAttempt()
    ensures var seen := BillingRow("b", "i", "c", 1, DAY, RequestedBilling, 1, 1, 1);
            var current := seen.As(FailedBilling, 2).AsReactivated(3);
            && current.attemptNumber == 2
            && OverwriteBilling(current, seen.As(FailedBilling, 4)).attemptNumber == 1
  {
  }

  /** A stale row whose write undoes an approval: read before the approval, written as failed after it. */
  lemma StaleWriteUndoesApproval()
    ensures var seen := BillingRow("b", "i", "c", 1, DAY, RequestedBilling, 1, 1, 1);
            var current := seen.As(ApprovedBilling, 2);
            && current.status == ApprovedBilling && current.attemptNumber == seen.attemptNumber
            && OverwriteBilling(current, seen.As(FailedBilling, 3)).status == FailedBilling
  {
  }

  lemma ForwardTransitive(t: Books, u: Books, v: Books)
    requires OnlyForward(t, u) && OnlyForward(u, v)
    ensures OnlyForward(t, v)
  {
    forall i | i in t.invoices ensures i in v.invoices && InvoiceForward(t.invoices[i], v.invoices[i]) {
      assert InvoiceForward(t.invoices[i], u.invoices[i]) && InvoiceForward(u.invoices[i], v.invoices[i]);
    }
    forall b | b in t.billings ensures b in v.billings && BillingForward(t.billings[b], v.billings[b]) {
      assert BillingForward(t.billings[b], u.billings[b]) && BillingForward(u.billings[b], v.billings[b]);
    }
  }

  /** An attempt once settled stays settled. */
  lemma AttemptsStay(t: Books, u: Books, b: string, n: int)
    requires OnlyForward(t, u) && HasAttempt(t, b, n)
    ensures HasAttempt(u, b, n)
  {
    var p :| p in t.payments && t.payments[p].billingId == b && t.payments[p].attemptNumber == n;
    assert u.payments[p] == t.payments[p];
  }

  // ---- What the invariant means ----

  /** What a reader of the three tables can rely on: a billing copies its invoice; its attempts 1 up to the current one
      are stored, the current one not while it is requested; all but the last failed, and the last was approved exactly
      if the billing is; an invoice is paid exactly if one of its payments is approved, and since that payment was. */
  ghost predicate Consistent(t: Books) {
    && (forall b :: b in t.billings ==> Copies(t, t.billings[b]))
    && (forall b, n :: b in t.billings ==> (HasAttempt(t, b, n) <==> 1 <= n <= LastAttempt(t.billings[b])))
    && (forall p :: p in t.payments ==> Belongs(t, t.payments[p]))
    && (forall i :: i in t.invoices ==>
                      && (t.invoices[i].status == PaidInvoice <==> HasApproved(t, i))
                      && (t.invoices[i].status == PaidInvoice <==> t.invoices[i].paidAt.Some?))
  }

  predicate Copies(t: Books, b: BillingRow) {
    && b.invoiceId in t.invoices
    && var i := t.invoices[b.invoiceId];
       b.customerId == i.customerId && b.amountCents == i.amountCents && b.dueDate == i.dueDate
  }

  function LastAttempt(b: BillingRow): int {
    match b.status
    case RequestedBilling => b.attemptNumber - 1
    case FailedBilling => b.attemptNumber
    case ApprovedBilling => b.attemptNumber
  }

  predicate Belongs(t: Books, p: PaymentRow) {
    && p.billingId in t.billings && p.invoiceId in t.invoices
    && var b := t.billings[p.billingId];
       && p.invoiceId == b.invoiceId && p.status != PendingPayment
       && (p.status == ApprovedPayment <==> b.status == ApprovedBilling && p.attemptNumber == b.attemptNumber)
       && (p.status == ApprovedPayment && p.updatedAt != ZERO_TIME ==>
             t.invoices[p.invoiceId].paidAt == Some(p.updatedAt))
  }

  lemma KeptIsConsistent(t: Books)
    requires LedgerInv(t)
    ensures Consistent(t)
  {
    forall b, n | b in t.billings ensures HasAttempt(t, b, n) <==> 1 <= n <= LastAttempt(t.billings[b]) {
      AttemptIffSettled(t, b, n);
    }
    forall i | i in t.invoices ensures t.invoices[i].status == PaidInvoice <==> HasApproved(t, i) {
      ModulesAgree(t, i);
    }
    forall p | p in t.payments ensures Belongs(t, t.payments[p]) {
      KeptBelongs(t, p);
    }
    hide HasAttempt, HasApproved, HasBilling, OnePaymentPerAttempt, OneBillingPerInvoice, GapFree, PaymentsKept,
         PaidOnTime;
  }

  lemma KeptBelongs(t: Books, p: string)
    requires LedgerInv(t) && p in t.payments
    ensures Belongs(t, t.payments[p])
  {
    hide HasAttempt, HasBilling, OnePaymentPerAttempt, OneBillingPerInvoice, GapFree, InvoicesKept;
    assert PaymentKept(t, t.payments[p]);
    if t.payments[p].status == ApprovedPayment {
      assert PaidWhenApproved(t, t.payments[p]);
    }
  }

  /** In a kept ledger an attempt is settled exactly when the billing has got past it. */
  lemma AttemptIffSettled(t: Books, b: string, n: int)
    requires LedgerInv(t) && b in t.billings
    ensures HasAttempt(t, b, n) <==> 1 <= n <= SettledCount(t.billings[b])
  {
  }

  /** The three modules agree: an invoice is paid exactly when a billing of it is approved, and exactly when
      a payment of it is approved. */
  lemma ModulesAgree(t: Books, i: string)
    requires LedgerInv(t) && i in t.invoices
    ensures t.invoices[i].status == PaidInvoice
            <==> exists b :: b in t.billings && t.billings[b].invoiceId == i && t.billings[b].status == ApprovedBilling
    ensures t.invoices[i].status == PaidInvoice <==> HasApproved(t, i)
  {
    if t.invoices[i].status == PaidInvoice {
      var b :| b in t.billings && t.billings[b].invoiceId == i;
      assert t.billings[b].status == ApprovedBilling;
      assert HasAttempt(t, b, t.billings[b].attemptNumber);
      var p :| p in t.payments && t.payments[p].billingId == b
               && t.payments[p].attemptNumber == t.billings[b].attemptNumber;
      assert t.payments[p].invoiceId == i && t.payments[p].status == ApprovedPayment;
    }
    if p :| p in t.payments && t.payments[p].invoiceId == i && t.payments[p].status == ApprovedPayment {
      assert t.billings[t.payments[p].billingId].status == ApprovedBilling;
    }
  }

  /** An invoice has at most one approved payment, and it is the current attempt of its approved billing. */
  lemma ApprovedPaymentIsUnique(t: Books, p: string, q: string)
    requires LedgerInv(t) && p in t.payments && q in t.payments
    requires t.payments[p].status == t.payments[q].status == ApprovedPayment
    requires t.payments[p].invoiceId == t.payments[q].invoiceId
    ensures p == q
    ensures t.payments[p].billingId in t.billings
    ensures var b := t.billings[t.payments[p].billingId];
            b.status == ApprovedBilling && b.attemptNumber == t.payments[p].attemptNumber
  {
    assert t.billings[t.payments[p].billingId].invoiceId == t.billings[t.payments[q].billingId].invoiceId;
  }

}
