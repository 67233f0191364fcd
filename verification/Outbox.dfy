/** The tables, the outbox and the gateway's call log together: what a whole request does to them. */
module Outbox {
  import opened Wrappers
  import opened Entities
  import opened Storage
  import opened IdempotencyKey
  import opened Tables
  import opened Ledger
  import opened Events

  /** What the gateway is sent. */
  datatype GatewayRequest = GatewayRequest(billingId: string, invoiceId: string, amountCents: int, dueDate: Time)

  /** A line of the call log: what was sent, for which attempt, and what came back. */
  datatype GatewayCall = GatewayCall(request: GatewayRequest, attemptNumber: int, reply: Reply)

  /** Everything in the database. */
  datatype Data = Data(books: Books, outbox: map<string, OutboxRow>)

  const NO_DATA := Data(EMPTY_BOOKS, map[])

  // ---- The outbox invariant ----

  ghost predicate RowsCoherent(d: Data) {
    forall x :: x in d.outbox ==> d.outbox[x].event.meta.eventId == x && d.outbox[x].Coherent()
  }

  /** Events of a payment transaction are committed only as processed. */
  ghost predicate ResultsProcessed(d: Data) {
    forall x :: x in d.outbox && d.outbox[x].event.InPaymentTransaction() ==> d.outbox[x].status == RecordProcessed
  }

  /** `e` reports payment `p`. */
  predicate Reports(e: Event, p: PaymentRow) {
    && (if p.status == ApprovedPayment then e.PaymentApproved? else e.PaymentFailed?)
    && e.paymentId == p.id && e.billingId == p.billingId && e.invoiceId == p.invoiceId
       && e.attemptNumber == p.attemptNumber
    && e.idempotencyKey == p.idempotencyKey && e.gatewayReference == p.gatewayReference
    && (e.PaymentFailed? ==> e.failureCategory == p.failureCategory)
    && e.meta.aggregateId == p.id && OccursAt(p.updatedAt, e.meta.occurredAt)
  }

  ghost predicate HasResult(d: Data, p: string) {
    exists x :: x in d.outbox && d.outbox[x].event.IsResult() && d.outbox[x].event.paymentId == p
  }

  /** Payments and their result events match one to one. */
  ghost predicate ResultsMatch(d: Data) {
    ResultsReport(d) && ResultsUnique(d) && ResultsComplete(d)
  }

  ghost predicate ResultsReport(d: Data) {
    forall x :: x in d.outbox && d.outbox[x].event.IsResult() ==>
                  d.outbox[x].event.paymentId in d.books.payments
                  && Reports(d.outbox[x].event, d.books.payments[d.outbox[x].event.paymentId])
  }

  ghost predicate ResultsUnique(d: Data) {
    forall x, y ::
      (&& x in d.outbox && y in d.outbox && d.outbox[x].event.IsResult() && d.outbox[y].event.IsResult()
       && d.outbox[x].event.paymentId == d.outbox[y].event.paymentId) ==> x == y
  }

  ghost predicate ResultsComplete(d: Data) {
    forall p :: p in d.books.payments ==> HasResult(d, p)
  }

  ghost predicate HasPaidEvent(d: Data, i: string) {
    exists x :: x in d.outbox && d.outbox[x].event.InvoicePaid? && d.outbox[x].event.invoiceId == i
  }

  /** Paid invoices and InvoicePaid events match one to one. */
  ghost predicate PaidMatch(d: Data) {
    PaidReports(d) && PaidUnique(d) && PaidComplete(d)
  }

  ghost predicate PaidReports(d: Data) {
    forall x :: x in d.outbox && d.outbox[x].event.InvoicePaid? ==>
                  d.outbox[x].event.invoiceId in d.books.invoices
                  && d.books.invoices[d.outbox[x].event.invoiceId].status == PaidInvoice
  }

  ghost predicate PaidUnique(d: Data) {
    forall x, y ::
      (&& x in d.outbox && y in d.outbox && d.outbox[x].event.InvoicePaid? && d.outbox[y].event.InvoicePaid?
       && d.outbox[x].event.invoiceId == d.outbox[y].event.invoiceId) ==> x == y
  }

  ghost predicate PaidComplete(d: Data) {
    forall i :: i in d.books.invoices && d.books.invoices[i].status == PaidInvoice ==> HasPaidEvent(d, i)
  }

  /** The event, its envelope included, tells of stored rows what is true of them for good. */
  predicate Tells(t: Books, e: Event) {
    match e
    case InvoiceCreated(meta, i, customer, amount, due) =>
      && meta.aggregateId == i && i in t.invoices
      && var r := t.invoices[i];
         r.customerId == customer && r.amountCents == amount && r.dueDate == due
         && OccursAt(r.createdAt, meta.occurredAt)
    case BillingRequested(meta, b, i, customer, amount, due, n) =>
      && meta.aggregateId == b && b in t.billings
      && var r := t.billings[b];
         r.invoiceId == i && r.customerId == customer && r.amountCents == amount && r.dueDate == due
         && 1 <= n <= r.attemptNumber
    case PaymentApproved(_, _, b, _, customer, _, _, _) => b in t.billings && t.billings[b].customerId == customer
    case PaymentFailed(_, _, b, _, customer, _, _, _, _) => b in t.billings && t.billings[b].customerId == customer
    case InvoicePaid(meta, i) =>
      && meta.aggregateId == i && i in t.invoices && t.invoices[i].status == PaidInvoice
      && t.invoices[i].paidAt.Some? && OccursAt(t.invoices[i].paidAt.value, meta.occurredAt)
  }

  ghost predicate RecordsTell(d: Data) {
    forall x :: x in d.outbox ==> Tells(d.books, d.outbox[x].event)
  }

  lemma TellsStays(t: Books, u: Books, e: Event)
    requires OnlyForward(t, u) && Tells(t, e)
    ensures Tells(u, e)
  {
    match e
    case InvoiceCreated(_, i, _, _, _) => assert InvoiceForward(t.invoices[i], u.invoices[i]);
    case BillingRequested(_, b, _, _, _, _, _) => assert BillingForward(t.billings[b], u.billings[b]);
    case PaymentApproved(_, _, b, _, _, _, _, _) => assert BillingForward(t.billings[b], u.billings[b]);
    case PaymentFailed(_, _, b, _, _, _, _, _, _) => assert BillingForward(t.billings[b], u.billings[b]);
    case InvoicePaid(_, i) => assert InvoiceForward(t.invoices[i], u.invoices[i]);
  }

  ghost predicate FirstAttemptSettled(t: Books, i: string) {
    exists b :: b in t.billings && t.billings[b].invoiceId == i && HasAttempt(t, b, 1)
  }

  /** What the processed record of a request event vouches for. */
  ghost predicate Vouches(t: Books, r: OutboxRow) {
    r.status == RecordProcessed ==>
      && (r.event.InvoiceCreated? ==> FirstAttemptSettled(t, r.event.invoiceId))
      && (r.event.BillingRequested? ==> HasAttempt(t, r.event.billingId, r.event.attemptNumber))
  }

  ghost predicate RequestsVouch(d: Data) {
    forall x :: x in d.outbox ==> Vouches(d.books, d.outbox[x])
  }

  ghost predicate OutboxInv(d: Data) {
    && RowsCoherent(d) && ResultsProcessed(d) && ResultsMatch(d) && PaidMatch(d) && RequestsVouch(d)
    && RecordsTell(d)
  }

  ghost predicate DataInv(d: Data) {
    Inv(d.books) && OutboxInv(d)
  }

  // ---- Commits of a request ----

  lemma EmptyOutboxKept()
    ensures OutboxInv(NO_DATA)
  {
    assert forall x :: x !in NO_DATA.outbox;
    assert forall p :: p !in NO_DATA.books.payments;
    assert forall i :: i !in NO_DATA.books.invoices;
  }

  lemma StartsWithNothing()
    ensures DataInv(NO_DATA)
  {
    StartsKept();
    EmptyOutboxKept();
  }

  lemma VouchesStays(t: Books, u: Books, r: OutboxRow)
    requires OnlyForward(t, u) && Vouches(t, r)
    ensures Vouches(u, r)
  {
    if r.status == RecordProcessed && r.event.InvoiceCreated? {
      var b :| b in t.billings && t.billings[b].invoiceId == r.event.invoiceId && HasAttempt(t, b, 1);
      assert BillingForward(t.billings[b], u.billings[b]);
      AttemptsStay(t, u, b, 1);
    }
    if r.status == RecordProcessed && r.event.BillingRequested? {
      AttemptsStay(t, u, r.event.billingId, r.event.attemptNumber);
    }
  }

  /** A commit that settles nothing leaves the outbox right. */
  lemma PlainCommitKeepsOutbox(d: Data, c: Commit)
    requires DataInv(d) && Enabled(d.books, c) && BringsStorableRows(c) && !c.Settle?
    ensures DataInv(Data(Apply(d.books, c), d.outbox))
  {
    hide RowsKept, OutboxInv, OnlyForward, BringsStorableRows, HasBilling;
    CommitKeeps(d.books, c);
    CommitKeepsRows(d.books, c);
    CommitGoesForward(d.books, c);
    hide LedgerInv;
    SameOutboxKeepsOutbox(d, Data(Apply(d.books, c), d.outbox));
  }

  /** The outbox stays right while the books move on without settling anything. */
  lemma SameOutboxKeepsOutbox(d: Data, e: Data)
    requires OutboxInv(d) && e.outbox == d.outbox && OnlyForward(d.books, e.books)
    requires e.books.payments == d.books.payments
    requires forall i :: i in e.books.invoices && e.books.invoices[i].status == PaidInvoice ==>
                           i in d.books.invoices && d.books.invoices[i].status == PaidInvoice
    ensures OutboxInv(e)
  {
    hide ResultsMatch, PaidMatch, OnlyForward, Vouches, Tells;
    forall x | x in d.outbox ensures Vouches(e.books, d.outbox[x]) && Tells(e.books, d.outbox[x].event) {
      VouchesStays(d.books, e.books, d.outbox[x]);
      TellsStays(d.books, e.books, d.outbox[x].event);
    }
    SameOutboxKeepsMatches(d, e);
  }

  lemma SameOutboxKeepsMatches(d: Data, e: Data)
    requires ResultsMatch(d) && PaidMatch(d) && e.outbox == d.outbox && OnlyForward(d.books, e.books)
    requires e.books.payments == d.books.payments
    requires forall i :: i in e.books.invoices && e.books.invoices[i].status == PaidInvoice ==>
                           i in d.books.invoices && d.books.invoices[i].status == PaidInvoice
    ensures ResultsMatch(e) && PaidMatch(e)
  {
    assert ResultsMatch(e) by {
      hide PaidMatch, OnlyForward, Reports;
      assert forall p :: HasResult(d, p) ==> HasResult(e, p);
    }
    hide ResultsMatch;
    assert forall i :: HasPaidEvent(d, i) ==> HasPaidEvent(e, i);
  }

  /** The outbox changes at most in the rows of request events. */
  ghost predicate SameResults(d: Data, e: Data) {
    && (forall x :: x in e.outbox && e.outbox[x].event.InPaymentTransaction() ==>
                      x in d.outbox && d.outbox[x] == e.outbox[x])
    && (forall x :: x in d.outbox && d.outbox[x].event.InPaymentTransaction() ==>
                      x in e.outbox && d.outbox[x] == e.outbox[x])
  }

  lemma SameResultsKeepMatches(d: Data, e: Data)
    requires ResultsMatch(d) && PaidMatch(d) && SameResults(d, e) && e.books == d.books
    ensures ResultsMatch(e) && PaidMatch(e)
  {
    forall p | HasResult(d, p) ensures HasResult(e, p) {
      var y :| y in d.outbox && d.outbox[y].event.IsResult() && d.outbox[y].event.paymentId == p;
      assert e.outbox[y] == d.outbox[y];
    }
    forall i | HasPaidEvent(d, i) ensures HasPaidEvent(e, i) {
      var y :| y in d.outbox && d.outbox[y].event.InvoicePaid? && d.outbox[y].event.invoiceId == i;
      assert e.outbox[y] == d.outbox[y];
    }
    hide HasResult, HasPaidEvent, Reports;
  }

  /** Writing the row of a request event leaves the outbox right if the row is coherent and keeps its word. */
  lemma RequestRowKeepsOutbox(d: Data, x: string, r: OutboxRow)
    requires OutboxInv(d) && !r.event.InPaymentTransaction() && r.event.meta.eventId == x && r.Coherent()
             && Vouches(d.books, r) && Tells(d.books, r.event)
    requires x in d.outbox ==> !d.outbox[x].event.InPaymentTransaction()
    ensures OutboxInv(d.(outbox := d.outbox[x := r]))
  {
    var e := d.(outbox := d.outbox[x := r]);
    assert SameResults(d, e);
    SameResultsKeepMatches(d, e);
    assert RowsCoherent(e) && ResultsProcessed(e) && RequestsVouch(e) && RecordsTell(e);
  }

  /** All that one payment transaction writes. */
  datatype Settlement = Settlement(
    payment: PaymentRow, billedAt: Time, paidAt: Time, result: OutboxRow, paid: Option<OutboxRow>)
  {
    function Commit(): Commit { Settle(payment, billedAt, paidAt) }
    function ResultId(): string { result.event.meta.eventId }
  }

  ghost predicate EnabledSettlement(d: Data, s: Settlement) {
    && Enabled(d.books, s.Commit()) && BringsStorableRows(s.Commit())
    && s.ResultId() !in d.outbox
    && Reports(s.result.event, s.payment) && s.result.status == RecordProcessed && s.result.Coherent()
    && s.result.event.customerId == d.books.billings[s.payment.billingId].customerId
    && (s.paid.Some? <==> s.payment.status == ApprovedPayment)
    && (s.paid.Some? ==>
          var r := s.paid.value;
          && r.event.InvoicePaid? && r.event.invoiceId == s.payment.invoiceId
          && r.event.meta.eventId !in d.outbox && r.event.meta.eventId != s.ResultId()
          && r.status == RecordProcessed && r.Coherent()
          && r.event.meta.aggregateId == r.event.invoiceId && OccursAt(s.paidAt, r.event.meta.occurredAt))
  }

  function WithResults(o: map<string, OutboxRow>, s: Settlement): map<string, OutboxRow> {
    var o' := o[s.ResultId() := s.result];
    if s.paid.Some? then o'[s.paid.value.event.meta.eventId := s.paid.value] else o'
  }

  ghost function ApplySettlement(d: Data, s: Settlement): Data
    requires EnabledSettlement(d, s)
  {
    Data(Apply(d.books, s.Commit()), WithResults(d.outbox, s))
  }

  lemma SettlementKeepsCoherence(d: Data, s: Settlement)
    requires ResultsProcessed(d) && RowsCoherent(d) && EnabledSettlement(d, s)
    ensures var e := ApplySettlement(d, s); ResultsProcessed(e) && RowsCoherent(e)
  {
  }

  /** What a settlement does to each outbox row. */
  lemma SettlementRows(d: Data, s: Settlement)
    requires EnabledSettlement(d, s)
    ensures var o := ApplySettlement(d, s).outbox;
            && (forall x :: x in d.outbox ==> x in o && o[x] == d.outbox[x])
            && s.ResultId() in o && o[s.ResultId()] == s.result
            && (forall x :: x in o ==> x in d.outbox || x == s.ResultId() || o[x].event.InvoicePaid?)
  {
    hide Enabled, BringsStorableRows;
  }

  /** A new payment together with the one result event that reports it keeps the match. */
  lemma ResultAdded(d: Data, e: Data, p: PaymentRow, y: string)
    requires ResultsMatch(d) && p.id !in d.books.payments && e.books.payments == d.books.payments[p.id := p]
    requires forall x :: x in d.outbox ==> x in e.outbox && e.outbox[x] == d.outbox[x]
    requires y !in d.outbox && y in e.outbox && Reports(e.outbox[y].event, p)
    requires forall x :: x in e.outbox && e.outbox[x].event.IsResult() ==> x in d.outbox || x == y
    ensures ResultsMatch(e)
  {
    assert e.outbox[y].event.IsResult() && e.outbox[y].event.paymentId == p.id;
    assert forall x :: x in d.outbox && d.outbox[x].event.IsResult() ==> d.outbox[x].event.paymentId != p.id;
    NewResultCompletes(d, e, p, y);
    NewResultIsUnique(d, e, p, y);
    hide ResultsComplete, ResultsUnique, Reports;
  }

  lemma NewResultIsUnique(d: Data, e: Data, p: PaymentRow, y: string)
    requires ResultsUnique(d)
    requires forall x :: x in d.outbox ==> x in e.outbox && e.outbox[x] == d.outbox[x]
    requires forall x :: x in d.outbox && d.outbox[x].event.IsResult() ==> d.outbox[x].event.paymentId != p.id
    requires y in e.outbox && e.outbox[y].event.IsResult() && e.outbox[y].event.paymentId == p.id
    requires forall x :: x in e.outbox && e.outbox[x].event.IsResult() ==> x in d.outbox || x == y
    ensures ResultsUnique(e)
  {
  }

  lemma NewResultCompletes(d: Data, e: Data, p: PaymentRow, y: string)
    requires ResultsComplete(d) && e.books.payments == d.books.payments[p.id := p]
    requires forall x :: x in d.outbox ==> x in e.outbox && e.outbox[x] == d.outbox[x]
    requires y in e.outbox && e.outbox[y].event.IsResult() && e.outbox[y].event.paymentId == p.id
    ensures ResultsComplete(e)
  {
    forall q | q in e.books.payments ensures HasResult(e, q) {
      if q != p.id {
        assert HasResult(d, q);
        var x :| x in d.outbox && d.outbox[x].event.IsResult() && d.outbox[x].event.paymentId == q;
        assert e.outbox[x] == d.outbox[x];
      }
    }
  }

  lemma SettlementKeepsResults(d: Data, s: Settlement)
    requires ResultsMatch(d) && EnabledSettlement(d, s)
    ensures ResultsMatch(ApplySettlement(d, s))
  {
    hide ResultsMatch, Reports, BringsStorableRows;
    SettlementRows(d, s);
    ResultAdded(d, ApplySettlement(d, s), s.payment, s.ResultId());
  }

  lemma SettlementKeepsPaid(d: Data, s: Settlement)
    requires LedgerInv(d.books) && PaidMatch(d) && EnabledSettlement(d, s)
    ensures PaidMatch(ApplySettlement(d, s))
  {
    hide GapFree, PaymentsKept, OnePaymentPerAttempt, InvoicesKept, OneBillingPerInvoice, BringsStorableRows;
    var e := ApplySettlement(d, s);
    var inv := s.payment.invoiceId;
    assert d.books.invoices[inv].status != PaidInvoice;
    hide BillingsKept, LedgerInv;
    SettlementRows(d, s);
    assert !s.result.event.InvoicePaid?;
    assert s.paid.None? ==> e.outbox == d.outbox[s.ResultId() := s.result];
    if s.paid.Some? {
      assert e.outbox[s.paid.value.event.meta.eventId] == s.paid.value;
    }
    forall i | i in e.books.invoices && e.books.invoices[i].status == PaidInvoice ensures HasPaidEvent(e, i) {
      if i != inv {
        assert HasPaidEvent(d, i);
        var x :| x in d.outbox && d.outbox[x].event.InvoicePaid? && d.outbox[x].event.invoiceId == i;
        assert e.outbox[x] == d.outbox[x];
      }
    }
  }

  lemma SettlementKeepsVouchers(d: Data, s: Settlement)
    requires LedgerInv(d.books) && RequestsVouch(d) && EnabledSettlement(d, s)
    ensures RequestsVouch(ApplySettlement(d, s))
  {
    var e := ApplySettlement(d, s);
    CommitGoesForward(d.books, s.Commit());
    forall x | x in e.outbox ensures Vouches(e.books, e.outbox[x]) {
      if x in d.outbox {
        assert e.outbox[x] == d.outbox[x];
        VouchesStays(d.books, e.books, d.outbox[x]);
      }
    }
  }

  lemma SettlementKeepsTelling(d: Data, s: Settlement)
    requires LedgerInv(d.books) && RecordsTell(d) && EnabledSettlement(d, s)
    ensures RecordsTell(ApplySettlement(d, s))
  {
    var e := ApplySettlement(d, s);
    CommitGoesForward(d.books, s.Commit());
    NewEventsTell(d, s);
    hide LedgerInv, OnlyForward, EnabledSettlement, Apply, Tells;
    forall x | x in e.outbox ensures Tells(e.books, e.outbox[x].event) {
      if x in d.outbox {
        TellsStays(d.books, e.books, d.outbox[x].event);
      }
    }
  }

  /** The settlement's own events tell of what it writes, and everything else it leaves. */
  lemma NewEventsTell(d: Data, s: Settlement)
    requires EnabledSettlement(d, s)
    ensures var e := ApplySettlement(d, s);
            && Tells(e.books, s.result.event) && (s.paid.Some? ==> Tells(e.books, s.paid.value.event))
            && (forall x :: x in e.outbox ==>
                              (x in d.outbox && e.outbox[x] == d.outbox[x]) || e.outbox[x] == s.result
                              || (s.paid.Some? && e.outbox[x] == s.paid.value))
  {
    hide BringsStorableRows;
  }

  /** A payment transaction commits its payment, billing, invoice and events together, and keeps everything. */
  lemma SettlementKeepsData(d: Data, s: Settlement)
    requires DataInv(d) && EnabledSettlement(d, s)
    ensures DataInv(ApplySettlement(d, s))
  {
    CommitKeeps(d.books, s.Commit());
    CommitKeepsRows(d.books, s.Commit());
    SettlementKeepsCoherence(d, s);
    SettlementKeepsResults(d, s);
    SettlementKeepsPaid(d, s);
    SettlementKeepsVouchers(d, s);
    SettlementKeepsTelling(d, s);
    hide LedgerInv, RowsKept, EnabledSettlement;
  }

  /** Payments and result events match one to one by (billing, attempt). */
  lemma ResultsMatchAttempts(d: Data, x: string, y: string)
    requires DataInv(d) && x in d.outbox && y in d.outbox && d.outbox[x].event.IsResult()
             && d.outbox[y].event.IsResult()
    ensures HasAttempt(d.books, d.outbox[x].event.billingId, d.outbox[x].event.attemptNumber)
    ensures (&& d.outbox[x].event.billingId == d.outbox[y].event.billingId
             && d.outbox[x].event.attemptNumber == d.outbox[y].event.attemptNumber) ==> x == y
  {
  }
}
