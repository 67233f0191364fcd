/** What holds when an event is delivered, and what its delivery leaves holding. */
module Delivery {
  import opened Wrappers
  import opened Text
  import opened Entities
  import opened Storage
  import opened IdempotencyKey
  import opened Tables
  import opened Ledger
  import opened Events
  import opened Outbox
  import opened Effects

  /** What holds when an event is delivered. */
  ghost predicate Deliverable(e: Event, s: Seen) {
    match e
    case InvoiceCreated(_, _, _, _, _) =>
      SeenInv(s) && AnnouncementOk(s.data.books, AnnouncementOf(e)) && Tells(s.data.books, e)
    case BillingRequested(_, _, _, _, _, _, _) =>
      SeenInv(s) && InputOk(s.data.books, InputOf(e)) && Tells(s.data.books, e)
    case PaymentApproved(_, _, b, i, _, _, _, _) =>
      && RowsKept(s.data.books) && b in s.data.books.billings && i in s.data.books.invoices
      && (s.data.books.invoices[i].status == PendingInvoice || s.data.books.invoices[i].status == PaidInvoice)
    case PaymentFailed(_, _, b, _, _, _, _, _, _) =>
      RowsKept(s.data.books) && b in s.data.books.billings
    case InvoicePaid(_, _) => true
  }

  lemma RequestEventsNeedKeptData(e: Event, s: Seen)
    requires Deliverable(e, s) && !e.InPaymentTransaction()
    ensures SeenInv(s)
  {
  }

  lemma DeliverableInput(e: Event, s: Seen)
    requires e.BillingRequested? && Deliverable(e, s)
    ensures InputOk(s.data.books, InputOf(e))
  {
  }

  lemma InputIsPositive(t: Books, c: ChargeInput)
    requires InputOk(t, c)
    ensures 1 <= c.attemptNumber
  {
  }

  lemma DeliverableInvoice(e: Event, s: Seen)
    requires e.InvoiceCreated? && Deliverable(e, s)
    ensures SeenInv(s) && e.invoiceId in s.data.books.invoices
    ensures var r := s.data.books.invoices[e.invoiceId];
            r.customerId == e.customerId && r.amountCents == e.amountCents && r.dueDate == e.dueDate
  {
  }

  lemma AnnouncementTells(e: Event, s: Seen)
    requires e.InvoiceCreated? && Deliverable(e, s)
    ensures Tells(s.data.books, e)
  {
  }

  /** An input stays good whatever progress its billing makes. */
  lemma InputStaysOk(t: Books, u: Books, c: ChargeInput)
    requires InputOk(t, c) && LedgerInv(u) && OnlyForward(t, u)
    ensures InputOk(u, c)
  {
    assert BillingForward(t.billings[c.billingId], u.billings[c.billingId]);
    if HasAttempt(t, c.billingId, c.attemptNumber) {
      AttemptsStay(t, u, c.billingId, c.attemptNumber);
    } else {
      AttemptIffSettled(u, c.billingId, c.attemptNumber);
    }
  }

  /** A request event can be delivered again after any progress. */
  lemma StillDeliverable(e: Event, s: Seen, u: Seen)
    requires Deliverable(e, s) && !e.InPaymentTransaction() && SeenInv(u) && Progress(s, u, e.invoiceId)
    ensures Deliverable(e, u)
  {
    if e.BillingRequested? {
      InputStaysOk(s.data.books, u.data.books, InputOf(e));
    } else {
      assert InvoiceForward(s.data.books.invoices[e.invoiceId], u.data.books.invoices[e.invoiceId]);
    }
  }

  /** Writing the row of a request event keeps what a request sees. */
  lemma RequestRowKeepsSeen(s: Seen, x: string, row: OutboxRow)
    requires SeenInv(s) && !row.event.InPaymentTransaction() && row.event.meta.eventId == x && row.Coherent()
    requires Vouches(s.data.books, row) && Tells(s.data.books, row.event)
    requires x in s.data.outbox ==> !s.data.outbox[x].event.InPaymentTransaction()
    ensures SeenInv(s.WithRow(x, row))
  {
    hide Vouches, Tells;
    RequestRowKeepsOutbox(s.data, x, row);
    hide OutboxInv, Inv;
    assert CallsKept(s.WithRow(x, row));
  }

  /** The row itself makes no difference to the delivery. */
  lemma RecordAppended(e: Event, emitter: ModuleName, s: Seen, s': Seen)
    requires Deliverable(e, s)
    requires var x := e.meta.eventId;
             && x !in s.data.outbox && x in s'.data.outbox
             && s'.data.outbox[x] == Appended(e, emitter, s'.data.outbox[x].recordedAt)
             && s' == s.WithRow(x, s'.data.outbox[x])
    ensures Deliverable(e, s')
    ensures !e.InPaymentTransaction() ==> SeenInv(s') && Progress(s, s', e.invoiceId)
  {
    hide RowsKept, LedgerInv, OutboxInv, CallsKept, HasAttempt, StorableBilling;
    var x := e.meta.eventId;
    if !e.InPaymentTransaction() {
      RequestEventsNeedKeptData(e, s);
      RequestRowKeepsSeen(s, x, s'.data.outbox[x]);
    }
  }

  lemma StoredRecordTells(s: Seen, x: string)
    requires SeenInv(s) && x in s.data.outbox
    ensures Tells(s.data.books, s.data.outbox[x].event) && s.data.outbox[x].event.meta.eventId == x
    ensures forall t: Books, r: OutboxRow :: r.status == RecordPending ==> Vouches(t, r)
  {
  }

  /** Marking the record of a request event, processed or failed. */
  lemma RecordMarked(e: Event, s: Seen, v: Seen, u: Seen, row: OutboxRow)
    requires SeenInv(v) && Progress(s, v, e.invoiceId) && !e.InPaymentTransaction()
    requires var x := e.meta.eventId;
             && x !in s.data.outbox && x in v.data.outbox && v.data.outbox[x].event == e
             && u == v.WithRow(x, row)
    requires row.event == e && row.Coherent() && Vouches(v.data.books, row)
    ensures SeenInv(u) && Progress(s, u, e.invoiceId)
  {
    hide SeenInv, Vouches, Progress, Tells;
    StoredRecordTells(v, e.meta.eventId);
    RequestRowKeepsSeen(v, e.meta.eventId, row);
    NewRowRewritten(s, v, u, e.meta.eventId, row, e.invoiceId);
  }

  /** Progress does not mind what becomes of a row that is new. */
  lemma NewRowRewritten(s: Seen, v: Seen, u: Seen, x: string, row: OutboxRow, i: string)
    requires Progress(s, v, i) && x !in s.data.outbox && u == v.WithRow(x, row)
    ensures Progress(s, u, i)
  {
    hide OnlyForward, OnlyInvoice, HasAttempt;
  }

  /** An invoice may be announced before it is billed, or again once its first attempt is settled. */
  ghost predicate CanAnnounce(e: Event, t: Books) {
    e.InvoiceCreated? ==> !HasBilling(t, e.invoiceId) || FirstAttemptSettled(t, e.invoiceId)
  }

  /** A delivered request event has done what its processed record will vouch for. */
  lemma DeliveryVouches(replies: nat -> Reply, e: Event, s: Seen, u: Seen, row: OutboxRow)
    requires Delivered(replies, Subscribers(NameOf(e)), e, s, u) && row.event == e
    requires CanAnnounce(e, s.data.books)
    ensures Vouches(u.data.books, row)
  {
    if e.BillingRequested? {
      DeliveredToOne(replies, PaymentsOnBillingRequested, e, s, u);
      AttemptMadeLasts(replies, s, u, InputOf(e));
    } else if e.InvoiceCreated? {
      DeliveredToOne(replies, BillingOnInvoiceCreated, e, s, u);
      if !HasBilling(s.data.books, e.invoiceId) {
        OpeningSettlesFirstAttempt(replies, s, u, e);
      }
    }
  }

  lemma OpeningSettlesFirstAttempt(replies: nat -> Reply, s: Seen, u: Seen, e: Event)
    requires e.InvoiceCreated? && BillingEnsured(replies, s, u, e) && !HasBilling(s.data.books, e.invoiceId)
    ensures FirstAttemptSettled(u.data.books, e.invoiceId)
  {
    var o :| BillingOpened(replies, s, u, e, o);
    var b := o.billing.id;
    assert o.before.data.books.billings[b] == o.billing;
    AttemptMadeLasts(replies, o.before, o.after, InputOf(o.request));
    AttemptKeepsBillings(replies, o.before, o.after, InputOf(o.request), b);
    assert u.data.books == o.after.data.books;
    assert u.data.books.billings[b].invoiceId == e.invoiceId && HasAttempt(u.data.books, b, 1);
  }

  // ---- Inside the payment transaction ----

  lemma PaidIsDeliverable(q: Event, s: Seen)
    requires q.InvoicePaid?
    ensures Deliverable(q, s)
  {
  }

  lemma ResultEventsFindTheirRows(e: Event, s: Seen)
    requires Deliverable(e, s) && e.IsResult()
    ensures RowsKept(s.data.books) && e.billingId in s.data.books.billings
            && StorableBilling(s.data.books.billings[e.billingId])
    ensures s.data.books.billings[e.billingId].id == e.billingId
    ensures e.PaymentApproved? ==>
              && e.invoiceId in s.data.books.invoices
              && var r := s.data.books.invoices[e.invoiceId];
                 r.id == e.invoiceId && StorableInvoice(r) && (r.status == PendingInvoice || r.status == PaidInvoice)
  {
  }

  lemma RowsHaveIds(t: Books)
    requires RowsKept(t)
    ensures forall i :: i in t.invoices ==> t.invoices[i].id == i
    ensures forall b :: b in t.billings ==> t.billings[b].id == b
  {
  }

  lemma SettledStaysDeliverable(e: Event, s: Seen, u: Seen)
    requires e.PaymentApproved? && Deliverable(e, s) && InvoiceSettled(s, u, e)
    ensures Deliverable(e, u)
  {
    hide RowsKept, StorableBilling, StorablePayment;
    ResultEventsFindTheirRows(e, s);
    if s.data.books.invoices[e.invoiceId].status != PaidInvoice {
      var x :| PaidUnder(s, u, e, x);
      var t, r := s.data.books, s.data.books.invoices[e.invoiceId];
      assert StorableInvoice(r.AsPaid(e.meta.occurredAt));
      hide StorableInvoice;
      RowsHaveIds(t);
      RowUpdateKeepsRows(t, u.data.books);
    }
  }

  lemma MarkedStaysDeliverable(e: Event, s: Seen, u: Seen, status: BillingStatus)
    requires e.IsResult() && Deliverable(e, s) && BillingMarked(s, u, e.billingId, status)
    ensures Deliverable(e, u)
  {
    assert StorableBilling(u.data.books.billings[e.billingId]) by {
      assert StorableBilling(s.data.books.billings[e.billingId]);
    }
    RowUpdateKeepsRows(s.data.books, u.data.books);
  }

  /** Updating rows in place, to storable rows under the same ids, keeps all rows. */
  lemma RowUpdateKeepsRows(t: Books, u: Books)
    requires RowsKept(t) && u.payments == t.payments
    requires u.invoices.Keys == t.invoices.Keys && u.billings.Keys == t.billings.Keys
    requires forall i :: i in u.invoices ==>
                           u.invoices[i].id == i && (u.invoices[i] == t.invoices[i] || StorableInvoice(u.invoices[i]))
    requires forall b :: b in u.billings ==>
                           u.billings[b].id == b && (u.billings[b] == t.billings[b] || StorableBilling(u.billings[b]))
    ensures RowsKept(u)
  {
  }

  // ---- Around the payment attempt ----

  lemma SeenHasRows(s: Seen)
    requires SeenInv(s)
    ensures RowsKept(s.data.books) && LedgerInv(s.data.books) && KeysMatch(s.data.books)
  {
  }

  /** A stored payment answers the request for its attempt. */
  lemma FoundAnswers(replies: nat -> Reply, s: Seen, c: ChargeInput, p: PaymentRow)
    requires HasAttempt(s.data.books, c.billingId, c.attemptNumber)
    requires p.billingId == c.billingId && p.attemptNumber == c.attemptNumber
    requires p.id in s.data.books.payments && s.data.books.payments[p.id] == p
    ensures AttemptAnswered(replies, s, s, c, p)
  {
  }

  /** What NewPayment makes of a known input. */
  lemma NewPaymentForInput(t: Books, c: ChargeInput, id: string, now: Time)
    requires RowsKept(t) && LedgerInv(t) && InputOk(t, c)
    ensures var key := BuildIdempotencyKey(c.billingId, c.attemptNumber);
            var created := NewPayment(id, c.billingId, c.invoiceId, c.attemptNumber, key, now);
            && (created.Ok? ==>
                  var p := created.value;
                  && p.id == TrimSpace(id) && p.billingId == c.billingId && p.invoiceId == c.invoiceId
                  && p.attemptNumber == c.attemptNumber
                  && p.idempotencyKey == BuildIdempotencyKey(c.billingId, c.attemptNumber)
                  && p.status == PendingPayment && StorablePayment(p) && p.createdAt == now)
            && (id != "" && Trimmed(id) ==> created.Ok? && created.value.id == id)
  {
    var key := BuildIdempotencyKey(c.billingId, c.attemptNumber);
    var created := NewPayment(id, c.billingId, c.invoiceId, c.attemptNumber, key, now);
    assert StorableBilling(t.billings[c.billingId]) && t.billings[c.billingId].id == c.billingId;
    assert t.billings[c.billingId].invoiceId == c.invoiceId;
    TrimKeepsTrimmed(c.billingId);
    TrimKeepsTrimmed(c.invoiceId);
    KeyIsTrimmed(c.billingId, c.attemptNumber);
    if created.Ok? {
      NewPaymentsAreStorable(id, c.billingId, c.invoiceId, c.attemptNumber, key, now);
    }
    if Trimmed(id) {
      TrimKeepsTrimmed(id);
    }
  }

  lemma ReservedAddsNoApproval(t: Books, p: PaymentRow)
    requires p.id !in t.payments && !HasApproved(t, p.invoiceId)
    ensures !ApprovedElsewhere(t.(payments := t.payments[p.id := p]), p.id)
  {
  }

  /** Writing the settled payment over the reserved row stores exactly the settled payment. */
  lemma SettledOverwrites(p: PaymentRow, o: Outcome, now: Time)
    ensures SettledAs(p, o, now).id == p.id
    ensures OverwritePayment(p, SettledAs(p, o, now)) == SettledAs(p, o, now)
  {
  }

  /** `p` can be reserved for the attempt that `c` asks for: nobody has made it, and nothing of the invoice is
      approved. */
  ghost predicate CanReserve(s: Seen, c: ChargeInput, p: PaymentRow) {
    && SeenInv(s) && InputOk(s.data.books, c)
    && !HasAttempt(s.data.books, c.billingId, c.attemptNumber) && !HasApproved(s.data.books, c.invoiceId)
    && p.id !in s.data.books.payments && StorablePayment(p) && p.status == PendingPayment
    && p.billingId == c.billingId && p.invoiceId == c.invoiceId && p.attemptNumber == c.attemptNumber
    && p.idempotencyKey == BuildIdempotencyKey(c.billingId, c.attemptNumber)
  }

  function WithReserved(s: Seen, p: PaymentRow): Seen {
    s.(data := s.data.(books := s.data.books.(payments := s.data.books.payments[p.id := p])))
  }

  /** The reserved row meets no other approval when it is settled. */
  lemma ReservedAlone(s: Seen, c: ChargeInput, p: PaymentRow)
    requires CanReserve(s, c, p)
    ensures SeenInv(s) && p.id !in s.data.books.payments && p.id in WithReserved(s, p).data.books.payments
    ensures WithReserved(s, p).data.books.payments[p.id] == p && WithReserved(s, p).calls == s.calls
    ensures !ApprovedElsewhere(WithReserved(s, p).data.books, p.id)
  {
    hide SeenInv, InputOk, StorablePayment;
    ReservedAddsNoApproval(s.data.books, p);
  }

  lemma RepliedCanSettle(s: Seen, c: ChargeInput, p: PaymentRow, reply: Reply, now: Time)
    requires CanReserve(s, c, p)
    ensures CanSettle(s, SettledAs(p, OutcomeOf(reply), now), c)
    ensures Recorded(SettledAs(p, OutcomeOf(reply), now)) == OutcomeOf(reply)
  {
    SettledPaymentsStayStorable(p, reply, now);
  }

  /** With its settled payment written, the transaction can publish the result. */
  lemma ChargedIsDeliverable(replies: nat -> Reply, s: Seen, c: ChargeInput, p: PaymentRow, e: Event)
    requires CanSettle(s, p, c) && RowsKept(s.data.books) && Reports(e, p)
    ensures Deliverable(e, Charged(replies, s, p, c))
  {
    hide HasAttempt, HasBilling, StorableInvoice, StorableBilling, StorablePayment, BuildIdempotencyKey, GapFree,
         OnePaymentPerAttempt, PaymentsKept;
    var u := Charged(replies, s, p, c);
    assert u.data.books.payments == s.data.books.payments[p.id := p];
    assert KeysMatch(u.data.books);
  }

  lemma SettledMeansNotPending(s: Seen, p: PaymentRow, c: ChargeInput)
    requires CanSettle(s, p, c)
    ensures p.status != PendingPayment
  {
  }

  // ---- Around opening a billing ----

  lemma BillingExists(replies: nat -> Reply, s: Seen, e: Event)
    requires e.InvoiceCreated? && HasBilling(s.data.books, e.invoiceId)
    ensures BillingEnsured(replies, s, s, e)
  {
  }

  /** The billing built from an announcement can be committed and its first attempt requested. */
  lemma AnnouncedBilling(s: Seen, e: Event, id: string, now: Time)
    requires e.InvoiceCreated? && Deliverable(e, s) && !HasBilling(s.data.books, e.invoiceId)
    ensures var created := NewBilling(id, e.invoiceId, e.customerId, e.amountCents, e.dueDate, now);
            && (created.Ok? ==>
                  var r := created.value;
                  && r.id == TrimSpace(id) && r.invoiceId == e.invoiceId && r.attemptNumber == 1
                  && r.createdAt == now && r.updatedAt == now
                  && (r.id !in s.data.books.billings ==>
                        && Enabled(s.data.books, SaveNewBilling(r)) && BringsStorableRows(SaveNewBilling(r))))
            && (id != "" && Trimmed(id) ==> created.Ok? && created.value.id == id)
  {
    hide Deliverable, SeenInv, HasAttempt, HasApproved;
    DeliverableInvoice(e, s);
    SeenHasRows(s);
    var i := s.data.books.invoices[e.invoiceId];
    assert StorableInvoice(i) && i.id == e.invoiceId;
    hide LedgerInv, RowsKept;
    TrimKeepsTrimmed(e.invoiceId);
    TrimKeepsTrimmed(e.customerId);
    if NewBilling(id, e.invoiceId, e.customerId, e.amountCents, e.dueDate, now).Ok? {
      BillingsStayStorable(id, e.invoiceId, e.customerId, e.amountCents, e.dueDate, now);
    }
    if Trimmed(id) {
      TrimKeepsTrimmed(id);
    }
  }

  lemma BillingFits(t: Books, r: BillingRow)
    ensures BillingCollides(t, r) <==> r.id in t.billings || HasBilling(t, r.invoiceId)
  {
  }

  lemma CallsStayPlainly(s: Seen, u: Seen)
    requires CallsKept(s) && OnlyForward(s.data.books, u.data.books) && u.calls == s.calls
    requires u.data.books.payments == s.data.books.payments
    ensures CallsKept(u) && CallsGrow(s, u) && Wasted(u) == Wasted(s)
  {
    hide OnlyForward;
    CallsStay(s, u);
  }

  lemma PlainCommitTouchesOneInvoice(t: Books, c: Commit, i: string)
    requires Enabled(t, c) && !c.Settle?
    requires match c
             case SaveNewInvoice(r) => r.id == i
             case SaveNewBilling(r) => r.invoiceId == i
             case Reactivate(b, _) => t.billings[b].invoiceId == i
             case _ => true
    ensures OnlyInvoice(t, Apply(t, c), i) && Apply(t, c).payments == t.payments
  {
  }

  /** A commit that settles nothing keeps what a request sees. */
  lemma PlainCommitKeepsSeen(s: Seen, c: Commit, i: string)
    requires SeenInv(s) && Enabled(s.data.books, c) && BringsStorableRows(c) && !c.Settle?
    requires match c
             case SaveNewInvoice(r) => r.id == i
             case SaveNewBilling(r) => r.invoiceId == i
             case Reactivate(b, _) => s.data.books.billings[b].invoiceId == i
             case _ => true
    ensures var u := Seen(Data(Apply(s.data.books, c), s.data.outbox), s.calls);
            SeenInv(u) && Progress(s, u, i) && Wasted(u) == Wasted(s)
  {
    hide DataInv, LedgerInv, RowsKept, OnlyForward, BringsStorableRows, HasBilling, BillingForward, InvoiceForward;
    var u := Seen(Data(Apply(s.data.books, c), s.data.outbox), s.calls);
    SeenHasRows(s);
    PlainCommitTouchesOneInvoice(s.data.books, c, i);
    CommitGoesForward(s.data.books, c);
    hide Apply, Enabled, OnlyInvoice;
    PlainCommitKeepsOutbox(s.data, c);
    CallsStayPlainly(s, u);
    hide CallsKept, HasAttempt, CallsGrow;
  }

  lemma OpenedBillingIsDeliverable(s: Seen, r: BillingRow, q: Event)
    requires SeenInv(s) && Enabled(s.data.books, SaveNewBilling(r)) && BringsStorableRows(SaveNewBilling(r))
    requires q.BillingRequested? && q.meta.aggregateId == r.id
    requires InputOf(q) == ChargeInput(r.id, r.invoiceId, r.customerId, r.amountCents, r.dueDate, 1)
    ensures Deliverable(q, Seen(Data(Apply(s.data.books, SaveNewBilling(r)), s.data.outbox), s.calls))
  {
    hide SeenInv, Progress, HasBilling, HasAttempt, StorableBilling;
    PlainCommitKeepsSeen(s, SaveNewBilling(r), r.invoiceId);
    assert InputOk(Apply(s.data.books, SaveNewBilling(r)), InputOf(q));
  }

  // ---- Around creating an invoice ----

  lemma NewInvoiceForInput(id: string, customerId: string, amountCents: int, dueDate: Time, now: Time)
    ensures var created := NewInvoice(id, customerId, amountCents, dueDate, now);
            && (created.Ok? ==>
                  var r := created.value;
                  && r.id == TrimSpace(id) && r.customerId == TrimSpace(customerId) && r.amountCents == amountCents
                  && r.dueDate <= dueDate < r.dueDate + 86400 && r.dueDate % 86400 == 0
                  && r.status == PendingInvoice && r.createdAt == now && r.updatedAt == now && r.paidAt.None?)
            && (id != "" && Trimmed(id) ==>
                  && (created.Ok? <==> CanInvoice(customerId, amountCents, dueDate))
                  && (created.Ok? ==> created.value.id == id)
                  && (created.Err? ==> created.error == InvoiceRefusal(customerId, amountCents)))
  {
    MadeInvoices(id, customerId, amountCents, dueDate, now);
    if Trimmed(id) {
      TrimKeepsTrimmed(id);
    }
  }

  lemma NewInvoiceIsCommit(s: Seen, id: string, customerId: string, amountCents: int, dueDate: Time, now: Time)
    requires NewInvoice(id, customerId, amountCents, dueDate, now).Ok?
    requires NewInvoice(id, customerId, amountCents, dueDate, now).value.id !in s.data.books.invoices
    ensures var c := SaveNewInvoice(NewInvoice(id, customerId, amountCents, dueDate, now).value);
            Enabled(s.data.books, c) && BringsStorableRows(c)
  {
    InvoicesStayStorable(id, customerId, amountCents, dueDate, now);
  }

  lemma StoredInvoiceStays(s: Seen, w: Seen, u: Seen, r: InvoiceRow)
    requires Enabled(s.data.books, SaveNewInvoice(r)) && w.data.books == Apply(s.data.books, SaveNewInvoice(r))
             && Progress(w, u, r.id)
    ensures r.id in u.data.books.invoices && InvoiceForward(r, u.data.books.invoices[r.id])
  {
    assert w.data.books.invoices[r.id] == r;
  }

  lemma UnknownIsUnbilled(s: Seen, i: string)
    requires SeenInv(s) && i !in s.data.books.invoices
    ensures !HasBilling(s.data.books, i)
  {
    hide OutboxInv, RowsKept, CallsKept;
    assert forall b :: b in s.data.books.billings ==> s.data.books.billings[b].invoiceId in s.data.books.invoices;
  }

  lemma NewInvoiceTells(t: Books, r: InvoiceRow, e: Event)
    requires Enabled(t, SaveNewInvoice(r)) && !HasBilling(t, r.id)
    requires e.InvoiceCreated? && AnnouncementOf(e) == AnnouncementFor(r)
    requires e.meta.aggregateId == r.id && OccursAt(r.createdAt, e.meta.occurredAt)
    ensures var u := Apply(t, SaveNewInvoice(r));
            AnnouncementOk(u, AnnouncementOf(e)) && Tells(u, e) && !HasBilling(u, r.id)
  {
  }

  /** A stored new invoice can be announced, and nobody has billed it. */
  lemma NewInvoiceIsDeliverable(s: Seen, r: InvoiceRow, e: Event)
    requires SeenInv(s) && Enabled(s.data.books, SaveNewInvoice(r)) && BringsStorableRows(SaveNewInvoice(r))
    requires e.InvoiceCreated? && AnnouncementOf(e) == AnnouncementFor(r)
    requires e.meta.aggregateId == r.id && OccursAt(r.createdAt, e.meta.occurredAt)
    ensures var u := Seen(Data(Apply(s.data.books, SaveNewInvoice(r)), s.data.outbox), s.calls);
            Deliverable(e, u) && !HasBilling(u.data.books, r.id)
  {
    hide SeenInv, Progress, StorableInvoice, LedgerInv, RowsKept;
    PlainCommitKeepsSeen(s, SaveNewInvoice(r), r.id);
    UnknownIsUnbilled(s, r.id);
    NewInvoiceTells(s.data.books, r, e);
  }

  /** The billing found for an invoice is stored under its own id, and is approved exactly if a payment is. */
  lemma FoundBilling(s: Seen, invoiceId: string, r: BillingRow)
    requires SeenInv(s)
    requires exists b :: b in s.data.books.billings && s.data.books.billings[b].invoiceId == invoiceId
                         && r == s.data.books.billings[b]
    ensures r.id in s.data.books.billings && s.data.books.billings[r.id] == r && r.invoiceId == invoiceId
    ensures r.status == ApprovedBilling <==> HasApproved(s.data.books, invoiceId)
  {
    hide OutboxInv, CallsKept;
    ModulesAgree(s.data.books, invoiceId);
  }

  // ---- What handlers add to the outbox ----

  lemma MarkingSpendsNothing(e: Event, s: Seen, u: Seen, failure: Option<Error>, status: BillingStatus)
    requires e.IsResult() && u.data.outbox == s.data.outbox
    requires failure.None? ==> BillingMarked(s, u, e.billingId, status)
    ensures |NewRecords(s, u)| <= Budget(e, s.data.books)
    ensures failure.None? ==> WithinBudget(e, s, u)
  {
    SameOutboxNoRecords(s, u);
  }

  lemma PaymentSpends(e: Event, s: Seen, w: Seen, u: Seen)
    requires e.PaymentApproved? && e.invoiceId in s.data.books.invoices
    requires s.data.books.invoices[e.invoiceId].status != PaidInvoice
    requires w.data.outbox == s.data.outbox && |NewRecords(w, u)| <= 1
    ensures |NewRecords(s, u)| <= Budget(e, s.data.books)
    ensures InvoiceSettled(s, u, e) ==> WithinBudget(e, s, u)
  {
    SameOutboxSameRecords(s, w, u);
    assert InvoicesOnPaymentApproved in Subscribers(NameOf(e));
    assert !RecordsDone(InvoicesOnPaymentApproved, e, s.data.books);
    if x :| PaidUnder(s, u, e, x) {
      assert Done(InvoicesOnPaymentApproved, e, u.data.books);
    }
  }

  lemma OpeningSpends(replies: nat -> Reply, e: Event, s: Seen, u: Seen)
    requires e.InvoiceCreated? && !HasBilling(s.data.books, e.invoiceId) && |NewRecords(s, u)| <= Rank(NameOf(e))
    ensures |NewRecords(s, u)| <= Budget(e, s.data.books)
    ensures BillingEnsured(replies, s, u, e) ==> WithinBudget(e, s, u)
  {
    assert BillingOnInvoiceCreated in Subscribers(NameOf(e));
    assert !RecordsDone(BillingOnInvoiceCreated, e, s.data.books);
    if BillingEnsured(replies, s, u, e) {
      BillingEnsuredLasts(replies, s, u, e);
    }
  }
}
