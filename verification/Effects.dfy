/** What the successful delivery of an event does, handler by handler, and what delivering it again does: nothing. */
module Effects {
  import opened Wrappers
  import opened Entities
  import opened Storage
  import opened IdempotencyKey
  import opened Tables
  import opened Ledger
  import opened Events
  import opened Outbox

  /** What a request can observe: the data in view and the gateway calls made so far. */
  datatype Seen = Seen(data: Data, calls: seq<GatewayCall>)
  {
    function WithRow(x: string, r: OutboxRow): Seen {
      this.(data := data.(outbox := data.outbox[x := r]))
    }
  }

  function InputOf(e: Event): ChargeInput
    requires e.BillingRequested?
  {
    ChargeInput(e.billingId, e.invoiceId, e.customerId, e.amountCents, e.dueDate, e.attemptNumber)
  }

  function AnnouncementOf(e: Event): Announcement
    requires e.InvoiceCreated?
  {
    Announcement(e.invoiceId, e.customerId, e.amountCents, e.dueDate)
  }

  function RequestFor(c: ChargeInput): GatewayRequest {
    GatewayRequest(c.billingId, c.invoiceId, c.amountCents, c.dueDate)
  }

  /** The line of the call log for this attempt, answered with `reply`. */
  function CallFor(c: ChargeInput, reply: Reply): GatewayCall {
    GatewayCall(RequestFor(c), c.attemptNumber, reply)
  }

  // ---- The handlers ----

  /** The invoice becomes paid at the time the approval occurred, and one InvoicePaid record is processed under id
      `x`. */
  ghost predicate PaidUnder(s: Seen, u: Seen, e: Event, x: string)
    requires e.PaymentApproved?
  {
    && x !in s.data.outbox && x in u.data.outbox && e.invoiceId in s.data.books.invoices
    && var r := u.data.outbox[x];
       && r.event.InvoicePaid? && r.event.meta.eventId == x && r.event.invoiceId == e.invoiceId
       && r.event.meta.aggregateId == e.invoiceId && OccursAt(e.meta.occurredAt, r.event.meta.occurredAt)
       && r.emitter == InvoicesModule && r.status == RecordProcessed && r.Coherent()
       && var t := s.data.books;
          u == Seen(Data(t.(invoices := t.invoices[e.invoiceId := t.invoices[e.invoiceId].AsPaid(e.meta.occurredAt)]),
                         s.data.outbox[x := r]),
                    s.calls)
  }

  function WithPaid(s: Seen, i: string, at: Time): Seen
    requires i in s.data.books.invoices
  {
    var t := s.data.books;
    s.(data := s.data.(books := t.(invoices := t.invoices[i := t.invoices[i].AsPaid(at)])))
  }

  ghost predicate InvoiceSettled(s: Seen, u: Seen, e: Event)
    requires e.PaymentApproved?
  {
    && e.invoiceId in s.data.books.invoices
    && if s.data.books.invoices[e.invoiceId].status == PaidInvoice then u == s else exists x :: PaidUnder(s, u, e, x)
  }

  ghost predicate BillingMarked(s: Seen, u: Seen, b: string, status: BillingStatus) {
    && b in s.data.books.billings && b in u.data.books.billings
    && var t, at := s.data.books, u.data.books.billings[b].updatedAt;
       u == s.(data := s.data.(books := t.(billings := t.billings[b := t.billings[b].As(status, at)])))
  }

  /** One gateway call, and everything that follows from its reply committed at once. */
  ghost predicate SettledBy(replies: nat -> Reply, s: Seen, u: Seen, c: ChargeInput, m: Settlement) {
    && !HasAttempt(s.data.books, c.billingId, c.attemptNumber)
    && EnabledSettlement(s.data, m)
    && m.payment.billingId == c.billingId && m.payment.attemptNumber == c.attemptNumber
       && m.payment.invoiceId == c.invoiceId
    && Recorded(m.payment) == OutcomeOf(replies(|s.calls|))
    && u == Seen(ApplySettlement(s.data, m), s.calls + [CallFor(c, replies(|s.calls|))])
  }

  /** The attempt was there already, and nothing happens; or it is made now. */
  ghost predicate AttemptMade(replies: nat -> Reply, s: Seen, u: Seen, c: ChargeInput) {
    if HasAttempt(s.data.books, c.billingId, c.attemptNumber) then u == s
    else exists m :: SettledBy(replies, s, u, c, m)
  }

  /** The payment `p` is the one stored for the attempt: found, or settled now. */
  ghost predicate AttemptAnswered(replies: nat -> Reply, s: Seen, u: Seen, c: ChargeInput, p: PaymentRow) {
    && p.billingId == c.billingId && p.attemptNumber == c.attemptNumber
    && p.id in u.data.books.payments && u.data.books.payments[p.id] == p
    && if HasAttempt(s.data.books, c.billingId, c.attemptNumber) then u == s
       else exists m :: SettledBy(replies, s, u, c, m) && m.payment == p
  }

  lemma AnsweredIsMade(replies: nat -> Reply, s: Seen, u: Seen, c: ChargeInput, p: PaymentRow)
    requires AttemptAnswered(replies, s, u, c, p)
    ensures AttemptMade(replies, s, u, c)
  {
  }

  /** `e` is appended, delivered from `s`-with-its-pending-row to `v`, and then marked processed. */
  ghost predicate RecordedAround(s: Seen, s': Seen, v: Seen, u: Seen, e: Event, emitter: ModuleName) {
    var x := e.meta.eventId;
    && x !in s.data.outbox && x in s'.data.outbox && x in v.data.outbox && x in u.data.outbox
    && s'.data.outbox[x] == Appended(e, emitter, s'.data.outbox[x].recordedAt)
    && s' == s.WithRow(x, s'.data.outbox[x])
    && v.data.outbox[x] == s'.data.outbox[x]
    && u.data.outbox[x].processedAt.Some?
    && u == v.WithRow(x, v.data.outbox[x].AsProcessed(u.data.outbox[x].processedAt.value))
  }

  /** The stages of opening a billing: its row, the request event, and what is seen before and after delivering that. */
  datatype Opening = Opening(billing: BillingRow, request: Event, before: Seen, after: Seen)

  /** A billing is stored for the announced invoice and its first attempt is made. */
  ghost predicate BillingOpened(replies: nat -> Reply, s: Seen, u: Seen, e: Event, o: Opening)
    requires e.InvoiceCreated?
  {
    var r := o.billing;
    && Enabled(s.data.books, SaveNewBilling(r)) && BringsStorableRows(SaveNewBilling(r)) && r.invoiceId == e.invoiceId
    && o.request.BillingRequested? && OccursAt(r.updatedAt, o.request.meta.occurredAt)
    && InputOf(o.request) == ChargeInput(r.id, r.invoiceId, r.customerId, r.amountCents, r.dueDate, 1)
    && AttemptMade(replies, o.before, o.after, InputOf(o.request))
    && var stored := s.(data := s.data.(books := Apply(s.data.books, SaveNewBilling(r))));
       RecordedAround(stored, o.before, o.after, u, o.request, BillingModule)
  }

  ghost predicate BillingEnsured(replies: nat -> Reply, s: Seen, u: Seen, e: Event)
    requires e.InvoiceCreated?
  {
    if HasBilling(s.data.books, e.invoiceId) then u == s else exists o :: BillingOpened(replies, s, u, e, o)
  }

  /** What handler `h` does when it accepts `e`. */
  ghost predicate HandlerOk(replies: nat -> Reply, h: Subscriber, e: Event, s: Seen, u: Seen) {
    match h
    case InvoicesOnPaymentApproved => e.PaymentApproved? && InvoiceSettled(s, u, e)
    case BillingOnPaymentApproved => e.PaymentApproved? && BillingMarked(s, u, e.billingId, ApprovedBilling)
    case BillingOnPaymentFailed => e.PaymentFailed? && BillingMarked(s, u, e.billingId, FailedBilling)
    case PaymentsOnBillingRequested => e.BillingRequested? && AttemptMade(replies, s, u, InputOf(e))
    case BillingOnInvoiceCreated => e.InvoiceCreated? && BillingEnsured(replies, s, u, e)
  }

  /** All of `hs` in order. */
  ghost predicate Delivered(replies: nat -> Reply, hs: seq<Subscriber>, e: Event, s: Seen, u: Seen)
    decreases |hs|
  {
    if hs == [] then u == s
    else exists v :: Delivered(replies, Front(hs), e, s, v) && HandlerOk(replies, Last(hs), e, v, u)
  }

  /** A successful publish. */
  ghost predicate Published(replies: nat -> Reply, e: Event, emitter: ModuleName, s: Seen, u: Seen) {
    exists s', v :: RecordedAround(s, s', v, u, e, emitter) && Delivered(replies, Subscribers(NameOf(e)), e, s', v)
  }

  lemma IsPublished(replies: nat -> Reply, s: Seen, s': Seen, v: Seen, u: Seen, e: Event, emitter: ModuleName)
    requires RecordedAround(s, s', v, u, e, emitter) && Delivered(replies, Subscribers(NameOf(e)), e, s', v)
    ensures Published(replies, e, emitter, s, u)
  {
  }

  // ---- Reading the delivery of a wired event ----

  lemma DeliveredToNone(replies: nat -> Reply, hs: seq<Subscriber>, e: Event, s: Seen)
    ensures Delivered(replies, hs[..0], e, s, s)
  {
  }

  lemma DeliveredToOneMore(replies: nat -> Reply, hs: seq<Subscriber>, i: nat, e: Event, s: Seen, v: Seen, u: Seen)
    requires i < |hs| && Delivered(replies, hs[..i], e, s, v) && HandlerOk(replies, hs[i], e, v, u)
    ensures Delivered(replies, hs[..i + 1], e, s, u)
  {
    assert Front(hs[..i + 1]) == hs[..i] && Last(hs[..i + 1]) == hs[i];
  }

  lemma DeliveredToOne(replies: nat -> Reply, h: Subscriber, e: Event, s: Seen, u: Seen)
    ensures Delivered(replies, [h], e, s, u) <==> HandlerOk(replies, h, e, s, u)
  {
    assert Front([h]) == [] && Last([h]) == h;
    if HandlerOk(replies, h, e, s, u) {
      assert Delivered(replies, [], e, s, s);
    }
  }

  lemma DeliveredToTwo(replies: nat -> Reply, h: Subscriber, k: Subscriber, e: Event, s: Seen, u: Seen)
    requires Delivered(replies, [h, k], e, s, u)
    ensures exists v :: HandlerOk(replies, h, e, s, v) && HandlerOk(replies, k, e, v, u)
  {
    assert Front([h, k]) == [h] && Last([h, k]) == k;
    var v :| Delivered(replies, [h], e, s, v) && HandlerOk(replies, k, e, v, u);
    DeliveredToOne(replies, h, e, s, v);
  }

  // ---- Delivering again changes nothing ----

  lemma AttemptMadeLasts(replies: nat -> Reply, s: Seen, u: Seen, c: ChargeInput)
    requires AttemptMade(replies, s, u, c)
    ensures HasAttempt(u.data.books, c.billingId, c.attemptNumber)
  {
    if !HasAttempt(s.data.books, c.billingId, c.attemptNumber) {
      var m :| SettledBy(replies, s, u, c, m);
      assert u.data.books.payments[m.payment.id] == m.payment;
    }
  }

  lemma AttemptKeepsBillings(replies: nat -> Reply, s: Seen, u: Seen, c: ChargeInput, b: string)
    requires AttemptMade(replies, s, u, c) && b in s.data.books.billings
    ensures b in u.data.books.billings && u.data.books.billings[b].invoiceId == s.data.books.billings[b].invoiceId
  {
    if !HasAttempt(s.data.books, c.billingId, c.attemptNumber) {
      var m :| SettledBy(replies, s, u, c, m);
    }
  }

  lemma BillingEnsuredLasts(replies: nat -> Reply, s: Seen, u: Seen, e: Event)
    requires e.InvoiceCreated? && BillingEnsured(replies, s, u, e)
    ensures HasBilling(u.data.books, e.invoiceId)
  {
    if !HasBilling(s.data.books, e.invoiceId) {
      var o :| BillingOpened(replies, s, u, e, o);
      var b := o.billing.id;
      assert o.before.data.books.billings[b] == o.billing;
      AttemptKeepsBillings(replies, o.before, o.after, InputOf(o.request), b);
      assert u.data.books == o.after.data.books;
    }
  }

  /** Handler `h` has nothing left to do for `e`. */
  ghost predicate Done(h: Subscriber, e: Event, t: Books) {
    match h
    case InvoicesOnPaymentApproved =>
      e.PaymentApproved? && e.invoiceId in t.invoices && t.invoices[e.invoiceId].status == PaidInvoice
    case BillingOnPaymentApproved =>
      e.PaymentApproved? && e.billingId in t.billings && t.billings[e.billingId].status == ApprovedBilling
    case BillingOnPaymentFailed =>
      e.PaymentFailed? && e.billingId in t.billings && t.billings[e.billingId].status == FailedBilling
    case PaymentsOnBillingRequested => e.BillingRequested? && HasAttempt(t, e.billingId, e.attemptNumber)
    case BillingOnInvoiceCreated => e.InvoiceCreated? && HasBilling(t, e.invoiceId)
  }

  lemma HandlingMakesDone(replies: nat -> Reply, h: Subscriber, e: Event, s: Seen, u: Seen)
    requires HandlerOk(replies, h, e, s, u)
    ensures Done(h, e, u.data.books)
  {
    match h
    case InvoicesOnPaymentApproved =>
      if s.data.books.invoices[e.invoiceId].status != PaidInvoice {
        var x :| PaidUnder(s, u, e, x);
      }
    case BillingOnPaymentApproved =>
    case BillingOnPaymentFailed =>
    case PaymentsOnBillingRequested => AttemptMadeLasts(replies, s, u, InputOf(e));
    case BillingOnInvoiceCreated => BillingEnsuredLasts(replies, s, u, e);
  }

  /** Handling again what is done changes no invoice, billing, payment or outbox row and makes no gateway call. */
  lemma HandlingAgainIsStutter(replies: nat -> Reply, h: Subscriber, e: Event, s: Seen, u: Seen)
    requires Done(h, e, s.data.books) && HandlerOk(replies, h, e, s, u)
    ensures u == s
  {
  }

  /** Each handler keeps to its module: inside the payment transaction only the invoices module writes invoices and only
      the billing module billings, nobody writes payments; and a record is made in the name of the handler's module. */
  lemma HandlersKeepToTheirModule(replies: nat -> Reply, h: Subscriber, e: Event, s: Seen, u: Seen)
    requires HandlerOk(replies, h, e, s, u)
    ensures e.IsResult() ==>
              && (u.data.books.invoices != s.data.books.invoices ==> ModuleOf(h) == InvoicesModule)
              && (u.data.books.billings != s.data.books.billings ==> ModuleOf(h) == BillingModule)
              && u.data.books.payments == s.data.books.payments
    ensures e.PaymentApproved? ==>
              forall x :: x in u.data.outbox && x !in s.data.outbox ==> u.data.outbox[x].emitter == ModuleOf(h)
    ensures e.InvoiceCreated? && !HasBilling(s.data.books, e.invoiceId) ==>
              exists x :: x in u.data.outbox && x !in s.data.outbox && u.data.outbox[x].event.BillingRequested?
                          && u.data.outbox[x].emitter == ModuleOf(h)
  {
    hide Enabled, BringsStorableRows, Apply, AttemptMade;
    if h.InvoicesOnPaymentApproved? && s.data.books.invoices[e.invoiceId].status != PaidInvoice {
      var x :| PaidUnder(s, u, e, x);
    }
    if h.BillingOnInvoiceCreated? && !HasBilling(s.data.books, e.invoiceId) {
      var o :| BillingOpened(replies, s, u, e, o);
      assert u.data.outbox[o.request.meta.eventId].emitter == BillingModule;
    }
  }

  /** No handler undoes what another has done for the same event. */
  lemma DoneStays(replies: nat -> Reply, k: Subscriber, h: Subscriber, e: Event, s: Seen, u: Seen)
    requires HandlerOk(replies, k, e, s, u) && Done(h, e, s.data.books)
    ensures Done(h, e, u.data.books)
  {
    if h == k {
      HandlingAgainIsStutter(replies, h, e, s, u);
    } else if k.InvoicesOnPaymentApproved? && s.data.books.invoices[e.invoiceId].status != PaidInvoice {
      var x :| PaidUnder(s, u, e, x);
    }
  }

  lemma {:induction false} DeliveryMakesDone(replies: nat -> Reply, hs: seq<Subscriber>, e: Event, s: Seen, u: Seen)
    requires Delivered(replies, hs, e, s, u)
    ensures forall h :: h in hs ==> Done(h, e, u.data.books)
    decreases |hs|
  {
    hide Done, HandlerOk;
    if hs != [] {
      var v :| Delivered(replies, Front(hs), e, s, v) && HandlerOk(replies, Last(hs), e, v, u);
      hide Delivered;
      DeliveryMakesDone(replies, Front(hs), e, s, v);
      HandlingMakesDone(replies, Last(hs), e, v, u);
      forall h | h in hs ensures Done(h, e, u.data.books) {
        if h != Last(hs) {
          assert h in Front(hs);
          DoneStays(replies, Last(hs), h, e, v, u);
        }
      }
    }
  }

  lemma {:induction false} DeliveryOfDoneIsStutter(replies: nat -> Reply, hs: seq<Subscriber>, e: Event, s: Seen,
                                                   u: Seen)
    requires Delivered(replies, hs, e, s, u) && forall h :: h in hs ==> Done(h, e, s.data.books)
    ensures u == s
    decreases |hs|
  {
    if hs != [] {
      var v :| Delivered(replies, Front(hs), e, s, v) && HandlerOk(replies, Last(hs), e, v, u);
      DeliveryOfDoneIsStutter(replies, Front(hs), e, s, v);
      HandlingAgainIsStutter(replies, Last(hs), e, v, u);
    }
  }

  /** For every event and every list of handlers: a second complete delivery right after a first one changes no invoice,
      billing, payment or outbox row and makes no gateway call. */
  lemma RedeliveryIsStutter(replies: nat -> Reply, hs: seq<Subscriber>, e: Event, s: Seen, u: Seen, v: Seen)
    requires Delivered(replies, hs, e, s, u) && Delivered(replies, hs, e, u, v)
    ensures v == u
  {
    DeliveryMakesDone(replies, hs, e, s, u);
    DeliveryOfDoneIsStutter(replies, hs, e, u, v);
  }

  // ---- New outbox rows ----

  ghost function NewRecords(s: Seen, u: Seen): set<string> {
    set x | x in u.data.outbox && x !in s.data.outbox
  }

  lemma SameOutboxNoRecords(s: Seen, u: Seen)
    requires u.data.outbox == s.data.outbox
    ensures NewRecords(s, u) == {}
  {
  }

  lemma SameOutboxSameRecords(s: Seen, t: Seen, u: Seen)
    requires s.data.outbox == t.data.outbox
    ensures NewRecords(s, u) == NewRecords(t, u)
  {
  }

  lemma SameIdsNoRecords(s: Seen, v: Seen, u: Seen)
    requires u.data.outbox.Keys == v.data.outbox.Keys
    ensures NewRecords(s, u) == NewRecords(s, v)
  {
  }

  lemma NewRecordsAdd(s: Seen, u: Seen, v: Seen)
    ensures |NewRecords(s, v)| <= |NewRecords(s, u)| + |NewRecords(u, v)|
  {
    var both := NewRecords(s, u) + NewRecords(u, v);
    Subsets(NewRecords(s, v), both);
    assert both == NewRecords(s, u) + (NewRecords(u, v) - NewRecords(s, u));
    Subsets(NewRecords(u, v) - NewRecords(s, u), NewRecords(u, v));
  }

  lemma Subsets(x: set<string>, y: set<string>)
    requires x <= y
    ensures |x| <= |y|
  {
    assert y == x + (y - x);
  }

  /** How many records the events that `e` sets off can still add. */
  ghost function Budget(e: Event, t: Books): (n: nat)
    ensures n <= Rank(NameOf(e))
  {
    if forall h :: h in Subscribers(NameOf(e)) ==> RecordsDone(h, e, t) then 0 else Rank(NameOf(e))
  }

  /** Handler `h` publishes nothing any more for `e`. */
  ghost predicate RecordsDone(h: Subscriber, e: Event, t: Books) {
    h.BillingOnPaymentApproved? || h.BillingOnPaymentFailed? || Done(h, e, t)
  }

  /** What was added was taken from the budget. */
  ghost predicate WithinBudget(e: Event, s: Seen, u: Seen) {
    |NewRecords(s, u)| + Budget(e, u.data.books) <= Budget(e, s.data.books)
  }

  /** The event's own record comes on top of what its delivery adds. */
  lemma RecordSpent(e: Event, s: Seen, s': Seen, v: Seen)
    requires e.meta.eventId !in s.data.outbox && e.meta.eventId in s'.data.outbox
    requires s' == s.WithRow(e.meta.eventId, s'.data.outbox[e.meta.eventId])
    requires |NewRecords(s', v)| <= Budget(e, s'.data.books)
    ensures |NewRecords(s, v)| <= Rank(NameOf(e)) + 1
  {
    NewRecordsAdd(s, s', v);
    assert NewRecords(s, s') == {e.meta.eventId};
  }

  lemma NothingSpent(e: Event, s: Seen, u: Seen)
    requires u.data.books == s.data.books && u.data.outbox == s.data.outbox
    ensures WithinBudget(e, s, u)
  {
    SameOutboxNoRecords(s, u);
  }

  lemma BudgetHolds(e: Event, s: Seen, u: Seen)
    requires WithinBudget(e, s, u)
    ensures |NewRecords(s, u)| <= Budget(e, s.data.books)
  {
  }

  lemma SpentTogether(e: Event, s: Seen, u: Seen, v: Seen)
    requires WithinBudget(e, s, u)
    ensures |NewRecords(u, v)| <= Budget(e, u.data.books) ==> |NewRecords(s, v)| <= Budget(e, s.data.books)
    ensures WithinBudget(e, u, v) ==> WithinBudget(e, s, v)
  {
    NewRecordsAdd(s, u, v);
  }

  // ---- Deliveries touch no earlier outbox row ----

  ghost predicate KeepsRows(s: Seen, u: Seen) {
    forall x :: x in s.data.outbox ==> x in u.data.outbox && u.data.outbox[x] == s.data.outbox[x]
  }

  lemma DeliveryKeepsRow(replies: nat -> Reply, hs: seq<Subscriber>, e: Event, s: Seen, u: Seen, x: string)
    requires Delivered(replies, hs, e, s, u) && x in s.data.outbox
    ensures x in u.data.outbox && u.data.outbox[x] == s.data.outbox[x]
  {
    DeliveryKeepsRows(replies, hs, e, s, u);
  }

  lemma AttemptKeepsRows(replies: nat -> Reply, s: Seen, u: Seen, c: ChargeInput)
    requires AttemptMade(replies, s, u, c)
    ensures KeepsRows(s, u)
  {
    if !HasAttempt(s.data.books, c.billingId, c.attemptNumber) {
      var m :| SettledBy(replies, s, u, c, m);
      SettlementKeepsRows(replies, s, u, c, m);
    }
  }

  lemma SettlementKeepsRows(replies: nat -> Reply, s: Seen, u: Seen, c: ChargeInput, m: Settlement)
    requires SettledBy(replies, s, u, c, m)
    ensures KeepsRows(s, u)
  {
    hide Enabled, BringsStorableRows, Reports, Apply, HasAttempt;
    assert u.data.outbox == WithResults(s.data.outbox, m);
  }

  lemma HandlerKeepsRows(replies: nat -> Reply, h: Subscriber, e: Event, s: Seen, u: Seen)
    requires HandlerOk(replies, h, e, s, u)
    ensures KeepsRows(s, u)
  {
    hide AttemptMade, HasBilling, Enabled, BringsStorableRows, Apply;
    match h
    case InvoicesOnPaymentApproved =>
      if s.data.books.invoices[e.invoiceId].status != PaidInvoice {
        var x :| PaidUnder(s, u, e, x);
      }
    case BillingOnPaymentApproved =>
    case BillingOnPaymentFailed =>
    case PaymentsOnBillingRequested => AttemptKeepsRows(replies, s, u, InputOf(e));
    case BillingOnInvoiceCreated =>
      if !HasBilling(s.data.books, e.invoiceId) {
        var o :| BillingOpened(replies, s, u, e, o);
        AttemptKeepsRows(replies, o.before, o.after, InputOf(o.request));
      }
  }

  lemma {:induction false} DeliveryKeepsRows(replies: nat -> Reply, hs: seq<Subscriber>, e: Event, s: Seen, u: Seen)
    requires Delivered(replies, hs, e, s, u)
    ensures KeepsRows(s, u)
    decreases |hs|
  {
    if hs != [] {
      var v :| Delivered(replies, Front(hs), e, s, v) && HandlerOk(replies, Last(hs), e, v, u);
      DeliveryKeepsRows(replies, Front(hs), e, s, v);
      HandlerKeepsRows(replies, Last(hs), e, v, u);
    }
  }

  // ---- What requests keep, and what they leave alone ----

  /** The call was made for a stored billing, for its invoice, amount and due date. */
  predicate CallFits(t: Books, c: GatewayCall) {
    && c.request.billingId in t.billings
    && var b := t.billings[c.request.billingId];
       c.request.invoiceId == b.invoiceId && c.request.amountCents == b.amountCents && c.request.dueDate == b.dueDate
  }

  predicate IsFor(c: GatewayCall, billingId: string, attemptNumber: int) {
    c.request.billingId == billingId && c.attemptNumber == attemptNumber
  }

  /** Call number `k` is the last one for the payment's attempt, and its reply is what the payment records. */
  ghost predicate AnsweredBy(calls: seq<GatewayCall>, p: PaymentRow, k: nat) {
    && k < |calls| && IsFor(calls[k], p.billingId, p.attemptNumber)
    && Recorded(p) == OutcomeOf(calls[k].reply)
    && forall j :: k < j < |calls| ==> !IsFor(calls[j], p.billingId, p.attemptNumber)
  }

  ghost predicate Answered(calls: seq<GatewayCall>, p: PaymentRow) {
    exists k: nat :: AnsweredBy(calls, p, k)
  }

  /** Every payment records the reply of the last call made for its attempt. */
  ghost predicate Backed(s: Seen) {
    forall p :: p in s.data.books.payments ==> Answered(s.calls, s.data.books.payments[p])
  }

  /** How many calls have no payment to show for it, because it was rolled back. */
  function Wasted(s: Seen): int {
    |s.calls| - |s.data.books.payments|
  }

  ghost predicate CallsKept(s: Seen) {
    Backed(s) && 0 <= Wasted(s) && forall k :: 0 <= k < |s.calls| ==> CallFits(s.data.books, s.calls[k])
  }

  /** Calls are only added, none of them for an attempt that was stored already. */
  ghost predicate CallsGrow(s: Seen, u: Seen) {
    && s.calls <= u.calls && Wasted(s) <= Wasted(u)
    && forall k :: |s.calls| <= k < |u.calls| ==>
                     !HasAttempt(s.data.books, u.calls[k].request.billingId, u.calls[k].attemptNumber)
  }

  /** Different payments record the replies of different calls, and each of exactly one. */
  lemma CallsMatchPayments(s: Seen, p: string, k: nat, q: string, l: nat)
    requires SeenInv(s) && p in s.data.books.payments && q in s.data.books.payments
    requires AnsweredBy(s.calls, s.data.books.payments[p], k) && AnsweredBy(s.calls, s.data.books.payments[q], l)
    ensures p == q <==> k == l
  {
    hide OutboxInv, RowsKept;
    LastCallIsUnique(s.calls, s.data.books.payments[p], k, l);
  }

  lemma PaymentIsAnswered(s: Seen, p: string)
    requires SeenInv(s) && p in s.data.books.payments
    ensures Answered(s.calls, s.data.books.payments[p])
  {
  }

  lemma LastCallIsUnique(calls: seq<GatewayCall>, p: PaymentRow, k: nat, l: nat)
    requires AnsweredBy(calls, p, k)
    ensures AnsweredBy(calls, p, l) ==> k == l
  {
  }

  ghost predicate SeenInv(s: Seen) {
    DataInv(s.data) && CallsKept(s)
  }

  /** Rows of other invoices are as they were. */
  ghost predicate OnlyInvoice(t: Books, u: Books, i: string) {
    && (forall j :: j in u.invoices && j != i ==> j in t.invoices && u.invoices[j] == t.invoices[j])
    && (forall b :: b in u.billings && u.billings[b].invoiceId != i ==>
                      b in t.billings && u.billings[b] == t.billings[b])
    && (forall p :: p in u.payments && u.payments[p].invoiceId != i ==>
                      p in t.payments && u.payments[p] == t.payments[p])
  }

  /** The books go forward, for one invoice only; earlier outbox rows stay as they are; new calls are for the invoice,
      and none for a stored attempt. */
  ghost predicate Progress(s: Seen, u: Seen, i: string) {
    && OnlyForward(s.data.books, u.data.books) && OnlyInvoice(s.data.books, u.data.books, i)
    && KeepsRows(s, u) && CallsGrow(s, u)
    && forall k :: |s.calls| <= k < |u.calls| ==> u.calls[k].request.invoiceId == i
  }

  lemma NoProgress(s: Seen, i: string)
    ensures Progress(s, s, i)
  {
  }

  lemma NothingSeen()
    ensures SeenInv(Seen(NO_DATA, []))
  {
    hide DataInv;
    StartsWithNothing();
    assert |EMPTY_BOOKS.payments| == 0;
  }

  lemma ForwardReflexive(s: Seen)
    ensures OnlyForward(s.data.books, s.data.books) && KeepsRows(s, s) && CallsGrow(s, s)
  {
  }

  lemma ForwardAfter(s: Seen, u: Seen, v: Seen, i: string)
    requires OnlyForward(s.data.books, u.data.books) && KeepsRows(s, u) && CallsGrow(s, u) && Progress(u, v, i)
    ensures OnlyForward(s.data.books, v.data.books) && KeepsRows(s, v) && CallsGrow(s, v)
  {
    ForwardTransitive(s.data.books, u.data.books, v.data.books);
    CallsGrowTransitive(s, u, v);
  }

  lemma CallsGrowTransitive(s: Seen, u: Seen, v: Seen)
    requires OnlyForward(s.data.books, u.data.books) && CallsGrow(s, u) && CallsGrow(u, v)
    ensures CallsGrow(s, v)
  {
    forall k | |s.calls| <= k < |v.calls|
      ensures !HasAttempt(s.data.books, v.calls[k].request.billingId, v.calls[k].attemptNumber)
    {
      if k < |u.calls| {
        assert v.calls[k] == u.calls[k];
      } else if HasAttempt(s.data.books, v.calls[k].request.billingId, v.calls[k].attemptNumber) {
        AttemptsStay(s.data.books, u.data.books, v.calls[k].request.billingId, v.calls[k].attemptNumber);
      }
    }
  }

  lemma ProgressIsForward(s: Seen, u: Seen, i: string)
    requires Progress(s, u, i)
    ensures OnlyForward(s.data.books, u.data.books)
  {
  }

  lemma ProgressKeepsRow(s: Seen, u: Seen, i: string, x: string)
    requires Progress(s, u, i) && x in s.data.outbox
    ensures x in u.data.outbox && u.data.outbox[x] == s.data.outbox[x]
  {
  }

  lemma ProgressTransitive(s: Seen, u: Seen, v: Seen, i: string)
    requires Progress(s, u, i) && Progress(u, v, i)
    ensures Progress(s, v, i)
  {
    ForwardTransitive(s.data.books, u.data.books, v.data.books);
    CallsGrowTransitive(s, u, v);
    hide CallsGrow, OnlyForward;
  }

  /** Going forward keeps the calls if the new ones are for their billings and every payment still has its answer. */
  lemma CallsStay(s: Seen, u: Seen)
    requires CallsKept(s) && OnlyForward(s.data.books, u.data.books) && s.calls <= u.calls
    requires Backed(u) && 0 <= Wasted(u)
    requires forall k :: |s.calls| <= k < |u.calls| ==> CallFits(u.data.books, u.calls[k])
    ensures CallsKept(u)
  {
    hide Backed;
    forall k | 0 <= k < |u.calls| ensures CallFits(u.data.books, u.calls[k]) {
      if k < |s.calls| {
        assert CallFits(s.data.books, s.calls[k]);
        assert BillingForward(s.data.books.billings[s.calls[k].request.billingId],
                              u.data.books.billings[s.calls[k].request.billingId]);
      }
    }
  }

  /** A call for an attempt that is not stored takes nobody's answer away. */
  lemma AnswersStay(s: Seen, c: GatewayCall, p: string)
    requires Backed(s) && !HasAttempt(s.data.books, c.request.billingId, c.attemptNumber) && p in s.data.books.payments
    ensures Answered(s.calls + [c], s.data.books.payments[p])
  {
    var r := s.data.books.payments[p];
    var k: nat :| AnsweredBy(s.calls, r, k);
    assert !IsFor(c, r.billingId, r.attemptNumber);
    assert AnsweredBy(s.calls + [c], r, k);
  }

  /** A settled payment is answered by the call that settled it. */
  lemma SettlementAnswers(replies: nat -> Reply, s: Seen, u: Seen, c: ChargeInput, m: Settlement)
    requires Backed(s) && SettledBy(replies, s, u, c, m)
    ensures Backed(u)
  {
    hide EnabledSettlement;
    var call := CallFor(c, replies(|s.calls|));
    forall p | p in u.data.books.payments ensures Answered(u.calls, u.data.books.payments[p]) {
      if p == m.payment.id {
        assert AnsweredBy(u.calls, m.payment, |s.calls|);
      } else {
        AnswersStay(s, call, p);
      }
    }
  }

  lemma SettlementTouchesOneInvoice(t: Books, p: PaymentRow, billedAt: Time, paidAt: Time)
    requires Enabled(t, Settle(p, billedAt, paidAt))
    ensures var u := Apply(t, Settle(p, billedAt, paidAt));
            && OnlyInvoice(t, u, p.invoiceId) && |u.payments| == |t.payments| + 1
            && p.billingId in u.billings
            && var b, b' := t.billings[p.billingId], u.billings[p.billingId];
               b'.invoiceId == b.invoiceId && b'.amountCents == b.amountCents && b'.dueDate == b.dueDate
  {
    var u := Apply(t, Settle(p, billedAt, paidAt));
    assert u.payments.Keys == t.payments.Keys + {p.id};
    assert |u.payments| == |u.payments.Keys| && |t.payments| == |t.payments.Keys|;
  }

  lemma SettlementKeepsCalls(replies: nat -> Reply, s: Seen, u: Seen, c: ChargeInput, m: Settlement)
    requires CallsKept(s) && InputOk(s.data.books, c) && SettledBy(replies, s, u, c, m)
    requires OnlyForward(s.data.books, u.data.books)
    ensures CallsKept(u) && CallsGrow(s, u)
    ensures forall k :: |s.calls| <= k < |u.calls| ==> u.calls[k].request.invoiceId == c.invoiceId
  {
    hide OnlyForward, OnlyInvoice, StorablePayment, Reports;
    var call := CallFor(c, replies(|s.calls|));
    SettlementTouchesOneInvoice(s.data.books, m.payment, m.billedAt, m.paidAt);
    SettlementAnswers(replies, s, u, c, m);
    assert u.calls == s.calls + [call] && CallFits(u.data.books, call);
    hide Backed;
    CallsStay(s, u);
  }

  lemma SettlementProgress(replies: nat -> Reply, s: Seen, u: Seen, c: ChargeInput, m: Settlement)
    requires CallsKept(s) && InputOk(s.data.books, c) && SettledBy(replies, s, u, c, m)
    requires OnlyForward(s.data.books, u.data.books)
    ensures CallsKept(u) && Progress(s, u, c.invoiceId)
  {
    hide OnlyForward, OnlyInvoice, CallsKept, CallsGrow, KeepsRows, InputOk, StorablePayment, Reports, HasAttempt;
    SettlementTouchesOneInvoice(s.data.books, m.payment, m.billedAt, m.paidAt);
    AttemptKeepsRows(replies, s, u, c);
    SettlementKeepsCalls(replies, s, u, c, m);
  }

  lemma SettlementKeepsSeen(replies: nat -> Reply, s: Seen, u: Seen, c: ChargeInput, m: Settlement)
    requires SeenInv(s) && InputOk(s.data.books, c) && SettledBy(replies, s, u, c, m)
    ensures SeenInv(u) && Progress(s, u, c.invoiceId)
  {
    CommitGoesForward(s.data.books, m.Commit());
    SettlementProgress(replies, s, u, c, m);
    SettlementKeepsData(s.data, m);
  }

  lemma AttemptKeepsSeen(replies: nat -> Reply, s: Seen, u: Seen, c: ChargeInput)
    requires SeenInv(s) && InputOk(s.data.books, c) && AttemptMade(replies, s, u, c)
    ensures SeenInv(u) && Progress(s, u, c.invoiceId)
  {
    if !HasAttempt(s.data.books, c.billingId, c.attemptNumber) {
      var m :| SettledBy(replies, s, u, c, m);
      SettlementKeepsSeen(replies, s, u, c, m);
    } else {
      NoProgress(s, c.invoiceId);
    }
  }

  // ---- From publishing an event to what its handler has done ----

  lemma PaidPublished(replies: nat -> Reply, s: Seen, w: Seen, u: Seen, e: Event, q: Event)
    requires e.PaymentApproved? && q.InvoicePaid? && q.invoiceId == e.invoiceId && e.invoiceId in s.data.books.invoices
    requires s.data.books.invoices[e.invoiceId].status != PaidInvoice
    requires var t := s.data.books;
             w == WithPaid(s, e.invoiceId, e.meta.occurredAt)
    requires Published(replies, q, InvoicesModule, w, u)
    requires q.meta.aggregateId == q.invoiceId && OccursAt(e.meta.occurredAt, q.meta.occurredAt)
    ensures InvoiceSettled(s, u, e)
  {
    var s', v :| RecordedAround(w, s', v, u, q, InvoicesModule) && Delivered(replies, Subscribers(NameOf(q)), q, s', v);
    assert PaidUnder(s, u, e, q.meta.eventId);
  }

  lemma AlreadySettled(s: Seen, e: Event)
    requires e.PaymentApproved? && e.invoiceId in s.data.books.invoices
    ensures s.data.books.invoices[e.invoiceId].status == PaidInvoice ==> InvoiceSettled(s, s, e)
  {
  }

  lemma BillingPublished(replies: nat -> Reply, s: Seen, u: Seen, e: Event, r: BillingRow, q: Event)
    requires e.InvoiceCreated? && !HasBilling(s.data.books, e.invoiceId) && r.invoiceId == e.invoiceId
    requires Enabled(s.data.books, SaveNewBilling(r)) && BringsStorableRows(SaveNewBilling(r))
    requires q.BillingRequested? && OccursAt(r.updatedAt, q.meta.occurredAt)
    requires InputOf(q) == ChargeInput(r.id, r.invoiceId, r.customerId, r.amountCents, r.dueDate, 1)
    requires var stored := s.(data := s.data.(books := Apply(s.data.books, SaveNewBilling(r))));
             Published(replies, q, BillingModule, stored, u)
    ensures BillingEnsured(replies, s, u, e)
  {
    var w := s.(data := s.data.(books := Apply(s.data.books, SaveNewBilling(r))));
    var s', v :| RecordedAround(w, s', v, u, q, BillingModule) && Delivered(replies, Subscribers(NameOf(q)), q, s', v);
    DeliveredToOne(replies, PaymentsOnBillingRequested, q, s', v);
    assert BillingOpened(replies, s, u, e, Opening(r, q, s', v));
  }

  // ---- From publishing a result to the whole settlement ----

  /** `s` with the settled payment row and the gateway call that settled it. */
  function Charged(replies: nat -> Reply, s: Seen, p: PaymentRow, c: ChargeInput): Seen {
    Seen(s.data.(books := s.data.books.(payments := s.data.books.payments[p.id := p])),
         s.calls + [CallFor(c, replies(|s.calls|))])
  }

  ghost predicate CanSettle(s: Seen, p: PaymentRow, c: ChargeInput) {
    && LedgerInv(s.data.books) && InputOk(s.data.books, c)
    && !HasAttempt(s.data.books, c.billingId, c.attemptNumber) && p.id !in s.data.books.payments
    && p.billingId == c.billingId && p.invoiceId == c.invoiceId && p.attemptNumber == c.attemptNumber
    && p.idempotencyKey == BuildIdempotencyKey(p.billingId, p.attemptNumber)
    && StorablePayment(p) && p.status != PendingPayment
  }

  lemma SettledIsAnswered(replies: nat -> Reply, s: Seen, u: Seen, c: ChargeInput, p: PaymentRow, m: Settlement)
    requires CanSettle(s, p, c) && Recorded(p) == OutcomeOf(replies(|s.calls|)) && m.payment == p
    requires EnabledSettlement(s.data, m)
    requires u.data.books == Apply(s.data.books, m.Commit()) && u.data.outbox == WithResults(s.data.outbox, m)
    requires u.calls == s.calls + [CallFor(c, replies(|s.calls|))]
    ensures AttemptAnswered(replies, s, u, c, p)
  {
    hide LedgerInv, StorablePayment, InputOk;
    assert SettledBy(replies, s, u, c, m);
    assert u.data.books.payments[p.id] == p;
  }

  lemma CanSettleEnables(s: Seen, p: PaymentRow, c: ChargeInput, m: Settlement)
    requires CanSettle(s, p, c) && m.payment == p
    requires m.ResultId() !in s.data.outbox && Reports(m.result.event, p) && m.result.status == RecordProcessed
             && m.result.Coherent() && m.result.event.customerId == c.customerId
    requires m.paid.Some? <==> p.status == ApprovedPayment
    requires p.status == ApprovedPayment ==> OccursAt(p.updatedAt, m.paidAt)
    requires m.paid.Some? ==>
               var r := m.paid.value;
               && r.event.InvoicePaid? && r.event.invoiceId == p.invoiceId && r.event.meta.eventId !in s.data.outbox
               && r.event.meta.eventId != m.ResultId() && r.status == RecordProcessed && r.Coherent()
               && r.event.meta.aggregateId == r.event.invoiceId && OccursAt(m.paidAt, r.event.meta.occurredAt)
    ensures EnabledSettlement(s.data, m)
  {
    hide GapFree, PaymentsKept, OnePaymentPerAttempt, StorablePayment, HasAttempt, BuildIdempotencyKey, Reports;
  }

  /** What is left when the record around a delivery has been processed. */
  lemma RecordIsProcessed(s: Seen, s': Seen, v: Seen, u: Seen, e: Event, emitter: ModuleName)
    requires RecordedAround(s, s', v, u, e, emitter)
    ensures s'.data.books == s.data.books && s'.calls == s.calls && u.data.books == v.data.books && u.calls == v.calls
    ensures var x := e.meta.eventId;
            && x !in s.data.outbox && x in u.data.outbox && x in s'.data.outbox
            && u.data.outbox[x].event == e && u.data.outbox[x].status == RecordProcessed && u.data.outbox[x].Coherent()
            && s'.data.outbox == s.data.outbox[x := s'.data.outbox[x]]
               && u.data.outbox == v.data.outbox[x := u.data.outbox[x]]
  {
  }

  lemma FailedPublished(replies: nat -> Reply, s: Seen, u: Seen, e: Event, c: ChargeInput, p: PaymentRow)
    requires CanSettle(s, p, c) && p.status == FailedPayment && Recorded(p) == OutcomeOf(replies(|s.calls|))
    requires e.PaymentFailed? && Reports(e, p) && Published(replies, e, PaymentsModule, Charged(replies, s, p, c), u)
    requires e.customerId == c.customerId
    ensures AttemptAnswered(replies, s, u, c, p)
  {
    hide CanSettle, RecordedAround, Delivered;
    var s', v :| RecordedAround(Charged(replies, s, p, c), s', v, u, e, PaymentsModule)
                 && Delivered(replies, Subscribers(NameOf(e)), e, s', v);
    RecordIsProcessed(Charged(replies, s, p, c), s', v, u, e, PaymentsModule);
    DeliveredToOne(replies, BillingOnPaymentFailed, e, s', v);
    assert BillingMarked(s', v, p.billingId, FailedBilling);
    var m := Settlement(p, v.data.books.billings[p.billingId].updatedAt, ZERO_TIME, u.data.outbox[e.meta.eventId],
                        None);
    CanSettleEnables(s, p, c, m);
    hide Reports, HandlerOk;
    assert u.data.books == Apply(s.data.books, m.Commit());
    assert u.data.outbox == WithResults(s.data.outbox, m);
    SettledIsAnswered(replies, s, u, c, p, m);
  }

  /** Delivering an approval of an unpaid invoice pays it, records that, and approves the billing. */
  lemma ApprovalDelivered(replies: nat -> Reply, s: Seen, u: Seen, e: Event) returns (x: string)
    requires e.PaymentApproved? && Delivered(replies, Subscribers(NameOf(e)), e, s, u)
    requires e.invoiceId in s.data.books.invoices && s.data.books.invoices[e.invoiceId].status != PaidInvoice
    ensures x !in s.data.outbox && x in u.data.outbox
    ensures var r := u.data.outbox[x];
            && r.event.InvoicePaid? && r.event.meta.eventId == x && r.event.invoiceId == e.invoiceId
            && r.status == RecordProcessed && r.Coherent()
            && r.event.meta.aggregateId == e.invoiceId && OccursAt(e.meta.occurredAt, r.event.meta.occurredAt)
    ensures e.billingId in s.data.books.billings && e.billingId in u.data.books.billings
    ensures var t, b := s.data.books, s.data.books.billings[e.billingId];
            var paid := t.invoices[e.invoiceId].AsPaid(e.meta.occurredAt);
            var approved := b.As(ApprovedBilling, u.data.books.billings[e.billingId].updatedAt);
            u == Seen(Data(t.(invoices := t.invoices[e.invoiceId := paid],
                              billings := t.billings[e.billingId := approved]),
                           s.data.outbox[x := u.data.outbox[x]]),
                      s.calls)
  {
    DeliveredToTwo(replies, InvoicesOnPaymentApproved, BillingOnPaymentApproved, e, s, u);
    var v :| HandlerOk(replies, InvoicesOnPaymentApproved, e, s, v)
             && HandlerOk(replies, BillingOnPaymentApproved, e, v, u);
    x :| PaidUnder(s, v, e, x);
    assert BillingMarked(v, u, e.billingId, ApprovedBilling);
  }

  lemma ApprovedPublished(replies: nat -> Reply, s: Seen, u: Seen, e: Event, c: ChargeInput, p: PaymentRow)
    requires CanSettle(s, p, c) && p.status == ApprovedPayment && Recorded(p) == OutcomeOf(replies(|s.calls|))
    requires e.PaymentApproved? && Reports(e, p) && Published(replies, e, PaymentsModule, Charged(replies, s, p, c), u)
    requires e.customerId == c.customerId
    ensures AttemptAnswered(replies, s, u, c, p)
  {
    hide CanSettle, RecordedAround, Delivered, Enabled;
    WaitingMeansUnpaid(s, p, c);
    var s', v :| RecordedAround(Charged(replies, s, p, c), s', v, u, e, PaymentsModule)
                 && Delivered(replies, Subscribers(NameOf(e)), e, s', v);
    RecordIsProcessed(Charged(replies, s, p, c), s', v, u, e, PaymentsModule);
    var x := ApprovalDelivered(replies, s', v, e);
    var m := Settlement(p, v.data.books.billings[p.billingId].updatedAt, e.meta.occurredAt,
                        u.data.outbox[e.meta.eventId], Some(u.data.outbox[x]));
    CanSettleEnables(s, p, c, m);
    hide Reports;
    assert u.data.books == Apply(s.data.books, m.Commit());
    assert u.data.outbox == WithResults(s.data.outbox, m);
    SettledIsAnswered(replies, s, u, c, p, m);
  }

  lemma WaitingMeansUnpaid(s: Seen, p: PaymentRow, c: ChargeInput)
    requires CanSettle(s, p, c)
    ensures p.billingId in s.data.books.billings
    ensures p.invoiceId in s.data.books.invoices && s.data.books.invoices[p.invoiceId].status != PaidInvoice
  {
  }

  /** A call whose payment was rolled back leaves everything else right. */
  lemma CallAloneKeepsSeen(s: Seen, u: Seen, c: ChargeInput, reply: Reply)
    requires SeenInv(s) && InputOk(s.data.books, c) && u.data == s.data
    requires u.calls == s.calls || u.calls == s.calls + [CallFor(c, reply)]
    requires HasAttempt(s.data.books, c.billingId, c.attemptNumber) ==> u.calls == s.calls
    ensures SeenInv(u) && Progress(s, u, c.invoiceId)
  {
    hide DataInv, InputOk, CallsKept, CallsGrow, OnlyForward, OnlyInvoice, KeepsRows, HasAttempt, CallFor;
    NoProgress(s, c.invoiceId);
    if u.calls != s.calls {
      CallAloneKeepsCalls(s, u, c, reply);
      SameRows(s, u);
    }
  }

  lemma SameRows(s: Seen, u: Seen)
    requires u.data == s.data
    ensures KeepsRows(s, u)
  {
  }

  lemma CallAloneKeepsCalls(s: Seen, u: Seen, c: ChargeInput, reply: Reply)
    requires CallsKept(s) && InputOk(s.data.books, c) && !HasAttempt(s.data.books, c.billingId, c.attemptNumber)
    requires u.data == s.data && u.calls == s.calls + [CallFor(c, reply)]
    ensures CallsKept(u) && CallsGrow(s, u)
    ensures forall k :: |s.calls| <= k < |u.calls| ==> u.calls[k].request.invoiceId == c.invoiceId
  {
    assert CallFits(s.data.books, CallFor(c, reply));
    forall p | p in u.data.books.payments ensures Answered(u.calls, u.data.books.payments[p]) {
      AnswersStay(s, CallFor(c, reply), p);
    }
  }

  /** One request at a time never meets an approved payment of an invoice it is about to charge: the rejection of a
      second approval cannot happen. */
  lemma NeverRejected(t: Books, c: ChargeInput)
    requires LedgerInv(t) && InputOk(t, c) && !HasAttempt(t, c.billingId, c.attemptNumber)
    ensures !HasApproved(t, c.invoiceId)
  {
    ModulesAgree(t, c.invoiceId);
    assert t.billings[c.billingId].status == RequestedBilling;
  }

  /** A payment made for a missing attempt collides with nothing but perhaps its id. */
  lemma NewPaymentCollides(t: Books, p: PaymentRow)
    requires KeysMatch(t) && p.status == PendingPayment && !HasAttempt(t, p.billingId, p.attemptNumber)
    requires p.idempotencyKey == BuildIdempotencyKey(p.billingId, p.attemptNumber)
    ensures PaymentCollides(t, p) <==> p.id in t.payments
  {
    IndexesAgree(t, p.billingId, p.attemptNumber);
  }
}
