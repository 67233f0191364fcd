/** Any number of create-invoice and retry requests running at once against the shared tables.

One action is one statement of one request under READ COMMITTED: a statement sees the books committed when it
starts plus its own transaction's writes. A payment transaction keeps its writes to itself until it commits. An
insert waits for open transactions holding the same unique key, an update or a locking read waits for open
transactions that have written or locked the row; waiting is an action that is not possible yet. Any open
transaction may roll back at any point, which covers every fault. */
module Concurrency {
  import opened Wrappers
  import opened Text
  import opened Entities
  import opened Storage
  import opened IdempotencyKey
  import opened Tables
  import opened Ledger
  import opened Accounts

  // ---- Requests ----

  /** Where a payment transaction that has inserted its row stands. */
  datatype Point =
    | Reserved                       // pending row inserted, gateway not called yet
    | Settled                        // row updated with the gateway's reply; (re)delivery of the result event begins
    | SawInvoice(seenInvoice: InvoiceRow)    // the invoices handler has read the invoice
    | InvoiceDone                    // the invoices handler has finished
    | SawBilling(seenBilling: BillingRow)    // the billing handler has read the billing
    | BillingDone                    // the billing handler has finished

  /** An open payment transaction and its uncommitted writes. */
  datatype Tx = Tx(charge: ChargeInput, payment: PaymentRow, invoice: Option<InvoiceRow>, billing: Option<BillingRow>)

  datatype Stage =
    | Idle
    | Announcing(event: Announcement)          // before looking for a billing of the invoice
    | Billable(event: Announcement)             // no billing found; about to insert one
    | Locked(billingId: string, seen: BillingRow) // a retry holds the row lock it read the billing under
    | Ready(charge: ChargeInput)                    // before the payment transaction
    | Opened(charge: ChargeInput)                   // transaction open, nothing read
    | Missing(charge: ChargeInput)                  // the attempt was not there
    | Unapproved(charge: ChargeInput)               // neither was an approved payment of the invoice
    | Paying(tx: Tx, at: Point)
    | Done(charge: ChargeInput)

  datatype State = State(books: Books, procs: map<nat, Stage>)

  const START := State(EMPTY_BOOKS, map[])

  function StageOf(s: State, i: nat): Stage {
    if i in s.procs then s.procs[i] else Idle
  }

  function To(s: State, i: nat, stage: Stage): State {
    s.(procs := s.procs[i := stage])
  }

  // ---- What a transaction sees and locks ----

  function SeenInvoice(t: Books, tx: Tx): InvoiceRow
    requires tx.charge.invoiceId in t.invoices
  {
    if tx.invoice.Some? then tx.invoice.value else t.invoices[tx.charge.invoiceId]
  }

  function SeenBilling(t: Books, tx: Tx): BillingRow
    requires tx.charge.billingId in t.billings
  {
    if tx.billing.Some? then tx.billing.value else t.billings[tx.charge.billingId]
  }

  predicate HoldsBilling(st: Stage, b: string) {
    || (st.Locked? && st.billingId == b)
    || (st.Paying? && st.tx.charge.billingId == b && st.tx.billing.Some?)
  }

  predicate HoldsInvoice(st: Stage, i: string) {
    st.Paying? && st.tx.charge.invoiceId == i && st.tx.invoice.Some?
  }

  ghost predicate BillingFree(s: State, i: nat, b: string) {
    forall j :: j in s.procs && j != i ==> !HoldsBilling(s.procs[j], b)
  }

  ghost predicate InvoiceFree(s: State, i: nat, inv: string) {
    forall j :: j in s.procs && j != i ==> !HoldsInvoice(s.procs[j], inv)
  }

  /** An uncommitted row with a key that `p` also has makes an insert of `p` wait. */
  predicate SharesKey(st: Stage, p: PaymentRow) {
    st.Paying? && (st.tx.payment.id == p.id
                   || (st.tx.payment.billingId == p.billingId && st.tx.payment.attemptNumber == p.attemptNumber)
                   || st.tx.payment.idempotencyKey == p.idempotencyKey)
  }

  ghost predicate KeysFree(s: State, i: nat, p: PaymentRow) {
    forall j :: j in s.procs && j != i ==> !SharesKey(s.procs[j], p)
  }

  /** An uncommitted approval of the invoice makes another approval of it wait. */
  ghost predicate ApprovalFree(s: State, i: nat, inv: string) {
    forall j :: j in s.procs && j != i && s.procs[j].Paying? && s.procs[j].tx.payment.invoiceId == inv ==>
                  s.procs[j].tx.payment.status != ApprovedPayment
  }

  // ---- Actions ----

  datatype Action =
    | CreateInvoice(invoice: InvoiceRow)
    | Redeliver(invoiceId: string)                // InvoiceCreated delivered once more
    | LookForBilling
    | InsertBilling(billing: BillingRow)
    | LockBilling(billingId: string)              // a retry request: SELECT ... FOR UPDATE
    | CommitReactivation(now: Time)
    | Begin
    | LookForAttempt
    | LookForApproval
    | InsertPayment(payment: PaymentRow)
    | InsertRefused(payment: PaymentRow, reload: bool) // unique violation: reload the stored payment, or fail
    | CallGateway(reply: Reply, now: Time)
    | ApprovalRefused(reply: Reply)               // unique violation of the approved-only index
    | ReadInvoice
    | WriteInvoice(now: Time)
    | ReadBilling
    | WriteBilling(now: Time)
    | RedeliverResult
    | CommitPayment
    | RedeliverRequest                            // BillingRequested delivered once more
    | GiveUp                                      // a fault: roll back whatever is open and end the request

  ghost predicate Can(s: State, i: nat, a: Action) {
    var t, st := s.books, StageOf(s, i);
    match a
    case CreateInvoice(r) =>
      (st.Idle? || st.Done?) && r.id !in t.invoices && StorableInvoice(r) && r.status == PendingInvoice
      && r.paidAt.None?
    case Redeliver(inv) => (st.Idle? || st.Done?) && inv in t.invoices
    case LookForBilling => st.Announcing?
    case InsertBilling(r) =>
      && st.Billable?
      && var e := st.event;
         NewBilling(r.id, e.invoiceId, e.customerId, e.amountCents, e.dueDate, r.createdAt) == Ok(r)
    case LockBilling(b) => (st.Idle? || st.Done?) && b in t.billings && BillingFree(s, i, b)
    case CommitReactivation(_) => st.Locked? && st.billingId in t.billings
    case Begin => st.Ready?
    case LookForAttempt => st.Opened?
    case LookForApproval => st.Missing?
    case InsertPayment(p) =>
      st.Unapproved? && IsNewPayment(p, st.charge) && KeysFree(s, i, p) && !PaymentCollides(t, p)
    case InsertRefused(p, _) =>
      st.Unapproved? && IsNewPayment(p, st.charge) && KeysFree(s, i, p) && PaymentCollides(t, p)
    case CallGateway(reply, _) =>
      && st.Paying? && st.at.Reserved?
      && (reply.Approves() ==> ApprovalFree(s, i, st.tx.payment.invoiceId) && !HasApproved(t, st.tx.payment.invoiceId))
    case ApprovalRefused(reply) =>
      && st.Paying? && st.at.Reserved?
      && reply.Approves() && ApprovalFree(s, i, st.tx.payment.invoiceId) && HasApproved(t, st.tx.payment.invoiceId)
    case ReadInvoice =>
      && st.Paying? && st.at.Settled? && st.tx.payment.status == ApprovedPayment
      && st.tx.charge.invoiceId in t.invoices
    case WriteInvoice(now) =>
      && st.Paying? && st.at.SawInvoice? && OccursAt(st.tx.payment.updatedAt, now)
      && st.tx.charge.invoiceId in t.invoices && InvoiceFree(s, i, st.tx.charge.invoiceId)
    case ReadBilling =>
      && st.Paying? && st.tx.charge.billingId in t.billings
      && (if st.tx.payment.status == ApprovedPayment then st.at.InvoiceDone? else st.at.Settled?)
    case WriteBilling(_) =>
      && st.Paying? && st.at.SawBilling?
      && st.tx.charge.billingId in t.billings && BillingFree(s, i, st.tx.charge.billingId)
    case RedeliverResult => st.Paying? && st.at.BillingDone?
    case CommitPayment => st.Paying? && st.at.BillingDone?
    case RedeliverRequest => st.Done?
    case GiveUp => true
  }

  predicate IsNewPayment(p: PaymentRow, c: ChargeInput) {
    var key := BuildIdempotencyKey(c.billingId, c.attemptNumber);
    NewPayment(p.id, c.billingId, c.invoiceId, c.attemptNumber, key, p.createdAt) == Ok(p)
  }

  ghost function Do(s: State, i: nat, a: Action): State
    requires Can(s, i, a)
  {
    var t, st := s.books, StageOf(s, i);
    match a
    case CreateInvoice(r) =>
      State(t.(invoices := t.invoices[r.id := r]), s.procs[i := Announcing(AnnouncementFor(r))])
    case Redeliver(inv) => To(s, i, Announcing(AnnouncementFor(t.invoices[inv]).(invoiceId := inv)))
    case LookForBilling => To(s, i, if HasBilling(t, st.event.invoiceId) then Idle else Billable(st.event))
    case InsertBilling(r) =>
      if BillingCollides(t, r) then To(s, i, Idle)
      else State(t.(billings := t.billings[r.id := r]), s.procs[i := Ready(InputFor(r))])
    case LockBilling(b) =>
      To(s, i, if t.billings[b].status == ApprovedBilling then Idle else Locked(b, t.billings[b]))
    case CommitReactivation(now) =>
      var r := st.seen.AsReactivated(now);
      State(t.(billings := t.billings[st.billingId := OverwriteBilling(t.billings[st.billingId], r)]),
            s.procs[i := Ready(InputFor(r))])
    case Begin => To(s, i, Opened(st.charge))
    case LookForAttempt =>
      To(s, i, if HasAttempt(t, st.charge.billingId, st.charge.attemptNumber) then Done(st.charge)
               else Missing(st.charge))
    case LookForApproval => To(s, i, if HasApproved(t, st.charge.invoiceId) then Idle else Unapproved(st.charge))
    case InsertPayment(p) => To(s, i, Paying(Tx(st.charge, p, None, None), Reserved))
    case InsertRefused(_, reload) => To(s, i, if reload then Done(st.charge) else Idle)
    case CallGateway(reply, now) =>
      To(s, i, Paying(st.tx.(payment := SettledAs(st.tx.payment, OutcomeOf(reply), now)), Settled))
    case ApprovalRefused(_) => To(s, i, Idle)
    case ReadInvoice =>
      var r := SeenInvoice(t, st.tx);
      To(s, i, match r.status
               case PaidInvoice => Paying(st.tx, InvoiceDone)
               case CancelledInvoice => Idle
               case _ => Paying(st.tx, SawInvoice(r)))
    case WriteInvoice(now) =>
      var r := st.at.seenInvoice.AsPaid(now);
      To(s, i, Paying(st.tx.(invoice := Some(OverwriteInvoice(SeenInvoice(t, st.tx), r))), InvoiceDone))
    case ReadBilling => To(s, i, Paying(st.tx, SawBilling(SeenBilling(t, st.tx))))
    case WriteBilling(now) =>
      var r := st.at.seenBilling.As(BillingStatusAfter(st.tx.payment), now);
      To(s, i, Paying(st.tx.(billing := Some(OverwriteBilling(SeenBilling(t, st.tx), r))), BillingDone))
    case RedeliverResult => To(s, i, Paying(st.tx, Settled))
    case CommitPayment => State(Merge(t, st.tx), s.procs[i := Done(st.tx.charge)])
    case RedeliverRequest => To(s, i, Ready(st.charge))
    case GiveUp => To(s, i, Idle)
  }

  /** Committing a payment transaction publishes its writes. */
  function Merge(t: Books, tx: Tx): Books {
    t.(payments := t.payments[tx.payment.id := tx.payment],
       invoices := if tx.invoice.Some? then t.invoices[tx.charge.invoiceId := tx.invoice.value] else t.invoices,
       billings := if tx.billing.Some? then t.billings[tx.charge.billingId := tx.billing.value] else t.billings)
  }

  ghost predicate Step(s: State, i: nat, a: Action, s': State) {
    Can(s, i, a) && s' == Do(s, i, a)
  }

  // ---- The invariant ----

  /** An open reservation: its attempt is not settled and its billing is committed as waiting for exactly this
      attempt. */
  ghost predicate Reservation(t: Books, tx: Tx) {
    var c, p := tx.charge, tx.payment;
    && c.billingId in t.billings && c.invoiceId in t.invoices && 1 <= c.attemptNumber
    && t.billings[c.billingId].status == RequestedBilling
    && t.billings[c.billingId].attemptNumber == c.attemptNumber
    && t.billings[c.billingId].invoiceId == c.invoiceId && t.billings[c.billingId].customerId == c.customerId
    && t.billings[c.billingId].amountCents == c.amountCents && t.billings[c.billingId].dueDate == c.dueDate
    && p.id !in t.payments
    && p.billingId == c.billingId && p.invoiceId == c.invoiceId && p.attemptNumber == c.attemptNumber
  }

  /** The uncommitted payment row can be stored, under the key of its attempt. */
  predicate PaymentInOrder(p: PaymentRow) {
    StorablePayment(p) && p.idempotencyKey == BuildIdempotencyKey(p.billingId, p.attemptNumber)
  }

  /** The uncommitted invoice and billing rows are what settling makes of the committed ones. */
  predicate PendingWrites(t: Books, tx: Tx)
    requires tx.charge.billingId in t.billings && tx.charge.invoiceId in t.invoices
  {
    && (tx.invoice.Some? ==> tx.payment.status == ApprovedPayment
                             && OccursAt(tx.payment.updatedAt, tx.invoice.value.updatedAt)
                             && tx.invoice.value == t.invoices[tx.charge.invoiceId].AsPaid(tx.invoice.value.updatedAt))
    && (tx.billing.Some? ==> tx.payment.status != PendingPayment
                             && var before, at := t.billings[tx.charge.billingId], tx.billing.value.updatedAt;
                                tx.billing.value == before.As(BillingStatusAfter(tx.payment), at))
  }

  predicate PointOk(t: Books, tx: Tx, at: Point)
    requires tx.charge.billingId in t.billings && tx.charge.invoiceId in t.invoices
  {
    && (tx.payment.status == PendingPayment <==> at.Reserved?)
    && match at
       case Reserved => tx.invoice.None? && tx.billing.None?
       case Settled => true
       case SawInvoice(r) =>
         tx.payment.status == ApprovedPayment && tx.invoice.None? && r == t.invoices[tx.charge.invoiceId]
       case InvoiceDone => tx.invoice.Some?
       case SawBilling(r) => r == SeenBilling(t, tx) && (tx.payment.status == ApprovedPayment ==> tx.invoice.Some?)
       case BillingDone => tx.billing.Some? && (tx.payment.status == ApprovedPayment ==> tx.invoice.Some?)
  }

  ghost predicate StageOk(t: Books, st: Stage) {
    match st
    case Idle => true
    case Announcing(e) => AnnouncementOk(t, e)
    case Billable(e) => AnnouncementOk(t, e)
    case Locked(b, seen) => b in t.billings && t.billings[b] == seen && seen.status != ApprovedBilling && seen.id == b
    case Ready(c) => InputOk(t, c)
    case Opened(c) => InputOk(t, c)
    case Missing(c) => InputOk(t, c)
    case Unapproved(c) => InputOk(t, c)
    case Done(c) => InputOk(t, c)
    case Paying(tx, at) => Reservation(t, tx) && PendingWrites(t, tx) && PointOk(t, tx, at)
  }

  /** Two open payment transactions are about different billings; a locked billing is written by nobody else. */
  predicate Apart(st: Stage, other: Stage) {
    && (st.Paying? && other.Paying? ==> st.tx.charge.billingId != other.tx.charge.billingId
                                        && st.tx.payment.id != other.tx.payment.id)
    && (st.Locked? ==> !HoldsBilling(other, st.billingId))
    && (other.Locked? ==> !HoldsBilling(st, other.billingId))
  }

  ghost predicate Safe(s: State) {
    && LedgerInv(s.books)
    && (forall i :: i in s.procs ==> StageOk(s.books, s.procs[i]))
    && (forall i, j :: i in s.procs && j in s.procs && i != j ==> Apart(s.procs[i], s.procs[j]))
  }

  /** All rows, committed or not, can be stored and read back. */
  ghost predicate InOrder(s: State) {
    && RowsKept(s.books)
    && (forall i :: i in s.procs && s.procs[i].Paying? ==> PaymentInOrder(s.procs[i].tx.payment))
  }

  // ---- A commit leaves the other requests right ----

  /** `c` does not touch what `st` has reserved or locked. */
  predicate Disjoint(c: Commit, st: Stage) {
    && (c.Settle? && st.Paying? ==> c.payment.billingId != st.tx.charge.billingId && c.payment.id != st.tx.payment.id)
    && (c.Settle? && st.Locked? ==> c.payment.billingId != st.billingId)
    && (c.Reactivate? && st.Locked? ==> c.billingId != st.billingId)
  }

  lemma ChargeStays(t: Books, c: Commit, r: ChargeInput)
    requires LedgerInv(t) && Enabled(t, c) && InputOk(t, r)
    ensures InputOk(Apply(t, c), r)
  {
    var u := Apply(t, c);
    CommitGoesForward(t, c);
    assert BillingForward(t.billings[r.billingId], u.billings[r.billingId]);
    if HasAttempt(t, r.billingId, r.attemptNumber) {
      AttemptsStay(t, u, r.billingId, r.attemptNumber);
    } else if c.Settle? && c.payment.billingId == r.billingId {
      assert u.payments[c.payment.id] == c.payment;
      assert HasAttempt(u, r.billingId, r.attemptNumber);
    }
  }

  lemma PayingStays(t: Books, c: Commit, tx: Tx, at: Point)
    requires LedgerInv(t) && Enabled(t, c) && StageOk(t, Paying(tx, at)) && Disjoint(c, Paying(tx, at))
    ensures StageOk(Apply(t, c), Paying(tx, at))
  {
    hide PaymentsKept, OnePaymentPerAttempt, GapFree, InvoicesKept, BillingsKept;
    var u := Apply(t, c);
    assert u.billings[tx.charge.billingId] == t.billings[tx.charge.billingId];
    assert u.invoices[tx.charge.invoiceId] == t.invoices[tx.charge.invoiceId];
  }

  lemma StageStays(t: Books, c: Commit, st: Stage)
    requires LedgerInv(t) && Enabled(t, c) && StageOk(t, st) && Disjoint(c, st)
    ensures StageOk(Apply(t, c), st)
  {
    hide LedgerInv, InputOk;
    match st
    case Idle =>
    case Announcing(e) =>
    case Billable(e) =>
    case Locked(b, seen) =>
    case Ready(r) => ChargeStays(t, c, r);
    case Opened(r) => ChargeStays(t, c, r);
    case Missing(r) => ChargeStays(t, c, r);
    case Unapproved(r) => ChargeStays(t, c, r);
    case Done(r) => ChargeStays(t, c, r);
    case Paying(tx, at) => PayingStays(t, c, tx, at);
  }

  // ---- Every action keeps the invariant ----

  /** A step that commits nothing only has to be right for the request that takes it. */
  lemma LocalStep(s: State, i: nat, st: Stage)
    requires Safe(s) && StageOk(s.books, st)
    requires forall j :: j in s.procs && j != i ==> Apart(st, s.procs[j])
    ensures Safe(To(s, i, st))
  {
  }

  /** A step that commits also has to leave the others alone. */
  lemma CommitStep(s: State, i: nat, c: Commit, st: Stage)
    requires Safe(s) && Enabled(s.books, c)
    requires StageOk(Apply(s.books, c), st)
    requires forall j :: j in s.procs && j != i ==> Apart(st, s.procs[j]) && Disjoint(c, s.procs[j])
    ensures Safe(State(Apply(s.books, c), s.procs[i := st]))
  {
    CommitKeeps(s.books, c);
    forall j | j in s.procs && j != i ensures StageOk(Apply(s.books, c), s.procs[j]) {
      StageStays(s.books, c, s.procs[j]);
    }
  }

  lemma CreateInvoiceKeeps(s: State, i: nat, r: InvoiceRow)
    requires Safe(s) && Can(s, i, CreateInvoice(r))
    ensures Safe(Do(s, i, CreateInvoice(r)))
  {
    CommitStep(s, i, SaveNewInvoice(r), Announcing(AnnouncementFor(r)));
  }

  /** The billing built from an announcement copies the invoice it announces. */
  lemma InsertBillingIsCommit(s: State, i: nat, r: BillingRow)
    requires Safe(s) && InOrder(s) && Can(s, i, InsertBilling(r)) && !BillingCollides(s.books, r)
    ensures Enabled(s.books, SaveNewBilling(r)) && BringsStorableRows(SaveNewBilling(r))
    ensures Do(s, i, InsertBilling(r)).books == Apply(s.books, SaveNewBilling(r))
  {
    var e := StageOf(s, i).event;
    BillingsStayStorable(r.id, e.invoiceId, e.customerId, e.amountCents, e.dueDate, r.createdAt);
    assert StorableInvoice(s.books.invoices[e.invoiceId]);
    TrimKeepsTrimmed(e.invoiceId);
    TrimKeepsTrimmed(e.customerId);
    assert e.dueDate % DAY == 0;
  }

  lemma InsertBillingKeeps(s: State, i: nat, r: BillingRow)
    requires Safe(s) && InOrder(s) && Can(s, i, InsertBilling(r))
    ensures Safe(Do(s, i, InsertBilling(r)))
  {
    if BillingCollides(s.books, r) {
      hide LedgerInv, RowsKept, NewBilling;
      LocalStep(s, i, Idle);
    } else {
      InsertBillingIsCommit(s, i, r);
      hide LedgerInv, RowsKept, NewBilling;
      var u := Apply(s.books, SaveNewBilling(r));
      assert InputOk(u, InputFor(r));
      CommitStep(s, i, SaveNewBilling(r), Ready(InputFor(r)));
    }
  }

  lemma LockBillingKeeps(s: State, i: nat, b: string)
    requires Safe(s) && InOrder(s) && Can(s, i, LockBilling(b))
    ensures Safe(Do(s, i, LockBilling(b)))
  {
    assert s.books.billings[b].id == b;
    hide LedgerInv, RowsKept, PaymentInOrder, InputOk;
    if s.books.billings[b].status == ApprovedBilling {
      LocalStep(s, i, Idle);
    } else {
      LocalStep(s, i, Locked(b, s.books.billings[b]));
    }
  }

  /** The row lock makes the written-back row the reactivation of the current one. */
  lemma CommitReactivationIsCommit(s: State, i: nat, now: Time)
    requires Safe(s) && Can(s, i, CommitReactivation(now))
    ensures var b := StageOf(s, i).billingId;
            Enabled(s.books, Reactivate(b, now))
            && Do(s, i, CommitReactivation(now)).books == Apply(s.books, Reactivate(b, now))
  {
  }

  lemma CommitReactivationKeeps(s: State, i: nat, now: Time)
    requires Safe(s) && Can(s, i, CommitReactivation(now))
    ensures Safe(Do(s, i, CommitReactivation(now)))
  {
    CommitReactivationIsCommit(s, i, now);
    var st := StageOf(s, i);
    var c := Reactivate(st.billingId, now);
    var r := st.seen.AsReactivated(now);
    assert Apply(s.books, c).billings[st.billingId] == r;
    assert InputOk(Apply(s.books, c), InputFor(r));
    CommitStep(s, i, c, Ready(InputFor(r)));
  }

  /** Trimming changes nothing in the references of a payment made for a known charge. */
  lemma NewPaymentFields(t: Books, c: ChargeInput, p: PaymentRow)
    requires RowsKept(t) && InputOk(t, c) && IsNewPayment(p, c)
    ensures p.billingId == c.billingId && p.invoiceId == c.invoiceId && p.attemptNumber == c.attemptNumber
    ensures p.status == PendingPayment
  {
    assert StorableBilling(t.billings[c.billingId]);
    TrimKeepsTrimmed(c.billingId);
    TrimKeepsTrimmed(c.invoiceId);
  }

  /** A reservation that got past the unique indexes pins its billing, and no other reservation is for that billing. */
  lemma InsertPaymentKeeps(s: State, i: nat, p: PaymentRow)
    requires Safe(s) && InOrder(s) && Can(s, i, InsertPayment(p))
    ensures Safe(Do(s, i, InsertPayment(p)))
  {
    var c := StageOf(s, i).charge;
    NewPaymentFields(s.books, c, p);
    ReservationIsAlone(s, i, Tx(c, p, None, None));
    LocalStep(s, i, Paying(Tx(c, p, None, None), Reserved));
  }

  lemma ReservationIsAlone(s: State, i: nat, tx: Tx)
    requires Safe(s) && InputOk(s.books, tx.charge) && KeysFree(s, i, tx.payment) && tx.invoice.None?
             && tx.billing.None?
    requires tx.payment.id !in s.books.payments && !HasAttempt(s.books, tx.charge.billingId, tx.charge.attemptNumber)
    requires tx.payment.billingId == tx.charge.billingId && tx.payment.attemptNumber == tx.charge.attemptNumber
    requires tx.payment.invoiceId == tx.charge.invoiceId
    ensures Reservation(s.books, tx)
    ensures forall j :: j in s.procs && j != i ==> Apart(Paying(tx, Reserved), s.procs[j])
  {
    forall j | j in s.procs && j != i ensures Apart(Paying(tx, Reserved), s.procs[j]) {
      assert !SharesKey(s.procs[j], tx.payment);
      if s.procs[j].Paying? {
        assert StageOk(s.books, s.procs[j]);
      }
    }
  }

  lemma CallGatewayKeeps(s: State, i: nat, reply: Reply, now: Time)
    requires Safe(s) && Can(s, i, CallGateway(reply, now))
    ensures Safe(Do(s, i, CallGateway(reply, now)))
  {
    var tx := StageOf(s, i).tx;
    LocalStep(s, i, Paying(tx.(payment := SettledAs(tx.payment, OutcomeOf(reply), now)), Settled));
  }

  lemma ReadInvoiceKeeps(s: State, i: nat)
    requires Safe(s) && Can(s, i, ReadInvoice)
    ensures Safe(Do(s, i, ReadInvoice))
  {
    var st := StageOf(s, i);
    var r := SeenInvoice(s.books, st.tx);
    assert StageOk(s.books, st);
    if st.tx.invoice.None? {
      assert r.status == PendingInvoice;
      LocalStep(s, i, Paying(st.tx, SawInvoice(r)));
    } else {
      LocalStep(s, i, Paying(st.tx, InvoiceDone));
    }
  }

  lemma WriteInvoiceKeeps(s: State, i: nat, now: Time)
    requires Safe(s) && Can(s, i, WriteInvoice(now))
    ensures Safe(Do(s, i, WriteInvoice(now)))
  {
    var st := StageOf(s, i);
    assert StageOk(s.books, st);
    var w := OverwriteInvoice(SeenInvoice(s.books, st.tx), st.at.seenInvoice.AsPaid(now));
    LocalStep(s, i, Paying(st.tx.(invoice := Some(w)), InvoiceDone));
  }

  lemma ReadBillingKeeps(s: State, i: nat)
    requires Safe(s) && Can(s, i, ReadBilling)
    ensures Safe(Do(s, i, ReadBilling))
  {
    var st := StageOf(s, i);
    assert StageOk(s.books, st);
    LocalStep(s, i, Paying(st.tx, SawBilling(SeenBilling(s.books, st.tx))));
  }

  /** The row read without a lock is still the current one when it is written back. */
  lemma WriteBillingKeeps(s: State, i: nat, now: Time)
    requires Safe(s) && Can(s, i, WriteBilling(now))
    ensures Safe(Do(s, i, WriteBilling(now)))
  {
    var st := StageOf(s, i);
    assert StageOk(s.books, st);
    var w := OverwriteBilling(SeenBilling(s.books, st.tx),
                              st.at.seenBilling.As(BillingStatusAfter(st.tx.payment), now));
    var st' := Paying(st.tx.(billing := Some(w)), BillingDone);
    forall j | j in s.procs && j != i ensures Apart(st', s.procs[j]) {
      assert !HoldsBilling(s.procs[j], st.tx.charge.billingId);
      assert Apart(st, s.procs[j]);
    }
    LocalStep(s, i, st');
  }

  /** What a payment transaction publishes is one settlement. */
  lemma CommitPaymentIsCommit(s: State, i: nat)
    requires Safe(s) && Can(s, i, CommitPayment)
    ensures var tx := StageOf(s, i).tx;
            var c := SettlementOf(tx);
            Enabled(s.books, c) && Do(s, i, CommitPayment).books == Apply(s.books, c)
  {
    assert StageOk(s.books, StageOf(s, i));
  }

  function SettlementOf(tx: Tx): Commit {
    Settle(tx.payment,
           if tx.billing.Some? then tx.billing.value.updatedAt else ZERO_TIME,
           if tx.invoice.Some? then tx.invoice.value.updatedAt else ZERO_TIME)
  }

  lemma CommitPaymentKeeps(s: State, i: nat)
    requires Safe(s) && Can(s, i, CommitPayment)
    ensures Safe(Do(s, i, CommitPayment))
  {
    CommitPaymentIsCommit(s, i);
    var st := StageOf(s, i);
    var tx, c := st.tx, SettlementOf(st.tx);
    var u := Apply(s.books, c);
    assert Reservation(s.books, tx);
    assert u.payments[tx.payment.id] == tx.payment;
    assert HasAttempt(u, tx.charge.billingId, tx.charge.attemptNumber);
    assert InputOk(u, tx.charge);
    forall j | j in s.procs && j != i ensures Apart(Done(tx.charge), s.procs[j]) && Disjoint(c, s.procs[j]) {
      assert Apart(st, s.procs[j]);
    }
    CommitStep(s, i, c, Done(tx.charge));
  }

  /** Looking things up, starting and ending. */
  predicate IsPlain(a: Action) {
    || a.Redeliver? || a.LookForBilling? || a.Begin? || a.LookForAttempt? || a.LookForApproval?
    || a.InsertRefused? || a.ApprovalRefused? || a.RedeliverResult? || a.RedeliverRequest? || a.GiveUp?
  }

  lemma PlainStageOk(s: State, i: nat, a: Action)
    requires Safe(s) && IsPlain(a) && Can(s, i, a)
    ensures StageOk(s.books, StageOf(Do(s, i, a), i))
  {
    var st := StageOf(s, i);
    assert StageOk(s.books, st);
    if a.InsertRefused? {
      assert InputOk(s.books, st.charge);
    }
  }

  lemma PlainStepKeeps(s: State, i: nat, a: Action)
    requires Safe(s) && IsPlain(a) && Can(s, i, a)
    ensures Safe(Do(s, i, a))
  {
    hide LedgerInv, StageOk;
    PlainStageOk(s, i, a);
    LocalStep(s, i, StageOf(Do(s, i, a), i));
  }

  /** Every action of every request keeps the invariant. */
  lemma StepKeepsSafe(s: State, i: nat, a: Action)
    requires Safe(s) && InOrder(s) && Can(s, i, a)
    ensures Safe(Do(s, i, a))
  {
    if IsPlain(a) {
      PlainStepKeeps(s, i, a);
    } else {
      match a
      case CreateInvoice(r) => CreateInvoiceKeeps(s, i, r);
      case InsertBilling(r) => InsertBillingKeeps(s, i, r);
      case LockBilling(b) => LockBillingKeeps(s, i, b);
      case CommitReactivation(now) => CommitReactivationKeeps(s, i, now);
      case InsertPayment(p) => InsertPaymentKeeps(s, i, p);
      case CallGateway(reply, now) => CallGatewayKeeps(s, i, reply, now);
      case ReadInvoice => ReadInvoiceKeeps(s, i);
      case WriteInvoice(now) => WriteInvoiceKeeps(s, i, now);
      case ReadBilling => ReadBillingKeeps(s, i);
      case WriteBilling(now) => WriteBillingKeeps(s, i, now);
      case CommitPayment => CommitPaymentKeeps(s, i);
    }
  }

  /** A step that commits nothing keeps the rows in order if its own payment row is. */
  lemma LocalStepInOrder(s: State, i: nat, st: Stage)
    requires InOrder(s) && (st.Paying? ==> PaymentInOrder(st.tx.payment))
    ensures InOrder(To(s, i, st))
  {
  }

  lemma CommitStepInOrder(s: State, i: nat, c: Commit, st: Stage)
    requires InOrder(s) && !st.Paying? && Enabled(s.books, c) && BringsStorableRows(c)
    ensures InOrder(State(Apply(s.books, c), s.procs[i := st]))
  {
    CommitKeepsRows(s.books, c);
  }

  lemma InsertPaymentInOrder(s: State, i: nat, p: PaymentRow)
    requires Safe(s) && InOrder(s) && Can(s, i, InsertPayment(p))
    ensures InOrder(Do(s, i, InsertPayment(p)))
  {
    var c := StageOf(s, i).charge;
    NewPaymentsAreStorable(p.id, c.billingId, c.invoiceId, c.attemptNumber,
                           BuildIdempotencyKey(c.billingId, c.attemptNumber), p.createdAt);
    assert StorableBilling(s.books.billings[c.billingId]);
    TrimKeepsTrimmed(c.billingId);
    KeyIsTrimmed(c.billingId, c.attemptNumber);
    LocalStepInOrder(s, i, Paying(Tx(c, p, None, None), Reserved));
  }

  lemma CommittingStepInOrder(s: State, i: nat, a: Action)
    requires Safe(s) && InOrder(s) && Can(s, i, a)
    requires a.CreateInvoice? || (a.InsertBilling? && !BillingCollides(s.books, a.billing)) || a.CommitReactivation?
             || a.CommitPayment?
    ensures InOrder(Do(s, i, a))
  {
    hide StorablePayment, StorableBilling, LedgerInv, BillingCollides, NewBilling;
    var st, st' := StageOf(s, i), StageOf(Do(s, i, a), i);
    match a
    case CreateInvoice(r) => CommitStepInOrder(s, i, SaveNewInvoice(r), st');
    case InsertBilling(r) =>
      InsertBillingIsCommit(s, i, r);
      CommitStepInOrder(s, i, SaveNewBilling(r), st');
    case CommitReactivation(now) =>
      CommitReactivationIsCommit(s, i, now);
      CommitStepInOrder(s, i, Reactivate(st.billingId, now), st');
    case CommitPayment =>
      CommitPaymentIsCommit(s, i);
      CommitStepInOrder(s, i, SettlementOf(st.tx), st');
  }

  lemma StepKeepsOrder(s: State, i: nat, a: Action)
    requires Safe(s) && InOrder(s) && Can(s, i, a)
    ensures InOrder(Do(s, i, a))
  {
    hide Safe, LedgerInv, RowsKept, StorablePayment, HasAttempt, HasApproved, BillingCollides, PaymentCollides,
         KeysFree;
    var st, st' := StageOf(s, i), StageOf(Do(s, i, a), i);
    if a.CreateInvoice? || (a.InsertBilling? && !BillingCollides(s.books, a.billing)) || a.CommitReactivation?
       || a.CommitPayment? {
      CommittingStepInOrder(s, i, a);
    } else if a.InsertPayment? {
      InsertPaymentInOrder(s, i, a.payment);
    } else {
      if a.CallGateway? {
        SettledPaymentsStayStorable(st.tx.payment, a.reply, a.now);
      }
      LocalStepInOrder(s, i, st');
    }
  }

  // ---- Whole runs ----

  /** A run from empty tables: `trace[k]` is the request and the action that lead from `run[k]` to `run[k + 1]`. */
  ghost predicate IsRun(run: seq<State>, trace: seq<(nat, Action)>) {
    && |run| == |trace| + 1
    && run[0] == START
    && forall k :: 0 <= k < |trace| ==> Step(run[k], trace[k].0, trace[k].1, run[k + 1])
  }

  /** Every interleaving of any number of requests keeps the ledger and the rows. */
  lemma {:induction false} RunKeeps(run: seq<State>, trace: seq<(nat, Action)>, k: nat)
    requires IsRun(run, trace) && k < |run|
    ensures Safe(run[k]) && InOrder(run[k])
  {
    if k == 0 {
      StartsKept();
    } else {
      RunKeeps(run, trace, k - 1);
      assert Step(run[k - 1], trace[k - 1].0, trace[k - 1].1, run[k]);
      StepKeepsSafe(run[k - 1], trace[k - 1].0, trace[k - 1].1);
      StepKeepsOrder(run[k - 1], trace[k - 1].0, trace[k - 1].1);
    }
  }

  /** The commit an action makes, if it makes one. */
  ghost function CommitOf(s: State, i: nat, a: Action): Option<Commit>
    requires Can(s, i, a)
  {
    match a
    case CreateInvoice(r) => Some(SaveNewInvoice(r))
    case InsertBilling(r) => if BillingCollides(s.books, r) then None else Some(SaveNewBilling(r))
    case CommitReactivation(now) => Some(Reactivate(StageOf(s, i).billingId, now))
    case CommitPayment => Some(SettlementOf(StageOf(s, i).tx))
    case _ => None
  }

  /** Every action either leaves the committed books alone or makes exactly one enabled commit. */
  lemma StepIsCommit(s: State, i: nat, a: Action)
    requires Safe(s) && InOrder(s) && Can(s, i, a)
    ensures match CommitOf(s, i, a)
            case None => Do(s, i, a).books == s.books
            case Some(c) => Enabled(s.books, c) && Do(s, i, a).books == Apply(s.books, c)
  {
    if a.InsertBilling? && !BillingCollides(s.books, a.billing) {
      InsertBillingIsCommit(s, i, a.billing);
    } else if a.CommitReactivation? {
      CommitReactivationIsCommit(s, i, a.now);
    } else if a.CommitPayment? {
      CommitPaymentIsCommit(s, i);
    }
  }

  lemma StepGoesForward(s: State, i: nat, a: Action)
    requires Safe(s) && InOrder(s) && Can(s, i, a)
    ensures OnlyForward(s.books, Do(s, i, a).books)
  {
    StepIsCommit(s, i, a);
    if CommitOf(s, i, a).Some? {
      CommitGoesForward(s.books, CommitOf(s, i, a).value);
    }
  }

  lemma RunStepGoesForward(run: seq<State>, trace: seq<(nat, Action)>, k: nat)
    requires IsRun(run, trace) && k < |trace|
    ensures OnlyForward(run[k].books, run[k + 1].books)
  {
    RunKeeps(run, trace, k);
    assert Step(run[k], trace[k].0, trace[k].1, run[k + 1]);
    StepGoesForward(run[k], trace[k].0, trace[k].1);
  }

  /** No lost update over any run: attempt numbers never decrease, an approval is never left, a committed payment never
      changes, although the billing handlers write back an attempt number they read without a lock. */
  lemma {:induction false} RunGoesForward(run: seq<State>, trace: seq<(nat, Action)>, j: nat, k: nat)
    requires IsRun(run, trace) && j <= k < |run|
    ensures OnlyForward(run[j].books, run[k].books)
    decreases k
  {
    if j < k {
      RunGoesForward(run, trace, j, k - 1);
      RunStepGoesForward(run, trace, k - 1);
      ForwardTransitive(run[j].books, run[k - 1].books, run[k].books);
    }
  }

  /** Every step of every run moves the account of a billing by one step of the specification, or not at all. */
  lemma RunRefinesAccounts(run: seq<State>, trace: seq<(nat, Action)>, k: nat, b: string)
    requires IsRun(run, trace) && k < |trace| && b in run[k].books.billings
    ensures LedgerInv(run[k].books) && LedgerInv(run[k + 1].books) && b in run[k + 1].books.billings
    ensures Can(run[k], trace[k].0, trace[k].1)
    ensures AccountOf(run[k + 1].books, b) ==
            match CommitOf(run[k], trace[k].0, trace[k].1)
            case None => AccountOf(run[k].books, b)
            case Some(c) => StepOf(c, b, AccountOf(run[k].books, b))
  {
    RunKeeps(run, trace, k);
    RunKeeps(run, trace, k + 1);
    var s, i, a := run[k], trace[k].0, trace[k].1;
    assert Step(s, i, a, run[k + 1]);
    StepIsCommit(s, i, a);
    if CommitOf(s, i, a).Some? {
      CommitRefines(s.books, CommitOf(s, i, a).value, b);
    }
  }

  /** While a transaction holds an uncommitted payment for attempt n of a billing, the committed billing is waiting for
      exactly attempt n, that attempt is not settled, and no other open transaction is paying the same billing. */
  lemma ReservationPinsBilling(run: seq<State>, trace: seq<(nat, Action)>, k: nat, i: nat)
    requires IsRun(run, trace) && k < |run| && i in run[k].procs && run[k].procs[i].Paying?
    ensures var t, c := run[k].books, run[k].procs[i].tx.charge;
            && c.billingId in t.billings
            && t.billings[c.billingId].status == RequestedBilling
            && t.billings[c.billingId].attemptNumber == c.attemptNumber
            && t.billings[c.billingId].amountCents == c.amountCents
            && !HasAttempt(t, c.billingId, c.attemptNumber)
    ensures forall j :: j in run[k].procs && j != i && run[k].procs[j].Paying? ==>
                          run[k].procs[j].tx.charge.billingId != run[k].procs[i].tx.charge.billingId
  {
    RunKeeps(run, trace, k);
    assert StageOk(run[k].books, run[k].procs[i]);
    var c := run[k].procs[i].tx.charge;
    AttemptIffSettled(run[k].books, c.billingId, c.attemptNumber);
    forall j | j in run[k].procs && j != i && run[k].procs[j].Paying?
      ensures run[k].procs[j].tx.charge.billingId != c.billingId
    {
      assert Apart(run[k].procs[i], run[k].procs[j]);
    }
  }

  lemma ReservedMeansUnpaid(s: State, i: nat)
    requires Safe(s) && i in s.procs && s.procs[i].Paying?
    ensures var inv := s.procs[i].tx.payment.invoiceId;
            !HasApproved(s.books, inv) && ApprovalFree(s, i, inv)
  {
    var tx := s.procs[i].tx;
    assert StageOk(s.books, s.procs[i]);
    ModulesAgree(s.books, tx.charge.invoiceId);
    forall j | j in s.procs && j != i && s.procs[j].Paying?
      ensures s.procs[j].tx.payment.invoiceId != tx.payment.invoiceId
    {
      assert StageOk(s.books, s.procs[j]) && Apart(s.procs[i], s.procs[j]);
    }
  }

  /** When the gateway is called nobody has, or is about to have, an approved payment of the invoice: the index on
      approved payments never refuses and never makes anybody wait, so no invoice is charged twice with success. */
  lemma ApprovedIndexNeverFires(run: seq<State>, trace: seq<(nat, Action)>, k: nat, i: nat, reply: Reply, now: Time)
    requires IsRun(run, trace) && k < |run| && i in run[k].procs
    requires run[k].procs[i].Paying? && run[k].procs[i].at.Reserved?
    ensures !Can(run[k], i, ApprovalRefused(reply))
    ensures Can(run[k], i, CallGateway(reply, now))
  {
    hide Safe, InOrder, IsRun;
    RunKeeps(run, trace, k);
    ReservedMeansUnpaid(run[k], i);
  }

  /** In every state of every run: at most one payment per attempt, at most one approved payment per invoice, invoices,
      billings and payments agreeing on what is paid and since when, and the money collected equal to the money
      settled. */
  lemma RunMeans(run: seq<State>, trace: seq<(nat, Action)>, k: nat)
    requires IsRun(run, trace) && k < |run|
    ensures var t := run[k].books;
            && (forall p, q :: (&& p in t.payments && q in t.payments
                                && t.payments[p].billingId == t.payments[q].billingId
                                && t.payments[p].attemptNumber == t.payments[q].attemptNumber) ==> p == q)
            && (forall p, q :: (&& p in t.payments && q in t.payments
                                && t.payments[p].status == t.payments[q].status == ApprovedPayment
                                && t.payments[p].invoiceId == t.payments[q].invoiceId) ==> p == q)
            && Consistent(t)
            && SumBillings(t, ApprovedBillings(t)) == SumInvoices(t, PaidInvoices(t))
  {
    RunKeeps(run, trace, k);
    var t := run[k].books;
    hide IsRun, InOrder;
    Conservation(t);
    KeptIsConsistent(t);
    forall p, q | && p in t.payments && q in t.payments
                  && t.payments[p].status == t.payments[q].status == ApprovedPayment
                  && t.payments[p].invoiceId == t.payments[q].invoiceId
      ensures p == q
    {
      ApprovedPaymentIsUnique(t, p, q);
    }
  }
}
