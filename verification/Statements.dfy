/** The statements of a concurrent request one by one: when each is possible and where it leads. */
module Statements {
  import opened Wrappers
  import opened Entities
  import opened Storage
  import opened Tables
  import opened Ledger
  import opened Concurrency

  lemma CreatingInvoice(s: State, i: nat, r: InvoiceRow, customerId: string, amountCents: int, dueDate: Time, now: Time)
    requires StageOf(s, i).Idle? || StageOf(s, i).Done?
    requires NewInvoice(r.id, customerId, amountCents, dueDate, now) == Ok(r) && r.id !in s.books.invoices
    ensures Can(s, i, CreateInvoice(r))
    ensures var t := s.books;
            Do(s, i, CreateInvoice(r))
            == State(t.(invoices := t.invoices[r.id := r]),
                     s.procs[i := Announcing(Announcement(r.id, r.customerId, r.amountCents, r.dueDate))])
  {
    InvoicesStayStorable(r.id, customerId, amountCents, dueDate, now);
  }

  /** InvoiceCreated delivered once more: the announcement is that of the stored invoice. */
  lemma AnnouncingAgain(s: State, i: nat, inv: string)
    requires StageOf(s, i).Idle? || StageOf(s, i).Done?
    requires inv in s.books.invoices
    ensures Can(s, i, Redeliver(inv))
    ensures var r := s.books.invoices[inv];
            Do(s, i, Redeliver(inv)) == To(s, i, Announcing(Announcement(inv, r.customerId, r.amountCents, r.dueDate)))
  {
  }

  lemma LookingForBilling(s: State, i: nat, e: Announcement)
    requires StageOf(s, i) == Announcing(e)
    ensures Can(s, i, LookForBilling)
    ensures Do(s, i, LookForBilling) == To(s, i, if HasBilling(s.books, e.invoiceId) then Idle else Billable(e))
  {
  }

  lemma InsertingBilling(s: State, i: nat, e: Announcement, r: BillingRow)
    requires StageOf(s, i) == Billable(e)
    requires NewBilling(r.id, e.invoiceId, e.customerId, e.amountCents, e.dueDate, r.createdAt) == Ok(r)
    ensures Can(s, i, InsertBilling(r))
    ensures StageOf(Do(s, i, InsertBilling(r)), i) == if BillingCollides(s.books, r) then Idle else Ready(InputFor(r))
  {
    hide NewBilling, BillingCollides;
  }

  lemma Locking(s: State, i: nat, b: string)
    requires StageOf(s, i).Idle? || StageOf(s, i).Done?
    requires b in s.books.billings && BillingFree(s, i, b)
    ensures Can(s, i, LockBilling(b))
    ensures var r := s.books.billings[b];
            Do(s, i, LockBilling(b)) == To(s, i, if r.status == ApprovedBilling then Idle else Locked(b, r))
  {
    hide BillingFree;
  }

  lemma Reactivating(s: State, i: nat, b: string, seen: BillingRow, now: Time)
    requires StageOf(s, i) == Locked(b, seen) && b in s.books.billings
    ensures Can(s, i, CommitReactivation(now))
    ensures var r, t := seen.AsReactivated(now), s.books;
            Do(s, i, CommitReactivation(now))
            == State(t.(billings := t.billings[b := OverwriteBilling(t.billings[b], r)]),
                     s.procs[i := Ready(InputFor(r))])
  {
  }

  lemma Beginning(s: State, i: nat, c: ChargeInput)
    requires StageOf(s, i) == Ready(c)
    ensures Can(s, i, Begin) && Do(s, i, Begin) == To(s, i, Opened(c))
  {
  }

  lemma LookingForAttempt(s: State, i: nat, c: ChargeInput)
    requires StageOf(s, i) == Opened(c)
    ensures Can(s, i, LookForAttempt)
    ensures Do(s, i, LookForAttempt)
            == To(s, i, if HasAttempt(s.books, c.billingId, c.attemptNumber) then Done(c) else Missing(c))
  {
    hide HasAttempt;
  }

  lemma LookingForApproval(s: State, i: nat, c: ChargeInput)
    requires StageOf(s, i) == Missing(c)
    ensures Can(s, i, LookForApproval)
    ensures Do(s, i, LookForApproval) == To(s, i, if HasApproved(s.books, c.invoiceId) then Idle else Unapproved(c))
  {
    hide HasApproved;
  }

  lemma Reserving(s: State, i: nat, c: ChargeInput, p: PaymentRow)
    requires StageOf(s, i) == Unapproved(c) && IsNewPayment(p, c) && KeysFree(s, i, p) && !PaymentCollides(s.books, p)
    ensures Can(s, i, InsertPayment(p))
    ensures Do(s, i, InsertPayment(p)) == To(s, i, Paying(Tx(c, p, None, None), Reserved))
  {
    hide IsNewPayment, KeysFree, PaymentCollides;
  }

  lemma BeingRefused(s: State, i: nat, c: ChargeInput, p: PaymentRow, reload: bool)
    requires StageOf(s, i) == Unapproved(c) && IsNewPayment(p, c) && KeysFree(s, i, p) && PaymentCollides(s.books, p)
    ensures Can(s, i, InsertRefused(p, reload))
    ensures Do(s, i, InsertRefused(p, reload)) == To(s, i, if reload then Done(c) else Idle)
  {
    hide IsNewPayment, KeysFree, PaymentCollides;
  }

  lemma Charging(s: State, i: nat, tx: Tx, reply: Reply, now: Time)
    requires StageOf(s, i) == Paying(tx, Reserved)
    requires reply.Answer? && reply.status == "Approved" ==>
               ApprovalFree(s, i, tx.payment.invoiceId) && !HasApproved(s.books, tx.payment.invoiceId)
    ensures Can(s, i, CallGateway(reply, now))
    ensures Do(s, i, CallGateway(reply, now))
            == To(s, i, Paying(tx.(payment := SettledAs(tx.payment, OutcomeOf(reply), now)), Settled))
  {
    hide ApprovalFree, HasApproved, SettledAs, OutcomeOf;
  }

  /** The reply cannot be stored if the invoice has an approved payment by now. */
  lemma BeingTooLate(s: State, i: nat, tx: Tx, reply: Reply)
    requires StageOf(s, i) == Paying(tx, Reserved) && reply.Answer? && reply.status == "Approved"
    requires ApprovalFree(s, i, tx.payment.invoiceId) && HasApproved(s.books, tx.payment.invoiceId)
    ensures Can(s, i, ApprovalRefused(reply)) && Do(s, i, ApprovalRefused(reply)) == To(s, i, Idle)
  {
    hide ApprovalFree, HasApproved;
  }

  lemma ReadingInvoice(s: State, i: nat, tx: Tx)
    requires StageOf(s, i) == Paying(tx, Settled) && tx.payment.status == ApprovedPayment
    requires tx.charge.invoiceId in s.books.invoices
    ensures Can(s, i, ReadInvoice)
    ensures Do(s, i, ReadInvoice)
            == var r := SeenInvoice(s.books, tx);
               To(s, i, match r.status
                        case PaidInvoice => Paying(tx, InvoiceDone)
                        case CancelledInvoice => Idle
                        case _ => Paying(tx, SawInvoice(r)))
  {
  }

  lemma WritingInvoice(s: State, i: nat, tx: Tx, r: InvoiceRow, now: Time)
    requires StageOf(s, i) == Paying(tx, SawInvoice(r)) && tx.charge.invoiceId in s.books.invoices
    requires OccursAt(tx.payment.updatedAt, now)
    requires InvoiceFree(s, i, tx.charge.invoiceId)
    ensures Can(s, i, WriteInvoice(now))
    ensures var w := OverwriteInvoice(SeenInvoice(s.books, tx), r.AsPaid(now));
            Do(s, i, WriteInvoice(now)) == To(s, i, Paying(tx.(invoice := Some(w)), InvoiceDone))
  {
    hide InvoiceFree;
  }

  lemma ReadingBilling(s: State, i: nat, tx: Tx, at: Point)
    requires StageOf(s, i) == Paying(tx, at) && tx.charge.billingId in s.books.billings
    requires if tx.payment.status == ApprovedPayment then at.InvoiceDone? else at.Settled?
    ensures Can(s, i, ReadBilling)
    ensures Do(s, i, ReadBilling) == To(s, i, Paying(tx, SawBilling(SeenBilling(s.books, tx))))
  {
  }

  lemma WritingBilling(s: State, i: nat, tx: Tx, r: BillingRow, now: Time)
    requires StageOf(s, i) == Paying(tx, SawBilling(r)) && tx.charge.billingId in s.books.billings
    requires BillingFree(s, i, tx.charge.billingId)
    ensures Can(s, i, WriteBilling(now))
    ensures var w := OverwriteBilling(SeenBilling(s.books, tx), r.As(BillingStatusAfter(tx.payment), now));
            Do(s, i, WriteBilling(now)) == To(s, i, Paying(tx.(billing := Some(w)), BillingDone))
  {
    hide BillingFree;
  }

  lemma Committing(s: State, i: nat, tx: Tx)
    requires StageOf(s, i) == Paying(tx, BillingDone)
    ensures Can(s, i, CommitPayment)
    ensures Do(s, i, CommitPayment) == State(Merge(s.books, tx), s.procs[i := Done(tx.charge)])
  {
    hide Merge;
  }

  /** The result event delivered once more. */
  lemma ResultAgain(s: State, i: nat, tx: Tx)
    requires StageOf(s, i) == Paying(tx, BillingDone)
    ensures Can(s, i, RedeliverResult) && Do(s, i, RedeliverResult) == To(s, i, Paying(tx, Settled))
  {
  }

  /** BillingRequested delivered once more. */
  lemma RequestAgain(s: State, i: nat, c: ChargeInput)
    requires StageOf(s, i) == Done(c)
    ensures Can(s, i, RedeliverRequest) && Do(s, i, RedeliverRequest) == To(s, i, Ready(c))
  {
  }

  /** Whatever stands open can be rolled back, by anybody and at any time. */
  lemma GivingUp(s: State, i: nat)
    ensures Can(s, i, GiveUp) && Do(s, i, GiveUp) == To(s, i, Idle)
  {
  }

  /** A statement moves its own request and no other. */
  lemma OthersStand(s: State, i: nat, a: Action)
    requires Can(s, i, a)
    ensures Do(s, i, a).procs == s.procs[i := StageOf(Do(s, i, a), i)]
  {
    hide HasAttempt, HasApproved, HasBilling, BillingCollides, KeysFree, PaymentCollides, ApprovalFree, IsNewPayment,
         Merge;
  }

  lemma NothingHasRun()
    ensures IsRun([START], [])
  {
  }

  /** A run goes on with one more step. */
  lemma RunGrows(run: seq<State>, trace: seq<(nat, Action)>, i: nat, a: Action)
    requires IsRun(run, trace) && Can(Last(run), i, a)
    ensures IsRun(run + [Do(Last(run), i, a)], trace + [(i, a)])
  {
    var run', trace' := run + [Do(Last(run), i, a)], trace + [(i, a)];
    forall k | 0 <= k < |trace'| ensures Step(run'[k], trace'[k].0, trace'[k].1, run'[k + 1]) {
      if k < |trace| {
        assert Step(run[k], trace[k].0, trace[k].1, run[k + 1]);
      }
    }
  }
}
