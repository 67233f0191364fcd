/** Between concurrent requests nothing is ever stuck: once all other requests have ended, one retry with an approving
gateway pays any unpaid invoice that has a billing, whatever was rolled back before. */
module Recovery {
  import opened Wrappers
  import opened Text
  import opened Entities
  import opened Storage
  import opened IdempotencyKey
  import opened Tables
  import opened Ledger
  import opened Concurrency
  import opened Statements

  ghost predicate Resting(st: Stage) {
    st.Idle? || st.Done?
  }

  /** All requests have ended, but for `i`, which stands at `stage`. */
  ghost predicate Alone(s: State, i: nat, stage: Stage) {
    && StageOf(s, i) == stage && Safe(s) && InOrder(s)
    && forall j :: j in s.procs && j != i ==> Resting(s.procs[j])
  }

  /** A step of the one request that has not ended. */
  lemma AloneSteps(s: State, i: nat, stage: Stage, a: Action)
    requires Alone(s, i, stage) && Can(s, i, a)
    ensures Alone(Do(s, i, a), i, StageOf(Do(s, i, a), i))
  {
    StepKeepsSafe(s, i, a);
    StepKeepsOrder(s, i, a);
    OthersStand(s, i, a);
    hide Safe, InOrder, Can, Do;
  }

  /** How many statements are left at most. */
  function StepsLeft(st: Stage): nat {
    match st
    case Announcing(_) => 13
    case Billable(_) => 12
    case Locked(_, _) => 11
    case Ready(_) => 10
    case Opened(_) => 9
    case Missing(_) => 8
    case Unapproved(_) => 7
    case Paying(_, Reserved) => 6
    case Paying(_, Settled) => 5
    case Paying(_, SawInvoice(_)) => 4
    case Paying(_, InvoiceDone) => 3
    case Paying(_, SawBilling(_)) => 2
    case Paying(_, BillingDone) => 1
    case _ => 0
  }

  /** Where a retry of billing `b` that is to end in an approval may stand: its attempt is the one that is due. */
  ghost predicate OnTheWay(t: Books, st: Stage, b: string) {
    && b in t.billings
    && match st
       case Locked(d, _) => d == b
       case Ready(c) => Due(t, c, b)
       case Opened(c) => Due(t, c, b)
       case Missing(c) => Due(t, c, b)
       case Unapproved(c) => Due(t, c, b)
       case Paying(tx, at) =>
         && Due(t, tx.charge, b) && (at.Reserved? || tx.payment.status == ApprovedPayment)
         && (at.Settled? || at.Reserved? ==> tx.invoice.None?)
       case _ => false
  }

  ghost predicate Due(t: Books, c: ChargeInput, b: string) {
    && c.billingId == b && b in t.billings && t.billings[b].status == RequestedBilling && t.billings[b].id == b
    && c == InputFor(t.billings[b])
  }

  lemma DueMeansUnpaid(t: Books, c: ChargeInput, b: string)
    requires LedgerInv(t) && Due(t, c, b)
    ensures !HasAttempt(t, c.billingId, c.attemptNumber) && !HasApproved(t, c.invoiceId)
    ensures c.invoiceId in t.invoices && t.invoices[c.invoiceId].status == PendingInvoice
  {
    AttemptIffSettled(t, b, c.attemptNumber);
    ModulesAgree(t, c.invoiceId);
  }

  /** The payment a retry inserts: under an unused id, for the attempt that is due. */
  function PaymentFor(c: ChargeInput, id: string, now: Time): PaymentRow {
    PaymentRow(id, c.billingId, c.invoiceId, c.attemptNumber, BuildIdempotencyKey(c.billingId, c.attemptNumber),
               PendingPayment, "", NoFailure, now, now)
  }

  lemma PaymentForIsNew(t: Books, c: ChargeInput, b: string, id: string, now: Time)
    requires LedgerInv(t) && RowsKept(t) && Due(t, c, b) && id != "" && Trimmed(id) && id !in t.payments
    ensures IsNewPayment(PaymentFor(c, id, now), c) && !PaymentCollides(t, PaymentFor(c, id, now))
  {
    DueMeansUnpaid(t, c, b);
    assert StorableBilling(t.billings[b]) && 1 <= t.billings[b].attemptNumber;
    TrimKeepsTrimmed(id);
    TrimKeepsTrimmed(c.billingId);
    TrimKeepsTrimmed(c.invoiceId);
    KeyIsTrimmed(c.billingId, c.attemptNumber);
    IndexesAgree(t, c.billingId, c.attemptNumber);
  }

  /** The action is possible and leads one step on; the last one pays. */
  ghost predicate GoesOn(s: State, i: nat, b: string, a: Action) {
    && Can(s, i, a)
    && var u, left := Do(s, i, a), StepsLeft(StageOf(s, i));
       if left == 1 then b in u.books.billings && u.books.billings[b].status == ApprovedBilling
       else
         && OnTheWay(u.books, StageOf(u, i), b) && StepsLeft(StageOf(u, i)) == left - 1
         && u.books.payments == s.books.payments
  }

  lemma NobodyInTheWay(s: State, i: nat, stage: Stage, b: string, inv: string, p: PaymentRow)
    requires Alone(s, i, stage)
    ensures BillingFree(s, i, b) && InvoiceFree(s, i, inv) && KeysFree(s, i, p) && ApprovalFree(s, i, inv)
  {
    hide Safe, InOrder;
  }

  lemma AloneHere(s: State, i: nat, stage: Stage)
    requires Alone(s, i, stage)
    ensures StageOf(s, i) == stage && LedgerInv(s.books) && RowsKept(s.books)
  {
  }

  /** A step that commits nothing goes on if it leads on. */
  lemma LocalGoesOn(s: State, i: nat, b: string, a: Action, st: Stage)
    requires Can(s, i, a) && Do(s, i, a) == To(s, i, st) && OnTheWay(s.books, st, b)
    requires StepsLeft(StageOf(s, i)) == StepsLeft(st) + 1 && 1 <= StepsLeft(st)
    ensures GoesOn(s, i, b, a)
  {
    hide Can, Do, OnTheWay, StepsLeft;
  }

  lemma LockedGoesOn(s: State, i: nat, b: string, d: string, seen: BillingRow, now: Time)
    requires Alone(s, i, Locked(d, seen)) && OnTheWay(s.books, Locked(d, seen), b)
    ensures GoesOn(s, i, b, CommitReactivation(now))
  {
    hide Can, Do, LedgerInv, InOrder;
    assert StageOk(s.books, StageOf(s, i));
    Reactivating(s, i, d, seen, now);
    hide Alone, Safe;
  }

  lemma ReadyGoesOn(s: State, i: nat, b: string, c: ChargeInput)
    requires Alone(s, i, Ready(c)) && OnTheWay(s.books, Ready(c), b)
    ensures GoesOn(s, i, b, Begin)
  {
    hide Can, Do, GoesOn, Safe, InOrder, Due;
    Beginning(s, i, c);
    LocalGoesOn(s, i, b, Begin, Opened(c));
  }

  lemma OpenedGoesOn(s: State, i: nat, b: string, c: ChargeInput)
    requires Alone(s, i, Opened(c)) && OnTheWay(s.books, Opened(c), b)
    ensures GoesOn(s, i, b, LookForAttempt)
  {
    hide Can, Do, GoesOn, Alone, Due, LedgerInv, HasAttempt, HasApproved, RowsKept;
    AloneHere(s, i, Opened(c));
    DueMeansUnpaid(s.books, c, b);
    LookingForAttempt(s, i, c);
    LocalGoesOn(s, i, b, LookForAttempt, Missing(c));
  }

  lemma MissingGoesOn(s: State, i: nat, b: string, c: ChargeInput)
    requires Alone(s, i, Missing(c)) && OnTheWay(s.books, Missing(c), b)
    ensures GoesOn(s, i, b, LookForApproval)
  {
    hide Can, Do, GoesOn, Alone, Due, LedgerInv, HasAttempt, HasApproved, RowsKept;
    AloneHere(s, i, Missing(c));
    DueMeansUnpaid(s.books, c, b);
    LookingForApproval(s, i, c);
    LocalGoesOn(s, i, b, LookForApproval, Unapproved(c));
  }

  lemma UnapprovedGoesOn(s: State, i: nat, b: string, c: ChargeInput, id: string, now: Time)
    requires Alone(s, i, Unapproved(c)) && OnTheWay(s.books, Unapproved(c), b)
    requires id != "" && Trimmed(id) && id !in s.books.payments
    ensures GoesOn(s, i, b, InsertPayment(PaymentFor(c, id, now)))
  {
    hide Can, Do, GoesOn, Alone, Due, PaymentFor, IsNewPayment, PaymentCollides, KeysFree, LedgerInv, RowsKept;
    var p := PaymentFor(c, id, now);
    AloneHere(s, i, Unapproved(c));
    PaymentForIsNew(s.books, c, b, id, now);
    NobodyInTheWay(s, i, Unapproved(c), b, c.invoiceId, p);
    Reserving(s, i, c, p);
    LocalGoesOn(s, i, b, InsertPayment(p), Paying(Tx(c, p, None, None), Reserved));
  }

  lemma ReservedGoesOn(s: State, i: nat, b: string, tx: Tx, reply: Reply, now: Time)
    requires Alone(s, i, Paying(tx, Reserved)) && OnTheWay(s.books, Paying(tx, Reserved), b)
    requires reply.Answer? && reply.status == "Approved"
    ensures GoesOn(s, i, b, CallGateway(reply, now))
  {
    hide Can, Do, GoesOn, Alone, Due, LedgerInv, RowsKept, HasApproved, HasAttempt, ApprovalFree;
    AloneHere(s, i, Paying(tx, Reserved));
    ReservedForCharge(s, i, tx, Reserved);
    DueMeansUnpaid(s.books, tx.charge, b);
    NobodyInTheWay(s, i, Paying(tx, Reserved), b, tx.payment.invoiceId, tx.payment);
    Charging(s, i, tx, reply, now);
    LocalGoesOn(s, i, b, CallGateway(reply, now),
                Paying(tx.(payment := SettledAs(tx.payment, OutcomeOf(reply), now)), Settled));
  }

  lemma ReservedForCharge(s: State, i: nat, tx: Tx, at: Point)
    requires Alone(s, i, Paying(tx, at))
    ensures tx.payment.invoiceId == tx.charge.invoiceId
    ensures at.BillingDone? ==> tx.billing.Some? && tx.charge.billingId in s.books.billings
                                && tx.billing.value.status == BillingStatusAfter(tx.payment)
  {
    assert StageOk(s.books, StageOf(s, i));
    hide LedgerInv, InOrder;
  }

  lemma InvoiceIsRead(s: State, i: nat, b: string, tx: Tx)
    requires Alone(s, i, Paying(tx, Settled)) && OnTheWay(s.books, Paying(tx, Settled), b)
    ensures GoesOn(s, i, b, ReadInvoice)
  {
    hide Can, Do, GoesOn, Alone, Due, LedgerInv, RowsKept, HasApproved, HasAttempt;
    AloneHere(s, i, Paying(tx, Settled));
    DueMeansUnpaid(s.books, tx.charge, b);
    ReadingInvoice(s, i, tx);
    LocalGoesOn(s, i, b, ReadInvoice, Paying(tx, SawInvoice(s.books.invoices[tx.charge.invoiceId])));
  }

  lemma InvoiceIsWritten(s: State, i: nat, b: string, tx: Tx, r: InvoiceRow, now: Time)
    requires Alone(s, i, Paying(tx, SawInvoice(r))) && OnTheWay(s.books, Paying(tx, SawInvoice(r)), b)
    requires OccursAt(tx.payment.updatedAt, now)
    ensures GoesOn(s, i, b, WriteInvoice(now))
  {
    hide Can, Do, GoesOn, Alone, Due, LedgerInv, RowsKept, HasApproved, HasAttempt, InvoiceFree;
    AloneHere(s, i, Paying(tx, SawInvoice(r)));
    DueMeansUnpaid(s.books, tx.charge, b);
    NobodyInTheWay(s, i, Paying(tx, SawInvoice(r)), b, tx.charge.invoiceId, tx.payment);
    WritingInvoice(s, i, tx, r, now);
    var w := OverwriteInvoice(SeenInvoice(s.books, tx), r.AsPaid(now));
    LocalGoesOn(s, i, b, WriteInvoice(now), Paying(tx.(invoice := Some(w)), InvoiceDone));
  }

  lemma BillingIsRead(s: State, i: nat, b: string, tx: Tx)
    requires Alone(s, i, Paying(tx, InvoiceDone)) && OnTheWay(s.books, Paying(tx, InvoiceDone), b)
    ensures GoesOn(s, i, b, ReadBilling)
  {
    hide Can, Do, GoesOn, Alone, LedgerInv, RowsKept;
    AloneHere(s, i, Paying(tx, InvoiceDone));
    ReadingBilling(s, i, tx, InvoiceDone);
    LocalGoesOn(s, i, b, ReadBilling, Paying(tx, SawBilling(SeenBilling(s.books, tx))));
  }

  lemma BillingIsWritten(s: State, i: nat, b: string, tx: Tx, r: BillingRow, now: Time)
    requires Alone(s, i, Paying(tx, SawBilling(r))) && OnTheWay(s.books, Paying(tx, SawBilling(r)), b)
    ensures GoesOn(s, i, b, WriteBilling(now))
  {
    hide Can, Do, GoesOn, Alone, LedgerInv, RowsKept, BillingFree;
    AloneHere(s, i, Paying(tx, SawBilling(r)));
    NobodyInTheWay(s, i, Paying(tx, SawBilling(r)), tx.charge.billingId, tx.charge.invoiceId, tx.payment);
    WritingBilling(s, i, tx, r, now);
    var w := OverwriteBilling(SeenBilling(s.books, tx), r.As(BillingStatusAfter(tx.payment), now));
    LocalGoesOn(s, i, b, WriteBilling(now), Paying(tx.(billing := Some(w)), BillingDone));
  }

  lemma PaymentIsCommitted(s: State, i: nat, b: string, tx: Tx)
    requires Alone(s, i, Paying(tx, BillingDone)) && OnTheWay(s.books, Paying(tx, BillingDone), b)
    ensures GoesOn(s, i, b, CommitPayment)
  {
    hide Can, Do, Alone, LedgerInv, RowsKept;
    AloneHere(s, i, Paying(tx, BillingDone));
    ReservedForCharge(s, i, tx, BillingDone);
    Committing(s, i, tx);
  }

  lemma NextGoesOn(s: State, i: nat, b: string, id: string, reply: Reply, now: Time) returns (a: Action)
    requires var st := StageOf(s, i); Alone(s, i, st) && OnTheWay(s.books, st, b)
    requires reply.Answer? && reply.status == "Approved" && id != "" && Trimmed(id) && id !in s.books.payments
    ensures GoesOn(s, i, b, a) && !a.GiveUp? && 1 <= StepsLeft(StageOf(s, i))
  {
    hide Alone, GoesOn, Due;
    var st := StageOf(s, i);
    match st
    case Locked(d, seen) => LockedGoesOn(s, i, b, d, seen, now); a := CommitReactivation(now);
    case Ready(c) => ReadyGoesOn(s, i, b, c); a := Begin;
    case Opened(c) => OpenedGoesOn(s, i, b, c); a := LookForAttempt;
    case Missing(c) => MissingGoesOn(s, i, b, c); a := LookForApproval;
    case Unapproved(c) => UnapprovedGoesOn(s, i, b, c, id, now); a := InsertPayment(PaymentFor(c, id, now));
    case Paying(tx, at) =>
      match at {
        case Reserved => ReservedGoesOn(s, i, b, tx, reply, now); a := CallGateway(reply, now);
        case Settled => InvoiceIsRead(s, i, b, tx); a := ReadInvoice;
        case SawInvoice(r) =>
          var at := if tx.payment.updatedAt == ZERO_TIME then now else tx.payment.updatedAt;
          InvoiceIsWritten(s, i, b, tx, r, at);
          a := WriteInvoice(at);
        case InvoiceDone => BillingIsRead(s, i, b, tx); a := ReadBilling;
        case SawBilling(r) => BillingIsWritten(s, i, b, tx, r, now); a := WriteBilling(now);
        case BillingDone => PaymentIsCommitted(s, i, b, tx); a := CommitPayment;
      }
  }

  /** From anywhere on the way, a run goes on to the approval. */
  lemma {:induction false} RunsToApproval(
      run: seq<State>, trace: seq<(nat, Action)>, i: nat, b: string, id: string, reply: Reply, now: Time)
    returns (run': seq<State>, trace': seq<(nat, Action)>)
    requires IsRun(run, trace)
    requires var s := Last(run); Alone(s, i, StageOf(s, i)) && OnTheWay(s.books, StageOf(s, i), b)
    requires reply.Answer? && reply.status == "Approved" && id != "" && Trimmed(id) && id !in Last(run).books.payments
    ensures IsRun(run', trace') && run <= run' && trace <= trace'
    ensures |trace'| == |trace| + StepsLeft(StageOf(Last(run), i))
    ensures forall k :: |trace| <= k < |trace'| ==> trace'[k].0 == i && !trace'[k].1.GiveUp?
    ensures var t := Last(run').books; b in t.billings && t.billings[b].status == ApprovedBilling
    decreases StepsLeft(StageOf(Last(run), i))
  {
    hide Alone;
    var s := Last(run);
    var a := NextGoesOn(s, i, b, id, reply, now);
    AloneSteps(s, i, StageOf(s, i), a);
    var u := Do(s, i, a);
    run', trace' := run + [u], trace + [(i, a)];
    RunGrows(run, trace, i, a);
    if StepsLeft(StageOf(s, i)) > 1 {
      var longer, longerTrace := RunsToApproval(run', trace', i, b, id, reply, now);
      run', trace' := longer, longerTrace;
    }
  }

  /** Never wedged: after any run at whose end all requests have ended, and for any billing that is not approved yet,
      one retry with an approving gateway is possible step by step and ends with billing, payment and invoice agreeing
      that it is paid. */
  lemma NeverWedged(run: seq<State>, trace: seq<(nat, Action)>, i: nat, b: string, id: string, reply: Reply, now: Time)
    returns (run': seq<State>, trace': seq<(nat, Action)>)
    requires IsRun(run, trace)
    requires forall j :: j in Last(run).procs ==> Resting(Last(run).procs[j])
    requires b in Last(run).books.billings && Last(run).books.billings[b].status != ApprovedBilling
    requires reply.Answer? && reply.status == "Approved" && id != "" && Trimmed(id) && id !in Last(run).books.payments
    ensures IsRun(run', trace') && run <= run' && trace <= trace' && |trace'| == |trace| + 12
    ensures trace'[|trace|] == (i, LockBilling(b))
    ensures forall k :: |trace| <= k < |trace'| ==> trace'[k].0 == i && !trace'[k].1.GiveUp?
    ensures var t := Last(run').books;
            && b in t.billings && t.billings[b].status == ApprovedBilling
            && t.billings[b].invoiceId in t.invoices && t.invoices[t.billings[b].invoiceId].status == PaidInvoice
            && HasApproved(t, t.billings[b].invoiceId)
  {
    var s := Last(run);
    RunKeeps(run, trace, |run| - 1);
    LockingIsPossible(s, i, b);
    var u := Do(s, i, LockBilling(b));
    RunGrows(run, trace, i, LockBilling(b));
    run', trace' := RunsToApproval(run + [u], trace + [(i, LockBilling(b))], i, b, id, reply, now);
    assert trace'[|trace|] == (trace + [(i, LockBilling(b))])[|trace|];
    RunKeeps(run', trace', |run'| - 1);
    ModulesAgree(Last(run').books, Last(run').books.billings[b].invoiceId);
  }

  lemma LockingIsPossible(s: State, i: nat, b: string)
    requires Safe(s) && InOrder(s) && forall j :: j in s.procs ==> Resting(s.procs[j])
    requires b in s.books.billings && s.books.billings[b].status != ApprovedBilling
    ensures Can(s, i, LockBilling(b))
    ensures var u := Do(s, i, LockBilling(b));
            Alone(u, i, Locked(b, s.books.billings[b])) && OnTheWay(u.books, StageOf(u, i), b) && u.books == s.books
  {
    hide LedgerInv, RowsKept;
    assert Can(s, i, LockBilling(b));
    StepKeepsSafe(s, i, LockBilling(b));
    StepKeepsOrder(s, i, LockBilling(b));
  }
}
