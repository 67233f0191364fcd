/** Concurrent requests wait for each other, but never in a circle: from every reachable state all of them can end
without giving up, and after that any billing can still be paid. */
module Liveness {
  import opened Wrappers
  import opened Text
  import opened Entities
  import opened Storage
  import opened IdempotencyKey
  import opened Tables
  import opened Ledger
  import opened Concurrency
  import opened Statements
  import opened Recovery

  // ---- Somebody can always move ----

  /** Request `j` can do something other than give up, and gets nearer to its end. */
  ghost predicate Moves(s: State, j: nat, a: Action) {
    && j in s.procs && !a.GiveUp? && Can(s, j, a)
    && StepsLeft(StageOf(Do(s, j, a), j)) < StepsLeft(s.procs[j])
  }

  /** A request that looks around, or has just locked a billing or opened its transaction, waits for nobody. */
  lemma LookingMoves(s: State, i: nat) returns (a: Action)
    requires Safe(s) && i in s.procs
    requires var st := s.procs[i]; st.Announcing? || st.Locked? || st.Ready? || st.Opened? || st.Missing?
    ensures Moves(s, i, a)
  {
    hide Can, Do, Safe, HasBilling, HasAttempt, HasApproved;
    if s.procs[i].Locked? {
      LockedIsStored(s, i);
    }
    match s.procs[i]
    case Announcing(e) => LookingForBilling(s, i, e); a := LookForBilling;
    case Locked(b, seen) => Reactivating(s, i, b, seen, ZERO_TIME); a := CommitReactivation(ZERO_TIME);
    case Ready(c) => Beginning(s, i, c); a := Begin;
    case Opened(c) => LookingForAttempt(s, i, c); a := LookForAttempt;
    case Missing(c) => LookingForApproval(s, i, c); a := LookForApproval;
  }

  lemma LockedIsStored(s: State, i: nat)
    requires Safe(s) && i in s.procs && s.procs[i].Locked?
    ensures s.procs[i].billingId in s.books.billings
  {
    assert StageOk(s.books, s.procs[i]);
  }

  /** Nor does one that inserts a billing: it is stored, or refused at once. */
  lemma BillableMoves(s: State, i: nat, id: string, now: Time) returns (a: Action)
    requires Safe(s) && InOrder(s) && i in s.procs && s.procs[i].Billable? && id != "" && Trimmed(id)
    ensures Moves(s, i, a)
  {
    var e := s.procs[i].event;
    assert StageOk(s.books, s.procs[i]);
    assert StorableInvoice(s.books.invoices[e.invoiceId]) && s.books.invoices[e.invoiceId].id == e.invoiceId;
    hide Can, Do, Safe, InOrder, LedgerInv, BillingCollides;
    TrimKeepsTrimmed(id);
    TrimKeepsTrimmed(e.invoiceId);
    TrimKeepsTrimmed(e.customerId);
    var r := NewBilling(id, e.invoiceId, e.customerId, e.amountCents, e.dueDate, now).value;
    InsertingBilling(s, i, e, r);
    a := InsertBilling(r);
  }

  /** An insert of a payment waits only for another payment transaction. */
  lemma UnapprovedMoves(s: State, i: nat, c: ChargeInput, p: PaymentRow) returns (a: Action)
    requires i in s.procs && s.procs[i] == Unapproved(c) && IsNewPayment(p, c) && KeysFree(s, i, p)
    ensures Moves(s, i, a)
  {
    hide Can, Do, IsNewPayment, KeysFree, PaymentCollides;
    if PaymentCollides(s.books, p) {
      BeingRefused(s, i, c, p, true);
      a := InsertRefused(p, true);
    } else {
      Reserving(s, i, c, p);
      a := InsertPayment(p);
    }
  }

  /** What the invariant says of an open payment transaction. */
  lemma PayingFacts(s: State, i: nat, tx: Tx, at: Point)
    requires Safe(s) && i in s.procs && s.procs[i] == Paying(tx, at)
    ensures tx.charge.billingId in s.books.billings && tx.charge.invoiceId in s.books.invoices
    ensures s.books.billings[tx.charge.billingId].invoiceId == tx.charge.invoiceId
    ensures tx.payment.status == PendingPayment <==> at.Reserved?
    ensures at.SawInvoice? || at.InvoiceDone? ==> tx.payment.status == ApprovedPayment
    ensures SeenInvoice(s.books, tx).status == PendingInvoice || SeenInvoice(s.books, tx).status == PaidInvoice
  {
    assert StageOk(s.books, s.procs[i]);
  }

  /** A payment transaction never waits for another one: they are about different invoices. */
  lemma InvoiceIsFree(s: State, i: nat, tx: Tx, at: Point)
    requires Safe(s) && i in s.procs && s.procs[i] == Paying(tx, at)
    ensures InvoiceFree(s, i, tx.charge.invoiceId)
  {
    PayingFacts(s, i, tx, at);
    forall j | j in s.procs && j != i ensures !HoldsInvoice(s.procs[j], tx.charge.invoiceId) {
      if s.procs[j].Paying? {
        PayingFacts(s, j, s.procs[j].tx, s.procs[j].at);
        assert Apart(s.procs[i], s.procs[j]);
      }
    }
  }

  /** It waits at most for a retry that holds the lock of its billing. */
  lemma OnlyRetriesBlock(s: State, i: nat, tx: Tx, at: Point, j: nat)
    requires Safe(s) && i in s.procs && s.procs[i] == Paying(tx, at)
    requires j in s.procs && j != i && HoldsBilling(s.procs[j], tx.charge.billingId)
    ensures s.procs[j].Locked?
  {
    assert Apart(s.procs[i], s.procs[j]);
  }

  /** So a payment transaction moves, or a retry does that it waits for. */
  lemma PayingMoves(s: State, i: nat, tx: Tx, at: Point) returns (j: nat, a: Action)
    requires Safe(s) && i in s.procs && s.procs[i] == Paying(tx, at)
    ensures Moves(s, j, a)
  {
    hide Can, Do, Safe, InvoiceFree;
    PayingFacts(s, i, tx, at);
    j := i;
    match at
    case Reserved =>
      Charging(s, i, tx, DeadlineExceeded, ZERO_TIME);
      a := CallGateway(DeadlineExceeded, ZERO_TIME);
    case Settled =>
      if tx.payment.status == ApprovedPayment {
        ReadingInvoice(s, i, tx);
        a := ReadInvoice;
      } else {
        ReadingBilling(s, i, tx, at);
        a := ReadBilling;
      }
    case SawInvoice(r) =>
      InvoiceIsFree(s, i, tx, at);
      WritingInvoice(s, i, tx, r, tx.payment.updatedAt);
      a := WriteInvoice(tx.payment.updatedAt);
    case InvoiceDone =>
      ReadingBilling(s, i, tx, at);
      a := ReadBilling;
    case SawBilling(r) =>
      if BillingFree(s, i, tx.charge.billingId) {
        WritingBilling(s, i, tx, r, ZERO_TIME);
        a := WriteBilling(ZERO_TIME);
      } else {
        j :| j in s.procs && j != i && HoldsBilling(s.procs[j], tx.charge.billingId);
        OnlyRetriesBlock(s, i, tx, at, j);
        a := LookingMoves(s, j);
      }
    case BillingDone =>
      Committing(s, i, tx);
      a := CommitPayment;
  }

  /** As long as a request has not ended, some request can move. */
  lemma SomebodyMoves(s: State, i: nat, id: string, now: Time) returns (j: nat, a: Action)
    requires Safe(s) && InOrder(s) && i in s.procs && !Resting(s.procs[i]) && id != "" && Trimmed(id)
    ensures Moves(s, j, a)
  {
    hide Safe, InOrder, Moves, IsNewPayment, KeysFree, SharesKey;
    j := i;
    match s.procs[i]
    case Billable(_) => a := BillableMoves(s, i, id, now);
    case Paying(tx, at) => j, a := PayingMoves(s, i, tx, at);
    case Unapproved(c) =>
      var p := NewPaymentFor(s, i, c, id, now);
      if KeysFree(s, i, p) {
        a := UnapprovedMoves(s, i, c, p);
      } else {
        var k := WhoSharesKey(s, i, p);
        j, a := PayingMoves(s, k, s.procs[k].tx, s.procs[k].at);
      }
    case _ => a := LookingMoves(s, i);
  }

  lemma WhoSharesKey(s: State, i: nat, p: PaymentRow) returns (j: nat)
    requires !KeysFree(s, i, p)
    ensures j in s.procs && s.procs[j].Paying?
  {
    j :| j in s.procs && j != i && SharesKey(s.procs[j], p);
  }

  lemma NewPaymentFor(s: State, i: nat, c: ChargeInput, id: string, now: Time) returns (p: PaymentRow)
    requires Safe(s) && InOrder(s) && i in s.procs && s.procs[i] == Unapproved(c) && id != "" && Trimmed(id)
    ensures IsNewPayment(p, c)
  {
    assert StageOk(s.books, s.procs[i]);
    assert StorableBilling(s.books.billings[c.billingId]) && s.books.billings[c.billingId].id == c.billingId;
    p := PaymentFor(c, id, now);
    TrimKeepsTrimmed(id);
    TrimKeepsTrimmed(c.billingId);
    TrimKeepsTrimmed(c.invoiceId);
    KeyIsTrimmed(c.billingId, c.attemptNumber);
  }

  lemma MoversAreNotResting(s: State, j: nat, a: Action)
    requires Moves(s, j, a)
    ensures !Resting(s.procs[j])
  {
    hide Can, Do;
  }

  /** No deadlock: in every state of every run, as long as a request has not ended, some request that has not ended can
      do something other than give up. */
  lemma NoDeadlock(run: seq<State>, trace: seq<(nat, Action)>, k: nat, i: nat, id: string, now: Time)
    requires IsRun(run, trace) && k < |run| && i in run[k].procs && !Resting(run[k].procs[i])
    requires id != "" && Trimmed(id)
    ensures exists j: nat, a: Action :: j in run[k].procs && !Resting(run[k].procs[j]) && !a.GiveUp?
                                        && Can(run[k], j, a)
  {
    hide Can, Do, Safe, InOrder, StepsLeft;
    RunKeeps(run, trace, k);
    var j, a := SomebodyMoves(run[k], i, id, now);
    MoversAreNotResting(run[k], j, a);
  }

  // ---- Everybody can end ----

  /** How many statements all requests together have left at most. */
  ghost function TotalLeft(procs: map<nat, Stage>): nat {
    if procs == map[] then 0 else var i :| i in procs; StepsLeft(procs[i]) + TotalLeft(procs - {i})
  }

  lemma {:induction false} TotalSplits(procs: map<nat, Stage>, i: nat)
    requires i in procs
    ensures TotalLeft(procs) == StepsLeft(procs[i]) + TotalLeft(procs - {i})
    decreases procs
  {
    var j :| j in procs && TotalLeft(procs) == StepsLeft(procs[j]) + TotalLeft(procs - {j});
    if i != j {
      TotalSplits(procs - {j}, i);
      TotalSplits(procs - {i}, j);
      assert procs - {j} - {i} == procs - {i} - {j};
    }
  }

  lemma MovingNearsTheEnd(s: State, j: nat, a: Action)
    requires Moves(s, j, a)
    ensures TotalLeft(Do(s, j, a).procs) < TotalLeft(s.procs)
  {
    OthersStand(s, j, a);
    hide Can, Do;
    var u := Do(s, j, a);
    TotalSplits(s.procs, j);
    TotalSplits(u.procs, j);
    assert u.procs - {j} == s.procs - {j};
  }

  /** Every run can go on, without anybody giving up, until all requests have ended. */
  lemma {:induction false} EverybodyEnds(run: seq<State>, trace: seq<(nat, Action)>, id: string, now: Time)
    returns (run': seq<State>, trace': seq<(nat, Action)>)
    requires IsRun(run, trace) && id != "" && Trimmed(id)
    ensures IsRun(run', trace') && run <= run' && trace <= trace'
    ensures forall k :: |trace| <= k < |trace'| ==> !trace'[k].1.GiveUp?
    ensures forall j :: j in Last(run').procs ==> Resting(Last(run').procs[j])
    decreases TotalLeft(Last(run).procs)
  {
    hide Can, Do, Safe, InOrder, TotalLeft, IsRun;
    LastIsKept(run, trace);
    var s := Last(run);
    run', trace' := run, trace;
    if i :| i in s.procs && !Resting(s.procs[i]) {
      var j, a := SomebodyMoves(s, i, id, now);
      MovingNearsTheEnd(s, j, a);
      RunGrows(run, trace, j, a);
      var u := Do(s, j, a);
      assert Last(run + [u]) == u;
      var longer, longerTrace := EverybodyEnds(run + [u], trace + [(j, a)], id, now);
      assert longerTrace[|trace|] == (trace + [(j, a)])[|trace|];
      run', trace' := longer, longerTrace;
    }
  }

  lemma LastIsKept(run: seq<State>, trace: seq<(nat, Action)>)
    requires IsRun(run, trace)
    ensures run != [] && Safe(Last(run)) && InOrder(Last(run))
  {
    RunKeeps(run, trace, |run| - 1);
  }

  // ---- And anything can be paid ----

  lemma {:induction false} LongerThanAll(used: set<string>) returns (n: nat)
    ensures forall x :: x in used ==> |x| < n
    decreases used
  {
    if used == {} {
      n := 0;
    } else {
      var x :| x in used;
      var m := LongerThanAll(used - {x});
      n := if m <= |x| then |x| + 1 else m;
    }
  }

  /** There is always an id nobody has used. */
  lemma UnusedId(used: set<string>) returns (id: string)
    ensures id != "" && Trimmed(id) && id !in used
  {
    var n := LongerThanAll(used);
    id := seq(n + 1, k => 'a');
  }

  /** Whatever state a run has reached, and whatever was given up on the way: without anybody giving up any more, every
      billing can still become approved, with its payment and its invoice. */
  lemma AlwaysPayable(run: seq<State>, trace: seq<(nat, Action)>, b: string, reply: Reply, now: Time)
    returns (run': seq<State>, trace': seq<(nat, Action)>)
    requires IsRun(run, trace) && b in Last(run).books.billings && reply.Answer? && reply.status == "Approved"
    ensures IsRun(run', trace') && run <= run' && trace <= trace'
    ensures forall k :: |trace| <= k < |trace'| ==> !trace'[k].1.GiveUp?
    ensures PaidUp(Last(run').books, b)
  {
    hide IsRun, Can, Do, Safe, InOrder, PaidUp;
    LastIsKept(run, trace);
    run', trace' := EverybodyEnds(run, trace, "id", now);
    BillingsStay(run', trace', |run| - 1, b);
    var s := Last(run');
    if s.books.billings[b].status == ApprovedBilling {
      ApprovedIsPaidUp(run', trace', b);
    } else {
      var id := UnusedId(s.books.payments.Keys);
      var longer, longerTrace := NeverWedged(run', trace', 0, b, id, reply, now);
      assert forall k :: |trace| <= k < |trace'| ==> longerTrace[k] == trace'[k];
      ApprovedIsPaidUp(longer, longerTrace, b);
      run', trace' := longer, longerTrace;
    }
  }

  /** The billing is approved, its invoice paid, and a payment of it approved. */
  ghost predicate PaidUp(t: Books, b: string) {
    && b in t.billings && t.billings[b].status == ApprovedBilling
    && t.billings[b].invoiceId in t.invoices && t.invoices[t.billings[b].invoiceId].status == PaidInvoice
    && HasApproved(t, t.billings[b].invoiceId)
  }

  lemma ApprovedIsPaidUp(run: seq<State>, trace: seq<(nat, Action)>, b: string)
    requires IsRun(run, trace)
    requires b in Last(run).books.billings && Last(run).books.billings[b].status == ApprovedBilling
    ensures PaidUp(Last(run).books, b)
  {
    LastIsKept(run, trace);
    hide IsRun, InOrder;
    ModulesAgree(Last(run).books, Last(run).books.billings[b].invoiceId);
  }

  lemma BillingsStay(run: seq<State>, trace: seq<(nat, Action)>, k: nat, b: string)
    requires IsRun(run, trace) && k < |run| && b in run[k].books.billings
    ensures b in Last(run).books.billings
  {
    RunGoesForward(run, trace, k, |run| - 1);
  }

  // ---- And anything can be started ----

  /** A rested system takes a new invoice, and nobody has billed it. */
  lemma InvoiceIsCreated(
      s: State, i: nat, r: InvoiceRow, customerId: string, amountCents: int, dueDate: Time, now: Time)
    requires Alone(s, i, StageOf(s, i)) && Resting(StageOf(s, i)) && r.id !in s.books.invoices
    requires NewInvoice(r.id, customerId, amountCents, dueDate, now) == Ok(r)
    ensures Can(s, i, CreateInvoice(r))
    ensures var e, u := Announcement(r.id, r.customerId, r.amountCents, r.dueDate), Do(s, i, CreateInvoice(r));
            && Alone(u, i, Announcing(e)) && !HasBilling(u.books, r.id)
            && u.books.billings == s.books.billings && u.books.payments == s.books.payments
            && r.id in u.books.invoices && u.books.invoices[r.id] == r
  {
    CreatingInvoice(s, i, r, customerId, amountCents, dueDate, now);
    AloneSteps(s, i, StageOf(s, i), CreateInvoice(r));
    hide Can, Do, InOrder;
    assert forall b :: b in s.books.billings ==> s.books.billings[b].invoiceId in s.books.invoices;
  }

  lemma BillingIsWanted(s: State, i: nat, e: Announcement)
    requires Alone(s, i, Announcing(e)) && !HasBilling(s.books, e.invoiceId)
    ensures Can(s, i, LookForBilling)
    ensures Alone(To(s, i, Billable(e)), i, Billable(e)) && Do(s, i, LookForBilling) == To(s, i, Billable(e))
  {
    hide HasBilling;
    LookingForBilling(s, i, e);
    AloneSteps(s, i, Announcing(e), LookForBilling);
  }

  /** Its billing can be inserted, and its first attempt is due. */
  lemma BillingIsInserted(s: State, i: nat, e: Announcement, id: string, now: Time) returns (r: BillingRow)
    requires Alone(s, i, Billable(e)) && !HasBilling(s.books, e.invoiceId)
    requires id != "" && Trimmed(id) && id !in s.books.billings
    ensures r.id == id && r.invoiceId == e.invoiceId && Can(s, i, InsertBilling(r))
    ensures var u := Do(s, i, InsertBilling(r));
            && Alone(u, i, Ready(InputFor(r))) && OnTheWay(u.books, Ready(InputFor(r)), id)
            && u.books == s.books.(billings := s.books.billings[id := r])
  {
    assert StageOk(s.books, StageOf(s, i));
    r := NewBillingFor(s, i, e, id, now);
    InsertingBilling(s, i, e, r);
    AloneSteps(s, i, Billable(e), InsertBilling(r));
    hide LedgerInv, RowsKept, HasBilling, NewBilling;
  }

  lemma NewBillingFor(s: State, i: nat, e: Announcement, id: string, now: Time) returns (r: BillingRow)
    requires Safe(s) && InOrder(s) && StageOf(s, i) == Billable(e) && id != "" && Trimmed(id)
    ensures r.id == id && r.invoiceId == e.invoiceId && r.createdAt == now
    ensures r.status == RequestedBilling && r.attemptNumber == 1
    ensures NewBilling(id, e.invoiceId, e.customerId, e.amountCents, e.dueDate, now) == Ok(r)
  {
    assert StageOk(s.books, s.procs[i]);
    assert StorableInvoice(s.books.invoices[e.invoiceId]) && s.books.invoices[e.invoiceId].id == e.invoiceId;
    hide Safe, InOrder, LedgerInv;
    TrimKeepsTrimmed(id);
    TrimKeepsTrimmed(e.invoiceId);
    TrimKeepsTrimmed(e.customerId);
    r := NewBilling(id, e.invoiceId, e.customerId, e.amountCents, e.dueDate, now).value;
  }

  /** The invoice that a good input makes, under `id`. */
  lemma GoodInvoice(id: string, customerId: string, amountCents: int, dueDate: Time, now: Time) returns (r: InvoiceRow)
    requires CanInvoice(customerId, amountCents, dueDate) && id != "" && Trimmed(id)
    ensures NewInvoice(id, customerId, amountCents, dueDate, now) == Ok(r) && MadeOf(r, id, customerId, amountCents,
                                                                                     dueDate)
  {
    TrimStrips(id);
    TrimKeepsTrimmed(id);
    MadeInvoices(id, customerId, amountCents, dueDate, now);
    r := NewInvoice(id, customerId, amountCents, dueDate, now).value;
  }

  predicate MadeOf(r: InvoiceRow, id: string, customerId: string, amountCents: int, dueDate: Time) {
    && r.id == id && r.customerId == TrimSpace(customerId) && r.amountCents == amountCents
    && r.dueDate <= dueDate < r.dueDate + 86400
  }

  /** Create, look, insert: three statements to a billing whose first attempt is due. */
  lemma InvoiceIsBilled(
      run: seq<State>, trace: seq<(nat, Action)>, r: InvoiceRow, customerId: string, amountCents: int, dueDate: Time,
      now: Time)
    returns (run': seq<State>, trace': seq<(nat, Action)>, b: string)
    requires IsRun(run, trace) && Alone(Last(run), 0, StageOf(Last(run), 0)) && Resting(StageOf(Last(run), 0))
    requires r.id !in Last(run).books.invoices && NewInvoice(r.id, customerId, amountCents, dueDate, now) == Ok(r)
    ensures IsRun(run', trace') && run <= run' && trace <= trace'
    ensures forall k :: |trace| <= k < |trace'| ==> !trace'[k].1.GiveUp?
    ensures var s := Last(run');
            && s.books.payments == Last(run).books.payments
            && r.id in s.books.invoices && s.books.invoices[r.id] == r
            && Alone(s, 0, StageOf(s, 0)) && OnTheWay(s.books, StageOf(s, 0), b)
            && b in s.books.billings && s.books.billings[b].invoiceId == r.id
  {
    hide Can, Do, Safe, InOrder, NewInvoice, HasBilling, OnTheWay, Alone;
    var s := Last(run);
    var e := Announcement(r.id, r.customerId, r.amountCents, r.dueDate);
    InvoiceIsCreated(s, 0, r, customerId, amountCents, dueDate, now);
    RunGrows(run, trace, 0, CreateInvoice(r));
    var u := Do(s, 0, CreateInvoice(r));
    BillingIsWanted(u, 0, e);
    var run1, trace1 := run + [u], trace + [(0, CreateInvoice(r))];
    var v := To(u, 0, Billable(e));
    RunGrows(run1, trace1, 0, LookForBilling);
    b := UnusedId(v.books.billings.Keys);
    var billing := BillingIsInserted(v, 0, e, b, now);
    RunGrows(run1 + [v], trace1 + [(0, LookForBilling)], 0, InsertBilling(billing));
    run' := run1 + [v] + [Do(v, 0, InsertBilling(billing))];
    trace' := trace1 + [(0, LookForBilling)] + [(0, InsertBilling(billing))];
    AloneHere(Last(run'), 0, Ready(InputFor(billing)));
  }

  /** Whatever state a run has reached, for every good input an invoice can be created, billed and paid. */
  lemma NewInvoicesGetPaid(
      run: seq<State>, trace: seq<(nat, Action)>, customerId: string, amountCents: int, dueDate: Time, reply: Reply,
      now: Time)
    returns (run': seq<State>, trace': seq<(nat, Action)>, id: string)
    requires IsRun(run, trace) && CanInvoice(customerId, amountCents, dueDate)
    requires reply.Answer? && reply.status == "Approved"
    ensures IsRun(run', trace') && run <= run' && trace <= trace'
    ensures forall k :: |trace| <= k < |trace'| ==> !trace'[k].1.GiveUp?
    ensures id !in Last(run).books.invoices && id in Last(run').books.invoices
    ensures var r := Last(run').books.invoices[id];
            r.status == PaidInvoice && MadeOf(r, id, customerId, amountCents, dueDate)
  {
    hide IsRun, Can, Do, Safe, InOrder, CanInvoice, NewInvoice, OnTheWay, Alone, MadeOf, OnlyForward;
    LastIsKept(run, trace);
    var run1, trace1 := EverybodyEnds(run, trace, "id", now);
    LastIsKept(run1, trace1);
    id := UnusedId(Last(run1).books.invoices.Keys);
    var r := GoodInvoice(id, customerId, amountCents, dueDate, now);
    RestedIsAlone(Last(run1));
    var run2, trace2, b := InvoiceIsBilled(run1, trace1, r, customerId, amountCents, dueDate, now);
    var payment := UnusedId(Last(run2).books.payments.Keys);
    run', trace' := RunsToApproval(run2, trace2, 0, b, payment, reply, now);
    RunGoesForward(run', trace', |run| - 1, |run1| - 1);
    RunGoesForward(run', trace', |run2| - 1, |run'| - 1);
    ApprovedIsPaidUp(run', trace', b);
    InvoicesStay(Last(run).books, Last(run1).books, id);
    PaidAsMade(Last(run2).books, Last(run').books, r, b, customerId, amountCents, dueDate);
  }

  lemma RestedIsAlone(s: State)
    requires Safe(s) && InOrder(s) && forall j :: j in s.procs ==> Resting(s.procs[j])
    ensures Alone(s, 0, StageOf(s, 0)) && Resting(StageOf(s, 0))
  {
    hide Safe, InOrder;
  }

  lemma InvoicesStay(t: Books, u: Books, i: string)
    requires OnlyForward(t, u)
    ensures i in t.invoices ==> i in u.invoices
  {
  }

  lemma PaidAsMade(
      t: Books, u: Books, r: InvoiceRow, b: string, customerId: string, amountCents: int, dueDate: Time)
    requires OnlyForward(t, u) && PaidUp(u, b) && b in t.billings && t.billings[b].invoiceId == r.id
    requires r.id in t.invoices && t.invoices[r.id] == r && MadeOf(r, r.id, customerId, amountCents, dueDate)
    ensures r.id in u.invoices && u.invoices[r.id].status == PaidInvoice
    ensures MadeOf(u.invoices[r.id], r.id, customerId, amountCents, dueDate)
  {
    assert BillingForward(t.billings[b], u.billings[b]) && InvoiceForward(r, u.invoices[r.id]);
  }
}
