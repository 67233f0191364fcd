/** What faults do to concurrent runs: whatever is open can be rolled back at any time, and an event delivered once more
can be delivered whenever the bus may do so. Neither changes a table, and what was rolled back can be tried again. */
module Interruptions {
  import opened Wrappers
  import opened Text
  import opened Entities
  import opened Storage
  import opened IdempotencyKey
  import opened Tables
  import opened Ledger
  import opened Concurrency
  import opened Statements
  import opened Recovery
  import opened Liveness

  lemma GrowsTo(run: seq<State>, trace: seq<(nat, Action)>, i: nat, a: Action, u: State)
    requires IsRun(run, trace) && Can(Last(run), i, a) && Do(Last(run), i, a) == u
    ensures IsRun(run + [u], trace + [(i, a)]) && Last(run + [u]) == u
  {
    hide Can, Do;
    RunGrows(run, trace, i, a);
  }

  /** Rollback anywhere: after every run any request can end at once, with the tables and all other requests as they
      are. */
  lemma AnybodyCanRollBack(run: seq<State>, trace: seq<(nat, Action)>, i: nat)
    requires IsRun(run, trace)
    ensures var s := Last(run); IsRun(run + [State(s.books, s.procs[i := Idle])], trace + [(i, GiveUp)])
  {
    hide Can, Do;
    GivingUp(Last(run), i);
    GrowsTo(run, trace, i, GiveUp, To(Last(run), i, Idle));
  }

  // ---- Deliveries once more ----

  /** An announced invoice can be announced again by any request that has ended; if it has a billing, that request ends
      again with nothing changed. */
  lemma AnnouncedAgain(run: seq<State>, trace: seq<(nat, Action)>, i: nat, inv: string)
    requires IsRun(run, trace) && Resting(StageOf(Last(run), i)) && inv in Last(run).books.invoices
    ensures var s, r := Last(run), Last(run).books.invoices[inv];
            var u := To(s, i, Announcing(Announcement(inv, r.customerId, r.amountCents, r.dueDate)));
            && IsRun(run + [u], trace + [(i, Redeliver(inv))])
            && (HasBilling(s.books, inv) ==>
                  IsRun(run + [u] + [To(s, i, Idle)], trace + [(i, Redeliver(inv))] + [(i, LookForBilling)]))
  {
    assert run != [];
    hide Can, Do, IsRun, HasBilling;
    var s, r := Last(run), Last(run).books.invoices[inv];
    var e := Announcement(inv, r.customerId, r.amountCents, r.dueDate);
    AnnouncingAgain(s, i, inv);
    GrowsTo(run, trace, i, Redeliver(inv), To(s, i, Announcing(e)));
    if HasBilling(s.books, inv) {
      LookingForBilling(To(s, i, Announcing(e)), i, e);
      GrowsTo(run + [To(s, i, Announcing(e))], trace + [(i, Redeliver(inv))], i, LookForBilling, To(s, i, Idle));
    }
  }

  /** A request that has made its attempt can be delivered again; if the attempt is stored, three statements later
      everything is exactly as before, and the gateway has not been called. */
  lemma RequestedAgain(run: seq<State>, trace: seq<(nat, Action)>, i: nat, c: ChargeInput)
    requires IsRun(run, trace) && i in Last(run).procs && Last(run).procs[i] == Done(c)
    ensures var s := Last(run);
            && IsRun(run + [To(s, i, Ready(c))], trace + [(i, RedeliverRequest)])
            && (HasAttempt(s.books, c.billingId, c.attemptNumber) ==>
                  IsRun(run + [To(s, i, Ready(c))] + [To(s, i, Opened(c))] + [s],
                        trace + [(i, RedeliverRequest)] + [(i, Begin)] + [(i, LookForAttempt)]))
  {
    assert run != [];
    hide Can, Do, IsRun, HasAttempt;
    var s := Last(run);
    RequestAgain(s, i, c);
    GrowsTo(run, trace, i, RedeliverRequest, To(s, i, Ready(c)));
    if HasAttempt(s.books, c.billingId, c.attemptNumber) {
      Beginning(To(s, i, Ready(c)), i, c);
      var run1, trace1 := run + [To(s, i, Ready(c))], trace + [(i, RedeliverRequest)];
      GrowsTo(run1, trace1, i, Begin, To(s, i, Opened(c)));
      LookingForAttempt(To(s, i, Opened(c)), i, c);
      assert To(s, i, Done(c)) == s;
      GrowsTo(run1 + [To(s, i, Opened(c))], trace1 + [(i, Begin)], i, LookForAttempt, s);
    }
  }

  /** A result can be delivered again before its transaction commits, and that changes nothing at all: the statements of
      the handlers, whatever the clock says, lead back to the very same state. */
  lemma ResultDeliveredAgain(run: seq<State>, trace: seq<(nat, Action)>, i: nat, tx: Tx, now: Time)
    returns (run': seq<State>, trace': seq<(nat, Action)>)
    requires IsRun(run, trace) && i in Last(run).procs && Last(run).procs[i] == Paying(tx, BillingDone)
    ensures IsRun(run', trace') && run <= run' && Last(run') == Last(run)
    ensures trace' == trace + [(i, RedeliverResult)]
                      + (if tx.payment.status == ApprovedPayment then [(i, ReadInvoice)] else [])
                      + [(i, ReadBilling)] + [(i, WriteBilling(now))]
  {
    hide IsRun, Can, Do, Safe, InOrder;
    LastIsKept(run, trace);
    var s := Last(run);
    WritesAreDone(s, i, tx, now);
    ResultAgain(s, i, tx);
    var u := To(s, i, Paying(tx, Settled));
    GrowsTo(run, trace, i, RedeliverResult, u);
    run', trace' := run + [u], trace + [(i, RedeliverResult)];
    if tx.payment.status == ApprovedPayment {
      ReadingInvoice(u, i, tx);
      var v := To(s, i, Paying(tx, InvoiceDone));
      assert To(u, i, Paying(tx, InvoiceDone)) == v;
      GrowsTo(run', trace', i, ReadInvoice, v);
      run', trace', u := run' + [v], trace' + [(i, ReadInvoice)], v;
    } else {
      assert trace' + [] == trace';
    }
    ReadingBilling(u, i, tx, u.procs[i].at);
    var r := SeenBilling(s.books, tx);
    var w := To(s, i, Paying(tx, SawBilling(r)));
    assert To(u, i, Paying(tx, SawBilling(r))) == w;
    GrowsTo(run', trace', i, ReadBilling, w);
    WritingBilling(w, i, tx, r, now);
    assert To(w, i, Paying(tx, BillingDone)) == s;
    GrowsTo(run' + [w], trace' + [(i, ReadBilling)], i, WriteBilling(now), s);
    run', trace' := run' + [w] + [s], trace' + [(i, ReadBilling)] + [(i, WriteBilling(now))];
  }

  /** The handlers find what they have written themselves, and would write the same again. */
  lemma WritesAreDone(s: State, i: nat, tx: Tx, now: Time)
    requires Safe(s) && i in s.procs && s.procs[i] == Paying(tx, BillingDone)
    ensures tx.charge.billingId in s.books.billings && tx.charge.invoiceId in s.books.invoices
    ensures tx.payment.status == ApprovedPayment ==> SeenInvoice(s.books, tx).status == PaidInvoice
    ensures var r := SeenBilling(s.books, tx);
            && tx.billing == Some(r) && r.status == BillingStatusAfter(tx.payment)
            && Some(OverwriteBilling(r, r.As(BillingStatusAfter(tx.payment), now))) == tx.billing
    ensures forall st: Stage :: BillingFree(To(s, i, st), i, tx.charge.billingId)
  {
    assert StageOk(s.books, s.procs[i]);
    forall j | j in s.procs && j != i ensures !HoldsBilling(s.procs[j], tx.charge.billingId) {
      assert Apart(s.procs[i], s.procs[j]);
    }
  }

  // ---- After a rollback ----

  /** The ids under which payments are stored or about to be. */
  function PaymentIds(s: State): set<string> {
    s.books.payments.Keys + set i | i in s.procs && s.procs[i].Paying? :: s.procs[i].tx.payment.id
  }

  /** Nobody but perhaps `j` is paying billing `b`. */
  ghost predicate NobodyPays(s: State, j: nat, b: string) {
    forall k :: k in s.procs && k != j && s.procs[k].Paying? ==> s.procs[k].tx.charge.billingId != b
  }

  lemma PayingHasKey(s: State, k: nat)
    requires Safe(s) && InOrder(s) && k in s.procs && s.procs[k].Paying?
    ensures var q := s.procs[k].tx.payment;
            && q.id in PaymentIds(s) && q.billingId == s.procs[k].tx.charge.billingId
            && q.idempotencyKey == BuildIdempotencyKey(q.billingId, q.attemptNumber)
  {
    hide LedgerInv, RowsKept, StorablePayment, BuildIdempotencyKey;
    assert StageOk(s.books, s.procs[k]) && PaymentInOrder(s.procs[k].tx.payment);
  }

  /** An insert for a billing that nobody pays, under an unused id, waits for nobody. */
  lemma KeysAreFree(s: State, j: nat, c: ChargeInput, id: string, now: Time)
    requires Safe(s) && InOrder(s) && NobodyPays(s, j, c.billingId) && id !in PaymentIds(s)
    ensures KeysFree(s, j, PaymentFor(c, id, now))
  {
    hide Safe, InOrder, PaymentIds, BuildIdempotencyKey;
    var p := PaymentFor(c, id, now);
    forall k | k in s.procs && k != j ensures !SharesKey(s.procs[k], p) {
      if s.procs[k].Paying? {
        var q := s.procs[k].tx.payment;
        PayingHasKey(s, k);
        if q.idempotencyKey == p.idempotencyKey {
          KeyInjective(q.billingId, q.attemptNumber, c.billingId, c.attemptNumber);
        }
      }
    }
  }

  lemma DueFits(s: State, j: nat, c: ChargeInput, id: string, now: Time)
    requires Safe(s) && InOrder(s) && Due(s.books, c, c.billingId) && NobodyPays(s, j, c.billingId)
    requires id != "" && Trimmed(id) && id !in PaymentIds(s)
    ensures !HasAttempt(s.books, c.billingId, c.attemptNumber) && !HasApproved(s.books, c.invoiceId)
    ensures var p := PaymentFor(c, id, now);
            KeysFree(s, j, p) && IsNewPayment(p, c) && !PaymentCollides(s.books, p)
  {
    hide LedgerInv, RowsKept, StageOk, IsNewPayment, PaymentCollides, KeysFree, PaymentFor, HasAttempt, HasApproved;
    KeysAreFree(s, j, c, id, now);
    PaymentForIsNew(s.books, c, c.billingId, id, now);
    DueMeansUnpaid(s.books, c, c.billingId);
  }

  /** Looking around for an attempt that nobody has made takes three statements. */
  lemma LooksAround(run: seq<State>, trace: seq<(nat, Action)>, j: nat, c: ChargeInput)
    requires IsRun(run, trace) && j in Last(run).procs && Last(run).procs[j] == Ready(c)
    requires var t := Last(run).books; !HasAttempt(t, c.billingId, c.attemptNumber) && !HasApproved(t, c.invoiceId)
    ensures var s := Last(run);
            IsRun(run + [To(s, j, Opened(c))] + [To(s, j, Missing(c))] + [To(s, j, Unapproved(c))],
                  trace + [(j, Begin)] + [(j, LookForAttempt)] + [(j, LookForApproval)])
  {
    assert run != [];
    hide IsRun, Can, Do, HasAttempt, HasApproved;
    var s := Last(run);
    var s1, s2, s3 := To(s, j, Opened(c)), To(s, j, Missing(c)), To(s, j, Unapproved(c));
    Beginning(s, j, c);
    GrowsTo(run, trace, j, Begin, s1);
    LookingForAttempt(s1, j, c);
    assert To(s1, j, Missing(c)) == s2;
    GrowsTo(run + [s1], trace + [(j, Begin)], j, LookForAttempt, s2);
    LookingForApproval(s2, j, c);
    assert To(s2, j, Unapproved(c)) == s3;
    GrowsTo(run + [s1] + [s2], trace + [(j, Begin)] + [(j, LookForAttempt)], j, LookForApproval, s3);
  }

  /** From where its attempt is due and in nobody's hands, a request gets to its reservation. */
  lemma DueIsReserved(run: seq<State>, trace: seq<(nat, Action)>, j: nat, c: ChargeInput, id: string, now: Time)
    requires IsRun(run, trace) && j in Last(run).procs && Last(run).procs[j] == Ready(c)
    requires Due(Last(run).books, c, c.billingId) && NobodyPays(Last(run), j, c.billingId)
    requires id != "" && Trimmed(id) && id !in PaymentIds(Last(run))
    ensures var s, p := Last(run), PaymentFor(c, id, now);
            IsRun(run + [To(s, j, Opened(c))] + [To(s, j, Missing(c))] + [To(s, j, Unapproved(c))]
                  + [To(s, j, Paying(Tx(c, p, None, None), Reserved))],
                  trace + [(j, Begin)] + [(j, LookForAttempt)] + [(j, LookForApproval)] + [(j, InsertPayment(p))])
  {
    hide IsRun, Can, Do, Safe, InOrder, Due, PaymentFor, IsNewPayment, PaymentCollides, HasAttempt, HasApproved,
         SharesKey, NobodyPays, PaymentIds;
    LastIsKept(run, trace);
    var s, p := Last(run), PaymentFor(c, id, now);
    DueFits(s, j, c, id, now);
    LooksAround(run, trace, j, c);
    var s3, s4 := To(s, j, Unapproved(c)), To(s, j, Paying(Tx(c, p, None, None), Reserved));
    Reserving(s3, j, c, p);
    assert To(s3, j, Paying(Tx(c, p, None, None), Reserved)) == s4;
    GrowsTo(run + [To(s, j, Opened(c))] + [To(s, j, Missing(c))] + [s3],
            trace + [(j, Begin)] + [(j, LookForAttempt)] + [(j, LookForApproval)], j, InsertPayment(p), s4);
  }

  /** What an open payment transaction pins. */
  lemma PinnedIsDue(s: State, i: nat, tx: Tx, at: Point)
    requires Safe(s) && InOrder(s) && i in s.procs && s.procs[i] == Paying(tx, at)
    ensures Due(s.books, tx.charge, tx.charge.billingId) && NobodyPays(s, i, tx.charge.billingId)
    ensures tx.charge.billingId in s.books.billings && s.books.billings[tx.charge.billingId].status == RequestedBilling
  {
    hide LedgerInv, StorableBilling, StorableInvoice, StorablePayment, KeysMatch, PaymentInOrder;
    assert StageOk(s.books, s.procs[i]);
    forall k | k in s.procs && k != i && s.procs[k].Paying?
      ensures s.procs[k].tx.charge.billingId != tx.charge.billingId
    {
      assert Apart(s.procs[i], s.procs[k]);
    }
  }

  /** Whoever else holds the billing is a retry that has just locked it as it stands. */
  lemma HolderIsLocked(s: State, i: nat, tx: Tx, at: Point, j: nat)
    requires Safe(s) && i in s.procs && s.procs[i] == Paying(tx, at)
    requires j in s.procs && j != i && HoldsBilling(s.procs[j], tx.charge.billingId)
    ensures var b := tx.charge.billingId; b in s.books.billings && s.procs[j] == Locked(b, s.books.billings[b])
  {
    hide LedgerInv, InputOk;
    assert StageOk(s.books, s.procs[j]) && Apart(s.procs[i], s.procs[j]);
  }

  lemma OnlyLocksLeft(s: State, i: nat, tx: Tx, at: Point)
    requires Safe(s) && i in s.procs && s.procs[i] == Paying(tx, at)
    ensures var u, b := To(s, i, Idle), tx.charge.billingId;
            forall k :: k in u.procs && HoldsBilling(u.procs[k], b) ==>
                          b in s.books.billings && u.procs[k] == Locked(b, s.books.billings[b])
  {
    hide Safe;
    var u, b := To(s, i, Idle), tx.charge.billingId;
    forall k | k in u.procs && HoldsBilling(u.procs[k], b)
      ensures b in s.books.billings && u.procs[k] == Locked(b, s.books.billings[b])
    {
      HolderIsLocked(s, i, tx, at, k);
    }
  }

  /** Some request gets the lock of a requested billing, or has it. */
  lemma SomebodyLocks(run: seq<State>, trace: seq<(nat, Action)>, i: nat, b: string)
    returns (run': seq<State>, trace': seq<(nat, Action)>, j: nat)
    requires IsRun(run, trace) && i in Last(run).procs && Last(run).procs[i] == Idle
    requires b in Last(run).books.billings && Last(run).books.billings[b].status == RequestedBilling
    requires forall k :: k in Last(run).procs && HoldsBilling(Last(run).procs[k], b) ==>
                           Last(run).procs[k] == Locked(b, Last(run).books.billings[b])
    ensures IsRun(run', trace') && run <= run' && trace <= trace'
    ensures forall k :: |trace| <= k < |trace'| ==> trace'[k].0 == j && !trace'[k].1.GiveUp?
    ensures Last(run') == To(Last(run), j, Locked(b, Last(run).books.billings[b]))
  {
    assert run != [];
    hide IsRun, Can, Do;
    var s, st := Last(run), Locked(b, Last(run).books.billings[b]);
    run', trace', j := run, trace, i;
    if BillingFree(s, i, b) {
      Locking(s, i, b);
      GrowsTo(run, trace, i, LockBilling(b), To(s, i, st));
      run', trace' := run + [To(s, i, st)], trace + [(i, LockBilling(b))];
    } else {
      j :| j in s.procs && j != i && HoldsBilling(s.procs[j], b);
      assert s == To(s, j, st);
    }
  }

  /** A retry that has, or gets, the lock of a requested billing asks for the attempt the billing waits for. */
  lemma LockedAsks(run: seq<State>, trace: seq<(nat, Action)>, j: nat, b: string)
    requires IsRun(run, trace) && b in Last(run).books.billings && j in Last(run).procs
    requires Last(run).procs[j] == Locked(b, Last(run).books.billings[b])
    requires Last(run).books.billings[b].status == RequestedBilling
    ensures IsRun(run + [To(Last(run), j, Ready(InputFor(Last(run).books.billings[b])))],
                  trace + [(j, CommitReactivation(ZERO_TIME))])
  {
    var s, r := Last(run), Last(run).books.billings[b];
    Reactivating(s, j, b, r, ZERO_TIME);
    assert s.books.billings[b := r] == s.books.billings;
    hide IsRun, Can, Do;
    GrowsTo(run, trace, j, CommitReactivation(ZERO_TIME), To(s, j, Ready(InputFor(r))));
  }

  /** With `i` standing aside nobody pays its billing, and no new ids are taken. */
  lemma StandsAside(s: State, i: nat, st: Stage, j: nat, b: string)
    requires NobodyPays(s, i, b) && !st.Paying?
    ensures NobodyPays(To(s, i, st), j, b) && PaymentIds(To(s, i, st)) <= PaymentIds(s)
  {
  }

  lemma LockedReserves(
      run: seq<State>, trace: seq<(nat, Action)>, j: nat, c: ChargeInput, id: string, now: Time)
    returns (run': seq<State>, trace': seq<(nat, Action)>)
    requires IsRun(run, trace) && j in Last(run).procs
    requires Due(Last(run).books, c, c.billingId) && NobodyPays(Last(run), j, c.billingId)
    requires Last(run).procs[j] == Locked(c.billingId, Last(run).books.billings[c.billingId])
    requires id != "" && Trimmed(id) && id !in PaymentIds(Last(run))
    ensures IsRun(run', trace') && run <= run' && trace <= trace'
    ensures forall k :: |trace| <= k < |trace'| ==> trace'[k].0 == j && !trace'[k].1.GiveUp?
    ensures Last(run') == To(Last(run), j, Paying(Tx(c, PaymentFor(c, id, now), None, None), Reserved))
  {
    LockedAsks(run, trace, j, c.billingId);
    var s, p := Last(run), PaymentFor(c, id, now);
    var u := To(s, j, Ready(c));
    StandsAside(s, j, Ready(c), j, c.billingId);
    assert c == InputFor(s.books.billings[c.billingId]);
    hide IsRun, Due, PaymentFor, PaymentIds, NobodyPays;
    var run1, trace1 := run + [u], trace + [(j, CommitReactivation(ZERO_TIME))];
    DueIsReserved(run1, trace1, j, c, id, now);
    var last := To(u, j, Paying(Tx(c, p, None, None), Reserved));
    assert last == To(s, j, Paying(Tx(c, p, None, None), Reserved));
    run' := run1 + [To(u, j, Opened(c))] + [To(u, j, Missing(c))] + [To(u, j, Unapproved(c))] + [last];
    trace' := trace1 + [(j, Begin)] + [(j, LookForAttempt)] + [(j, LookForApproval)] + [(j, InsertPayment(p))];
  }

  /** After any reservation has been rolled back, the same attempt is reserved again, with all tables as they were: by
      the retry that holds the lock of the billing, or else by a new one. */
  lemma ReservedAgain(run: seq<State>, trace: seq<(nat, Action)>, i: nat, tx: Tx, at: Point, id: string, now: Time)
    returns (run': seq<State>, trace': seq<(nat, Action)>, j: nat)
    requires IsRun(run, trace) && i in Last(run).procs && Last(run).procs[i] == Paying(tx, at)
    requires id != "" && Trimmed(id) && id !in PaymentIds(Last(run))
    ensures IsRun(run', trace') && run <= run' && trace + [(i, GiveUp)] <= trace'
    ensures forall k :: |trace| < k < |trace'| ==> trace'[k].0 == j && !trace'[k].1.GiveUp?
    ensures Last(run').books == Last(run).books && j in Last(run').procs
    ensures Last(run').procs[j] == Paying(Tx(tx.charge, PaymentFor(tx.charge, id, now), None, None), Reserved)
  {
    hide IsRun, Safe, InOrder, PaymentFor, PaymentIds, NobodyPays, HoldsBilling, Due;
    LastIsKept(run, trace);
    var s, b := Last(run), tx.charge.billingId;
    PinnedIsDue(s, i, tx, at);
    OnlyLocksLeft(s, i, tx, at);
    AnybodyCanRollBack(run, trace, i);
    var u := To(s, i, Idle);
    var run1, trace1;
    run1, trace1, j := SomebodyLocks(run + [u], trace + [(i, GiveUp)], i, b);
    StandsAside(s, i, Idle, j, b);
    StandsAside(u, j, Locked(b, s.books.billings[b]), j, b);
    run', trace' := LockedReserves(run1, trace1, j, tx.charge, id, now);
  }
}
