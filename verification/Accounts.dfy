/** The specification the tables refine: per billing, the list of attempt outcomes and whether another one is due. */
module Accounts {
  import opened Entities
  import opened Tables
  import opened Ledger

  datatype Account = Account(outcomes: seq<Outcome>, requested: bool)

  const OPENED := Account([], true)

  predicate Closed(a: Account) {
    a.outcomes != [] && a.outcomes[|a.outcomes| - 1].approved
  }

  /** Only the last outcome may be an approval, and nothing is due after one. */
  predicate Legal(a: Account) {
    && (forall k :: 0 <= k < |a.outcomes| - 1 ==> !a.outcomes[k].approved)
    && (Closed(a) ==> !a.requested)
    && (a.outcomes == [] ==> a.requested)
  }

  function Reopen(a: Account): Account {
    if Closed(a) then a else a.(requested := true)
  }

  function Charge(a: Account, o: Outcome): Account {
    if a.requested then Account(a.outcomes + [o], false) else a
  }

  // ---- From the tables to the account ----

  ghost function PaymentAt(t: Books, b: string, n: int): PaymentRow
    requires HasAttempt(t, b, n)
  {
    var p :| p in t.payments && t.payments[p].billingId == b && t.payments[p].attemptNumber == n;
    t.payments[p]
  }

  ghost function Outcomes(t: Books, b: string): seq<Outcome>
    requires GapFree(t) && b in t.billings && 1 <= t.billings[b].attemptNumber
  {
    var n := SettledCount(t.billings[b]);
    seq(n, k requires 0 <= k < n => Recorded(PaymentAt(t, b, k + 1)))
  }

  ghost function AccountOf(t: Books, b: string): Account
    requires GapFree(t) && b in t.billings && 1 <= t.billings[b].attemptNumber
  {
    Account(Outcomes(t, b), t.billings[b].status == RequestedBilling)
  }

  /** The account says everything about the billing's progress: its status and attempt number can be read off it. */
  lemma AccountDescribesBilling(t: Books, b: string)
    requires LedgerInv(t) && b in t.billings
    ensures var a := AccountOf(t, b);
            && Legal(a)
            && t.billings[b].attemptNumber == |a.outcomes| + (if a.requested then 1 else 0)
            && (Closed(a) <==> t.billings[b].status == ApprovedBilling)
            && (Closed(a) <==> t.invoices[t.billings[b].invoiceId].status == PaidInvoice)
  {
    var a := AccountOf(t, b);
    forall k | 0 <= k < |a.outcomes|
      ensures a.outcomes[k].approved <==> StatusOfAttempt(t.billings[b], k + 1) == ApprovedPayment
    {
      assert a.outcomes[k] == Recorded(PaymentAt(t, b, k + 1));
    }
  }

  /** Payments already there stay at their attempt. */
  lemma PaymentAtStays(t: Books, u: Books, b: string, n: int)
    requires OnlyForward(t, u) && OnePaymentPerAttempt(u) && HasAttempt(t, b, n)
    ensures HasAttempt(u, b, n) && PaymentAt(u, b, n) == PaymentAt(t, b, n)
  {
    AttemptsStay(t, u, b, n);
    var p :| p in t.payments && t.payments[p] == PaymentAt(t, b, n);
    var q :| q in u.payments && u.payments[q] == PaymentAt(u, b, n);
    assert u.payments[p] == t.payments[p];
  }

  /** Outcomes are only ever appended. */
  lemma OutcomesGrow(t: Books, u: Books, b: string)
    requires GapFree(t) && GapFree(u) && OnePaymentPerAttempt(u) && OnlyForward(t, u)
    requires b in t.billings && 1 <= t.billings[b].attemptNumber
    ensures b in u.billings && Outcomes(t, b) <= Outcomes(u, b)
  {
    assert BillingForward(t.billings[b], u.billings[b]);
    forall k | 0 <= k < SettledCount(t.billings[b]) ensures Outcomes(u, b)[k] == Outcomes(t, b)[k] {
      assert HasAttempt(t, b, k + 1);
      PaymentAtStays(t, u, b, k + 1);
    }
  }

  /** When a billing gets past exactly one more attempt, its payment is the one new outcome. */
  lemma NewestOutcome(t: Books, u: Books, p: string)
    requires GapFree(t) && GapFree(u) && OnePaymentPerAttempt(u) && OnlyForward(t, u)
    requires p in u.payments && u.payments[p].billingId in t.billings && u.payments[p].billingId in u.billings
    requires var b := u.payments[p].billingId;
             && 1 <= t.billings[b].attemptNumber
             && SettledCount(u.billings[b]) == u.payments[p].attemptNumber == SettledCount(t.billings[b]) + 1
    ensures var b := u.payments[p].billingId; Outcomes(u, b) == Outcomes(t, b) + [Recorded(u.payments[p])]
  {
    var b, n := u.payments[p].billingId, u.payments[p].attemptNumber;
    OutcomesGrow(t, u, b);
    assert HasAttempt(u, b, n);
    var q :| q in u.payments && u.payments[q] == PaymentAt(u, b, n)
             && u.payments[q].billingId == b && u.payments[q].attemptNumber == n;
    assert q == p;
  }

  lemma SettlementCharges(t: Books, p: PaymentRow, billedAt: Time, paidAt: Time)
    requires LedgerInv(t) && Enabled(t, Settle(p, billedAt, paidAt))
    ensures var u := Apply(t, Settle(p, billedAt, paidAt));
            LedgerInv(u) && AccountOf(u, p.billingId) == Charge(AccountOf(t, p.billingId), Recorded(p))
  {
    var u := Apply(t, Settle(p, billedAt, paidAt));
    CommitKeeps(t, Settle(p, billedAt, paidAt));
    CommitGoesForward(t, Settle(p, billedAt, paidAt));
    assert SettledCount(u.billings[p.billingId]) == p.attemptNumber == SettledCount(t.billings[p.billingId]) + 1;
    assert u.payments[p.id] == p;
    NewestOutcome(t, u, p.id);
  }

  lemma OtherCommitsKeepOutcomes(t: Books, c: Commit, b: string)
    requires LedgerInv(t) && Enabled(t, c) && b in t.billings
    requires c.Settle? ==> c.payment.billingId != b
    ensures var u := Apply(t, c); LedgerInv(u) && b in u.billings && Outcomes(u, b) == Outcomes(t, b)
  {
    hide InvoicesKept, PaymentsKept, OneBillingPerInvoice;
    var u := Apply(t, c);
    CommitKeeps(t, c);
    CommitGoesForward(t, c);
    hide OnlyForward, OnePaymentPerAttempt;
    OutcomesGrow(t, u, b);
    assert SettledCount(u.billings[b]) == SettledCount(t.billings[b]);
  }

  /** What a commit means to the account of `b`. */
  function StepOf(c: Commit, b: string, a: Account): Account {
    match c
    case Settle(p, _, _) => if p.billingId == b then Charge(a, Recorded(p)) else a
    case Reactivate(d, _) => if d == b then Reopen(a) else a
    case _ => a
  }

  /** Every commit moves every account by one step of the specification, or leaves it alone. */
  lemma CommitRefines(t: Books, c: Commit, b: string)
    requires LedgerInv(t) && Enabled(t, c) && b in t.billings
    ensures LedgerInv(Apply(t, c)) && b in Apply(t, c).billings
    ensures AccountOf(Apply(t, c), b) == StepOf(c, b, AccountOf(t, b))
  {
    if c.Settle? && c.payment.billingId == b {
      SettlementCharges(t, c.payment, c.billedAt, c.paidAt);
    } else {
      OtherCommitsKeepOutcomes(t, c, b);
      AccountDescribesBilling(t, b);
    }
  }

  /** A billing starts with an empty account and its first attempt due. */
  lemma NewBillingOpens(t: Books, r: BillingRow)
    requires LedgerInv(t) && Enabled(t, SaveNewBilling(r))
    ensures LedgerInv(Apply(t, SaveNewBilling(r)))
    ensures AccountOf(Apply(t, SaveNewBilling(r)), r.id) == OPENED
  {
    CommitKeeps(t, SaveNewBilling(r));
  }

  // ---- Whole runs of one account ----

  /** The list up to and including its first approval. */
  function Cut(os: seq<Outcome>): (c: seq<Outcome>)
    ensures c == [] <==> os == []
  {
    if os == [] then []
    else if os[0].approved then [os[0]]
    else [os[0]] + Cut(os[1..])
  }

  /** The specification keeps its own law: whatever is asked of an account, in whatever order, only its last outcome can
      be an approval, and nothing is due after one. */
  lemma StepsKeepLegal(a: Account, o: Outcome)
    requires Legal(a)
    ensures Legal(OPENED) && Legal(Reopen(a)) && Legal(Charge(a, o))
    ensures Closed(a) ==> Reopen(a) == a && Charge(a, o) == a
    ensures !Closed(a) ==> Charge(Reopen(a), o).outcomes == a.outcomes + [o]
  {
    assert forall k :: 0 <= k < |a.outcomes| ==> (a.outcomes + [o])[k] == a.outcomes[k];
  }

  /** One retry: reopen, then charge; a closed account is left alone and its outcome never drawn. */
  function Retry(a: Account, o: Outcome): Account {
    if Closed(a) then a else Charge(Reopen(a), o)
  }

  /** The first charge of an open account and a retry for every further outcome. */
  function Retries(a: Account, os: seq<Outcome>): Account {
    if os == [] then a else Retry(Retries(a, os[..|os| - 1]), os[|os| - 1])
  }

  lemma {:induction false} CutOfLonger(os: seq<Outcome>, o: Outcome)
    ensures Cut(os + [o]) == if Cut(os) != [] && Cut(os)[|Cut(os)| - 1].approved then Cut(os) else Cut(os) + [o]
  {
    if os == [] {
      assert os + [o] == [o];
    } else if !os[0].approved {
      assert (os + [o])[1..] == os[1..] + [o];
      CutOfLonger(os[1..], o);
    } else {
      assert (os + [o])[0] == os[0];
    }
  }

  lemma RetriesStep(os: seq<Outcome>, o: Outcome)
    ensures Retries(OPENED, os + [o]) == Retry(Retries(OPENED, os), o)
  {
    assert (os + [o])[..|os + [o]| - 1] == os;
  }

  /** Retrying over and over yields exactly the outcomes up to the first approval. */
  lemma {:induction false} RetriesCut(os: seq<Outcome>)
    requires os != []
    ensures Retries(OPENED, os) == Account(Cut(os), false)
  {
    var front, last := os[..|os| - 1], os[|os| - 1];
    assert os == front + [last];
    CutOfLonger(front, last);
    if front != [] {
      RetriesCut(front);
    }
  }

  /** What the cut is, whatever it was made of: it stops right after the first approval, or not at all. */
  lemma {:induction false} CutStops(os: seq<Outcome>)
    ensures Cut(os) <= os
    ensures forall k :: 0 <= k < |Cut(os)| - 1 ==> !os[k].approved
    ensures |Cut(os)| < |os| ==> Closed(Account(Cut(os), false))
  {
    if os != [] && !os[0].approved {
      CutStops(os[1..]);
      assert os == [os[0]] + os[1..];
      assert forall k :: 1 <= k < |os| ==> os[k] == os[1..][k - 1];
    }
  }

  // ---- Money ----

  ghost function SumBillings(t: Books, ids: set<string>): int
    requires ids <= t.billings.Keys
  {
    if ids == {} then 0 else var b :| b in ids; t.billings[b].amountCents + SumBillings(t, ids - {b})
  }

  ghost function SumInvoices(t: Books, ids: set<string>): int
    requires ids <= t.invoices.Keys
  {
    if ids == {} then 0 else var i :| i in ids; t.invoices[i].amountCents + SumInvoices(t, ids - {i})
  }

  lemma {:induction false} SumInvoicesSplit(t: Books, ids: set<string>, i: string)
    requires ids <= t.invoices.Keys && i in ids
    ensures SumInvoices(t, ids) == t.invoices[i].amountCents + SumInvoices(t, ids - {i})
  {
    var j :| j in ids && SumInvoices(t, ids) == t.invoices[j].amountCents + SumInvoices(t, ids - {j});
    if i != j {
      SumInvoicesSplit(t, ids - {j}, i);
      SumInvoicesSplit(t, ids - {i}, j);
      assert ids - {j} - {i} == ids - {i} - {j};
    }
  }

  lemma {:induction false} SumsMatch(t: Books, bs: set<string>, ins: set<string>)
    requires LedgerInv(t) && bs <= t.billings.Keys && ins <= t.invoices.Keys
    requires forall b :: b in bs ==> t.billings[b].invoiceId in ins
    requires forall i :: i in ins ==> exists b :: b in bs && t.billings[b].invoiceId == i
    ensures SumBillings(t, bs) == SumInvoices(t, ins)
    decreases bs
  {
    if bs == {} {
      assert ins == {};
    } else {
      var b :| b in bs && SumBillings(t, bs) == t.billings[b].amountCents + SumBillings(t, bs - {b});
      var i := t.billings[b].invoiceId;
      forall j | j in ins - {i} ensures exists c :: c in bs - {b} && t.billings[c].invoiceId == j {
        var c :| c in bs && t.billings[c].invoiceId == j;
        assert c in bs - {b};
      }
      SumsMatch(t, bs - {b}, ins - {i});
      SumInvoicesSplit(t, ins, i);
    }
  }

  ghost function ApprovedBillings(t: Books): set<string> {
    set b | b in t.billings && t.billings[b].status == ApprovedBilling
  }

  ghost function PaidInvoices(t: Books): set<string> {
    set i | i in t.invoices && t.invoices[i].status == PaidInvoice
  }

  /** What approved billings collect is what paid invoices ask for. */
  lemma Conservation(t: Books)
    requires LedgerInv(t)
    ensures SumBillings(t, ApprovedBillings(t)) == SumInvoices(t, PaidInvoices(t))
  {
    forall i | i in PaidInvoices(t) ensures exists b :: b in ApprovedBillings(t) && t.billings[b].invoiceId == i {
      var b :| b in t.billings && t.billings[b].invoiceId == i;
      assert b in ApprovedBillings(t);
    }
    SumsMatch(t, ApprovedBillings(t), PaidInvoices(t));
  }
}
