/** What a whole request does to the account of its billing. */
module Requests {
  import opened Wrappers
  import opened Entities
  import opened Storage
  import opened Tables
  import opened Ledger
  import opened Accounts
  import opened Events
  import opened Outbox
  import opened Effects
  import opened Delivery

  // ---- Creating an invoice ----

  /** The invoice has one billing, whose account is `a`. */
  ghost predicate InvoiceAccount(t: Books, i: string, b: string, a: Account) {
    && LedgerInv(t) && b in t.billings && t.billings[b].invoiceId == i && AccountOf(t, b) == a
  }

  /** The billing's first attempt is due when it is requested. */
  lemma OpeningAsks(replies: nat -> Reply, s: Seen, u: Seen, e: Event, o: Opening)
    requires SeenInv(s) && e.InvoiceCreated? && BillingOpened(replies, s, u, e, o)
    ensures InvoiceAccount(o.before.data.books, e.invoiceId, o.billing.id, OPENED) && o.before.calls == s.calls
    ensures !HasAttempt(o.before.data.books, o.billing.id, 1)
  {
    hide OutboxInv, RowsKept, CallsKept, StorableBilling, AttemptMade;
    NewBillingOpens(s.data.books, o.billing);
    assert o.before.data.books == Apply(s.data.books, SaveNewBilling(o.billing));
    AttemptIffSettled(o.before.data.books, o.billing.id, 1);
  }

  lemma OpeningCharges(replies: nat -> Reply, s: Seen, u: Seen, e: Event, o: Opening)
    requires SeenInv(s) && SeenInv(u) && e.InvoiceCreated? && BillingOpened(replies, s, u, e, o)
    ensures InvoiceAccount(u.data.books, e.invoiceId, o.billing.id, Account([OutcomeOf(replies(|s.calls|))], false))
    ensures u.calls == s.calls + [CallFor(InputOf(o.request), replies(|s.calls|))] && Wasted(u) == Wasted(s)
  {
    hide SeenInv, StorablePayment, BringsStorableRows, LedgerInv;
    OpeningAsks(replies, s, u, e, o);
    var t := o.before.data.books;
    var m :| SettledBy(replies, o.before, o.after, InputOf(o.request), m);
    SettlementCharges(t, m.payment, m.billedAt, m.paidAt);
    assert u.data.books == Apply(t, m.Commit());
  }

  /** Announcing a new invoice leaves its billing with exactly one outcome: the gateway's one reply. */
  lemma AnnouncementCharges(replies: nat -> Reply, s: Seen, u: Seen, e: Event)
    requires SeenInv(s) && SeenInv(u) && e.InvoiceCreated? && !HasBilling(s.data.books, e.invoiceId)
    requires Published(replies, e, InvoicesModule, s, u) && Tells(s.data.books, e)
    ensures exists b :: InvoiceAccount(u.data.books, e.invoiceId, b, Account([OutcomeOf(replies(|s.calls|))], false))
    ensures |u.calls| == |s.calls| + 1 && Wasted(u) == Wasted(s)
  {
    hide SeenInv, BillingOpened, InvoiceAccount;
    var s', v :| RecordedAround(s, s', v, u, e, InvoicesModule) && Delivered(replies, Subscribers(NameOf(e)), e, s', v);
    DeliveredToOne(replies, BillingOnInvoiceCreated, e, s', v);
    var o :| BillingOpened(replies, s', v, e, o);
    PublishedSeen(replies, s, s', v, u, e);
    OpeningCharges(replies, s', v, e, o);
    assert v.data.books == u.data.books;
  }

  /** The ledger does not mind the record around a delivery. */
  lemma PublishedSeen(replies: nat -> Reply, s: Seen, s': Seen, v: Seen, u: Seen, e: Event)
    requires SeenInv(s) && SeenInv(u) && e.InvoiceCreated? && RecordedAround(s, s', v, u, e, InvoicesModule)
    requires Tells(s.data.books, e)
    ensures SeenInv(s') && SeenInv(v)
  {
    hide SeenInv, Vouches, Tells;
    StoredRecordTells(u, e.meta.eventId);
    RequestRowKeepsSeen(s, e.meta.eventId, s'.data.outbox[e.meta.eventId]);
    assert v == u.WithRow(e.meta.eventId, v.data.outbox[e.meta.eventId]);
    RequestRowKeepsSeen(u, e.meta.eventId, v.data.outbox[e.meta.eventId]);
  }

  // ---- Retrying ----

  ghost predicate Reactivated(s: Seen, u: Seen, b: string, now: Time) {
    && Enabled(s.data.books, Reactivate(b, now))
    && u == Seen(Data(Apply(s.data.books, Reactivate(b, now)), s.data.outbox), s.calls)
  }

  /** The row handed out is the reactivated billing of the invoice. */
  ghost predicate HandedOut(s: Seen, u: Seen, invoiceId: string, r: BillingRow) {
    exists now :: Reactivated(s, u, r.id, now)
                  && r.id in u.data.books.billings && u.data.books.billings[r.id] == r && r.invoiceId == invoiceId
  }

  lemma IsHandedOut(s: Seen, u: Seen, seen: BillingRow, now: Time)
    requires seen.id in s.data.books.billings && s.data.books.billings[seen.id] == seen
    requires seen.status != ApprovedBilling
    requires var t, r := s.data.books, OverwriteBilling(seen, seen.AsReactivated(now));
             u == s.(data := s.data.(books := t.(billings := t.billings[seen.id := r])))
    ensures HandedOut(s, u, seen.invoiceId, seen.AsReactivated(now))
  {
    assert Reactivated(s, u, seen.id, now);
  }

  /** The account of the invoice's billing was at most reopened. */
  ghost predicate Reopened(t: Books, u: Books, i: string, b: string) {
    && LedgerInv(t) && LedgerInv(u) && b in t.billings && b in u.billings && t.billings[b].invoiceId == i
    && !Closed(AccountOf(t, b)) && AccountOf(u, b) == Reopen(AccountOf(t, b))
  }

  lemma ReopenedAsks(t: Books, u: Books, b: string, now: Time)
    requires LedgerInv(t) && LedgerInv(u) && RowsKept(t) && Enabled(t, Reactivate(b, now))
    requires u == Apply(t, Reactivate(b, now))
    ensures Reopened(t, u, t.billings[b].invoiceId, b)
    ensures b in u.billings && u.billings[b].id == b
    ensures InputOk(u, InputFor(u.billings[b])) && !HasAttempt(u, b, u.billings[b].attemptNumber)
  {
    hide StorableBilling, StorableInvoice, StorablePayment, KeysMatch, HasAttempt;
    CommitRefines(t, Reactivate(b, now), b);
    AccountDescribesBilling(t, b);
    AttemptIffSettled(u, b, u.billings[b].attemptNumber);
    hide LedgerInv;
  }

  /** Making the asked attempt appends the gateway's reply to the account. */
  lemma AnsweringCharges(replies: nat -> Reply, s: Seen, u: Seen, c: ChargeInput, p: PaymentRow)
    requires SeenInv(s) && SeenInv(u) && InputOk(s.data.books, c) && AttemptAnswered(replies, s, u, c, p)
    requires !HasAttempt(s.data.books, c.billingId, c.attemptNumber)
    ensures c.billingId in u.data.books.billings && LedgerInv(s.data.books) && LedgerInv(u.data.books)
    ensures AccountOf(u.data.books, c.billingId)
            == Charge(AccountOf(s.data.books, c.billingId), OutcomeOf(replies(|s.calls|)))
    ensures Recorded(p) == OutcomeOf(replies(|s.calls|))
    ensures u.calls == s.calls + [CallFor(c, replies(|s.calls|))] && Wasted(u) == Wasted(s)
  {
    hide OutboxInv, RowsKept, CallsKept, StorablePayment;
    var m :| SettledBy(replies, s, u, c, m) && m.payment == p;
    SettlementCharges(s.data.books, m.payment, m.billedAt, m.paidAt);
    SettlementTouchesOneInvoice(s.data.books, m.payment, m.billedAt, m.paidAt);
  }

  /** A closed account and a paid invoice are the same thing. */
  lemma ClosedIffPaid(t: Books, i: string, b: string)
    requires LedgerInv(t) && b in t.billings && t.billings[b].invoiceId == i
    ensures i in t.invoices
    ensures Closed(AccountOf(t, b)) <==> t.invoices[i].status == PaidInvoice
  {
    AccountDescribesBilling(t, b);
  }

  /** The account of the invoice's billing took one retry with outcome `o`, and was not closed before. */
  ghost predicate Retried(t: Books, u: Books, i: string, b: string, o: Outcome) {
    && LedgerInv(t) && LedgerInv(u) && b in t.billings && b in u.billings && t.billings[b].invoiceId == i
    && !Closed(AccountOf(t, b)) && AccountOf(u, b) == Retry(AccountOf(t, b), o)
  }

  /** The reply to call number `from` is the outcome of one retry of billing `b`. */
  ghost predicate RetriedBy(replies: nat -> Reply, from: nat, s: Seen, u: Seen, i: string, b: string, p: PaymentRow) {
    && Retried(s.data.books, u.data.books, i, b, OutcomeOf(replies(from)))
    && Recorded(p) == OutcomeOf(replies(from)) && |u.calls| == from + 1 && Wasted(u) == Wasted(s)
    && p.id in u.data.books.payments && u.data.books.payments[p.id] == p
  }

  lemma ApprovedHasBilling(s: Seen, i: string)
    requires SeenInv(s)
    ensures HasApproved(s.data.books, i) ==> HasBilling(s.data.books, i)
    ensures forall b, u, now :: Reactivated(s, u, b, now) && s.data.books.billings[b].invoiceId == i ==>
                                  HasBilling(s.data.books, i) && !HasApproved(s.data.books, i)
  {
    hide OutboxInv, RowsKept, CallsKept;
    forall b, u, now | Reactivated(s, u, b, now) && s.data.books.billings[b].invoiceId == i
      ensures HasBilling(s.data.books, i) && !HasApproved(s.data.books, i)
    {
      ModulesAgree(s.data.books, i);
    }
  }

  /** Reactivating asks for the next attempt, which nobody has made. */
  lemma ReactivationAsks(s: Seen, u: Seen, r: BillingRow, now: Time)
    requires SeenInv(s) && Reactivated(s, u, r.id, now)
    requires r.id in u.data.books.billings && u.data.books.billings[r.id] == r
    ensures SeenInv(u) && Progress(s, u, r.invoiceId)
    ensures Reopened(s.data.books, u.data.books, r.invoiceId, r.id)
    ensures InputOk(u.data.books, InputFor(r)) && !HasAttempt(u.data.books, r.id, r.attemptNumber)
    ensures HasBilling(s.data.books, r.invoiceId) && !HasApproved(s.data.books, r.invoiceId)
    ensures u.data.outbox == s.data.outbox
  {
    PlainCommitKeepsSeen(s, Reactivate(r.id, now), r.invoiceId);
    ReopenedAsks(s.data.books, u.data.books, r.id, now);
    ApprovedHasBilling(s, r.invoiceId);
    hide SeenInv, Progress, Reopened, InputOk, HasAttempt, HasBilling, HasApproved;
  }

  lemma ReopenedThenCharged(t: Books, w: Books, u: Books, i: string, b: string, o: Outcome)
    requires Reopened(t, w, i, b) && LedgerInv(u) && b in u.billings
    requires AccountOf(u, b) == Charge(AccountOf(w, b), o)
    ensures Retried(t, u, i, b, o)
  {
    hide LedgerInv, AccountOf;
  }

  lemma RetryCharges(replies: nat -> Reply, s: Seen, w: Seen, u: Seen, r: BillingRow, now: Time, p: PaymentRow)
    requires SeenInv(s) && SeenInv(u) && Reactivated(s, w, r.id, now)
    requires r.id in w.data.books.billings && w.data.books.billings[r.id] == r
    requires AttemptAnswered(replies, w, u, InputFor(r), p)
    ensures RetriedBy(replies, |s.calls|, s, u, r.invoiceId, r.id, p)
  {
    hide SeenInv, InputOk, HasAttempt, SettledBy, Reopened, Retried, LedgerInv, AccountOf;
    ReactivationAsks(s, w, r, now);
    AnsweringCharges(replies, w, u, InputFor(r), p);
    ReopenedThenCharged(s.data.books, w.data.books, u.data.books, r.invoiceId, r.id, Recorded(p));
  }

  /** A retry that succeeds pays the invoice exactly when the gateway approved. */
  lemma RetriedPays(t: Books, u: Books, i: string, b: string, o: Outcome)
    requires Retried(t, u, i, b, o) && OnlyForward(t, u)
    ensures i in u.invoices && (u.invoices[i].status == PaidInvoice <==> o.approved)
  {
    hide LedgerInv;
    assert BillingForward(t.billings[b], u.billings[b]);
    ClosedIffPaid(u, i, b);
  }

  /** With its account known, the invoice has a billing, and has an approved payment exactly if the account is
      closed. */
  lemma AccountedInvoice(t: Books, i: string, b: string, a: Account)
    requires InvoiceAccount(t, i, b, a)
    ensures HasBilling(t, i) && (HasApproved(t, i) <==> Closed(a))
  {
    ClosedIffPaid(t, i, b);
    ModulesAgree(t, i);
  }

  /** A retry of the invoice is a retry of its one account. */
  lemma RetriedAccount(t: Books, u: Books, i: string, b: string, a: Account, o: Outcome)
    requires InvoiceAccount(t, i, b, a) && OnlyForward(t, u)
    requires exists c :: Retried(t, u, i, c, o)
    ensures InvoiceAccount(u, i, b, Retry(a, o))
  {
    var c :| Retried(t, u, i, c, o);
    BillingIsUnique(t, b, c);
    hide LedgerInv;
    assert BillingForward(t.billings[b], u.billings[b]);
  }

  /** As long as the account is open its outcomes are all there were. */
  lemma {:induction false} OpenCutIsWhole(os: seq<Outcome>)
    requires os != [] && !Cut(os)[|Cut(os)| - 1].approved
    ensures Cut(os) == os
  {
    if |os| > 1 {
      OpenCutIsWhole(os[1..]);
    }
  }

  /** One more retry is drawn if and only if the account is still open. */
  lemma NextRetry(os: seq<Outcome>, o: Outcome)
    ensures var a, a' := Retries(OPENED, os), Retries(OPENED, os + [o]);
            && a' == Retry(a, o)
            && if Closed(a) then a' == a else a.outcomes == os && a'.outcomes == os + [o]
  {
    RetriesStep(os, o);
    if os != [] {
      RetriesCut(os);
      if !Closed(Retries(OPENED, os)) {
        OpenCutIsWhole(os);
      }
    }
  }

  /** One more retry is one more step of the account, and a closed account is left alone. */
  lemma RetriedOnce(
      replies: nat -> Reply, s: Seen, u: Seen, i: string, b: string, os: seq<Outcome>, from: nat)
    requires var a := Retries(OPENED, os);
             && InvoiceAccount(s.data.books, i, b, a) && |s.calls| == from + |a.outcomes|
             && if Closed(a) then u == s
                else && OnlyForward(s.data.books, u.data.books) && |u.calls| == |s.calls| + 1
                     && exists c :: Retried(s.data.books, u.data.books, i, c, OutcomeOf(replies(|s.calls|)))
    ensures var a' := Retries(OPENED, os + [OutcomeOf(replies(from + |os|))]);
            InvoiceAccount(u.data.books, i, b, a') && |u.calls| == from + |a'.outcomes|
  {
    hide InvoiceAccount, OnlyForward, Retried, Retries, OutcomeOf;
    var a, o := Retries(OPENED, os), OutcomeOf(replies(from + |os|));
    NextRetry(os, o);
    if !Closed(a) {
      RetriedAccount(s.data.books, u.data.books, i, b, a, o);
    }
  }

  /** The first `n` outcomes of the gateway's replies from call number `from` on. */
  ghost function OutcomesFrom(replies: nat -> Reply, from: nat, n: nat): seq<Outcome> {
    seq(n, k requires 0 <= k < n => OutcomeOf(replies(from + k)))
  }

  /** Of `n` replies from call number `from` on, `m` are drawn: all of them, or as many as there are up to the first
      that says "Approved". The invoice is paid if and only if the last one drawn says so. */
  ghost predicate StopsAtApproval(replies: nat -> Reply, from: nat, n: nat, m: int, paid: bool) {
    && 0 <= m <= n && (n > 0 ==> m > 0)
    && (forall k: nat :: from <= k < from + m - 1 ==> !(replies(k).Answer? && replies(k).status == "Approved"))
    && (m < n ==> paid)
    && (paid <==> m > 0 && replies(from + m - 1).Answer? && replies(from + m - 1).status == "Approved")
  }

  /** An outcome is an approval exactly if the reply says "Approved". */
  lemma ApprovedReplies(replies: nat -> Reply)
    ensures forall k: nat :: OutcomeOf(replies(k)).approved <==>
                               replies(k).Answer? && replies(k).status == "Approved"
  {
  }

  lemma RepliesStop(replies: nat -> Reply, from: nat, n: nat)
    ensures var a := Retries(OPENED, OutcomesFrom(replies, from, n));
            StopsAtApproval(replies, from, n, |a.outcomes|, Closed(a))
  {
    OutcomesStop(replies, from, n);
    var a := Retries(OPENED, OutcomesFrom(replies, from, n));
    hide Retries, OutcomesFrom, Closed, OutcomeOf;
    ApprovedReplies(replies);
  }

  lemma OutcomesStop(replies: nat -> Reply, from: nat, n: nat)
    ensures var a := Retries(OPENED, OutcomesFrom(replies, from, n));
            && |a.outcomes| <= n && (n > 0 ==> a.outcomes != [])
            && (forall k: nat :: from <= k < from + |a.outcomes| - 1 ==> !OutcomeOf(replies(k)).approved)
            && (|a.outcomes| < n ==> Closed(a))
            && (Closed(a) <==> a.outcomes != [] && OutcomeOf(replies(from + |a.outcomes| - 1)).approved)
  {
    var os := OutcomesFrom(replies, from, n);
    RetriesStop(os);
    hide OutcomeOf, Retries;
    var m := |Retries(OPENED, os).outcomes|;
    forall k: nat | from <= k < from + m - 1 ensures !OutcomeOf(replies(k)).approved {
      assert os[k - from] == OutcomeOf(replies(k));
    }
  }

  lemma RetriesStop(os: seq<Outcome>)
    ensures var a := Retries(OPENED, os);
            && a.outcomes <= os && (os != [] ==> a.outcomes != []) && (|a.outcomes| < |os| ==> Closed(a))
            && forall k :: 0 <= k < |a.outcomes| - 1 ==> !os[k].approved
  {
    if os != [] {
      RetriesCut(os);
      CutStops(os);
    }
  }

  /** The account that `n` replies make pays the invoice just so. */
  lemma RepliesDecide(t: Books, i: string, b: string, replies: nat -> Reply, from: nat, n: nat)
    requires InvoiceAccount(t, i, b, Retries(OPENED, OutcomesFrom(replies, from, n)))
    ensures i in t.invoices
    ensures StopsAtApproval(replies, from, n, |Retries(OPENED, OutcomesFrom(replies, from, n)).outcomes|,
                            t.invoices[i].status == PaidInvoice)
  {
    hide LedgerInv, AccountOf, Retries, StopsAtApproval;
    RepliesStop(replies, from, n);
    ClosedIffPaid(t, i, b);
  }

  lemma OneReplyDecides(replies: nat -> Reply, k: nat, t: Books, i: string)
    requires exists b :: InvoiceAccount(t, i, b, Account([OutcomeOf(replies(k))], false))
    ensures i in t.invoices
    ensures t.invoices[i].status == PaidInvoice <==> replies(k).Answer? && replies(k).status == "Approved"
  {
    var b :| InvoiceAccount(t, i, b, Account([OutcomeOf(replies(k))], false));
    ClosedIffPaid(t, i, b);
    hide LedgerInv, AccountOf, OutcomeOf;
    ApprovedReplies(replies);
  }

  lemma BillingIsUnique(t: Books, b: string, c: string)
    requires LedgerInv(t) && b in t.billings && c in t.billings && t.billings[b].invoiceId == t.billings[c].invoiceId
    ensures b == c
  {
  }

  // ---- Success means every record is processed ----

  ghost predicate AllProcessed(u: Seen, xs: set<string>) {
    forall x :: x in xs && x in u.data.outbox ==> u.data.outbox[x].status == RecordProcessed
  }

  /** The outbox got `n` records, all of them processed. */
  ghost predicate RecordsAdded(s: Seen, u: Seen, n: nat) {
    |NewRecords(s, u)| == n && AllProcessed(u, NewRecords(s, u))
  }

  /** A settlement writes the records its reply calls for, all processed. */
  lemma SettlementMirrorsReply(replies: nat -> Reply, s: Seen, u: Seen, c: ChargeInput, m: Settlement)
    requires SettledBy(replies, s, u, c, m)
    ensures m.paid.Some? <==> replies(|s.calls|).Approves()
    ensures u.data.outbox == WithResults(s.data.outbox, m)
    ensures m.ResultId() !in s.data.outbox && m.result.status == RecordProcessed
    ensures m.paid.Some? ==>
              var x := m.paid.value.event.meta.eventId;
              x !in s.data.outbox && x != m.ResultId() && m.paid.value.status == RecordProcessed
  {
    hide LedgerInv, StorablePayment, Reports;
  }

  lemma WrittenRecords(s: Seen, u: Seen, m: Settlement)
    requires u.data.outbox == WithResults(s.data.outbox, m)
    requires m.ResultId() !in s.data.outbox && m.result.status == RecordProcessed
    requires m.paid.Some? ==>
               var x := m.paid.value.event.meta.eventId;
               x !in s.data.outbox && x != m.ResultId() && m.paid.value.status == RecordProcessed
    ensures RecordsAdded(s, u, if m.paid.Some? then 2 else 1)
  {
    if m.paid.Some? {
      assert NewRecords(s, u) == {m.ResultId(), m.paid.value.event.meta.eventId};
    } else {
      assert NewRecords(s, u) == {m.ResultId()};
    }
  }

  /** An attempt leaves no record, or its result's and, for an approval, the paid invoice's; all processed. */
  lemma AttemptRecords(replies: nat -> Reply, s: Seen, u: Seen, c: ChargeInput)
    requires AttemptMade(replies, s, u, c)
    ensures |NewRecords(s, u)| <= 2 && AllProcessed(u, NewRecords(s, u))
    ensures !HasAttempt(s.data.books, c.billingId, c.attemptNumber) ==>
              |NewRecords(s, u)| == if replies(|s.calls|).Approves() then 2 else 1
  {
    if HasAttempt(s.data.books, c.billingId, c.attemptNumber) {
      assert NewRecords(s, u) == {};
    } else {
      var m :| SettledBy(replies, s, u, c, m);
      SettlementMirrorsReply(replies, s, u, c, m);
      WrittenRecords(s, u, m);
    }
  }

  lemma AttemptSpends(replies: nat -> Reply, s: Seen, u: Seen, e: Event)
    requires e.BillingRequested? && AttemptMade(replies, s, u, InputOf(e))
    ensures |NewRecords(s, u)| <= Budget(e, s.data.books) && WithinBudget(e, s, u)
  {
    AttemptRecords(replies, s, u, InputOf(e));
    AttemptMadeLasts(replies, s, u, InputOf(e));
    hide AttemptMade, AllProcessed;
    assert PaymentsOnBillingRequested in Subscribers(NameOf(e));
    if HasAttempt(s.data.books, e.billingId, e.attemptNumber) {
      FoundSpendsNothing(replies, s, u, e);
    } else {
      assert !RecordsDone(PaymentsOnBillingRequested, e, s.data.books);
    }
  }

  lemma FoundSpendsNothing(replies: nat -> Reply, s: Seen, u: Seen, e: Event)
    requires e.BillingRequested? && AttemptMade(replies, s, u, InputOf(e))
    requires HasAttempt(s.data.books, e.billingId, e.attemptNumber)
    ensures NewRecords(s, u) == {}
  {
  }

  /** A successful publish adds its own record, processed, to those of its delivery. */
  lemma PublishAddsOneRecord(s: Seen, s': Seen, v: Seen, u: Seen, e: Event, emitter: ModuleName)
    requires RecordedAround(s, s', v, u, e, emitter) && KeepsRows(s', v) && AllProcessed(v, NewRecords(s', v))
    ensures AllProcessed(u, NewRecords(s, u))
    ensures |NewRecords(s, u)| == |NewRecords(s', v)| + 1
  {
    var x := e.meta.eventId;
    assert x !in NewRecords(s', v);
    assert NewRecords(s, u) == NewRecords(s', v) + {x};
  }

  /** Failure travels upward: when InvoiceCreated ends processed, so did everything published on the way. That is the
      announcement, the request, the result, and the paid invoice if the gateway approved: at most four records. */
  lemma SuccessIsAllProcessed(replies: nat -> Reply, s: Seen, u: Seen, e: Event)
    requires e.InvoiceCreated? && LedgerInv(s.data.books) && !HasBilling(s.data.books, e.invoiceId)
    requires Published(replies, e, InvoicesModule, s, u)
    ensures AllProcessed(u, NewRecords(s, u))
    ensures |NewRecords(s, u)| == if replies(|s.calls|).Approves() then 4 else 3
  {
    hide LedgerInv, AttemptMade, HasBilling, BringsStorableRows, Enabled, Apply, HasAttempt, KeepsRows, AllProcessed,
         NewRecords;
    var s', v :| RecordedAround(s, s', v, u, e, InvoicesModule) && Delivered(replies, Subscribers(NameOf(e)), e, s', v);
    DeliveryKeepsRows(replies, Subscribers(NameOf(e)), e, s', v);
    DeliveredToOne(replies, BillingOnInvoiceCreated, e, s', v);
    var o :| BillingOpened(replies, s', v, e, o);
    OpeningIsFirst(replies, s', v, e, o);
    AttemptRecords(replies, o.before, o.after, InputOf(o.request));
    AttemptKeepsRows(replies, o.before, o.after, InputOf(o.request));
    var stored := s'.(data := s'.data.(books := Apply(s'.data.books, SaveNewBilling(o.billing))));
    PublishAddsOneRecord(stored, o.before, o.after, v, o.request, BillingModule);
    SameOutboxSameRecords(s', stored, v);
    PublishAddsOneRecord(s, s', v, u, e, InvoicesModule);
  }

  /** What a successful retry leaves in the outbox: its result, and the paid invoice if the gateway approved. */
  lemma RetryRecords(replies: nat -> Reply, s: Seen, w: Seen, u: Seen, r: BillingRow, now: Time, p: PaymentRow)
    requires SeenInv(s) && Reactivated(s, w, r.id, now)
    requires r.id in w.data.books.billings && w.data.books.billings[r.id] == r
    requires AttemptAnswered(replies, w, u, InputFor(r), p)
    ensures RecordsAdded(s, u, if replies(|s.calls|).Approves() then 2 else 1)
  {
    hide SeenInv, InputOk, HasAttempt, AttemptAnswered, AttemptMade;
    ReactivationAsks(s, w, r, now);
    AnsweredIsMade(replies, w, u, InputFor(r), p);
    AttemptRecords(replies, w, u, InputFor(r));
    SameOutboxSameRecords(s, w, u);
  }

  /** What a successful creation leaves in the outbox. */
  lemma CreationRecords(replies: nat -> Reply, s: Seen, w: Seen, u: Seen, e: Event)
    requires e.InvoiceCreated? && SeenInv(w) && w.data.outbox == s.data.outbox && !HasBilling(w.data.books, e.invoiceId)
    requires Published(replies, e, InvoicesModule, w, u)
    ensures RecordsAdded(s, u, if replies(|w.calls|).Approves() then 4 else 3)
  {
    hide SeenInv, Published;
    SeenHasRows(w);
    SuccessIsAllProcessed(replies, w, u, e);
    SameOutboxSameRecords(s, w, u);
  }

  lemma OpeningIsFirst(replies: nat -> Reply, s: Seen, u: Seen, e: Event, o: Opening)
    requires e.InvoiceCreated? && LedgerInv(s.data.books) && BillingOpened(replies, s, u, e, o)
    ensures !HasAttempt(o.before.data.books, o.billing.id, 1) && o.before.calls == s.calls
  {
    CommitKeeps(s.data.books, SaveNewBilling(o.billing));
    AttemptIffSettled(o.before.data.books, o.billing.id, 1);
  }
}
