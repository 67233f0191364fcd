/** What the bus's log tells of a request, and how far a request gets when something stops it. */
module Cascade {
  import opened Wrappers
  import opened Entities
  import opened Tables
  import opened Ledger
  import opened Accounts
  import opened Events
  import opened Outbox
  import opened Effects
  import opened Delivery
  import opened Requests
  import opened BusLog

  // ---- The log of a request ----

  type AppRules = Rules<EventName, ModuleName, Subscriber>
  type AppHub = Hub<EventName, Subscriber>
  type AppLog = seq<Entry<EventName, Subscriber>>
  type AppRound = Round<EventName, Subscriber>
  type AppCall = Call<EventName, Subscriber>

  const NO_LOG: AppLog := []
  const NO_CALLS: seq<AppCall> := []

  /** The bus went on rightly, and published nothing of rank `below` or more. */
  ghost predicate Traced(r: AppRules, below: nat, b: AppHub, log: AppLog, b': AppHub, log': AppLog) {
    Advances(r, b, log, b', log') && Below(Rank, log'[|log|..], below)
  }

  lemma TracedOn(r: AppRules, below: nat, b: AppHub, log: AppLog, b': AppHub, log': AppLog, b'': AppHub, log'': AppLog)
    requires Traced(r, below, b, log, b', log') && Traced(r, below, b', log', b'', log'')
    ensures Traced(r, below, b, log, b'', log'')
  {
    AdvancesOn(r, b, log, b', log', b'', log'');
    BelowBoth(Rank, log'[|log|..], log''[|log'|..], below, below);
    assert log''[|log|..] == log'[|log|..] + log''[|log'|..];
  }

  /** Going on, or not, from where the bus was. */
  lemma TracedAgain(
      r: AppRules, below: nat, b: AppHub, log: AppLog, b': AppHub, log': AppLog, b'': AppHub, log'': AppLog)
    requires (b' == b && log' == log) || Traced(r, below, b, log, b', log')
    requires (b'' == b' && log'' == log') || Traced(r, below, b', log', b'', log'')
    ensures (b'' == b && log'' == log) || Traced(r, below, b, log, b'', log'')
  {
    if !(b' == b && log' == log) && !(b'' == b' && log'' == log') {
      TracedOn(r, below, b, log, b', log', b'', log'');
    }
  }

  lemma TracedSince(
      r: AppRules, below: nat, b: AppHub, log: AppLog, b': AppHub, log': AppLog, b'': AppHub, log'': AppLog)
    requires Traced(r, below, b, log, b', log')
    requires (b'' == b' && log'' == log') || Traced(r, below, b', log', b'', log'')
    ensures Traced(r, below, b, log, b'', log'')
  {
    if !(b'' == b' && log'' == log') {
      TracedOn(r, below, b, log, b', log', b'', log'');
    }
  }

  lemma TracedLower(r: AppRules, below: nat, higher: nat, b: AppHub, log: AppLog, b': AppHub, log': AppLog)
    requires Traced(r, below, b, log, b', log') && below <= higher
    ensures Traced(r, higher, b, log, b', log')
  {
    BelowBoth(Rank, log'[|log|..], [], below, higher);
    assert log'[|log|..] + [] == log'[|log|..];
  }

  lemma NothingTraced(r: AppRules, below: nat)
    ensures Traced(r, below, Hub(map[], false, false), NO_LOG, Hub(map[], false, false), NO_LOG)
  {
    assert NO_LOG[|NO_LOG|..] == NO_LOG;
  }

  lemma SubscriptionTraced(
      r: AppRules, below: nat, b: AppHub, log: AppLog, b': AppHub, log': AppLog, b'': AppHub, log'': AppLog,
      name: EventName, h: Subscriber)
    requires Traced(r, below, b, log, b', log')
    requires b'' == b'.With(name, h) && log'' == log' + [Subscription(name, h)]
    ensures Traced(r, below, b, log, b'', log'')
  {
    AdvancesByOne(r, b', log', b'', log'', Subscription(name, h));
    assert log''[|log'|..] == [Subscription(name, h)] && Front([Subscription(name, h)]) == NO_LOG;
    TracedOn(r, below, b, log, b', log', b'', log'');
  }

  /** One published event is logged. */
  lemma PublishTraced(r: AppRules, b: AppHub, log: AppLog, b': AppHub, name: EventName, rounds: seq<AppRound>,
                      failed: bool)
    requires RoundsMade(r, b, name, b.HandlersFor(name), rounds, b', failed)
    ensures Traced(r, Rank(name) + 1, b, log, b', log + [Publication(name, rounds, failed)])
  {
    var e := Publication(name, rounds, failed);
    assert AfterEntry(r, b, e) == Some(b');
    AdvancesByOne(r, b, log, b', log + [e], e);
    assert (log + [e])[|log|..] == [e] && Front([e]) == [];
    assert |rounds| <= 2;
  }

  predicate RoundsBelow(rounds: seq<AppRound>, bound: nat) {
    forall i :: 0 <= i < |rounds| ==> RoundBelow(Rank, rounds[i].calls, bound)
  }

  /** What happened while a handler ran becomes part of its call. */
  lemma CallTraced(r: AppRules, name: EventName, c: AppCall, m: AppHub, b': AppHub)
    requires c.injected <==> !m.failed && r.Fails(name, c.handler)
    requires if c.injected then c.failed && c.inner == NO_LOG && b' == m.(failed := true)
             else (b' == m && c.inner == NO_LOG) || Traced(r, Rank(name), m, NO_LOG, b', c.inner)
    ensures CallMade(r, m, name, c.handler, c, b', c.failed)
  {
    assert c.inner[|NO_LOG|..] == c.inner;
  }

  /** The record of a failed publish never says processed. If the failure could be written down, it says failed, and
      why. */
  predicate FailureTold(o: map<string, OutboxRow>, x: string, error: Error, quiet: bool) {
    && (x in o ==> o[x].status == RecordPending || (o[x].status == RecordFailed && o[x].errorMessage == Some(error)))
    && (quiet ==> x in o && o[x].status == RecordFailed)
  }

  // ---- Rounds ----

  /** `round` called `hs` in order, rightly, and failed or not. */
  ghost predicate RoundMade(
      r: AppRules, b: AppHub, name: EventName, hs: seq<Subscriber>, round: seq<AppCall>, b': AppHub, failed: bool) {
    && AfterRound(r, b, name, hs, round) == Some(b') && RoundBelow(Rank, round, Rank(name))
    && Ended(hs, round) && (failed <==> !Complete(hs, round))
  }

  /** The first `i` of `hs` were called and none failed. */
  ghost predicate RoundBegun(
      r: AppRules, b: AppHub, name: EventName, hs: seq<Subscriber>, i: nat, round: seq<AppCall>, b': AppHub) {
    && i <= |hs| && |round| == i && Complete(hs[..i], round)
    && AfterRound(r, b, name, hs, round) == Some(b') && RoundBelow(Rank, round, Rank(name))
  }

  /** One call, with what happened in it. */
  ghost predicate CallMade(r: AppRules, m: AppHub, name: EventName, h: Subscriber, c: AppCall, b': AppHub,
                           failed: bool) {
    && c.handler == h && c.failed == failed
    && AfterCall(r, m, name, c) == Some(b') && Below(Rank, c.inner, Rank(name))
  }

  lemma NewRound(r: AppRules, b: AppHub, name: EventName, hs: seq<Subscriber>)
    ensures RoundBegun(r, b, name, hs, 0, NO_CALLS, b)
  {
  }

  lemma CallGoesOn(
      r: AppRules, b: AppHub, name: EventName, hs: seq<Subscriber>, i: nat, round: seq<AppCall>, c: AppCall,
      m: AppHub, b': AppHub, failed: bool)
    requires RoundBegun(r, b, name, hs, i, round, m) && i < |hs| && CallMade(r, m, name, hs[i], c, b', failed)
    ensures if failed then RoundMade(r, b, name, hs, round + [c], b', true)
            else RoundBegun(r, b, name, hs, i + 1, round + [c], b')
  {
    RoundGoesOn(r, b, name, hs, round, c, m, b');
    assert Front(round + [c]) == round && Last(round + [c]) == c;
    assert (round + [c])[i] == c;
  }

  lemma RoundEnds(r: AppRules, b: AppHub, name: EventName, hs: seq<Subscriber>, round: seq<AppCall>, b': AppHub)
    requires RoundBegun(r, b, name, hs, |hs|, round, b')
    ensures RoundMade(r, b, name, hs, round, b', false)
  {
    assert hs[..|hs|] == hs;
  }

  /** All rounds of an event, whatever becomes of its record afterwards. */
  ghost predicate RoundsMade(
      r: AppRules, b: AppHub, name: EventName, hs: seq<Subscriber>, rounds: seq<AppRound>, b': AppHub, failed: bool) {
    && AfterRounds(r, b, name, hs, rounds, true) == Some(b')
    && (!failed ==> AfterRounds(r, b, name, hs, rounds, false) == Some(b'))
    && RoundsBelow(rounds, Rank(name))
  }

  lemma NoRounds(r: AppRules, b: AppHub, name: EventName, hs: seq<Subscriber>)
    ensures RoundsMade(r, b, name, hs, [], b, true)
  {
  }

  lemma OneRound(
      r: AppRules, b: AppHub, name: EventName, hs: seq<Subscriber>, round: seq<AppCall>, b': AppHub, failed: bool)
    requires RoundMade(r, b, name, hs, round, b', failed)
    requires failed || b'.duplicated || !r.Duplicates(name)
    ensures RoundsMade(r, b, name, hs, [Round(round)], b', failed)
  {
  }

  lemma TwoRounds(
      r: AppRules, b: AppHub, name: EventName, hs: seq<Subscriber>, first: seq<AppCall>, m: AppHub,
      second: seq<AppCall>, b': AppHub, failed: bool)
    requires RoundMade(r, b, name, hs, first, m, false) && !m.duplicated && r.Duplicates(name)
    requires RoundMade(r, m.(duplicated := true), name, hs, second, b', failed)
    ensures RoundsMade(r, b, name, hs, [Round(first), Round(second)], b', failed)
  {
  }

  /** Rounds that were complete are right also if the record cannot be marked. */
  lemma RoundsMadeAnyway(
      r: AppRules, b: AppHub, name: EventName, hs: seq<Subscriber>, rounds: seq<AppRound>, b': AppHub)
    requires RoundsMade(r, b, name, hs, rounds, b', false)
    ensures RoundsMade(r, b, name, hs, rounds, b', true)
  {
  }

  // ---- The one event that a profile repeats ----

  /** If BillingRequested is to be delivered twice once, that has happened. */
  predicate RequestRepeated(r: AppRules, m: AppHub) {
    r.options.duplicateFirst == Some(NameBillingRequested) ==> m.duplicated
  }

  /** Delivering `e` will request the first attempt of a billing. */
  ghost predicate Opens(e: Event, t: Books) {
    e.InvoiceCreated? && !HasBilling(t, e.invoiceId)
  }

  lemma OneHandlerOpens(e: Event)
    ensures e.InvoiceCreated? ==> |Subscribers(NameOf(e))| == 1
  {
  }

  /** Publishing the request with success is such an occasion. */
  lemma PublishedIsRepeated(r: AppRules, b: AppHub, hs: seq<Subscriber>, rounds: seq<AppRound>, b': AppHub)
    requires RoundsMade(r, b, NameBillingRequested, hs, rounds, b', false)
    ensures RequestRepeated(r, b')
  {
    RoundFaults(r, b, NameBillingRequested, hs, rounds[0].calls);
    if |rounds| == 2 {
      var m := AfterRound(r, b, NameBillingRequested, hs, rounds[0].calls).value;
      RoundFaults(r, m.(duplicated := true), NameBillingRequested, hs, rounds[1].calls);
    }
  }

  lemma RoundKeepsRepeated(
      r: AppRules, b: AppHub, name: EventName, hs: seq<Subscriber>, round: seq<AppCall>, b': AppHub, failed: bool)
    requires RoundMade(r, b, name, hs, round, b', failed)
    ensures RequestRepeated(r, b) || b.duplicated ==> RequestRepeated(r, b')
  {
    RoundFaults(r, b, name, hs, round);
  }

  lemma TraceKeepsRepeated(r: AppRules, below: nat, b: AppHub, log: AppLog, b': AppHub, log': AppLog)
    requires (b' == b && log' == log) || Traced(r, below, b, log, b', log')
    ensures RequestRepeated(r, b) ==> RequestRepeated(r, b')
  {
    if !(b' == b && log' == log) {
      FaultsHappenOnce(r, b, log'[|log|..]);
    }
  }

  // ---- Deliveries under faults ----

  /** What a payment attempt leaves, whether it succeeds or fails: on success its stored payment, found or settled by
      one call; on failure the data as it was, and perhaps a call in vain; no call at all for a stored attempt. */
  ghost predicate ChargeEnded(replies: nat -> Reply, s: Seen, u: Seen, c: ChargeInput, r: Result<PaymentRow, Error>) {
    && SeenInv(u) && Progress(s, u, c.invoiceId)
    && (if r.Ok? then AttemptAnswered(replies, s, u, c, r.value) else u.data == s.data)
    && (u.calls == s.calls || u.calls == s.calls + [CallFor(c, replies(|s.calls|))])
    && (HasAttempt(s.data.books, c.billingId, c.attemptNumber) ==> u.calls == s.calls)
  }

  lemma NoAttemptToMake(replies: nat -> Reply, s: Seen, c: ChargeInput)
    requires SeenInv(s)
    ensures ChargeEnded(replies, s, s, c, Err(InvalidAttemptNumber))
  {
    NoProgress(s, c.invoiceId);
  }

  lemma CommitEndsCharge(replies: nat -> Reply, s: Seen, u: Seen, c: ChargeInput, p: PaymentRow)
    requires SeenInv(s) && InputOk(s.data.books, c) && AttemptAnswered(replies, s, u, c, p)
    ensures ChargeEnded(replies, s, u, c, Ok(p))
  {
    hide SeenInv, Progress, InputOk, HasAttempt, AttemptMade, CallFor, EnabledSettlement;
    AnsweredIsMade(replies, s, u, c, p);
    AttemptKeepsSeen(replies, s, u, c);
  }

  lemma RollbackEndsCharge(replies: nat -> Reply, s: Seen, u: Seen, c: ChargeInput, error: Error)
    requires SeenInv(s) && InputOk(s.data.books, c) && u.data == s.data
    requires u.calls == s.calls || u.calls == s.calls + [CallFor(c, replies(|s.calls|))]
    requires HasAttempt(s.data.books, c.billingId, c.attemptNumber) ==> u.calls == s.calls
    ensures ChargeEnded(replies, s, u, c, Err(error))
  {
    hide SeenInv, Progress, InputOk, HasAttempt, CallFor, AttemptAnswered;
    CallAloneKeepsSeen(s, u, c, replies(|s.calls|));
  }

  /** What opening the billing of an unbilled invoice leaves, whether it succeeds or fails. */
  ghost predicate OpeningEnded(replies: nat -> Reply, e: Event, s: Seen, u: Seen, failure: Option<Error>)
    requires e.InvoiceCreated?
  {
    && SeenInv(u) && Progress(s, u, e.invoiceId)
    && (failure.None? ==> BillingEnsured(replies, s, u, e))
    && |NewRecords(s, u)| <= Rank(NameInvoiceCreated)
  }

  lemma NothingOpened(replies: nat -> Reply, e: Event, s: Seen, error: Error)
    requires e.InvoiceCreated? && SeenInv(s)
    ensures OpeningEnded(replies, e, s, s, Some(error))
  {
    hide SeenInv, Progress;
    NoProgress(s, e.invoiceId);
    SameOutboxNoRecords(s, s);
  }

  /** The billing that `r` is, stored for the announced invoice. */
  ghost predicate BillingStored(e: Event, s: Seen, w: Seen, r: BillingRow)
    requires e.InvoiceCreated?
  {
    && SeenInv(s) && !HasBilling(s.data.books, e.invoiceId) && r.invoiceId == e.invoiceId && r.attemptNumber == 1
    && Enabled(s.data.books, SaveNewBilling(r)) && BringsStorableRows(SaveNewBilling(r))
    && w == Seen(Data(Apply(s.data.books, SaveNewBilling(r)), s.data.outbox), s.calls)
  }

  function RequestOf(meta: Metadata, r: BillingRow): Event {
    BillingRequested(meta, r.id, r.invoiceId, r.customerId, r.amountCents, r.dueDate, r.attemptNumber)
  }

  lemma StoredBillingIsDeliverable(e: Event, s: Seen, w: Seen, r: BillingRow, q: Event)
    requires e.InvoiceCreated? && BillingStored(e, s, w, r) && q == RequestOf(q.meta, r)
    requires q.meta.aggregateId == r.id
    ensures Deliverable(q, w)
  {
    hide SeenInv, Enabled, BringsStorableRows, Apply, HasBilling;
    OpenedBillingIsDeliverable(s, r, q);
  }

  lemma RequestEndsOpening(
      replies: nat -> Reply, e: Event, s: Seen, w: Seen, u: Seen, r: BillingRow, q: Event, failure: Option<Error>)
    requires e.InvoiceCreated? && BillingStored(e, s, w, r) && q == RequestOf(q.meta, r)
    requires OccursAt(r.updatedAt, q.meta.occurredAt)
    requires PublishEnded(replies, BillingModule, q, w, u, failure)
    ensures OpeningEnded(replies, e, s, u, failure)
    ensures Interrupted(q, w, u) ==> Interrupted(e, s, u)
  {
    hide SeenInv, Progress, Enabled, BringsStorableRows, BillingEnsured, Published, Apply, NewRecords, HasBilling,
         Interrupted;
    PlainCommitKeepsSeen(s, SaveNewBilling(r), e.invoiceId);
    SameOutboxSameRecords(s, w, u);
    ProgressTransitive(s, w, u, e.invoiceId);
    InterruptedOpening(s, w, u, e, r, q);
    if failure.None? {
      BillingPublished(replies, s, u, e, r, q);
    }
  }

  /** What calling `h` with `e` leaves, whether it succeeds or fails. With nothing left to do for `h` it leaves
      everything as it is, also if it fails. */
  ghost predicate Handled(replies: nat -> Reply, h: Subscriber, e: Event, s: Seen, u: Seen, failure: Option<Error>) {
    && (!e.InPaymentTransaction() ==> SeenInv(u) && Progress(s, u, e.invoiceId))
    && |NewRecords(s, u)| <= Budget(e, s.data.books)
    && (failure.None? ==> HandlerOk(replies, h, e, s, u) && Deliverable(e, u) && WithinBudget(e, s, u))
    && (Done(h, e, s.data.books) ==> u == s)
  }

  /** The same for calling all of `hs`, or as many as there are before a failure. */
  ghost predicate AllHandled(
      replies: nat -> Reply, hs: seq<Subscriber>, e: Event, s: Seen, u: Seen, failure: Option<Error>) {
    && (!e.InPaymentTransaction() ==> SeenInv(u) && Progress(s, u, e.invoiceId))
    && |NewRecords(s, u)| <= Budget(e, s.data.books)
    && (failure.None? ==> Delivered(replies, hs, e, s, u) && Deliverable(e, u) && WithinBudget(e, s, u))
    && (AllDone(hs, e, s.data.books) ==> u == s)
  }

  ghost predicate AllDone(hs: seq<Subscriber>, e: Event, t: Books) {
    forall h :: h in hs ==> Done(h, e, t)
  }

  lemma SettlingHandles(replies: nat -> Reply, e: Event, s: Seen, u: Seen, failure: Option<Error>)
    requires e.PaymentApproved? && |NewRecords(s, u)| <= Budget(e, s.data.books)
    requires failure.None? ==> InvoiceSettled(s, u, e) && Deliverable(e, u) && WithinBudget(e, s, u)
    requires Done(InvoicesOnPaymentApproved, e, s.data.books) ==> u == s
    ensures Handled(replies, InvoicesOnPaymentApproved, e, s, u, failure)
  {
    hide InvoiceSettled, Deliverable, WithinBudget, Budget, NewRecords;
  }

  lemma MarkingHandles(replies: nat -> Reply, e: Event, s: Seen, u: Seen, failure: Option<Error>)
    requires e.IsResult() && u.data.outbox == s.data.outbox
    requires var status := if e.PaymentApproved? then ApprovedBilling else FailedBilling;
             if failure.None? then BillingMarked(s, u, e.billingId, status) && Deliverable(e, u) else u == s
    ensures Handled(replies, if e.PaymentApproved? then BillingOnPaymentApproved else BillingOnPaymentFailed, e, s, u,
                    failure)
  {
    MarkingSpendsNothing(e, s, u, failure, if e.PaymentApproved? then ApprovedBilling else FailedBilling);
    hide Deliverable, WithinBudget, Budget, NewRecords;
  }

  lemma ChargingHandles(replies: nat -> Reply, e: Event, s: Seen, u: Seen, r: Result<PaymentRow, Error>)
    requires e.BillingRequested? && Deliverable(e, s) && ChargeEnded(replies, s, u, InputOf(e), r)
    ensures Handled(replies, PaymentsOnBillingRequested, e, s, u, if r.Ok? then None else Some(r.error))
  {
    hide SeenInv, Progress, Deliverable, AttemptMade, AttemptAnswered, WithinBudget, Budget, NewRecords;
    StillDeliverable(e, s, u);
    if r.Ok? {
      AnsweredIsMade(replies, s, u, InputOf(e), r.value);
      AttemptSpends(replies, s, u, e);
      if Done(PaymentsOnBillingRequested, e, s.data.books) {
        HandlingAgainIsStutter(replies, PaymentsOnBillingRequested, e, s, u);
      }
    } else {
      SameOutboxNoRecords(s, u);
    }
  }

  lemma OpeningHandles(replies: nat -> Reply, e: Event, s: Seen, u: Seen, failure: Option<Error>)
    requires e.InvoiceCreated? && Deliverable(e, s) && SeenInv(u) && Progress(s, u, e.invoiceId)
    requires |NewRecords(s, u)| <= Budget(e, s.data.books)
    requires failure.None? ==> BillingEnsured(replies, s, u, e) && WithinBudget(e, s, u)
    requires HasBilling(s.data.books, e.invoiceId) ==> u == s
    ensures Handled(replies, BillingOnInvoiceCreated, e, s, u, failure)
  {
    hide SeenInv, Progress, Deliverable, BillingEnsured, WithinBudget, Budget, NewRecords;
    StillDeliverable(e, s, u);
  }

  lemma NotHandled(replies: nat -> Reply, h: Subscriber, e: Event, s: Seen, error: Error)
    requires Deliverable(e, s)
    ensures Handled(replies, h, e, s, s, Some(error))
  {
    hide SeenInv, Progress, Deliverable;
    if !e.InPaymentTransaction() {
      RequestEventsNeedKeptData(e, s);
      NoProgress(s, e.invoiceId);
    }
    SameOutboxNoRecords(s, s);
  }

  lemma NoneHandled(replies: nat -> Reply, hs: seq<Subscriber>, e: Event, s: Seen)
    requires Deliverable(e, s)
    ensures AllHandled(replies, hs[..0], e, s, s, None)
  {
    hide SeenInv, Progress, Deliverable;
    if !e.InPaymentTransaction() {
      RequestEventsNeedKeptData(e, s);
      NoProgress(s, e.invoiceId);
    }
    NothingSpent(e, s, s);
    BudgetHolds(e, s, s);
    DeliveredToNone(replies, hs, e, s);
  }

  lemma OneMoreHandled(
      replies: nat -> Reply, hs: seq<Subscriber>, i: nat, e: Event, s: Seen, v: Seen, u: Seen, failure: Option<Error>)
    requires i < |hs| && AllHandled(replies, hs[..i], e, s, v, None) && Handled(replies, hs[i], e, v, u, failure)
    ensures AllHandled(replies, if failure.Some? then hs else hs[..i + 1], e, s, u, failure)
  {
    hide SeenInv, Progress, Deliverable, Delivered, HandlerOk, WithinBudget, Budget, NewRecords, Done;
    assert hs[i] in hs[..i + 1] && forall h :: h in hs[..i] ==> h in hs[..i + 1] && h in hs;
    if !e.InPaymentTransaction() {
      ProgressTransitive(s, v, u, e.invoiceId);
    }
    SpentTogether(e, s, v, u);
    if failure.None? {
      DeliveredToOneMore(replies, hs, i, e, s, v, u);
      BudgetHolds(e, s, u);
    }
  }

  lemma AllHandledIsDeliverable(replies: nat -> Reply, hs: seq<Subscriber>, e: Event, s: Seen, u: Seen)
    requires AllHandled(replies, hs, e, s, u, None)
    ensures Deliverable(e, u)
  {
  }

  /** Delivering again right after a complete delivery changes no invoice, billing, payment or outbox row and makes no
      gateway call, whether the second delivery is complete too or a fault stops it partway. */
  lemma RedeliveryChangesNothing(
      replies: nat -> Reply, hs: seq<Subscriber>, e: Event, s: Seen, v: Seen, u: Seen, failure: Option<Error>)
    requires AllHandled(replies, hs, e, s, v, None) && AllHandled(replies, hs, e, v, u, failure)
    ensures u == v
  {
    hide SeenInv, Progress, Deliverable, Delivered, HandlerOk, WithinBudget, Budget, NewRecords, Done;
    DeliveryMakesDone(replies, hs, e, s, v);
  }

  lemma FailedLater(
      replies: nat -> Reply, hs: seq<Subscriber>, e: Event, s: Seen, u: Seen, failure: Option<Error>)
    requires AllHandled(replies, hs, e, s, u, None)
    ensures AllHandled(replies, hs, e, s, u, failure)
  {
    hide SeenInv, Progress, Deliverable, Delivered, WithinBudget, Budget, NewRecords, Done;
  }

  /** What is known before the record is marked. */
  lemma HandledAfterRecord(
      replies: nat -> Reply, emitter: ModuleName, hs: seq<Subscriber>, e: Event, s: Seen, s': Seen, v: Seen,
      failure: Option<Error>)
    requires AllHandled(replies, hs, e, s', v, failure) && RecordStored(e, emitter, s, s')
    requires !e.InPaymentTransaction() ==> Progress(s, s', e.invoiceId)
    ensures |NewRecords(s, v)| <= Rank(NameOf(e)) + 1
    ensures failure.None? ==> Delivered(replies, hs, e, s', v)
    ensures !e.InPaymentTransaction() ==>
              var x := e.meta.eventId;
              SeenInv(v) && Progress(s, v, e.invoiceId) && x in v.data.outbox && v.data.outbox[x] == s'.data.outbox[x]
  {
    hide SeenInv, Deliverable, Delivered, HandlerOk, WithinBudget, Budget, NewRecords, Progress;
    if !e.InPaymentTransaction() {
      ProgressTransitive(s, s', v, e.invoiceId);
      ProgressKeepsRow(s', v, e.invoiceId, e.meta.eventId);
    }
    RecordSpent(e, s, s', v);
  }

  /** The pending record of `e` is there, and nothing else is new. */
  ghost predicate RecordStored(e: Event, emitter: ModuleName, s: Seen, s': Seen) {
    var x := e.meta.eventId;
    && x !in s.data.outbox && x in s'.data.outbox
    && s'.data.outbox[x] == Appended(e, emitter, s'.data.outbox[x].recordedAt)
    && s' == s.WithRow(x, s'.data.outbox[x])
  }

  lemma StoredRecord(e: Event, emitter: ModuleName, s: Seen, s': Seen)
    requires RecordStored(e, emitter, s, s')
    ensures var x := e.meta.eventId;
            && x !in s.data.outbox && x in s'.data.outbox
            && s'.data.outbox[x].event == e && s'.data.outbox[x].Coherent() && s'.data.outbox[x].status == RecordPending
    ensures s'.data.books == s.data.books && s'.calls == s.calls
  {
  }

  /** What publishing leaves, whether it succeeds or fails: at most one record per rank, and outside the payment
      transaction all invariants and progress for the one invoice; after success, the whole delivery and its record. */
  ghost predicate PublishEnded(
      replies: nat -> Reply, emitter: ModuleName, e: Event, s: Seen, u: Seen, failure: Option<Error>) {
    && (!e.InPaymentTransaction() ==> SeenInv(u) && Progress(s, u, e.invoiceId))
    && |NewRecords(s, u)| <= Rank(NameOf(e)) + 1
    && (failure.None? ==> Published(replies, e, emitter, s, u))
  }

  lemma RefusedRecordEndsPublish(replies: nat -> Reply, emitter: ModuleName, e: Event, s: Seen, error: Error)
    requires Deliverable(e, s)
    ensures PublishEnded(replies, emitter, e, s, s, Some(error))
  {
    hide SeenInv, Progress, Deliverable;
    if !e.InPaymentTransaction() {
      RequestEventsNeedKeptData(e, s);
      NoProgress(s, e.invoiceId);
    }
    SameOutboxNoRecords(s, s);
  }

  lemma MarkingEndsPublish(
      replies: nat -> Reply, emitter: ModuleName, e: Event, s: Seen, v: Seen, u: Seen, failure: Option<Error>)
    requires |NewRecords(s, v)| <= Rank(NameOf(e)) + 1 && u.data.outbox.Keys == v.data.outbox.Keys
    requires !e.InPaymentTransaction() ==> SeenInv(u) && Progress(s, u, e.invoiceId)
    requires failure.None? ==> Published(replies, e, emitter, s, u)
    ensures PublishEnded(replies, emitter, e, s, u, failure)
  {
    hide SeenInv, Progress, Published;
    SameIdsNoRecords(s, v, u);
  }

  predicate AllWired(hs: seq<Subscriber>, e: Event) {
    forall h :: h in hs ==> h in Subscribers(NameOf(e))
  }

  lemma RequestsHaveHandlers(e: Event)
    ensures !e.InPaymentTransaction() ==> Subscribers(NameOf(e)) != []
  {
  }

  /** How far a request gets when the payments handler is failed before it runs: the billing is there, nothing is
      charged. */
  ghost predicate Interrupted(e: Event, s: Seen, u: Seen) {
    && u.calls == s.calls
    && if e.InvoiceCreated? then
         exists r :: Enabled(s.data.books, SaveNewBilling(r)) && r.invoiceId == e.invoiceId
                     && u.data.books == Apply(s.data.books, SaveNewBilling(r))
       else u.data.books == s.data.books
  }

  lemma InterruptedAtOnce(e: Event, s: Seen, u: Seen)
    requires !e.InvoiceCreated? && u.calls == s.calls && u.data.books == s.data.books
    ensures Interrupted(e, s, u)
  {
  }

  lemma InterruptedLater(e: Event, s: Seen, s': Seen, v: Seen, u: Seen)
    requires s'.data.books == s.data.books && s'.calls == s.calls
    requires u.data.books == v.data.books && u.calls == v.calls
    ensures Interrupted(e, s', v) ==> Interrupted(e, s, u)
  {
  }

  lemma InterruptedOpening(s: Seen, w: Seen, u: Seen, e: Event, r: BillingRow, q: Event)
    requires Enabled(s.data.books, SaveNewBilling(r)) && r.invoiceId == e.invoiceId && e.InvoiceCreated?
             && !q.InvoiceCreated?
    requires w.data.books == Apply(s.data.books, SaveNewBilling(r)) && w.calls == s.calls
    ensures Interrupted(q, w, u) ==> Interrupted(e, s, u)
  {
  }

  /** The billing of an interrupted creation still has its first attempt due. */
  lemma InterruptedAccount(s: Seen, u: Seen, e: Event)
    requires e.InvoiceCreated? && LedgerInv(s.data.books) && Interrupted(e, s, u)
    ensures u.calls == s.calls && exists b :: InvoiceAccount(u.data.books, e.invoiceId, b, OPENED)
  {
    var r :| Enabled(s.data.books, SaveNewBilling(r)) && r.invoiceId == e.invoiceId
             && u.data.books == Apply(s.data.books, SaveNewBilling(r));
    NewBillingOpens(s.data.books, r);
    assert InvoiceAccount(u.data.books, e.invoiceId, r.id, OPENED);
  }

  /** Stored, unpaid, and with nothing to retry. */
  ghost predicate Unbilled(t: Books, i: string) {
    i in t.invoices && t.invoices[i].status == PendingInvoice && !HasBilling(t, i)
  }

  lemma NewInvoiceIsUnbilled(s: Seen, r: InvoiceRow)
    requires SeenInv(s) && Enabled(s.data.books, SaveNewInvoice(r))
    ensures Unbilled(Apply(s.data.books, SaveNewInvoice(r)), r.id)
  {
    UnknownIsUnbilled(s, r.id);
  }

  /** Unbilled invoices are left exactly as they were. */
  ghost predicate UnbilledStay(t: Books, u: Books) {
    forall i :: Unbilled(t, i) ==> Unbilled(u, i) && u.invoices[i] == t.invoices[i]
  }

  lemma NothingBilled(t: Books)
    ensures UnbilledStay(t, t)
  {
  }

  /** Requests for other invoices, and retries that change nothing, bill no unbilled invoice. */
  lemma OthersStayUnbilled(start: Books, s: Seen, u: Seen, i: string)
    requires UnbilledStay(start, s.data.books) && Progress(s, u, i)
    requires u == s || i !in s.data.books.invoices || HasBilling(s.data.books, i)
    ensures UnbilledStay(start, u.data.books)
  {
  }

  /** The log of a whole life: right from the start, nowhere deeper than four publishes, with at most one failed handler
      and one duplicate injected, each at the first occasion and only for what it is configured for, and every event,
      at any depth, delivered in order to those subscribed at the time. */
  ghost predicate LifeLogged(r: AppRules, log: AppLog, b: AppHub) {
    && AfterLog(r, Hub(map[], false, false), log) == Some(b)
    && Depth(log) <= 4 && Injections(log) <= 1 && Repetitions(log) <= 1
    && OrderlyLog((n: EventName) => [], log)
    && OnlyFirst(r.options.duplicateFirst, false, Repeats(log))
    && (b.duplicated <==> SpentAfter(r.options.duplicateFirst, false, Repeats(log)))
    && OnlyFirst(r.options.failFirst, false, Failures(r.consumerOf, log))
    && (b.failed <==> SpentAfter(r.options.failFirst, false, Failures(r.consumerOf, log)))
  }

  lemma LogOfLife(r: AppRules, log: AppLog, b: AppHub)
    requires Traced(r, 4, Hub(map[], false, false), NO_LOG, b, log)
    ensures LifeLogged(r, log, b)
  {
    assert log[|NO_LOG|..] == log;
    DepthIsBounded(Rank, log, 4);
    FaultsHappenOnce(r, Hub(map[], false, false), log);
    RightLogsAreOrderly(r, Hub(map[], false, false), log, (n: EventName) => []);
    FirstIsRepeated(r, Hub(map[], false, false), log);
    FirstIsFailed(r, Hub(map[], false, false), log);
  }

  // ---- Announcing a new invoice ----

  /** One gateway call, one outcome, and the records its reply calls for; the invoice is paid if and only if the reply
      says "Approved". */
  ghost predicate ChargedOnce(replies: nat -> Reply, s: Seen, u: Seen, invoiceId: string) {
    && |u.calls| == |s.calls| + 1 && Wasted(u) == Wasted(s)
    && invoiceId in u.data.books.invoices
    && (u.data.books.invoices[invoiceId].status == PaidInvoice <==>
        replies(|s.calls|).Answer? && replies(|s.calls|).status == "Approved")
    && RecordsAdded(s, u, if replies(|s.calls|).Approves() then 4 else 3)
    && exists b :: InvoiceAccount(u.data.books, invoiceId, b, Account([OutcomeOf(replies(|s.calls|))], false))
  }

  function AnnouncingOf(meta: Metadata, r: InvoiceRow): Event {
    InvoiceCreated(meta, r.id, r.customerId, r.amountCents, r.dueDate)
  }

  /** What is true once the invoice is stored. */
  lemma BeforeAnnouncement(s: Seen, w: Seen, r: InvoiceRow, e: Event)
    requires SeenInv(s) && Enabled(s.data.books, SaveNewInvoice(r)) && BringsStorableRows(SaveNewInvoice(r))
    requires w == Seen(Data(Apply(s.data.books, SaveNewInvoice(r)), s.data.outbox), s.calls)
    requires e == AnnouncingOf(e.meta, r)
    requires e.meta.aggregateId == r.id && OccursAt(r.createdAt, e.meta.occurredAt)
    ensures Deliverable(e, w) && !HasBilling(w.data.books, r.id) && Unbilled(w.data.books, r.id)
    ensures SeenInv(w) && Progress(s, w, r.id) && Wasted(w) == Wasted(s) && w.data.outbox == s.data.outbox
  {
    PlainCommitKeepsSeen(s, SaveNewInvoice(r), r.id);
    NewInvoiceIsDeliverable(s, r, e);
    NewInvoiceIsUnbilled(s, r);
  }

  /** And what announcing it adds to that. */
  lemma AfterAnnouncement(replies: nat -> Reply, s: Seen, w: Seen, u: Seen, r: InvoiceRow, e: Event)
    requires SeenInv(s) && Enabled(s.data.books, SaveNewInvoice(r)) && BringsStorableRows(SaveNewInvoice(r))
    requires w == Seen(Data(Apply(s.data.books, SaveNewInvoice(r)), s.data.outbox), s.calls)
    requires e == AnnouncingOf(e.meta, r) && SeenInv(u) && Progress(w, u, r.id)
    requires e.meta.aggregateId == r.id && OccursAt(r.createdAt, e.meta.occurredAt)
    ensures Progress(s, u, r.id) && NewRecords(s, u) == NewRecords(w, u)
    ensures r.id in u.data.books.invoices && InvoiceForward(r, u.data.books.invoices[r.id])
    ensures Published(replies, e, InvoicesModule, w, u) ==> ChargedOnce(replies, s, u, r.id)
    ensures Interrupted(e, w, u) ==> u.calls == s.calls && exists b :: InvoiceAccount(u.data.books, r.id, b, OPENED)
  {
    hide SeenInv, Progress, Enabled, BringsStorableRows, InvoiceForward, NewRecords, Interrupted, Apply, RecordsAdded,
         InvoiceAccount, HasBilling, Published;
    BeforeAnnouncement(s, w, r, e);
    AnnouncementTells(e, w);
    ProgressTransitive(s, w, u, r.id);
    StoredInvoiceStays(s, w, u, r);
    SameOutboxSameRecords(s, w, u);
    if Published(replies, e, InvoicesModule, w, u) {
      AnnouncementCharges(replies, w, u, e);
      OneReplyDecides(replies, |s.calls|, u.data.books, r.id);
      CreationRecords(replies, s, w, u, e);
    }
    if Interrupted(e, w, u) {
      SeenHasRows(w);
      InterruptedAccount(w, u, e);
    }
  }
}
