/** The fault profiles, as particular worlds and bus options, and what they lead to. */
module FaultProfiles {
  import opened Wrappers
  import opened Text
  import opened Entities
  import opened Accounts
  import opened Events
  import opened BusLog
  import opened EventBus
  import opened Ledger
  import opened Tables
  import opened Requests
  import opened Outbox
  import opened Effects
  import opened Environment
  import opened Cascade
  import opened Application

  datatype Profile =
    | NoFaults | PaymentTimeout | PaymentFlakyFirst
    | DuplicateBillingRequested | EventConsumerFailure | OutboxAppendFailure

  function EventBusOptions(profile: Profile): BusOptions<EventName, ModuleName> {
    match profile
    case DuplicateBillingRequested => BusOptions(Some(NameBillingRequested), None)
    case EventConsumerFailure => BusOptions(None, Some((NameBillingRequested, PaymentsModule)))
    case _ => BusOptions(None, None)
  }

  /** The replies seen through the profile's gateway decorator when `next` are those of the gateway behind it. */
  function DecoratedReplies(profile: Profile, next: nat -> Reply): nat -> Reply {
    match profile
    case PaymentTimeout => (k: nat) => DeadlineExceeded
    case PaymentFlakyFirst => (k: nat) => if k == 0 then OtherError else next(k - 1)
    case _ => next
  }

  /** The decorator that fails the first call and passes all others on. */
  class FailFirstGateway {
    const next: nat -> Reply
    var consumed: bool
    var passedOn: nat

    constructor (next: nat -> Reply)
      ensures this.next == next && Calls() == 0
    {
      this.next, consumed, passedOn := next, false, 0;
    }

    /** How many calls have been made, the failed one included. */
    function Calls(): nat
      reads this
    {
      if consumed then passedOn + 1 else 0
    }

    method Process() returns (reply: Reply)
      modifies this
      ensures reply == DecoratedReplies(PaymentFlakyFirst, next)(old(Calls()))
      ensures Calls() == old(Calls()) + 1
    {
      if !consumed {
        consumed, passedOn := true, 0;
        return OtherError;
      }
      reply := next(passedOn);
      passedOn := passedOn + 1;
    }
  }

  /** With a flaky first call the automatic attempt fails, and the first retry decides like a first attempt would
      have. */
  lemma FlakyFirstShiftsByOne(next: nat -> Reply, n: nat)
    ensures Cut(OutcomesFrom(DecoratedReplies(PaymentFlakyFirst, next), 0, n + 1))
            == [Outcome(false, GatewayError, "")] + Cut(OutcomesFrom(next, 0, n))
  {
    var os := OutcomesFrom(DecoratedReplies(PaymentFlakyFirst, next), 0, n + 1);
    assert DecoratedReplies(PaymentFlakyFirst, next)(0) == OtherError;
    assert os[0] == OutcomeOf(OtherError);
    assert !os[0].approved && os[0] == Outcome(false, GatewayError, "");
    assert os[1..] == OutcomesFrom(next, 0, n);
    assert Cut(os) == [os[0]] + Cut(os[1..]);
  }

  /** With timeouts no number of retries pays, and every one of them is an attempt. */
  lemma {:induction false} TimeoutsNeverPay(next: nat -> Reply, n: nat)
    ensures var os := OutcomesFrom(DecoratedReplies(PaymentTimeout, next), 0, n);
            Cut(os) == os && forall o :: o in os ==> o == Outcome(false, GatewayTimeout, "")
  {
    var os := OutcomesFrom(DecoratedReplies(PaymentTimeout, next), 0, n);
    if n > 0 {
      TimeoutsNeverPay(next, n - 1);
      assert os[1..] == OutcomesFrom(DecoratedReplies(PaymentTimeout, next), 0, n - 1);
    }
  }

  ghost predicate UsableIds(freshId: nat -> string) {
    (forall k :: IsUsableId(freshId(k))) && (forall j, k :: j < k ==> freshId(j) != freshId(k))
  }

  /** The gateway outcomes that count when an invoice is created and retried: the creation itself charges unless the
      payments handler is failed first. */
  ghost function OutcomesUnder(profile: Profile, next: nat -> Reply, retries: nat): seq<Outcome> {
    OutcomesFrom(DecoratedReplies(profile, next), 0, if profile == EventConsumerFailure then retries else retries + 1)
  }

  lemma OutcomesAreCut(profile: Profile, next: nat -> Reply, retries: nat)
    requires profile != EventConsumerFailure
    ensures var os := OutcomesUnder(profile, next, retries);
            os != [] && Retries(OPENED, os) == Account(Cut(os), false)
  {
    RetriesCut(OutcomesUnder(profile, next, retries));
  }

  /** How the gateway's own replies decide under a profile, after `n` calls seen through its decorator. */
  ghost predicate SettledUnder(profile: Profile, next: nat -> Reply, retries: nat, n: nat, paid: bool) {
    match profile
    case NoFaults => StopsAtApproval(next, 0, retries + 1, n, paid)
    case DuplicateBillingRequested => StopsAtApproval(next, 0, retries + 1, n, paid)
    case EventConsumerFailure => StopsAtApproval(next, 0, retries, n, paid)
    case PaymentFlakyFirst => StopsAtApproval(next, 0, retries, n - 1, paid)
    case PaymentTimeout => n == retries + 1 && !paid
    case OutboxAppendFailure => n == 0 && !paid
  }

  lemma DecorationDecides(profile: Profile, next: nat -> Reply, retries: nat, n: nat, paid: bool)
    requires profile != OutboxAppendFailure
    requires StopsAtApproval(DecoratedReplies(profile, next), 0,
                             if profile == EventConsumerFailure then retries else retries + 1, n, paid)
    ensures SettledUnder(profile, next, retries, n, paid)
  {
    var seen := DecoratedReplies(profile, next);
    if profile == PaymentFlakyFirst {
      assert seen(0) == OtherError;
      forall k: nat | 0 <= k < n - 2 ensures !(next(k).Answer? && next(k).status == "Approved") {
        assert seen(k + 1) == next(k);
      }
    }
  }

  /** What the bus injects under a profile: one repetition of BillingRequested, one failure of the payments handler of
      BillingRequested, or nothing. */
  ghost predicate InjectedUnder(profile: Profile, log: AppLog) {
    && (if profile == DuplicateBillingRequested then OneTaken(Repeats(log), NameBillingRequested)
        else NoneTaken(Repeats(log)))
    && (if profile == EventConsumerFailure then
          OneTaken(Failures(ModuleOf, log), (NameBillingRequested, PaymentsModule))
        else NoneTaken(Failures(ModuleOf, log)))
  }

  lemma LogTellsInjections(profile: Profile, r: AppRules, m: AppHub, wired: AppLog, m': AppHub, log: AppLog)
    requires r == Rules(EventBusOptions(profile), ModuleOf)
    requires Traced(r, 4, Hub(map[], false, false), NO_LOG, m, wired)
    requires (m' == m && log == wired) || Traced(r, 4, m, wired, m', log)
    requires RequestRepeated(r, m') || profile != DuplicateBillingRequested
    requires profile == EventConsumerFailure ==> m'.failed
    ensures LifeLogged(r, log, m') && InjectedUnder(profile, log)
  {
    TracedSince(r, 4, Hub(map[], false, false), NO_LOG, m, wired, m', log);
    LogOfLife(r, log, m');
    hide Traced, Repeats, Failures;
    OneIsTaken(r.options.duplicateFirst, Repeats(log));
    OneIsTaken(r.options.failFirst, Failures(ModuleOf, log));
  }

  /** The freshly started system under each of the six profiles, with nothing else failing: an invoice is created and
      retried. A refused announcement leaves it unbilled, and no retry can do anything about that; under all other
      profiles its account is what the gateway's replies make of it. */
  method CreateAndRetryUnder(profile: Profile, next: nat -> Reply, freshId: nat -> string, clock: nat -> Time,
                             customerId: string, amountCents: int, dueDate: Time, retries: nat)
    returns (app: App, invoiceId: string)
    requires UsableIds(freshId) && CanInvoice(customerId, amountCents, dueDate)
    ensures app.Ready(false) && SeenInv(app.Now(false)) && app.Calm(false)
    ensures fresh(app) && fresh(app.db) && fresh(app.bus) && fresh(app.world)
    ensures profile == OutboxAppendFailure ==> Unbilled(app.db.committed.books, invoiceId) && app.world.calls == []
    ensures profile != OutboxAppendFailure ==>
              var a := Retries(OPENED, OutcomesUnder(profile, next, retries));
              && |app.world.calls| == |a.outcomes|
              && exists b :: InvoiceAccount(app.db.committed.books, invoiceId, b, a)
    ensures invoiceId in app.db.committed.books.invoices
    ensures SettledUnder(profile, next, retries, |app.world.calls|,
                         app.db.committed.books.invoices[invoiceId].status == PaidInvoice)
    ensures LifeLogged(app.bus.rules, app.bus.log, app.bus.Memory()) && InjectedUnder(profile, app.bus.log)
  {
    hide SeenInv, InvoiceAccount, CanInvoice, Unbilled, OutcomesFrom, Retries, Cut, StopsAtApproval, SettledUnder,
         LifeLogged, InjectedUnder, Traced, Subscribers, HasBilling, LedgerInv, TrimSpace;
    invoiceId := freshId(0);
    var world := new World(k => false, freshId, clock, DecoratedReplies(profile, next));
    app := new App(world, EventBusOptions(profile), profile == OutboxAppendFailure);
    assert app.Undisturbed(false);
    TrimKeepsTrimmed(invoiceId);
    ghost var m, log := app.bus.Memory(), app.bus.log;
    match profile {
      case OutboxAppendFailure =>
        app.Orphan(customerId, amountCents, dueDate);
        OrphanIsUnpaid(app.db.committed.books, invoiceId, next, retries);
        ghost var m', log' := app.bus.Memory(), app.bus.log;
        app.RetryInVain(invoiceId, retries);
        TracedAgain(app.bus.rules, 4, m, log, m', log', app.bus.Memory(), app.bus.log);
      case EventConsumerFailure =>
        app.RecoverAndRetry(customerId, amountCents, dueDate, retries);
        DecorationDecides(profile, next, retries, |world.calls|,
                          app.db.committed.books.invoices[invoiceId].status == PaidInvoice);
      case _ =>
        var invoice := app.CreateAndRetry(customerId, amountCents, dueDate, retries);
        OutcomesAreCut(profile, next, retries);
        DecorationDecides(profile, next, retries, |world.calls|,
                          app.db.committed.books.invoices[invoiceId].status == PaidInvoice);
    }
    LogTellsInjections(profile, app.bus.rules, m, log, app.bus.Memory(), app.bus.log);
  }

  lemma OrphanIsUnpaid(t: Books, i: string, next: nat -> Reply, retries: nat)
    requires Unbilled(t, i)
    ensures i in t.invoices && t.invoices[i].status != PaidInvoice
    ensures SettledUnder(OutboxAppendFailure, next, retries, 0, t.invoices[i].status == PaidInvoice)
  {
  }

  /** Under the append-failure profile the created invoice stays unbilled and unpaid, whatever requests follow. */
  method OrphanStays(next: nat -> Reply, freshId: nat -> string, clock: nat -> Time,
                     customerId: string, amountCents: int, dueDate: Time, requests: seq<Request>)
    returns (app: App, invoiceId: string)
    requires UsableIds(freshId) && CanInvoice(customerId, amountCents, dueDate)
    ensures SeenInv(app.Now(false)) && Unbilled(app.db.committed.books, invoiceId)
    ensures |app.db.committed.books.invoices| >= 1 + GoodCreations(requests)
  {
    hide SeenInv, CanInvoice, Unbilled, InvoiceAccount;
    app, invoiceId := CreateAndRetryUnder(OutboxAppendFailure, next, freshId, clock, customerId, amountCents, dueDate,
                                          0);
    app.Serve(requests);
  }

  /** Under the flaky-first profile the creation never pays, and the retries decide as if they were the first
      attempts. */
  method FlakyFirstRecovers(next: nat -> Reply, freshId: nat -> string, clock: nat -> Time,
                            customerId: string, amountCents: int, dueDate: Time, retries: nat)
    returns (app: App, invoiceId: string)
    requires UsableIds(freshId) && CanInvoice(customerId, amountCents, dueDate)
    ensures var os := [Outcome(false, GatewayError, "")] + Cut(OutcomesFrom(next, 0, retries));
            exists b :: InvoiceAccount(app.db.committed.books, invoiceId, b, Account(os, false))
  {
    hide SeenInv, InvoiceAccount, OutcomesFrom, CanInvoice, UsableIds, Cut;
    app, invoiceId := CreateAndRetryUnder(PaymentFlakyFirst, next, freshId, clock, customerId, amountCents, dueDate,
                                          retries);
    FlakyFirstShiftsByOne(next, retries);
    OutcomesAreCut(PaymentFlakyFirst, next, retries);
  }
}
