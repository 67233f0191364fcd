/** The running application: the wired bus and the use cases, one request at a time.

`Publish`, `Dispatch` and `Handle` are the bus with the program's own handlers; the use cases are what those handlers
and the HTTP endpoints run. The flag `tx` stands for the context: it is true inside the payment transaction. Everything
the world may do wrong it may do here: fail any statement, any commit, any delivery, or answer the gateway call as it
likes. */
module Application {
  import opened Wrappers
  import opened Text
  import opened Entities
  import opened Storage
  import opened IdempotencyKey
  import opened Tables
  import opened Ledger
  import opened Accounts
  import opened Events
  import opened Outbox
  import opened Effects
  import opened Delivery
  import opened Requests
  import opened Environment
  import opened Database
  import opened BusLog
  import opened EventBus
  import opened Cascade

  datatype Request =
    | Create(customerId: string, amountCents: int, dueDate: Time, refusal: Option<Error>)
    | Retry(invoiceId: string)

  /** How many of the requests are creations that nothing stands against. */
  function GoodCreations(requests: seq<Request>): nat {
    if requests == [] then 0
    else GoodCreations(Front(requests))
         + match Last(requests)
           case Create(customerId, amountCents, dueDate, refusal) =>
             if refusal.None? && CanInvoice(customerId, amountCents, dueDate) then 1 else 0
           case Retry(_) => 0
  }

  /** Progress for one invoice adds at most that one. */
  lemma OneMoreInvoice(s: Seen, u: Seen, i: string)
    requires Progress(s, u, i)
    ensures |u.data.books.invoices| == |s.data.books.invoices|
            + if i in u.data.books.invoices && i !in s.data.books.invoices then 1 else 0
  {
    OneMoreKey(s.data.books, u.data.books, i);
  }

  lemma OneMoreKey(t: Books, u: Books, i: string)
    requires OnlyForward(t, u) && OnlyInvoice(t, u, i)
    ensures |u.invoices| == |t.invoices| + if i in u.invoices && i !in t.invoices then 1 else 0
  {
    assert t.invoices.Keys <= u.invoices.Keys <= t.invoices.Keys + {i};
    hide OnlyForward, OnlyInvoice;
    OneMoreElement(t.invoices.Keys, u.invoices.Keys, i);
  }

  lemma OneMoreElement(x: set<string>, y: set<string>, i: string)
    requires x <= y <= x + {i}
    ensures |y| == |x| + if i in y && i !in x then 1 else 0
  {
    assert y == x + if i in y && i !in x then {i} else {};
  }

  /** A retry stores no invoice. */
  lemma RetriesStoreNothing(s: Seen, u: Seen, i: string)
    requires SeenInv(s) && Progress(s, u, i)
    requires !HasBilling(s.data.books, i) || HasApproved(s.data.books, i) ==> u == s
    ensures |u.data.books.invoices| == |s.data.books.invoices|
  {
    if HasBilling(s.data.books, i) {
      BilledIsStored(s, i);
    }
    hide SeenInv, Progress, HasBilling, HasApproved;
    OneMoreInvoice(s, u, i);
  }

  lemma BilledIsStored(s: Seen, i: string)
    requires SeenInv(s) && HasBilling(s.data.books, i)
    ensures i in s.data.books.invoices
  {
    hide OutboxInv, RowsKept, CallsKept, HasApproved;
  }

  lemma NoRequests()
    ensures GoodCreations([]) == 0
  {
  }

  lemma OneMoreRequest(requests: seq<Request>, n: nat)
    requires n < |requests|
    ensures GoodCreations(requests[..n + 1]) == GoodCreations(requests[..n]) + GoodCreations([requests[n]])
    ensures GoodCreations([requests[n]])
            == match requests[n]
               case Create(customerId, amountCents, dueDate, refusal) =>
                 if refusal.None? && CanInvoice(customerId, amountCents, dueDate) then 1 else 0
               case Retry(_) => 0
  {
    assert Front(requests[..n + 1]) == requests[..n] && Last(requests[..n + 1]) == requests[n];
    assert Front([requests[n]]) == [] && Last([requests[n]]) == requests[n];
  }

  /** The settled payment written over the reserved one, and the call that settled it. */
  lemma SettledIsCharged(replies: nat -> Reply, s: Seen, reserved: PaymentRow, p: PaymentRow, c: ChargeInput)
    requires p.id == reserved.id
    ensures Seen(WithPayment(WithReserved(s, reserved).data, p), s.calls + [CallFor(c, replies(|s.calls|))])
            == Charged(replies, s, p, c)
  {
  }

  class App {
    const world: World
    const db: Db
    const bus: SyncBus<EventName, ModuleName, Subscriber>

    constructor (world: World, options: BusOptions<EventName, ModuleName>, failFirstAppend: bool)
      requires world.Logged()
      ensures this.world == world && bus.rules == Rules(options, ModuleOf) && db.failFirstAppend == failFirstAppend
      ensures fresh(db) && fresh(bus) && !db.appendFailed && !bus.failFirstTriggered && !bus.duplicateTriggered
      ensures Ready(false) && db.committed == NO_DATA
      ensures Traced(bus.rules, 4, Hub(map[], false, false), [], bus.Memory(), bus.log)
      ensures world.calls == [] ==> SeenInv(Now(false))
    {
      hide SeenInv, Traced;
      this.world := world;
      db := new Db(world, failFirstAppend);
      bus := new SyncBus(Rules(options, ModuleOf));
      new;
      WireAll();
      NothingSeen();
    }

    /** The order in which the modules are made: invoices, billing, payments. */
    method WireAll()
      requires bus.Memory() == Hub(map[], false, false) && bus.log == []
      modifies bus`handlers, bus`log
      ensures forall n :: bus.HandlersFor(n) == Subscribers(n)
      ensures Traced(bus.rules, 4, Hub(map[], false, false), NO_LOG, bus.Memory(), bus.log)
    {
      hide Traced;
      NothingTraced(bus.rules, 4);
      Wire(NamePaymentApproved, InvoicesOnPaymentApproved);
      Wire(NameInvoiceCreated, BillingOnInvoiceCreated);
      Wire(NamePaymentApproved, BillingOnPaymentApproved);
      Wire(NamePaymentFailed, BillingOnPaymentFailed);
      Wire(NameBillingRequested, PaymentsOnBillingRequested);
    }

    method Wire(name: EventName, h: Subscriber)
      requires Traced(bus.rules, 4, Hub(map[], false, false), NO_LOG, bus.Memory(), bus.log)
      modifies bus`handlers, bus`log
      ensures Traced(bus.rules, 4, Hub(map[], false, false), NO_LOG, bus.Memory(), bus.log)
      ensures bus.Memory() == old(bus.Memory()).With(name, h)
    {
      bus.Subscribe(name, h);
      SubscriptionTraced(bus.rules, 4, Hub(map[], false, false), NO_LOG, old(bus.Memory()), old(bus.log),
                         bus.Memory(), bus.log, name, h);
    }

    /** The parts are wired together and the open transaction, if any, is the context's. */
    ghost predicate Ready(tx: bool)
      reads this, db`open, bus`handlers, world`calls
    {
      && db.world == world && db.open == tx && world.Logged()
      && forall n :: bus.HandlersFor(n) == Subscribers(n)
    }

    /** What every step leaves: the parts ready; inside a transaction nothing committed and no gateway called. */
    twostate predicate Kept(tx: bool)
      reads this, db, bus`handlers, world
    {
      && Ready(tx) && world.tick >= old(world.tick)
      && (tx ==> db.committed == old(db.committed) && world.calls == old(world.calls))
    }

    /** The bus has logged, rightly, what it did since: publishes of ranks below `below`. */
    twostate predicate Followed(below: nat)
      reads this, bus
    {
      || (bus.Memory() == old(bus.Memory()) && bus.log == old(bus.log))
      || Traced(bus.rules, below, old(bus.Memory()), old(bus.log), bus.Memory(), bus.log)
    }

    twostate predicate Carried(tx: bool, below: nat)
      reads this, db, bus, world
    {
      Kept(tx) && Followed(below)
    }

    function Now(tx: bool): Seen
      reads this, db, world
    {
      Seen(db.View(tx), world.calls)
    }

    /** At most one gateway call was made, for `c`. */
    predicate CalledAtMostOnce(c: ChargeInput, before: seq<GatewayCall>)
      reads this, world
    {
      world.calls == before || world.calls == before + [CallFor(c, world.replies(|before|))]
    }

    /** No statement fails from here on, and ids are fresh. */
    ghost predicate Undisturbed(tx: bool)
      reads this, db, world
    {
      world.Quiet() && world.FreshFor(db.View(tx))
    }

    /** The bus has no failure left to inject. */
    ghost predicate HandlersRun()
      reads this, bus`failFirstTriggered
    {
      bus.rules.options.failFirst.None? || bus.failFirstTriggered
    }

    /** Nothing fails from here on but the gateway. */
    ghost predicate Calm(tx: bool)
      reads this, db, bus`failFirstTriggered, world
    {
      Undisturbed(tx) && db.AppendsPass() && HandlersRun()
    }

    /** The one thing that will fail is the payments handler of the next BillingRequested. */
    ghost predicate Primed(tx: bool)
      reads this, db, bus`failFirstTriggered, world
    {
      && Undisturbed(tx) && db.AppendsPass() && !bus.failFirstTriggered
      && forall n, h :: bus.rules.Fails(n, h) <==> n == NameBillingRequested && h == PaymentsOnBillingRequested
    }

    /** Publishing `e` will run into that failure. */
    ghost predicate Doomed(tx: bool, e: Event)
      reads this, db, bus`failFirstTriggered, world
    {
      Primed(tx) && !tx && (e.InvoiceCreated? ==> !HasBilling(Now(tx).data.books, e.invoiceId))
    }

    lemma DoomedFails(tx: bool, e: Event, h: Subscriber)
      requires Doomed(tx, e) && h in Subscribers(NameOf(e))
      ensures Undisturbed(tx) && db.AppendsPass() && !bus.failFirstTriggered && !tx
      ensures bus.rules.Fails(NameOf(e), h) <==> e.BillingRequested?
      ensures e.InvoiceCreated? || e.BillingRequested? || e.InPaymentTransaction()
    {
    }

    /** No row is, or will be, stored under `id`. */
    ghost predicate FreshId(tx: bool, id: string)
      reads this, db, world
    {
      Unknown(db.View(tx), id) && forall k :: k >= world.tick ==> world.freshId(k) != id
    }

    method NewMetadata(aggregateId: string, occurredAt: Time) returns (meta: Metadata)
      modifies world`tick
      ensures world.tick > old(world.tick)
      ensures meta.eventId == world.freshId(old(world.tick)) && meta.aggregateId == aggregateId
      ensures meta.occurredAt == if occurredAt != ZERO_TIME then occurredAt else world.clock(old(world.tick) + 1)
      ensures forall tx :: old(Undisturbed(tx)) ==> Undisturbed(tx) && FreshId(tx, meta.eventId)
    {
      var id := world.NewId();
      var at := occurredAt;
      if at == ZERO_TIME {
        at := world.Now();
      }
      return Metadata(id, aggregateId, at);
    }

    // ---- The bus ----

    /** Append the record, deliver to all subscribers, perhaps deliver once more, mark the record. */
    method Publish(tx: bool, emitter: ModuleName, e: Event) returns (failure: Option<Error>)
      requires Ready(tx) && tx == e.InPaymentTransaction() && Deliverable(e, Now(tx))
      requires CanAnnounce(e, Now(tx).data.books)
      modifies db, bus, world
      ensures Carried(tx, Rank(NameOf(e)) + 1)
      ensures exists rounds :: bus.log == old(bus.log) + [Publication(NameOf(e), rounds, failure.Some?)]
      ensures PublishEnded(world.replies, emitter, e, old(Now(tx)), Now(tx), failure)
      ensures !old(db.CanAppend(tx, e.meta.eventId)) ==> failure.Some? && Now(tx) == old(Now(tx))
      ensures !old(db.AppendsPass()) ==>
                && db.AppendsPass() && bus.Memory() == old(bus.Memory()) && world.tick == old(world.tick)
                && (old(Undisturbed(tx) && FreshId(tx, e.meta.eventId)) ==> Undisturbed(tx))
      ensures !tx && failure.Some? && e.meta.eventId !in old(db.committed.outbox) ==>
                FailureTold(db.committed.outbox, e.meta.eventId, failure.value, old(world.Quiet() && db.AppendsPass()))
      ensures old(Calm(tx) && FreshId(tx, e.meta.eventId)) ==> failure.None? && Calm(tx)
      ensures old(Doomed(tx, e) && FreshId(tx, e.meta.eventId)) ==>
                failure.Some? && Calm(tx) && Interrupted(e, old(Now(tx)), Now(tx))
      ensures failure.None? && (e.BillingRequested? || old(Opens(e, Now(tx).data.books))) ==>
                RequestRepeated(bus.rules, bus.Memory())
      decreases Rank(NameOf(e)), 4
    {
      hide PublishEnded, Deliverable, CanAnnounce, Traced, RoundsMade, Interrupted, Undisturbed, FreshId, FailureTold;
      ghost var b, log := bus.Memory(), bus.log;
      ghost var rounds;
      failure, rounds := Deliver(tx, emitter, e, bus.HandlersFor(NameOf(e)));
      bus.log := bus.log + [Publication(NameOf(e), rounds, failure.Some?)];
      PublishTraced(bus.rules, b, log, bus.Memory(), NameOf(e), rounds, failure.Some?);
      if failure.None? && e.BillingRequested? {
        PublishedIsRepeated(bus.rules, b, bus.HandlersFor(NameOf(e)), rounds, bus.Memory());
      }
    }

    /** Everything about publishing but the log. */
    method Deliver(tx: bool, emitter: ModuleName, e: Event, hs: seq<Subscriber>)
      returns (failure: Option<Error>, ghost rounds: seq<AppRound>)
      requires Ready(tx) && tx == e.InPaymentTransaction() && Deliverable(e, Now(tx))
      requires CanAnnounce(e, Now(tx).data.books)
      requires hs == Subscribers(NameOf(e))
      modifies db, bus, world
      ensures Kept(tx) && bus.log == old(bus.log)
      ensures RoundsMade(bus.rules, old(bus.Memory()), NameOf(e), hs, rounds, bus.Memory(), failure.Some?)
      ensures PublishEnded(world.replies, emitter, e, old(Now(tx)), Now(tx), failure)
      ensures !old(db.CanAppend(tx, e.meta.eventId)) ==> failure.Some? && Now(tx) == old(Now(tx))
      ensures !old(db.AppendsPass()) ==>
                && db.AppendsPass() && bus.Memory() == old(bus.Memory()) && world.tick == old(world.tick)
                && (old(Undisturbed(tx) && FreshId(tx, e.meta.eventId)) ==> Undisturbed(tx))
      ensures !tx && failure.Some? && e.meta.eventId !in old(db.committed.outbox) ==>
                FailureTold(db.committed.outbox, e.meta.eventId, failure.value, old(world.Quiet() && db.AppendsPass()))
      ensures old(Calm(tx) && FreshId(tx, e.meta.eventId)) ==> failure.None? && Calm(tx)
      ensures old(Doomed(tx, e) && FreshId(tx, e.meta.eventId)) ==>
                failure.Some? && Calm(tx) && Interrupted(e, old(Now(tx)), Now(tx))
      ensures failure.None? && old(Opens(e, Now(tx).data.books)) ==> RequestRepeated(bus.rules, bus.Memory())
      decreases Rank(NameOf(e)), 3, 4
    {
      hide PublishEnded, Progress, SeenInv, Deliverable, HasBilling, RoundsMade, Interrupted, Undisturbed, FreshId,
           Subscribers, Rank, RecordStored;
      ghost var s := Now(tx);
      failure := AppendRecord(tx, emitter, e);
      if failure.Some? {
        rounds := [];
        NoRounds(bus.rules, bus.Memory(), NameOf(e), hs);
        RefusedRecordEndsPublish(world.replies, emitter, e, s, failure.value);
      } else {
        StoredRecord(e, emitter, s, Now(tx));
        failure, rounds := DeliverRecorded(tx, emitter, e, hs, s);
      }
    }

    /** Deliver what has been recorded, perhaps twice, and mark the record. */
    method DeliverRecorded(tx: bool, emitter: ModuleName, e: Event, hs: seq<Subscriber>, ghost s: Seen)
      returns (failure: Option<Error>, ghost rounds: seq<AppRound>)
      requires Ready(tx) && tx == e.InPaymentTransaction() && Deliverable(e, Now(tx))
      requires RecordStored(e, emitter, s, Now(tx)) && (!tx ==> Progress(s, Now(tx), e.invoiceId))
      requires CanAnnounce(e, Now(tx).data.books)
      requires hs == Subscribers(NameOf(e))
      modifies db, bus, world
      ensures Kept(tx) && bus.log == old(bus.log)
      ensures RoundsMade(bus.rules, old(bus.Memory()), NameOf(e), hs, rounds, bus.Memory(), failure.Some?)
      ensures PublishEnded(world.replies, emitter, e, s, Now(tx), failure)
      ensures !tx && failure.Some? ==>
                FailureTold(db.committed.outbox, e.meta.eventId, failure.value, old(world.Quiet()))
      ensures old(Calm(tx)) ==> failure.None? && Calm(tx)
      ensures old(Doomed(tx, e)) ==> failure.Some? && Calm(tx) && Interrupted(e, s, Now(tx))
      ensures failure.None? && old(Opens(e, Now(tx).data.books)) ==> RequestRepeated(bus.rules, bus.Memory())
      decreases Rank(NameOf(e)), 3, 3
    {
      hide PublishEnded, Published, SeenInv, Progress, Deliverable, Delivered, HasBilling, RoundsMade, Interrupted,
           AllHandled, NewRecords, Undisturbed, Subscribers, Rank, RecordStored;
      ghost var s' := Now(tx);
      RequestsHaveHandlers(e);
      StoredRecord(e, emitter, s, s');
      failure, rounds := DispatchMaybeTwice(tx, e, hs);
      ghost var v := Now(tx);
      HandledAfterRecord(world.replies, emitter, hs, e, s, s', v, failure);
      if failure.Some? {
        HandleDispatchFailure(tx, e, failure.value, s);
        InterruptedLater(e, s, s', v, Now(tx));
      } else {
        failure := MarkDelivered(tx, e, emitter, s, s');
        RoundsMadeAnyway(bus.rules, old(bus.Memory()), NameOf(e), hs, rounds, bus.Memory());
      }
      MarkingEndsPublish(world.replies, emitter, e, s, v, Now(tx), failure);
    }

    /** Append the pending record. */
    method AppendRecord(tx: bool, emitter: ModuleName, e: Event) returns (failure: Option<Error>)
      requires Ready(tx) && tx == e.InPaymentTransaction() && Deliverable(e, Now(tx))
      modifies db, world`tick
      ensures Kept(tx)
      ensures !tx ==> SeenInv(Now(tx)) && Progress(old(Now(tx)), Now(tx), e.invoiceId)
      ensures failure.None? <==> old(db.CanAppend(tx, e.meta.eventId))
      ensures failure.Some? ==> Now(tx) == old(Now(tx))
      ensures failure.None? ==> Deliverable(e, Now(tx)) && RecordStored(e, emitter, old(Now(tx)), Now(tx))
      ensures db.AppendsPass() && (!old(db.AppendsPass()) ==> world.tick == old(world.tick))
      ensures old(Undisturbed(tx) && FreshId(tx, e.meta.eventId)) ==>
                Undisturbed(tx) && (old(db.AppendsPass()) ==> failure.None?)
    {
      hide SeenInv, Progress, Deliverable;
      ghost var s := Now(tx);
      failure := db.Append(tx, emitter, e);
      if failure.None? {
        RecordAppended(e, emitter, s, Now(tx));
      } else if !tx {
        RequestEventsNeedKeptData(e, s);
        NoProgress(s, e.invoiceId);
      }
    }

    /** Mark the record processed. */
    method MarkDelivered(tx: bool, e: Event, emitter: ModuleName, ghost s: Seen, ghost s': Seen)
      returns (failure: Option<Error>)
      requires Ready(tx) && tx == e.InPaymentTransaction()
      requires Delivered(world.replies, Subscribers(NameOf(e)), e, s', Now(tx))
      requires RecordStored(e, emitter, s, s')
      requires !tx ==> SeenInv(Now(tx)) && Progress(s, Now(tx), e.invoiceId)
      requires CanAnnounce(e, s'.data.books)
      modifies db`committed, db`working, world`tick
      ensures Kept(tx) && db.View(tx).outbox.Keys == old(db.View(tx).outbox.Keys)
      ensures !tx ==> SeenInv(Now(tx)) && Progress(s, Now(tx), e.invoiceId)
      ensures failure.None? ==> Published(world.replies, e, emitter, s, Now(tx))
      ensures failure.None? && e.meta.eventId in db.View(tx).outbox ==>
                db.View(tx).outbox[e.meta.eventId].processedAt == Some(world.clock(old(world.tick)))
      ensures failure.Some? ==> Now(tx) == old(Now(tx))
      ensures old(Undisturbed(tx)) ==> Undisturbed(tx) && failure.None?
      ensures old(world.Quiet()) ==> failure.None?
    {
      hide SeenInv, Progress, Deliverable, HandlerOk, Delivered, KeepsRows, HasBilling, Vouches, Published;
      ghost var v, x := Now(tx), e.meta.eventId;
      DeliveryKeepsRow(world.replies, Subscribers(NameOf(e)), e, s', v, x);
      var at := world.Now();
      failure := db.MarkProcessed(tx, e.meta.eventId, at);
      if failure.Some? {
        return;
      }
      ghost var u := Now(tx);
      if !tx {
        DeliveryVouches(world.replies, e, s', v, u.data.outbox[x]);
        RecordMarked(e, s, v, u, u.data.outbox[x]);
      }
      IsPublished(world.replies, s, s', v, u, e, emitter);
    }

    /** One delivery, and a second one if the bus is to duplicate this event. After two, however the second one ended,
        all is as one complete delivery leaves it. */
    method DispatchMaybeTwice(tx: bool, e: Event, hs: seq<Subscriber>)
      returns (failure: Option<Error>, ghost rounds: seq<AppRound>)
      requires Ready(tx) && tx == e.InPaymentTransaction() && Deliverable(e, Now(tx))
      modifies db, bus, world
      ensures Kept(tx) && bus.log == old(bus.log)
      ensures RoundsMade(bus.rules, old(bus.Memory()), NameOf(e), hs, rounds, bus.Memory(), failure.Some?)
      ensures AllHandled(world.replies, hs, e, old(Now(tx)), Now(tx), failure)
      ensures |rounds| == 2 ==> AllHandled(world.replies, hs, e, old(Now(tx)), Now(tx), None)
      ensures old(Calm(tx)) && AllWired(hs, e) ==> failure.None? && Calm(tx)
      ensures old(Doomed(tx, e)) && hs != [] && hs[0] in Subscribers(NameOf(e)) ==>
                failure.Some? && Calm(tx) && Interrupted(e, old(Now(tx)), Now(tx))
      ensures failure.None? && hs == Subscribers(NameOf(e)) && old(Opens(e, Now(tx).data.books)) ==>
                RequestRepeated(bus.rules, bus.Memory())
      decreases Rank(NameOf(e)), 3, 2
    {
      hide Deliverable, AllHandled, RoundMade, RoundsMade, Interrupted, Undisturbed, Doomed, Subscribers, Rank;
      ghost var s, b := Now(tx), bus.Memory();
      ghost var first;
      failure, first := Dispatch(tx, e, hs);
      if failure.Some? {
        rounds := [Round(first)];
        OneRound(bus.rules, b, NameOf(e), hs, first, bus.Memory(), true);
        return;
      }
      ghost var u, m := Now(tx), bus.Memory();
      AllHandledIsDeliverable(world.replies, hs, e, s, u);
      var again := bus.ShouldDuplicate(NameOf(e));
      if again {
        ghost var second;
        failure, second := Dispatch(tx, e, hs);
        rounds := [Round(first), Round(second)];
        RedeliveryChangesNothing(world.replies, hs, e, s, u, Now(tx), failure);
        FailedLater(world.replies, hs, e, s, u, failure);
        RoundKeepsRepeated(bus.rules, m.(duplicated := true), NameOf(e), hs, second, bus.Memory(), failure.Some?);
        TwoRounds(bus.rules, b, NameOf(e), hs, first, m, second, bus.Memory(), failure.Some?);
      } else {
        rounds := [Round(first)];
        OneRound(bus.rules, b, NameOf(e), hs, first, bus.Memory(), false);
      }
    }

    /** Mark the record failed; an error doing so is dropped. */
    method HandleDispatchFailure(tx: bool, e: Event, error: Error, ghost s: Seen)
      requires Ready(tx) && tx == e.InPaymentTransaction()
      requires !tx ==>
                 var v, x := Now(tx), e.meta.eventId;
                 && SeenInv(v) && Progress(s, v, e.invoiceId)
                 && x !in s.data.outbox && x in v.data.outbox
                 && v.data.outbox[x].event == e && v.data.outbox[x].Coherent()
                 && v.data.outbox[x].status == RecordPending
      modifies db`committed, db`working, world`tick
      ensures Kept(tx) && db.View(tx).outbox.Keys == old(db.View(tx).outbox.Keys)
      ensures db.View(tx).books == old(db.View(tx).books)
      ensures !tx ==> SeenInv(Now(tx)) && Progress(s, Now(tx), e.invoiceId)
      ensures !tx ==> FailureTold(db.committed.outbox, e.meta.eventId, error, old(world.Quiet()))
      ensures old(world.Quiet()) && e.meta.eventId in db.View(tx).outbox ==>
                db.View(tx).outbox[e.meta.eventId].failedAt == Some(world.clock(old(world.tick)))
      ensures old(Undisturbed(tx)) ==> Undisturbed(tx)
    {
      hide SeenInv, Progress;
      ghost var v := Now(tx);
      var at := world.Now();
      var recordFailure := db.MarkFailed(tx, e.meta.eventId, at, error);
      if !tx && recordFailure.None? {
        RecordMarked(e, s, v, Now(tx), Now(tx).data.outbox[e.meta.eventId]);
      }
    }

    /** Deliver to each of `hs` in order, stopping at the first failure. */
    method Dispatch(tx: bool, e: Event, hs: seq<Subscriber>) returns (failure: Option<Error>, ghost round: seq<AppCall>)
      requires Ready(tx) && tx == e.InPaymentTransaction() && Deliverable(e, Now(tx))
      modifies db, bus, world
      ensures Kept(tx) && bus.log == old(bus.log)
      ensures RoundMade(bus.rules, old(bus.Memory()), NameOf(e), hs, round, bus.Memory(), failure.Some?)
      ensures AllHandled(world.replies, hs, e, old(Now(tx)), Now(tx), failure)
      ensures old(Calm(tx)) && AllWired(hs, e) ==> failure.None? && Calm(tx)
      ensures old(Doomed(tx, e)) && hs != [] && hs[0] in Subscribers(NameOf(e)) ==>
                failure.Some? && Calm(tx) && Interrupted(e, old(Now(tx)), Now(tx))
      ensures failure.None? && hs == Subscribers(NameOf(e)) && old(Opens(e, Now(tx).data.books)) ==>
                RequestRepeated(bus.rules, bus.Memory())
      decreases Rank(NameOf(e)), 3, 1
    {
      hide Deliverable, AllHandled, Handled, RoundMade, RoundBegun, CallMade, Interrupted, Subscribers, Doomed,
           Undisturbed, Rank;
      ghost var s, b := Now(tx), bus.Memory();
      var i := 0;
      round := NO_CALLS;
      NewRound(bus.rules, b, NameOf(e), hs);
      OneHandlerOpens(e);
      NoneHandled(world.replies, hs, e, s);
      while i < |hs|
        invariant 0 <= i <= |hs| && Kept(tx) && bus.log == old(bus.log)
        invariant RoundBegun(bus.rules, b, NameOf(e), hs, i, round, bus.Memory())
        invariant AllHandled(world.replies, hs[..i], e, s, Now(tx), None)
        invariant old(Calm(tx)) && AllWired(hs, e) ==> Calm(tx)
        invariant old(Doomed(tx, e)) && hs != [] && hs[0] in Subscribers(NameOf(e)) ==>
                    i == 0 && Doomed(tx, e) && Now(tx) == s
        invariant hs == Subscribers(NameOf(e)) && Opens(e, s.data.books) ==>
                    if i == 0 then Now(tx) == s else RequestRepeated(bus.rules, bus.Memory())
      {
        ghost var u, m := Now(tx), bus.Memory();
        ghost var c;
        AllHandledIsDeliverable(world.replies, hs[..i], e, s, u);
        failure, c := DeliverTo(tx, e, hs[i]);
        CallGoesOn(bus.rules, b, NameOf(e), hs, i, round, c, m, bus.Memory(), failure.Some?);
        OneMoreHandled(world.replies, hs, i, e, s, u, Now(tx), failure);
        round := round + [c];
        if failure.Some? {
          return;
        }
        i := i + 1;
      }
      assert hs[..i] == hs;
      RoundEnds(bus.rules, b, NameOf(e), hs, round, bus.Memory());
      failure := None;
    }

    /** Call one handler, unless the bus fails it itself. */
    method DeliverTo(tx: bool, e: Event, h: Subscriber) returns (failure: Option<Error>, ghost c: AppCall)
      requires Ready(tx) && tx == e.InPaymentTransaction() && Deliverable(e, Now(tx))
      modifies db, bus, world
      ensures Kept(tx) && bus.log == old(bus.log)
      ensures CallMade(bus.rules, old(bus.Memory()), NameOf(e), h, c, bus.Memory(), failure.Some?)
      ensures Handled(world.replies, h, e, old(Now(tx)), Now(tx), failure)
      ensures old(Calm(tx)) && h in Subscribers(NameOf(e)) ==> failure.None? && Calm(tx)
      ensures old(Doomed(tx, e)) && h in Subscribers(NameOf(e)) ==>
                failure.Some? && Calm(tx) && Interrupted(e, old(Now(tx)), Now(tx))
      ensures failure.None? && old(Opens(e, Now(tx).data.books)) ==> RequestRepeated(bus.rules, bus.Memory())
      decreases Rank(NameOf(e)), 3, 0
    {
      hide Deliverable, Handled, CallMade, Traced, HasBilling, Interrupted, Undisturbed, Subscribers, Rank;
      ghost var m, inner: AppLog := bus.Memory(), NO_LOG;
      if Doomed(tx, e) && h in Subscribers(NameOf(e)) {
        DoomedFails(tx, e, h);
      }
      var injected := bus.ShouldFailConsumer(NameOf(e), h);
      if injected {
        failure := Some(InjectedConsumerFailure);
        NotHandled(world.replies, h, e, Now(tx), InjectedConsumerFailure);
        if !e.InvoiceCreated? {
          InterruptedAtOnce(e, Now(tx), Now(tx));
        }
      } else {
        failure, inner := HandleLogged(tx, h, e);
      }
      c := Call(h, injected, inner, failure.Some?);
      CallTraced(bus.rules, NameOf(e), c, m, bus.Memory());
    }

    /** Run the handler and keep apart what the bus logs meanwhile. */
    method HandleLogged(tx: bool, h: Subscriber, e: Event) returns (failure: Option<Error>, ghost inner: AppLog)
      requires Ready(tx) && tx == e.InPaymentTransaction() && Deliverable(e, Now(tx))
      modifies db, bus, world
      ensures Kept(tx) && bus.log == old(bus.log)
      ensures (bus.Memory() == old(bus.Memory()) && inner == NO_LOG)
              || Traced(bus.rules, Rank(NameOf(e)), old(bus.Memory()), NO_LOG, bus.Memory(), inner)
      ensures Handled(world.replies, h, e, old(Now(tx)), Now(tx), failure)
      ensures old(Calm(tx)) && h in Subscribers(NameOf(e)) ==> failure.None? && Calm(tx)
      ensures old(Doomed(tx, e)) && e.InvoiceCreated? && h in Subscribers(NameOf(e)) ==>
                failure.Some? && Calm(tx) && Interrupted(e, old(Now(tx)), Now(tx))
      ensures failure.None? && old(Opens(e, Now(tx).data.books)) ==> RequestRepeated(bus.rules, bus.Memory())
      decreases Rank(NameOf(e)), 2, 2
    {
      hide Deliverable, Handled, Traced, HasBilling, Interrupted, IdsFresh, Subscribers, Rank;
      bus.log := NO_LOG;
      failure := Handle(tx, h, e);
      inner := bus.log;
      bus.log := old(bus.log);
    }

    /** Run the handler `h` with `e`; one that does not expect such an event refuses it. */
    method Handle(tx: bool, h: Subscriber, e: Event) returns (failure: Option<Error>)
      requires Ready(tx) && tx == e.InPaymentTransaction() && Deliverable(e, Now(tx))
      modifies db, bus, world
      ensures Carried(tx, Rank(NameOf(e)))
      ensures Handled(world.replies, h, e, old(Now(tx)), Now(tx), failure)
      ensures old(Calm(tx)) && h in Subscribers(NameOf(e)) ==> failure.None? && Calm(tx)
      ensures old(Doomed(tx, e)) && e.InvoiceCreated? && h in Subscribers(NameOf(e)) ==>
                failure.Some? && Calm(tx) && Interrupted(e, old(Now(tx)), Now(tx))
      ensures failure.None? && old(Opens(e, Now(tx).data.books)) ==> RequestRepeated(bus.rules, bus.Memory())
      decreases Rank(NameOf(e)), 2, 1
    {
      hide Deliverable, Handled, HasBilling, Traced, Interrupted, IdsFresh;
      if e.InPaymentTransaction() {
        failure := HandleResult(h, e);
      } else {
        failure := HandleRequest(h, e);
      }
    }

    method HandleResult(h: Subscriber, e: Event) returns (failure: Option<Error>)
      requires Ready(true) && e.InPaymentTransaction() && Deliverable(e, Now(true))
      modifies db, bus, world
      ensures Carried(true, Rank(NameOf(e)))
      ensures Handled(world.replies, h, e, old(Now(true)), Now(true), failure)
      ensures old(Calm(true)) && h in Subscribers(NameOf(e)) ==> failure.None? && Calm(true)
      decreases Rank(NameOf(e)), 2, 0
    {
      hide Deliverable, Handled, InvoiceSettled, BillingMarked, Traced, Budget, NewRecords, WithinBudget, IdsFresh;
      ghost var s := Now(true);
      if h.InvoicesOnPaymentApproved? && e.PaymentApproved? {
        failure := ApplyPaymentApproved(e);
        SettlingHandles(world.replies, e, s, Now(true), failure);
      } else if h.BillingOnPaymentApproved? && e.PaymentApproved? {
        failure := MarkBillingApproved(e);
        MarkingHandles(world.replies, e, s, Now(true), failure);
      } else if h.BillingOnPaymentFailed? && e.PaymentFailed? {
        failure := MarkBillingFailed(e);
        MarkingHandles(world.replies, e, s, Now(true), failure);
      } else {
        failure := Some(UnexpectedEvent);
        NotHandled(world.replies, h, e, s, UnexpectedEvent);
      }
    }

    method HandleRequest(h: Subscriber, e: Event) returns (failure: Option<Error>)
      requires Ready(false) && !e.InPaymentTransaction() && Deliverable(e, Now(false))
      modifies db, bus, world
      ensures Carried(false, Rank(NameOf(e)))
      ensures Handled(world.replies, h, e, old(Now(false)), Now(false), failure)
      ensures old(Calm(false)) && h in Subscribers(NameOf(e)) ==> failure.None? && Calm(false)
      ensures old(Doomed(false, e)) && e.InvoiceCreated? && h in Subscribers(NameOf(e)) ==>
                failure.Some? && Calm(false) && Interrupted(e, old(Now(false)), Now(false))
      ensures failure.None? && old(Opens(e, Now(false).data.books)) ==> RequestRepeated(bus.rules, bus.Memory())
      decreases Rank(NameOf(e)), 2, 0
    {
      hide SeenInv, Deliverable, Handled, ChargeEnded, BillingEnsured, Progress, Traced, Interrupted, Budget,
           NewRecords, WithinBudget, HasBilling, IdsFresh;
      ghost var s := Now(false);
      if h.PaymentsOnBillingRequested? && e.BillingRequested? {
        RequestEventsNeedKeptData(e, s);
        DeliverableInput(e, s);
        InputIsPositive(s.data.books, InputOf(e));
        var payment := ProcessBillingRequest(InputOf(e));
        failure := if payment.Ok? then None else Some(payment.error);
        ChargingHandles(world.replies, e, s, Now(false), payment);
      } else if h.BillingOnInvoiceCreated? && e.InvoiceCreated? {
        failure := CreateBillingFromInvoice(e);
        OpeningHandles(world.replies, e, s, Now(false), failure);
      } else {
        failure := Some(UnexpectedEvent);
        NotHandled(world.replies, h, e, s, UnexpectedEvent);
      }
    }

    // ---- Handlers inside the payment transaction ----

    /** Settle the invoice; one that is already paid is left alone. */
    method ApplyPaymentApproved(e: Event) returns (failure: Option<Error>)
      requires e.PaymentApproved? && Ready(true) && Deliverable(e, Now(true))
      modifies db, bus, world
      ensures Carried(true, Rank(NameOf(e)))
      ensures failure.None? ==> InvoiceSettled(old(Now(true)), Now(true), e) && Deliverable(e, Now(true))
      ensures |NewRecords(old(Now(true)), Now(true))| <= Budget(e, old(Now(true)).data.books)
      ensures failure.None? ==> WithinBudget(e, old(Now(true)), Now(true))
      ensures old(Done(InvoicesOnPaymentApproved, e, db.working.books)) ==> Now(true) == old(Now(true))
      ensures old(Calm(true)) ==> failure.None? && Calm(true)
      decreases Rank(NameOf(e)), 1
    {
      hide Deliverable, SeenInv, Progress, Published, InvoiceSettled, FailureTold, Traced, Interrupted, NewRecords,
           Budget, WithinBudget, IdsFresh, FreshId, Undisturbed, Subscribers;
      ghost var s := Now(true);
      NothingSpent(e, s, s);
      SameOutboxNoRecords(s, s);
      var paid := PayInvoice(e);
      if paid.Err? {
        return Some(paid.error);
      }
      if !paid.value {
        AlreadySettled(s, e);
        return None;
      }
      ghost var w := Now(true);
      var meta := NewMetadata(e.invoiceId, e.meta.occurredAt);
      var q := InvoicePaid(meta, e.invoiceId);
      PaidIsDeliverable(q, w);
      failure := Publish(true, InvoicesModule, q);
      PaymentSpends(e, s, w, Now(true));
      if failure.None? {
        PaidPublished(world.replies, s, w, Now(true), e, q);
        SettledStaysDeliverable(e, s, Now(true));
      }
    }

    /** Load the invoice, mark it paid and write it back; false if it was paid before. */
    method PayInvoice(e: Event) returns (r: Result<bool, Error>)
      requires e.PaymentApproved? && Ready(true) && Deliverable(e, Now(true))
      modifies db`committed, db`working, world`tick
      ensures Kept(true) && (r.Err? ==> Now(true) == old(Now(true)))
      ensures r.Ok? ==>
                var s, t := old(Now(true)), old(Now(true)).data.books;
                && e.invoiceId in t.invoices && (r.value <==> t.invoices[e.invoiceId].status != PaidInvoice)
                && Now(true) == (if r.value then WithPaid(s, e.invoiceId, e.meta.occurredAt) else s)
                && (r.value ==>
                      var i := db.working.books.invoices[e.invoiceId];
                      i.status == PaidInvoice && i.paidAt == Some(e.meta.occurredAt))
      ensures old(Calm(true)) ==> r.Ok? && Calm(true)
    {
      hide Deliverable, SeenInv, Progress, RowsKept, StorableInvoice, StorableBilling, RehydrateInvoice, Subscribers;
      ResultEventsFindTheirRows(e, Now(true));
      var found := db.GetInvoice(true, e.invoiceId);
      if found.Err? {
        return Err(found.error);
      }
      var invoice := new Invoice(found.value);
      var refusal := invoice.MarkPaid(e.meta.occurredAt);
      match refusal {
        case Some(InvoiceImmutable) => return Ok(false);
        case Some(error) => return Err(error);
        case None =>
      }
      var failure := db.UpdateInvoice(true, invoice.Row());
      return if failure.Some? then Err(failure.value) else Ok(true);
    }

    /** Read without a lock, marked, written back. */
    method MarkBillingApproved(e: Event) returns (failure: Option<Error>)
      requires e.PaymentApproved? && Ready(true) && Deliverable(e, Now(true))
      modifies db`committed, db`working, world`tick
      ensures Kept(true) && db.working.outbox == old(db.working.outbox)
      ensures failure.None? ==>
                BillingMarked(old(Now(true)), Now(true), e.billingId, ApprovedBilling) && Deliverable(e, Now(true))
                && db.working.books.billings[e.billingId]
                   == old(db.working.books.billings)[e.billingId].As(ApprovedBilling, world.clock(old(world.tick) + 1))
      ensures failure.Some? ==> Now(true) == old(Now(true))
      ensures old(Calm(true)) ==> failure.None? && Calm(true)
      decreases Rank(NameOf(e)), 1
    {
      hide Deliverable, SeenInv, Progress, RowsKept, StorableInvoice, StorableBilling, RehydrateBilling, IdsFresh,
           BillingToColumns, InvoiceToColumns, Subscribers;
      ghost var s := Now(true);
      ResultEventsFindTheirRows(e, s);
      var found := db.GetBilling(true, e.billingId);
      if found.Err? {
        return Some(found.error);
      }
      var billing := new Billing(found.value);
      var now := world.Now();
      billing.MarkApproved(now);
      failure := db.UpdateBilling(true, billing.Row());
      if failure.None? {
        MarkedStaysDeliverable(e, s, Now(true), ApprovedBilling);
        IdsStayFresh(world.freshId, old(world.tick), s.data, world.tick, Now(true).data);
      }
    }

    /** The same for a failure; nothing here checks the attempt number. */
    method MarkBillingFailed(e: Event) returns (failure: Option<Error>)
      requires e.PaymentFailed? && Ready(true) && Deliverable(e, Now(true))
      modifies db`committed, db`working, world`tick
      ensures Kept(true) && db.working.outbox == old(db.working.outbox)
      ensures failure.None? ==>
                BillingMarked(old(Now(true)), Now(true), e.billingId, FailedBilling) && Deliverable(e, Now(true))
                && db.working.books.billings[e.billingId]
                   == old(db.working.books.billings)[e.billingId].As(FailedBilling, world.clock(old(world.tick) + 1))
      ensures failure.Some? ==> Now(true) == old(Now(true))
      ensures old(Calm(true)) ==> failure.None? && Calm(true)
      decreases Rank(NameOf(e)), 1
    {
      hide Deliverable, SeenInv, Progress, RowsKept, StorableInvoice, StorableBilling, RehydrateBilling, IdsFresh,
           BillingToColumns, InvoiceToColumns, Subscribers;
      ghost var s := Now(true);
      ResultEventsFindTheirRows(e, s);
      var found := db.GetBilling(true, e.billingId);
      if found.Err? {
        return Some(found.error);
      }
      var billing := new Billing(found.value);
      var now := world.Now();
      billing.MarkFailed(now);
      failure := db.UpdateBilling(true, billing.Row());
      if failure.None? {
        MarkedStaysDeliverable(e, s, Now(true), FailedBilling);
        IdsStayFresh(world.freshId, old(world.tick), s.data, world.tick, Now(true).data);
      }
    }

    // ---- The payment attempt ----

    /** One attempt of a billing in one transaction: found settled, or reserved, charged, settled and published. Any
        failure leaves the database as it was; only the gateway call, if it came to that, is not taken back. */
    method ProcessBillingRequest(c: ChargeInput) returns (r: Result<PaymentRow, Error>)
      requires Ready(false) && SeenInv(Now(false))
      requires 1 <= c.attemptNumber ==> InputOk(Now(false).data.books, c)
      modifies db, bus, world
      ensures Carried(false, Rank(NameBillingRequested))
      ensures c.attemptNumber <= 0 ==> r == Err(InvalidAttemptNumber) && Now(false) == old(Now(false))
      ensures ChargeEnded(world.replies, old(Now(false)), Now(false), c, r)
      ensures old(Calm(false)) ==> (r.Ok? <==> 1 <= c.attemptNumber) && Calm(false)
      decreases Rank(NameBillingRequested), 1
    {
      hide ChargeEnded, SeenInv, InputOk, Traced, IdsFresh, Subscribers, Rank;
      if c.attemptNumber <= 0 {
        NoAttemptToMake(world.replies, Now(false), c);
        return Err(InvalidAttemptNumber);
      }
      r := AttemptWithinTransaction(c);
    }

    method AttemptWithinTransaction(c: ChargeInput) returns (r: Result<PaymentRow, Error>)
      requires Ready(false) && SeenInv(Now(false)) && InputOk(Now(false).data.books, c)
      modifies db, bus, world
      ensures Carried(false, Rank(NameBillingRequested))
      ensures ChargeEnded(world.replies, old(Now(false)), Now(false), c, r)
      ensures old(Calm(false)) ==> r.Ok? && Calm(false)
      decreases Rank(NameBillingRequested), 0, 4
    {
      hide ChargeEnded, SeenInv, InputOk, AttemptAnswered, HasAttempt, Traced, IdsFresh, Subscribers, Rank, CallFor;
      ghost var s := Now(false);
      var failure := db.Begin();
      ghost var u := Now(true);
      if failure.Some? {
        r := Err(failure.value);
      } else {
        IdsStayFresh(world.freshId, old(world.tick), s.data, world.tick, u.data);
        r := Attempt(c);
        u := Now(true);
        ghost var ended := world.tick;
        if r.Ok? {
          failure := db.Commit();
        } else {
          failure := db.Rollback();
        }
        if failure.Some? {
          r := Err(failure.value);
        }
        IdsStayFresh(world.freshId, ended, u.data, world.tick, u.data);
      }
      if r.Ok? {
        CommitEndsCharge(world.replies, s, u, c, r.value);
      } else {
        RollbackEndsCharge(world.replies, s, Now(false), c, r.error);
      }
    }

    /** The body of the transaction. */
    method Attempt(c: ChargeInput) returns (r: Result<PaymentRow, Error>)
      requires Ready(true) && SeenInv(Now(true)) && InputOk(Now(true).data.books, c)
      modifies db, bus, world
      ensures Ready(true) && db.committed == old(db.committed) && world.tick >= old(world.tick)
      ensures Followed(Rank(NameBillingRequested))
      ensures r.Ok? ==> AttemptAnswered(world.replies, old(Now(true)), Now(true), c, r.value)
      ensures CalledAtMostOnce(c, old(world.calls))
      ensures old(HasAttempt(Now(true).data.books, c.billingId, c.attemptNumber)) ==> world.calls == old(world.calls)
      ensures old(Calm(true)) ==> r.Ok? && Calm(true)
      decreases Rank(NameBillingRequested), 0, 3
    {
      hide SeenInv, InputOk, LedgerInv, RowsKept, HasAttempt, HasApproved, PaymentCollides, NewPayment,
           BuildIdempotencyKey, AttemptAnswered, StorablePayment, KeysMatch, RehydratePayment;
      ghost var s := Now(true);
      SeenHasRows(s);
      r := db.GetPayment(true, c.billingId, c.attemptNumber);
      if r.Ok? {
        FoundAnswers(world.replies, s, c, r.value);
        return;
      }
      if r != Err(PaymentNotFound) {
        return;
      }
      NeverRejected(s.data.books, c);
      var approved := db.HasApprovedByInvoice(true, c.invoiceId);
      if approved.Err? {
        return Err(approved.error);
      }
      if approved.value {
        return Err(PaymentAlreadyExists);
      }
      r := ReserveAndCharge(c);
    }

    /** Reserve the attempt with a pending row; if another row turns out to have it, answer with that one. */
    method ReserveAndCharge(c: ChargeInput) returns (r: Result<PaymentRow, Error>)
      requires Ready(true) && SeenInv(Now(true)) && InputOk(Now(true).data.books, c)
      requires !HasAttempt(db.working.books, c.billingId, c.attemptNumber)
               && !HasApproved(db.working.books, c.invoiceId)
      modifies db, bus, world
      ensures Ready(true) && db.committed == old(db.committed) && world.tick >= old(world.tick)
      ensures Followed(Rank(NameBillingRequested))
      ensures r.Ok? ==> AttemptAnswered(world.replies, old(Now(true)), Now(true), c, r.value)
      ensures CalledAtMostOnce(c, old(world.calls))
      ensures r.Ok? ==> r.value.createdAt == world.clock(old(world.tick) + 1)
      ensures old(IdTaken()) ==> r == Err(PaymentNotFound)
      ensures old(Calm(true)) ==> r.Ok? && Calm(true)
      decreases Rank(NameBillingRequested), 0, 2
    {
      hide SeenInv, InputOk, RowsKept, HasAttempt, HasApproved, AttemptAnswered, CanReserve, IdsFresh, Subscribers,
           Rank, WithReserved, OutcomeOf;
      ghost var s := Now(true);
      SeenHasRows(s);
      r := Reserve(c);
      if r == Err(PaymentAlreadyExists) {
        r := db.GetPayment(true, c.billingId, c.attemptNumber);
        return;
      }
      if r.Ok? {
        r := ChargeReserved(r.value, c, s);
      }
    }

    /** The id for the next payment is in use, and nothing else goes wrong. */
    ghost predicate IdTaken()
      reads this, db, world
    {
      world.Quiet() && IsUsableId(world.freshId(world.tick)) && world.freshId(world.tick) in db.working.books.payments
    }

    /** Insert the pending row. */
    method Reserve(c: ChargeInput) returns (r: Result<PaymentRow, Error>)
      requires Ready(true) && SeenInv(Now(true)) && InputOk(Now(true).data.books, c)
      requires !HasAttempt(db.working.books, c.billingId, c.attemptNumber)
               && !HasApproved(db.working.books, c.invoiceId)
      modifies db`committed, db`working, world`tick
      ensures Ready(true) && db.committed == old(db.committed) && world.tick > old(world.tick)
      ensures r.Ok? ==> CanReserve(old(Now(true)), c, r.value) && Now(true) == WithReserved(old(Now(true)), r.value)
      ensures r.Ok? ==> r.value.createdAt == world.clock(old(world.tick) + 1)
      ensures r.Err? ==> Now(true) == old(Now(true))
      ensures old(IdTaken()) ==> r == Err(PaymentAlreadyExists) && world.Quiet()
      ensures old(Calm(true)) ==> r.Ok? && Calm(true)
    {
      hide SeenInv, InputOk, LedgerInv, RowsKept, HasAttempt, HasApproved, PaymentCollides, NewPayment,
           BuildIdempotencyKey, StorablePayment, KeysMatch, IdsFresh, Subscribers;
      ghost var s := Now(true);
      SeenHasRows(s);
      NextIdIsFresh(world.freshId, old(world.tick), s.data);
      var id := world.NewId();
      var now := world.Now();
      NewPaymentForInput(s.data.books, c, id, now);
      r := NewPayment(id, c.billingId, c.invoiceId, c.attemptNumber,
                      BuildIdempotencyKey(c.billingId, c.attemptNumber), now);
      if r.Err? {
        return;
      }
      NewPaymentCollides(s.data.books, r.value);
      var failure := db.SavePayment(true, r.value);
      if failure.Some? {
        return Err(failure.value);
      }
      IdsFreshAfterUse(world.freshId, old(world.tick), s.data, world.tick, db.working);
    }

    /** Approved only if the gateway answers with exactly that status; declined on any other answer. */
    method SettlePayment(payment: Payment, reply: Reply, now: Time)
      modifies payment
      ensures payment.Row() == SettledAs(old(payment.Row()), OutcomeOf(reply), now)
      ensures payment.status == ApprovedPayment <==>
                reply.Answer? && reply.status == PaymentStatusText(ApprovedPayment)
      ensures payment.status != PendingPayment && payment.updatedAt == now
      ensures payment.gatewayReference == if reply.Answer? then TrimSpace(reply.reference) else ""
      ensures payment.failureCategory == match reply
                                         case Answer(status, _) =>
                                           if status == PaymentStatusText(ApprovedPayment) then NoFailure
                                           else GatewayDeclined
                                         case DeadlineExceeded => GatewayTimeout
                                         case OtherError => GatewayError
    {
      if !reply.Answer? {
        payment.MarkFailed("", ClassifyGatewayError(reply), now);
      } else if reply.status == PaymentStatusText(ApprovedPayment) {
        payment.MarkApproved(reply.reference, now);
      } else {
        payment.MarkFailed(reply.reference, GatewayDeclined, now);
      }
    }

    /** Call the gateway for the reserved payment and settle it with the reply. */
    method SettleReserved(reserved: PaymentRow, c: ChargeInput, ghost s: Seen) returns (r: Result<PaymentRow, Error>)
      requires Ready(true) && CanReserve(s, c, reserved) && Now(true) == WithReserved(s, reserved)
      modifies db`committed, db`working, world
      ensures Ready(true) && db.committed == old(db.committed) && world.tick >= old(world.tick)
      ensures world.calls == s.calls + [CallFor(c, world.replies(|s.calls|))]
      ensures r.Ok? ==> CanSettle(s, r.value, c) && Recorded(r.value) == OutcomeOf(world.replies(|s.calls|))
                        && Now(true) == Charged(world.replies, s, r.value, c)
      ensures r.Ok? ==>
                r.value == SettledAs(reserved, OutcomeOf(world.replies(|s.calls|)), world.clock(old(world.tick)))
      ensures old(Calm(true)) ==> r.Ok? && Calm(true)
    {
      hide SeenInv, CanReserve, CanSettle, OutcomeOf, SettledAs, Recorded, OverwritePayment, ApprovedElsewhere,
           IdsFresh, Subscribers, WithReserved, Charged;
      ReservedAlone(s, c, reserved);
      var payment := new Payment(reserved);
      var reply := world.Process(RequestFor(c), c.attemptNumber);
      var now := world.Now();
      SettlePayment(payment, reply, now);
      SettledOverwrites(reserved, OutcomeOf(reply), now);
      RepliedCanSettle(s, c, reserved, reply, now);
      var failure := db.UpdatePayment(true, payment.Row());
      IdsStayFresh(world.freshId, old(world.tick), old(db.working), world.tick, db.working);
      SettledIsCharged(world.replies, s, reserved, SettledAs(reserved, OutcomeOf(reply), now), c);
      r := if failure.Some? then Err(failure.value) else Ok(payment.Row());
    }

    /** Charge for the reserved payment and publish the result. */
    method ChargeReserved(reserved: PaymentRow, c: ChargeInput, ghost s: Seen) returns (r: Result<PaymentRow, Error>)
      requires Ready(true) && CanReserve(s, c, reserved) && Now(true) == WithReserved(s, reserved)
      modifies db, bus, world
      ensures Ready(true) && db.committed == old(db.committed) && world.tick >= old(world.tick)
      ensures Followed(Rank(NameBillingRequested))
      ensures r.Ok? ==> AttemptAnswered(world.replies, s, Now(true), c, r.value)
      ensures r.Ok? ==>
                r.value == SettledAs(reserved, OutcomeOf(world.replies(|s.calls|)), world.clock(old(world.tick)))
      ensures world.calls == s.calls + [CallFor(c, world.replies(|s.calls|))]
      ensures old(Calm(true)) ==> r.Ok? && Calm(true)
      decreases Rank(NameBillingRequested), 0, 1
    {
      hide SeenInv, CanReserve, CanSettle, AttemptAnswered, OutcomeOf, SettledAs, Recorded, Traced, IdsFresh,
           Subscribers;
      ReservedAlone(s, c, reserved);
      r := SettleReserved(reserved, c, s);
      if r.Ok? {
        var failure := PublishResult(r.value, c, s);
        if failure.Some? {
          r := Err(failure.value);
        }
      }
    }

    /** Publish PaymentApproved or PaymentFailed for the settled payment. */
    method PublishResult(p: PaymentRow, c: ChargeInput, ghost s: Seen) returns (failure: Option<Error>)
      requires Ready(true) && SeenInv(s) && CanSettle(s, p, c) && Recorded(p) == OutcomeOf(world.replies(|s.calls|))
      requires Now(true) == Charged(world.replies, s, p, c)
      modifies db, bus, world
      ensures Carried(true, Rank(NameBillingRequested))
      ensures failure.None? ==> AttemptAnswered(world.replies, s, Now(true), c, p)
      ensures old(Calm(true)) ==> failure.None? && Calm(true)
      decreases Rank(NameBillingRequested), 0, 0
    {
      hide SeenInv, CanSettle, AttemptAnswered, Deliverable, Published, Traced, IdsFresh, FreshId, Undisturbed,
           Subscribers, FailureTold, Interrupted, NewRecords;
      SeenHasRows(s);
      SettledMeansNotPending(s, p, c);
      var meta := NewMetadata(p.id, p.updatedAt);
      if p.status == ApprovedPayment {
        var e := PaymentApproved(meta, p.id, p.billingId, p.invoiceId, c.customerId, p.attemptNumber, p.idempotencyKey,
                                 p.gatewayReference);
        ChargedIsDeliverable(world.replies, s, c, p, e);
        failure := Publish(true, PaymentsModule, e);
        if failure.None? {
          ApprovedPublished(world.replies, s, Now(true), e, c, p);
        }
      } else {
        var e := PaymentFailed(meta, p.id, p.billingId, p.invoiceId, c.customerId, p.attemptNumber, p.idempotencyKey,
                               p.failureCategory, p.gatewayReference);
        ChargedIsDeliverable(world.replies, s, c, p, e);
        failure := Publish(true, PaymentsModule, e);
        if failure.None? {
          FailedPublished(world.replies, s, Now(true), e, c, p);
        }
      }
    }

    // ---- Opening a billing ----

    /** Open the billing of an announced invoice and request its first attempt; an existing billing is left alone. */
    method CreateBillingFromInvoice(e: Event) returns (failure: Option<Error>)
      requires e.InvoiceCreated? && Ready(false) && Deliverable(e, Now(false))
      modifies db, bus, world
      ensures Carried(false, Rank(NameOf(e)))
      ensures SeenInv(Now(false)) && Progress(old(Now(false)), Now(false), e.invoiceId)
      ensures failure.None? ==> BillingEnsured(world.replies, old(Now(false)), Now(false), e)
      ensures |NewRecords(old(Now(false)), Now(false))| <= Budget(e, old(Now(false)).data.books)
      ensures failure.None? ==> WithinBudget(e, old(Now(false)), Now(false))
      ensures old(HasBilling(db.committed.books, e.invoiceId)) ==> Now(false) == old(Now(false))
      ensures old(Calm(false)) ==> failure.None? && Calm(false)
      ensures old(Primed(false) && !HasBilling(db.committed.books, e.invoiceId)) ==>
                failure.Some? && Calm(false) && Interrupted(e, old(Now(false)), Now(false))
      ensures failure.None? && old(Opens(e, Now(false).data.books)) ==> RequestRepeated(bus.rules, bus.Memory())
      decreases Rank(NameOf(e)), 1
    {
      hide Deliverable, SeenInv, Progress, RowsKept, LedgerInv, HasBilling, Enabled, BringsStorableRows,
           BillingEnsured, Published, NewBilling, RehydrateBilling, StorableBilling, BillingCollides, Traced,
           Interrupted, NewRecords, Budget, WithinBudget;
      ghost var s := Now(false);
      DeliverableInvoice(e, s);
      SeenHasRows(s);
      NoProgress(s, e.invoiceId);
      NothingSpent(e, s, s);
      SameOutboxNoRecords(s, s);
      var found := db.GetBillingByInvoice(false, e.invoiceId);
      if found.Ok? {
        BillingExists(world.replies, s, e);
        return None;
      }
      if found != Err(BillingNotFound) {
        return Some(found.error);
      }
      failure := OpenBilling(e);
      OpeningSpends(world.replies, e, s, Now(false));
    }

    method OpenBilling(e: Event) returns (failure: Option<Error>)
      requires e.InvoiceCreated? && Ready(false) && Deliverable(e, Now(false))
      requires !HasBilling(db.committed.books, e.invoiceId)
      modifies db, bus, world
      ensures Carried(false, Rank(NameInvoiceCreated))
      ensures OpeningEnded(world.replies, e, old(Now(false)), Now(false), failure)
      ensures (var id := world.freshId(old(world.tick));
               old(world.Quiet()) && IsUsableId(id) && id in old(db.committed.books.billings)) ==>
                failure == Some(BillingNotFound)
      ensures old(Calm(false)) ==> failure.None? && Calm(false)
      ensures old(Primed(false)) ==> failure.Some? && Calm(false) && Interrupted(e, old(Now(false)), Now(false))
      ensures failure.None? ==> RequestRepeated(bus.rules, bus.Memory())
      decreases Rank(NameBillingRequested), 6
    {
      hide OpeningEnded, Deliverable, SeenInv, HasBilling, BillingStored, Traced, Interrupted, IdsFresh, Subscribers;
      ghost var s := Now(false);
      RequestEventsNeedKeptData(e, s);
      var stored := StoreBilling(e);
      if stored.Ok? {
        failure := RequestFirstAttempt(stored.value, e, s);
        return;
      }
      failure := Some(stored.error);
      if stored.error == BillingAlreadyExists {
        var found := db.GetBillingByInvoice(false, e.invoiceId);
        failure := if found.Ok? then None else Some(found.error);
      }
      NothingOpened(world.replies, e, s, failure.value);
    }

    /** Build the billing and store it. */
    method StoreBilling(e: Event) returns (r: Result<BillingRow, Error>)
      requires e.InvoiceCreated? && Ready(false) && Deliverable(e, Now(false))
      requires !HasBilling(db.committed.books, e.invoiceId)
      modifies db`committed, db`working, world`tick
      ensures Kept(false)
      ensures if r.Ok? then BillingStored(e, old(Now(false)), Now(false), r.value) else Now(false) == old(Now(false))
      ensures r.Ok? ==> r.value.createdAt == r.value.updatedAt == world.clock(old(world.tick) + 1)
      ensures (var id := world.freshId(old(world.tick));
               old(world.Quiet()) && IsUsableId(id) && id in old(db.committed.books.billings)) ==>
                r == Err(BillingAlreadyExists) && world.Quiet()
      ensures old(Undisturbed(false)) ==> r.Ok? && Undisturbed(false)
    {
      hide Deliverable, SeenInv, HasBilling, RowsKept, Enabled, BringsStorableRows, NewBilling, BillingCollides,
           RehydrateBilling, IdsFresh, Subscribers;
      ghost var s := Now(false);
      NextIdIsFresh(world.freshId, old(world.tick), s.data);
      DeliverableInvoice(e, s);
      var id := world.NewId();
      var now := world.Now();
      AnnouncedBilling(s, e, id, now);
      r := NewBilling(id, e.invoiceId, e.customerId, e.amountCents, e.dueDate, now);
      if r.Err? {
        return;
      }
      BillingFits(s.data.books, r.value);
      var failure := db.SaveBilling(false, r.value);
      if failure.Some? {
        return Err(failure.value);
      }
      IdsFreshAfterUse(world.freshId, old(world.tick), s.data, world.tick, Now(false).data);
    }

    method RequestFirstAttempt(r: BillingRow, e: Event, ghost s: Seen) returns (failure: Option<Error>)
      requires e.InvoiceCreated? && Ready(false) && BillingStored(e, s, Now(false), r)
      modifies db, bus, world
      ensures Carried(false, Rank(NameInvoiceCreated))
      ensures OpeningEnded(world.replies, e, s, Now(false), failure)
      ensures old(Calm(false)) ==> failure.None? && Calm(false)
      ensures old(Primed(false)) ==> failure.Some? && Calm(false) && Interrupted(e, s, Now(false))
      ensures failure.None? ==> RequestRepeated(bus.rules, bus.Memory())
      decreases Rank(NameBillingRequested), 5
    {
      hide OpeningEnded, PublishEnded, BillingStored, Deliverable, SeenInv, HasBilling, Traced, Interrupted,
           Subscribers, IdsFresh, FreshId, FailureTold;
      ghost var w := Now(false);
      var meta := NewMetadata(r.id, r.updatedAt);
      var q := RequestOf(meta, r);
      StoredBillingIsDeliverable(e, s, w, r, q);
      failure := Publish(false, BillingModule, q);
      RequestEndsOpening(world.replies, e, s, w, Now(false), r, q, failure);
    }

    // ---- The two requests ----

    /** Store the invoice, outside any transaction, and announce it. `refusal` is the customers module's answer. */
    method CreateInvoice(customerId: string, amountCents: int, dueDate: Time, refusal: Option<Error>)
      returns (r: Result<InvoiceRow, Error>)
      requires Ready(false) && SeenInv(Now(false))
      modifies db, bus, world
      ensures Carried(false, 4) && SeenInv(Now(false))
      ensures |NewRecords(old(Now(false)), Now(false))| <= 4
      ensures var id := TrimSpace(world.freshId(old(world.tick)));
              && (r.Ok? ==>
                    && r.value.id == id && refusal.None? && id !in old(db.committed.books.invoices)
                    && r.value.amountCents == amountCents && r.value.customerId == TrimSpace(customerId)
                    && dueDate - 86400 < r.value.dueDate <= dueDate && r.value.dueDate % 86400 == 0
                    && id in db.committed.books.invoices && InvoiceForward(r.value, db.committed.books.invoices[id])
                    && ChargedOnce(world.replies, old(Now(false)), Now(false), id)
                    && RequestRepeated(bus.rules, bus.Memory()))
              && (Now(false) == old(Now(false))
                  || (id !in old(db.committed.books.invoices) && Progress(old(Now(false)), Now(false), id)))
      ensures old(Calm(false)) ==>
                && Calm(false) && (r.Err? ==> Now(false) == old(Now(false)))
                && (r.Ok? <==> refusal.None? && CanInvoice(customerId, amountCents, dueDate))
                && (r.Err? ==> r.error == if refusal.Some? then refusal.value
                                          else InvoiceRefusal(customerId, amountCents))
      ensures old(Undisturbed(false) && !db.AppendsPass() && HandlersRun()) && refusal.None?
              && CanInvoice(customerId, amountCents, dueDate) ==>
                && r.Err? && Calm(false) && Unbilled(db.committed.books, world.freshId(old(world.tick)))
                && db.committed.outbox == old(db.committed.outbox) && world.calls == old(world.calls)
      ensures old(Primed(false)) && refusal.None? && CanInvoice(customerId, amountCents, dueDate) ==>
                && r.Err? && Calm(false) && world.calls == old(world.calls)
                && exists b :: InvoiceAccount(db.committed.books, world.freshId(old(world.tick)), b, OPENED)
    {
      hide SeenInv, Progress, InvoiceAccount, Enabled, BringsStorableRows, Apply, Subscribers, NewInvoice,
           InvoiceForward, NewRecords, Traced, Unbilled, IdsFresh, ChargedOnce, TrimSpace, CanInvoice, InvoiceRefusal;
      ghost var s := Now(false);
      SameOutboxNoRecords(s, s);
      if refusal.Some? {
        return Err(refusal.value);
      }
      r := StoreInvoice(customerId, amountCents, dueDate);
      if r.Ok? {
        var failure := AnnounceInvoice(r.value, s);
        if failure.Some? {
          r := Err(failure.value);
        }
      }
    }

    /** Build the invoice and store it. */
    method StoreInvoice(customerId: string, amountCents: int, dueDate: Time) returns (r: Result<InvoiceRow, Error>)
      requires Ready(false) && SeenInv(Now(false))
      modifies db`committed, db`working, world`tick
      ensures Kept(false)
      ensures if r.Err? then Now(false) == old(Now(false))
              else
                && (var id, now := TrimSpace(world.freshId(old(world.tick))), world.clock(old(world.tick) + 1);
                    r.value == InvoiceRow(id, TrimSpace(customerId), amountCents, dueDate - dueDate % 86400,
                                          PendingInvoice, now, now, None))
                && var s := old(Now(false));
                   && r.value.id !in s.data.books.invoices
                   && Enabled(s.data.books, SaveNewInvoice(r.value)) && BringsStorableRows(SaveNewInvoice(r.value))
                   && Now(false) == Seen(Data(Apply(s.data.books, SaveNewInvoice(r.value)), s.data.outbox), s.calls)
      ensures old(Undisturbed(false)) ==>
                && Undisturbed(false) && (r.Ok? <==> CanInvoice(customerId, amountCents, dueDate))
                && (r.Err? ==> r.error == InvoiceRefusal(customerId, amountCents))
                && TrimSpace(world.freshId(old(world.tick))) == world.freshId(old(world.tick))
    {
      hide SeenInv, ValidateInvoice, NewInvoice, IdsFresh, Subscribers, CanInvoice, InvoiceRefusal;
      ghost var s := Now(false);
      NextIdIsFresh(world.freshId, old(world.tick), s.data);
      var id := world.NewId();
      var now := world.Now();
      TrimFixedPoints(id);
      MadeInvoices(id, customerId, amountCents, dueDate, now);
      NewInvoiceForInput(id, customerId, amountCents, dueDate, now);
      r := NewInvoice(id, customerId, amountCents, dueDate, now);
      if r.Ok? {
        var failure := db.SaveInvoice(false, r.value);
        if failure.None? {
          NewInvoiceIsCommit(s, id, customerId, amountCents, dueDate, now);
        } else {
          r := Err(failure.value);
        }
      }
      IdsFreshAfterUse(world.freshId, old(world.tick), s.data, world.tick, Now(false).data);
    }

    /** Publish InvoiceCreated for the stored invoice. */
    method AnnounceInvoice(invoice: InvoiceRow, ghost s: Seen) returns (failure: Option<Error>)
      requires Ready(false) && SeenInv(s)
      requires Enabled(s.data.books, SaveNewInvoice(invoice)) && BringsStorableRows(SaveNewInvoice(invoice))
      requires Now(false) == Seen(Data(Apply(s.data.books, SaveNewInvoice(invoice)), s.data.outbox), s.calls)
      modifies db, bus, world
      ensures Carried(false, 4) && SeenInv(Now(false)) && Progress(s, Now(false), invoice.id)
      ensures |NewRecords(s, Now(false))| <= 4
      ensures invoice.id in db.committed.books.invoices
              && InvoiceForward(invoice, db.committed.books.invoices[invoice.id])
      ensures failure.None? ==> ChargedOnce(world.replies, s, Now(false), invoice.id)
                                && RequestRepeated(bus.rules, bus.Memory())
      ensures old(Calm(false)) ==> failure.None? && Calm(false)
      ensures old(Undisturbed(false) && !db.AppendsPass() && HandlersRun()) ==>
                && failure.Some? && Calm(false) && Unbilled(db.committed.books, invoice.id)
                && db.committed.outbox == s.data.outbox && world.calls == s.calls
      ensures old(Primed(false)) ==>
                && failure.Some? && Calm(false) && world.calls == s.calls
                && exists b :: InvoiceAccount(db.committed.books, invoice.id, b, OPENED)
    {
      hide SeenInv, Progress, Published, Deliverable, Enabled, BringsStorableRows, HasBilling, ChargedOnce,
           FailureTold, Apply, InvoiceForward, Traced, NewRecords, Interrupted, Unbilled, Undisturbed, FreshId,
           InvoiceAccount;
      ghost var w := Now(false);
      var meta := NewMetadata(invoice.id, invoice.createdAt);
      var e := AnnouncingOf(meta, invoice);
      BeforeAnnouncement(s, w, invoice, e);
      failure := Publish(false, InvoicesModule, e);
      AfterAnnouncement(world.replies, s, w, Now(false), invoice, e);
    }

    /** The locked reactivation, in its own transaction. */
    method GetProcessableBilling(invoiceId: string) returns (r: Result<BillingRow, Error>)
      requires Ready(false) && SeenInv(Now(false))
      modifies db`committed, db`working, db`open, world`tick
      ensures Kept(false)
      ensures r.Ok? ==> HandedOut(old(Now(false)), Now(false), invoiceId, r.value)
      ensures r.Err? ==> db.committed == old(db.committed)
      ensures old(Calm(false)) ==> Calm(false)
      ensures old(Calm(false) && !HasBilling(db.committed.books, invoiceId)) ==> r == Err(BillingNotFound)
      ensures old(Calm(false) && HasBilling(db.committed.books, invoiceId)) ==>
                if HasApproved(old(db.committed.books), invoiceId) then r == Err(BillingAlreadyApproved) else r.Ok?
    {
      hide SeenInv, RowsKept, LedgerInv, HasBilling, HasApproved, IdsFresh, Subscribers, HandedOut;
      ghost var s := Now(false);
      SeenHasRows(s);
      var failure := db.Begin();
      if failure.Some? {
        return Err(failure.value);
      }
      IdsStayFresh(world.freshId, old(world.tick), s.data, world.tick, db.working);
      assert Now(true) == s;
      r := ReactivateInTransaction(invoiceId);
      ghost var u, ended := Now(true), world.tick;
      if r.Ok? {
        failure := db.Commit();
      } else {
        failure := db.Rollback();
        u := s;
      }
      if failure.Some? {
        r := Err(failure.value);
      }
      assert r.Ok? ==> Now(false) == u;
      IdsStayFresh(world.freshId, ended, u.data, world.tick, u.data);
      IdsStayFresh(world.freshId, old(world.tick), s.data, world.tick, s.data);
    }

    method ReactivateInTransaction(invoiceId: string) returns (r: Result<BillingRow, Error>)
      requires Ready(true) && SeenInv(Now(true))
      modifies db`committed, db`working, world`tick
      ensures Ready(true) && db.committed == old(db.committed) && world.tick > old(world.tick)
      ensures r.Ok? ==> HandedOut(old(Now(true)), Now(true), invoiceId, r.value)
      ensures old(Calm(true)) && r.Ok? ==> Calm(true)
      ensures old(Calm(true) && !HasBilling(db.working.books, invoiceId)) ==> r == Err(BillingNotFound)
      ensures old(Calm(true) && HasBilling(db.working.books, invoiceId)) ==>
                if HasApproved(old(db.working.books), invoiceId) then r == Err(BillingAlreadyApproved) else r.Ok?
    {
      hide SeenInv, RowsKept, LedgerInv, HasBilling, HasApproved, IdsFresh, Subscribers, HandedOut;
      ghost var s := Now(true);
      SeenHasRows(s);
      var found := db.GetBillingByInvoice(true, invoiceId);
      if found.Err? {
        return found;
      }
      FoundBilling(s, invoiceId, found.value);
      IdsStayFresh(world.freshId, old(world.tick), s.data, world.tick, s.data);
      assert Now(true) == s;
      r := WriteReactivated(found.value);
    }

    /** Reactivate the billing that was read under the row lock, and write it back. */
    method WriteReactivated(seen: BillingRow) returns (r: Result<BillingRow, Error>)
      requires Ready(true) && seen.id in db.working.books.billings && db.working.books.billings[seen.id] == seen
      modifies db`committed, db`working, world`tick
      ensures Ready(true) && db.committed == old(db.committed) && world.tick > old(world.tick)
      ensures r.Ok? ==> HandedOut(old(Now(true)), Now(true), seen.invoiceId, r.value)
      ensures r.Ok? ==> r.value == seen.AsReactivated(world.clock(old(world.tick)))
      ensures old(Calm(true)) && r.Ok? ==> Calm(true)
      ensures old(Calm(true)) ==> if seen.status == ApprovedBilling then r == Err(BillingAlreadyApproved) else r.Ok?
    {
      hide IdsFresh, Subscribers, HandedOut;
      ghost var s := Now(true);
      var billing := new Billing(seen);
      var now := world.Now();
      var refusal := billing.MarkRequested(now);
      if refusal.Some? {
        return Err(refusal.value);
      }
      var failure := db.UpdateBilling(true, billing.Row());
      if failure.None? {
        IsHandedOut(s, Now(true), seen, now);
        IdsStayFresh(world.freshId, old(world.tick), s.data, world.tick, db.working);
      }
      return if failure.Some? then Err(failure.value) else Ok(billing.Row());
    }

    /** Reactivate in one transaction, attempt in another: a fault between the two leaves the billing requested. */
    method ProcessPayment(invoiceId: string) returns (r: Result<PaymentRow, Error>)
      requires Ready(false) && SeenInv(Now(false))
      modifies db, bus, world
      ensures Carried(false, 4) && SeenInv(Now(false)) && Progress(old(Now(false)), Now(false), invoiceId)
      ensures r.Ok? ==>
                && RecordsReply(r.value, world.replies(|old(world.calls)|))
                && r.value.id in db.committed.books.payments && db.committed.books.payments[r.value.id] == r.value
                && |world.calls| == |old(world.calls)| + 1 && Wasted(Now(false)) == old(Wasted(Now(false)))
                && RecordsAdded(old(Now(false)), Now(false),
                                if world.replies(|old(world.calls)|).Approves() then 2 else 1)
                && invoiceId in db.committed.books.invoices
                && (var reply := world.replies(|old(world.calls)|);
                    db.committed.books.invoices[invoiceId].status == PaidInvoice
                    <==> reply.Answer? && reply.status == "Approved")
                && exists b :: Retried(old(db.committed.books), db.committed.books, invoiceId, b,
                                       OutcomeOf(world.replies(|old(world.calls)|)))
      ensures r.Err? ==>
                && |world.calls| <= |old(world.calls)| + 1 && db.committed.outbox == old(db.committed.outbox)
                && (db.committed == old(db.committed)
                    || exists b :: Reopened(old(db.committed.books), db.committed.books, invoiceId, b))
      ensures old(!HasBilling(db.committed.books, invoiceId) || HasApproved(db.committed.books, invoiceId)) ==>
                r.Err? && Now(false) == old(Now(false))
      ensures old(Calm(false)) ==> Calm(false)
      ensures old(Calm(false) && HasApproved(db.committed.books, invoiceId)) ==> r == Err(BillingAlreadyApproved)
      ensures (&& old(Calm(false)) && HasBilling(old(db.committed.books), invoiceId)
               && !HasApproved(old(db.committed.books), invoiceId)) ==> r.Ok?
    {
      hide SeenInv, Progress, RowsKept, LedgerInv, HasBilling, HasApproved, HasAttempt, InputOk, Reactivated,
           AttemptAnswered, AccountOf, Retried, Reopened, RecordsAdded, Traced, RecordsReply;
      ghost var s := Now(false);
      NoProgress(s, invoiceId);
      var found := GetProcessableBilling(invoiceId);
      ApprovedHasBilling(s, invoiceId);
      if found.Err? {
        return Err(found.error);
      }
      ghost var w := Now(false);
      ghost var b := found.value.id;
      ghost var now :| Reactivated(s, w, b, now)
                       && b in db.committed.books.billings && db.committed.books.billings[b] == found.value;
      ReactivationAsks(s, w, found.value, now);
      var c := InputFor(found.value);
      InputIsPositive(w.data.books, c);
      ghost var b0, log := bus.Memory(), bus.log;
      r := ProcessBillingRequest(c);
      if bus.Memory() != b0 || bus.log != log {
        TracedLower(bus.rules, Rank(NameBillingRequested), 4, b0, log, bus.Memory(), bus.log);
      }
      ProgressTransitive(s, w, Now(false), invoiceId);
      if r.Ok? {
        RetryCharges(world.replies, s, w, Now(false), found.value, now, r.value);
        RetryRecords(world.replies, s, w, Now(false), found.value, now, r.value);
        ProgressIsForward(s, Now(false), invoiceId);
        RetriedPays(s.data.books, db.committed.books, invoiceId, b, OutcomeOf(world.replies(|s.calls|)));
        RecordedReply(r.value, world.replies(|s.calls|));
      }
    }

    // ---- Runs ----

    /** Any requests one after the other, under any faults: the data stays kept and goes only forward, an outbox row
        left behind never changes again, no call is made for a stored attempt, and an unbilled invoice stays as it is.
        Without faults every call has its payment. */
    method Serve(requests: seq<Request>)
      requires Ready(false) && SeenInv(Now(false))
      modifies db, bus, world
      ensures Carried(false, 4) && SeenInv(Now(false))
      ensures OnlyForward(old(db.committed.books), db.committed.books) && KeepsRows(old(Now(false)), Now(false))
      ensures CallsGrow(old(Now(false)), Now(false))
      ensures UnbilledStay(old(db.committed.books), db.committed.books)
      ensures old(Calm(false)) ==> Calm(false) && Wasted(Now(false)) == old(Wasted(Now(false)))
      ensures old(Calm(false)) ==>
                |db.committed.books.invoices| == |old(db.committed.books.invoices)| + GoodCreations(requests)
    {
      hide SeenInv, Progress, OnlyForward, KeepsRows, CallsGrow, HasBilling, Traced, Unbilled, UnbilledStay,
           GoodCreations, IdsFresh, Subscribers;
      ghost var start := Now(false);
      ForwardReflexive(start);
      NothingBilled(start.data.books);
      NoRequests();
      assert requests[..0] == [];
      for n := 0 to |requests|
        invariant Carried(false, 4) && SeenInv(Now(false))
        invariant OnlyForward(start.data.books, db.committed.books) && KeepsRows(start, Now(false))
        invariant CallsGrow(start, Now(false)) && UnbilledStay(start.data.books, db.committed.books)
        invariant old(Calm(false)) ==> Calm(false) && Wasted(Now(false)) == Wasted(start)
        invariant old(Calm(false)) ==>
                    |db.committed.books.invoices| == |start.data.books.invoices| + GoodCreations(requests[..n])
      {
        OneMoreRequest(requests, n);
        ghost var s, b, log := Now(false), bus.Memory(), bus.log;
        ghost var i := ServeOne(requests[n]);
        ForwardAfter(start, s, Now(false), i);
        OthersStayUnbilled(start.data.books, s, Now(false), i);
        TracedAgain(bus.rules, 4, old(bus.Memory()), old(bus.log), b, log, bus.Memory(), bus.log);
      }
      assert requests[..|requests|] == requests;
    }

    /** One request. It is about invoice `i`: a new one, or one that has a billing, or nothing happens. */
    method ServeOne(request: Request) returns (ghost i: string)
      requires Ready(false) && SeenInv(Now(false))
      modifies db, bus, world
      ensures Carried(false, 4) && SeenInv(Now(false)) && Progress(old(Now(false)), Now(false), i)
      ensures Now(false) == old(Now(false)) || i !in old(db.committed.books.invoices)
              || old(HasBilling(db.committed.books, i))
      ensures old(Calm(false)) ==> Calm(false) && Wasted(Now(false)) == old(Wasted(Now(false)))
      ensures old(Calm(false)) ==>
                |db.committed.books.invoices| == |old(db.committed.books.invoices)| + GoodCreations([request])
    {
      hide SeenInv, Progress, LedgerInv, HasBilling, HasApproved, RecordsAdded, NewRecords, Traced, Unbilled,
           CanInvoice, InvoiceForward, InvoiceRefusal, Reopened, Retried, RecordsReply, IdsFresh, Subscribers,
           TrimSpace;
      ghost var s := Now(false);
      OneMoreRequest([request], 0);
      assert [request][..0] == [] && [request][..1] == [request];
      match request {
        case Create(customerId, amountCents, dueDate, refusal) =>
          i := TrimSpace(world.freshId(world.tick));
          NoProgress(s, i);
          var r := CreateInvoice(customerId, amountCents, dueDate, refusal);
          OneMoreInvoice(s, Now(false), i);
        case Retry(invoiceId) =>
          i := invoiceId;
          var r := ProcessPayment(invoiceId);
          RetriesStoreNothing(s, Now(false), invoiceId);
      }
    }

    /** One more retry of an invoice whose gateway outcomes so far are `os`, with nothing failing but the gateway. */
    method RetryOnce(invoiceId: string, ghost b: string, ghost os: seq<Outcome>, ghost from: nat)
      requires Ready(false) && SeenInv(Now(false)) && Calm(false)
      requires InvoiceAccount(db.committed.books, invoiceId, b, Retries(OPENED, os))
      requires |world.calls| == from + |Retries(OPENED, os).outcomes|
      modifies db, bus, world
      ensures Carried(false, 4) && SeenInv(Now(false)) && Calm(false)
      ensures var os' := os + [OutcomeOf(world.replies(from + |os|))];
              && InvoiceAccount(db.committed.books, invoiceId, b, Retries(OPENED, os'))
              && |world.calls| == from + |Retries(OPENED, os').outcomes|
    {
      hide SeenInv, Progress, InvoiceAccount, HasBilling, HasApproved, Retries, Retried, Reopened, OnlyForward,
           RecordsAdded, Traced, OutcomeOf, Recorded, IdsFresh, Subscribers, Closed;
      ghost var s, a := Now(false), Retries(OPENED, os);
      AccountedInvoice(s.data.books, invoiceId, b, a);
      var r := ProcessPayment(invoiceId);
      if r.Ok? {
        ProgressIsForward(s, Now(false), invoiceId);
      }
      RetriedOnce(world.replies, s, Now(false), invoiceId, b, os, from);
    }

    /** `retries` further retries. */
    method RetryTimes(invoiceId: string, retries: nat, ghost b: string, ghost from: nat, ghost made: nat)
      requires Ready(false) && SeenInv(Now(false)) && Calm(false)
      requires InvoiceAccount(db.committed.books, invoiceId, b,
                              Retries(OPENED, OutcomesFrom(world.replies, from, made)))
      requires |world.calls| == from + |Retries(OPENED, OutcomesFrom(world.replies, from, made)).outcomes|
      modifies db, bus, world
      ensures Carried(false, 4) && SeenInv(Now(false)) && Calm(false)
      ensures var a := Retries(OPENED, OutcomesFrom(world.replies, from, made + retries));
              InvoiceAccount(db.committed.books, invoiceId, b, a) && |world.calls| == from + |a.outcomes|
    {
      hide SeenInv, Progress, LedgerInv, InvoiceAccount, HasBilling, HasApproved, Retries, DataInv, RecordsAdded,
           Traced;
      for n := 0 to retries
        invariant Carried(false, 4) && SeenInv(Now(false)) && Calm(false)
        invariant InvoiceAccount(db.committed.books, invoiceId, b,
                                 Retries(OPENED, OutcomesFrom(world.replies, from, made + n)))
        invariant |world.calls| == from + |Retries(OPENED, OutcomesFrom(world.replies, from, made + n)).outcomes|
      {
        ghost var os, m, log := OutcomesFrom(world.replies, from, made + n), bus.Memory(), bus.log;
        assert OutcomesFrom(world.replies, from, made + n + 1) == os + [OutcomeOf(world.replies(from + |os|))];
        RetryOnce(invoiceId, b, os, from);
        TracedAgain(bus.rules, 4, old(bus.Memory()), old(bus.log), m, log, bus.Memory(), bus.log);
      }
    }

    /** Create an invoice and retry it `retries` times, with nothing failing but the gateway: whatever the gateway
        replies, the attempts are its replies up to the first approval, and no later retry calls it. */
    method CreateAndRetry(customerId: string, amountCents: int, dueDate: Time, retries: nat)
      returns (invoice: InvoiceRow)
      requires Ready(false) && SeenInv(Now(false)) && Calm(false) && CanInvoice(customerId, amountCents, dueDate)
      modifies db, bus, world
      ensures Carried(false, 4) && SeenInv(Now(false)) && invoice.id == TrimSpace(world.freshId(old(world.tick)))
      ensures RequestRepeated(bus.rules, bus.Memory()) && Calm(false)
      ensures var os := OutcomesFrom(world.replies, |old(world.calls)|, retries + 1);
              && |world.calls| == |old(world.calls)| + |Cut(os)|
              && exists b :: InvoiceAccount(db.committed.books, invoice.id, b, Account(Cut(os), false))
      ensures invoice.id in db.committed.books.invoices
      ensures StopsAtApproval(world.replies, |old(world.calls)|, retries + 1, |world.calls| - |old(world.calls)|,
                              db.committed.books.invoices[invoice.id].status == PaidInvoice)
    {
      hide SeenInv, Progress, LedgerInv, InvoiceAccount, HasBilling, HasApproved, Retries, CanInvoice, DataInv,
           RecordsAdded, Traced, StopsAtApproval, IdsFresh, Subscribers, TrimSpace, InvoiceForward;
      ghost var from := |world.calls|;
      var created := CreateInvoice(customerId, amountCents, dueDate, None);
      invoice := created.value;
      ghost var m, log := bus.Memory(), bus.log;
      ghost var os := OutcomesFrom(world.replies, from, 1);
      assert os == [OutcomeOf(world.replies(from))];
      RetriesCut(os);
      assert os[1..] == [] && Cut(os) == os;
      ghost var b :| InvoiceAccount(db.committed.books, invoice.id, b, Account(os, false));
      RetryTimes(invoice.id, retries, b, from, 1);
      TraceKeepsRepeated(bus.rules, 4, m, log, bus.Memory(), bus.log);
      TracedAgain(bus.rules, 4, old(bus.Memory()), old(bus.log), m, log, bus.Memory(), bus.log);
      RetriesCut(OutcomesFrom(world.replies, from, retries + 1));
      RepliesDecide(db.committed.books, invoice.id, b, world.replies, from, retries + 1);
    }

    /** Create an invoice whose announcement the recorder refuses: it is stored, but nobody bills it. */
    method Orphan(customerId: string, amountCents: int, dueDate: Time)
      requires Ready(false) && SeenInv(Now(false)) && Undisturbed(false) && !db.AppendsPass() && HandlersRun()
      requires CanInvoice(customerId, amountCents, dueDate)
      modifies db, bus, world
      ensures Carried(false, 4) && SeenInv(Now(false)) && Calm(false) && world.calls == old(world.calls)
      ensures Unbilled(db.committed.books, world.freshId(old(world.tick)))
    {
      hide SeenInv, Unbilled, CanInvoice, Progress, HasBilling, NewRecords, InvoiceAccount, Traced;
      var r := CreateInvoice(customerId, amountCents, dueDate, None);
    }

    /** Retrying an unbilled invoice does nothing at all, whatever fails. */
    method RetryInVain(invoiceId: string, retries: nat)
      requires Ready(false) && SeenInv(Now(false)) && Unbilled(db.committed.books, invoiceId)
      modifies db, bus, world
      ensures Carried(false, 4) && Now(false) == old(Now(false))
      ensures old(Calm(false)) ==> Calm(false)
    {
      hide SeenInv, Progress, HasBilling, HasApproved, RecordsAdded, Traced, Retried, Reopened;
      for n := 0 to retries
        invariant Carried(false, 4) && Now(false) == old(Now(false))
        invariant old(Calm(false)) ==> Calm(false)
      {
        ghost var m, log := bus.Memory(), bus.log;
        var r := ProcessPayment(invoiceId);
        TracedAgain(bus.rules, 4, old(bus.Memory()), old(bus.log), m, log, bus.Memory(), bus.log);
      }
    }

    /** Create an invoice whose first attempt is cut short by an injected handler failure, and retry it: the retries are
        all the attempts there are. */
    method RecoverAndRetry(customerId: string, amountCents: int, dueDate: Time, retries: nat)
      requires Ready(false) && SeenInv(Now(false)) && Primed(false) && CanInvoice(customerId, amountCents, dueDate)
      modifies db, bus, world
      ensures Carried(false, 4) && SeenInv(Now(false)) && Calm(false)
      ensures var a := Retries(OPENED, OutcomesFrom(world.replies, |old(world.calls)|, retries));
              && |world.calls| == |old(world.calls)| + |a.outcomes|
              && exists b :: InvoiceAccount(db.committed.books, world.freshId(old(world.tick)), b, a)
      ensures world.freshId(old(world.tick)) in db.committed.books.invoices
      ensures StopsAtApproval(world.replies, |old(world.calls)|, retries, |world.calls| - |old(world.calls)|,
                              db.committed.books.invoices[world.freshId(old(world.tick))].status == PaidInvoice)
    {
      hide SeenInv, Progress, LedgerInv, InvoiceAccount, HasBilling, HasApproved, CanInvoice, DataInv, RecordsAdded,
           Traced, StopsAtApproval;
      var id := TrimSpace(world.freshId(world.tick));
      TrimKeepsTrimmed(world.freshId(world.tick));
      ghost var from := |world.calls|;
      var r := CreateInvoice(customerId, amountCents, dueDate, None);
      ghost var b :| InvoiceAccount(db.committed.books, id, b, OPENED);
      assert OutcomesFrom(world.replies, from, 0) == [];
      ghost var m, log := bus.Memory(), bus.log;
      RetryTimes(id, retries, b, from, 0);
      TracedAgain(bus.rules, 4, old(bus.Memory()), old(bus.log), m, log, bus.Memory(), bus.log);
      RepliesDecide(db.committed.books, id, b, world.replies, from, retries);
    }
  }

  /** The whole life of a freshly started system, whatever goes wrong. All that is stored is kept; every payment
      records the reply of the last gateway call made for its attempt; no more than four publishes are ever open at
      once; each fault of the bus happens at most once; every event reaches its subscribers in order. If nothing fails
      but the gateway, there are as many calls as payments. */
  method Life(world: World, options: BusOptions<EventName, ModuleName>, failFirstAppend: bool, requests: seq<Request>)
    returns (app: App)
    requires world.calls == []
    modifies world
    ensures app.world == world && app.Ready(false) && SeenInv(app.Now(false))
    ensures Consistent(app.db.committed.books)
    ensures var payments := app.db.committed.books.payments;
            forall p :: p in payments ==> exists k: nat :: AnsweredBy(world.calls, payments[p], k)
                                                           && RecordsReply(payments[p], world.replies(k))
    ensures old(world.Quiet() && world.FreshFor(NO_DATA)) && options.failFirst.None? && !failFirstAppend ==>
              && |world.calls| == |app.db.committed.books.payments|
              && |app.db.committed.books.invoices| == GoodCreations(requests)
    ensures LifeLogged(app.bus.rules, app.bus.log, app.bus.Memory())
  {
    hide SeenInv, LifeLogged, Traced, OnlyForward, KeepsRows, CallsGrow, UnbilledStay, Consistent, LedgerInv, RowsKept;
    app := new App(world, options, failFirstAppend);
    ghost var b, log := app.bus.Memory(), app.bus.log;
    app.Serve(requests);
    TracedSince(app.bus.rules, 4, Hub(map[], false, false), NO_LOG, b, log, app.bus.Memory(), app.bus.log);
    LogOfLife(app.bus.rules, app.bus.log, app.bus.Memory());
    ghost var u := app.Now(false);
    SeenHasRows(u);
    KeptIsConsistent(u.data.books);
    forall p | p in u.data.books.payments
      ensures exists k: nat :: AnsweredBy(world.calls, u.data.books.payments[p], k)
                               && RecordsReply(u.data.books.payments[p], world.replies(k))
    {
      PaymentIsAnswered(u, p);
      var k: nat :| AnsweredBy(world.calls, u.data.books.payments[p], k);
      RecordedReply(u.data.books.payments[p], world.replies(k));
    }
  }
}
