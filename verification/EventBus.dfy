/** The synchronous bus itself. Its handlers are whatever a program makes of them: they may succeed or fail, and they
    may subscribe and publish while they run. */
module EventBus {
  import opened Wrappers
  import opened BusLog

  /** What a handler does when it is called: subscribe and publish, and then fail or not. */
  datatype Reaction<N, H> = Reaction(acts: seq<Act<N, H>>, fails: bool)

  /** Whoever uses the bus subscribes and publishes. `script` tells how the handlers called for the event react, one
      after the other; past its end they succeed quietly. The record of the event may be refused, or its marking
      fail. */
  datatype Act<N, H> =
    | Subscribing(name: N, handler: H)
    | Publishing(name: N, script: seq<Reaction<N, H>>, appends: bool, marks: bool)

  /** The entry is what `act` leaves in the log. */
  predicate Records<N(==), H(==)>(e: Entry<N, H>, act: Act<N, H>) {
    match act
    case Subscribing(name, h) => e == Subscription(name, h)
    case Publishing(name, _, _, _) => e.Publication? && e.name == name
  }

  /** The handlers called did what the script has for them from position `from` on, unless the bus failed them first. */
  predicate Reacts<N(==), H(==)>(round: seq<Call<N, H>>, script: seq<Reaction<N, H>>, from: nat) {
    forall k :: 0 <= k < |round| ==> ReactsTo(round[k], if from + k < |script| then script[from + k]
                                                        else Reaction([], false))
  }

  predicate ReactsTo<N(==), H(==)>(c: Call<N, H>, r: Reaction<N, H>) {
    if c.injected then c.failed && c.inner == []
    else
      && c.failed == r.fails && |c.inner| == |r.acts|
      && forall j :: 0 <= j < |r.acts| ==> Records(c.inner[j], r.acts[j])
  }

  /** No round without a record; failure exactly if the record was refused, a handler failed or the record could not be
      marked; and the handlers did what the script has for them, round after round. */
  predicate Scripted<N(==), H(==)>(hs: seq<H>, rounds: seq<Round<N, H>>, failed: bool, script: seq<Reaction<N, H>>,
                                   appends: bool, marks: bool) {
    && (rounds == [] <==> !appends)
    && (failed <==> !appends || !marks || !AllComplete(hs, rounds))
    && forall i :: 0 <= i < |rounds| ==> Reacts(rounds[i].calls, script, if i == 0 then 0 else |hs|)
  }

  predicate AllComplete<N, H>(hs: seq<H>, rounds: seq<Round<N, H>>) {
    forall i :: 0 <= i < |rounds| ==> Complete(hs, rounds[i].calls)
  }

  class SyncBus<N(==), C(==), H(==)> {
    const rules: Rules<N, C, H>
    var handlers: map<N, seq<H>>
    var duplicateTriggered: bool
    var failFirstTriggered: bool
    ghost var log: seq<Entry<N, H>>

    constructor (rules: Rules<N, C, H>)
      ensures this.rules == rules && Memory() == Hub(map[], false, false) && log == []
    {
      this.rules := rules;
      handlers, duplicateTriggered, failFirstTriggered, log := map[], false, false, [];
    }

    ghost function Memory(): Hub<N, H>
      reads this`handlers, this`failFirstTriggered, this`duplicateTriggered
    {
      Hub(handlers, failFirstTriggered, duplicateTriggered)
    }

    function HandlersFor(name: N): seq<H>
      reads this`handlers
    {
      if name in handlers then handlers[name] else []
    }

    /** All that has happened since, nested in nothing, has been logged and was right. */
    twostate predicate Advanced()
      reads this
    {
      Advances(rules, old(Memory()), old(log), Memory(), log)
    }

    method Subscribe(name: N, h: H)
      modifies this`handlers, this`log
      ensures Memory() == old(Memory()).With(name, h)
      ensures log == old(log) + [Subscription(name, h)] && Advanced()
    {
      handlers := handlers[name := HandlersFor(name) + [h]];
      log := log + [Subscription(name, h)];
      AdvancesByOne(rules, old(Memory()), old(log), Memory(), log, Subscription(name, h));
    }

    method ShouldDuplicate(name: N) returns (again: bool)
      modifies this`duplicateTriggered
      ensures again <==> !old(duplicateTriggered) && rules.Duplicates(name)
      ensures duplicateTriggered == (old(duplicateTriggered) || again)
    {
      if rules.options.duplicateFirst != Some(name) || duplicateTriggered {
        return false;
      }
      duplicateTriggered := true;
      return true;
    }

    method ShouldFailConsumer(name: N, h: H) returns (fail: bool)
      modifies this`failFirstTriggered
      ensures fail <==> !old(failFirstTriggered) && rules.Fails(name, h)
      ensures failFirstTriggered == (old(failFirstTriggered) || fail)
    {
      if rules.options.failFirst != Some((name, rules.consumerOf(h))) || failFirstTriggered {
        return false;
      }
      failFirstTriggered := true;
      return true;
    }

    // ---- Under arbitrary users and handlers ----

    /** Whatever its users and its handlers do, the bus keeps a right log of it. */
    method Perform(acts: seq<Act<N, H>>)
      modifies this
      ensures Advanced() && |log| == |old(log)| + |acts|
      ensures forall k :: 0 <= k < |acts| ==> Records(log[|old(log)| + k], acts[k])
      decreases acts, 0
    {
      Stays(rules, Memory(), log);
      for k := 0 to |acts|
        invariant Advanced() && |log| == |old(log)| + k
        invariant forall j :: 0 <= j < k ==> Records(log[|old(log)| + j], acts[j])
      {
        ghost var b, l := Memory(), log;
        match acts[k] {
          case Subscribing(name, h) => Subscribe(name, h);
          case Publishing(name, script, appends, marks) => var failed := Publish(name, script, appends, marks);
        }
        AdvancesOn(rules, old(Memory()), old(log), b, l, Memory(), log);
      }
    }

    method Publish(name: N, script: seq<Reaction<N, H>>, appends: bool, marks: bool) returns (failed: bool)
      modifies this
      ensures Advanced()
      ensures log != [] && log == old(log) + [Last(log)]
      ensures Last(log).Publication? && Last(log).name == name && Last(log).failed == failed
      ensures Scripted(old(HandlersFor(name)), Last(log).rounds, failed, script, appends, marks)
      decreases script, 3
    {
      hide Reacts, AfterRound;
      var hs := HandlersFor(name);
      ghost var b, rounds := Memory(), [];
      failed := !appends;
      if appends {
        ghost var first;
        first, failed := Dispatch(name, hs, script, 0);
        rounds := [Round(first)];
        if !failed {
          var again := ShouldDuplicate(name);
          if again {
            ghost var second;
            second, failed := Dispatch(name, hs, script, |hs|);
            rounds := [Round(first), Round(second)];
          }
          failed := failed || !marks;
        }
      }
      log := log + [Publication(name, rounds, failed)];
      AdvancesByOne(rules, b, old(log), Memory(), log, Publication(name, rounds, failed));
    }

    /** One round. `from` is how many calls of the script have been used up. */
    method Dispatch(name: N, hs: seq<H>, script: seq<Reaction<N, H>>, from: nat)
      returns (ghost round: seq<Call<N, H>>, failed: bool)
      modifies this
      ensures AfterRound(rules, old(Memory()), name, hs, round) == Some(Memory()) && log == old(log)
      ensures Ended(hs, round) && (failed <==> !Complete(hs, round))
      ensures Reacts(round, script, from)
      decreases script, 2
    {
      hide AfterRound, AfterCall, ReactsTo;
      round, failed := [], false;
      NoCalls(rules, Memory(), name, hs);
      var i := 0;
      while i < |hs|
        invariant 0 <= i <= |hs| && |round| == i && Complete(hs[..i], round) && log == old(log)
        invariant AfterRound(rules, old(Memory()), name, hs, round) == Some(Memory())
        invariant Reacts(round, script, from)
      {
        ghost var m := Memory();
        ghost var c;
        c, failed := DeliverTo(name, hs[i], script, from + i);
        RoundGoesOn(rules, old(Memory()), name, hs, round, c, m, Memory());
        round := round + [c];
        assert round[i] == c;
        if failed {
          return;
        }
        i := i + 1;
      }
      assert hs[..i] == hs;
    }

    /** Call one handler, with what the script has for it at position `at`, unless the bus fails it itself. */
    method DeliverTo(name: N, h: H, script: seq<Reaction<N, H>>, at: nat) returns (ghost c: Call<N, H>, failed: bool)
      modifies this
      ensures AfterCall(rules, old(Memory()), name, c) == Some(Memory()) && log == old(log)
      ensures c.handler == h && c.failed == failed
      ensures ReactsTo(c, if at < |script| then script[at] else Reaction([], false))
      decreases script, 1
    {
      hide Records;
      var injected := ShouldFailConsumer(name, h);
      failed := injected;
      ghost var inner := [];
      if !injected && at < |script| {
        log := [];
        Perform(script[at].acts);
        failed := script[at].fails;
        inner := log;
        log := old(log);
      }
      c := Call(h, injected, inner, failed);
    }
  }

  /** The whole life of a bus under arbitrary users and handlers. */
  method Life<N(==, !new), C(==), H(==)>(rules: Rules<N, C, H>, acts: seq<Act<N, H>>) returns (bus: SyncBus<N, C, H>)
    ensures AfterLog(rules, Hub(map[], false, false), bus.log) == Some(bus.Memory())
    ensures |bus.log| == |acts| && forall k :: 0 <= k < |acts| ==> Records(bus.log[k], acts[k])
    ensures Injections(bus.log) <= 1 && Repetitions(bus.log) <= 1
    ensures OrderlyLog((n: N) => [], bus.log)
    ensures OnlyFirst(rules.options.duplicateFirst, false, Repeats(bus.log))
    ensures OnlyFirst(rules.options.failFirst, false, Failures(rules.consumerOf, bus.log))
  {
    bus := new SyncBus(rules);
    bus.Perform(acts);
    assert bus.log[0..] == bus.log;
    FaultsHappenOnce(rules, Hub(map[], false, false), bus.log);
    RightLogsAreOrderly(rules, Hub(map[], false, false), bus.log, (n: N) => []);
    FirstIsRepeated(rules, Hub(map[], false, false), bus.log);
    FirstIsFailed(rules, Hub(map[], false, false), bus.log);
  }
}
