/** The log of a synchronous bus: the tree of all that was subscribed, published and called.

`AfterLog` says which logs are right and what they leave behind: subscriptions in order, delivery that stops at the
first failure, and two faults that can be injected once each. */
module BusLog {
  import opened Wrappers

  datatype BusOptions<N(==), C(==)> = BusOptions(duplicateFirst: Option<N>, failFirst: Option<(N, C)>)

  /** The options together with the module each handler belongs to. */
  datatype Rules<!N(==), !C(==), !H> = Rules(options: BusOptions<N, C>, consumerOf: H -> C)
  {
    predicate Duplicates(name: N) { options.duplicateFirst == Some(name) }

    predicate Fails(name: N, h: H) { options.failFirst == Some((name, consumerOf(h))) }
  }

  // ---- The log ----

  /** One handler called with an event: whether the bus failed it without running it, and what happened while it ran. */
  datatype Call<N, H> = Call(handler: H, injected: bool, inner: seq<Entry<N, H>>, failed: bool)

  /** A published event with its rounds of calls: none if its record was refused, two if it was delivered twice. */
  datatype Entry<N, H> =
    | Subscription(name: N, handler: H)
    | Publication(name: N, rounds: seq<Round<N, H>>, failed: bool)

  /** One delivery: the calls made, in order. */
  datatype Round<N, H> = Round(calls: seq<Call<N, H>>)

  /** What the bus remembers: who subscribed to what, and which faults it has injected. */
  datatype Hub<N, H> = Hub(subscriptions: map<N, seq<H>>, failed: bool, duplicated: bool)
  {
    function HandlersFor(name: N): seq<H> {
      if name in subscriptions then subscriptions[name] else []
    }

    function With(name: N, h: H): Hub<N, H> {
      this.(subscriptions := subscriptions[name := HandlersFor(name) + [h]])
    }
  }

  /** All of `hs` were called and none failed. */
  predicate Complete<N, H>(hs: seq<H>, round: seq<Call<N, H>>) {
    |round| == |hs| && forall i :: 0 <= i < |round| ==> !round[i].failed
  }

  /** A round ends complete or with a failure. */
  predicate Ended<N, H>(hs: seq<H>, round: seq<Call<N, H>>) {
    Complete(hs, round) || (round != [] && Last(round).failed)
  }

  ghost function AfterLog<N, C, H>(r: Rules<N, C, H>, b: Hub<N, H>, log: seq<Entry<N, H>>): Option<Hub<N, H>>
    decreases log, 0
  {
    if log == [] then Some(b)
    else match AfterLog(r, b, Front(log))
      case None => None
      case Some(m) => AfterEntry(r, m, Last(log))
  }

  ghost function AfterEntry<N, C, H>(r: Rules<N, C, H>, b: Hub<N, H>, e: Entry<N, H>): Option<Hub<N, H>>
    decreases e, 0
  {
    match e
    case Subscription(name, h) => Some(b.With(name, h))
    case Publication(name, rounds, failed) => AfterRounds(r, b, name, b.HandlersFor(name), rounds, failed)
  }

  /** All rounds of one event, and whether publishing it failed in the end. */
  ghost function AfterRounds<N, C, H>(
      r: Rules<N, C, H>, b: Hub<N, H>, name: N, hs: seq<H>, rounds: seq<Round<N, H>>, failed: bool): Option<Hub<N, H>>
    decreases rounds, 0
  {
    if rounds == [] then (if failed then Some(b) else None)
    else match AfterRound(r, b, name, hs, rounds[0].calls)
      case None => None
      case Some(m) =>
        if !Complete(hs, rounds[0].calls) then
          if |rounds| == 1 && failed && Ended(hs, rounds[0].calls) then Some(m) else None
        else if m.duplicated || !r.Duplicates(name) then
          if |rounds| == 1 then Some(m) else None
        else if |rounds| == 2 && Ended(hs, rounds[1].calls) && (failed || Complete(hs, rounds[1].calls)) then
          AfterRound(r, m.(duplicated := true), name, hs, rounds[1].calls)
        else None
  }

  ghost function AfterRound<N, C, H>(r: Rules<N, C, H>, b: Hub<N, H>, name: N, hs: seq<H>, round: seq<Call<N, H>>):
    Option<Hub<N, H>>
    decreases round, 0
  {
    if round == [] then Some(b)
    else match AfterRound(r, b, name, hs, Front(round))
      case None => None
      case Some(m) =>
        if |round| <= |hs| && Last(round).handler == hs[|round| - 1] && Complete(hs[..|round| - 1], Front(round))
        then AfterCall(r, m, name, Last(round))
        else None
  }

  ghost function AfterCall<N, C, H>(r: Rules<N, C, H>, b: Hub<N, H>, name: N, c: Call<N, H>): Option<Hub<N, H>>
    decreases c, 0
  {
    if !b.failed && r.Fails(name, c.handler) then
      if c.injected && c.failed && c.inner == [] then Some(b.(failed := true)) else None
    else if c.injected then None
    else AfterLog(r, b, c.inner)
  }

  lemma {:induction false} AfterBoth<N, C, H>(r: Rules<N, C, H>, b: Hub<N, H>, x: seq<Entry<N, H>>, y: seq<Entry<N, H>>)
    requires AfterLog(r, b, x).Some?
    ensures AfterLog(r, b, x + y) == AfterLog(r, AfterLog(r, b, x).value, y)
  {
    if y == [] {
      assert x + y == x;
    } else {
      assert Front(x + y) == x + Front(y) && Last(x + y) == Last(y);
      AfterBoth(r, b, x, Front(y));
    }
  }

  lemma AfterOne<N, C, H>(r: Rules<N, C, H>, b: Hub<N, H>, e: Entry<N, H>)
    ensures AfterLog(r, b, [e]) == AfterEntry(r, b, e)
  {
    assert Front([e]) == [] && Last([e]) == e;
  }

  // ---- What a right log shows ----

  /** How often the bus failed a handler itself, at any depth. */
  function Injections<N, H>(log: seq<Entry<N, H>>): nat
    decreases log, 0
  {
    if log == [] then 0 else Injections(Front(log)) + EntryInjections(Last(log))
  }

  function EntryInjections<N, H>(e: Entry<N, H>): nat
    decreases e, 0
  {
    if e.Subscription? then 0
    else (if |e.rounds| > 0 then RoundInjections(e.rounds[0].calls) else 0)
         + (if |e.rounds| > 1 then RoundInjections(e.rounds[1].calls) else 0)
  }

  function RoundInjections<N, H>(round: seq<Call<N, H>>): nat
    decreases round, 0
  {
    if round == [] then 0
    else RoundInjections(Front(round)) + (if Last(round).injected then 1 else 0) + Injections(Last(round).inner)
  }

  /** How many events were delivered twice, at any depth. */
  function Repetitions<N, H>(log: seq<Entry<N, H>>): nat
    decreases log, 0
  {
    if log == [] then 0 else Repetitions(Front(log)) + EntryRepetitions(Last(log))
  }

  function EntryRepetitions<N, H>(e: Entry<N, H>): nat
    decreases e, 0
  {
    if e.Subscription? then 0
    else (if |e.rounds| > 0 then RoundRepetitions(e.rounds[0].calls) else 0)
         + (if |e.rounds| > 1 then 1 + RoundRepetitions(e.rounds[1].calls) else 0)
  }

  function RoundRepetitions<N, H>(round: seq<Call<N, H>>): nat
    decreases round, 0
  {
    if round == [] then 0 else RoundRepetitions(Front(round)) + Repetitions(Last(round).inner)
  }

  function Count(triggered: bool): nat {
    if triggered then 1 else 0
  }

  ghost predicate FaultsCounted<N, H>(b: Hub<N, H>, m: Hub<N, H>, injections: nat, repetitions: nat) {
    && Count(m.failed) == Count(b.failed) + injections
    && Count(m.duplicated) == Count(b.duplicated) + repetitions
  }

  /** Each fault is injected at most once in the life of a bus: what the flags remember is how often it happened. */
  lemma {:induction false} FaultsHappenOnce<N, C, H>(r: Rules<N, C, H>, b: Hub<N, H>, log: seq<Entry<N, H>>)
    requires AfterLog(r, b, log).Some?
    ensures FaultsCounted(b, AfterLog(r, b, log).value, Injections(log), Repetitions(log))
    ensures Injections(log) <= 1 && Repetitions(log) <= 1
    decreases log, 0
  {
    if log != [] {
      FaultsHappenOnce(r, b, Front(log));
      EntryFaults(r, AfterLog(r, b, Front(log)).value, Last(log));
    }
  }

  lemma {:induction false} EntryFaults<N, C, H>(r: Rules<N, C, H>, b: Hub<N, H>, e: Entry<N, H>)
    requires AfterEntry(r, b, e).Some?
    ensures FaultsCounted(b, AfterEntry(r, b, e).value, EntryInjections(e), EntryRepetitions(e))
    decreases e, 0
  {
    if e.Publication? && e.rounds != [] {
      var hs := b.HandlersFor(e.name);
      RoundFaults(r, b, e.name, hs, e.rounds[0].calls);
      if |e.rounds| == 2 {
        var m := AfterRound(r, b, e.name, hs, e.rounds[0].calls).value;
        RoundFaults(r, m.(duplicated := true), e.name, hs, e.rounds[1].calls);
      }
    }
  }

  lemma {:induction false} RoundFaults<N, C, H>(
      r: Rules<N, C, H>, b: Hub<N, H>, name: N, hs: seq<H>, round: seq<Call<N, H>>)
    requires AfterRound(r, b, name, hs, round).Some?
    ensures FaultsCounted(b, AfterRound(r, b, name, hs, round).value, RoundInjections(round), RoundRepetitions(round))
    decreases round, 0
  {
    if round != [] {
      RoundFaults(r, b, name, hs, Front(round));
      var m := AfterRound(r, b, name, hs, Front(round)).value;
      if !Last(round).injected {
        FaultsHappenOnce(r, m, Last(round).inner);
      }
    }
  }

  // ---- Which event is repeated, and which call is failed ----

  /** An occasion on which a fault could have been injected: for what, and whether it was. */
  datatype Occasion<K> = Occasion(key: K, taken: bool)

  /** Of all occasions exactly the first for the wanted key is taken, and none if one was taken before. */
  predicate OnlyFirst<K(==)>(wanted: Option<K>, spent: bool, os: seq<Occasion<K>>) {
    forall k :: 0 <= k < |os| ==> (os[k].taken <==> !spent && IsFirst(wanted, os, k))
  }

  predicate IsFirst<K(==)>(wanted: Option<K>, os: seq<Occasion<K>>, k: nat)
    requires k < |os|
  {
    wanted == Some(os[k].key) && Absent(wanted, os[..k])
  }

  predicate Absent<K(==)>(wanted: Option<K>, os: seq<Occasion<K>>) {
    forall k :: 0 <= k < |os| ==> wanted != Some(os[k].key)
  }

  predicate SpentAfter<K(==)>(wanted: Option<K>, spent: bool, os: seq<Occasion<K>>) {
    spent || !Absent(wanted, os)
  }

  lemma AbsentBoth<K>(wanted: Option<K>, x: seq<Occasion<K>>, y: seq<Occasion<K>>)
    ensures Absent(wanted, x + y) <==> Absent(wanted, x) && Absent(wanted, y)
  {
    assert forall k :: 0 <= k < |x| ==> (x + y)[k] == x[k];
    assert forall k :: 0 <= k < |y| ==> (x + y)[|x| + k] == y[k];
  }

  lemma OnlyFirstBoth<K>(wanted: Option<K>, spent: bool, x: seq<Occasion<K>>, y: seq<Occasion<K>>)
    requires OnlyFirst(wanted, spent, x) && OnlyFirst(wanted, SpentAfter(wanted, spent, x), y)
    ensures OnlyFirst(wanted, spent, x + y)
    ensures SpentAfter(wanted, spent, x + y) == SpentAfter(wanted, SpentAfter(wanted, spent, x), y)
  {
    AbsentBoth(wanted, x, y);
    hide Absent;
    var z := x + y;
    forall k | 0 <= k < |z| ensures z[k].taken <==> !spent && IsFirst(wanted, z, k) {
      if k < |x| {
        assert z[k] == x[k] && z[..k] == x[..k];
      } else {
        assert z[k] == y[k - |x|] && z[..k] == x + y[..k - |x|];
        AbsentBoth(wanted, x, y[..k - |x|]);
      }
    }
  }

  lemma OneOccasion<K>(wanted: Option<K>, spent: bool, key: K, taken: bool)
    requires taken <==> !spent && wanted == Some(key)
    ensures OnlyFirst(wanted, spent, [Occasion(key, taken)])
    ensures SpentAfter(wanted, spent, [Occasion(key, taken)]) == (spent || wanted == Some(key))
  {
    var os := [Occasion(key, taken)];
    assert os[0] == Occasion(key, taken) && os[..0] == [];
  }

  predicate NoneTaken<K>(os: seq<Occasion<K>>) {
    forall k :: 0 <= k < |os| ==> !os[k].taken
  }

  predicate OneTaken<K(==)>(os: seq<Occasion<K>>, key: K) {
    exists k :: 0 <= k < |os| && os[k] == Occasion(key, true) && forall j :: 0 <= j < |os| && j != k ==> !os[j].taken
  }

  /** A fault is injected once if there was an occasion, and never if none is wanted. */
  lemma {:induction false} OneIsTaken<K>(wanted: Option<K>, os: seq<Occasion<K>>)
    requires OnlyFirst(wanted, false, os)
    ensures wanted.None? ==> NoneTaken(os)
    ensures wanted.Some? && SpentAfter(wanted, false, os) ==> OneTaken(os, wanted.value)
  {
    if wanted.Some? && SpentAfter(wanted, false, os) {
      var k := FirstOf(wanted, os);
      forall j | 0 <= j < |os| && j != k ensures !os[j].taken {
        if j < k {
          assert os[..k][j] == os[j];
        } else {
          assert os[..j][k] == os[k];
        }
      }
    }
  }

  lemma {:induction false} FirstOf<K>(wanted: Option<K>, os: seq<Occasion<K>>) returns (k: nat)
    requires !Absent(wanted, os)
    ensures k < |os| && IsFirst(wanted, os, k)
  {
    if Absent(wanted, Front(os)) {
      k := |os| - 1;
      assert forall j :: 0 <= j < |os| - 1 ==> os[j] == Front(os)[j];
    } else {
      k := FirstOf(wanted, Front(os));
      assert Front(os)[..k] == os[..k];
    }
  }

  /** Nobody in the round failed. */
  predicate Clean<N, H>(round: seq<Call<N, H>>) {
    forall i :: 0 <= i < |round| ==> !round[i].failed
  }

  /** The events whose first round was clean, at any depth, in that order, and whether they got a second one. */
  function Repeats<N, H>(log: seq<Entry<N, H>>): seq<Occasion<N>>
    decreases log, 0
  {
    if log == [] then [] else Repeats(Front(log)) + EntryRepeats(Last(log))
  }

  function EntryRepeats<N, H>(e: Entry<N, H>): seq<Occasion<N>>
    decreases e, 0
  {
    if e.Subscription? || e.rounds == [] then []
    else RoundRepeats(e.rounds[0].calls)
         + (if Clean(e.rounds[0].calls) then [Occasion(e.name, |e.rounds| == 2)] else [])
         + (if |e.rounds| > 1 then RoundRepeats(e.rounds[1].calls) else [])
  }

  function RoundRepeats<N, H>(round: seq<Call<N, H>>): seq<Occasion<N>>
    decreases round, 0
  {
    if round == [] then [] else RoundRepeats(Front(round)) + Repeats(Last(round).inner)
  }

  ghost predicate RepeatsRight<N, C, H>(r: Rules<N, C, H>, b: Hub<N, H>, m: Hub<N, H>, os: seq<Occasion<N>>) {
    && OnlyFirst(r.options.duplicateFirst, b.duplicated, os)
    && m.duplicated == SpentAfter(r.options.duplicateFirst, b.duplicated, os)
  }

  lemma RepeatsBoth<N, C, H>(r: Rules<N, C, H>, b: Hub<N, H>, m: Hub<N, H>, u: Hub<N, H>, x: seq<Occasion<N>>,
                             y: seq<Occasion<N>>)
    requires RepeatsRight(r, b, m, x) && RepeatsRight(r, m, u, y)
    ensures RepeatsRight(r, b, u, x + y)
  {
    OnlyFirstBoth(r.options.duplicateFirst, b.duplicated, x, y);
  }

  /** In every right log, at any depth: an event is delivered twice if and only if it is the first of the configured
      name whose delivery was complete, and the duplicate was not spent before. */
  lemma {:induction false} FirstIsRepeated<N, C, H>(r: Rules<N, C, H>, b: Hub<N, H>, log: seq<Entry<N, H>>)
    requires AfterLog(r, b, log).Some?
    ensures RepeatsRight(r, b, AfterLog(r, b, log).value, Repeats(log))
    decreases log, 0
  {
    if log != [] {
      var m := AfterLog(r, b, Front(log)).value;
      FirstIsRepeated(r, b, Front(log));
      FirstEntryIsRepeated(r, m, Last(log));
      RepeatsBoth(r, b, m, AfterLog(r, b, log).value, Repeats(Front(log)), EntryRepeats(Last(log)));
    }
  }

  lemma {:induction false} FirstEntryIsRepeated<N, C, H>(r: Rules<N, C, H>, b: Hub<N, H>, e: Entry<N, H>)
    requires AfterEntry(r, b, e).Some?
    ensures RepeatsRight(r, b, AfterEntry(r, b, e).value, EntryRepeats(e))
    decreases e, 0
  {
    if e.Publication? && e.rounds != [] {
      var hs, first := b.HandlersFor(e.name), e.rounds[0].calls;
      var u := AfterEntry(r, b, e).value;
      FirstInRoundIsRepeated(r, b, e.name, hs, first);
      var m := AfterRound(r, b, e.name, hs, first).value;
      assert Clean(first) <==> Complete(hs, first);
      if Clean(first) {
        var again := |e.rounds| == 2;
        var v := m.(duplicated := m.duplicated || again);
        OneOccasion(r.options.duplicateFirst, m.duplicated, e.name, again);
        RepeatsBoth(r, b, m, v, RoundRepeats(first), [Occasion(e.name, again)]);
        if again {
          FirstInRoundIsRepeated(r, v, e.name, hs, e.rounds[1].calls);
          RepeatsBoth(r, b, v, u, RoundRepeats(first) + [Occasion(e.name, again)], RoundRepeats(e.rounds[1].calls));
        } else {
          assert EntryRepeats(e) == RoundRepeats(first) + [Occasion(e.name, again)];
        }
      } else {
        assert EntryRepeats(e) == RoundRepeats(first);
      }
    }
  }

  lemma {:induction false} FirstInRoundIsRepeated<N, C, H>(
      r: Rules<N, C, H>, b: Hub<N, H>, name: N, hs: seq<H>, round: seq<Call<N, H>>)
    requires AfterRound(r, b, name, hs, round).Some?
    ensures RepeatsRight(r, b, AfterRound(r, b, name, hs, round).value, RoundRepeats(round))
    decreases round, 0
  {
    if round != [] {
      var m := AfterRound(r, b, name, hs, Front(round)).value;
      FirstInRoundIsRepeated(r, b, name, hs, Front(round));
      if !Last(round).injected {
        FirstIsRepeated(r, m, Last(round).inner);
      }
      RepeatsBoth(r, b, m, AfterRound(r, b, name, hs, round).value, RoundRepeats(Front(round)),
                  Repeats(Last(round).inner));
    }
  }

  /** All calls, at any depth, in order: for which event and consumer, and whether the bus failed them itself. */
  function Failures<N, C, H>(consumerOf: H -> C, log: seq<Entry<N, H>>): seq<Occasion<(N, C)>>
    decreases log, 0
  {
    if log == [] then [] else Failures(consumerOf, Front(log)) + EntryFailures(consumerOf, Last(log))
  }

  function EntryFailures<N, C, H>(consumerOf: H -> C, e: Entry<N, H>): seq<Occasion<(N, C)>>
    decreases e, 0
  {
    if e.Subscription? then []
    else (if |e.rounds| > 0 then RoundFailures(consumerOf, e.name, e.rounds[0].calls) else [])
         + (if |e.rounds| > 1 then RoundFailures(consumerOf, e.name, e.rounds[1].calls) else [])
  }

  function RoundFailures<N, C, H>(consumerOf: H -> C, name: N, round: seq<Call<N, H>>): seq<Occasion<(N, C)>>
    decreases round, 0
  {
    if round == [] then []
    else RoundFailures(consumerOf, name, Front(round))
         + ([Occasion((name, consumerOf(Last(round).handler)), Last(round).injected)]
            + Failures(consumerOf, Last(round).inner))
  }

  ghost predicate FailuresRight<N, C, H>(r: Rules<N, C, H>, b: Hub<N, H>, m: Hub<N, H>, os: seq<Occasion<(N, C)>>) {
    && OnlyFirst(r.options.failFirst, b.failed, os)
    && m.failed == SpentAfter(r.options.failFirst, b.failed, os)
  }

  lemma FailuresBoth<N, C, H>(r: Rules<N, C, H>, b: Hub<N, H>, m: Hub<N, H>, u: Hub<N, H>, x: seq<Occasion<(N, C)>>,
                              y: seq<Occasion<(N, C)>>)
    requires FailuresRight(r, b, m, x) && FailuresRight(r, m, u, y)
    ensures FailuresRight(r, b, u, x + y)
  {
    OnlyFirstBoth(r.options.failFirst, b.failed, x, y);
  }

  /** In every right log, at any depth: the bus fails a call itself if and only if it is the first of the configured
      event and consumer, and the failure was not spent before. */
  lemma {:induction false} FirstIsFailed<N, C, H>(r: Rules<N, C, H>, b: Hub<N, H>, log: seq<Entry<N, H>>)
    requires AfterLog(r, b, log).Some?
    ensures FailuresRight(r, b, AfterLog(r, b, log).value, Failures(r.consumerOf, log))
    decreases log, 0
  {
    if log != [] {
      var m := AfterLog(r, b, Front(log)).value;
      FirstIsFailed(r, b, Front(log));
      FirstInEntryIsFailed(r, m, Last(log));
      FailuresBoth(r, b, m, AfterLog(r, b, log).value, Failures(r.consumerOf, Front(log)),
                   EntryFailures(r.consumerOf, Last(log)));
    }
  }

  lemma {:induction false} FirstInEntryIsFailed<N, C, H>(r: Rules<N, C, H>, b: Hub<N, H>, e: Entry<N, H>)
    requires AfterEntry(r, b, e).Some?
    ensures FailuresRight(r, b, AfterEntry(r, b, e).value, EntryFailures(r.consumerOf, e))
    decreases e, 0
  {
    if e.Publication? && e.rounds != [] {
      var hs := b.HandlersFor(e.name);
      assert AfterRounds(r, b, e.name, hs, e.rounds, e.failed).Some?;
      FirstInRoundIsFailed(r, b, e.name, hs, e.rounds[0].calls);
      if |e.rounds| == 2 {
        var m := AfterRound(r, b, e.name, hs, e.rounds[0].calls).value;
        FirstInRoundIsFailed(r, m.(duplicated := true), e.name, hs, e.rounds[1].calls);
        FailuresBoth(r, b, m, AfterEntry(r, b, e).value, RoundFailures(r.consumerOf, e.name, e.rounds[0].calls),
                     RoundFailures(r.consumerOf, e.name, e.rounds[1].calls));
      } else {
        assert EntryFailures(r.consumerOf, e) == RoundFailures(r.consumerOf, e.name, e.rounds[0].calls);
      }
    }
  }

  lemma {:induction false} FirstInRoundIsFailed<N, C, H>(
      r: Rules<N, C, H>, b: Hub<N, H>, name: N, hs: seq<H>, round: seq<Call<N, H>>)
    requires AfterRound(r, b, name, hs, round).Some?
    ensures FailuresRight(r, b, AfterRound(r, b, name, hs, round).value, RoundFailures(r.consumerOf, name, round))
    decreases round, 0
  {
    if round != [] {
      var c, m := Last(round), AfterRound(r, b, name, hs, Front(round)).value;
      var u, key := AfterRound(r, b, name, hs, round).value, (name, r.consumerOf(c.handler));
      FirstInRoundIsFailed(r, b, name, hs, Front(round));
      assert AfterCall(r, m, name, c) == Some(u);
      var v := m.(failed := m.failed || c.injected);
      OneOccasion(r.options.failFirst, m.failed, key, c.injected);
      if !c.injected {
        FirstIsFailed(r, m, c.inner);
      }
      FailuresBoth(r, m, v, u, [Occasion(key, c.injected)], Failures(r.consumerOf, c.inner));
      FailuresBoth(r, b, m, u, RoundFailures(r.consumerOf, name, Front(round)),
                   [Occasion(key, c.injected)] + Failures(r.consumerOf, c.inner));
    }
  }

  /** Who subscribed to `name`, in order, at any depth. */
  function SubscribedTo<N(==), H>(log: seq<Entry<N, H>>, name: N): seq<H>
    decreases log, 0
  {
    if log == [] then [] else SubscribedTo(Front(log), name) + EntrySubscribed(Last(log), name)
  }

  function EntrySubscribed<N(==), H>(e: Entry<N, H>, name: N): seq<H>
    decreases e, 0
  {
    if e.Subscription? then (if e.name == name then [e.handler] else [])
    else (if |e.rounds| > 0 then RoundSubscribed(e.rounds[0].calls, name) else [])
         + (if |e.rounds| > 1 then RoundSubscribed(e.rounds[1].calls, name) else [])
  }

  function RoundSubscribed<N(==), H>(round: seq<Call<N, H>>, name: N): seq<H>
    decreases round, 0
  {
    if round == [] then [] else RoundSubscribed(Front(round), name) + SubscribedTo(Last(round).inner, name)
  }

  /** The subscriptions to an event are all that were ever made to it, in order. */
  lemma {:induction false} SubscriptionsInOrder<N, C, H>(r: Rules<N, C, H>, b: Hub<N, H>, log: seq<Entry<N, H>>,
                                                         name: N)
    requires AfterLog(r, b, log).Some?
    ensures AfterLog(r, b, log).value.HandlersFor(name) == b.HandlersFor(name) + SubscribedTo(log, name)
    decreases log, 0
  {
    if log != [] {
      SubscriptionsInOrder(r, b, Front(log), name);
      var m := AfterLog(r, b, Front(log)).value;
      EntrySubscriptions(r, m, Last(log), name);
      Associative(b.HandlersFor(name), SubscribedTo(Front(log), name), EntrySubscribed(Last(log), name));
    } else {
      assert b.HandlersFor(name) + [] == b.HandlersFor(name);
    }
  }

  lemma Associative<T>(x: seq<T>, y: seq<T>, z: seq<T>)
    ensures (x + y) + z == x + (y + z)
  {
  }

  lemma {:induction false} EntrySubscriptions<N, C, H>(r: Rules<N, C, H>, b: Hub<N, H>, e: Entry<N, H>, name: N)
    requires AfterEntry(r, b, e).Some?
    ensures AfterEntry(r, b, e).value.HandlersFor(name) == b.HandlersFor(name) + EntrySubscribed(e, name)
    decreases e, 0
  {
    if e.Publication? && e.rounds != [] {
      var hs := b.HandlersFor(e.name);
      assert AfterRounds(r, b, e.name, hs, e.rounds, e.failed).Some?;
      RoundSubscriptions(r, b, e.name, hs, e.rounds[0].calls, name);
      if |e.rounds| == 2 {
        var m := AfterRound(r, b, e.name, hs, e.rounds[0].calls).value;
        RoundSubscriptions(r, m.(duplicated := true), e.name, hs, e.rounds[1].calls, name);
      }
    }
  }

  lemma {:induction false} RoundSubscriptions<N, C, H>(
      r: Rules<N, C, H>, b: Hub<N, H>, event: N, hs: seq<H>, round: seq<Call<N, H>>, name: N)
    requires AfterRound(r, b, event, hs, round).Some?
    ensures AfterRound(r, b, event, hs, round).value.HandlersFor(name)
            == b.HandlersFor(name) + RoundSubscribed(round, name)
    decreases round, 0
  {
    if round != [] {
      RoundSubscriptions(r, b, event, hs, Front(round), name);
      var m := AfterRound(r, b, event, hs, Front(round)).value;
      if !Last(round).injected {
        SubscriptionsInOrder(r, m, Last(round).inner, name);
      }
    }
  }

  function HandlersOf<N, H>(round: seq<Call<N, H>>): seq<H> {
    seq(|round|, i requires 0 <= i < |round| => round[i].handler)
  }

  /** The calls are `hs` in order up to the first failure. */
  ghost predicate UpToFirstFailure<N, H>(hs: seq<H>, round: seq<Call<N, H>>) {
    && HandlersOf(round) <= hs && Ended(hs, round)
    && forall i :: 0 <= i < |round| - 1 ==> !round[i].failed
  }

  lemma {:induction false} RoundInOrder<N, C, H>(
      r: Rules<N, C, H>, b: Hub<N, H>, name: N, hs: seq<H>, round: seq<Call<N, H>>)
    requires AfterRound(r, b, name, hs, round).Some?
    ensures HandlersOf(round) <= hs && forall i :: 0 <= i < |round| - 1 ==> !round[i].failed
    decreases round
  {
    if round != [] {
      RoundInOrder(r, b, name, hs, Front(round));
      var calls, front := HandlersOf(round), HandlersOf(Front(round));
      assert calls == front + [Last(round).handler];
      assert hs[..|round|] == hs[..|round| - 1] + [hs[|round| - 1]];
      assert front == hs[..|round| - 1];
      assert forall i :: 0 <= i < |round| - 1 ==> round[i] == Front(round)[i];
    }
  }

  /** What may be called for a published event when `hs` have subscribed to it: all of them in order, up to the first
      failure; once more only if the first round was complete; and success means that every round was complete. */
  ghost predicate InOrder<N, H>(hs: seq<H>, e: Entry<N, H>) {
    e.Publication? ==>
      && |e.rounds| <= 2
      && (forall i :: 0 <= i < |e.rounds| ==> UpToFirstFailure(hs, e.rounds[i].calls))
      && (|e.rounds| == 2 ==> Complete(hs, e.rounds[0].calls))
      && (!e.failed ==> e.rounds != [] && forall i :: 0 <= i < |e.rounds| ==> Complete(hs, e.rounds[i].calls))
  }

  lemma EntryInOrder<N, C, H>(r: Rules<N, C, H>, b: Hub<N, H>, e: Entry<N, H>)
    requires AfterEntry(r, b, e).Some? && e.Publication?
    ensures InOrder(b.HandlersFor(e.name), e)
    ensures |e.rounds| == 2 ==> r.Duplicates(e.name) && !b.duplicated && AfterEntry(r, b, e).value.duplicated
  {
    var hs := b.HandlersFor(e.name);
    assert AfterRounds(r, b, e.name, hs, e.rounds, e.failed).Some?;
    if e.rounds != [] {
      RoundInOrder(r, b, e.name, hs, e.rounds[0].calls);
      if |e.rounds| == 2 {
        var m := AfterRound(r, b, e.name, hs, e.rounds[0].calls).value;
        RoundFaults(r, b, e.name, hs, e.rounds[0].calls);
        RoundInOrder(r, m.(duplicated := true), e.name, hs, e.rounds[1].calls);
        RoundFaults(r, m.(duplicated := true), e.name, hs, e.rounds[1].calls);
      }
    }
  }

  /** What was called for an event: everyone who had subscribed to it before, in order, up to the first failure; twice
      only if the duplicate was meant for this event and had not been spent before. */
  lemma PublishedInOrder<N, C, H>(r: Rules<N, C, H>, b: Hub<N, H>, log: seq<Entry<N, H>>, k: nat)
    requires AfterLog(r, b, log).Some? && k < |log| && log[k].Publication?
    ensures InOrder(b.HandlersFor(log[k].name) + SubscribedTo(log[..k], log[k].name), log[k])
    ensures |log[k].rounds| == 2 ==> r.Duplicates(log[k].name) && !b.duplicated && Repetitions(log[..k]) == 0
  {
    AfterPrefix(r, b, log, k);
    AfterPrefix(r, b, log, k + 1);
    assert Front(log[..k + 1]) == log[..k] && Last(log[..k + 1]) == log[k];
    var m := AfterLog(r, b, log[..k]).value;
    assert AfterEntry(r, m, log[k]).Some?;
    hide InOrder, AfterLog, AfterEntry;
    EntryInOrder(r, m, log[k]);
    SubscriptionsInOrder(r, b, log[..k], log[k].name);
    FaultsHappenOnce(r, b, log[..k]);
  }

  lemma {:induction false} AfterPrefix<N, C, H>(r: Rules<N, C, H>, b: Hub<N, H>, log: seq<Entry<N, H>>, k: nat)
    requires AfterLog(r, b, log).Some? && k <= |log|
    ensures AfterLog(r, b, log[..k]).Some?
  {
    if k < |log| {
      assert Front(log)[..k] == log[..k];
      AfterPrefix(r, b, Front(log), k);
    } else {
      assert log[..k] == log;
    }
  }

  /** What happens while a handler runs is right in the same sense, so all of the above holds at any depth. */
  lemma {:induction false} InnerLogIsRight<N, C, H>(
      r: Rules<N, C, H>, b: Hub<N, H>, name: N, hs: seq<H>, round: seq<Call<N, H>>, i: nat)
    requires AfterRound(r, b, name, hs, round).Some? && i < |round|
    ensures AfterRound(r, b, name, hs, round[..i]).Some?
    ensures round[i].injected ==> round[i].inner == []
    ensures !round[i].injected ==> AfterLog(r, AfterRound(r, b, name, hs, round[..i]).value, round[i].inner).Some?
    decreases round
  {
    if i < |round| - 1 {
      InnerLogIsRight(r, b, name, hs, Front(round), i);
      assert Front(round)[..i] == round[..i];
    }
  }

  // ---- Order at every depth ----

  /** Who is subscribed once `log` has happened. */
  ghost function Since<N(!new), H>(before: N -> seq<H>, log: seq<Entry<N, H>>): N -> seq<H> {
    n => before(n) + SubscribedTo(log, n)
  }

  ghost function SinceRound<N(!new), H>(before: N -> seq<H>, round: seq<Call<N, H>>): N -> seq<H> {
    n => before(n) + RoundSubscribed(round, n)
  }

  /** Every publish, also those made while handlers run, is delivered in order to those subscribed at that moment. */
  ghost predicate OrderlyLog<N(!new), H>(before: N -> seq<H>, log: seq<Entry<N, H>>)
    decreases log, 0
  {
    forall k :: 0 <= k < |log| ==> OrderlyEntry(Since(before, log[..k]), log[k])
  }

  ghost predicate OrderlyEntry<N(!new), H>(before: N -> seq<H>, e: Entry<N, H>)
    decreases e, 0
  {
    e.Publication? ==>
      && InOrder(before(e.name), e)
      && (|e.rounds| > 0 ==> OrderlyRound(before, e.rounds[0].calls))
      && (|e.rounds| > 1 ==> OrderlyRound(SinceRound(before, e.rounds[0].calls), e.rounds[1].calls))
  }

  ghost predicate OrderlyRound<N(!new), H>(before: N -> seq<H>, round: seq<Call<N, H>>)
    decreases round, 0
  {
    forall j :: 0 <= j < |round| ==> OrderlyLog(SinceRound(before, round[..j]), round[j].inner)
  }

  /** Right logs are orderly, at every depth. */
  lemma {:induction false} RightLogsAreOrderly<N(!new), C, H>(
      r: Rules<N, C, H>, b: Hub<N, H>, log: seq<Entry<N, H>>, before: N -> seq<H>)
    requires AfterLog(r, b, log).Some? && forall n :: before(n) == b.HandlersFor(n)
    ensures OrderlyLog(before, log)
    decreases log, 0
  {
    forall k | 0 <= k < |log| ensures OrderlyEntry(Since(before, log[..k]), log[k]) {
      AfterPrefix(r, b, log, k);
      AfterPrefix(r, b, log, k + 1);
      assert Front(log[..k + 1]) == log[..k] && Last(log[..k + 1]) == log[k];
      var m := AfterLog(r, b, log[..k]).value;
      forall n ensures Since(before, log[..k])(n) == m.HandlersFor(n) {
        SubscriptionsInOrder(r, b, log[..k], n);
      }
      RightEntriesAreOrderly(r, m, log[k], Since(before, log[..k]));
    }
  }

  lemma {:induction false} RightEntriesAreOrderly<N(!new), C, H>(
      r: Rules<N, C, H>, b: Hub<N, H>, e: Entry<N, H>, before: N -> seq<H>)
    requires AfterEntry(r, b, e).Some? && forall n :: before(n) == b.HandlersFor(n)
    ensures OrderlyEntry(before, e)
    decreases e, 0
  {
    if e.Publication? && e.rounds != [] {
      var hs := b.HandlersFor(e.name);
      EntryInOrder(r, b, e);
      assert AfterRounds(r, b, e.name, hs, e.rounds, e.failed).Some?;
      RightRoundsAreOrderly(r, b, e.name, hs, e.rounds[0].calls, before);
      if |e.rounds| == 2 {
        var m := AfterRound(r, b, e.name, hs, e.rounds[0].calls).value;
        forall n ensures SinceRound(before, e.rounds[0].calls)(n) == m.HandlersFor(n) {
          RoundSubscriptions(r, b, e.name, hs, e.rounds[0].calls, n);
        }
        RightRoundsAreOrderly(r, m.(duplicated := true), e.name, hs, e.rounds[1].calls,
                              SinceRound(before, e.rounds[0].calls));
      }
    }
  }

  lemma {:induction false} RightRoundsAreOrderly<N(!new), C, H>(
      r: Rules<N, C, H>, b: Hub<N, H>, name: N, hs: seq<H>, round: seq<Call<N, H>>, before: N -> seq<H>)
    requires AfterRound(r, b, name, hs, round).Some? && forall n :: before(n) == b.HandlersFor(n)
    ensures OrderlyRound(before, round)
    decreases round, 0
  {
    forall j | 0 <= j < |round| ensures OrderlyLog(SinceRound(before, round[..j]), round[j].inner) {
      InnerLogIsRight(r, b, name, hs, round, j);
      if !round[j].injected {
        var m := AfterRound(r, b, name, hs, round[..j]).value;
        forall n ensures SinceRound(before, round[..j])(n) == m.HandlersFor(n) {
          RoundSubscriptions(r, b, name, hs, round[..j], n);
        }
        RightLogsAreOrderly(r, m, round[j].inner, SinceRound(before, round[..j]));
      }
    }
  }

  // ---- How deep publishing goes ----

  function Max(a: nat, b: nat): nat {
    if a < b then b else a
  }

  /** How many publishes were open at once, at most. */
  function Depth<N, H>(log: seq<Entry<N, H>>): nat
    decreases log, 0
  {
    if log == [] then 0 else Max(Depth(Front(log)), EntryDepth(Last(log)))
  }

  function EntryDepth<N, H>(e: Entry<N, H>): nat
    decreases e, 0
  {
    if e.Subscription? then 0
    else 1 + Max(if |e.rounds| > 0 then RoundDepth(e.rounds[0].calls) else 0,
                 if |e.rounds| > 1 then RoundDepth(e.rounds[1].calls) else 0)
  }

  function RoundDepth<N, H>(round: seq<Call<N, H>>): nat
    decreases round, 0
  {
    if round == [] then 0 else Max(RoundDepth(Front(round)), Depth(Last(round).inner))
  }

  /** Every publish is of a lower rank than the publish it happens in, and than `bound`. */
  predicate Below<N, H>(rank: N -> nat, log: seq<Entry<N, H>>, bound: nat)
    decreases log, 0
  {
    log == [] || (Below(rank, Front(log), bound) && EntryBelow(rank, Last(log), bound))
  }

  predicate EntryBelow<N, H>(rank: N -> nat, e: Entry<N, H>, bound: nat)
    decreases e, 0
  {
    e.Publication? ==>
      && rank(e.name) < bound
      && (|e.rounds| > 0 ==> RoundBelow(rank, e.rounds[0].calls, rank(e.name)))
      && (|e.rounds| > 1 ==> RoundBelow(rank, e.rounds[1].calls, rank(e.name)))
  }

  predicate RoundBelow<N, H>(rank: N -> nat, round: seq<Call<N, H>>, bound: nat)
    decreases round, 0
  {
    round == [] || (RoundBelow(rank, Front(round), bound) && Below(rank, Last(round).inner, bound))
  }

  lemma {:induction false} DepthIsBounded<N, H>(rank: N -> nat, log: seq<Entry<N, H>>, bound: nat)
    requires Below(rank, log, bound)
    ensures Depth(log) <= bound
    decreases log, 0
  {
    if log != [] {
      DepthIsBounded(rank, Front(log), bound);
      EntryDepthIsBounded(rank, Last(log), bound);
    }
  }

  lemma {:induction false} EntryDepthIsBounded<N, H>(rank: N -> nat, e: Entry<N, H>, bound: nat)
    requires EntryBelow(rank, e, bound)
    ensures EntryDepth(e) <= bound
    decreases e, 0
  {
    if e.Publication? {
      if |e.rounds| > 0 {
        RoundDepthIsBounded(rank, e.rounds[0].calls, rank(e.name));
      }
      if |e.rounds| > 1 {
        RoundDepthIsBounded(rank, e.rounds[1].calls, rank(e.name));
      }
    }
  }

  lemma {:induction false} RoundDepthIsBounded<N, H>(rank: N -> nat, round: seq<Call<N, H>>, bound: nat)
    requires RoundBelow(rank, round, bound)
    ensures RoundDepth(round) <= bound
    decreases round, 0
  {
    if round != [] {
      RoundDepthIsBounded(rank, Front(round), bound);
      DepthIsBounded(rank, Last(round).inner, bound);
    }
  }

  lemma {:induction false} BelowBoth<N, H>(rank: N -> nat, x: seq<Entry<N, H>>, y: seq<Entry<N, H>>, bound: nat,
                                           higher: nat)
    requires Below(rank, x, bound) && Below(rank, y, higher) && bound <= higher
    ensures Below(rank, x + y, higher)
    decreases |x| + |y|
  {
    if y != [] {
      assert Front(x + y) == x + Front(y) && Last(x + y) == Last(y);
      BelowBoth(rank, x, Front(y), bound, higher);
    } else if x != [] {
      assert x + y == x && Front(x) + [] == Front(x);
      BelowBoth(rank, Front(x), [], bound, higher);
    }
  }

  // ---- How a log grows ----

  /** `log'` goes on from `log`, rightly, and takes `b` to `b'`. */
  ghost predicate Advances<N, C, H>(
      r: Rules<N, C, H>, b: Hub<N, H>, log: seq<Entry<N, H>>, b': Hub<N, H>, log': seq<Entry<N, H>>) {
    log <= log' && AfterLog(r, b, log'[|log|..]) == Some(b')
  }

  lemma Stays<N, C, H>(r: Rules<N, C, H>, b: Hub<N, H>, log: seq<Entry<N, H>>)
    ensures Advances(r, b, log, b, log)
  {
    assert log[|log|..] == [];
  }

  lemma AdvancesByOne<N, C, H>(
      r: Rules<N, C, H>, b: Hub<N, H>, log: seq<Entry<N, H>>, b': Hub<N, H>, log': seq<Entry<N, H>>, e: Entry<N, H>)
    requires log' == log + [e] && AfterEntry(r, b, e) == Some(b')
    ensures Advances(r, b, log, b', log')
  {
    AfterOne(r, b, e);
    assert log'[|log|..] == [e];
  }

  lemma AdvancesOn<N, C, H>(
      r: Rules<N, C, H>, b: Hub<N, H>, log: seq<Entry<N, H>>, b': Hub<N, H>, log': seq<Entry<N, H>>,
      b'': Hub<N, H>, log'': seq<Entry<N, H>>)
    requires Advances(r, b, log, b', log') && Advances(r, b', log', b'', log'')
    ensures Advances(r, b, log, b'', log'')
  {
    AfterBoth(r, b, log'[|log|..], log''[|log'|..]);
    assert log''[|log|..] == log'[|log|..] + log''[|log'|..];
  }

  lemma NoCalls<N, C, H>(r: Rules<N, C, H>, b: Hub<N, H>, name: N, hs: seq<H>)
    ensures AfterRound(r, b, name, hs, []) == Some(b)
  {
  }

  /** A round goes on with one more call. */
  lemma RoundGoesOn<N, C, H>(
      r: Rules<N, C, H>, b: Hub<N, H>, name: N, hs: seq<H>, round: seq<Call<N, H>>, c: Call<N, H>,
      m: Hub<N, H>, b': Hub<N, H>)
    requires AfterRound(r, b, name, hs, round) == Some(m) && |round| < |hs| && Complete(hs[..|round|], round)
    requires c.handler == hs[|round|] && AfterCall(r, m, name, c) == Some(b')
    ensures AfterRound(r, b, name, hs, round + [c]) == Some(b')
    ensures Ended(hs, round + [c]) <==> c.failed || |round| + 1 == |hs|
    ensures !c.failed ==> Complete(hs[..|round| + 1], round + [c])
  {
    assert Front(round + [c]) == round && Last(round + [c]) == c;
  }
}
