/** Everything the process cannot decide: faults, fresh ids, the clock and the gateway's replies. */
module Environment {
  import opened Text
  import opened Entities
  import opened Tables
  import opened Outbox

  /** The four functions are arbitrary, so a result proved for every `World` holds for every schedule of faults
      and every list of replies. */
  class World {
    const faulty: nat -> bool      // whether the k-th operation that can fail does
    const freshId: nat -> string   // the k-th answer of the id generator
    const clock: nat -> Time
    const replies: nat -> Reply    // the gateway's answer to its k-th call
    var tick: nat
    var calls: seq<GatewayCall>

    constructor (faulty: nat -> bool, freshId: nat -> string, clock: nat -> Time, replies: nat -> Reply)
      ensures tick == 0 && calls == []
      ensures this.faulty == faulty && this.freshId == freshId && this.clock == clock && this.replies == replies
    {
      this.faulty, this.freshId, this.clock, this.replies := faulty, freshId, clock, replies;
      tick, calls := 0, [];
    }

    /** No operation fails any more. */
    ghost predicate Quiet()
      reads this`tick
    {
      forall k :: k >= tick ==> !faulty(k)
    }

    /** The ids still to come are well formed, pairwise different and unknown to `d`. */
    ghost predicate FreshFor(d: Data)
      reads this`tick
    {
      IdsFresh(freshId, tick, d)
    }

    method Fault() returns (fails: bool)
      modifies this`tick
      ensures tick == old(tick) + 1
      ensures fails == faulty(old(tick))
    {
      fails := faulty(tick);
      tick := tick + 1;
    }

    method NewId() returns (id: string)
      modifies this`tick
      ensures tick == old(tick) + 1
      ensures id == freshId(old(tick))
    {
      id := freshId(tick);
      tick := tick + 1;
    }

    method Now() returns (now: Time)
      modifies this`tick
      ensures tick == old(tick) + 1
      ensures now == clock(old(tick))
    {
      now := clock(tick);
      tick := tick + 1;
    }

    /** The log tells what the gateway replied. */
    ghost predicate Logged()
      reads this`calls
    {
      forall k :: 0 <= k < |calls| ==> calls[k].reply == replies(k)
    }

    /** One call of the payment gateway. It happens outside the database and no rollback takes it back. The attempt
        number is noted in the log; the gateway is not told. */
    method Process(request: GatewayRequest, attemptNumber: int) returns (reply: Reply)
      requires Logged()
      modifies this`calls
      ensures Logged()
      ensures reply == replies(|old(calls)|) && calls == old(calls) + [GatewayCall(request, attemptNumber, reply)]
    {
      reply := replies(|calls|);
      calls := calls + [GatewayCall(request, attemptNumber, reply)];
    }
  }

  predicate IsUsableId(id: string) {
    id != "" && Trimmed(id)
  }

  /** Nothing in the database is stored under `id`. */
  predicate Unknown(d: Data, id: string) {
    id !in d.books.invoices && id !in d.books.billings && id !in d.books.payments && id !in d.outbox
  }

  ghost predicate IdsFresh(freshId: nat -> string, tick: nat, d: Data) {
    && (forall k :: k >= tick ==> IsUsableId(freshId(k)) && Unknown(d, freshId(k)))
    && (forall j, k :: tick <= j < k ==> freshId(j) != freshId(k))
  }

  /** Ids stay fresh while time passes and nothing new is stored. */
  lemma IdsStayFresh(freshId: nat -> string, t: nat, d: Data, t': nat, d': Data)
    requires t <= t' && d'.outbox.Keys == d.outbox.Keys && d'.books.payments.Keys == d.books.payments.Keys
    requires d'.books.billings.Keys == d.books.billings.Keys && d'.books.invoices.Keys == d.books.invoices.Keys
    ensures IdsFresh(freshId, t, d) ==> IdsFresh(freshId, t', d')
  {
  }

  lemma NextIdIsFresh(freshId: nat -> string, t: nat, d: Data)
    ensures IdsFresh(freshId, t, d) ==> IsUsableId(freshId(t)) && Unknown(d, freshId(t))
  {
  }

  /** Ids stay fresh when the next one is used. */
  lemma IdsFreshAfterUse(freshId: nat -> string, t: nat, d: Data, t': nat, d': Data)
    requires t < t'
    ensures IdsFresh(freshId, t, d) && (forall x :: Unknown(d, x) && x != freshId(t) ==> Unknown(d', x)) ==>
              IdsFresh(freshId, t', d')
  {
  }
}
