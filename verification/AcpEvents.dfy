/** The ACP client's event queue with its acknowledgement barrier. */
module AcpEvents {
  import opened Prelude

  datatype Queued<+E> = Queued(event: E, sequence: nat)

  /** `parked`: the consumer waits for an event. `inHand`: the event it is working on. `waiters` maps a
      prompt to the sequence number it waits for, `outcomes` to how its wait ended. `finished` lists the
      events the consumer came back from. */
  datatype Events<!E> = Events(
    closed: bool, sequence: nat, acked: nat, values: seq<Queued<E>>, parked: bool, inHand: Option<Queued<E>>,
    waiters: map<nat, nat>, outcomes: map<nat, bool>, finished: seq<E>)

  function NoEvents<E>(): Events<E> {
    Events(false, 0, 0, [], false, None, map[], map[], [])
  }

  /** A push into a full queue spends its sequence number; one into a closed queue does not. */
  function Pushed<E>(q: Events<E>, e: E, capacity: nat): (Events<E>, bool) {
    var item := Queued(e, q.sequence + 1);
    if q.closed then (q, false)
    else if q.parked then (q.(sequence := q.sequence + 1, parked := false, inHand := Some(item)), true)
    else if |q.values| >= capacity then (q.(sequence := q.sequence + 1), false)
    else (q.(sequence := q.sequence + 1, values := q.values + [item]), true)
  }

  function Reached(waiters: map<nat, nat>, sequence: nat): set<nat> {
    set n | n in waiters && waiters[n] <= sequence
  }

  function Told(outcomes: map<nat, bool>, prompts: set<nat>, outcome: bool): map<nat, bool> {
    map n | n in outcomes.Keys + prompts :: if n in prompts then outcome else outcomes[n]
  }

  function Acknowledged<E>(q: Events<E>, sequence: nat): Events<E> {
    var reached := Reached(q.waiters, sequence);
    q.(acked := sequence, waiters := q.waiters - reached, outcomes := Told(q.outcomes, reached, true))
  }

  /** The consumer asks for the next event, which acknowledges the one in its hands. */
  function Pulled<E>(q: Events<E>): Events<E> {
    if q.parked then q
    else
      var back := if q.inHand.None? then q
                  else Acknowledged(q, q.inHand.value.sequence).(
                    inHand := None, finished := q.finished + [q.inHand.value.event]);
      if q.values != [] then back.(values := q.values[1..], inHand := Some(q.values[0]))
      else back.(parked := !q.closed)
  }

  /** A prompt waits for everything pushed so far. `late`: its deadline has passed; `aborted`: its caller gave up. */
  function Waited<E>(q: Events<E>, prompt: nat, capacity: nat, late: bool, aborted: bool): Events<E> {
    if late then q.(outcomes := q.outcomes[prompt := false])
    else if q.sequence <= q.acked then q.(outcomes := q.outcomes[prompt := true])
    else if q.closed || aborted || |q.waiters| >= capacity then q.(outcomes := q.outcomes[prompt := false])
    else q.(waiters := q.waiters[prompt := q.sequence])
  }

  function Expired<E>(q: Events<E>, prompt: nat): Events<E> {
    if prompt in q.waiters then q.(waiters := q.waiters - {prompt}, outcomes := q.outcomes[prompt := false]) else q
  }

  function Closed<E>(q: Events<E>): Events<E> {
    if q.closed then q
    else
      q.(closed := true, values := [], parked := false, waiters := map[],
          outcomes := Told(q.outcomes, q.waiters.Keys, false))
  }

  /** `emitted`: the events offered to the queue while it was open, the last of which may have been refused. */
  ghost predicate Inv<E>(q: Events<E>, emitted: seq<E>) {
    && q.sequence == |emitted|
    && (var held := q.acked + if q.inHand.Some? then 1 else 0;
        && held + |q.values| <= q.sequence
        && (!q.closed ==> held + |q.values| == q.sequence)
        && (q.inHand.Some? ==> q.inHand.value == Queued(emitted[q.acked], q.acked + 1))
        && (forall i :: 0 <= i < |q.values| ==> q.values[i] == Queued(emitted[held + i], held + i + 1)))
    && q.finished == emitted[..q.acked]
    && (q.parked ==> !q.closed && q.values == [] && q.inHand.None?)
    && (q.closed ==> q.values == [])
    && (forall n :: n in q.waiters ==> !q.closed && q.acked < q.waiters[n] <= q.sequence && n !in q.outcomes)
  }

  lemma PushedKeeps<E>(q: Events<E>, emitted: seq<E>, e: E, capacity: nat)
    requires Inv(q, emitted) && !q.closed
    ensures var (after, taken) := Pushed(q, e, capacity);
      Inv(if taken then after else Closed(after), emitted + [e])
  {
  }

  lemma PulledKeeps<E>(q: Events<E>, emitted: seq<E>)
    requires Inv(q, emitted)
    ensures Inv(Pulled(q), emitted)
    ensures q.acked <= Pulled(q).acked && q.finished <= Pulled(q).finished
  {
  }

  lemma WaitsKeep<E>(q: Events<E>, emitted: seq<E>, prompt: nat, capacity: nat, late: bool, aborted: bool)
    requires Inv(q, emitted)
    ensures prompt !in q.waiters && prompt !in q.outcomes ==> Inv(Waited(q, prompt, capacity, late, aborted), emitted)
    ensures Inv(Expired(q, prompt), emitted) && Inv(Closed(q), emitted)
  {
  }

  /** A wait ends well only at a moment when every event offered before it began has been finished. */
  lemma GoodOutcome<E>(q: Events<E>, emitted: seq<E>, prompt: nat, capacity: nat, late: bool, aborted: bool)
    requires Inv(q, emitted) && prompt !in q.outcomes
    ensures prompt !in q.waiters ==>
      var w := Waited(q, prompt, capacity, late, aborted);
      prompt in w.outcomes && w.outcomes[prompt] ==> q.finished == emitted
    ensures prompt in q.waiters ==>
      var p := Pulled(q);
      prompt in p.outcomes && p.outcomes[prompt] ==> emitted[..q.waiters[prompt]] <= p.finished
    ensures prompt in q.waiters && prompt in Closed(q).outcomes ==> !Closed(q).outcomes[prompt]
  {
  }

  lemma ToldOneMore(outcomes: map<nat, bool>, prompts: set<nat>, n: nat, outcome: bool)
    ensures Told(outcomes, prompts, outcome)[n := outcome] == Told(outcomes, prompts + {n}, outcome)
  {
  }

  /** The client's event queue. */
  class EventQueue<E> {
    const capacity: nat
    var closed: bool
    var sequence: nat
    var acknowledgedSequence: nat
    var values: seq<Queued<E>>
    var waiter: bool
    var barrierWaiters: map<nat, nat>
    var outcomes: map<nat, bool>
    var inHand: Option<Queued<E>>
    ghost var finished: seq<E>
    ghost var emitted: seq<E>

    /** Every event offered while the queue was open is accounted for. */
    ghost predicate Valid()
      reads this
    {
      Inv(State(), emitted)
    }

    ghost function State(): Events<E>
      reads this
    {
      Events(closed, sequence, acknowledgedSequence, values, waiter, inHand, barrierWaiters, outcomes, finished)
    }

    constructor (capacity: nat)
      ensures State() == NoEvents() && Valid() && emitted == [] && this.capacity == capacity
    {
      this.capacity := capacity;
      closed, sequence, acknowledgedSequence, values, waiter := false, 0, 0, [], false;
      barrierWaiters, outcomes, inHand, finished, emitted := map[], map[], None, [], [];
    }

    /** An event refused by a full queue must be followed by closing it. */
    method Push(e: E) returns (accepted: bool)
      requires Valid()
      modifies this
      ensures (State(), accepted) == Pushed(old(State()), e, capacity)
      ensures emitted == if old(closed) then old(emitted) else old(emitted) + [e]
      ensures if accepted || old(closed) then Valid() else Inv(Closed(State()), emitted)
    {
      hide Inv;
      if closed {
        return false;
      }
      PushedKeeps(State(), emitted, e, capacity);
      emitted := emitted + [e];
      sequence := sequence + 1;
      if waiter {
        waiter := false;
        inHand := Some(Queued(e, sequence));
        return true;
      }
      if |values| >= capacity {
        return false;
      }
      values := values + [Queued(e, sequence)];
      return true;
    }

    /** The waiters a sequence number satisfies are released, whatever order they come in. */
    method Acknowledge(upTo: nat)
      modifies this
      ensures State() == Acknowledged(old(State()), upTo) && emitted == old(emitted)
    {
      acknowledgedSequence := upTo;
      var reached := Reached(barrierWaiters, upTo);
      barrierWaiters := barrierWaiters - reached;
      Settle(reached, true);
    }

    method Settle(prompts: set<nat>, outcome: bool)
      modifies this`outcomes
      ensures outcomes == Told(old(outcomes), prompts, outcome)
    {
      var todo := prompts;
      while todo != {}
        invariant todo <= prompts
        invariant outcomes == Told(old(outcomes), prompts - todo, outcome)
      {
        var n := AnyOf(todo);
        ToldOneMore(old(outcomes), prompts - todo, n, outcome);
        assert prompts - (todo - {n}) == prompts - todo + {n};
        todo := todo - {n};
        outcomes := outcomes[n := outcome];
      }
      assert prompts - todo == prompts;
    }

    /** The generator resumes: acknowledge what it yielded last, then take the next event or park. */
    method Pull()
      requires Valid()
      modifies this
      ensures State() == Pulled(old(State())) && Valid() && emitted == old(emitted)
    {
      hide Inv, Reached, Told;
      PulledKeeps(State(), emitted);
      if waiter {
        return;
      }
      if inHand.Some? {
        Acknowledge(inHand.value.sequence);
        finished := finished + [inHand.value.event];
        inHand := None;
      }
      if values != [] {
        inHand := Some(values[0]);
        values := values[1..];
      } else {
        waiter := !closed;
      }
    }

    method WaitForAcknowledgement(prompt: nat, late: bool, aborted: bool)
      requires Valid() && prompt !in barrierWaiters && prompt !in outcomes
      modifies this
      ensures State() == Waited(old(State()), prompt, capacity, late, aborted) && Valid() && emitted == old(emitted)
    {
      hide Inv;
      WaitsKeep(State(), emitted, prompt, capacity, late, aborted);
      var target := sequence;
      if late {
        outcomes := outcomes[prompt := false];
      } else if target <= acknowledgedSequence {
        outcomes := outcomes[prompt := true];
      } else if closed || aborted || |barrierWaiters| >= capacity {
        outcomes := outcomes[prompt := false];
      } else {
        barrierWaiters := barrierWaiters[prompt := target];
      }
    }

    method Close()
      requires Valid() || Inv(Closed(State()), emitted)
      modifies this
      ensures State() == Closed(old(State())) && Valid() && emitted == old(emitted)
    {
      hide Inv, Told;
      if Inv(State(), emitted) {
        WaitsKeep(State(), emitted, 0, 0, false, false);
      }
      if closed {
        return;
      }
      closed, values, waiter := true, [], false;
      Settle(barrierWaiters.Keys, false);
      barrierWaiters := map[];
    }
  }
}
