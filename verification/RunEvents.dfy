/** The bounded event queue the adapters' runs share, and the numbering of the events put into it. */
module RunEvents {
  import opened Prelude
  import opened Contracts
  import opened PortableTrace

  /** `delivered`: events handed to the single consumer; `parked`: it is waiting for the next one. */
  datatype Queue = Queue(delivered: seq<Event>, values: seq<Event>, closed: bool, parked: bool)

  function Empty(): Queue {
    Queue([], [], false, false)
  }

  /** Everything the consumer gets if it keeps reading. */
  function Trace(q: Queue): seq<Event> {
    q.delivered + q.values
  }

  /** The last slot is kept free for the terminal event. */
  function Pushed(q: Queue, e: Event, capacity: nat): (Queue, bool) {
    if q.closed then (q, false)
    else if q.parked then (q.(delivered := q.delivered + [e], parked := false), true)
    else if |q.values| + 1 >= capacity then (q, false)
    else (q.(values := q.values + [e]), true)
  }

  function PushedTerminal(q: Queue, e: Event): Queue {
    if q.parked then q.(delivered := q.delivered + [e], parked := false) else q.(values := q.values + [e])
  }

  function Closed(q: Queue): Queue {
    q.(closed := true)
  }

  /** The consumer asks for the next event. */
  function Asked(q: Queue): Queue {
    if q.values != [] then q.(delivered := q.delivered + [q.values[0]], values := q.values[1..])
    else q.(parked := !q.closed || q.parked)
  }

  ghost predicate QueueInv(q: Queue) {
    q.parked ==> q.values == []
  }

  lemma QueueSteps(q: Queue, e: Event, capacity: nat)
    requires QueueInv(q)
    ensures var (after, taken) := Pushed(q, e, capacity);
      QueueInv(after) && Trace(after) == if taken then Trace(q) + [e] else Trace(q)
    ensures QueueInv(PushedTerminal(q, e)) && Trace(PushedTerminal(q, e)) == Trace(q) + [e]
    ensures QueueInv(Closed(q)) && Trace(Closed(q)) == Trace(q)
    ensures QueueInv(Asked(q)) && Trace(Asked(q)) == Trace(q)
  {
  }

  // ---------------------------------------------------------------- a run's outgoing side

  /** Identifier prefix, number of the next event, queue, and the settled status once there is one. */
  datatype Outlet = Outlet(prefix: string, next: nat, queue: Queue, final: Option<Status>)

  function Opened(prefix: string): Outlet {
    Outlet(prefix, 0, Empty(), None)
  }

  /** A number is spent even when the queue has no room. Nothing is emitted once settled. */
  function Emitted(o: Outlet, kind: EventType, capacity: nat): (Outlet, bool) {
    if o.final.Some? then (o, true)
    else
      var (queue, taken) := Pushed(o.queue, Stamped(o.prefix, kind, o.next), capacity);
      (o.(next := o.next + 1, queue := queue), taken)
  }

  /** An event for which there is always room. */
  function EmittedAnyway(o: Outlet, kind: EventType): Outlet {
    if o.final.Some? then o
    else o.(next := o.next + 1, queue := PushedTerminal(o.queue, Stamped(o.prefix, kind, o.next)))
  }

  /** Settle, with an event of the given type as the last one. */
  function Finished(o: Outlet, status: Status, kind: EventType): Outlet {
    if o.final.Some? then o
    else
      o.(next := o.next + 1, final := Some(status),
         queue := Closed(PushedTerminal(o.queue, Stamped(o.prefix, kind, o.next))))
  }

  function Read(o: Outlet): Outlet {
    o.(queue := Asked(o.queue))
  }

  /** Live until settled; afterwards the trace is valid and agrees with the settled status. */
  ghost predicate OutletInv(o: Outlet) {
    && QueueInv(o.queue)
    && if o.final.None? then LiveTrace(o.prefix, Trace(o.queue), o.next)
       else ValidTrace(Trace(o.queue), o.final.value) && o.queue.closed && !o.queue.parked
  }

  lemma OpenedInv(prefix: string)
    ensures OutletInv(Opened(prefix))
  {
  }

  lemma EmittedKeeps(o: Outlet, kind: EventType, capacity: nat)
    requires OutletInv(o) && !IsTerminalType(kind)
    ensures OutletInv(Emitted(o, kind, capacity).0)
    ensures OutletInv(EmittedAnyway(o, kind))
  {
    hide LiveTrace, ValidTrace, Pushed, PushedTerminal, IsTerminalType;
    if o.final.None? {
      QueueSteps(o.queue, Stamped(o.prefix, kind, o.next), capacity);
      LiveTraceGrows(o.prefix, Trace(o.queue), o.next, kind);
    }
  }

  /** The terminal event always fits, overflow or not, and completes a valid trace. */
  lemma FinishedKeeps(o: Outlet, status: Status, kind: EventType)
    requires OutletInv(o) && kind == TerminalType(status)
    ensures OutletInv(Finished(o, status, kind))
    ensures Finished(o, status, kind).final == if o.final.Some? then o.final else Some(status)
  {
    if o.final.None? {
      var e := Stamped(o.prefix, kind, o.next);
      QueueSteps(o.queue, e, 0);
      QueueSteps(PushedTerminal(o.queue, e), e, 0);
      LiveTraceEnds(o.prefix, Trace(o.queue), o.next, status);
      hide LiveTrace, ValidTrace, Trace, Stamped;
    }
  }

  lemma ReadKeeps(o: Outlet)
    requires OutletInv(o)
    ensures OutletInv(Read(o)) && Trace(Read(o).queue) == Trace(o.queue) && Read(o).final == o.final
  {
    QueueSteps(o.queue, Stamped(o.prefix, Provider, 0), 0);
    hide LiveTrace, ValidTrace, Trace;
  }

  /** The queue object of the DSH, Codex and Hermes adapters. */
  class EventQueue {
    const capacity: nat
    var values: seq<Event>
    var closed: bool
    var waiter: bool
    ghost var delivered: seq<Event>

    ghost function State(): Queue
      reads this
    {
      Queue(delivered, values, closed, waiter)
    }

    constructor (capacity: nat)
      ensures State() == Empty() && QueueInv(State()) && this.capacity == capacity
    {
      this.capacity, values, closed, waiter, delivered := capacity, [], false, false, [];
    }

    method Push(e: Event) returns (accepted: bool)
      modifies this
      ensures (State(), accepted) == Pushed(old(State()), e, capacity)
      ensures old(QueueInv(State())) ==> QueueInv(State())
    {
      if closed {
        return false;
      }
      if waiter {
        waiter, delivered := false, delivered + [e];
        return true;
      }
      if |values| >= capacity - 1 {
        return false;
      }
      values := values + [e];
      return true;
    }

    method PushTerminal(e: Event)
      modifies this
      ensures State() == PushedTerminal(old(State()), e)
      ensures old(QueueInv(State())) ==> QueueInv(State())
    {
      if waiter {
        waiter, delivered := false, delivered + [e];
        return;
      }
      values := values + [e];
    }

    method Close()
      modifies this
      ensures State() == Closed(old(State()))
      ensures old(QueueInv(State())) ==> QueueInv(State())
    {
      closed := true;
    }

    /** None when the queue is exhausted or the reader has to wait; `waiter` tells the two apart. */
    method Next() returns (e: Option<Event>)
      modifies this
      ensures State() == Asked(old(State()))
      ensures old(QueueInv(State())) ==> QueueInv(State())
      ensures e == if old(values) != [] then Some(old(values)[0]) else None
    {
      if values != [] {
        e := Some(values[0]);
        delivered := delivered + [values[0]];
        values := values[1..];
        return;
      }
      if !closed {
        waiter := true;
      }
      return None;
    }

    /** A consumer that reads a closed queue to its end has seen the whole trace. */
    method Drain() returns (rest: seq<Event>)
      requires closed
      modifies this
      ensures old(delivered) + rest == delivered == old(Trace(State())) && values == []
    {
      rest := [];
      while true
        invariant closed && waiter == old(waiter)
        invariant delivered == old(delivered) + rest && delivered + values == old(Trace(State()))
        decreases |values|
      {
        var e := Next();
        if e.None? {
          return;
        }
        rest := rest + [e.value];
      }
    }
  }

  /** The host reads on until the queue ends and hands everything it got to the validator, which accepts it. */
  method CollectSettled(queue: EventQueue, already: seq<Event>, status: Status,
        ghost o: Outlet)
    returns (flaw: Option<Flaw>)
    requires OutletInv(o) && o.final == Some(status) && queue.State() == o.queue && queue.delivered == already
    modifies queue
    ensures flaw.None? && queue.delivered == Trace(o.queue)
  {
    hide ValidTrace;
    var rest := queue.Drain();
    flaw := ValidatePortableRunTrace(already + rest, status);
  }
}
