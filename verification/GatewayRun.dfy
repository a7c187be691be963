/** A DeepSeek Harness Gateway run: its queue with a reserved terminal slot, and admission kept apart from the
    terminal observation. */
module GatewayRun {
  import opened Prelude
  import opened Contracts
  import opened PortableTrace

  /** `delivered`: events the single consumer has been handed. */
  datatype Queue = Queue(delivered: seq<Event>, values: seq<Event>, ended: bool)

  function Trace(q: Queue): seq<Event> {
    q.delivered + q.values
  }

  function Pushed(q: Queue, e: Event, capacity: nat, terminal: bool): (Queue, bool) {
    if q.ended || |q.values| >= capacity - (if terminal then 0 else 1) then (q, false)
    else (q.(values := q.values + [e]), true)
  }

  function Ended(q: Queue): Queue {
    q.(ended := true)
  }

  function Taken(q: Queue): Queue {
    if q.values == [] then q else q.(delivered := q.delivered + [q.values[0]], values := q.values[1..])
  }

  /** `accepted`: the prompt was admitted. `candidate`: the latest terminal observation. `clientOpen`: the
      client has not aborted its connection yet. */
  datatype Run = Run(
    prefix: string, capacity: nat, next: nat, queue: Queue,
    accepted: bool, candidate: Option<RunResult>, final: Option<RunResult>, clientOpen: bool)

  function Started(prefix: string, capacity: nat): Run {
    Received(Run(prefix, capacity, 0, Queue([], [], false), false, None, None, true), [RunStarted], None)
  }

  function Finish(r: Run, result: RunResult): Run {
    if r.final.Some? then r
    else
      var e := Stamped(r.prefix, TerminalType(result.status), r.next);
      r.(final := Some(result), next := r.next + 1, queue := Ended(Pushed(r.queue, e, r.capacity, true).0))
  }

  function Reason(status: Status, reason: string): RunResult {
    RunResult(status, Some(ProviderResult(reason, None)), None, None)
  }

  function Aborted(r: Run, reason: string): Run {
    if r.clientOpen then Finish(r.(clientOpen := false), Reason(ConnectionAborted, reason)) else r
  }

  function Offered(r: Run, kind: EventType): (Run, bool) {
    var (queue, taken) := Pushed(r.queue, Stamped(r.prefix, kind, r.next), r.capacity, false);
    (r.(next := r.next + 1, queue := queue), taken)
  }

  /** Events are queued in order; the first one without room aborts the connection and drops the rest. */
  function Queued(r: Run, kinds: seq<EventType>): (Run, bool)
    decreases |kinds|
  {
    if kinds == [] then (r, true)
    else
      var (offered, taken) := Offered(r, kinds[0]);
      if taken then Queued(offered, kinds[1..]) else (Aborted(offered, "run_event_capacity"), false)
  }

  function Received(r: Run, kinds: seq<EventType>, terminal: Option<RunResult>): Run {
    if r.final.Some? then r
    else
      var (queued, ok) := Queued(r, kinds);
      if !ok || terminal.None? then queued
      else if queued.accepted then Finish(queued.(candidate := terminal), terminal.value)
      else queued.(candidate := terminal)
  }

  function Acknowledged(r: Run): Run {
    var admitted := r.(accepted := true);
    if r.candidate.Some? then Finish(admitted, r.candidate.value) else admitted
  }

  function Rejected(r: Run): Run {
    Finish(r, Reason(Failed, "prompt_rejected"))
  }

  // ---------------------------------------------------------------- every interleaving

  /** `Receive` carries what the session log emitted for one accepted event, never a terminal event type. */
  datatype Op =
    | Receive(kinds: seq<EventType>, terminal: Option<RunResult>)
    | Acknowledge | Reject | Abort(reason: string) | Take

  ghost predicate Portable(op: Op) {
    op.Receive? ==> forall i :: 0 <= i < |op.kinds| ==> !IsTerminalType(op.kinds[i])
  }

  function Step(r: Run, op: Op): Run {
    match op
    case Receive(kinds, terminal) => Received(r, kinds, terminal)
    case Acknowledge => if r.accepted then r else Acknowledged(r)
    case Reject => if r.accepted then r else Rejected(r)
    case Abort(reason) => Aborted(r, reason)
    case Take => r.(queue := Taken(r.queue))
  }

  /** A settled run either took its candidate after admission, or was aborted or rejected. */
  ghost predicate Authority(r: Run) {
    && (r.final.Some? ==>
         || (r.accepted && r.final == r.candidate)
         || r.final.value.status.ConnectionAborted?
         || r.final == Some(Reason(Failed, "prompt_rejected")))
    && (r.accepted && r.candidate.Some? ==> r.final.Some?)
  }

  ghost predicate TraceInv(r: Run) {
    && r.capacity >= 2
    && if r.final.None? then LiveTrace(r.prefix, Trace(r.queue), r.next) && !r.queue.ended
        && |r.queue.values| < r.capacity && r.clientOpen
       else ValidTrace(Trace(r.queue), r.final.value.status) && r.queue.ended
  }

  ghost predicate Inv(r: Run) {
    TraceInv(r) && Authority(r)
  }

  /** The slot kept back always holds the terminal event. */
  lemma FinishTrace(r: Run, result: RunResult)
    requires r.final.None? && r.capacity >= 2
    requires LiveTrace(r.prefix, Trace(r.queue), r.next) && !r.queue.ended && |r.queue.values| < r.capacity
    ensures TraceInv(Finish(r, result))
  {
    LiveTraceEnds(r.prefix, Trace(r.queue), r.next, result.status);
    var e := Stamped(r.prefix, TerminalType(result.status), r.next);
    assert r.queue.delivered + (r.queue.values + [e]) == Trace(r.queue) + [e];
    hide LiveTrace, ValidTrace, Stamped, TerminalType;
  }

  lemma OfferedTrace(r: Run, kind: EventType)
    requires r.final.None? && TraceInv(r) && !IsTerminalType(kind)
    ensures TraceInv(Offered(r, kind).0)
  {
    LiveTraceGrows(r.prefix, Trace(r.queue), r.next, kind);
    var e := Stamped(r.prefix, kind, r.next);
    assert r.queue.delivered + (r.queue.values + [e]) == Trace(r.queue) + [e];
    hide LiveTrace, Stamped;
  }

  lemma {:induction false} QueuedKeeps(r: Run, kinds: seq<EventType>)
    requires r.final.None? && Inv(r) && forall i :: 0 <= i < |kinds| ==> !IsTerminalType(kinds[i])
    ensures var (queued, ok) := Queued(r, kinds);
      Inv(queued) && (ok ==> queued.final.None?) && (!ok ==> queued.final.Some?)
      && queued.accepted == r.accepted && queued.candidate == r.candidate
    decreases |kinds|
  {
    hide TraceInv, IsTerminalType;
    if kinds != [] {
      OfferedTrace(r, kinds[0]);
      var (offered, taken) := Offered(r, kinds[0]);
      if taken {
        QueuedKeeps(offered, kinds[1..]);
      } else {
        AbortedKeeps(offered, "run_event_capacity");
      }
    }
  }

  lemma AbortedKeeps(r: Run, reason: string)
    requires Inv(r)
    ensures Inv(Aborted(r, reason)) && Aborted(r, reason).final.Some?
    ensures Aborted(r, reason).accepted == r.accepted && Aborted(r, reason).candidate == r.candidate
  {
    if r.clientOpen && r.final.None? {
      FinishTrace(r.(clientOpen := false), Reason(ConnectionAborted, reason));
    }
    hide LiveTrace, ValidTrace;
  }

  lemma ReceivedKeeps(r: Run, kinds: seq<EventType>, terminal: Option<RunResult>)
    requires Inv(r) && forall i :: 0 <= i < |kinds| ==> !IsTerminalType(kinds[i])
    ensures Inv(Received(r, kinds, terminal))
  {
    hide LiveTrace, ValidTrace, IsTerminalType;
    if r.final.None? {
      QueuedKeeps(r, kinds);
      var (queued, ok) := Queued(r, kinds);
      if ok && terminal.Some? && queued.accepted {
        FinishTrace(queued.(candidate := terminal), terminal.value);
      }
      hide Queued;
    }
  }

  lemma SettleKeeps(r: Run)
    requires Inv(r)
    ensures Inv(Acknowledged(r))
    ensures !r.accepted ==> Inv(Rejected(r))
  {
    if r.final.None? {
      if r.candidate.Some? {
        FinishTrace(r.(accepted := true), r.candidate.value);
      }
      FinishTrace(r, Reason(Failed, "prompt_rejected"));
    }
    hide LiveTrace, ValidTrace;
  }

  lemma TakenKeeps(r: Run)
    requires Inv(r)
    ensures Inv(r.(queue := Taken(r.queue)))
  {
    assert Trace(Taken(r.queue)) == Trace(r.queue);
    hide LiveTrace, ValidTrace, Trace;
  }

  lemma StepKeeps(r: Run, op: Op)
    requires Inv(r) && Portable(op)
    ensures Inv(Step(r, op))
  {
    hide Inv, Received, Acknowledged, Rejected, Aborted, Taken;
    match op
    case Receive(kinds, terminal) => ReceivedKeeps(r, kinds, terminal);
    case Acknowledge => SettleKeeps(r);
    case Reject => SettleKeeps(r);
    case Abort(reason) => AbortedKeeps(r, reason);
    case Take => TakenKeeps(r);
  }

  lemma StartedKeeps(prefix: string, capacity: nat)
    requires capacity >= 2
    ensures Inv(Started(prefix, capacity))
  {
    var r := Run(prefix, capacity, 0, Queue([], [], false), false, None, None, true);
    assert LiveTrace(prefix, [], 0);
    assert Trace(r.queue) == [];
    ReceivedKeeps(r, [RunStarted], None);
    hide Received;
  }

  function RunOf(r: Run, ops: seq<Op>): Run
    decreases |ops|
  {
    if ops == [] then r else RunOf(Step(r, ops[0]), ops[1..])
  }

  lemma {:induction false} RunKeeps(r: Run, ops: seq<Op>)
    requires Inv(r) && forall i :: 0 <= i < |ops| ==> Portable(ops[i])
    ensures Inv(RunOf(r, ops))
    decreases |ops|
  {
    hide Inv, Step, Portable;
    if ops != [] {
      StepKeeps(r, ops[0]);
      RunKeeps(Step(r, ops[0]), ops[1..]);
    }
  }

  /** However admission, observations, aborts and reading interleave: a settled run's trace is valid and
      complete, and it settles on a turn's outcome only once the prompt was admitted as well. */
  lemma SettledRun(prefix: string, capacity: nat, ops: seq<Op>)
    requires capacity >= 2 && forall i :: 0 <= i < |ops| ==> Portable(ops[i])
    ensures var r := RunOf(Started(prefix, capacity), ops);
      && (r.final.Some? ==> ValidTrace(Trace(r.queue), r.final.value.status) && r.queue.ended)
      && (r.final.Some? && (r.final.value.status.Completed? || r.final.value.status.Cancelled?) ==>
            r.accepted && r.candidate == r.final)
      && (r.accepted && r.candidate.Some? ==> r.final.Some?)
  {
    hide RunOf, ValidTrace, LiveTrace, Portable;
    StartedKeeps(prefix, capacity);
    RunKeeps(Started(prefix, capacity), ops);
  }

  // ---------------------------------------------------------------- the objects

  class GatewayQueue {
    const capacity: nat
    var values: seq<Event>
    var ended: bool
    ghost var delivered: seq<Event>

    ghost function State(): Queue
      reads this
    {
      Queue(delivered, values, ended)
    }

    constructor (capacity: nat)
      ensures State() == Queue([], [], false) && this.capacity == capacity
    {
      this.capacity, values, ended, delivered := capacity, [], false, [];
    }

    method Push(value: Event, terminal: bool) returns (accepted: bool)
      modifies this
      ensures (State(), accepted) == Pushed(old(State()), value, capacity, terminal)
    {
      if ended || |values| >= capacity - (if terminal then 0 else 1) {
        return false;
      }
      values := values + [value];
      return true;
    }

    method End()
      modifies this
      ensures State() == Ended(old(State()))
    {
      ended := true;
    }

    method Take() returns (value: Option<Event>)
      modifies this
      ensures State() == Taken(old(State()))
      ensures value == if old(values) == [] then None else Some(old(values)[0])
    {
      if values == [] {
        return None;
      }
      value := Some(values[0]);
      delivered, values := delivered + [values[0]], values[1..];
    }
  }

  class DshGatewayRun {
    const prefix: string
    const queue: GatewayQueue
    var clientOpen: bool
    var accepted: bool
    var candidate: Option<RunResult>
    var final: Option<RunResult>
    var sequence: nat

    ghost function State(): Run
      reads this, queue
    {
      Run(prefix, queue.capacity, sequence, queue.State(), accepted, candidate, final, clientOpen)
    }

    constructor (prefix: string, capacity: nat)
      requires capacity >= 2
      ensures State() == Started(prefix, capacity) && Inv(State()) && fresh(queue)
    {
      this.prefix := prefix;
      queue := new GatewayQueue(capacity);
      clientOpen, accepted, candidate, final, sequence := true, false, None, None, 0;
      new;
      StartedKeeps(prefix, capacity);
      Receive([RunStarted], None);
    }

    method NextEvent(kind: EventType) returns (e: Event)
      modifies this`sequence
      ensures e == Stamped(prefix, kind, old(sequence)) && sequence == old(sequence) + 1
    {
      e := Stamped(prefix, kind, sequence);
      sequence := sequence + 1;
    }

    method FinishRun(result: RunResult)
      modifies this, queue
      ensures State() == Finish(old(State()), result)
    {
      if final.Some? {
        return;
      }
      final := Some(result);
      var e := NextEvent(TerminalType(result.status));
      var _ := queue.Push(e, true);
      queue.End();
    }

    method AbortClient(reason: string)
      modifies this, queue
      ensures State() == Aborted(old(State()), reason)
      ensures old(Inv(State())) ==> Inv(State())
    {
      hide Inv, Finish;
      if Inv(State()) {
        StepKeeps(State(), Abort(reason));
      }
      if clientOpen {
        clientOpen := false;
        FinishRun(Reason(ConnectionAborted, reason));
      }
    }

    method Receive(kinds: seq<EventType>, terminal: Option<RunResult>)
      modifies this, queue
      ensures State() == Received(old(State()), kinds, terminal)
      ensures old(Inv(State())) && Portable(Op.Receive(kinds, terminal)) ==> Inv(State())
    {
      hide Finish, Aborted, Inv, Portable;
      if Inv(State()) && Portable(Op.Receive(kinds, terminal)) {
        StepKeeps(State(), Op.Receive(kinds, terminal));
      }
      if final.Some? {
        return;
      }
      var i := 0;
      while i < |kinds|
        invariant 0 <= i <= |kinds| && final.None?
        invariant Queued(old(State()), kinds) == Queued(State(), kinds[i..])
      {
        assert kinds[i..][0] == kinds[i] && kinds[i..][1..] == kinds[i + 1..];
        ghost var before := State();
        var e := NextEvent(kinds[i]);
        var taken := queue.Push(e, false);
        assert (State(), taken) == Offered(before, kinds[i]);
        if !taken {
          AbortClient("run_event_capacity");
          return;
        }
        i := i + 1;
      }
      if terminal.Some? {
        candidate := terminal;
        if accepted {
          FinishRun(terminal.value);
        }
      }
    }

    method Acknowledge()
      modifies this, queue
      ensures State() == Acknowledged(old(State()))
      ensures old(Inv(State()) && !accepted) ==> Inv(State())
    {
      hide Inv, Finish;
      if Inv(State()) && !accepted {
        StepKeeps(State(), Op.Acknowledge);
      }
      accepted := true;
      if candidate.Some? {
        FinishRun(candidate.value);
      }
    }

    method Reject()
      modifies this, queue
      ensures State() == Rejected(old(State()))
      ensures old(Inv(State()) && !accepted) ==> Inv(State())
    {
      hide Inv, Finish;
      if Inv(State()) && !accepted {
        StepKeeps(State(), Op.Reject);
      }
      FinishRun(Reason(Failed, "prompt_rejected"));
    }
  }
}
