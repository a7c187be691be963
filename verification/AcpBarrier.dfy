/** The two-layer barrier: the transport's inbound queue and dispatch loop composed with the ACP event queue. */
module AcpBarrier {
  import opened Prelude
  import opened JsonRpcRequests
  import E = AcpEvents

  datatype Config = Config(limits: Limits, inboundCapacity: nat, eventCapacity: nat)

  /** `log` lists the inbound requests and notifications in wire order and whether dispatching each emits an
      event. The dispatch loop has taken `pulled` of them and finished `handled`; `parked`: it waits for the
      next. `covered` counts those handled while the event queue was open. `claimed`: the host reads events. */
  datatype Acp = Acp(
    rpc: Rpc, log: seq<bool>, pulled: nat, handled: nat, parked: bool, covered: nat,
    events: E.Events<nat>, claimed: bool)

  function Initial(): Acp {
    Acp(JsonRpcRequests.Initial(), [], 0, 0, false, 0, E.NoEvents(), false)
  }

  /** The messages of a log that emit events, in order. */
  function Emitting(log: seq<bool>): seq<nat> {
    if log == [] then []
    else Emitting(log[..|log| - 1]) + if log[|log| - 1] then [|log| - 1] else []
  }

  /** The events of the first `k` messages. */
  function EmittedBy(log: seq<bool>, k: nat): seq<nat> {
    Emitting(log[..if k < |log| then k else |log|])
  }

  /** `close()` and `fail()`: event queue and transport go down in one step. */
  function ClientClosed(s: Acp): Acp {
    s.(events := E.Closed(s.events), rpc := Terminated(s.rpc))
  }

  /** A request or notification comes off the wire; a parked dispatch loop takes it at once. */
  function Arrived(cfg: Config, s: Acp, emits: bool): Acp {
    if !s.rpc.open then s
    else
      var fits := s.parked || |s.log| - s.pulled < cfg.inboundCapacity;
      var taken := if s.parked then s.(pulled := s.pulled + 1, parked := false) else s;
      taken.(rpc := Inbound(s.rpc, fits), log := s.log + [emits])
  }

  /** The loop dispatches the message in its hands; an event the queue refuses closes the client. */
  function Handled(cfg: Config, s: Acp): Acp
    requires s.pulled <= |s.log|
  {
    if s.handled >= s.pulled then s
    else
      var next := s.(handled := s.handled + 1, covered := if s.events.closed then s.covered else s.handled + 1);
      if !s.log[s.handled] || s.events.closed then next
      else
        var (events, accepted) := E.Pushed(s.events, s.handled, cfg.eventCapacity);
        if accepted then next.(events := events) else ClientClosed(next.(events := events))
  }

  /** The loop comes back for the next message, which acknowledges what it handled. */
  function LoopPulled(s: Acp): Acp {
    if s.handled != s.pulled || s.parked then s
    else
      var acknowledged := s.(rpc := JsonRpcRequests.Acknowledged(s.rpc, s.handled));
      if !s.rpc.open then acknowledged
      else if |s.log| > s.pulled then acknowledged.(pulled := s.pulled + 1)
      else acknowledged.(parked := true)
  }

  /** The reply with which a prompt was answered, and how many messages preceded it on the wire. */
  function PromptReply(requests: seq<Request>, n: nat): (before: Option<nat>)
    ensures before.Some? ==> n < |requests|
  {
    if n < |requests| && requests[n].waits && requests[n].settlements != []
       && requests[n].settlements[0].Answered? && requests[n].settlements[0].reply.Result?
    then Some(requests[n].settlements[0].before)
    else None
  }

  /** The prompt call goes on after its reply; with the event stream claimed it waits for what was emitted. */
  function Continued(cfg: Config, s: Acp, n: nat, late: bool, aborted: bool): Acp {
    if s.claimed && PromptReply(s.rpc.requests, n).Some? && n !in s.events.outcomes && n !in s.events.waiters
    then s.(events := E.Waited(s.events, n, cfg.eventCapacity, late, aborted))
    else s
  }

  datatype Op =
    | Transport(op: JsonRpcRequests.Op) | Arrive(emits: bool) | Handle | LoopPull
    | Continue(n: nat, late: bool, aborted: bool) | GiveUp(n: nat) | Claim | ConsumerPull | CloseClient

  /** Steps of the request side that do not touch the inbound messages. */
  predicate Passes(op: JsonRpcRequests.Op) {
    !op.Arrive? && !op.Acknowledge?
  }

  ghost predicate LoopInv(cfg: Config, s: Acp) {
    && s.rpc.sequence == |s.log|
    && s.rpc.acked <= s.handled <= s.pulled <= |s.log| && s.pulled <= s.handled + 1
    && (s.parked ==> s.handled == s.pulled == |s.log|)
    && s.covered <= s.handled
    && (!s.events.closed ==> s.covered == s.handled)
    && (s.events.closed ==> !s.rpc.open)
  }

  /** Prompts were answered only after the messages ahead of the reply were handled with the queue open,
      and those waiting wait at least for the events of those messages. */
  ghost predicate PromptInv(requests: seq<Request>, log: seq<bool>, covered: nat, events: E.Events<nat>) {
    && (forall n :: 0 <= n < |requests| && PromptReply(requests, n).Some? ==> PromptReply(requests, n).value <= covered)
    && (forall n :: n in events.waiters ==>
          PromptReply(requests, n).Some? && |EmittedBy(log, PromptReply(requests, n).value)| <= events.waiters[n])
    && (forall n :: n in events.outcomes && events.outcomes[n] ==>
          PromptReply(requests, n).Some? && EmittedBy(log, PromptReply(requests, n).value) <= events.finished)
  }

  ghost predicate Inv(cfg: Config, s: Acp) {
    && JsonRpcRequests.Inv(cfg.limits, s.rpc) && Ordered(s.rpc)
    && LoopInv(cfg, s)
    && E.Inv(s.events, EmittedBy(s.log, s.covered))
    && PromptInv(s.rpc.requests, s.log, s.covered, s.events)
  }

  ghost function Step(cfg: Config, s: Acp, op: Op): Acp
    requires Inv(cfg, s)
  {
    match op
    case Transport(o) => if Passes(o) then s.(rpc := JsonRpcRequests.Step(cfg.limits, s.rpc, o)) else s
    case Arrive(emits) => Arrived(cfg, s, emits)
    case Handle => Handled(cfg, s)
    case LoopPull => LoopPulled(s)
    case Continue(n, late, aborted) => Continued(cfg, s, n, late, aborted)
    case GiveUp(n) => s.(events := E.Expired(s.events, n))
    case Claim => s.(claimed := true)
    case ConsumerPull => s.(events := E.Pulled(s.events))
    case CloseClient => ClientClosed(s)
  }

  // ---------------------------------------------------------------- facts about logs

  lemma {:induction false} EmittedGrows(log: seq<bool>, a: nat, b: nat)
    requires a <= b
    ensures EmittedBy(log, a) <= EmittedBy(log, b)
    decreases b
  {
    if a < b <= |log| {
      EmittedGrows(log, a, b - 1);
      assert log[..b][..b - 1] == log[..b - 1];
    } else if |log| < b {
      if a <= |log| {
        EmittedGrows(log, a, |log|);
      }
    }
  }

  lemma EmittedNext(log: seq<bool>, k: nat)
    requires k < |log|
    ensures EmittedBy(log, k + 1) == if log[k] then EmittedBy(log, k) + [k] else EmittedBy(log, k)
  {
    assert log[..k + 1][..k] == log[..k];
  }

  lemma EmittedAppend(log: seq<bool>, k: nat, emits: bool)
    requires k <= |log|
    ensures EmittedBy(log + [emits], k) == EmittedBy(log, k)
  {
    assert (log + [emits])[..k] == log[..k];
  }

  // ---------------------------------------------------------------- every step keeps the invariant

  /** Request-side steps leave the message counters alone, and an answer given by one was given while open. */
  lemma RequestStep(l: Limits, r: Rpc, op: JsonRpcRequests.Op)
    requires JsonRpcRequests.Inv(l, r) && Passes(op)
    ensures var t := JsonRpcRequests.Step(l, r, op); t.sequence == r.sequence && t.acked == r.acked
    ensures forall n :: 0 <= n < |r.requests| && !Settled(r.requests[n]) ==> r.open
  {
    hide IdOf, Allocated, Barred;
  }

  /** Answers once given stand, and any new one comes after at most `covered` messages. */
  ghost predicate Later(before: seq<Request>, after: seq<Request>, covered: nat) {
    && |before| <= |after|
    && (forall n :: 0 <= n < |before| && PromptReply(before, n).Some? ==>
        PromptReply(after, n) == PromptReply(before, n))
    && (forall n :: 0 <= n < |after| && PromptReply(after, n).Some? ==>
          PromptReply(after, n).value <= covered || (n < |before| && PromptReply(before, n) == PromptReply(after, n)))
  }

  lemma PromptsFollow(before: seq<Request>, after: seq<Request>, log: seq<bool>, covered: nat, events: E.Events<nat>)
    requires PromptInv(before, log, covered, events) && Later(before, after, covered)
    ensures PromptInv(after, log, covered, events)
  {
    hide EmittedBy, PromptReply;
  }

  lemma TransportKeeps(cfg: Config, s: Acp, op: JsonRpcRequests.Op)
    requires Inv(cfg, s) && Passes(op) && !Overtakes(s.rpc, op)
    ensures Inv(cfg, s.(rpc := JsonRpcRequests.Step(cfg.limits, s.rpc, op)))
  {
    var t := JsonRpcRequests.Step(cfg.limits, s.rpc, op);
    StepKeeps(cfg.limits, s.rpc, op);
    StepOrdered(cfg.limits, s.rpc, op);
    StepGrows(cfg.limits, s.rpc, op);
    RequestStep(cfg.limits, s.rpc, op);
    StepAnswers(cfg.limits, s.rpc, op, s.covered);
    hide JsonRpcRequests.Inv, JsonRpcRequests.Step, EmittedBy, PromptInv, Later, E.Inv;
    PromptsFollow(s.rpc.requests, t.requests, s.log, s.covered, s.events);
  }

  lemma StepAnswers(l: Limits, r: Rpc, op: JsonRpcRequests.Op, covered: nat)
    requires JsonRpcRequests.Inv(l, r) && Ordered(r) && Passes(op) && !Overtakes(r, op)
        && (r.open ==> r.acked <= covered)
    ensures Later(r.requests, JsonRpcRequests.Step(l, r, op).requests, covered)
  {
    StepKeeps(l, r, op);
    StepOrdered(l, r, op);
    StepGrows(l, r, op);
    RequestStep(l, r, op);
    var t := JsonRpcRequests.Step(l, r, op);
    hide Settle, Turned, Responded, Resumed, Reported;
    assert |r.requests| < |t.requests| ==> t.open;
    hide JsonRpcRequests.Step, PromptReply;
    AnswersCovered(l, r, t, covered);
  }

  lemma AnswersCovered(l: Limits, r: Rpc, t: Rpc, covered: nat)
    requires JsonRpcRequests.Inv(l, r) && JsonRpcRequests.Inv(l, t) && Ordered(t) && Grows(r, t)
    requires (forall n :: 0 <= n < |r.requests| && !Settled(r.requests[n]) ==> r.open)
    requires |r.requests| < |t.requests| ==> t.open
    requires r.open ==> t.acked <= covered
    ensures Later(r.requests, t.requests, covered)
  {
  }

  lemma FailedReplies(requests: seq<Request>, n: nat)
    ensures PromptReply(FailAll(requests), n) == PromptReply(requests, n)
  {
  }

  lemma ShutdownAnswers(r: Rpc, fits: bool, covered: nat)
    ensures Later(r.requests, Terminated(r).requests, covered)
    ensures Later(r.requests, Inbound(r, fits).requests, covered)
  {
    forall n | 0 <= n < |r.requests| ensures PromptReply(FailAll(r.requests), n) == PromptReply(r.requests, n) {
      FailedReplies(r.requests, n);
    }
    hide FailAll, PromptReply;
  }

  /** Waits may end in refusal and more may be covered; good outcomes and the finished events stay. */
  ghost predicate Calmer(a: E.Events<nat>, b: E.Events<nat>) {
    && (forall n :: n in b.waiters ==> n in a.waiters && b.waiters[n] == a.waiters[n])
    && (forall n :: n in b.outcomes && b.outcomes[n] ==> n in a.outcomes && a.outcomes[n])
    && a.finished <= b.finished
  }

  lemma CalmerPrompts(requests: seq<Request>, log: seq<bool>, covered: nat, a: E.Events<nat>, more: nat,
      b: E.Events<nat>)
    requires PromptInv(requests, log, covered, a) && Calmer(a, b) && covered <= more
    ensures PromptInv(requests, log, more, b)
  {
    hide EmittedBy, PromptReply;
  }

  lemma EventsCalm(q: E.Events<nat>, e: nat, capacity: nat, n: nat)
    ensures Calmer(q, E.Closed(q)) && Calmer(q, E.Pushed(q, e, capacity).0) && Calmer(q, E.Expired(q, n))
    ensures Calmer(q, E.Closed(E.Pushed(q, e, capacity).0))
  {
  }

  lemma ShutdownKeeps(l: Limits, r: Rpc, covered: nat)
    requires JsonRpcRequests.Inv(l, r) && Ordered(r)
    ensures var t := Terminated(r);
      && JsonRpcRequests.Inv(l, t) && Ordered(t) && !t.open && t.sequence == r.sequence && t.acked == r.acked
      && Later(r.requests, t.requests, covered)
  {
    hide JsonRpcRequests.Inv, Ordered, Terminated, Later;
    StepKeeps(l, r, Terminate);
    StepOrdered(l, r, Terminate);
    RequestStep(l, r, Terminate);
    TerminatedCloses(r);
    ShutdownAnswers(r, true, covered);
  }

  /** The client goes down with its queue closed; what the queue accepted before is still accounted for. */
  lemma ShutKeeps(cfg: Config, s: Acp, t: Acp)
    requires JsonRpcRequests.Inv(cfg.limits, s.rpc) && Ordered(s.rpc) && LoopInv(cfg, s)
    requires PromptInv(s.rpc.requests, s.log, s.covered, s.events) && Calmer(s.events, t.events)
    requires t == s.(events := t.events, covered := t.covered, handled := t.handled, rpc := Terminated(s.rpc))
    requires s.covered <= t.covered <= t.handled && s.handled <= t.handled <= s.pulled
    requires t.events.closed && E.Inv(t.events, EmittedBy(t.log, t.covered))
    ensures Inv(cfg, t)
  {
    ShutdownKeeps(cfg.limits, s.rpc, t.covered);
    CalmerPrompts(s.rpc.requests, s.log, s.covered, s.events, t.covered, t.events);
    hide JsonRpcRequests.Inv, Terminated, EmittedBy, Later, E.Inv, Calmer, PromptInv;
    PromptsFollow(s.rpc.requests, t.rpc.requests, s.log, t.covered, t.events);
  }

  lemma ClosedKeeps(cfg: Config, s: Acp)
    requires Inv(cfg, s)
    ensures Inv(cfg, ClientClosed(s))
  {
    E.WaitsKeep(s.events, EmittedBy(s.log, s.covered), 0, 0, false, false);
    EventsCalm(s.events, 0, 0, 0);
    assert E.Closed(s.events).closed;
    hide JsonRpcRequests.Inv, Terminated, EmittedBy, E.Closed, E.Inv, Calmer, PromptInv;
    ShutKeeps(cfg, s, ClientClosed(s));
  }

  lemma ArrivedKeeps(cfg: Config, s: Acp, emits: bool)
    requires Inv(cfg, s)
    ensures Inv(cfg, Arrived(cfg, s, emits))
  {
    hide JsonRpcRequests.Inv, Ordered, Inbound, EmittedBy, PromptInv, Later, E.Inv;
    if s.rpc.open {
      var fits := s.parked || |s.log| - s.pulled < cfg.inboundCapacity;
      var op := JsonRpcRequests.Op.Arrive(fits);
      StepKeeps(cfg.limits, s.rpc, op);
      StepOrdered(cfg.limits, s.rpc, op);
      ShutdownAnswers(s.rpc, fits, s.covered);
      InboundCounts(s.rpc, fits);
      LogPrompts(s.rpc.requests, s.log, s.covered, s.events, emits);
      EmittedAppend(s.log, s.covered, emits);
      PromptsFollow(s.rpc.requests, Inbound(s.rpc, fits).requests, s.log + [emits], s.covered, s.events);
    }
  }

  lemma InboundCounts(r: Rpc, fits: bool)
    requires r.open
    ensures Inbound(r, fits).sequence == r.sequence + 1 && Inbound(r, fits).acked == r.acked
  {
  }

  lemma LogPrompts(requests: seq<Request>, log: seq<bool>, covered: nat, events: E.Events<nat>, emits: bool)
    requires PromptInv(requests, log, covered, events) && covered <= |log|
    ensures PromptInv(requests, log + [emits], covered, events)
  {
    hide PromptReply, EmittedBy;
    forall k: nat | k <= covered ensures EmittedBy(log + [emits], k) == EmittedBy(log, k) {
      EmittedAppend(log, k, emits);
    }
  }

  lemma LoopPulledKeeps(cfg: Config, s: Acp)
    requires Inv(cfg, s)
    ensures Inv(cfg, LoopPulled(s))
  {
    hide JsonRpcRequests.Inv, Ordered, EmittedBy, PromptInv, E.Inv, JsonRpcRequests.Acknowledged;
    AcknowledgedRpc(cfg.limits, s.rpc, s.handled);
  }

  lemma AcknowledgedRpc(l: Limits, r: Rpc, upTo: nat)
    requires JsonRpcRequests.Inv(l, r) && Ordered(r)
    ensures var t := JsonRpcRequests.Acknowledged(r, upTo);
      && JsonRpcRequests.Inv(l, t) && Ordered(t) && t.requests == r.requests && t.sequence == r.sequence
          && t.open == r.open
      && t.acked == if r.acked < upTo <= r.sequence then upTo else r.acked
  {
    hide JsonRpcRequests.Inv, Ordered, ReleaseUpTo;
    StepKeeps(l, r, Acknowledge(upTo));
    StepOrdered(l, r, Acknowledge(upTo));
  }

  lemma HandledKeeps(cfg: Config, s: Acp)
    requires Inv(cfg, s)
    ensures Inv(cfg, Handled(cfg, s))
  {
    hide JsonRpcRequests.Inv, Ordered, EmittedBy, E.Inv, E.Pushed, E.Closed, PromptInv, Calmer, Terminated;
    if s.handled < s.pulled {
      if s.events.closed {
        assert Handled(cfg, s) == s.(handled := s.handled + 1);
      } else {
        EmittedNext(s.log, s.handled);
        if s.log[s.handled] {
          HandledEvent(cfg, s);
        } else {
          assert Calmer(s.events, s.events) by { Unmoved(s.events); }
          CalmerPrompts(s.rpc.requests, s.log, s.covered, s.events, s.covered + 1, s.events);
        }
      }
    }
  }

  lemma Unmoved(q: E.Events<nat>)
    ensures Calmer(q, q)
  {
  }

  lemma HandledEvent(cfg: Config, s: Acp)
    requires Inv(cfg, s) && s.handled < s.pulled && !s.events.closed && s.log[s.handled]
    ensures Inv(cfg, Handled(cfg, s))
  {
    hide JsonRpcRequests.Inv, Ordered, EmittedBy, E.Inv, E.Closed, PromptInv, Calmer, Terminated;
    var (events, accepted) := E.Pushed(s.events, s.handled, cfg.eventCapacity);
    EmittedNext(s.log, s.handled);
    E.PushedKeeps(s.events, EmittedBy(s.log, s.covered), s.handled, cfg.eventCapacity);
    EventsCalm(s.events, s.handled, cfg.eventCapacity, 0);
    ClosedIsClosed(events);
    assert !events.closed;
    var t := s.(handled := s.handled + 1, covered := s.handled + 1, events := events);
    hide E.Pushed;
    if accepted {
      CalmerPrompts(s.rpc.requests, s.log, s.covered, s.events, s.covered + 1, events);
    } else {
      ShutKeeps(cfg, s, ClientClosed(t));
    }
  }

  lemma ClosedIsClosed(q: E.Events<nat>)
    ensures E.Closed(q).closed
  {
  }

  lemma OutcomePrompts(requests: seq<Request>, log: seq<bool>, covered: nat, q: E.Events<nat>, n: nat, good: bool)
    requires PromptInv(requests, log, covered, q)
    requires good ==> PromptReply(requests, n).Some? && EmittedBy(log, PromptReply(requests, n).value) <= q.finished
    ensures PromptInv(requests, log, covered, q.(outcomes := q.outcomes[n := good]))
  {
    hide PromptReply, EmittedBy;
  }

  lemma WaiterPrompts(requests: seq<Request>, log: seq<bool>, covered: nat, q: E.Events<nat>, n: nat)
    requires PromptInv(requests, log, covered, q)
    requires PromptReply(requests, n).Some? && |EmittedBy(log, PromptReply(requests, n).value)| <= q.sequence
    ensures PromptInv(requests, log, covered, q.(waiters := q.waiters[n := q.sequence]))
  {
    hide PromptReply, EmittedBy;
  }

  lemma WaitedPrompts(requests: seq<Request>, log: seq<bool>, covered: nat, q: E.Events<nat>, n: nat,
                      capacity: nat, late: bool, aborted: bool)
    requires PromptInv(requests, log, covered, q) && E.Inv(q, EmittedBy(log, covered))
    requires PromptReply(requests, n).Some? && n !in q.outcomes && n !in q.waiters
    ensures PromptInv(requests, log, covered, E.Waited(q, n, capacity, late, aborted))
  {
    assert PromptReply(requests, n).value <= covered;
    EmittedGrows(log, PromptReply(requests, n).value, covered);
    assert q.sequence == |EmittedBy(log, covered)| && q.finished == EmittedBy(log, covered)[..q.acked];
    assert q.acked <= q.sequence;
    hide PromptInv, E.Inv, PromptReply, EmittedBy;
    var good := !late && q.sequence <= q.acked;
    OutcomePrompts(requests, log, covered, q, n, good);
    WaiterPrompts(requests, log, covered, q, n);
  }

  lemma ContinuedKeeps(cfg: Config, s: Acp, n: nat, late: bool, aborted: bool)
    requires Inv(cfg, s)
    ensures Inv(cfg, Continued(cfg, s, n, late, aborted))
  {
    hide JsonRpcRequests.Inv, Ordered, EmittedBy, PromptReply, PromptInv, E.Inv;
    if s.claimed && PromptReply(s.rpc.requests, n).Some? && n !in s.events.outcomes && n !in s.events.waiters {
      E.WaitsKeep(s.events, EmittedBy(s.log, s.covered), n, cfg.eventCapacity, late, aborted);
      WaitedPrompts(s.rpc.requests, s.log, s.covered, s.events, n, cfg.eventCapacity, late, aborted);
    }
  }

  lemma PulledPrompts(requests: seq<Request>, log: seq<bool>, covered: nat, q: E.Events<nat>)
    requires PromptInv(requests, log, covered, q) && E.Inv(q, EmittedBy(log, covered))
    ensures PromptInv(requests, log, covered, E.Pulled(q))
  {
    var emitted, p := EmittedBy(log, covered), E.Pulled(q);
    E.PulledKeeps(q, emitted);
    PulledWaits(q);
    hide E.Inv, E.Pulled, PromptReply, EmittedBy;
    forall n | n in p.outcomes && p.outcomes[n]
      ensures PromptReply(requests, n).Some? && EmittedBy(log, PromptReply(requests, n).value) <= p.finished
    {
      if n in q.waiters {
        E.GoodOutcome(q, emitted, n, 0, false, false);
        EmittedGrows(log, PromptReply(requests, n).value, covered);
        WaiterBelow(q, emitted, n);
        assert EmittedBy(log, PromptReply(requests, n).value) <= emitted[..q.waiters[n]];
      }
    }
  }

  lemma WaiterBelow(q: E.Events<nat>, emitted: seq<nat>, n: nat)
    requires E.Inv(q, emitted) && n in q.waiters
    ensures q.waiters[n] <= |emitted| && n !in q.outcomes
  {
  }

  lemma PulledWaits(q: E.Events<nat>)
    ensures var p := E.Pulled(q);
      && p.closed == q.closed
      && (forall n :: n in p.waiters ==> n in q.waiters && p.waiters[n] == q.waiters[n])
      && (forall n :: n in p.outcomes && n !in q.waiters ==> n in q.outcomes && p.outcomes[n] == q.outcomes[n])
  {
  }

  lemma ConsumerPulledKeeps(cfg: Config, s: Acp)
    requires Inv(cfg, s)
    ensures Inv(cfg, s.(events := E.Pulled(s.events)))
  {
    E.PulledKeeps(s.events, EmittedBy(s.log, s.covered));
    PulledWaits(s.events);
    hide JsonRpcRequests.Inv, Ordered, EmittedBy, PromptReply, PromptInv, E.Inv, E.Pulled;
    PulledPrompts(s.rpc.requests, s.log, s.covered, s.events);
  }

  lemma GaveUpKeeps(cfg: Config, s: Acp, n: nat)
    requires Inv(cfg, s)
    ensures Inv(cfg, s.(events := E.Expired(s.events, n)))
  {
    E.WaitsKeep(s.events, EmittedBy(s.log, s.covered), n, 0, false, false);
    EventsCalm(s.events, 0, 0, n);
    assert E.Expired(s.events, n).closed == s.events.closed;
    hide JsonRpcRequests.Inv, Ordered, EmittedBy, PromptInv, E.Inv, E.Expired, Calmer;
    CalmerPrompts(s.rpc.requests, s.log, s.covered, s.events, s.covered, E.Expired(s.events, n));
  }

  /** No held reply of the transport overtakes the messages ahead of it. */
  ghost predicate InTurn(s: Acp, op: Op) {
    op.Transport? ==> !Overtakes(s.rpc, op.op)
  }

  /** Every step keeps the barrier sound, except exactly the overtaking ones. */
  lemma StepKeepsAll(cfg: Config, s: Acp, op: Op)
    requires Inv(cfg, s)
    ensures Inv(cfg, Step(cfg, s, op)) <==> InTurn(s, op)
  {
    hide Arrived, Handled, LoopPulled, Continued, ClientClosed;
    if !InTurn(s, op) {
      StepOrdered(cfg.limits, s.rpc, op.op);
      hide JsonRpcRequests.Inv, E.Inv, PromptInv, LoopInv, Overtakes, Ordered;
    } else {
      KeptInTurn(cfg, s, op);
    }
  }

  lemma KeptInTurn(cfg: Config, s: Acp, op: Op)
    requires Inv(cfg, s) && InTurn(s, op)
    ensures Inv(cfg, Step(cfg, s, op))
  {
    hide Inv, Arrived, Handled, LoopPulled, Continued, ClientClosed, Passes, Overtakes;
    match op
    case Transport(o) => if Passes(o) { TransportKeeps(cfg, s, o); }
    case Arrive(emits) => ArrivedKeeps(cfg, s, emits);
    case Handle => HandledKeeps(cfg, s);
    case LoopPull => LoopPulledKeeps(cfg, s);
    case Continue(n, late, aborted) => ContinuedKeeps(cfg, s, n, late, aborted);
    case GiveUp(n) => GaveUpKeeps(cfg, s, n);
    case Claim => ClaimKeeps(cfg, s);
    case ConsumerPull => ConsumerPulledKeeps(cfg, s);
    case CloseClient => ClosedKeeps(cfg, s);
  }

  lemma ClaimKeeps(cfg: Config, s: Acp)
    requires Inv(cfg, s)
    ensures Inv(cfg, s.(claimed := true))
  {
    hide JsonRpcRequests.Inv, E.Inv, PromptInv, EmittedBy;
  }

  // ---------------------------------------------------------------- whole runs

  /** A run from the start: `trace` lists the states it goes through. */
  ghost predicate IsRun(cfg: Config, trace: seq<Acp>, ops: seq<Op>) {
    && |trace| == |ops| + 1 && trace[0] == Initial()
    && cfg.limits.maxPending <= MAX_SAFE_INTEGER
    && forall i :: 0 <= i < |ops| && Inv(cfg, trace[i]) ==> trace[i + 1] == Step(cfg, trace[i], ops[i])
  }

  ghost predicate RunInTurn(trace: seq<Acp>, ops: seq<Op>) {
    |trace| == |ops| + 1 && forall i :: 0 <= i < |ops| ==> InTurn(trace[i], ops[i])
  }

  lemma {:induction false} RunKeeps(cfg: Config, trace: seq<Acp>, ops: seq<Op>, i: nat)
    requires IsRun(cfg, trace, ops) && RunInTurn(trace, ops) && i < |trace|
    ensures Inv(cfg, trace[i])
  {
    hide InTurn, Step;
    if i == 0 {
      StartInv(cfg);
    } else {
      hide Inv;
      RunKeeps(cfg, trace, ops, i - 1);
      StepKeepsAll(cfg, trace[i - 1], ops[i - 1]);
    }
  }

  lemma StartInv(cfg: Config)
    requires cfg.limits.maxPending <= MAX_SAFE_INTEGER
    ensures Inv(cfg, Initial())
  {
    InitialInv(cfg.limits);
    InitialOrdered();
    assert EmittedBy([], 0) == [];
  }

  lemma InitialOrdered()
    ensures Ordered(JsonRpcRequests.Initial())
  {
  }

  /** Both layers of the barrier are sound at every moment exactly when no reply overtakes. */
  lemma BarrierHoldsExactly(cfg: Config, trace: seq<Acp>, ops: seq<Op>)
    requires IsRun(cfg, trace, ops)
    ensures (forall i :: 0 <= i < |trace| ==> Inv(cfg, trace[i])) <==> RunInTurn(trace, ops)
  {
    hide Inv, InTurn, Step;
    if RunInTurn(trace, ops) {
      forall i | 0 <= i < |trace| ensures Inv(cfg, trace[i]) {
        RunKeeps(cfg, trace, ops, i);
      }
    } else if forall i :: 0 <= i < |trace| ==> Inv(cfg, trace[i]) {
      forall i | 0 <= i < |ops| ensures InTurn(trace[i], ops[i]) {
        assert Inv(cfg, trace[i + 1]);
        StepKeepsAll(cfg, trace[i], ops[i]);
      }
    }
  }

  /** The barrier, end to end: a prompt that resolves with the event stream claimed does so only after the
      consumer finished every event whose message preceded the prompt's reply on the wire, in order. */
  lemma PromptResolvesAfterItsEvents(cfg: Config, trace: seq<Acp>, ops: seq<Op>, i: nat, n: nat)
    requires IsRun(cfg, trace, ops) && RunInTurn(trace, ops) && i < |trace|
    requires n in trace[i].events.outcomes && trace[i].events.outcomes[n]
    ensures var s := trace[i];
      && PromptReply(s.rpc.requests, n).Some?
      && var before := PromptReply(s.rpc.requests, n).value;
      && before <= |s.log|
      && Emitting(s.log[..before]) <= s.events.finished
  {
    RunKeeps(cfg, trace, ops, i);
    hide JsonRpcRequests.Inv, E.Inv, Step;
  }

  // ---------------------------------------------------------------- whose reply it was

  /** No step of the transport misleads. */
  ghost predicate Straight(s: Acp, op: Op) {
    op.Transport? ==> !Misleads(s.rpc, op.op)
  }

  ghost predicate RunStraight(trace: seq<Acp>, ops: seq<Op>) {
    |trace| == |ops| + 1 && forall i :: 0 <= i < |ops| ==> Straight(trace[i], ops[i])
  }

  lemma StepKeepsOwn(cfg: Config, s: Acp, op: Op)
    requires Inv(cfg, s) && Own(s.rpc) && Straight(s, op)
    ensures InTurn(s, op) && Own(Step(cfg, s, op).rpc)
  {
    hide JsonRpcRequests.Inv, Own, E.Inv, PromptInv, LoopInv, Overtakes, Misleads, Terminated, Inbound,
        JsonRpcRequests.Acknowledged, E.Pushed, E.Pulled, E.Waited, E.Closed, Passes;
    InboundOwn(s.rpc, s.parked || |s.log| - s.pulled < cfg.inboundCapacity, s.handled);
    match op
    case Transport(o) =>
      StepOwn(cfg.limits, s.rpc, o);
      if Overtakes(s.rpc, o) {
        OvertakingMisleads(s.rpc, o);
      }
    case _ =>
  }

  lemma {:induction false} RunKeepsOwn(cfg: Config, trace: seq<Acp>, ops: seq<Op>, i: nat)
    requires IsRun(cfg, trace, ops) && RunStraight(trace, ops) && i < |trace|
    ensures Inv(cfg, trace[i]) && Own(trace[i].rpc)
  {
    hide Straight, InTurn, Step, Own;
    if i == 0 {
      StartInv(cfg);
      InitialInv(cfg.limits);
    } else {
      hide Inv;
      RunKeepsOwn(cfg, trace, ops, i - 1);
      StepKeepsOwn(cfg, trace[i - 1], ops[i - 1]);
      StepKeepsAll(cfg, trace[i - 1], ops[i - 1]);
    }
  }

  /** In a run without a misleading step the barrier holds as well, and the reply that resolves a prompt is the
      one to its own request, whose frame was written before. */
  lemma PromptGetsItsOwnReply(cfg: Config, trace: seq<Acp>, ops: seq<Op>, i: nat, n: nat)
    requires IsRun(cfg, trace, ops) && RunStraight(trace, ops) && i < |trace|
    requires n in trace[i].events.outcomes && trace[i].events.outcomes[n]
    ensures var s := trace[i];
      && PromptReply(s.rpc.requests, n).Some?
      && s.rpc.requests[n].settlements[0].origin == Some(n) && Some(n) in s.rpc.wire
      && var before := PromptReply(s.rpc.requests, n).value;
      && before <= |s.log| && Emitting(s.log[..before]) <= s.events.finished
  {
    RunKeepsOwn(cfg, trace, ops, i);
    hide JsonRpcRequests.Inv, E.Inv, Step, OwnHeld;
    assert OwnReply(trace[i].rpc.requests[n], n, trace[i].rpc.wire, trace[i].rpc.acked);
  }
}
