/** The serialized write queue of the stdio transports: one frame on the stream at a time, in send order. */
module WriteQueue {
  import opened Prelude
  import opened Bytes

  datatype Outcome = Resolved | Rejected

  /** One `send`: its message, whether its frame was handed to the stream, and how its wait ended. */
  datatype Entry<!M> = Entry(msg: M, written: bool, outcome: Option<Outcome>)

  /** `encode` is None for a message that does not serialize or exceeds the limit. */
  datatype Settings<!M> = Settings(maxPending: nat, encode: M -> Option<seq<Byte>>)

  /** `next` counts the queue turns taken so far; `active` is the frame now being flushed. */
  datatype Sender<!M> = Sender(open: bool, entries: seq<Entry<M>>, next: nat, active: bool, pending: nat,
      wire: seq<Byte>)

  function Idle<M>(): Sender<M> {
    Sender(true, [], 0, false, 0, [])
  }

  function Frame<M>(cfg: Settings<M>, m: M): seq<Byte>
    requires cfg.encode(m).Some?
  {
    cfg.encode(m).value + [LF]
  }

  function Ended<M>(e: Entry<M>, outcome: Outcome): Entry<M> {
    if e.outcome.Some? then e else e.(outcome := Some(outcome))
  }

  /** `refused` sends never enter the queue. */
  predicate CanSend<M>(cfg: Settings<M>, s: Sender<M>, m: M) {
    s.open && s.pending < cfg.maxPending && cfg.encode(m).Some?
  }

  function Sent<M>(cfg: Settings<M>, s: Sender<M>, m: M): Sender<M> {
    if CanSend(cfg, s, m) then s.(entries := s.entries + [Entry(m, false, None)], pending := s.pending + 1) else s
  }

  /** A caller's abort signal or timer ends one wait early; the frame itself is not recalled. */
  function Expired<M>(s: Sender<M>, i: nat): Sender<M> {
    if i < |s.entries| then s.(entries := s.entries[i := Ended(s.entries[i], Rejected)]) else s
  }

  function AllRejected<M>(entries: seq<Entry<M>>): seq<Entry<M>> {
    seq(|entries|, i requires 0 <= i < |entries| => Ended(entries[i], Rejected))
  }

  /** Closing ends every wait and releases the frame in flight. */
  function Terminated<M>(s: Sender<M>): Sender<M> {
    if s.open then
      Sender(false, AllRejected(s.entries), s.next, false,
             if s.active && s.pending > 0 then s.pending - 1 else s.pending, s.wire)
    else s
  }

  predicate TurnReady<M>(s: Sender<M>) {
    !s.active && s.next < |s.entries| && s.pending > 0
  }

  /** The next queued write gets its turn: skipped when closed or its wait already ended, else handed to
      the stream, which may refuse it by throwing. */
  function Turned<M>(cfg: Settings<M>, s: Sender<M>, streamTakes: bool): Sender<M>
    requires forall i :: 0 <= i < |s.entries| ==> cfg.encode(s.entries[i].msg).Some?
  {
    if !TurnReady(s) then s
    else
      var e := s.entries[s.next];
      if !s.open || e.outcome.Some? then
        s.(entries := s.entries[s.next := Ended(e, Rejected)], next := s.next + 1, pending := s.pending - 1)
      else if streamTakes then
        s.(entries := s.entries[s.next := e.(written := true)], next := s.next + 1, active := true,
           wire := s.wire + Frame(cfg, e.msg))
      else Terminated(s.(next := s.next + 1, active := true))
  }

  /** The stream reports the active frame flushed. */
  function Flushed<M>(s: Sender<M>): Sender<M> {
    if s.active && 0 < s.next <= |s.entries| && s.pending > 0 then
      s.(entries := s.entries[s.next - 1 := Ended(s.entries[s.next - 1], Resolved)], active := false,
          pending := s.pending - 1)
    else s
  }

  // ---------------------------------------------------------------- every interleaving

  datatype Op<!M> = Send(m: M) | Expire(i: nat) | Turn(streamTakes: bool) | Flush | Terminate

  ghost function Step<M>(cfg: Settings<M>, s: Sender<M>, op: Op<M>): Sender<M>
    requires Inv(cfg, s)
  {
    match op
    case Send(m) => Sent(cfg, s, m)
    case Expire(i) => Expired(s, i)
    case Turn(streamTakes) => Turned(cfg, s, streamTakes)
    case Flush => Flushed(s)
    case Terminate => Terminated(s)
  }

  /** Messages whose frame was handed to the stream, in send order. */
  function Written<M>(entries: seq<Entry<M>>): seq<M> {
    if entries == [] then []
    else
      Written(entries[..|entries| - 1])
      + if entries[|entries| - 1].written then [entries[|entries| - 1].msg] else []
  }

  function Frames<M>(cfg: Settings<M>, messages: seq<M>): seq<Byte>
    requires forall m :: m in messages ==> cfg.encode(m).Some?
  {
    if messages == [] then []
    else Frames(cfg, messages[..|messages| - 1]) + Frame(cfg, messages[|messages| - 1])
  }

  ghost predicate Inv<M>(cfg: Settings<M>, s: Sender<M>) {
    && s.next <= |s.entries|
    && s.pending == |s.entries| - s.next + (if s.active then 1 else 0)
    && (s.active ==> s.open && s.next > 0 && s.entries[s.next - 1].written)
    && (forall i :: 0 <= i < |s.entries| ==> cfg.encode(s.entries[i].msg).Some?)
    && (forall i :: s.next <= i < |s.entries| ==> !s.entries[i].written)
    && (forall i :: 0 <= i < |s.entries| ==> s.entries[i].outcome == Some(Resolved) ==> s.entries[i].written)
    && (forall i :: 0 <= i < s.next ==> !s.entries[i].written ==> s.entries[i].outcome == Some(Rejected))
    && (!s.open ==> forall i :: 0 <= i < |s.entries| ==> s.entries[i].outcome.Some?)
    && s.pending <= cfg.maxPending
  }

  ghost predicate Encodable<M>(cfg: Settings<M>, messages: seq<M>) {
    forall m :: m in messages ==> cfg.encode(m).Some?
  }

  /** Only which frames were handed over matters, not how their waits ended. */
  lemma {:induction false} SameWritten<M>(a: seq<Entry<M>>, b: seq<Entry<M>>)
    requires |a| == |b| && forall i :: 0 <= i < |a| ==> a[i].msg == b[i].msg && a[i].written == b[i].written
    ensures Written(a) == Written(b)
  {
    if a != [] {
      SameWritten(a[..|a| - 1], b[..|b| - 1]);
    }
  }

  lemma {:induction false} UnwrittenTail<M>(entries: seq<Entry<M>>, n: nat)
    requires n <= |entries| && forall i :: n <= i < |entries| ==> !entries[i].written
    ensures Written(entries) == Written(entries[..n])
    decreases |entries|
  {
    if n < |entries| {
      var front := entries[..|entries| - 1];
      UnwrittenTail(front, n);
      assert front[..n] == entries[..n];
    } else {
      assert entries[..n] == entries;
    }
  }

  /** The bytes on the wire are the written messages' frames, in send order. */
  ghost predicate OnWire<M>(cfg: Settings<M>, s: Sender<M>) {
    Encodable(cfg, Written(s.entries)) && s.wire == Frames(cfg, Written(s.entries))
  }

  lemma StepKeepsInv<M>(cfg: Settings<M>, s: Sender<M>, op: Op<M>)
    requires Inv(cfg, s)
    ensures Inv(cfg, Step(cfg, s, op))
  {
    match op {
      case Send(m) =>
      case Expire(i) =>
      case Turn(streamTakes) => TurnKeepsInv(cfg, s, streamTakes);
      case Flush =>
      case Terminate =>
    }
  }

  lemma TurnKeepsInv<M>(cfg: Settings<M>, s: Sender<M>, streamTakes: bool)
    requires Inv(cfg, s)
    ensures Inv(cfg, Turned(cfg, s, streamTakes))
  {
    if TurnReady(s) {
      var e, t := s.entries[s.next], Turned(cfg, s, streamTakes);
      assert e.outcome != Some(Resolved) && t.next == s.next + 1;
      assert e.outcome.Some? ==> e.outcome.value.Resolved? || e.outcome.value.Rejected?;
      assert forall i :: 0 <= i < |s.entries| && i != s.next ==>
               t.entries[i].written == s.entries[i].written && t.entries[i].msg == s.entries[i].msg
               && (s.entries[i].outcome.Some? ==> t.entries[i].outcome == s.entries[i].outcome);
    }
  }

  lemma {:induction false} FramesExtend<M>(cfg: Settings<M>, messages: seq<M>, m: M)
    requires Encodable(cfg, messages + [m])
    ensures Encodable(cfg, messages) && Frames(cfg, messages + [m]) == Frames(cfg, messages) + Frame(cfg, m)
  {
    assert (messages + [m])[..|messages|] == messages;
    assert forall x :: x in messages ==> x in messages + [m];
  }

  lemma SendKeepsWire<M>(cfg: Settings<M>, s: Sender<M>, m: M)
    requires Inv(cfg, s) && OnWire(cfg, s) && CanSend(cfg, s, m)
    ensures OnWire(cfg, Sent(cfg, s, m))
  {
    var t := Sent(cfg, s, m);
    UnwrittenTail(t.entries, |s.entries|);
    assert t.entries[..|s.entries|] == s.entries;
  }

  lemma WriteKeepsWire<M>(cfg: Settings<M>, s: Sender<M>)
    requires Inv(cfg, s) && OnWire(cfg, s) && TurnReady(s) && s.open && s.entries[s.next].outcome.None?
    ensures OnWire(cfg, Turned(cfg, s, true))
  {
    var t, e := Turned(cfg, s, true), s.entries[s.next];
    UnwrittenTail(s.entries, s.next);
    UnwrittenTail(t.entries, t.next);
    assert t.entries[..t.next][..s.next] == s.entries[..s.next];
    assert Written(t.entries) == Written(s.entries) + [e.msg];
    FramesExtend(cfg, Written(s.entries), e.msg);
  }

  lemma StepKeepsWire<M>(cfg: Settings<M>, s: Sender<M>, op: Op<M>)
    requires Inv(cfg, s) && OnWire(cfg, s)
    ensures Inv(cfg, Step(cfg, s, op)) && OnWire(cfg, Step(cfg, s, op))
  {
    StepKeepsInv(cfg, s, op);
    if op.Turn? && TurnReady(s) && s.open && s.entries[s.next].outcome.None? && op.streamTakes {
      WriteKeepsWire(cfg, s);
    } else if op.Send? && CanSend(cfg, s, op.m) {
      SendKeepsWire(cfg, s, op.m);
    } else {
      SameWritten(s.entries, Step(cfg, s, op).entries);
    }
  }

  ghost function Run<M>(cfg: Settings<M>, ops: seq<Op<M>>): (s: Sender<M>)
    ensures Inv(cfg, s) && OnWire(cfg, s)
  {
    if ops == [] then Idle()
    else
      var before := Run(cfg, ops[..|ops| - 1]);
      StepKeepsWire(cfg, before, ops[|ops| - 1]);
      Step(cfg, before, ops[|ops| - 1])
  }

  lemma StepFreezes<M>(cfg: Settings<M>, s: Sender<M>, op: Op<M>, i: nat)
    requires Inv(cfg, s) && i < |s.entries| && !s.entries[i].written && s.entries[i].outcome.Some?
    ensures i < |Step(cfg, s, op).entries| && Step(cfg, s, op).entries[i] == s.entries[i]
  {
  }

  lemma StepStaysClosed<M>(cfg: Settings<M>, s: Sender<M>, op: Op<M>)
    requires Inv(cfg, s) && !s.open
    ensures !Step(cfg, s, op).open && Step(cfg, s, op).wire == s.wire
  {
  }

  /** Over every interleaving: a wait that ended before its turn never reaches the wire, not even later. */
  lemma {:induction false} AbortedNeverWritten<M>(cfg: Settings<M>, ops: seq<Op<M>>, n: nat, i: nat)
    requires n <= |ops|
    requires i < |Run(cfg, ops[..n]).entries|
    requires !Run(cfg, ops[..n]).entries[i].written && Run(cfg, ops[..n]).entries[i].outcome.Some?
    ensures i < |Run(cfg, ops).entries| && !Run(cfg, ops).entries[i].written
    ensures Run(cfg, ops).entries[i] == Run(cfg, ops[..n]).entries[i]
    decreases |ops| - n
  {
    hide Step, Inv, OnWire;
    if n < |ops| {
      assert ops[..n + 1][..n] == ops[..n];
      StepFreezes(cfg, Run(cfg, ops[..n]), ops[n], i);
      AbortedNeverWritten(cfg, ops, n + 1, i);
    } else {
      assert ops[..n] == ops;
    }
  }

  /** Once closed, no wait is left open and no further byte is written. */
  lemma {:induction false} ClosedIsFinal<M>(cfg: Settings<M>, ops: seq<Op<M>>, n: nat)
    requires n <= |ops| && !Run(cfg, ops[..n]).open
    ensures var s := Run(cfg, ops);
            && !s.open && s.wire == Run(cfg, ops[..n]).wire
            && (forall i :: 0 <= i < |s.entries| ==> s.entries[i].outcome.Some?)
    decreases |ops| - n
  {
    hide Step, OnWire;
    if n < |ops| {
      assert ops[..n + 1][..n] == ops[..n];
      StepStaysClosed(cfg, Run(cfg, ops[..n]), ops[n]);
      ClosedIsFinal(cfg, ops, n + 1);
    } else {
      assert ops[..n] == ops;
    }
  }

  // ---------------------------------------------------------------- the transport's queue

  class FrameWriter<M> {
    const cfg: Settings<M>
    var open: bool
    var chain: seq<Entry<M>>
    var turns: nat
    var active: bool
    var pendingWrites: nat
    ghost var wire: seq<Byte>

    ghost function State(): Sender<M>
      reads this
    {
      Sender(open, chain, turns, active, pendingWrites, wire)
    }

    ghost predicate Valid()
      reads this
    {
      Inv(cfg, State())
    }

    constructor (cfg: Settings<M>)
      ensures this.cfg == cfg && Valid() && State() == Idle()
    {
      this.cfg := cfg;
      open, chain, turns, active, pendingWrites, wire := true, [], 0, false, 0, [];
    }

    method Send(m: M, aborted: bool) returns (accepted: bool)
      requires Valid()
      modifies this
      ensures Valid()
      ensures accepted <==> !aborted && CanSend(cfg, old(State()), m)
      ensures State() == if aborted then old(State()) else Sent(cfg, old(State()), m)
    {
      if !open || aborted || pendingWrites >= cfg.maxPending {
        return false;
      }
      if cfg.encode(m).None? {
        return false;
      }
      StepKeepsInv(cfg, State(), Op.Send(m));
      pendingWrites := pendingWrites + 1;
      chain := chain + [Entry(m, false, None)];
      accepted := true;
    }

    method Expire(i: nat)
      requires Valid() && i < |chain|
      modifies this`chain
      ensures Valid() && State() == Expired(old(State()), i)
    {
      StepKeepsInv(cfg, State(), Op.Expire(i));
      if chain[i].outcome.None? {
        chain := chain[i := chain[i].(outcome := Some(Rejected))];
      } else {
        assert chain[i := chain[i]] == chain;
      }
    }

    /** Returns the frame handed to the stream, if this turn writes one. */
    method Turn(streamTakes: bool) returns (frame: Option<seq<Byte>>)
      requires Valid()
      modifies this
      ensures Valid() && State() == Turned(cfg, old(State()), streamTakes)
      ensures wire == old(wire) + (if frame.Some? then frame.value else [])
    {
      StepKeepsInv(cfg, State(), Op.Turn(streamTakes));
      if active || turns >= |chain| {
        return None;
      }
      var e := chain[turns];
      if !open || e.outcome.Some? {
        chain := chain[turns := Ended(e, Rejected)];
        turns, pendingWrites := turns + 1, pendingWrites - 1;
        return None;
      }
      if !streamTakes {
        turns, active := turns + 1, true;
        TerminateNow();
        return None;
      }
      var bytes := Frame(cfg, e.msg);
      chain := chain[turns := e.(written := true)];
      turns, active := turns + 1, true;
      wire := wire + bytes;
      frame := Some(bytes);
    }

    method Flush()
      requires Valid()
      modifies this
      ensures Valid() && State() == Flushed(old(State()))
    {
      StepKeepsInv(cfg, State(), Op.Flush);
      if !active {
        return;
      }
      chain := chain[turns - 1 := Ended(chain[turns - 1], Resolved)];
      active, pendingWrites := false, pendingWrites - 1;
    }

    method Terminate()
      requires Valid()
      modifies this
      ensures Valid() && State() == Terminated(old(State()))
    {
      StepKeepsInv(cfg, State(), Op.Terminate);
      TerminateNow();
    }

    method TerminateNow()
      requires pendingWrites > 0 || !active
      modifies this
      ensures State() == Terminated(old(State()))
    {
      if !open {
        return;
      }
      open := false;
      for i := 0 to |chain|
        modifies this`chain
        invariant |chain| == |old(chain)|
        invariant forall j :: 0 <= j < i ==> chain[j] == Ended(old(chain)[j], Rejected)
        invariant forall j :: i <= j < |chain| ==> chain[j] == old(chain)[j]
      {
        chain := chain[i := Ended(chain[i], Rejected)];
      }
      assert chain == AllRejected(old(chain));
      if active {
        active, pendingWrites := false, pendingWrites - 1;
      }
    }
  }
}
