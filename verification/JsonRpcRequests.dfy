/** Outbound JSON-RPC requests: correlation by identifier, serialized frames, timers and the inbound barrier. */
module JsonRpcRequests {
  import opened Prelude
  import opened JsonValues
  import opened RequestIds

  datatype Reply = Result(value: Json) | RemoteError(error: Json)

  /** How a request's promise was settled: by a reply, which arrived after `before` inbound messages, or by a
      local failure. `origin` is the request whose frame the reply answers, None if it answers no frame; the
      transport never sees it, since a reply carries an identifier only. */
  datatype Settlement = Answered(origin: Option<nat>, reply: Reply, before: nat) | Failed

  /** One pending-request record; `probe` fixes its identifier. Every settlement ever made is kept. */
  datatype Request = Request(probe: nat, waits: bool, started: bool, responded: bool, settlements: seq<Settlement>)

  datatype Barrier = Blocked | Ready | Broken

  /** A reply held back until `target` inbound messages are acknowledged, and its continuation. */
  datatype Held = Held(target: nat, origin: Option<nat>, reply: Reply, barrier: Barrier)

  datatype Limits = Limits(maxPending: nat, maxWrites: nat)

  /** `pending` maps an identifier to the newest request using it. `queue` holds the frames waiting for
      the stream (None: a notification or response), `writing` the one being flushed, `wire` those handed
      over. `failures` are requests whose failed write still has to be reported to them. */
  datatype Rpc = Rpc(
    open: bool, probes: nat, requests: seq<Request>, pending: map<int, nat>,
    sequence: nat, acked: nat, held: map<nat, Held>,
    queue: seq<Option<nat>>, writing: Option<Option<nat>>, wire: seq<Option<nat>>, failures: set<nat>)

  function Initial(): Rpc {
    Rpc(true, 0, [], map[], 0, 0, map[], [], None, [], {})
  }

  function IdOf(r: Request): int {
    IdAt(r.probe)
  }

  predicate Settled(r: Request) {
    r.settlements != []
  }

  function Release(h: Held): Held {
    if h.barrier == Blocked then h.(barrier := Ready) else h
  }

  function ReleaseOne(held: map<nat, Held>, n: nat): map<nat, Held> {
    if n in held then held[n := Release(held[n])] else held
  }

  function Extended(requests: seq<Request>, n: nat, outcome: Settlement): seq<Request>
    requires n < |requests|
  {
    requests[n := requests[n].(settlements := requests[n].settlements + [outcome])]
  }

  /** Settle whatever request the identifier names now; its barrier waiter, if any, is released. */
  function Settle(s: Rpc, id: int, outcome: Settlement): Rpc
    requires id in s.pending ==> s.pending[id] < |s.requests|
  {
    if id !in s.pending then s
    else
      var n := s.pending[id];
      s.(pending := s.pending - {id}, requests := Extended(s.requests, n, outcome), held := ReleaseOne(s.held, n))
  }

  function BusyWrites(s: Rpc): nat {
    |s.queue| + if s.writing.Some? then 1 else 0
  }

  predicate Accepts(l: Limits, s: Rpc) {
    s.open && |s.pending| < l.maxPending
  }

  /** A call of `request`; None in the second place when it is refused before anything is registered.
      An identifier is spent even when the message does not encode. */
  ghost function Requested(l: Limits, s: Rpc, waits: bool, encodes: bool): (Rpc, Option<nat>)
    requires l.maxPending <= MAX_SAFE_INTEGER
  {
    if !Accepts(l, s) then (s, None)
    else
      var probe := FirstFree(s.pending.Keys, s.probes);
      if !encodes then (s.(probes := probe + 1), None)
      else
        var n := |s.requests|;
        var registered := s.(probes := probe + 1, requests := s.requests + [Request(probe, waits, false, false, [])],
                             pending := s.pending[IdAt(probe) := n]);
        (Enqueued(l, registered, n), Some(n))
  }

  function Enqueued(l: Limits, s: Rpc, n: nat): Rpc {
    if BusyWrites(s) < l.maxWrites then s.(queue := s.queue + [Some(n)]) else s.(failures := s.failures + {n})
  }

  function OtherQueued(l: Limits, s: Rpc): Rpc {
    if s.open && BusyWrites(s) < l.maxWrites then s.(queue := s.queue + [None]) else s
  }

  function BreakAll(held: map<nat, Held>): map<nat, Held> {
    map n | n in held :: if held[n].barrier == Blocked then held[n].(barrier := Broken) else held[n]
  }

  function FailAll(requests: seq<Request>): (r: seq<Request>)
    ensures |r| == |requests|
  {
    seq(|requests|, i requires 0 <= i < |requests| =>
      if requests[i].settlements == [] then requests[i].(settlements := [Failed]) else requests[i])
  }

  function FailureOf(write: Option<Option<nat>>): set<nat> {
    if write.Some? && write.value.Some? then {write.value.value} else {}
  }

  function Terminated(s: Rpc): Rpc {
    if !s.open then s
    else
      s.(open := false, requests := FailAll(s.requests), pending := map[], held := BreakAll(s.held), writing := None,
         failures := s.failures + FailureOf(s.writing))
  }

  /** The next queued frame gets its turn. A request's frame goes out only while its identifier is pending. */
  function Turned(s: Rpc, streamTakes: bool): Rpc
    requires forall i :: 0 <= i < |s.queue| ==> s.queue[i].Some? ==> s.queue[i].value < |s.requests|
    requires forall id :: id in s.pending ==> s.pending[id] < |s.requests|
  {
    if s.writing.Some? || s.queue == [] then s
    else
      var w, popped := s.queue[0], s.(queue := s.queue[1..]);
      if !s.open then popped.(failures := s.failures + FailureOf(Some(w)))
      else if w.None? then Handed(popped, w, streamTakes)
      else if IdOf(s.requests[w.value]) !in s.pending then popped
      else
        var m := s.pending[IdOf(s.requests[w.value])];
        Handed(popped.(requests := Begun(s.requests, m)), w, streamTakes)
  }

  function Begun(requests: seq<Request>, m: nat): seq<Request>
    requires m < |requests|
  {
    requests[m := requests[m].(started := true)]
  }

  function Handed(s: Rpc, w: Option<nat>, streamTakes: bool): Rpc {
    var handed := s.(writing := Some(w), wire := s.wire + [w]);
    if streamTakes then handed else Terminated(handed)
  }

  function Flushed(s: Rpc): Rpc {
    s.(writing := None)
  }

  predicate Matches(s: Rpc, id: int) {
    && id in s.pending && s.pending[id] < |s.requests|
    && s.requests[s.pending[id]].started && !s.requests[s.pending[id]].responded
  }

  function Marked(requests: seq<Request>, n: nat): seq<Request>
    requires n < |requests|
  {
    requests[n := requests[n].(responded := true)]
  }

  /** A response envelope; replies that match no started, unanswered request are only diagnosed. */
  function Responded(s: Rpc, of: Option<nat>, id: int, reply: Reply): Rpc
    requires id in s.pending ==> s.pending[id] < |s.requests|
  {
    if !s.open || !Matches(s, id) then s
    else
      var n := s.pending[id];
      var marked := s.(requests := Marked(s.requests, n));
      if !s.requests[n].waits then Settle(marked, id, Answered(of, reply, s.sequence))
      else marked.(held := s.held[n := Held(s.sequence, of, reply, if s.sequence <= s.acked then Ready else Blocked)])
  }

  /** The remote side answers the frame of request `n`, however late, under the identifier the frame carried. */
  function Replied(s: Rpc, n: nat, reply: Reply): Rpc
    requires forall id :: id in s.pending ==> s.pending[id] < |s.requests|
  {
    if n < |s.requests| && Some(n) in s.wire then Responded(s, Some(n), IdOf(s.requests[n]), reply) else s
  }

  function Inbound(s: Rpc, fits: bool): Rpc {
    if !s.open then s
    else if fits then s.(sequence := s.sequence + 1)
    else Terminated(s.(sequence := s.sequence + 1))
  }

  function ReleaseUpTo(held: map<nat, Held>, sequence: nat): map<nat, Held> {
    map n | n in held :: if held[n].target <= sequence then Release(held[n]) else held[n]
  }

  /** The consumer comes back for more after handling message `sequence`. */
  function Acknowledged(s: Rpc, sequence: nat): Rpc {
    if s.acked < sequence <= s.sequence then s.(acked := sequence, held := ReleaseUpTo(s.held, sequence)) else s
  }

  /** The continuation of request `n`'s barrier runs. */
  function Resumed(s: Rpc, n: nat): Rpc
    requires n in s.held ==> n < |s.requests|
    requires forall id :: id in s.pending ==> s.pending[id] < |s.requests|
  {
    if n !in s.held || s.held[n].barrier == Blocked then s
    else
      var h := s.held[n];
      Settle(s.(held := s.held - {n}), IdOf(s.requests[n]),
             if h.barrier == Ready then Answered(h.origin, h.reply, h.target) else Failed)
  }

  /** The continuation of request `n`'s failed write runs. */
  function Reported(s: Rpc, n: nat): Rpc
    requires n in s.failures ==> n < |s.requests|
    requires forall id :: id in s.pending ==> s.pending[id] < |s.requests|
  {
    if n in s.failures then Settle(s.(failures := s.failures - {n}), IdOf(s.requests[n]), Failed) else s
  }

  // ---------------------------------------------------------------- every interleaving

  datatype Op =
    | Issue(waits: bool, encodes: bool) | OtherWrite | Expire(id: int) | Turn(streamTakes: bool) | Flush
    | Response(n: nat, reply: Reply) | Stray(id: int, reply: Reply) | Arrive(fits: bool) | Acknowledge(sequence: nat)
    | Resume(n: nat) | Report(n: nat) | Terminate

  ghost predicate Allocated(requests: seq<Request>, probes: nat) {
    && (forall i :: 0 <= i < |requests| ==> requests[i].probe < probes)
    && (forall i, j :: 0 <= i < j < |requests| ==> requests[i].probe < requests[j].probe)
    && (forall i, j :: 0 <= i < j < |requests| && IdOf(requests[i]) == IdOf(requests[j]) ==> Settled(requests[i]))
  }

  /** Pending identifiers are exactly those of the unsettled requests. */
  ghost predicate Correlated(requests: seq<Request>, pending: map<int, nat>) {
    && (forall id :: id in pending ==>
          pending[id] < |requests| && IdOf(requests[pending[id]]) == id && !Settled(requests[pending[id]]))
    && (forall n :: 0 <= n < |requests| && !Settled(requests[n]) ==>
          IdOf(requests[n]) in pending && pending[IdOf(requests[n])] == n)
    && (forall n :: 0 <= n < |requests| ==> |requests[n].settlements| <= 1)
  }

  ghost predicate HeldOk(r: Request, h: Held, open: bool, sequence: nat, acked: nat) {
    && r.started && r.responded && r.waits
    && h.target <= sequence
    && (h.barrier == Blocked ==> !Settled(r) && open && acked < h.target)
    && (h.barrier == Ready && !Settled(r) ==> h.target <= acked)
  }

  ghost predicate Barred(requests: seq<Request>, held: map<nat, Held>, open: bool, sequence: nat, acked: nat) {
    && (forall n :: n in held ==> n < |requests| && HeldOk(requests[n], held[n], open, sequence, acked))
    && (forall n :: 0 <= n < |requests| && requests[n].responded && !Settled(requests[n]) ==> n in held)
  }

  ghost predicate Queued(s: Rpc) {
    && (forall i :: 0 <= i < |s.queue| ==> s.queue[i].Some? ==> s.queue[i].value < |s.requests|)
    && (s.writing.Some? && s.writing.value.Some? ==> s.writing.value.value < |s.requests|)
    && (forall n :: n in s.failures ==> n < |s.requests|)
  }

  ghost predicate Inv(l: Limits, s: Rpc) {
    && l.maxPending <= MAX_SAFE_INTEGER
    && |s.pending| <= l.maxPending && BusyWrites(s) <= l.maxWrites && s.acked <= s.sequence
    && (!s.open ==> s.pending == map[])
    && Allocated(s.requests, s.probes) && Correlated(s.requests, s.pending)
    && Barred(s.requests, s.held, s.open, s.sequence, s.acked) && Queued(s)
  }

  ghost function Step(l: Limits, s: Rpc, op: Op): Rpc
    requires Inv(l, s)
  {
    match op
    case Issue(waits, encodes) => Requested(l, s, waits, encodes).0
    case OtherWrite => OtherQueued(l, s)
    case Expire(id) => Settle(s, id, Failed)
    case Turn(streamTakes) => Turned(s, streamTakes)
    case Flush => Flushed(s)
    case Response(n, reply) => Replied(s, n, reply)
    case Stray(id, reply) => Responded(s, None, id, reply)
    case Arrive(fits) => Inbound(s, fits)
    case Acknowledge(sequence) => Acknowledged(s, sequence)
    case Resume(n) => Resumed(s, n)
    case Report(n) => Reported(s, n)
    case Terminate => Terminated(s)
  }

  // Each kind of step keeps the invariant.

  /** Updating a record leaves its identifier alone and never unsettles it. */
  lemma UpdateAllocated(requests: seq<Request>, probes: nat, n: nat, r: Request)
    requires Allocated(requests, probes) && n < |requests|
    requires r.probe == requests[n].probe && (Settled(requests[n]) ==> Settled(r))
    ensures Allocated(requests[n := r], probes)
  {
    hide IdAt;
  }

  lemma UpdateCorrelated(requests: seq<Request>, pending: map<int, nat>, n: nat, r: Request)
    requires Correlated(requests, pending) && n < |requests|
    requires r.probe == requests[n].probe && r.settlements == requests[n].settlements
    ensures Correlated(requests[n := r], pending)
  {
    hide IdAt;
  }

  lemma SettleCorrelated(requests: seq<Request>, pending: map<int, nat>, id: int, outcome: Settlement)
    requires Correlated(requests, pending) && id in pending
    ensures Correlated(Extended(requests, pending[id], outcome), pending - {id})
    ensures |pending - {id}| < |pending|
  {
    hide IdAt;
    assert (pending - {id}).Keys == pending.Keys - {id};
  }

  lemma UpdateBarred(requests: seq<Request>, held: map<nat, Held>, open: bool, sequence: nat, acked: nat, n: nat,
      r: Request)
    requires Barred(requests, held, open, sequence, acked) && n < |requests|
    requires r == requests[n].(started := true)
    ensures Barred(requests[n := r], held, open, sequence, acked)
  {
  }

  lemma SettleBarred(requests: seq<Request>, held: map<nat, Held>, open: bool, sequence: nat, acked: nat, n: nat,
      outcome: Settlement)
    requires Barred(requests, held, open, sequence, acked) && n < |requests|
    ensures Barred(Extended(requests, n, outcome), ReleaseOne(held, n), open, sequence, acked)
  {
  }

  lemma SettleKeeps(l: Limits, s: Rpc, id: int, outcome: Settlement)
    requires Inv(l, s)
    ensures Inv(l, Settle(s, id, outcome))
  {
    hide IdOf, Allocated, Correlated, Barred;
    if id in s.pending {
      assert s.pending[id] < |s.requests| by { CorrelatedIndex(s.requests, s.pending, id); }
      var n := s.pending[id];
      UpdateAllocated(s.requests, s.probes, n, Extended(s.requests, n, outcome)[n]);
      SettleCorrelated(s.requests, s.pending, id, outcome);
      SettleBarred(s.requests, s.held, s.open, s.sequence, s.acked, n, outcome);
    }
  }

  lemma CorrelatedIndex(requests: seq<Request>, pending: map<int, nat>, id: int)
    requires Correlated(requests, pending) && id in pending
    ensures pending[id] < |requests| && IdOf(requests[pending[id]]) == id && !Settled(requests[pending[id]])
  {
  }

  lemma NonePending(requests: seq<Request>, pending: map<int, nat>)
    requires Correlated(requests, pending) && pending.Keys == {}
    ensures pending == map[]
    ensures forall n :: 0 <= n < |requests| ==> Settled(requests[n])
  {
  }

  lemma RegisteredAllocated(requests: seq<Request>, pending: map<int, nat>, probes: nat, probe: nat, r: Request)
    requires Allocated(requests, probes) && Correlated(requests, pending)
    requires probes <= probe && r.probe == probe && IdAt(probe) !in pending
    ensures Allocated(requests + [r], probe + 1)
  {
    hide IdAt;
  }

  lemma RegisteredCorrelated(requests: seq<Request>, pending: map<int, nat>, r: Request)
    requires Correlated(requests, pending) && IdOf(r) !in pending && !Settled(r)
    ensures Correlated(requests + [r], pending[IdOf(r) := |requests|])
    ensures |pending[IdOf(r) := |requests|]| == |pending| + 1
  {
    hide IdAt;
    assert pending[IdOf(r) := |requests|].Keys == pending.Keys + {IdOf(r)};
  }

  lemma RegisteredBarred(requests: seq<Request>, held: map<nat, Held>, open: bool, sequence: nat, acked: nat,
      r: Request)
    requires Barred(requests, held, open, sequence, acked) && !r.responded
    ensures Barred(requests + [r], held, open, sequence, acked)
  {
  }

  lemma IssuedKeeps(l: Limits, s: Rpc, waits: bool, encodes: bool)
    requires Inv(l, s)
    ensures Inv(l, Requested(l, s, waits, encodes).0)
  {
    hide Allocated, Correlated, Barred;
    if Accepts(l, s) {
      var probe := FirstFree(s.pending.Keys, s.probes);
      var r := Request.Request(probe, waits, false, false, []);
      RegisteredAllocated(s.requests, s.pending, s.probes, probe, r);
      RegisteredCorrelated(s.requests, s.pending, r);
      RegisteredBarred(s.requests, s.held, s.open, s.sequence, s.acked, r);
      SpentProbe(s.requests, s.probes, probe + 1);
    }
  }

  lemma SpentProbe(requests: seq<Request>, probes: nat, later: nat)
    requires Allocated(requests, probes) && probes <= later
    ensures Allocated(requests, later)
  {
    hide IdOf;
  }

  lemma FailedAll(requests: seq<Request>, probes: nat, pending: map<int, nat>)
    requires Allocated(requests, probes) && Correlated(requests, pending)
    ensures Allocated(FailAll(requests), probes) && Correlated(FailAll(requests), map[])
    ensures forall n :: 0 <= n < |requests| ==> |FailAll(requests)[n].settlements| == 1
  {
    hide IdAt;
  }

  lemma BrokenBarred(requests: seq<Request>, held: map<nat, Held>, open: bool, sequence: nat, acked: nat)
    requires Barred(requests, held, open, sequence, acked)
    ensures Barred(FailAll(requests), BreakAll(held), false, sequence, acked)
  {
  }

  lemma TerminatedKeeps(l: Limits, s: Rpc)
    requires Inv(l, s)
    ensures Inv(l, Terminated(s))
  {
    hide IdOf, Allocated, Correlated, Barred, FailAll;
    if s.open {
      FailedAll(s.requests, s.probes, s.pending);
      BrokenBarred(s.requests, s.held, s.open, s.sequence, s.acked);
    }
  }

  lemma StartedKeeps(l: Limits, s: Rpc, m: nat)
    requires Inv(l, s) && m < |s.requests|
    ensures Inv(l, s.(requests := Begun(s.requests, m)))
  {
    hide IdOf, Allocated, Correlated, Barred;
    UpdateAllocated(s.requests, s.probes, m, s.requests[m].(started := true));
    UpdateCorrelated(s.requests, s.pending, m, s.requests[m].(started := true));
    UpdateBarred(s.requests, s.held, s.open, s.sequence, s.acked, m, s.requests[m].(started := true));
  }

  lemma HandedKeeps(l: Limits, s: Rpc, w: Option<nat>, streamTakes: bool)
    requires Inv(l, s) && s.writing.None? && BusyWrites(s) < l.maxWrites
    requires w.Some? ==> w.value < |s.requests|
    ensures Inv(l, Handed(s, w, streamTakes))
  {
    hide Allocated, Correlated, Barred, Terminated;
    TerminatedKeeps(l, s.(writing := Some(w), wire := s.wire + [w]));
  }

  lemma TurnedKeeps(l: Limits, s: Rpc, streamTakes: bool)
    requires Inv(l, s)
    ensures Inv(l, Turned(s, streamTakes))
  {
    hide Allocated, Correlated, Barred, Handed;
    PendingIndices(s.requests, s.pending);
    if s.writing.None? && s.queue != [] {
      var w, popped := s.queue[0], s.(queue := s.queue[1..]);
      if s.open && w.None? {
        HandedKeeps(l, popped, w, streamTakes);
      } else if s.open && IdOf(s.requests[w.value]) in s.pending {
        var m := s.pending[IdOf(s.requests[w.value])];
        StartedKeeps(l, popped, m);
        HandedKeeps(l, popped.(requests := Begun(s.requests, m)), w, streamTakes);
      }
    }
  }

  lemma PendingIndices(requests: seq<Request>, pending: map<int, nat>)
    requires Correlated(requests, pending)
    ensures forall id :: id in pending ==> pending[id] < |requests|
  {
  }

  lemma HeldIndices(requests: seq<Request>, held: map<nat, Held>, open: bool, sequence: nat, acked: nat)
    requires Barred(requests, held, open, sequence, acked)
    ensures forall n :: n in held ==> n < |requests|
  {
  }

  lemma AnsweredBarred(requests: seq<Request>, held: map<nat, Held>, open: bool, sequence: nat, acked: nat, n: nat,
      of: Option<nat>, reply: Reply)
    requires Barred(requests, held, open, sequence, acked) && acked <= sequence && open
    requires n < |requests| && requests[n].started && !Settled(requests[n])
    ensures !requests[n].waits ==>
      Barred(Extended(Marked(requests, n), n, Answered(of, reply, sequence)), ReleaseOne(held, n), open, sequence,
          acked)
    ensures requests[n].waits ==>
      Barred(Marked(requests, n), held[n := Held(sequence, of, reply, if sequence <= acked then Ready else Blocked)],
             open, sequence, acked)
  {
  }

  lemma RespondedKeeps(l: Limits, s: Rpc, of: Option<nat>, id: int, reply: Reply)
    requires Inv(l, s)
    ensures Inv(l, Responded(s, of, id, reply))
  {
    hide IdOf, Allocated, Correlated, Barred;
    PendingIndices(s.requests, s.pending);
    if s.open && Matches(s, id) {
      CorrelatedIndex(s.requests, s.pending, id);
      var n := s.pending[id];
      var r := s.requests[n].(responded := true);
      UpdateAllocated(s.requests, s.probes, n, r);
      UpdateCorrelated(s.requests, s.pending, n, r);
      AnsweredBarred(s.requests, s.held, s.open, s.sequence, s.acked, n, of, reply);
      if !s.requests[n].waits {
        UpdateAllocated(Marked(s.requests, n), s.probes, n,
            Extended(Marked(s.requests, n), n, Answered(of, reply, s.sequence))[n]);
        SettleCorrelated(Marked(s.requests, n), s.pending, id, Answered(of, reply, s.sequence));
      }
    }
  }

  lemma RepliedKeeps(l: Limits, s: Rpc, n: nat, reply: Reply)
    requires Inv(l, s)
    ensures forall id :: id in s.pending ==> s.pending[id] < |s.requests|
    ensures Inv(l, Replied(s, n, reply))
  {
    PendingIndices(s.requests, s.pending);
    hide Inv, IdOf, Responded;
    if n < |s.requests| {
      RespondedKeeps(l, s, Some(n), IdOf(s.requests[n]), reply);
    }
  }

  lemma AcknowledgedBarred(requests: seq<Request>, held: map<nat, Held>, open: bool, sequence: nat, acked: nat,
      upTo: nat)
    requires Barred(requests, held, open, sequence, acked) && acked < upTo <= sequence
    ensures Barred(requests, ReleaseUpTo(held, upTo), open, sequence, upTo)
  {
  }

  lemma ArrivedBarred(requests: seq<Request>, held: map<nat, Held>, open: bool, sequence: nat, acked: nat)
    requires Barred(requests, held, open, sequence, acked)
    ensures Barred(requests, held, open, sequence + 1, acked)
  {
  }

  lemma BarrierKeeps(l: Limits, s: Rpc, fits: bool, upTo: nat)
    requires Inv(l, s)
    ensures Inv(l, Inbound(s, fits))
    ensures Inv(l, Acknowledged(s, upTo))
  {
    hide IdOf, Allocated, Correlated, Barred, Terminated, ReleaseUpTo;
    ArrivedBarred(s.requests, s.held, s.open, s.sequence, s.acked);
    TerminatedKeeps(l, s.(sequence := s.sequence + 1));
    if s.acked < upTo <= s.sequence {
      AcknowledgedBarred(s.requests, s.held, s.open, s.sequence, s.acked, upTo);
    }
  }

  lemma DroppedBarred(requests: seq<Request>, held: map<nat, Held>, open: bool, sequence: nat, acked: nat, n: nat)
    requires Barred(requests, held, open, sequence, acked) && n in held
    requires n < |requests| && Settled(requests[n])
    ensures Barred(requests, held - {n}, open, sequence, acked)
  {
  }

  /** A held reply may be dropped once its request is settled, and settling the identifier it was sent
      under settles that request: either it is the one pending there or it was settled before. */
  lemma ResumedKeeps(l: Limits, s: Rpc, n: nat)
    requires Inv(l, s)
    ensures n in s.held ==> n < |s.requests|
    ensures forall id :: id in s.pending ==> s.pending[id] < |s.requests|
    ensures Inv(l, Resumed(s, n))
  {
    hide IdOf, Allocated, Correlated, Barred, Settle;
    PendingIndices(s.requests, s.pending);
    HeldIndices(s.requests, s.held, s.open, s.sequence, s.acked);
    if n in s.held && s.held[n].barrier != Blocked {
      var h := s.held[n];
      var outcome := if h.barrier == Ready then Answered(h.origin, h.reply, h.target) else Failed;
      var id := IdOf(s.requests[n]);
      SettleKeeps(l, s, id, outcome);
      SettlesOwn(s, n, outcome);
      var t := Settle(s, id, outcome);
      DroppedBarred(t.requests, t.held, t.open, t.sequence, t.acked, n);
    }
  }

  /** Settling at a request's identifier leaves that request settled, and commutes with dropping its held reply. */
  lemma SettlesOwn(s: Rpc, n: nat, outcome: Settlement)
    requires Correlated(s.requests, s.pending) && n < |s.requests| && n in s.held
    requires s.held[n].barrier != Blocked
    ensures var t := Settle(s, IdOf(s.requests[n]), outcome);
      |t.requests| == |s.requests| && Settled(t.requests[n]) && n in t.held
      && Settle(s.(held := s.held - {n}), IdOf(s.requests[n]), outcome) == t.(held := t.held - {n})
  {
    hide IdAt;
    var id := IdOf(s.requests[n]);
    if id in s.pending {
      assert ReleaseOne(s.held - {n}, s.pending[id]) == ReleaseOne(s.held, s.pending[id]) - {n};
    }
  }

  lemma ReportedKeeps(l: Limits, s: Rpc, n: nat)
    requires Inv(l, s)
    ensures n in s.failures ==> n < |s.requests|
    ensures forall id :: id in s.pending ==> s.pending[id] < |s.requests|
    ensures Inv(l, Reported(s, n))
  {
    hide Allocated, Correlated, Barred, Settle;
    PendingIndices(s.requests, s.pending);
    if n in s.failures {
      SettleKeeps(l, s.(failures := s.failures - {n}), IdOf(s.requests[n]), Failed);
    }
  }

  lemma StepKeeps(l: Limits, s: Rpc, op: Op)
    requires Inv(l, s)
    ensures Inv(l, Step(l, s, op))
  {
    hide Allocated, Correlated, Barred, Settle, Turned, Responded, Replied, Resumed, Reported, Requested, Inbound,
        Acknowledged, Terminated;
    match op
    case Issue(waits, encodes) => IssuedKeeps(l, s, waits, encodes);
    case Expire(id) => PendingIndices(s.requests, s.pending); SettleKeeps(l, s, id, Failed);
    case Turn(streamTakes) => TurnedKeeps(l, s, streamTakes);
    case Response(n, reply) => RepliedKeeps(l, s, n, reply);
    case Stray(id, reply) => RespondedKeeps(l, s, None, id, reply);
    case Arrive(fits) => BarrierKeeps(l, s, fits, 0);
    case Acknowledge(sequence) => BarrierKeeps(l, s, true, sequence);
    case Resume(n) => ResumedKeeps(l, s, n);
    case Report(n) => ReportedKeeps(l, s, n);
    case Terminate => TerminatedKeeps(l, s);
    case _ =>
  }

  // ---------------------------------------------------------------- whole runs

  ghost function Run(l: Limits, s: Rpc, ops: seq<Op>): (r: Rpc)
    requires Inv(l, s)
    ensures Inv(l, r)
    decreases |ops|
  {
    if ops == [] then s
    else
      StepKeeps(l, s, ops[0]);
      Run(l, Step(l, s, ops[0]), ops[1..])
  }

  /** Records keep their identifier and kind, and settlements are only ever added. */
  ghost predicate Grows(a: Rpc, b: Rpc) {
    && |a.requests| <= |b.requests| && (b.open ==> a.open) && a.acked <= b.acked
    && forall n :: 0 <= n < |a.requests| ==>
         && b.requests[n].probe == a.requests[n].probe && b.requests[n].waits == a.requests[n].waits
         && (a.requests[n].started ==> b.requests[n].started)
         && a.requests[n].settlements <= b.requests[n].settlements
  }

  lemma SettleGrows(s: Rpc, id: int, outcome: Settlement)
    requires id in s.pending ==> s.pending[id] < |s.requests|
    ensures Grows(s, Settle(s, id, outcome))
  {
  }

  lemma ContinuationsGrow(s: Rpc, n: nat)
    requires n in s.held || n in s.failures ==> n < |s.requests|
    requires forall id :: id in s.pending ==> s.pending[id] < |s.requests|
    ensures Grows(s, Resumed(s, n)) && Grows(s, Reported(s, n))
  {
    hide IdOf, Settle;
    if n in s.held && s.held[n].barrier != Blocked {
      var h := s.held[n];
      SettleGrows(s.(held := s.held - {n}), IdOf(s.requests[n]),
                  if h.barrier == Ready then Answered(h.origin, h.reply, h.target) else Failed);
    }
    if n in s.failures {
      SettleGrows(s.(failures := s.failures - {n}), IdOf(s.requests[n]), Failed);
    }
  }

  lemma RespondedGrows(s: Rpc, of: Option<nat>, id: int, reply: Reply)
    requires id in s.pending ==> s.pending[id] < |s.requests|
    ensures Grows(s, Responded(s, of, id, reply))
  {
    hide Settle;
    if s.open && Matches(s, id) && !s.requests[s.pending[id]].waits {
      SettleGrows(s.(requests := Marked(s.requests, s.pending[id])), id, Answered(of, reply, s.sequence));
    }
  }

  lemma TurnedGrows(s: Rpc, streamTakes: bool)
    requires forall i :: 0 <= i < |s.queue| ==> s.queue[i].Some? ==> s.queue[i].value < |s.requests|
    requires forall id :: id in s.pending ==> s.pending[id] < |s.requests|
    ensures Grows(s, Turned(s, streamTakes))
  {
    hide IdOf, BreakAll;
  }

  lemma TerminatedGrows(s: Rpc)
    ensures Grows(s, Terminated(s))
  {
    hide BreakAll;
  }

  lemma IssuedGrows(l: Limits, s: Rpc, waits: bool, encodes: bool)
    requires l.maxPending <= MAX_SAFE_INTEGER
    ensures Grows(s, Requested(l, s, waits, encodes).0)
  {
    hide IdAt, FirstFree;
  }

  lemma BarrierGrows(s: Rpc, fits: bool, sequence: nat)
    ensures Grows(s, Inbound(s, fits)) && Grows(s, Acknowledged(s, sequence))
  {
    hide BreakAll, ReleaseUpTo;
  }

  lemma WritesGrow(l: Limits, s: Rpc)
    ensures Grows(s, OtherQueued(l, s)) && Grows(s, Flushed(s))
  {
  }

  lemma StepGrows(l: Limits, s: Rpc, op: Op)
    requires Inv(l, s)
    ensures Grows(s, Step(l, s, op))
  {
    PendingIndices(s.requests, s.pending);
    HeldIndices(s.requests, s.held, s.open, s.sequence, s.acked);
    hide Grows, Settle, Turned, Requested, Terminated, Resumed, Reported, Responded, Inbound, Acknowledged, OtherQueued,
        Flushed;
    match op
    case Issue(waits, encodes) => IssuedGrows(l, s, waits, encodes);
    case Expire(id) => SettleGrows(s, id, Failed);
    case Turn(streamTakes) => TurnedGrows(s, streamTakes);
    case Resume(n) => ContinuationsGrow(s, n);
    case Report(n) => ContinuationsGrow(s, n);
    case Response(n, reply) =>
      if n < |s.requests| {
        RespondedGrows(s, Some(n), IdOf(s.requests[n]), reply);
      }
    case Stray(id, reply) => RespondedGrows(s, None, id, reply);
    case Arrive(fits) => BarrierGrows(s, fits, 0);
    case Acknowledge(sequence) => BarrierGrows(s, true, sequence);
    case Terminate => TerminatedGrows(s);
    case _ => WritesGrow(l, s);
  }

  lemma {:induction false} RunGrows(l: Limits, s: Rpc, ops: seq<Op>)
    requires Inv(l, s)
    ensures Grows(s, Run(l, s, ops))
    decreases |ops|
  {
    hide Inv, Step;
    if ops != [] {
      StepKeeps(l, s, ops[0]);
      StepGrows(l, s, ops[0]);
      RunGrows(l, Step(l, s, ops[0]), ops[1..]);
    }
  }

  /** Each request settles at most once, for good, and once settled its identifier is released; a request
      not yet settled is still pending under its own identifier, so every later end can reach it. */
  lemma SettlesOnce(l: Limits, s: Rpc, ops: seq<Op>, n: nat)
    requires Inv(l, s) && n < |s.requests|
    ensures var t := Run(l, s, ops);
      && n < |t.requests| && |t.requests[n].settlements| <= 1
      && (Settled(s.requests[n]) ==> t.requests[n].settlements == s.requests[n].settlements)
      && (t.requests[n].settlements == [] <==> IdOf(t.requests[n]) in t.pending && t.pending[IdOf(t.requests[n])] == n)
  {
    hide IdAt, Run;
    RunGrows(l, s, ops);
  }

  /** Termination leaves nothing pending: every request there is has been settled exactly once, and no barrier
      still waits, whatever else the run goes on to do. */
  lemma TerminationSettlesAll(l: Limits, s: Rpc, ops: seq<Op>)
    requires Inv(l, s) && ops != [] && ops[0] == Terminate
    ensures var t := Run(l, s, ops);
      && !t.open && t.pending == map[]
      && (forall n :: 0 <= n < |t.requests| ==> |t.requests[n].settlements| == 1)
      && (forall n :: n in t.held ==> t.held[n].barrier != Blocked)
  {
    hide Allocated, Terminated;
    StepKeeps(l, s, ops[0]);
    TerminatedCloses(s);
    RunGrows(l, Terminated(s), ops[1..]);
    assert Run(l, s, ops) == Run(l, Terminated(s), ops[1..]);
    hide Run;
  }

  lemma TerminatedCloses(s: Rpc)
    ensures !Terminated(s).open
  {
  }

  // ---------------------------------------------------------------- whose reply it was

  /** A continuation refers to its request only by identifier. For it to find another request there, a whole
      cycle of identifiers must have been allocated since. */
  lemma StaleNeedsFullCycle(l: Limits, s: Rpc, n: nat)
    requires Inv(l, s) && n < |s.requests| && IdOf(s.requests[n]) in s.pending
    ensures var m := s.pending[IdOf(s.requests[n])];
      m != n ==> n < m && s.requests[n].probe + MAX_SAFE_INTEGER <= s.requests[m].probe < s.probes
  {
    hide Barred;
    var m := s.pending[IdOf(s.requests[n])];
    if m != n {
      if m < n {
        assert false;
      }
      CyclesApart(s.requests[n].probe, s.requests[m].probe);
    }
  }

  /** The request that another one's identifier names now. */
  function Mistaken(s: Rpc, n: nat): Option<nat> {
    if n < |s.requests| && IdOf(s.requests[n]) in s.pending && s.pending[IdOf(s.requests[n])] != n
    then Some(s.pending[IdOf(s.requests[n])]) else None
  }

  /** The guards of the steps that act on the wrong request: a queued frame is written while its identifier
      names another request, whose own frame is not out yet; a reply is accepted while the identifier of the
      frame it answers names another request, or although it answers no frame; a held reply is released while
      its identifier names another request. */
  predicate Misleads(s: Rpc, op: Op) {
    match op
    case Turn(_) =>
      && s.open && s.writing.None? && s.queue != [] && s.queue[0].Some?
      && var m := Mistaken(s, s.queue[0].value);
      m.Some? && m !in s.wire
    case Response(n, _) =>
      && s.open && n < |s.requests| && Some(n) in s.wire
      && Matches(s, IdOf(s.requests[n])) && Mistaken(s, n).Some?
    case Stray(id, _) => s.open && Matches(s, id)
    case Resume(n) => n in s.held && s.held[n].barrier == Ready && Mistaken(s, n).Some?
    case _ => false
  }

  ghost predicate OwnReply(r: Request, n: nat, wire: seq<Option<nat>>, acked: nat) {
    && (r.started ==> Some(n) in wire)
    && (forall k :: 0 <= k < |r.settlements| && r.settlements[k].Answered? ==>
          r.settlements[k].origin == Some(n) && r.started && (r.waits ==> r.settlements[k].before <= acked))
  }

  ghost predicate OwnHeld(held: map<nat, Held>) {
    forall n :: n in held ==> held[n].origin == Some(n)
  }

  /** Whatever was started was written, and whatever was answered was answered by the reply to its own frame,
      after that frame was written and, when so asked, after every message ahead of the reply was
      acknowledged. Replies held back are held for the request whose frame they answer. */
  ghost predicate Own(s: Rpc) {
    (forall n :: 0 <= n < |s.requests| ==> OwnReply(s.requests[n], n, s.wire, s.acked)) && OwnHeld(s.held)
  }

  lemma OwnHeldKeeps(held: map<nat, Held>, upTo: nat)
    requires OwnHeld(held)
    ensures OwnHeld(BreakAll(held)) && OwnHeld(ReleaseUpTo(held, upTo))
  {
  }

  lemma SettleOwn(s: Rpc, n: nat, outcome: Settlement)
    requires Own(s) && Correlated(s.requests, s.pending) && n < |s.requests|
    requires IdOf(s.requests[n]) in s.pending ==> s.pending[IdOf(s.requests[n])] == n
    requires outcome.Answered? && !Settled(s.requests[n]) ==>
      outcome.origin == Some(n) && s.requests[n].started && (s.requests[n].waits ==> outcome.before <= s.acked)
    ensures Own(Settle(s, IdOf(s.requests[n]), outcome))
  {
    hide IdAt;
  }

  lemma HandedOwn(s: Rpc, n: nat, m: nat, streamTakes: bool)
    requires Own(s) && n < |s.requests| && m < |s.requests|
    ensures Own(Handed(s.(requests := Begun(s.requests, m)), Some(n), streamTakes)) <==> m == n || Some(m) in s.wire
  {
    OwnHeldKeeps(s.held, 0);
    hide BreakAll, OwnHeld;
    var t := Handed(s.(requests := Begun(s.requests, m)), Some(n), streamTakes);
    assert t.wire == s.wire + [Some(n)] && t.requests[m].started;
    if m != n && Some(m) !in s.wire {
      assert !OwnReply(t.requests[m], m, t.wire, t.acked);
    }
  }

  lemma TurnedOwn(l: Limits, s: Rpc, streamTakes: bool)
    requires Inv(l, s) && Own(s)
    ensures forall id :: id in s.pending ==> s.pending[id] < |s.requests|
    ensures Own(Turned(s, streamTakes)) <==> !Misleads(s, Turn(streamTakes))
  {
    hide IdOf, Barred, Allocated, Handed, Begun, OwnReply;
    PendingIndices(s.requests, s.pending);
    if s.writing.None? && s.queue != [] && s.open {
      var w, popped := s.queue[0], s.(queue := s.queue[1..]);
      if w.Some? && IdOf(s.requests[w.value]) in s.pending {
        HandedOwn(popped, w.value, s.pending[IdOf(s.requests[w.value])], streamTakes);
      } else if w.None? {
        NoneOwn(popped, streamTakes);
      }
    }
  }

  lemma NoneOwn(s: Rpc, streamTakes: bool)
    requires Own(s)
    ensures Own(Handed(s, None, streamTakes))
  {
    OwnHeldKeeps(s.held, 0);
    hide BreakAll, OwnHeld;
  }

  lemma MarkedOwn(s: Rpc, n: nat)
    requires Own(s) && n < |s.requests|
    ensures Own(s.(requests := Marked(s.requests, n)))
  {
  }

  /** A reply keeps things right exactly when it answers the frame of the request it is matched to. */
  lemma RespondedOwn(l: Limits, s: Rpc, of: Option<nat>, id: int, reply: Reply)
    requires Inv(l, s) && Own(s)
    ensures forall i :: i in s.pending ==> s.pending[i] < |s.requests|
    ensures Own(Responded(s, of, id, reply)) <==> !(s.open && Matches(s, id) && of != Some(s.pending[id]))
  {
    PendingIndices(s.requests, s.pending);
    hide IdOf, Barred, Allocated, Settle, OwnReply;
    if s.open && Matches(s, id) {
      CorrelatedIndex(s.requests, s.pending, id);
      var n := s.pending[id];
      MarkedOwn(s, n);
      UpdateCorrelated(s.requests, s.pending, n, s.requests[n].(responded := true));
      var marked := s.(requests := Marked(s.requests, n));
      if s.requests[n].waits {
        var t := Responded(s, of, id, reply);
        assert t.held[n].origin == of;
      } else if of == Some(n) {
        SettleOwn(marked, n, Answered(of, reply, s.sequence));
      } else {
        StrayOwn(marked, id, of, reply, s.sequence);
      }
    }
  }

  lemma StrayOwn(s: Rpc, id: int, of: Option<nat>, reply: Reply, before: nat)
    requires Correlated(s.requests, s.pending) && id in s.pending && of != Some(s.pending[id])
    ensures !Own(Settle(s, id, Answered(of, reply, before)))
  {
    hide IdAt;
    var t, m := Settle(s, id, Answered(of, reply, before)), s.pending[id];
    assert t.requests[m].settlements[0] == Answered(of, reply, before);
    assert !OwnReply(t.requests[m], m, t.wire, t.acked);
  }

  lemma RepliedOwn(l: Limits, s: Rpc, n: nat, reply: Reply)
    requires Inv(l, s) && Own(s)
    ensures forall i :: i in s.pending ==> s.pending[i] < |s.requests|
    ensures Own(Replied(s, n, reply)) <==> !Misleads(s, Response(n, reply))
  {
    PendingIndices(s.requests, s.pending);
    hide Inv, Own, IdOf, Responded;
    if n < |s.requests| {
      RespondedOwn(l, s, Some(n), IdOf(s.requests[n]), reply);
    }
  }

  /** A failure spoils nothing, whichever request it reaches. */
  lemma FailedOwn(s: Rpc, id: int)
    requires Own(s) && Correlated(s.requests, s.pending)
    ensures Own(Settle(s, id, Failed))
  {
    if id in s.pending {
      SettleOwn(s, s.pending[id], Failed);
    }
    hide IdAt, OwnReply;
  }

  lemma HeldFacts(requests: seq<Request>, held: map<nat, Held>, open: bool, sequence: nat, acked: nat, n: nat)
    requires Barred(requests, held, open, sequence, acked) && OwnHeld(held) && n in held
    ensures n < |requests| && held[n].origin == Some(n) && requests[n].started && OwnHeld(held - {n})
    ensures held[n].barrier == Ready && !Settled(requests[n]) ==> held[n].target <= acked
  {
  }

  lemma DroppedOwn(s: Rpc, n: nat)
    requires Own(s)
    ensures Own(s.(held := s.held - {n}))
  {
    hide OwnReply;
  }

  lemma ResumedOwn(l: Limits, s: Rpc, n: nat)
    requires Inv(l, s) && Own(s)
    ensures n in s.held ==> n < |s.requests|
    ensures forall id :: id in s.pending ==> s.pending[id] < |s.requests|
    ensures Own(Resumed(s, n)) <==> !Misleads(s, Resume(n))
  {
    PendingIndices(s.requests, s.pending);
    HeldIndices(s.requests, s.held, s.open, s.sequence, s.acked);
    DroppedOwn(s, n);
    if n in s.held && s.held[n].barrier != Blocked {
      var h, dropped := s.held[n], s.(held := s.held - {n});
      var id := IdOf(s.requests[n]);
      HeldFacts(s.requests, s.held, s.open, s.sequence, s.acked, n);
      hide IdOf, Allocated, Barred, Correlated, Settle, Own;
      if h.barrier != Ready {
        FailedOwn(dropped, id);
      } else if Mistaken(s, n).Some? {
        StrayOwn(dropped, id, h.origin, h.reply, h.target);
      } else {
        SettleOwn(dropped, n, Answered(h.origin, h.reply, h.target));
      }
    }
  }

  lemma ReportedOwn(l: Limits, s: Rpc, n: nat)
    requires Inv(l, s) && Own(s)
    ensures n in s.failures ==> n < |s.requests|
    ensures forall id :: id in s.pending ==> s.pending[id] < |s.requests|
    ensures Own(Reported(s, n))
  {
    PendingIndices(s.requests, s.pending);
    hide IdOf, Allocated, Barred, Settle, OwnReply, OwnHeld;
    if n in s.failures {
      FailedOwn(s.(failures := s.failures - {n}), IdOf(s.requests[n]));
    }
  }

  lemma IssuedOwn(l: Limits, s: Rpc, waits: bool, encodes: bool)
    requires Own(s) && l.maxPending <= MAX_SAFE_INTEGER
    ensures Own(Requested(l, s, waits, encodes).0)
  {
    hide IdAt, FirstFree, OwnHeld;
  }

  lemma InboundOwn(s: Rpc, fits: bool, upTo: nat)
    requires Own(s)
    ensures Own(Inbound(s, fits)) && Own(Acknowledged(s, upTo)) && Own(Terminated(s))
  {
    OwnHeldKeeps(s.held, upTo);
    hide BreakAll, ReleaseUpTo, OwnHeld;
  }

  /** Every step keeps replies with their requests, except exactly the misleading ones. */
  lemma StepOwn(l: Limits, s: Rpc, op: Op)
    requires Inv(l, s) && Own(s)
    ensures Own(Step(l, s, op)) <==> !Misleads(s, op)
  {
    PendingIndices(s.requests, s.pending);
    hide IdOf, Allocated, Barred, Turned, Responded, Replied, Resumed, Reported, Settle, Requested, Inbound,
        Acknowledged, Terminated, OwnReply, OwnHeld;
    match op
    case Issue(waits, encodes) => IssuedOwn(l, s, waits, encodes);
    case Expire(id) => FailedOwn(s, id);
    case Turn(streamTakes) => TurnedOwn(l, s, streamTakes);
    case Response(n, reply) => RepliedOwn(l, s, n, reply);
    case Stray(id, reply) => RespondedOwn(l, s, None, id, reply);
    case Resume(n) => ResumedOwn(l, s, n);
    case Report(n) => ReportedOwn(l, s, n);
    case Arrive(fits) => InboundOwn(s, fits, 0);
    case Acknowledge(sequence) => InboundOwn(s, true, sequence);
    case Terminate => InboundOwn(s, true, 0);
    case _ =>
  }

  /** No step of the run misleads. */
  ghost predicate StraightRun(l: Limits, s: Rpc, ops: seq<Op>)
    requires Inv(l, s)
    decreases |ops|
  {
    ops == [] || (StepKeeps(l, s, ops[0]); !Misleads(s, ops[0]) && StraightRun(l, Step(l, s, ops[0]), ops[1..]))
  }

  lemma PrefixRun(l: Limits, s: Rpc, ops: seq<Op>, k: nat)
    requires Inv(l, s) && 0 < k <= |ops|
    ensures Inv(l, Step(l, s, ops[0])) && Run(l, s, ops[..k]) == Run(l, Step(l, s, ops[0]), ops[1..][..k - 1])
  {
    hide Inv, Step;
    StepKeeps(l, s, ops[0]);
    assert ops[..k][1..] == ops[1..][..k - 1];
  }

  /** Main result on correlation, over every interleaving of replies, expiries, write failures, barrier
      releases and termination: at every moment each reply has reached its own request, exactly when no
      step so far was a misleading one. */
  lemma {:induction false} RepliesReachTheirRequest(l: Limits, s: Rpc, ops: seq<Op>)
    requires Inv(l, s) && Own(s)
    ensures (forall k :: 0 <= k <= |ops| ==> Own(Run(l, s, ops[..k]))) <==> StraightRun(l, s, ops)
    decreases |ops|
  {
    assert Run(l, s, ops[..0]) == s;
    hide Inv, Step, Own, Misleads;
    assert StraightRun(l, s, ops) <==>
      ops == [] || (StepKeeps(l, s, ops[0]); !Misleads(s, ops[0]) && StraightRun(l, Step(l, s, ops[0]), ops[1..]));
    if ops != [] {
      var t, rest := Step(l, s, ops[0]), ops[1..];
      StepKeeps(l, s, ops[0]);
      StepOwn(l, s, ops[0]);
      assert Run(l, t, rest[..0]) == t;
      hide Run, StraightRun;
      forall k | 0 < k <= |ops| ensures Run(l, s, ops[..k]) == Run(l, t, rest[..k - 1]) {
        PrefixRun(l, s, ops, k);
      }
      if Own(t) {
        RepliesReachTheirRequest(l, t, rest);
        forall j | 0 <= j <= |rest| ensures Own(Run(l, t, rest[..j])) <==> Own(Run(l, s, ops[..j + 1])) {
        }
      } else {
        assert !Own(Run(l, s, ops[..1]));
      }
    }
  }

  // ---------------------------------------------------------------- replies and the messages ahead of them

  ghost predicate InOrder(r: Request, acked: nat) {
    r.waits ==> forall k :: 0 <= k < |r.settlements| && r.settlements[k].Answered? ==> r.settlements[k].before <= acked
  }

  /** No request that waits for the messages ahead of its reply was answered before they were acknowledged. */
  ghost predicate Ordered(s: Rpc) {
    forall n :: 0 <= n < |s.requests| ==> InOrder(s.requests[n], s.acked)
  }

  /** A held reply, released because its own request settled otherwise, is handed to another waiting request
      while messages ahead of it are still unacknowledged. */
  predicate Overtakes(s: Rpc, op: Op) {
    && op.Resume? && op.n in s.held && s.held[op.n].barrier == Ready && s.held[op.n].target > s.acked
    && var m := Mistaken(s, op.n);
    m.Some? && m.value < |s.requests| && s.requests[m.value].waits
  }

  lemma OvertakingMisleads(s: Rpc, op: Op)
    requires Overtakes(s, op)
    ensures Misleads(s, op)
  {
  }

  lemma SettleOrdered(s: Rpc, id: int, outcome: Settlement)
    requires Ordered(s) && Correlated(s.requests, s.pending)
    ensures id in s.pending ==> s.pending[id] < |s.requests|
    ensures Ordered(Settle(s, id, outcome)) <==>
      !(id in s.pending && s.requests[s.pending[id]].waits && outcome.Answered? && outcome.before > s.acked)
  {
    hide IdOf;
    if id in s.pending {
      var t, m := Settle(s, id, outcome), s.pending[id];
      assert t.requests[m].settlements[0] == outcome;
      if s.requests[m].waits && outcome.Answered? && outcome.before > s.acked {
        assert !InOrder(t.requests[m], t.acked);
      }
    }
  }

  lemma RespondedOrdered(l: Limits, s: Rpc, of: Option<nat>, id: int, reply: Reply)
    requires Inv(l, s) && Ordered(s)
    ensures forall i :: i in s.pending ==> s.pending[i] < |s.requests|
    ensures Ordered(Responded(s, of, id, reply))
  {
    PendingIndices(s.requests, s.pending);
    hide IdOf, Barred, Allocated, Settle;
    if s.open && Matches(s, id) {
      var n := s.pending[id];
      UpdateCorrelated(s.requests, s.pending, n, s.requests[n].(responded := true));
      SettleOrdered(s.(requests := Marked(s.requests, n)), id, Answered(of, reply, s.sequence));
    }
  }

  lemma ResumedOrdered(l: Limits, s: Rpc, n: nat)
    requires Inv(l, s) && Ordered(s)
    ensures n in s.held || n in s.failures ==> n < |s.requests|
    ensures forall id :: id in s.pending ==> s.pending[id] < |s.requests|
    ensures Ordered(Resumed(s, n)) <==> !Overtakes(s, Resume(n))
    ensures Ordered(Reported(s, n))
  {
    PendingIndices(s.requests, s.pending);
    HeldIndices(s.requests, s.held, s.open, s.sequence, s.acked);
    assert n in s.held && s.held[n].barrier == Ready && !Settled(s.requests[n]) ==> s.held[n].target <= s.acked;
    assert n < |s.requests| && IdOf(s.requests[n]) in s.pending && s.pending[IdOf(s.requests[n])] == n ==>
      !Settled(s.requests[n]);
    hide IdOf, Allocated, Barred, Settle, InOrder;
    if n in s.held && s.held[n].barrier != Blocked {
      var h := s.held[n];
      SettleOrdered(s.(held := s.held - {n}), IdOf(s.requests[n]),
        if h.barrier == Ready then Answered(h.origin, h.reply, h.target) else Failed);
    }
    if n in s.failures {
      SettleOrdered(s.(failures := s.failures - {n}), IdOf(s.requests[n]), Failed);
    }
  }

  lemma TerminatedOrdered(s: Rpc)
    requires Ordered(s)
    ensures Ordered(Terminated(s))
  {
    hide BreakAll;
  }

  lemma TurnedOrdered(l: Limits, s: Rpc, streamTakes: bool)
    requires Inv(l, s) && Ordered(s)
    ensures forall id :: id in s.pending ==> s.pending[id] < |s.requests|
    ensures Ordered(Turned(s, streamTakes))
  {
    PendingIndices(s.requests, s.pending);
    hide IdOf, Barred, Allocated, Terminated, InOrder;
    if s.writing.None? && s.queue != [] && s.open {
      var w, popped := s.queue[0], s.(queue := s.queue[1..]);
      HandedOrdered(popped, w);
      if w.Some? && IdOf(s.requests[w.value]) in s.pending {
        var m := s.pending[IdOf(s.requests[w.value])];
        BegunOrdered(popped, m);
        HandedOrdered(popped.(requests := Begun(s.requests, m)), w);
      }
    }
  }

  lemma BegunOrdered(s: Rpc, m: nat)
    requires Ordered(s) && m < |s.requests|
    ensures Ordered(s.(requests := Begun(s.requests, m)))
  {
  }

  lemma HandedOrdered(s: Rpc, w: Option<nat>)
    requires Ordered(s)
    ensures Ordered(Handed(s, w, true)) && Ordered(Handed(s, w, false))
  {
    hide Terminated, InOrder;
    TerminatedOrdered(s.(writing := Some(w), wire := s.wire + [w]));
  }

  /** Every step keeps waiting requests behind the messages ahead of their replies, except exactly the
      overtaking ones. */
  lemma StepOrdered(l: Limits, s: Rpc, op: Op)
    requires Inv(l, s) && Ordered(s)
    ensures Ordered(Step(l, s, op)) <==> !Overtakes(s, op)
  {
    PendingIndices(s.requests, s.pending);
    hide IdOf, Allocated, Barred, Turned, Responded, Resumed, Reported, Terminated, Settle;
    match op
    case Expire(id) => SettleOrdered(s, id, Failed);
    case Turn(streamTakes) => TurnedOrdered(l, s, streamTakes);
    case Response(n, reply) =>
      if n < |s.requests| {
        RespondedOrdered(l, s, Some(n), IdOf(s.requests[n]), reply);
      }
    case Stray(id, reply) => RespondedOrdered(l, s, None, id, reply);
    case Resume(n) => ResumedOrdered(l, s, n);
    case Report(n) => ResumedOrdered(l, s, n);
    case Arrive(_) => TerminatedOrdered(s.(sequence := s.sequence + 1));
    case Terminate => TerminatedOrdered(s);
    case _ =>
  }

  // ---------------------------------------------------------------- a simple condition that suffices

  /** The request whose continuation a step runs, or whose frame it answers. */
  function Continues(s: Rpc, op: Op): Option<nat> {
    match op
    case Turn(_) => if s.writing.None? && s.queue != [] then s.queue[0] else None
    case Response(n, _) => if Some(n) in s.wire then Some(n) else None
    case Resume(n) => if n in s.held then Some(n) else None
    case Report(n) => if n in s.failures then Some(n) else None
    case _ => None
  }

  /** Replies come and continuations run before 2^53 - 1 further identifiers were allocated, and no reply to
      nothing carries an identifier that waits for one. */
  ghost predicate Timely(s: Rpc, op: Op) {
    var c := Continues(s, op);
    && (c.Some? && c.value < |s.requests| ==> s.probes <= s.requests[c.value].probe + MAX_SAFE_INTEGER)
    && (op.Stray? ==> !(s.open && Matches(s, op.id)))
  }

  ghost predicate TimelyRun(l: Limits, s: Rpc, ops: seq<Op>)
    requires Inv(l, s)
    decreases |ops|
  {
    ops == [] || (StepKeeps(l, s, ops[0]); Timely(s, ops[0]) && TimelyRun(l, Step(l, s, ops[0]), ops[1..]))
  }

  lemma MisleadingIsLate(l: Limits, s: Rpc, op: Op)
    requires Inv(l, s) && Misleads(s, op)
    ensures !Timely(s, op)
  {
    hide IdOf, Allocated, Correlated, Barred;
    if !op.Stray? {
      StaleNeedsFullCycle(l, s, Continues(s, op).value);
    }
  }

  /** A run whose replies and continuations come within one cycle of identifiers never misleads. */
  lemma {:induction false} OneCycleSuffices(l: Limits, s: Rpc, ops: seq<Op>)
    requires Inv(l, s) && TimelyRun(l, s, ops)
    ensures StraightRun(l, s, ops)
    decreases |ops|
  {
    hide Inv, Step, Misleads, Timely;
    if ops != [] {
      StepKeeps(l, s, ops[0]);
      if Misleads(s, ops[0]) {
        MisleadingIsLate(l, s, ops[0]);
      }
      OneCycleSuffices(l, Step(l, s, ops[0]), ops[1..]);
    }
  }

  lemma InitialInv(l: Limits)
    requires l.maxPending <= MAX_SAFE_INTEGER
    ensures Inv(l, Initial()) && Own(Initial())
  {
  }
}
