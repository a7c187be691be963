/** Answering the remote side's JSON-RPC requests: reservation, abandonment and the single response frame. */
module Responses {
  import opened Prelude

  /** Request identifiers keep apart a number and the text that spells it. */
  datatype Key = Number(n: int) | Text(s: string)

  /** One inbound request and how many response frames were handed to the stream for it. */
  datatype Inbound = Inbound(key: Key, frames: nat)

  /** Where a response write is: waiting for its turn, on the stream, or ended with its continuation due. */
  datatype Stage = Waiting | Handed | Ended(flushed: bool)

  /** The three identifier sets of the transport, `pending` also naming the request each identifier stands
      for; the write queue; and the stage of every response write whose continuation has not run. */
  datatype Desk = Desk(
    open: bool, requests: seq<Inbound>, pending: map<Key, nat>, responding: set<Key>, abandoning: set<Key>,
    queue: seq<Key>, writing: Option<Key>, writes: map<Key, Stage>)

  function Empty(): Desk {
    Desk(true, [], map[], {}, {}, [], None, map[])
  }

  function Closed(d: Desk): Desk {
    if !d.open then d
    else
      d.(open := false, pending := map[], responding := {}, abandoning := {}, writing := None,
         writes := if d.writing.Some? then d.writes[d.writing.value := Ended(false)] else d.writes)
  }

  /** A request arrives. A second one under a pending identifier, or one too many, is fatal; so is a full
      inbound buffer (`fits` is false). */
  function Arrived(d: Desk, key: Key, capacity: nat, fits: bool): Desk {
    if !d.open then d
    else if key in d.pending || |d.pending| >= capacity then Closed(d)
    else
      var noted := d.(requests := d.requests + [Inbound(key, 0)], pending := d.pending[key := |d.requests|]);
      if fits then noted else Closed(noted)
  }

  function Abandoned(d: Desk, key: Key): Desk {
    if key !in d.pending then d
    else if key in d.responding then d.(abandoning := d.abandoning + {key})
    else d.(pending := d.pending - {key})
  }

  predicate CanRespond(d: Desk, key: Key) {
    d.open && key in d.pending && key !in d.responding
  }

  /** The reservation is given up; an abandonment recorded meanwhile takes effect. */
  function Unreserved(d: Desk, key: Key): Desk {
    if key in d.abandoning then
      d.(responding := d.responding - {key}, abandoning := d.abandoning - {key}, pending := d.pending - {key})
    else d.(responding := d.responding - {key})
  }

  /** A call of `respond`. `abandons`: serializing the result itself abandons the request; `encodes`: the
      envelope serializes to a proper response within the limit; `room`: the write queue has room. */
  function Responded(d: Desk, key: Key, abandons: bool, encodes: bool, room: bool): Desk {
    if !CanRespond(d, key) then d
    else
      var reserved := d.(responding := d.responding + {key}, abandoning := if abandons then d.abandoning + {key}
          else d.abandoning);
      if !encodes then Unreserved(reserved, key)
      else if room then reserved.(queue := d.queue + [key], writes := d.writes[key := Waiting])
      else reserved.(writes := d.writes[key := Ended(false)])
  }

  /** The next response write gets its turn. */
  function Turned(d: Desk, streamTakes: bool): Desk
    requires d.open ==> forall i :: 0 <= i < |d.queue| ==>
        d.queue[i] in d.pending && d.pending[d.queue[i]] < |d.requests|
  {
    if d.writing.Some? || d.queue == [] then d
    else
      var key, popped := d.queue[0], d.(queue := d.queue[1..]);
      if !d.open then popped.(writes := d.writes[key := Ended(false)])
      else
        var handed := popped.(writing := Some(key), requests := Sent(d.requests, d.pending[key]),
            writes := d.writes[key := Handed]);
        if streamTakes then handed else Closed(handed)
  }

  function Sent(requests: seq<Inbound>, n: nat): seq<Inbound>
    requires n < |requests|
  {
    requests[n := requests[n].(frames := requests[n].frames + 1)]
  }

  function Flushed(d: Desk): Desk {
    if d.writing.None? then d else d.(writing := None, writes := d.writes[d.writing.value := Ended(true)])
  }

  /** The continuation of an ended write runs. */
  function Concluded(d: Desk, key: Key): Desk {
    if key !in d.writes || !d.writes[key].Ended? then d
    else
      var rest := d.(writes := d.writes - {key});
      if d.writes[key].flushed then
        rest.(responding := d.responding - {key}, abandoning := d.abandoning - {key}, pending := d.pending - {key})
      else Unreserved(rest, key)
  }

  // ---------------------------------------------------------------- every interleaving

  datatype Op =
    | Arrive(key: Key, capacity: nat, fits: bool) | Abandon(key: Key)
    | Respond(key: Key, abandons: bool, encodes: bool, room: bool)
    | Turn(streamTakes: bool) | Flush | Conclude(key: Key) | Close

  ghost predicate Unsent(d: Desk, key: Key) {
    key in d.pending && d.pending[key] < |d.requests| && d.requests[d.pending[key]].frames == 0
  }

  ghost predicate SentOnce(d: Desk, key: Key) {
    key in d.pending && d.pending[key] < |d.requests| && d.requests[d.pending[key]].frames == 1
  }

  /** What the stage of a write says about the response frames of the request it answers. */
  ghost predicate StageOk(d: Desk, key: Key)
    requires key in d.writes
  {
    match d.writes[key]
    case Waiting => Unsent(d, key) && key in d.queue
    case Handed => SentOnce(d, key) && d.writing == Some(key)
    case Ended(flushed) => if flushed then SentOnce(d, key) else Unsent(d, key)
  }

  ghost predicate Lined(queue: seq<Key>, writing: Option<Key>, writes: map<Key, Stage>) {
    && (forall i :: 0 <= i < |queue| ==> queue[i] in writes && writes[queue[i]] == Waiting)
    && (forall i, j :: 0 <= i < j < |queue| ==> queue[i] != queue[j])
    && (writing.Some? ==> writing.value in writes && writes[writing.value] == Handed)
  }

  /** While open, the reserved identifiers are exactly those with one response write under way. */
  ghost predicate Tracked(d: Desk) {
    && d.writes.Keys == d.responding
    && (forall key :: key in d.pending ==> d.pending[key] < |d.requests| && d.requests[d.pending[key]].key == key)
    && (forall key :: key in d.pending && key !in d.responding ==> Unsent(d, key))
    && (forall key :: key in d.writes ==> StageOk(d, key))
    && Lined(d.queue, d.writing, d.writes)
  }

  ghost predicate Inv(d: Desk) {
    && d.abandoning <= d.responding <= d.pending.Keys
    && (forall n :: 0 <= n < |d.requests| ==> d.requests[n].frames <= 1)
    && (if d.open then Tracked(d) else d.pending == map[] && d.writing.None?)
  }

  function Step(d: Desk, op: Op): Desk
    requires Inv(d)
  {
    match op
    case Arrive(key, capacity, fits) => Arrived(d, key, capacity, fits)
    case Abandon(key) => Abandoned(d, key)
    case Respond(key, abandons, encodes, room) => Responded(d, key, abandons, encodes, room)
    case Turn(streamTakes) => Turned(d, streamTakes)
    case Flush => Flushed(d)
    case Conclude(key) => Concluded(d, key)
    case Close => Closed(d)
  }

  lemma ClosedKeeps(d: Desk)
    requires d.abandoning <= d.responding <= d.pending.Keys && (!d.open ==> Inv(d))
    requires forall n :: 0 <= n < |d.requests| ==> d.requests[n].frames <= 1
    ensures Inv(Closed(d)) && !Closed(d).open
  {
  }

  lemma NotedTracked(d: Desk, key: Key)
    requires Tracked(d) && key !in d.pending && d.responding <= d.pending.Keys
    ensures Tracked(d.(requests := d.requests + [Inbound(key, 0)], pending := d.pending[key := |d.requests|]))
  {
  }

  lemma ArrivedKeeps(d: Desk, key: Key, capacity: nat, fits: bool)
    requires Inv(d)
    ensures Inv(Arrived(d, key, capacity, fits))
  {
    hide Tracked, Closed;
    ClosedKeeps(d);
    if d.open && key !in d.pending {
      NotedTracked(d, key);
      ClosedKeeps(d.(requests := d.requests + [Inbound(key, 0)], pending := d.pending[key := |d.requests|]));
    }
  }

  lemma AbandonedKeeps(d: Desk, key: Key)
    requires Inv(d)
    ensures Inv(Abandoned(d, key))
  {
  }

  lemma EnqueuedKeeps(d: Desk, key: Key, abandons: bool, room: bool)
    requires Inv(d) && CanRespond(d, key)
    ensures Inv(Responded(d, key, abandons, true, room))
  {
    hide Unreserved;
  }

  lemma RespondedKeeps(d: Desk, key: Key, abandons: bool, encodes: bool, room: bool)
    requires Inv(d)
    ensures Inv(Responded(d, key, abandons, encodes, room))
  {
    if CanRespond(d, key) {
      if encodes {
        hide Inv, Responded;
        EnqueuedKeeps(d, key, abandons, room);
      } else {
        hide Unsent, SentOnce;
      }
    }
  }

  lemma TurnedKeeps(d: Desk, streamTakes: bool)
    requires Inv(d)
    ensures Inv(Turned(d, streamTakes))
  {
    if d.writing.None? && d.queue != [] && d.open {
      var key := d.queue[0];
      ClosedKeeps(d.(queue := d.queue[1..], writing := Some(key), requests := Sent(d.requests, d.pending[key]),
          writes := d.writes[key := Handed]));
    }
  }

  lemma FlushedKeeps(d: Desk)
    requires Inv(d)
    ensures Inv(Flushed(d))
  {
  }

  lemma DropLined(queue: seq<Key>, writing: Option<Key>, writes: map<Key, Stage>, key: Key)
    requires Lined(queue, writing, writes) && key in writes && writes[key].Ended?
    ensures Lined(queue, writing, writes - {key})
  {
  }

  lemma ConcludedKeeps(d: Desk, key: Key)
    requires Inv(d)
    ensures Inv(Concluded(d, key))
  {
    if d.open && key in d.writes && d.writes[key].Ended? {
      hide SentOnce, Lined;
      DropLined(d.queue, d.writing, d.writes, key);
    }
  }

  /** Abandoning ids stay among responding ids, those among pending ids, and no request ever has two
      response frames, through every kind of step. */
  lemma StepKeeps(d: Desk, op: Op)
    requires Inv(d)
    ensures Inv(Step(d, op))
  {
    hide Inv, Arrived, Abandoned, Responded, Turned, Flushed, Concluded, Closed;
    match op
    case Arrive(key, capacity, fits) => ArrivedKeeps(d, key, capacity, fits);
    case Abandon(key) => AbandonedKeeps(d, key);
    case Respond(key, abandons, encodes, room) => RespondedKeeps(d, key, abandons, encodes, room);
    case Turn(streamTakes) => TurnedKeeps(d, streamTakes);
    case Flush => FlushedKeeps(d);
    case Conclude(key) => ConcludedKeeps(d, key);
    case Close => CloseKeeps(d);
  }

  lemma CloseKeeps(d: Desk)
    requires Inv(d)
    ensures Inv(Closed(d))
  {
    ClosedKeeps(d);
  }

  // ---------------------------------------------------------------- whole runs

  function Run(d: Desk, ops: seq<Op>): (r: Desk)
    requires Inv(d)
    ensures Inv(r)
    decreases |ops|
  {
    if ops == [] then d
    else
      StepKeeps(d, ops[0]);
      Run(Step(d, ops[0]), ops[1..])
  }

  /** No identifier stands for the n-th request any more: it was answered or abandoned, or the transport closed. */
  ghost predicate Retired(d: Desk, n: nat) {
    n < |d.requests| && forall key :: key in d.pending ==> d.pending[key] != n
  }

  lemma ClosedRetires(d: Desk, n: nat)
    requires n < |d.requests|
    ensures Closed(d).requests == d.requests && (Retired(d, n) ==> Retired(Closed(d), n))
  {
  }

  lemma StepRetired(d: Desk, op: Op, n: nat)
    requires Inv(d) && Retired(d, n)
    ensures Retired(Step(d, op), n) && Step(d, op).requests[n] == d.requests[n]
  {
    hide StageOk, Lined, Closed;
    match op
    case Arrive(key, capacity, fits) =>
      ClosedRetires(d, n);
      ClosedRetires(d.(requests := d.requests + [Inbound(key, 0)], pending := d.pending[key := |d.requests|]), n);
    case Turn(streamTakes) => TurnRetired(d, streamTakes, n);
    case Close => ClosedRetires(d, n);
    case _ =>
  }

  lemma TurnRetired(d: Desk, streamTakes: bool, n: nat)
    requires Inv(d) && Retired(d, n)
    ensures Retired(Turned(d, streamTakes), n) && Turned(d, streamTakes).requests[n] == d.requests[n]
  {
    hide Closed;
    if d.writing.None? && d.queue != [] && d.open {
      var key := d.queue[0];
      var handed := d.(queue := d.queue[1..], writing := Some(key), requests := Sent(d.requests, d.pending[key]),
          writes := d.writes[key := Handed]);
      ClosedRetires(handed, n);
    }
  }

  /** Whatever happens after a request is answered or abandoned, no further response frame is written for
      it, not even when the remote side uses its identifier again; at most one ever was. */
  lemma {:induction false} RetiredForGood(d: Desk, ops: seq<Op>, n: nat)
    requires Inv(d) && Retired(d, n)
    ensures Retired(Run(d, ops), n) && Run(d, ops).requests[n] == d.requests[n] && d.requests[n].frames <= 1
    decreases |ops|
  {
    hide Step;
    if ops != [] {
      StepKeeps(d, ops[0]);
      StepRetired(d, ops[0], n);
      RetiredForGood(Step(d, ops[0]), ops[1..], n);
    }
  }

  /** Abandoning a request nobody is answering means it never gets a response frame. */
  lemma AbandonedNeverAnswered(d: Desk, key: Key, ops: seq<Op>)
    requires Inv(d) && d.open && key in d.pending && key !in d.responding
    ensures var n := d.pending[key];
      n < |d.requests| && Inv(Abandoned(d, key)) && n < |Run(Abandoned(d, key), ops).requests|
      && Run(Abandoned(d, key), ops).requests[n].frames == 0
  {
    hide StageOk, Lined, Run;
    AbandonedKeeps(d, key);
    RetiredForGood(Abandoned(d, key), ops, d.pending[key]);
  }

  /** How the race between responding and abandoning ends: when the response write ends, the identifier
      stays pending exactly when nothing was flushed and nobody abandoned it, and then it can be answered
      again; a failed write leaves the transport open only if its frame never reached the stream. */
  lemma RaceOutcome(d: Desk, key: Key)
    requires Inv(d) && d.open && key in d.writes && d.writes[key].Ended?
    ensures key in d.pending && key in d.responding && d.pending[key] < |d.requests|
    ensures key in Concluded(d, key).pending <==> !d.writes[key].flushed && key !in d.abandoning
    ensures CanRespond(Concluded(d, key), key) <==> key in Concluded(d, key).pending
    ensures key !in Concluded(d, key).responding + Concluded(d, key).abandoning
    ensures d.requests[d.pending[key]].frames == if d.writes[key].flushed then 1 else 0
  {
    hide Lined;
    assert StageOk(d, key);
  }

  // ---------------------------------------------------------------- the transport object

  class InboundRequests {
    const capacity: nat
    var open: bool
    var pendingInboundRequestIds: set<Key>
    var respondingInboundRequestIds: set<Key>
    var abandoningInboundRequestIds: set<Key>
    var queue: seq<Key>
    var writing: Option<Key>
    ghost var requests: seq<Inbound>
    ghost var standsFor: map<Key, nat>
    ghost var writes: map<Key, Stage>

    ghost function State(): Desk
      reads this
    {
      Desk(open, requests, standsFor, respondingInboundRequestIds, abandoningInboundRequestIds, queue, writing, writes)
    }

    ghost predicate Valid()
      reads this
    {
      Inv(State()) && standsFor.Keys == pendingInboundRequestIds
    }

    constructor (capacity: nat)
      ensures Valid() && State() == Empty() && this.capacity == capacity
    {
      this.capacity := capacity;
      open, queue, writing := true, [], None;
      pendingInboundRequestIds, respondingInboundRequestIds, abandoningInboundRequestIds := {}, {}, {};
      requests, standsFor, writes := [], map[], map[];
    }

    method ConsumeRequest(key: Key, fits: bool)
      requires Valid()
      modifies this
      ensures Valid() && State() == Arrived(old(State()), key, capacity, fits)
    {
      hide Tracked, Closed;
      ArrivedKeeps(State(), key, capacity, fits);
      if !open {
        return;
      }
      if key in pendingInboundRequestIds || |pendingInboundRequestIds| >= capacity {
        Terminate();
        return;
      }
      pendingInboundRequestIds := pendingInboundRequestIds + {key};
      requests, standsFor := requests + [Inbound(key, 0)], standsFor[key := |requests|];
      if !fits {
        Terminate();
      }
    }

    method AbandonInboundRequest(key: Key) returns (found: bool)
      requires Valid()
      modifies this
      ensures Valid() && State() == Abandoned(old(State()), key) && found == (key in old(pendingInboundRequestIds))
    {
      hide Tracked;
      AbandonedKeeps(State(), key);
      if key !in pendingInboundRequestIds {
        return false;
      }
      if key in respondingInboundRequestIds {
        abandoningInboundRequestIds := abandoningInboundRequestIds + {key};
        return true;
      }
      pendingInboundRequestIds, standsFor := pendingInboundRequestIds - {key}, standsFor - {key};
      return true;
    }

    /** `reserved` is false when no request awaits that response. */
    method RespondWithEnvelope(key: Key, abandons: bool, encodes: bool, room: bool) returns (reserved: bool)
      requires Valid()
      modifies this
      ensures Valid() && State() == Responded(old(State()), key, abandons, encodes, room)
      ensures reserved == CanRespond(old(State()), key)
    {
      hide Tracked;
      RespondedKeeps(State(), key, abandons, encodes, room);
      if !open || key !in pendingInboundRequestIds || key in respondingInboundRequestIds {
        return false;
      }
      respondingInboundRequestIds := respondingInboundRequestIds + {key};
      if abandons {
        abandoningInboundRequestIds := abandoningInboundRequestIds + {key};
      }
      if !encodes {
        Release(key);
      } else if room {
        queue, writes := queue + [key], writes[key := Waiting];
      } else {
        writes := writes[key := Ended(false)];
      }
      return true;
    }

    method Release(key: Key)
      requires standsFor.Keys == pendingInboundRequestIds
      modifies this
      ensures State() == Unreserved(old(State()), key) && standsFor.Keys == pendingInboundRequestIds
    {
      respondingInboundRequestIds := respondingInboundRequestIds - {key};
      if key in abandoningInboundRequestIds {
        abandoningInboundRequestIds := abandoningInboundRequestIds - {key};
        pendingInboundRequestIds, standsFor := pendingInboundRequestIds - {key}, standsFor - {key};
      }
    }

    method TakeTurn(streamTakes: bool)
      requires Valid()
      modifies this
      ensures Valid() && State() == Turned(old(State()), streamTakes)
    {
      hide Closed;
      TurnedKeeps(State(), streamTakes);
      if writing.Some? || queue == [] {
        return;
      }
      var key := queue[0];
      queue := queue[1..];
      if !open {
        writes := writes[key := Ended(false)];
        return;
      }
      writing, requests, writes := Some(key), Sent(requests, standsFor[key]), writes[key := Handed];
      if !streamTakes {
        Terminate();
      }
    }

    method Flush()
      requires Valid()
      modifies this
      ensures Valid() && State() == Flushed(old(State()))
    {
      hide Tracked;
      FlushedKeeps(State());
      if writing.Some? {
        writes := writes[writing.value := Ended(true)];
        writing := None;
      }
    }

    /** The continuation of an ended response write. */
    method Conclude(key: Key, flushed: bool)
      requires Valid() && key in writes && writes[key] == Ended(flushed)
      modifies this
      ensures Valid() && State() == Concluded(old(State()), key)
    {
      hide Tracked;
      ConcludedKeeps(State(), key);
      writes := writes - {key};
      if flushed {
        respondingInboundRequestIds := respondingInboundRequestIds - {key};
        abandoningInboundRequestIds := abandoningInboundRequestIds - {key};
        pendingInboundRequestIds, standsFor := pendingInboundRequestIds - {key}, standsFor - {key};
      } else {
        Release(key);
      }
    }

    method Terminate()
      requires standsFor.Keys == pendingInboundRequestIds
      modifies this
      ensures State() == Closed(old(State())) && standsFor.Keys == pendingInboundRequestIds
    {
      if open {
        open := false;
        pendingInboundRequestIds, respondingInboundRequestIds, abandoningInboundRequestIds := {}, {}, {};
        standsFor := map[];
        if writing.Some? {
          writes := writes[writing.value := Ended(false)];
          writing := None;
        }
      }
    }
  }
}
