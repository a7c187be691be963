/** The request side of the JSON-RPC stdio transport, updated in place, refining the steps of JsonRpcRequests. */
module RequestTransport {
  import opened Prelude
  import opened RequestIds
  import opened JsonRpcRequests

  class Transport {
    const limits: Limits
    const ids: Allocator
    var open: bool
    var requests: seq<Request>
    var pendingRequests: map<int, nat>
    var inboundSequence: nat
    var inboundAcknowledgedSequence: nat
    var inboundBarrierWaiters: map<nat, Held>
    var queue: seq<Option<nat>>
    var writing: Option<Option<nat>>
    var failures: set<nat>
    ghost var wire: seq<Option<nat>>

    ghost function State(): Rpc
      reads this, ids
    {
      Rpc(open, ids.probes, requests, pendingRequests, inboundSequence, inboundAcknowledgedSequence,
          inboundBarrierWaiters, queue, writing, wire, failures)
    }

    ghost predicate Valid()
      reads this, ids
    {
      ids.Valid() && Inv(limits, State())
    }

    constructor (limits: Limits)
      requires limits.maxPending <= MAX_SAFE_INTEGER
      ensures Valid() && State() == Initial() && this.limits == limits && fresh(ids)
    {
      this.limits := limits;
      ids := new Allocator();
      open, requests, pendingRequests := true, [], map[];
      inboundSequence, inboundAcknowledgedSequence, inboundBarrierWaiters := 0, 0, map[];
      queue, writing, failures, wire := [], None, {}, [];
      new;
      InitialInv(limits);
    }

    /** Settle the request pending under an identifier, if there is one, and release its barrier waiter. */
    method SettlePending(id: int, outcome: Settlement) returns (found: bool)
      requires id in pendingRequests ==> pendingRequests[id] < |requests|
      modifies this
      ensures State() == Settle(old(State()), id, outcome)
      ensures found == (id in old(pendingRequests))
    {
      if id !in pendingRequests {
        return false;
      }
      var n := pendingRequests[id];
      pendingRequests := pendingRequests - {id};
      if n in inboundBarrierWaiters {
        inboundBarrierWaiters := inboundBarrierWaiters[n := Release(inboundBarrierWaiters[n])];
      }
      requests := requests[n := requests[n].(settlements := requests[n].settlements + [outcome])];
      return true;
    }

    method PendingWrites() returns (count: nat)
      ensures count == BusyWrites(State())
    {
      count := |queue| + if writing.Some? then 1 else 0;
    }

    /** Refused calls change nothing, except that an identifier is spent on a message that does not encode. */
    method RequestInternal(waitForInbound: bool, encodes: bool) returns (index: Option<nat>)
      requires Valid()
      modifies this, ids
      ensures Valid() && (State(), index) == Requested(limits, old(State()), waitForInbound, encodes)
    {
      hide Allocated, Correlated, Barred, Settled, IdOf;
      IssuedKeeps(limits, State(), waitForInbound, encodes);
      if !open || |pendingRequests| >= limits.maxPending {
        return None;
      }
      var id := ids.AllocateRequestId(pendingRequests.Keys);
      if !encodes {
        return None;
      }
      var n := |requests|;
      requests := requests + [Request.Request(ids.probes - 1, waitForInbound, false, false, [])];
      pendingRequests := pendingRequests[id.value := n];
      var writes := PendingWrites();
      if writes >= limits.maxWrites {
        failures := failures + {n};
      } else {
        queue := queue + [Some(n)];
      }
      return Some(n);
    }

    /** A response envelope with an identifier; `matched` is false when it is only diagnosed. `of`, the frame it
        answers, is noted beside the reply and decides nothing. */
    method ConsumeResponse(of: Option<nat>, id: int, reply: Reply) returns (matched: bool)
      requires Valid()
      modifies this
      ensures Valid() && State() == Responded(old(State()), of, id, reply)
      ensures matched == (old(open) && Matches(old(State()), id))
    {
      hide Allocated, Barred, IdOf;
      RespondedKeeps(limits, State(), of, id, reply);
      PendingIndices(requests, pendingRequests);
      if !open || id !in pendingRequests {
        return false;
      }
      var n := pendingRequests[id];
      if !requests[n].started || requests[n].responded {
        return false;
      }
      requests := requests[n := requests[n].(responded := true)];
      if !requests[n].waits {
        var _ := SettlePending(id, Answered(of, reply, inboundSequence));
      } else {
        var barrier := if inboundSequence <= inboundAcknowledgedSequence then Ready else Blocked;
        inboundBarrierWaiters := inboundBarrierWaiters[n := Held(inboundSequence, of, reply, barrier)];
      }
      return true;
    }
  
    /** A request's frame goes out only while its identifier is still pending. */
    method StartPendingWrite(id: int) returns (started: bool)
      requires Correlated(requests, pendingRequests)
      modifies this`requests
      ensures Correlated(requests, pendingRequests)
      ensures started == (id in pendingRequests)
      ensures started ==> pendingRequests[id] < |old(requests)|
      ensures requests == if started then Begun(old(requests), pendingRequests[id]) else old(requests)
    {
      if id !in pendingRequests {
        return false;
      }
      var n := pendingRequests[id];
      UpdateCorrelated(requests, pendingRequests, n, requests[n].(started := true));
      requests := requests[n := requests[n].(started := true)];
      return true;
    }

    /** The next queued frame gets its turn. */
    method TakeTurn(streamTakes: bool)
      requires Valid()
      modifies this
      ensures Valid() && State() == Turned(old(State()), streamTakes)
    {
      hide Allocated, Barred, IdOf, Correlated, Handed, Begun;
      TurnedKeeps(limits, State(), streamTakes);
      PendingIndices(requests, pendingRequests);
      if writing.Some? || queue == [] {
        return;
      }
      var w := queue[0];
      queue := queue[1..];
      if !open {
        failures := failures + FailureOf(Some(w));
        return;
      }
      if w.Some? {
        var started := StartPendingWrite(IdOf(requests[w.value]));
        if !started {
          return;
        }
      }
      WriteFrame(w, streamTakes);
    }

    /** Hand a frame to the stream; a stream that throws closes the transport. */
    method WriteFrame(w: Option<nat>, streamTakes: bool)
      requires Correlated(requests, pendingRequests)
      modifies this
      ensures State() == Handed(old(State()), w, streamTakes)
    {
      hide Correlated, Terminated;
      writing, wire := Some(w), wire + [w];
      if !streamTakes {
        Fail();
      }
    }

    method Flush()
      requires Valid()
      modifies this
      ensures Valid() && State() == Flushed(old(State()))
    {
      writing := None;
    }

    /** An inbound request or notification is numbered, then buffered if it fits. */
    method EnqueueInbound(fits: bool)
      requires Valid()
      modifies this
      ensures Valid() && State() == Inbound(old(State()), fits)
    {
      hide Allocated, Correlated, Barred, Terminated;
      BarrierKeeps(limits, State(), fits, 0);
      BarrierKeeps(limits, State(), true, 0);
      if open {
        inboundSequence := inboundSequence + 1;
        if !fits {
          Fail();
        }
      }
    }

    /** The consumer finished message `sequence`. */
    method AcknowledgeInbound(sequence: nat)
      requires Valid() && inboundAcknowledgedSequence < sequence <= inboundSequence
      modifies this
      ensures Valid() && State() == Acknowledged(old(State()), sequence)
    {
      hide Allocated, Correlated, Barred, ReleaseUpTo;
      BarrierKeeps(limits, State(), true, sequence);
      inboundAcknowledgedSequence := sequence;
      ReleaseWaiters(sequence);
    }

    /** Every waiter whose target is reached is released. */
    method ReleaseWaiters(sequence: nat)
      modifies this`inboundBarrierWaiters
      ensures inboundBarrierWaiters == ReleaseUpTo(old(inboundBarrierWaiters), sequence)
    {
      var todo := inboundBarrierWaiters.Keys;
      while todo != {}
        invariant inboundBarrierWaiters.Keys == old(inboundBarrierWaiters).Keys && todo <= inboundBarrierWaiters.Keys
        invariant forall n :: n in inboundBarrierWaiters ==>
          inboundBarrierWaiters[n] ==
            if n in todo then old(inboundBarrierWaiters)[n] else ReleaseUpTo(old(inboundBarrierWaiters), sequence)[n]
      {
        var n :| n in todo;
        todo := todo - {n};
        if inboundBarrierWaiters[n].target <= sequence {
          inboundBarrierWaiters := inboundBarrierWaiters[n := Release(inboundBarrierWaiters[n])];
        }
      }
    }

    method RejectWaiters()
      modifies this`inboundBarrierWaiters
      ensures inboundBarrierWaiters == BreakAll(old(inboundBarrierWaiters))
    {
      var todo := inboundBarrierWaiters.Keys;
      while todo != {}
        invariant inboundBarrierWaiters.Keys == old(inboundBarrierWaiters).Keys && todo <= inboundBarrierWaiters.Keys
        invariant forall n :: n in inboundBarrierWaiters ==>
          inboundBarrierWaiters[n] ==
            if n in todo then old(inboundBarrierWaiters)[n] else BreakAll(old(inboundBarrierWaiters))[n]
      {
        var n :| n in todo;
        todo := todo - {n};
        if inboundBarrierWaiters[n].barrier == Blocked {
          inboundBarrierWaiters := inboundBarrierWaiters[n := inboundBarrierWaiters[n].(barrier := Broken)];
        }
      }
    }

    /** Every request still pending is rejected, in whatever order the identifiers come. */
    method RejectPending()
      requires Correlated(requests, pendingRequests)
      requires forall n :: n in inboundBarrierWaiters ==> inboundBarrierWaiters[n].barrier != Blocked
      modifies this
      ensures State() == old(State()).(requests := FailAll(old(requests)), pending := map[])
    {
      hide IdOf, Correlated;
      var todo := pendingRequests.Keys;
      while todo != {}
        invariant todo == pendingRequests.Keys
        invariant State() == old(State()).(requests := requests, pending := pendingRequests)
        invariant Correlated(requests, pendingRequests)
        invariant |requests| == |old(requests)|
        invariant forall n :: 0 <= n < |requests| ==>
          requests[n] == old(requests)[n] || (!Settled(old(requests)[n]) && requests[n] == FailAll(old(requests))[n])
      {
        var id := AnyOf(todo);
        CorrelatedIndex(requests, pendingRequests, id);
        SettleCorrelated(requests, pendingRequests, id, Failed);
        todo := todo - {id};
        var _ := SettlePending(id, Failed);
      }
      NonePending(requests, pendingRequests);
      assert requests == FailAll(old(requests));
    }

    /** Close for good: waiters, pending requests and the frame being flushed are all rejected. */
    method Fail()
      requires Correlated(requests, pendingRequests)
      modifies this
      ensures State() == Terminated(old(State()))
    {
      hide Correlated;
      if open {
        open := false;
        RejectWaiters();
        RejectPending();
        failures := failures + FailureOf(writing);
        writing := None;
      }
    }

    /** The continuation of a held reply, or of its broken barrier, runs. */
    method ResumeBarrier(n: nat)
      requires Valid()
      modifies this
      ensures Valid() && State() == Resumed(old(State()), n)
    {
      hide Allocated, IdOf;
      ResumedKeeps(limits, State(), n);
      if n in inboundBarrierWaiters && inboundBarrierWaiters[n].barrier != Blocked {
        var h := inboundBarrierWaiters[n];
        inboundBarrierWaiters := inboundBarrierWaiters - {n};
        var _ := SettlePending(IdOf(requests[n]),
                               if h.barrier == Ready then Answered(h.origin, h.reply, h.target) else Failed);
      }
    }

    /** The continuation of a failed write runs. */
    method ReportFailure(n: nat)
      requires Valid()
      modifies this
      ensures Valid() && State() == Reported(old(State()), n)
    {
      hide Allocated, IdOf;
      ReportedKeeps(limits, State(), n);
      if n in failures {
        failures := failures - {n};
        var _ := SettlePending(IdOf(requests[n]), Failed);
      }
    }
  }
}
