/** The run object of the DeepSeek Harness stdio adapter and its part of the owning client, updated in place. */
module DshRunAdapter {
  import opened Prelude
  import opened Contracts
  import opened RunEvents
  import opened PortableTrace
  import opened DshRun
  import opened DshRunHistory
  import D = DshProtocol

  class AdapterRun {
    const prefix: string
    const eventQueue: EventQueue
    var ownerOpen: bool
    var pending: seq<Notice>
    var correlationStarted: bool
    var finalMessage: Option<string>
    var finalResult: Option<RunResult>
    var lastEventSequence: Option<nat>
    var messageId: Option<string>
    var sequence: nat
    var terminal: Option<D.TerminalObservation>
    var terminalCount: nat
    var usage: Option<Usage>
    var discarded: bool
    ghost var seen: seq<Notice>
    ghost var start: nat

    ghost function State(): Run
      reads this, eventQueue
    {
      Run(Outlet(prefix, sequence, eventQueue.State(),
                 if finalResult.Some? then Some(finalResult.value.status) else None),
          eventQueue.capacity, messageId, pending, correlationStarted, lastEventSequence, terminal, terminalCount,
          finalMessage, usage, finalResult, ownerOpen, discarded, seen, start)
    }

    constructor (prefix: string, capacity: nat)
      requires capacity >= 2
      ensures State() == Started(prefix, capacity) && Inv(State()) && fresh(eventQueue)
    {
      this.prefix := prefix;
      eventQueue := new EventQueue(capacity);
      ownerOpen, pending, correlationStarted, finalMessage, finalResult := true, [], false, None, None;
      lastEventSequence, messageId, sequence, terminal, terminalCount, usage := None, None, 0, None, 0, None;
      discarded, seen, start := false, [], 0;
      new;
      StartedKeeps(prefix, capacity);
      var e := PortableEvent(RunStarted);
      var taken := eventQueue.Push(e);
    }

    /** A number is drawn for every event, whether or not it is delivered. */
    method PortableEvent(kind: EventType) returns (e: Event)
      modifies this`sequence
      ensures e == Stamped(prefix, kind, old(sequence)) && sequence == old(sequence) + 1
    {
      e := Stamped(prefix, kind, sequence);
      sequence := sequence + 1;
    }

    method FinishRun(result: RunResult, kind: EventType)
      modifies this, eventQueue
      ensures State() == Finish(old(State()), result, kind)
    {
      if finalResult.Some? {
        return;
      }
      finalResult := Some(result);
      var e := PortableEvent(kind);
      eventQueue.PushTerminal(e);
      eventQueue.Close();
    }

    method FailRun(reason: string)
      modifies this, eventQueue
      ensures State() == FailProtocol(old(State()), reason)
    {
      FinishRun(Reason(Failed, reason), RunFailed);
    }

    /** The client closes once, and aborts the run it still has. */
    method AbortOwnerConnection(reason: string)
      modifies this, eventQueue
      ensures State() == AbortOwner(old(State()), reason)
      ensures old(Inv(State())) ==> Inv(State())
    {
      hide Inv;
      if Inv(State()) {
        AbortKeeps(State(), reason);
      }
      if !ownerOpen {
        return;
      }
      ownerOpen := false;
      if !discarded {
        FinishRun(Reason(ConnectionAborted, reason), ConnectionAbortedEvent);
      }
    }

    method Observe(mapped: D.MappedEvent)
      modifies this`finalMessage, this`usage
      ensures finalMessage == if mapped.finalMessage.Some? then mapped.finalMessage else old(finalMessage)
      ensures usage == if mapped.usage.Some? then mapped.usage else old(usage)
    {
      if mapped.finalMessage.Some? {
        finalMessage := mapped.finalMessage;
      }
      if mapped.usage.Some? {
        usage := mapped.usage;
      }
    }

    /** Number an event and offer it to the queue. */
    method Offer(kind: EventType) returns (taken: bool)
      requires finalResult.None?
      modifies this`sequence, eventQueue
      ensures State() == old(State()).(outlet := State().outlet)
      ensures (State().outlet, taken) == Emitted(old(State()).outlet, kind, eventQueue.capacity)
    {
      var e := PortableEvent(kind);
      taken := eventQueue.Push(e);
    }

    method EmitEvent(mapped: D.MappedEvent)
      modifies this, eventQueue
      ensures State() == Emit(old(State()), mapped)
    {
      hide AbortOwner, Emitted;
      if finalResult.Some? {
        return;
      }
      Observe(mapped);
      var taken := Offer(mapped.kind);
      if !taken {
        AbortOwnerConnection("event_buffer_overflow");
      }
    }

    method EmitEvents(events: seq<D.MappedEvent>)
      modifies this, eventQueue
      ensures State() == EmitAll(old(State()), events)
    {
      for i := 0 to |events|
        invariant State() == EmitAll(old(State()), events[..i])
      {
        assert events[..i + 1][..i] == events[..i];
        EmitEvent(events[i]);
      }
      assert events[..|events|] == events;
    }

    method FinishAtIdleStatus()
      modifies this, eventQueue
      ensures State() == FinishAtIdle(old(State()))
    {
      if terminalCount != 1 || terminal.None? {
        FinishRun(IdleFailure(terminalCount), RunFailed);
        return;
      }
      var t := terminal.value;
      var result := t.result;
      if t.result.status.Completed? && finalMessage.Some? {
        result := result.(finalMessage := finalMessage);
      }
      if usage.Some? {
        result := result.(usage := usage);
      }
      FinishRun(result, if t.valid then t.eventType else RunFailed);
    }

    method Refuse(reason: string)
      modifies this, eventQueue
      ensures State() == Refused(old(State()), reason)
    {
      FailRun(reason);
      AbortOwnerConnection("protocol_incompatible");
    }

    /** False when the mapping throws; then nothing has changed. */
    method CorrelateEvent(e: D.Event) returns (ok: bool)
      modifies this, eventQueue
      ensures ok == Correlate(old(State()), e).Some?
      ensures ok ==> State() == Correlate(old(State()), e).value
      ensures !ok ==> State() == old(State())
    {
      hide D.MapEvent, EmitAll, Refused;
      if !e.kind.Spliced? {
        return true;
      }
      var mapping := D.MapEvent(e);
      if mapping.None? {
        return false;
      }
      var id := if messageId.Some? then messageId.value else "";
      if id !in mapping.value.insertedIds {
        return true;
      }
      if mapping.value.insertedCount != 1 || |mapping.value.insertedIds| != 1 || mapping.value.insertedIds[0] != id {
        Refuse("ambiguous_prompt_receipt");
        return true;
      }
      correlationStarted, lastEventSequence, start := true, Some(e.seqNo), |seen|;
      EmitEvents(mapping.value.events);
      return true;
    }

    method FollowEvent(e: D.Event) returns (ok: bool)
      modifies this, eventQueue
      ensures ok == Follow(old(State()), e).Some?
      ensures ok ==> State() == Follow(old(State()), e).value
      ensures !ok ==> State() == old(State())
    {
      hide D.MapEvent, EmitAll, Refused;
      if lastEventSequence.None? || e.seqNo != lastEventSequence.value + 1 {
        Refuse("provider_api_incompatible");
        return true;
      }
      var mapping := D.MapEvent(e);
      if mapping.None? {
        return false;
      }
      if mapping.value.insertedCount > 0 {
        Refuse("competing_prompt");
        return true;
      }
      lastEventSequence := Some(e.seqNo);
      if mapping.value.terminal.Some? {
        terminalCount := terminalCount + 1;
        if terminal.None? {
          terminal := mapping.value.terminal;
        }
      }
      EmitEvents(mapping.value.events);
      return true;
    }

    method Process(n: Notice) returns (ok: bool)
      modifies this, eventQueue
      ensures ok == Processed(old(State()), n).Some?
      ensures ok ==> State() == Processed(old(State()), n).value
      ensures !ok ==> State() == old(State())
      ensures old(Inv(State()) && messageId.Some?) ==> Inv(State())
    {
      hide Correlate, Follow, Emit, FinishAtIdle, Inv;
      if Inv(State()) && messageId.Some? {
        ProcessedKeeps(State(), n);
      }
      ghost var before := seen;
      if finalResult.None? {
        seen := seen + [n];
      }
      assert State() == Noted(old(State()), n);
      ok := true;
      match n
      case Raw =>
        if correlationStarted {
          EmitEvent(D.Plain(Provider));
        }
      case Status(idle) =>
        if idle && correlationStarted {
          FinishAtIdleStatus();
        }
      case Session(e) =>
        if correlationStarted {
          ok := FollowEvent(e);
        } else {
          ok := CorrelateEvent(e);
        }
        if !ok {
          seen := before;
        }
    }

    /** Handing on one notification, with the client's catch around it. */
    method Receive(n: Notice)
      requires Inv(State())
      modifies this, eventQueue
      ensures State() == Received(old(State()), n) && Inv(State())
    {
      hide Processed, Inv, AbortOwner;
      ReceivedKeeps(State(), n);
      if discarded || finalResult.Some? {
        return;
      }
      if messageId.None? {
        if |pending| >= eventQueue.capacity - 1 {
          AbortOwnerConnection("event_buffer_overflow");
        } else {
          pending := pending + [n];
        }
        return;
      }
      var ok := Process(n);
      if !ok {
        Refuse("provider_api_incompatible");
      }
    }

    method DiscardBeforeReturn(abort: bool)
      modifies this, eventQueue
      ensures State() == Discarded(old(State()), abort) && discarded
      ensures old(Inv(State())) ==> Inv(State())
    {
      hide Inv, AbortOwner;
      if Inv(State()) {
        DiscardedKeeps(State(), abort);
      }
      discarded, pending := true, [];
      eventQueue.Close();
      if abort {
        AbortOwnerConnection("prompt_outcome_unknown");
      }
    }

    /** The prompt reply arrives: replay the buffer to its end, settled on the way or not. False when a mapping
        throws: the caller gets an error and the run is discarded. */
    method Acknowledge(id: string) returns (ok: bool)
      requires Inv(State()) && !discarded && messageId.None?
      modifies this, eventQueue
      ensures State() == Acknowledged(old(State()), id) && Inv(State())
      ensures ok == (old(finalResult).Some? || Replayed(Named(old(State()), id), old(pending)).1)
      ensures ok == !discarded
    {
      hide Processed, Inv, Discarded;
      AcknowledgedKeeps(State(), id);
      if finalResult.Some? {
        return true;
      }
      messageId := Some(id);
      var notices := pending;
      pending := [];
      ghost var named := State();
      var i := 0;
      while i < |notices|
        invariant 0 <= i <= |notices| && discarded == named.discarded
        invariant Replayed(named, notices) == Replayed(State(), notices[i..])
      {
        assert notices[i..][0] == notices[i] && notices[i..][1..] == notices[i + 1..];
        ghost var before := State();
        var done := Process(notices[i]);
        if !done {
          assert Processed(before, notices[i]).None?;
          DiscardBeforeReturn(true);
          return false;
        }
        i := i + 1;
      }
      return true;
    }
  }
}
