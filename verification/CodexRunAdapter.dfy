/** The run object of the Codex adapter with its share of the client's interaction maps, updated in place. */
module CodexRunAdapter {
  import opened Prelude
  import opened Contracts
  import opened RunEvents
  import opened PortableTrace
  import opened JsonValues
  import opened CodexRun
  import opened CodexInteractions
  import P = CodexProtocol

  class AdapterRun {
    const prefix: string
    const eventQueue: EventQueue
    var finalMessage: Option<string>
    var usage: Option<Usage>
    var finalResult: Option<RunResult>
    var sequence: nat
    var timeoutTriggered: bool
    var providerStart: Option<bool>
    var cancelState: Cancel
    var listed: bool
    var clientOpen: bool
    var interactionSerial: nat
    var pendingByLocalId: seq<nat>
    ghost var resolved: set<nat>
    ghost var notes: seq<Note>

    ghost function State(): Run
      reads this, eventQueue
    {
      Run(Outlet(prefix, sequence, eventQueue.State(),
                 if finalResult.Some? then Some(finalResult.value.status) else None),
          eventQueue.capacity, finalMessage, usage, finalResult, timeoutTriggered, providerStart, cancelState,
          listed, clientOpen, interactionSerial, pendingByLocalId, resolved, notes)
    }

    constructor (prefix: string, capacity: nat, open: bool)
      requires capacity >= 2
      ensures State() == Started(prefix, capacity, open) && Sound(State()) && fresh(eventQueue)
    {
      this.prefix := prefix;
      eventQueue := new EventQueue(capacity);
      finalMessage, usage, finalResult, sequence := None, None, None, 0;
      timeoutTriggered, providerStart, cancelState := false, None, NotAsked;
      listed, clientOpen, interactionSerial, pendingByLocalId, resolved, notes := true, open, 0, [], {}, [];
      new;
      StartedKeeps(prefix, capacity, open);
      StartedSpoken(prefix, capacity, open);
      var _ := Offer(RunStarted);
    }

    /** Number an event and offer it to the queue; the number is spent either way. */
    method Offer(kind: EventType) returns (taken: bool)
      modifies this`sequence, eventQueue
      ensures finalResult == old(finalResult)
      ensures (State(), taken) == Offered(old(State()), kind)
    {
      if finalResult.Some? {
        return true;
      }
      var e := Stamped(prefix, kind, sequence);
      sequence := sequence + 1;
      taken := eventQueue.Push(e);
    }

    /** An event about one interaction. */
    method Announce(kind: EventType, id: nat) returns (taken: bool)
      modifies this`sequence, this`notes, eventQueue
      ensures finalResult == old(finalResult)
      ensures (State(), taken) == Told(old(State()), kind, id)
    {
      hide Offered;
      var number := sequence;
      taken := Offer(kind);
      if taken && finalResult.None? {
        notes := notes + [Note(kind, id, number)];
      }
    }

    method FinishRun(result: RunResult, kind: EventType)
      modifies this, eventQueue
      ensures State() == Finish(old(State()), result, kind)
    {
      if finalResult.None? {
        Conclude(result, kind);
      }
    }

    method Conclude(result: RunResult, kind: EventType)
      requires finalResult.None?
      modifies this`finalResult, this`providerStart, this`sequence, this`listed, this`resolved, this`pendingByLocalId
      modifies eventQueue
      ensures State() == Finish(old(State()), result, kind)
    {
      hide Stamped, Members, PushedTerminal, Closed, Finish, Finished;
      ghost var was := State();
      finalResult := Some(result);
      providerStart := if providerStart.Some? then providerStart else Some(false);
      CloseWith(kind);
      OnTerminal();
      Concluded(was, State(), result, kind);
    }

    /** The terminal event always has room; nothing follows it. */
    method CloseWith(kind: EventType)
      modifies this`sequence, eventQueue
      ensures sequence == old(sequence) + 1
      ensures eventQueue.State() == Closed(PushedTerminal(old(eventQueue.State()),
          Stamped(prefix, kind, old(sequence))))
    {
      var e := Stamped(prefix, kind, sequence);
      sequence := sequence + 1;
      eventQueue.PushTerminal(e);
      eventQueue.Close();
    }

    /** The client forgets the run and resolves what it still had pending. */
    method OnTerminal()
      modifies this`listed, this`resolved, this`pendingByLocalId
      ensures !listed && pendingByLocalId == [] && resolved == old(resolved) + Members(old(pendingByLocalId))
    {
      listed := false;
      resolved := resolved + Members(pendingByLocalId);
      pendingByLocalId := [];
    }

    method Remove(id: nat)
      modifies this`pendingByLocalId, this`resolved
      ensures State() == Forget(old(State()), id)
    {
      pendingByLocalId := Without(pendingByLocalId, id);
      resolved := resolved + {id};
    }

    /** The client closes: what is pending is announced, then the run it still lists is aborted. */
    method AbortOwnerConnection()
      modifies this, eventQueue
      ensures State() == AbortClient(old(State()))
      ensures old(Sound(State())) ==> Sound(State())
    {
      hide Told, Finish, Forget, Sound;
      if Sound(State()) {
        StepSound(State(), CloseClient);
      }
      if !clientOpen {
        return;
      }
      clientOpen := false;
      if !listed {
        return;
      }
      var ids := pendingByLocalId;
      ghost var closed := State();
      var i := 0;
      while i < |ids|
        invariant 0 <= i <= |ids|
        invariant ResolveClosed(closed, ids) == ResolveClosed(State(), ids[i..])
      {
        assert ids[i..][0] == ids[i] && ids[i..][1..] == ids[i + 1..];
        if ids[i] in pendingByLocalId {
          Remove(ids[i]);
          var _ := Announce(InteractionResolved, ids[i]);
        }
        i := i + 1;
      }
      FinishRun(RunResult(ConnectionAborted, None, None, None), ConnectionAbortedEvent);
    }

    method EmitEvent(kind: EventType)
      modifies this, eventQueue
      ensures State() == Emit(old(State()), kind)
    {
      hide AbortClient, Offered, Sound;
      if finalResult.Some? {
        return;
      }
      var taken := Offer(kind);
      if !taken {
        AbortOwnerConnection();
      }
    }

    method TellHost(kind: EventType, id: nat)
      modifies this, eventQueue
      ensures State() == Tell(old(State()), kind, id)
    {
      hide AbortClient, Told, Sound;
      if finalResult.Some? {
        return;
      }
      var taken := Announce(kind, id);
      if !taken {
        AbortOwnerConnection();
      }
    }

    method SettlePending(id: nat)
      modifies this, eventQueue
      ensures State() == Resolve(old(State()), id)
      ensures old(Sound(State())) ==> Sound(State())
    {
      hide Tell, Forget, Sound;
      if Sound(State()) {
        StepSound(State(), Op.Settle(id));
      }
      if id in pendingByLocalId {
        Remove(id);
        TellHost(InteractionResolved, id);
      }
    }

    method ResolvePendingForRun()
      modifies this, eventQueue
      ensures State() == ResolveAll(old(State()), old(pendingByLocalId))
    {
      hide Resolve, Sound;
      var ids := pendingByLocalId;
      var i := 0;
      while i < |ids|
        invariant 0 <= i <= |ids|
        invariant ResolveAll(old(State()), ids) == ResolveAll(State(), ids[i..])
      {
        assert ids[i..][0] == ids[i] && ids[i..][1..] == ids[i + 1..];
        SettlePending(ids[i]);
        i := i + 1;
      }
    }

    method EmitOne(m: P.Mapped)
      modifies this, eventQueue
      ensures State() == EmitMapped(old(State()), m)
    {
      hide Emit, Finish;
      if finalResult.Some? {
        return;
      }
      if m.finalMessage.Some? {
        finalMessage := m.finalMessage;
      }
      if m.usage.Some? {
        usage := m.usage;
      }
      if m.terminal.Some? {
        var t := m.terminal.value;
        FinishRun(RunResult(
          t.status,
          if timeoutTriggered && t.status.Cancelled? then Some(ProviderResult("timeout", None)) else t.providerResult,
          if t.status.Completed? && finalMessage.Some? then finalMessage else t.finalMessage,
          if usage.Some? then usage else t.usage), m.kind);
        return;
      }
      EmitEvent(m.kind);
    }

    /** The resolution of a request is handled apart from the other notifications. */
    method HandleNotification(name: P.Name, params: Json)
      requires Sound(State()) && !name.RequestResolved?
      modifies this, eventQueue
      ensures State() == Notified(old(State()), name, params) && Sound(State())
    {
      hide EmitMapped, ResolveAll, Sound, P.MapNotification;
      StepSound(State(), Notify(name, params));
      if !listed {
        return;
      }
      var events := P.MapNotification(name, params);
      if name.TurnStarted? && providerStart.None? {
        providerStart := Some(true);
      }
      if exists k :: 0 <= k < |events| && events[k].terminal.Some? {
        ResolvePendingForRun();
      }
      ghost var ready := State();
      var i := 0;
      while i < |events|
        invariant 0 <= i <= |events|
        invariant EmitAll(ready, events) == EmitAll(State(), events[i..])
      {
        assert events[i..][0] == events[i] && events[i..][1..] == events[i + 1..];
        EmitOne(events[i]);
        i := i + 1;
      }
    }

    method HandleRequest() returns (accepted: bool)
      requires Sound(State())
      modifies this, eventQueue
      ensures State() == Requested(old(State())) && Sound(State()) && accepted == old(listed)
    {
      hide Tell, Sound;
      StepSound(State(), Request);
      if !listed {
        return false;
      }
      var id := interactionSerial;
      pendingByLocalId := pendingByLocalId + [id];
      interactionSerial := id + 1;
      TellHost(InteractionRequested, id);
      return true;
    }

    method BeginCancel()
      requires Sound(State())
      modifies this`cancelState
      ensures State() == CancelAsked(old(State())) && Sound(State())
    {
      hide Sound;
      StepSound(State(), AskCancel);
      if finalResult.None? && cancelState.NotAsked? {
        cancelState := AwaitStart;
      }
    }

    method AwakeCancel()
      requires Sound(State())
      modifies this`cancelState
      ensures State() == CancelWoken(old(State())) && Sound(State())
    {
      hide Sound;
      StepSound(State(), WakeCancel);
      if cancelState.AwaitStart? && providerStart.Some? {
        cancelState := if providerStart.value && finalResult.None? then Interrupting else AwaitSettlement(false);
      }
    }

    method FinishInterrupt(ok: bool)
      requires Sound(State()) && cancelState.Interrupting?
      modifies this, eventQueue
      ensures State() == InterruptEnded(old(State()), ok) && Sound(State())
    {
      hide AbortClient, Sound;
      StepSound(State(), EndInterrupt(ok));
      if ok {
        cancelState := AwaitSettlement(true);
      } else if finalResult.Some? && finalResult.value.status.ConnectionAborted? {
        cancelState := Done(AbortedMode);
      } else {
        cancelState := Threw;
        if timeoutTriggered {
          AbortOwnerConnection();
        }
      }
    }

    method ConcludeCancel()
      requires Sound(State()) && cancelState.AwaitSettlement? && finalResult.Some?
      modifies this`cancelState
      ensures State() == CancelSettled(old(State())) && Sound(State())
    {
      hide Sound;
      StepSound(State(), SettleCancel);
      var status := finalResult.value.status;
      if status.Cancelled? && cancelState.acknowledged {
        cancelState := Done(Native);
      } else {
        cancelState := Done(if status.ConnectionAborted? then AbortedMode else AlreadyTerminal);
      }
    }

    method FireTimeout()
      requires Sound(State())
      modifies this
      ensures State() == TimedOut(old(State())) && Sound(State())
    {
      hide Sound;
      StepSound(State(), Timeout);
      if finalResult.None? {
        timeoutTriggered := true;
        if cancelState.NotAsked? {
          cancelState := AwaitStart;
        }
      }
    }
  }

  lemma Concluded(was: Run, now: Run, result: RunResult, kind: EventType)
    requires was.result.None? && was.outlet.final.None?
    requires now.outlet == was.outlet.(
      next := was.outlet.next + 1, final := Some(result.status),
      queue := Closed(PushedTerminal(was.outlet.queue, Stamped(was.outlet.prefix, kind, was.outlet.next))))
    requires now == was.(
      result := Some(result), start := if was.start.Some? then was.start else Some(false), outlet := now.outlet,
      listed := false, pending := [], resolved := was.resolved + Members(was.pending))
    ensures now == Finish(was, result, kind)
  {
  }
}
