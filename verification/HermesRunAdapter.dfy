/** The run object of the Hermes adapter with its share of the client's approval map, updated in place. */
module HermesRunAdapter {
  import opened Prelude
  import opened Contracts
  import opened RunEvents
  import opened PortableTrace
  import opened HermesRun

  class AdapterRun {
    const prefix: string
    const providerRunId: string
    const sessionId: string
    const supportsApproval: bool
    const eventQueue: EventQueue
    var sequence: nat
    var finalResult: Option<RunResult>
    var terminalSignal: Option<Status>
    var pumping: bool
    var streamClosed: bool
    var reconcile: Reconcile
    var pendingApproval: Option<Approval>
    var approvalResponseGates: seq<Flight>
    var confirmedApprovalChoice: Option<string>
    var interactionSerial: nat
    var unsafe: bool
    ghost var settledBy: Option<Report>

    ghost function State(): Run
      reads this, eventQueue
    {
      Run(Outlet(prefix, sequence, eventQueue.State(),
                 if finalResult.Some? then Some(finalResult.value.status) else None),
          eventQueue.capacity, providerRunId, sessionId, supportsApproval, finalResult, terminalSignal, pumping,
              streamClosed, reconcile,
          pendingApproval, approvalResponseGates, confirmedApprovalChoice, interactionSerial, unsafe, settledBy)
    }

    constructor (prefix: string, capacity: nat, providerRunId: string, sessionId: string, supportsApproval: bool)
      requires capacity >= 2
      ensures State() == Started(prefix, capacity, providerRunId, sessionId, supportsApproval) && Inv(State())
          && fresh(eventQueue)
    {
      this.prefix, this.providerRunId, this.sessionId, this.supportsApproval := prefix, providerRunId, sessionId,
          supportsApproval;
      eventQueue := new EventQueue(capacity);
      sequence, finalResult, terminalSignal, pumping, streamClosed, reconcile := 0, None, None, true, false, NotStarted;
      pendingApproval, approvalResponseGates, confirmedApprovalChoice, interactionSerial := None, [], None, 0;
      unsafe, settledBy := false, None;
      new;
      StartedKeeps(prefix, capacity, providerRunId, sessionId, supportsApproval);
      var _ := eventQueue.Push(Stamped(prefix, RunStarted, 0));
      sequence := 1;
    }

    method Offer(kind: EventType) returns (taken: bool)
      requires finalResult.None?
      modifies this`sequence, eventQueue
      ensures State() == old(State()).(outlet := State().outlet)
      ensures (State().outlet, taken) == Emitted(old(State()).outlet, kind, eventQueue.capacity)
    {
      var e := Stamped(prefix, kind, sequence);
      sequence := sequence + 1;
      taken := eventQueue.Push(e);
    }

    method EmitSettlement(kind: EventType)
      modifies this`sequence, eventQueue
      ensures State() == old(State()).(outlet := EmittedAnyway(old(State()).outlet, kind))
    {
      if finalResult.None? {
        var e := Stamped(prefix, kind, sequence);
        sequence := sequence + 1;
        eventQueue.PushTerminal(e);
      }
    }

    method Resolve()
      modifies this`pendingApproval, this`sequence, eventQueue
      ensures State() == ResolveApproval(old(State()))
    {
      hide EmittedAnyway;
      if pendingApproval.Some? {
        pendingApproval := None;
        EmitSettlement(InteractionResolved);
      }
    }

    method Conclude(result: RunResult)
      requires finalResult.None?
      modifies this`finalResult, this`sequence, eventQueue
      ensures State() == old(State()).(result := Some(result),
          outlet := Finished(old(State()).outlet, result.status, TerminalType(result.status)))
    {
      hide Stamped;
      finalResult := Some(result);
      var e := Stamped(prefix, TerminalType(result.status), sequence);
      sequence := sequence + 1;
      eventQueue.PushTerminal(e);
      eventQueue.Close();
    }

    /** The client settles an open approval before the terminal event. */
    method FinishRun(result: RunResult)
      modifies this`finalResult, this`pendingApproval, this`sequence, eventQueue
      ensures State() == Finish(old(State()), result)
    {
      hide ResolveApproval, Finished;
      if finalResult.None? {
        ResolvedResult(State());
        Resolve();
        Conclude(result);
      }
    }

    method GiveUpWith(status: Status)
      modifies this`unsafe, this`finalResult, this`pendingApproval, this`sequence, eventQueue
      ensures State() == GiveUp(old(State()), status)
    {
      hide Finish;
      if finalResult.None? {
        unsafe := true;
        FinishRun(Bare(status));
      }
    }

    /** The client gives the connection up. */
    method AbortConnection()
      requires Inv(State())
      modifies this, eventQueue
      ensures State() == Abort(old(State())) && Inv(State())
    {
      hide Inv, GiveUp;
      StepKeeps(State(), GiveUpRun);
      GiveUpWith(ConnectionAborted);
    }

    method EmitEvent(kind: EventType)
      modifies this`unsafe, this`finalResult, this`pendingApproval, this`sequence, eventQueue
      ensures State() == Emit(old(State()), kind)
    {
      hide GiveUp, Emitted;
      if finalResult.Some? {
        return;
      }
      var taken := Offer(kind);
      if !taken {
        GiveUpWith(ConnectionAborted);
      }
    }

    method HandleTerminalSignal(status: EndStatus)
      modifies this, eventQueue
      ensures State() == Signalled(old(State()), status)
    {
      hide GiveUp;
      if terminalSignal.Some? {
        GiveUpWith(Status.Failed);
        return;
      }
      if finalResult.Some? {
        return;
      }
      terminalSignal := Some(status);
      if reconcile.NotStarted? {
        reconcile := Polling(Some(status));
      }
    }

    method HandleApprovalRequest(choices: set<string>)
      modifies this, eventQueue
      ensures State() == ApprovalAsked(old(State()), choices)
    {
      hide GiveUp, Emit;
      if !supportsApproval || pendingApproval.Some? {
        GiveUpWith(Status.Failed);
        return;
      }
      pendingApproval := Some(Approval(interactionSerial, choices, false));
      interactionSerial := interactionSerial + 1;
      EmitEvent(InteractionRequested);
    }

    method HandleApprovalResolved(choice: string)
      modifies this, eventQueue
      ensures State() == ProviderResolved(old(State()), choice)
    {
      hide GiveUp, ResolveApproval;
      if pendingApproval.Some? {
        var a := pendingApproval.value;
        if choice !in a.choices {
          GiveUpWith(Status.Failed);
          return;
        }
        if a.claimed {
          approvalResponseGates := Announced(approvalResponseGates, a.id, choice);
        }
        Resolve();
        return;
      }
      if confirmedApprovalChoice == Some(choice) {
        confirmedApprovalChoice := None;
      } else {
        GiveUpWith(Status.Failed);
      }
    }

    /** After terminal evidence only events about other things are tolerated. */
    method Dispatch(m: Mapping)
      modifies this, eventQueue
      ensures State() == Handled(old(State()), m)
    {
      hide GiveUp, Emit, ApprovalAsked, ProviderResolved, Signalled;
      match m
      case Terminal(status) => HandleTerminalSignal(status);
      case Passing =>
        if terminalSignal.None? {
          EmitEvent(Provider);
        }
      case _ =>
        if terminalSignal.Some? {
          GiveUpWith(Status.Failed);
        } else {
          HandleOwn(m);
        }
    }

    method HandleOwn(m: Mapping)
      requires terminalSignal.None? && !m.Terminal? && !m.Passing?
      modifies this, eventQueue
      ensures State() == Handled(old(State()), m)
    {
      hide GiveUp, Emit, ApprovalAsked, ProviderResolved, Signalled;
      match m
      case Portable(kind) => EmitEvent(kind);
      case Asks(choices) => HandleApprovalRequest(choices);
      case Resolves(choice) => HandleApprovalResolved(choice);
    }

    /** One event off the stream. */
    method HandleEvent(m: Mapping)
      requires Inv(State()) && pumping
      modifies this, eventQueue
      ensures State() == Streamed(old(State()), m) && Inv(State())
    {
      hide Handled, Inv;
      StepKeeps(State(), Stream(m));
      Dispatch(m);
      if finalResult.Some? && !finalResult.value.status.Completed? {
        pumping, streamClosed := false, true;
      }
    }

    method EndStream()
      requires Inv(State()) && pumping
      modifies this
      ensures State() == StreamEnded(old(State())) && Inv(State())
    {
      hide Inv;
      StepKeeps(State(), Op.EndStream);
      pumping, streamClosed := false, true;
      if finalResult.None? && terminalSignal.None? && reconcile.NotStarted? {
        reconcile := Polling(None);
      }
    }

    /** Polling ends by giving up on the provider. */
    method EndPolling(status: Status)
      modifies this, eventQueue
      ensures State() == GiveUp(old(State()), status).(reconcile := Over)
    {
      hide Finish;
      GiveUpWith(status);
      reconcile := Over;
    }

    /** A status reply reaches the poller; ownership is checked before anything is believed. */
    method HandleStatus(body: StatusBody, late: bool)
      requires Inv(State()) && reconcile.Polling?
      modifies this, eventQueue
      ensures State() == Replied(old(State()), body, late) && Inv(State())
    {
      hide GiveUp, ParseStatus, Inv;
      StepKeeps(State(), StatusReply(body, late));
      var report, expected := ParseStatus(body, providerRunId, sessionId), reconcile.expected;
      if report.None? {
        EndPolling(Status.Failed);
        unsafe := true;
      } else if report.value.result.None? {
        if late {
          EndPolling(ConnectionAborted);
        } else if finalResult.Some? {
          reconcile := Over;
        }
      } else if expected.Some? && expected.value != report.value.result.value.status {
        EndPolling(Status.Failed);
      } else {
        reconcile := AwaitGates(expected, report.value);
      }
    }

    method PassGates()
      requires Inv(State()) && reconcile.AwaitGates? && approvalResponseGates == [] && reconcile.report.result.Some?
      modifies this, eventQueue
      ensures State() == GatesOpened(old(State())) && Inv(State())
    {
      hide Emit, Inv;
      StepKeeps(State(), OpenGates);
      if finalResult.Some? {
        reconcile := Over;
        return;
      }
      var report, expected := reconcile.report, reconcile.expected;
      var result := report.result.value;
      if result.status.Completed? {
        if result.finalMessage.Some? {
          EmitEvent(MessageCompleted);
        }
        if result.usage.Some? {
          EmitEvent(UsageUpdated);
        }
      }
      reconcile := if expected.Some? then Draining(report) else AwaitFinish(report);
    }

    method SettleRun()
      requires Inv(State()) && reconcile.AwaitFinish? && approvalResponseGates == [] && reconcile.report.result.Some?
      modifies this, eventQueue
      ensures State() == Settled(old(State())) && Inv(State())
    {
      hide Finish, Inv;
      StepKeeps(State(), Settle);
      if finalResult.None? {
        var report := reconcile.report;
        FinishRun(report.result.value);
        settledBy := Some(report);
      }
      reconcile := Over;
    }

    method BeginRespond(choice: string) returns (begun: bool)
      requires Inv(State())
      modifies this`pendingApproval, this`approvalResponseGates
      ensures State() == RespondStarted(old(State()), choice) && Inv(State())
      ensures begun <==> |approvalResponseGates| == old(|approvalResponseGates|) + 1
    {
      hide Inv;
      StepKeeps(State(), StartRespond(choice));
      if finalResult.Some? || pendingApproval.None? || pendingApproval.value.claimed
          || choice !in pendingApproval.value.choices {
        return false;
      }
      var a := pendingApproval.value;
      pendingApproval := Some(a.(claimed := true));
      approvalResponseGates := approvalResponseGates + [Flight(a.id, choice, None)];
      return true;
    }

    /** The provider accepted a reply: it must not contradict what the provider announced. */
    method AcceptReply(f: Flight)
      modifies this, eventQueue
      ensures State() == Acknowledged(old(State()), f)
    {
      hide GiveUp, ResolveApproval;
      if f.announced.Some? {
        if f.announced.value != f.choice {
          GiveUpWith(Status.Failed);
        }
        return;
      }
      if confirmedApprovalChoice.Some? {
        GiveUpWith(Status.Failed);
        return;
      }
      confirmedApprovalChoice := Some(f.choice);
      Resolve();
    }

    method ConcludeReply(f: Flight, reply: Reply)
      modifies this, eventQueue
      ensures State() == Concluded(old(State()), f, reply)
    {
      hide GiveUp, Acknowledged;
      match reply
      case Accepted => AcceptReply(f);
      case MaybeTaken =>
        GiveUpWith(ConnectionAborted);
        unsafe := true;
      case Refused =>
        if pendingApproval.Some? && pendingApproval.value.id == f.id && finalResult.None? {
          pendingApproval := Some(pendingApproval.value.(claimed := false));
        }
    }

    /** Whatever came of it, the gate opens again. */
    method EndRespond(i: nat, reply: Reply)
      requires Inv(State()) && i < |approvalResponseGates|
      modifies this, eventQueue
      ensures State() == RespondEnded(old(State()), i, reply) && Inv(State())
    {
      hide Concluded, Without, Inv;
      StepKeeps(State(), Op.EndRespond(i, reply));
      ConcludeReply(approvalResponseGates[i], reply);
      approvalResponseGates := Without(approvalResponseGates, i);
    }
  }

  lemma ResolvedResult(r: Run)
    ensures ResolveApproval(r).result == r.result
  {
  }
}
