/** The reference provider's run and session: the state machine the conformance suite is tried on. */
module FakeRun {
  import opened Prelude
  import opened Contracts
  import opened PortableTrace

  datatype CancelMode = Native | AdapterControlled | NotCancellable

  /** `pending`: an interaction waits for the host. `scheduled`: completion was queued as a microtask.
      `read`: how far the consumer has come. */
  datatype Run = Run(
    prefix: string, cancelMode: CancelMode, includeUnknown: bool,
    emitted: seq<Event>, pending: bool, scheduled: bool, final: Option<Status>, read: nat)

  function Emit(r: Run, kind: EventType): Run {
    r.(emitted := r.emitted + [Stamped(r.prefix, kind, |r.emitted|)])
  }

  function Created(prefix: string, cancelMode: CancelMode, includeUnknown: bool, interaction: bool): Run {
    var started := Emit(Run(prefix, cancelMode, includeUnknown, [], false, false, None, 0), RunStarted);
    if interaction then Emit(started.(pending := true), InteractionRequested) else started
  }

  function ResolveInteraction(r: Run): Run {
    if r.pending then Emit(r.(pending := false), InteractionResolved) else r
  }

  function Message(r: Run): Run {
    var delta := Emit(r, MessageDelta);
    Emit(if r.includeUnknown then Emit(delta, Provider) else delta, MessageCompleted)
  }

  /** An interaction still open is resolved first, a completed run delivers its message, and the terminal
      event comes last. */
  function Finish(r: Run, status: Status): Run {
    var resolved := ResolveInteraction(r);
    Emit(if status.Completed? then Message(resolved) else resolved, TerminalType(status)).(final := Some(status))
  }

  /** Asking for events or the result schedules completion, once. */
  function Scheduled(r: Run): Run {
    if r.scheduled || r.final.Some? then r else r.(scheduled := true)
  }

  function MicrotaskRan(r: Run): Run {
    if r.scheduled && r.final.None? && !r.pending then Finish(r, Completed) else r
  }

  function CancelRequested(r: Run): Run {
    if r.final.Some? || r.cancelMode.NotCancellable? then r
    else Finish(r, if r.cancelMode.AdapterControlled? then ConnectionAborted else Cancelled)
  }

  function Aborted(r: Run): Run {
    if r.final.Some? then r else Finish(r, ConnectionAborted)
  }

  /** `fits`: the response names the open request, is of its kind and well formed. */
  function Responded(r: Run, fits: bool): Run {
    if r.final.Some? || !r.pending || !fits then r else Finish(ResolveInteraction(r), Completed)
  }

  function Read(r: Run): Run {
    if r.read < |r.emitted| then r.(read := r.read + 1) else r
  }

  datatype Op = Observe | Microtask | Cancel | Abort | Respond(fits: bool) | ReadNext

  function Step(r: Run, op: Op): Run {
    match op
    case Observe => Scheduled(r)
    case Microtask => MicrotaskRan(r)
    case Cancel => CancelRequested(r)
    case Abort => Aborted(r)
    case Respond(fits) => Responded(r, fits)
    case ReadNext => Read(r)
  }

  /** Numbered without gaps, live until settled and valid from then on; no interaction outlives the run. */
  ghost predicate Inv(r: Run) {
    && r.read <= |r.emitted|
    && (forall i :: 0 <= i < |r.emitted| ==> r.emitted[i].number == i)
    && (r.final.Some? ==> !r.pending)
    && if r.final.None? then LiveTrace(r.prefix, r.emitted, |r.emitted|) else ValidTrace(r.emitted, r.final.value)
  }

  lemma EmitLive(r: Run, kind: EventType)
    requires Inv(r) && r.final.None? && !IsTerminalType(kind)
    ensures Inv(Emit(r, kind))
  {
    LiveTraceGrows(r.prefix, r.emitted, |r.emitted|, kind);
    StampFields(r.prefix, kind, |r.emitted|);
    hide LiveTrace, Stamped;
  }

  lemma ResolveKeeps(r: Run)
    requires Inv(r) && r.final.None?
    ensures var t := ResolveInteraction(r);
      Inv(t) && !t.pending && t.final.None? && r.emitted <= t.emitted
  {
    hide Inv, Emit;
    if r.pending {
      Unpend(r);
      EmitLive(r.(pending := false), InteractionResolved);
      EmitFrame(r.(pending := false), InteractionResolved);
    }
  }

  lemma MessageKeeps(r: Run)
    requires Inv(r) && r.final.None? && !r.pending
    ensures var t := Message(r);
      Inv(t) && !t.pending && t.final.None? && r.emitted <= t.emitted
  {
    hide Inv, Emit;
    EmitFrame(r, MessageDelta);
    var delta := Emit(r, MessageDelta);
    EmitLive(r, MessageDelta);
    EmitFrame(delta, Provider);
    EmitLive(delta, Provider);
    var more := if r.includeUnknown then Emit(delta, Provider) else delta;
    EmitFrame(more, MessageCompleted);
    EmitLive(more, MessageCompleted);
  }

  lemma FinishKeeps(r: Run, status: Status)
    requires Inv(r) && r.final.None?
    ensures Inv(Finish(r, status)) && Finish(r, status).final == Some(status)
    ensures r.emitted <= Finish(r, status).emitted
  {
    hide Inv, Emit, Message, ResolveInteraction;
    ResolveKeeps(r);
    var resolved := ResolveInteraction(r);
    MessageKeeps(resolved);
    var told := if status.Completed? then Message(resolved) else resolved;
    LastEmit(told, status);
    EmitFrame(told, TerminalType(status));
  }

  lemma Unpend(r: Run)
    requires Inv(r)
    ensures Inv(r.(pending := false))
  {
  }

  lemma EmitFrame(r: Run, kind: EventType)
    ensures Emit(r, kind) == r.(emitted := Emit(r, kind).emitted) && r.emitted <= Emit(r, kind).emitted
  {
  }

  lemma LastEmit(r: Run, status: Status)
    requires Inv(r) && r.final.None? && !r.pending
    ensures Inv(Emit(r, TerminalType(status)).(final := Some(status)))
  {
    LiveTraceEnds(r.prefix, r.emitted, |r.emitted|, status);
    StampFields(r.prefix, TerminalType(status), |r.emitted|);
    hide LiveTrace, ValidTrace, Stamped;
  }

  lemma StepKeeps(r: Run, op: Op)
    requires Inv(r)
    ensures Inv(Step(r, op)) && r.emitted <= Step(r, op).emitted
    ensures r.final.Some? ==> Step(r, op).final == r.final && Step(r, op).emitted == r.emitted
  {
    hide Finish, LiveTrace, ValidTrace;
    if r.final.None? {
      FinishKeeps(r, Completed);
      FinishKeeps(r, ConnectionAborted);
      FinishKeeps(r, Cancelled);
      if op.Respond? && r.pending {
        EmitLive(r.(pending := false), InteractionResolved);
        EmitFrame(r.(pending := false), InteractionResolved);
        FinishKeeps(ResolveInteraction(r), Completed);
      }
    }
  }

  lemma CreatedKeeps(prefix: string, cancelMode: CancelMode, includeUnknown: bool, interaction: bool)
    ensures Inv(Created(prefix, cancelMode, includeUnknown, interaction))
  {
    var blank := Run(prefix, cancelMode, includeUnknown, [], false, false, None, 0);
    EmitLive(blank, RunStarted);
    EmitLive(Emit(blank, RunStarted).(pending := true), InteractionRequested);
    hide LiveTrace, Emit;
  }

  function RunOf(r: Run, ops: seq<Op>): Run
    decreases |ops|
  {
    if ops == [] then r else RunOf(Step(r, ops[0]), ops[1..])
  }

  /** Once settled the emitted events never change again, and reading to the end shows a valid trace. */
  lemma {:induction false} SettledRun(r: Run, ops: seq<Op>)
    requires Inv(r)
    ensures var t := RunOf(r, ops);
      && Inv(t) && r.emitted <= t.emitted
      && (r.final.Some? ==> t.final == r.final && t.emitted == r.emitted)
      && (t.final.Some? ==> ValidTrace(t.emitted, t.final.value))
    decreases |ops|
  {
    hide Step, LiveTrace, ValidTrace;
    if ops != [] {
      StepKeeps(r, ops[0]);
      SettledRun(Step(r, ops[0]), ops[1..]);
    }
  }

  // ---------------------------------------------------------------- one run at a time per session

  /** A native session: all runs it ever had and the one it believes active. */
  datatype Session = Session(runs: seq<Run>, active: Option<nat>)

  predicate CanStart(s: Session) {
    s.active.None? || (s.active.value < |s.runs| && s.runs[s.active.value].final.Some?)
  }

  function StartedRun(s: Session, r: Run): Session {
    if CanStart(s) then Session(s.runs + [r], Some(|s.runs|)) else s
  }

  /** A step of one run; the settlement callback clears the active run only if it is that one. */
  function RunStep(s: Session, i: nat, op: Op): Session {
    if i >= |s.runs| then s
    else
      var t := Step(s.runs[i], op);
      Session(s.runs[i := t], if s.runs[i].final.None? && t.final.Some? && s.active == Some(i) then None else s.active)
  }

  ghost predicate SessionInv(s: Session) {
    && (forall i :: 0 <= i < |s.runs| ==> Inv(s.runs[i]))
    && (forall i :: 0 <= i < |s.runs| && s.runs[i].final.None? ==> s.active == Some(i))
    && (s.active.Some? ==> s.active.value < |s.runs| && s.runs[s.active.value].final.None?)
  }

  datatype SessionOp =
    | Begin(prefix: string, cancelMode: CancelMode, includeUnknown: bool, interaction: bool)
    | Advance(i: nat, op: Op)

  function SessionStep(s: Session, op: SessionOp): Session {
    match op
    case Begin(prefix, cancelMode, includeUnknown, interaction) =>
      StartedRun(s, Created(prefix, cancelMode, includeUnknown, interaction))
    case Advance(i, o) => RunStep(s, i, o)
  }

  function SessionOf(s: Session, ops: seq<SessionOp>): Session
    decreases |ops|
  {
    if ops == [] then s else SessionOf(SessionStep(s, ops[0]), ops[1..])
  }

  lemma CreatedLive(prefix: string, cancelMode: CancelMode, includeUnknown: bool, interaction: bool)
    ensures Created(prefix, cancelMode, includeUnknown, interaction).final.None?
  {
  }

  lemma SessionStepKeeps(s: Session, op: SessionOp)
    requires SessionInv(s)
    ensures SessionInv(SessionStep(s, op))
  {
    hide Inv, Step, Created;
    match op
    case Begin(prefix, cancelMode, includeUnknown, interaction) =>
      CreatedKeeps(prefix, cancelMode, includeUnknown, interaction);
      CreatedLive(prefix, cancelMode, includeUnknown, interaction);
    case Advance(i, o) =>
      if i < |s.runs| {
        StepKeeps(s.runs[i], o);
      }
  }

  lemma {:induction false} SessionKeeps(s: Session, ops: seq<SessionOp>)
    requires SessionInv(s)
    ensures SessionInv(SessionOf(s, ops))
    decreases |ops|
  {
    hide SessionInv, SessionStep;
    if ops != [] {
      SessionStepKeeps(s, ops[0]);
      SessionKeeps(SessionStep(s, ops[0]), ops[1..]);
    }
  }

  /** Over every interleaving of a session's starts and its runs' steps: at most one run is unsettled, a new one
      can start exactly when none is, and every settled run has a valid trace. */
  lemma OneUnsettledRun(ops: seq<SessionOp>)
    ensures var s := SessionOf(Session([], None), ops);
      && (forall i, j :: 0 <= i < |s.runs| && 0 <= j < |s.runs| && s.runs[i].final.None? && s.runs[j].final.None? ==>
          i == j)
      && (CanStart(s) <==> forall k :: 0 <= k < |s.runs| ==> s.runs[k].final.Some?)
      && (forall k :: 0 <= k < |s.runs| && s.runs[k].final.Some? ==>
          ValidTrace(s.runs[k].emitted, s.runs[k].final.value))
  {
    hide SessionOf, LiveTrace, ValidTrace;
    SessionKeeps(Session([], None), ops);
  }

  // ---------------------------------------------------------------- the run object

  class FakeProviderRun {
    const prefix: string
    const cancelMode: CancelMode
    const includeUnknown: bool
    var emitted: seq<Event>
    var pending: bool
    var completionScheduled: bool
    var finalResult: Option<Status>
    var index: nat
    var settlementCalls: nat

    ghost function State(): Run
      reads this
    {
      Run(prefix, cancelMode, includeUnknown, emitted, pending, completionScheduled, finalResult, index)
    }

    constructor (prefix: string, cancelMode: CancelMode, includeUnknown: bool, interaction: bool)
      ensures State() == Created(prefix, cancelMode, includeUnknown, interaction) && settlementCalls == 0
    {
      this.prefix, this.cancelMode, this.includeUnknown := prefix, cancelMode, includeUnknown;
      emitted, pending, completionScheduled, finalResult, index, settlementCalls := [], false, false, None, 0, 0;
      new;
      EmitEvent(RunStarted);
      if interaction {
        pending := true;
        EmitEvent(InteractionRequested);
      }
    }

    method EmitEvent(kind: EventType)
      modifies this`emitted
      ensures State() == Emit(old(State()), kind)
    {
      emitted := emitted + [Stamped(prefix, kind, |emitted|)];
    }

    method Resolve()
      modifies this`pending, this`emitted
      ensures State() == ResolveInteraction(old(State()))
    {
      if pending {
        pending := false;
        EmitEvent(InteractionResolved);
      }
    }

    /** Every caller checks that the run is not settled yet, so the callbacks run once. */
    method FinishRun(status: Status)
      requires finalResult.None?
      modifies this
      ensures State() == Finish(old(State()), status) && settlementCalls == old(settlementCalls) + 1
    {
      hide Emit;
      Resolve();
      if status.Completed? {
        EmitEvent(MessageDelta);
        if includeUnknown {
          EmitEvent(Provider);
        }
        EmitEvent(MessageCompleted);
      }
      EmitEvent(TerminalType(status));
      finalResult := Some(status);
      settlementCalls := settlementCalls + 1;
    }

    method ScheduleCompletion()
      modifies this`completionScheduled
      ensures State() == Scheduled(old(State()))
    {
      if !completionScheduled && finalResult.None? {
        completionScheduled := true;
      }
    }

    method RunMicrotask()
      requires completionScheduled
      modifies this
      ensures State() == MicrotaskRan(old(State()))
      ensures settlementCalls == old(settlementCalls) + if old(finalResult).None? && finalResult.Some? then 1 else 0
    {
      hide Finish;
      FinishSettles(State(), Completed);
      if finalResult.None? && !pending {
        FinishRun(Completed);
      }
    }

    method CancelRun()
      modifies this
      ensures State() == CancelRequested(old(State()))
      ensures settlementCalls == old(settlementCalls) + if old(finalResult).None? && finalResult.Some? then 1 else 0
    {
      hide Finish;
      FinishSettles(State(), ConnectionAborted);
      FinishSettles(State(), Cancelled);
      if finalResult.Some? || cancelMode.NotCancellable? {
        return;
      }
      FinishRun(if cancelMode.AdapterControlled? then ConnectionAborted else Cancelled);
    }

    method RespondTo(fits: bool) returns (ok: bool)
      modifies this
      ensures State() == Responded(old(State()), fits) && ok == (old(finalResult).None? && old(pending) && fits)
      ensures settlementCalls == old(settlementCalls) + if old(finalResult).None? && finalResult.Some? then 1 else 0
    {
      hide Finish;
      if finalResult.Some? || !pending || !fits {
        return false;
      }
      Resolve();
      FinishSettles(State(), Completed);
      FinishRun(Completed);
      return true;
    }
  }

  lemma FinishSettles(r: Run, status: Status)
    ensures Finish(r, status).final == Some(status)
  {
  }
}
