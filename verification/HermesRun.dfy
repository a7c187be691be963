/** One run of the Hermes adapter: its event stream, the status polling that settles it, and approvals in flight. */
module HermesRun {
  import opened Prelude
  import opened Contracts
  import opened RunEvents
  import opened PortableTrace

  /** A status document of the Runs API. `Other` stands for any status value the adapter does not know. */
  datatype NativeStatus = Working | Completed | Failed | Cancelled | Other

  datatype StatusBody = StatusBody(run: string, session: string, status: NativeStatus, output: string,
      usage: Option<Usage>)

  /** What a well-formed status reply for this run and session says; a report with no result is not final. */
  datatype Report = Report(body: StatusBody, result: Option<RunResult>)

  function ParseStatus(body: StatusBody, run: string, session: string): (report: Option<Report>)
    ensures report.Some? ==> body.run == run && body.session == session && report.value.body == body
    ensures report.Some? && report.value.result.Some? ==> !report.value.result.value.status.ConnectionAborted?
  {
    if body.run != run || body.session != session then None
    else
      match body.status
      case Working => Some(Report(body, None))
      case Completed => Some(Report(body, Some(RunResult(Status.Completed, Some(ProviderResult("completed", None)),
          Some(body.output), body.usage))))
      case Failed => Some(Report(body, Some(RunResult(Status.Failed, Some(ProviderResult("failed", None)), None,
          None))))
      case Cancelled => Some(Report(body, Some(RunResult(Status.Cancelled, Some(ProviderResult("cancelled", None)),
          None, None))))
      case Other => None
  }

  /** The portable events the stream is mapped to, and what its terminal events stand for. */
  type StreamKind = k: EventType | k.MessageDelta? || k.ToolStarted? || k.ToolCompleted? || k.ReasoningCompleted?
    witness MessageDelta
  type EndStatus = s: Status | !s.ConnectionAborted?
    witness Status.Completed

  /** A stream event; a terminal one carries the status its type stands for. */
  datatype Mapping = Terminal(status: EndStatus) | Portable(kind: StreamKind) | Asks(choices: set<string>)
      | Resolves(choice: string) | Passing

  datatype Approval = Approval(id: nat, choices: set<string>, claimed: bool)

  /** An approval reply on its way to the provider, and the choice the provider announced meanwhile. */
  datatype Flight = Flight(id: nat, choice: string, announced: Option<string>)

  /** `expected` is the terminal event the stream showed, if any, when polling began. */
  datatype Reconcile =
    | NotStarted | Polling(expected: Option<Status>) | AwaitGates(expected: Option<Status>, report: Report)
    | Draining(report: Report) | AwaitFinish(report: Report) | Over

  datatype StreamError = Uncertain | Incompatible | OtherError

  /** `pumping`: the event stream is still read. `unsafe`: the session was quarantined on this run's account.
      `settledBy`: the report the run settled on, when it did on one. */
  datatype Run = Run(
    outlet: Outlet, capacity: nat, runId: string, sessionId: string, approvals: bool, result: Option<RunResult>,
    signal: Option<Status>, pumping: bool, streamClosed: bool, reconcile: Reconcile,
    approval: Option<Approval>, flights: seq<Flight>, confirmed: Option<string>, serial: nat,
    unsafe: bool, settledBy: Option<Report>)

  function Started(prefix: string, capacity: nat, runId: string, sessionId: string, approvals: bool): Run {
    Run(Emitted(Opened(prefix), RunStarted, capacity).0, capacity, runId, sessionId, approvals, None,
        None, true, false, NotStarted, None, [], None, 0, false, None)
  }

  /** An approval still open is announced resolved, whatever room there is. */
  function ResolveApproval(r: Run): Run {
    if r.approval.None? then r else r.(approval := None, outlet := EmittedAnyway(r.outlet, InteractionResolved))
  }

  function Finish(r: Run, result: RunResult): Run {
    if r.result.Some? then r
    else
      var resolved := ResolveApproval(r);
      resolved.(result := Some(result), outlet := Finished(resolved.outlet, result.status, TerminalType(result.status)))
  }

  function Bare(status: Status): RunResult {
    RunResult(status, None, None, None)
  }

  /** Both ways of giving up on the provider quarantine the session. */
  function GiveUp(r: Run, status: Status): Run {
    if r.result.Some? then r else Finish(r.(unsafe := true), Bare(status))
  }

  function Abort(r: Run): Run {
    GiveUp(r, ConnectionAborted)
  }

  function FailIncompatible(r: Run): Run {
    GiveUp(r, Status.Failed)
  }

  function Emit(r: Run, kind: EventType): Run {
    if r.result.Some? then r
    else
      var (outlet, taken) := Emitted(r.outlet, kind, r.capacity);
      if taken then r.(outlet := outlet) else Abort(r.(outlet := outlet))
  }

  function Reconciling(r: Run, expected: Option<Status>): Run {
    if r.reconcile.NotStarted? then r.(reconcile := Polling(expected)) else r
  }

  function Signalled(r: Run, status: Status): Run {
    if r.signal.Some? then FailIncompatible(r)
    else if r.result.Some? then r
    else Reconciling(r.(signal := Some(status)), Some(status))
  }

  function ApprovalAsked(r: Run, choices: set<string>): Run {
    if !r.approvals || r.approval.Some? then FailIncompatible(r)
    else Emit(r.(approval := Some(Approval(r.serial, choices, false)), serial := r.serial + 1), InteractionRequested)
  }

  function Announced(flights: seq<Flight>, id: nat, choice: string): (r: seq<Flight>)
    ensures |r| == |flights|
  {
    seq(|flights|, i requires 0 <= i < |flights| =>
      if flights[i].id == id then flights[i].(announced := Some(choice)) else flights[i])
  }

  /** The provider announces a choice: for the open approval, or for one the host's reply already closed. */
  function ProviderResolved(r: Run, choice: string): Run {
    if r.approval.Some? then
      var a := r.approval.value;
      if choice !in a.choices then FailIncompatible(r)
      else ResolveApproval(if a.claimed then r.(flights := Announced(r.flights, a.id, choice)) else r)
    else if r.confirmed == Some(choice) then r.(confirmed := None)
    else FailIncompatible(r)
  }

  function Handled(r: Run, m: Mapping): Run {
    match m
    case Terminal(status) => Signalled(r, status)
    case Passing => if r.signal.Some? then r else Emit(r, Provider)
    case Portable(kind) => if r.signal.Some? then FailIncompatible(r) else Emit(r, kind)
    case Asks(choices) => if r.signal.Some? then FailIncompatible(r) else ApprovalAsked(r, choices)
    case Resolves(choice) => if r.signal.Some? then FailIncompatible(r) else ProviderResolved(r, choice)
  }

  function PumpOver(r: Run): Run {
    r.(pumping := false, streamClosed := true)
  }

  /** One stream event; a run that settled otherwise than completed stops reading. */
  function Streamed(r: Run, m: Mapping): Run {
    if !r.pumping then r
    else
      var t := Handled(r, m);
      if t.result.Some? && !t.result.value.status.Completed? then PumpOver(t) else t
  }

  /** The stream ends. Without a terminal event the provider is asked how the run ended. */
  function StreamEnded(r: Run): Run {
    if !r.pumping then r
    else if r.result.Some? || r.signal.Some? then PumpOver(r)
    else Reconciling(PumpOver(r), None)
  }

  function StreamThrew(r: Run, error: StreamError): Run {
    if !r.pumping then r
    else if r.result.Some? || r.signal.Some? then PumpOver(r)
    else
      match error
      case Uncertain => Reconciling(PumpOver(r), None)
      case Incompatible => FailIncompatible(PumpOver(r))
      case OtherError => Abort(PumpOver(r))
  }

  /** A status reply; `late`: the polling deadline has passed. */
  function Replied(r: Run, body: StatusBody, late: bool): Run {
    if !r.reconcile.Polling? then r
    else
      var report, expected := ParseStatus(body, r.runId, r.sessionId), r.reconcile.expected;
      if report.None? then FailIncompatible(r).(unsafe := true, reconcile := Over)
      else if report.value.result.None? then
        if late then Abort(r).(reconcile := Over) else if r.result.Some? then r.(reconcile := Over) else r
      else if expected.Some? && expected.value != report.value.result.value.status
      then FailIncompatible(r).(reconcile := Over)
      else r.(reconcile := AwaitGates(expected, report.value))
  }

  function StatusFailed(r: Run, incompatible: bool): Run {
    if !r.reconcile.Polling? then r
    else if incompatible then FailIncompatible(r).(unsafe := true, reconcile := Over)
    else Abort(r).(reconcile := Over)
  }

  /** The completed run's message and usage, reported once no approval reply is in flight. */
  function Delivered(r: Run, result: RunResult): Run {
    if !result.status.Completed? then r
    else
      var told := if result.finalMessage.Some? then Emit(r, MessageCompleted) else r;
      if result.usage.Some? then Emit(told, UsageUpdated) else told
  }

  function GatesOpened(r: Run): Run {
    if !r.reconcile.AwaitGates? || r.flights != [] || r.reconcile.report.result.None? then r
    else if r.result.Some? then r.(reconcile := Over)
    else
      var report := r.reconcile.report;
      Delivered(r, report.result.value).(reconcile := if r.reconcile.expected.Some? then Draining(report)
          else AwaitFinish(report))
  }

  /** The stream closed or the time allowed for late events is over. */
  function Drained(r: Run): Run {
    if r.reconcile.Draining? then r.(reconcile := if r.result.Some? then Over else AwaitFinish(r.reconcile.report))
        else r
  }

  function Settled(r: Run): Run {
    if !r.reconcile.AwaitFinish? || r.flights != [] || r.reconcile.report.result.None? then r
    else if r.result.Some? then r.(reconcile := Over)
    else
      var report := r.reconcile.report;
      Finish(r, report.result.value).(reconcile := Over, settledBy := Some(report))
  }

  // ---------------------------------------------------------------- approvals

  function RespondStarted(r: Run, choice: string): Run {
    if r.result.Some? || r.approval.None? || r.approval.value.claimed || choice !in r.approval.value.choices then r
    else
      r.(approval := Some(r.approval.value.(claimed := true)),
         flights := r.flights + [Flight(r.approval.value.id, choice, None)])
  }

  /** How the provider took a reply: accepted it, maybe took it, or certainly did not. */
  datatype Reply = Accepted | MaybeTaken | Refused

  function Acknowledged(r: Run, f: Flight): Run {
    if f.announced.Some? then if f.announced.value == f.choice then r else FailIncompatible(r)
    else if r.confirmed.Some? then FailIncompatible(r)
    else ResolveApproval(r.(confirmed := Some(f.choice)))
  }

  function Concluded(r: Run, f: Flight, reply: Reply): Run {
    match reply
    case Accepted => Acknowledged(r, f)
    case MaybeTaken => Abort(r).(unsafe := true)
    case Refused =>
      if r.approval.Some? && r.approval.value.id == f.id && r.result.None?
      then r.(approval := Some(r.approval.value.(claimed := false))) else r
  }

  function RespondEnded(r: Run, i: nat, reply: Reply): Run {
    if i >= |r.flights| then r
    else
      var t := Concluded(r, r.flights[i], reply);
      t.(flights := Without(t.flights, i))
  }

  function Without(flights: seq<Flight>, i: nat): seq<Flight> {
    if i < |flights| then flights[..i] + flights[i + 1..] else flights
  }

  // ---------------------------------------------------------------- every interleaving

  datatype Op =
    | Stream(m: Mapping) | EndStream | StreamError(error: StreamError)
    | StatusReply(body: StatusBody, late: bool) | StatusError(incompatible: bool)
    | OpenGates | Drain | Settle
    | StartRespond(choice: string) | EndRespond(i: nat, reply: Reply) | GiveUpRun | Consume

  function Step(r: Run, op: Op): Run {
    match op
    case Stream(m) => Streamed(r, m)
    case EndStream => StreamEnded(r)
    case StreamError(error) => StreamThrew(r, error)
    case StatusReply(body, late) => Replied(r, body, late)
    case StatusError(incompatible) => StatusFailed(r, incompatible)
    case OpenGates => GatesOpened(r)
    case Drain => Drained(r)
    case Settle => Settled(r)
    case StartRespond(choice) => RespondStarted(r, choice)
    case EndRespond(i, reply) => RespondEnded(r, i, reply)
    case GiveUpRun => Abort(r)
    case Consume => r.(outlet := Read(r.outlet))
  }

  ghost predicate Core(r: Run) {
    && OutletInv(r.outlet)
    && r.outlet.final == (if r.result.Some? then Some(r.result.value.status) else None)
  }

  /** The final report of a status reply for this very run and session. */
  ghost predicate Own(r: Run, report: Report) {
    ParseStatus(report.body, r.runId, r.sessionId) == Some(report) && report.result.Some?
  }

  /** A report settles nothing that the stream contradicts: it agrees with the terminal event seen, or none
      was seen and none can be any more. */
  ghost predicate Agrees(r: Run, report: Report)
    requires report.result.Some?
  {
    if r.signal.Some? then r.signal == Some(report.result.value.status) else !r.pumping
  }

  /** Polling knows every terminal event the stream has shown or will show. */
  ghost predicate Informed(r: Run) {
    match r.reconcile
    case NotStarted => r.signal.None?
    case Polling(expected) => expected == r.signal && (expected.None? ==> !r.pumping)
    case AwaitGates(expected, report) => Own(r, report) && expected == r.signal && Agrees(r, report)
    case Draining(report) => Own(r, report) && Agrees(r, report)
    case AwaitFinish(report) => Own(r, report) && Agrees(r, report)
    case Over => r.signal.None? ==> !r.pumping
  }

  /** A settled run either ended on a report of its own that the stream does not contradict, with no approval
      reply in flight and nothing left to do, or quarantined its session. */
  ghost predicate Justified(r: Run) {
    r.result.Some? ==>
      if r.settledBy.Some? then
        && Own(r, r.settledBy.value) && r.settledBy.value.result == r.result && Agrees(r, r.settledBy.value)
        && r.flights == [] && r.reconcile.Over?
      else r.unsafe && (r.result.value.status.ConnectionAborted? || r.result.value.status.Failed?)
  }

  ghost predicate Inv(r: Run) {
    && Core(r) && Informed(r) && Justified(r)
    && (r.settledBy.Some? ==> r.result.Some?)
    && (r.reconcile.Over? ==> r.result.Some?)
    && (r.unsafe ==> r.result.Some?)
  }

  // ---------------------------------------------------------------- steps keep the invariant

  /** Emitting, resolving an approval and giving up: a settled run is untouched; one that settles this way is unsafe. */
  ghost predicate Contained(a: Run, b: Run) {
    && b == a.(outlet := b.outlet, approval := b.approval, result := b.result, unsafe := b.unsafe)
    && (a.result.Some? ==> b.result == a.result && b.outlet == a.outlet && b.unsafe == a.unsafe)
    && (a.result.None? && b.result.Some? ==>
          b.unsafe && (b.result.value.status.ConnectionAborted? || b.result.value.status.Failed?))
    && (b.result.None? ==> b.unsafe == a.unsafe)
  }

  lemma ResolveKeeps(r: Run)
    requires Core(r)
    ensures var t := ResolveApproval(r);
      Core(t) && t == r.(outlet := t.outlet, approval := None) && (r.result.Some? ==> t.outlet == r.outlet)
  {
    EmittedKeeps(r.outlet, InteractionResolved, 0);
    AnywayFinal(r.outlet, InteractionResolved);
    hide OutletInv, EmittedAnyway;
  }

  lemma AnywayFinal(o: Outlet, kind: EventType)
    ensures EmittedAnyway(o, kind).final == o.final && (o.final.Some? ==> EmittedAnyway(o, kind) == o)
  {
  }

  lemma FinishKeeps(r: Run, result: RunResult)
    requires Core(r)
    ensures var t := Finish(r, result);
      && Core(t) && t == r.(outlet := t.outlet, approval := t.approval, result := t.result)
      && t.result == (if r.result.Some? then r.result else Some(result)) && (r.result.Some? ==> t == r)
  {
    ResolveKeeps(r);
    FinishedKeeps(ResolveApproval(r).outlet, result.status, TerminalType(result.status));
    hide OutletInv, Finished, ResolveApproval, TerminalType;
  }

  lemma GiveUpKeeps(r: Run, status: Status)
    requires Core(r) && (status.ConnectionAborted? || status.Failed?)
    ensures var t := GiveUp(r, status);
      Core(t) && Contained(r, t) && t.result.Some? && (r.result.None? ==> t.result == Some(Bare(status)))
  {
    FinishKeeps(r.(unsafe := true), Bare(status));
    hide OutletInv, Finish;
  }

  lemma EmitKeeps(r: Run, kind: EventType)
    requires Core(r) && !IsTerminalType(kind)
    ensures Core(Emit(r, kind)) && Contained(r, Emit(r, kind))
  {
    hide OutletInv, GiveUp, IsTerminalType;
    if r.result.None? {
      EmittedKeeps(r.outlet, kind, r.capacity);
      EmittedFinal(r.outlet, kind, r.capacity);
      hide Emitted;
      var offered := r.(outlet := Emitted(r.outlet, kind, r.capacity).0);
      GiveUpKeeps(offered, ConnectionAborted);
    }
  }

  lemma EmittedFinal(o: Outlet, kind: EventType, capacity: nat)
    ensures Emitted(o, kind, capacity).0.final == o.final
  {
  }

  lemma ContainedKeeps(a: Run, b: Run)
    requires Inv(a) && Core(b) && Contained(a, b)
    ensures Inv(b)
  {
    hide OutletInv;
  }

  lemma GiveUpInv(r: Run, status: Status)
    requires Inv(r) && (status.ConnectionAborted? || status.Failed?)
    ensures Inv(GiveUp(r, status))
  {
    InvCore(r);
    GiveUpKeeps(r, status);
    hide Inv, Core, GiveUp;
    ContainedKeeps(r, GiveUp(r, status));
  }

  lemma InvCore(r: Run)
    requires Inv(r)
    ensures Core(r)
  {
  }

  lemma EmitInv(r: Run, kind: EventType)
    requires Inv(r) && !IsTerminalType(kind)
    ensures Inv(Emit(r, kind)) && Contained(r, Emit(r, kind))
  {
    InvCore(r);
    EmitKeeps(r, kind);
    hide Inv, Core, Emit;
    ContainedKeeps(r, Emit(r, kind));
  }

  lemma ResolveInv(r: Run)
    requires Inv(r)
    ensures Inv(ResolveApproval(r)) && ResolveApproval(r).flights == r.flights
  {
    InvCore(r);
    ResolveKeeps(r);
    hide Inv, Core, ResolveApproval;
    ContainedKeeps(r, ResolveApproval(r));
  }

  /** The approval bookkeeping may change as it likes, as long as no reply takes off from a settled run. */
  lemma EditKeeps(r: Run, t: Run)
    requires Inv(r)
    requires t == r.(approval := t.approval, serial := t.serial, confirmed := t.confirmed, flights := t.flights)
    requires |t.flights| <= |r.flights| || r.result.None?
    ensures Inv(t)
  {
    hide OutletInv;
  }

  lemma SignalledKeeps(r: Run, status: Status)
    requires Inv(r) && r.pumping && !status.ConnectionAborted?
    ensures Inv(Signalled(r, status))
  {
    if r.signal.Some? {
      GiveUpInv(r, Status.Failed);
    }
    hide OutletInv, GiveUp;
  }

  lemma AskedKeeps(r: Run, choices: set<string>)
    requires Inv(r)
    ensures Inv(ApprovalAsked(r, choices))
  {
    hide Inv, GiveUp, Emit;
    GiveUpInv(r, Status.Failed);
    var asked := r.(approval := Some(Approval(r.serial, choices, false)), serial := r.serial + 1);
    EditKeeps(r, asked);
    EmitInv(asked, InteractionRequested);
  }

  lemma ProviderResolvedKeeps(r: Run, choice: string)
    requires Inv(r)
    ensures Inv(ProviderResolved(r, choice))
  {
    hide Inv, GiveUp, ResolveApproval;
    GiveUpInv(r, Status.Failed);
    if r.approval.Some? {
      var a := r.approval.value;
      var noted := if a.claimed then r.(flights := Announced(r.flights, a.id, choice)) else r;
      EditKeeps(r, noted);
      ResolveInv(noted);
    } else {
      EditKeeps(r, r.(confirmed := None));
    }
  }

  lemma HandledKeeps(r: Run, m: Mapping)
    requires Inv(r) && r.pumping
    ensures Inv(Handled(r, m))
  {
    hide Inv, GiveUp, Emit, ApprovalAsked, ProviderResolved, Signalled;
    GiveUpInv(r, Status.Failed);
    match m
    case Terminal(status) => SignalledKeeps(r, status);
    case Passing => EmitInv(r, Provider);
    case Portable(kind) => EmitInv(r, kind);
    case Asks(choices) => AskedKeeps(r, choices);
    case Resolves(choice) => ProviderResolvedKeeps(r, choice);
  }

  lemma PumpOverKeeps(r: Run)
    requires Inv(r)
    ensures Inv(PumpOver(r))
  {
    hide OutletInv;
  }

  lemma ReconcilingKeeps(r: Run)
    requires Inv(r) && r.signal.None? && r.result.None?
    ensures Inv(Reconciling(PumpOver(r), None))
  {
    hide OutletInv;
  }

  lemma StreamKeeps(r: Run, op: Op)
    requires Inv(r) && (op.Stream? || op.EndStream? || op.StreamError?)
    ensures Inv(Step(r, op))
  {
    hide Inv, Handled, PumpOver, GiveUp, Reconciling;
    if r.pumping {
      PumpOverKeeps(r);
      if r.signal.None? && r.result.None? {
        ReconcilingKeeps(r);
      }
      GiveUpInv(PumpOver(r), Status.Failed);
      GiveUpInv(PumpOver(r), ConnectionAborted);
      if op.Stream? {
        HandledKeeps(r, op.m);
        PumpOverKeeps(Handled(r, op.m));
      }
    }
  }

  lemma OverKeeps(r: Run)
    requires Inv(r) && r.result.Some? && (r.signal.None? ==> !r.pumping)
    ensures Inv(r.(reconcile := Over))
  {
    hide OutletInv;
  }

  lemma UnsafeKeeps(r: Run)
    requires Inv(r) && r.result.Some?
    ensures Inv(r.(unsafe := true))
  {
    hide OutletInv;
  }

  /** While polling, a settled run has quarantined its session already, and no terminal event can be news. */
  lemma PollingFacts(r: Run)
    requires Inv(r) && !r.reconcile.NotStarted? && !r.reconcile.Over?
    ensures r.result.Some? ==> r.unsafe
    ensures r.signal.None? ==> !r.pumping
  {
    hide OutletInv;
  }

  lemma ReportKeeps(r: Run, body: StatusBody)
    requires Inv(r) && r.reconcile.Polling?
    ensures var report := ParseStatus(body, r.runId, r.sessionId);
      report.Some? && report.value.result.Some?
      && (r.reconcile.expected.None? || r.reconcile.expected.value == report.value.result.value.status)
      ==> Inv(r.(reconcile := AwaitGates(r.reconcile.expected, report.value)))
  {
    hide OutletInv;
  }

  lemma RepliedKeeps(r: Run, body: StatusBody, late: bool)
    requires Inv(r)
    ensures Inv(Replied(r, body, late))
  {
    hide Inv, GiveUp, ParseStatus;
    if r.reconcile.Polling? {
      PollingFacts(r);
      GiveUpOver(r, Status.Failed);
      GiveUpOver(r, ConnectionAborted);
      ReportKeeps(r, body);
      if r.result.Some? {
        OverKeeps(r);
      }
    }
  }

  lemma GiveUpOver(r: Run, status: Status)
    requires Inv(r) && r.reconcile.Polling? && (status.Failed? || status.ConnectionAborted?)
    ensures Inv(GiveUp(r, status).(reconcile := Over)) && Inv(GiveUp(r, status).(unsafe := true, reconcile := Over))
  {
    PollingFacts(r);
    InvCore(r);
    GiveUpInv(r, status);
    GiveUpKeeps(r, status);
    hide Inv, GiveUp, Core;
    OverKeeps(GiveUp(r, status));
    UnsafeKeeps(GiveUp(r, status).(reconcile := Over));
  }

  lemma StatusFailedKeeps(r: Run, incompatible: bool)
    requires Inv(r)
    ensures Inv(StatusFailed(r, incompatible))
  {
    hide Inv, GiveUp;
    if r.reconcile.Polling? {
      GiveUpOver(r, Status.Failed);
      GiveUpOver(r, ConnectionAborted);
    }
  }

  lemma DeliveredKeeps(r: Run, result: RunResult)
    requires Inv(r)
    ensures Inv(Delivered(r, result)) && Delivered(r, result).reconcile == r.reconcile
    ensures var t := Delivered(r, result);
      t.signal == r.signal && t.pumping == r.pumping && t.runId == r.runId && t.sessionId == r.sessionId
          && t.flights == r.flights
  {
    hide Inv, Emit;
    EmitInv(r, MessageCompleted);
    EmitInv(if result.finalMessage.Some? then Emit(r, MessageCompleted) else r, UsageUpdated);
  }

  lemma GatesKeep(r: Run)
    requires Inv(r)
    ensures Inv(GatesOpened(r))
  {
    hide Inv, Delivered;
    if r.reconcile.AwaitGates? && r.flights == [] && r.reconcile.report.result.Some? {
      PollingFacts(r);
      if r.result.Some? {
        OverKeeps(r);
      } else {
        DeliveredKeeps(r, r.reconcile.report.result.value);
        NextStage(r, Delivered(r, r.reconcile.report.result.value));
      }
    }
  }

  lemma NextStage(r: Run, t: Run)
    requires Inv(r) && Inv(t) && r.reconcile.AwaitGates? && t.reconcile == r.reconcile
    requires t.signal == r.signal && t.pumping == r.pumping && t.runId == r.runId && t.sessionId == r.sessionId
    ensures r.reconcile.expected.Some? ==> Inv(t.(reconcile := Draining(r.reconcile.report)))
    ensures r.reconcile.expected.None? ==> Inv(t.(reconcile := AwaitFinish(r.reconcile.report)))
  {
    hide OutletInv;
  }

  lemma DrainKeeps(r: Run)
    requires Inv(r)
    ensures Inv(Drained(r))
  {
    hide OutletInv;
  }

  lemma SettledKeeps(r: Run)
    requires Inv(r)
    ensures Inv(Settled(r))
  {
    hide OutletInv, Finish, ParseStatus;
    if r.reconcile.AwaitFinish? && r.flights == [] && r.reconcile.report.result.Some? {
      InvCore(r);
      FinishKeeps(r, r.reconcile.report.result.value);
    }
  }

  lemma RespondStartedKeeps(r: Run, choice: string)
    requires Inv(r)
    ensures Inv(RespondStarted(r, choice))
  {
    hide Inv;
    if RespondStarted(r, choice) != r {
      EditKeeps(r, RespondStarted(r, choice));
    }
  }

  lemma AcknowledgedKeeps(r: Run, f: Flight)
    requires Inv(r)
    ensures Inv(Acknowledged(r, f)) && Acknowledged(r, f).flights == r.flights
  {
    hide Inv, GiveUp, ResolveApproval;
    GiveUpInv(r, Status.Failed);
    GiveUpFlights(r, Status.Failed);
    var confirmed := r.(confirmed := Some(f.choice));
    EditKeeps(r, confirmed);
    ResolveInv(confirmed);
  }

  lemma GiveUpFlights(r: Run, status: Status)
    ensures GiveUp(r, status).flights == r.flights
  {
  }

  lemma FewerFlights(r: Run, i: nat)
    requires Inv(r)
    ensures Inv(r.(flights := Without(r.flights, i)))
  {
    hide Inv;
    EditKeeps(r, r.(flights := Without(r.flights, i)));
  }

  lemma RespondEndedKeeps(r: Run, i: nat, reply: Reply)
    requires Inv(r)
    ensures Inv(RespondEnded(r, i, reply))
  {
    hide Inv, Acknowledged, GiveUp, Without;
    if i < |r.flights| {
      var f := r.flights[i];
      match reply
      case Accepted =>
        AcknowledgedKeeps(r, f);
        FewerFlights(Acknowledged(r, f), i);
      case MaybeTaken =>
        GiveUpInv(r, ConnectionAborted);
        InvCore(r);
        GiveUpKeeps(r, ConnectionAborted) by { hide Inv; }
        UnsafeKeeps(Abort(r));
        FewerFlights(Abort(r).(unsafe := true), i);
      case Refused =>
        FewerFlights(r, i);
        if r.approval.Some? {
          var free := r.(approval := Some(r.approval.value.(claimed := false)));
          EditKeeps(r, free);
          FewerFlights(free, i);
        }
    }
  }

  lemma ConsumeKeeps(r: Run)
    requires Inv(r)
    ensures Inv(r.(outlet := Read(r.outlet)))
  {
    ReadKeeps(r.outlet);
    hide OutletInv, Read;
  }

  lemma StepKeeps(r: Run, op: Op)
    requires Inv(r)
    ensures Inv(Step(r, op))
  {
    hide Inv, Streamed, StreamEnded, StreamThrew, Replied, StatusFailed, GatesOpened, Drained, Settled, RespondStarted,
        RespondEnded, GiveUp;
    match op
    case StatusReply(body, late) => RepliedKeeps(r, body, late);
    case StatusError(incompatible) => StatusFailedKeeps(r, incompatible);
    case OpenGates => GatesKeep(r);
    case Drain => DrainKeeps(r);
    case Settle => SettledKeeps(r);
    case StartRespond(choice) => RespondStartedKeeps(r, choice);
    case EndRespond(i, reply) => RespondEndedKeeps(r, i, reply);
    case GiveUpRun => GiveUpInv(r, ConnectionAborted);
    case Consume => ConsumeKeeps(r);
    case _ => StreamKeeps(r, op);
  }

  lemma StartedKeeps(prefix: string, capacity: nat, runId: string, sessionId: string, approvals: bool)
    requires capacity >= 2
    ensures Inv(Started(prefix, capacity, runId, sessionId, approvals))
  {
    OpenedInv(prefix);
    EmittedKeeps(Opened(prefix), RunStarted, capacity);
    hide OutletInv;
  }

  function RunOf(r: Run, ops: seq<Op>): Run
    decreases |ops|
  {
    if ops == [] then r else RunOf(Step(r, ops[0]), ops[1..])
  }

  lemma {:induction false} RunKeeps(r: Run, ops: seq<Op>)
    requires Inv(r)
    ensures Inv(RunOf(r, ops))
    decreases |ops|
  {
    hide Inv, Step;
    if ops != [] {
      StepKeeps(r, ops[0]);
      RunKeeps(Step(r, ops[0]), ops[1..]);
    }
  }

  /** A run settles completed or cancelled only on a status reply for itself and its session that says so, in
      agreement with the one terminal event the stream showed or after a stream that showed none, and with no
      approval reply in flight; any run that settles otherwise than on such a reply quarantines its session. */
  lemma SettlesOnEvidence(prefix: string, capacity: nat, runId: string, sessionId: string, approvals: bool,
      ops: seq<Op>)
    requires capacity >= 2
    ensures var r := RunOf(Started(prefix, capacity, runId, sessionId, approvals), ops);
      && (r.result.Some? && (r.result.value.status.Completed? || r.result.value.status.Cancelled?) ==>
            && r.settledBy.Some? && ParseStatus(r.settledBy.value.body, r.runId, r.sessionId) == r.settledBy
            && r.settledBy.value.result == r.result && r.flights == []
            && (if r.signal.Some? then r.signal == Some(r.result.value.status) else !r.pumping))
      && (r.result.Some? && r.settledBy.None? ==> r.unsafe)
      && (r.result.Some? && r.result.value.status.ConnectionAborted? ==> r.unsafe)
  {
    hide RunOf, OutletInv, Core, Informed, ParseStatus, Started;
    StartedKeeps(prefix, capacity, runId, sessionId, approvals);
    RunKeeps(Started(prefix, capacity, runId, sessionId, approvals), ops);
  }

  /** The trace of a settled run is valid; on overflow too, where a resolved approval may have no request in it. */
  lemma SettledTraceIsValid(prefix: string, capacity: nat, runId: string, sessionId: string, approvals: bool,
      ops: seq<Op>)
    requires capacity >= 2
    ensures var r := RunOf(Started(prefix, capacity, runId, sessionId, approvals), ops);
      r.result.Some? ==> ValidTrace(Trace(r.outlet.queue), r.result.value.status) && r.outlet.queue.closed
  {
    StartedKeeps(prefix, capacity, runId, sessionId, approvals);
    RunKeeps(Started(prefix, capacity, runId, sessionId, approvals), ops);
    hide RunOf, Informed, Justified, ValidTrace, LiveTrace;
  }

  /** A run that settled without quarantining its session never does so later, whatever still comes in. */
  lemma SafeStaysSafe(r: Run, op: Op)
    requires Inv(r) && r.result.Some? && !r.unsafe
    ensures !Step(r, op).unsafe && Step(r, op).result == r.result
  {
    assert r.reconcile.Over? && r.flights == [];
    hide Inv, OutletInv, EmittedAnyway, Finished, Emitted;
  }

  lemma SettledNothing(r: Run, status: Status, kind: EventType)
    requires r.result.Some?
    ensures GiveUp(r, status) == r && Emit(r, kind) == r
  {
  }

  lemma StreamStays(r: Run, m: Mapping)
    requires r.result.Some?
    ensures Handled(r, m).result == r.result && (r.unsafe ==> Handled(r, m).unsafe)
  {
    hide GiveUp, Emit, EmittedAnyway;
    SettledNothing(r, Status.Failed, Provider);
    match m
    case Portable(kind) => SettledNothing(r, Status.Failed, kind);
    case Asks(choices) =>
      SettledNothing(r.(approval := Some(Approval(r.serial, choices, false)), serial := r.serial + 1), Status.Failed,
          InteractionRequested);
    case _ =>
  }

  lemma OthersStay(r: Run, op: Op)
    requires r.result.Some? && !op.Stream?
    ensures Step(r, op).result == r.result && (r.unsafe ==> Step(r, op).unsafe)
  {
    hide GiveUp, Emit, EmittedAnyway, Finish, ParseStatus, Read;
    SettledNothing(r, Status.Failed, Provider);
    SettledNothing(r, ConnectionAborted, Provider);
    SettledNothing(PumpOver(r), Status.Failed, Provider);
    SettledNothing(PumpOver(r), ConnectionAborted, Provider);
  }

  /** Settling is final, and so is quarantine. */
  lemma ResultStays(r: Run, op: Op)
    requires r.result.Some?
    ensures Step(r, op).result == r.result && (r.unsafe ==> Step(r, op).unsafe)
  {
    if op.Stream? {
      StreamStays(r, op.m);
      hide Handled;
    } else {
      OthersStay(r, op);
    }
  }
}
