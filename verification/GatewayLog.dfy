/** The contiguous Gateway session log and the one request that may own its current turn. */
module GatewayLog {
  import opened Prelude
  import opened JsonValues
  import opened Contracts
  import opened DshProtocol

  const INBOX_CAPACITY := 256

  predicate GatewayString(v: Json) {
    v.Str? && 1 <= |v.s| <= 2048
  }

  datatype QueuedInput = QueuedInput(id: string, requestId: Option<string>)

  /** A user message waiting in an inbox; only messages of kind `user` carry their request. */
  function ParseInput(v: Json): Option<QueuedInput> {
    var source := v.Get("source");
    var requestId := source.Get("rpcId");
    if GatewayString(v.Get("id")) && v.Get("role") == Str("user") && v.Get("content").Arr?
       && GatewayString(source.Get("kind")) && (requestId.Undefined? || GatewayString(requestId))
    then Some(QueuedInput(v.Get("id").s,
                          if source.Get("kind") == Str("user") && requestId.Str? then Some(requestId.s) else None))
    else None
  }

  function ParseInputs(items: seq<Json>): Option<seq<QueuedInput>> {
    if items == [] then Some([])
    else
      var first, rest := ParseInput(items[0]), ParseInputs(items[1..]);
      if first.Some? && rest.Some? then Some([first.value] + rest.value) else None
  }

  // ---------------------------------------------------------------- the position of the log

  datatype Target = NextTurn | NextStep

  /** Where the session stands, whoever owns it. */
  datatype Position = Position(
    cursor: int,
    turn: Option<int>,
    step: Option<int>,
    lastTurn: int,
    nextTurn: seq<QueuedInput>,
    nextStep: seq<QueuedInput>)
  {
    function Queue(target: Target): seq<QueuedInput> {
      if target.NextTurn? then nextTurn else nextStep
    }

    function WithQueue(target: Target, queue: seq<QueuedInput>): Position {
      if target.NextTurn? then this.(nextTurn := queue) else this.(nextStep := queue)
    }

    predicate Idle() {
      turn.None? && nextTurn == [] && nextStep == []
    }
  }

  const FRESH := Position(-1, None, None, 0, [], [])

  ghost predicate DistinctIds(inputs: seq<QueuedInput>) {
    forall i, j :: 0 <= i < j < |inputs| ==> inputs[i].id != inputs[j].id
  }

  /** Both inboxes together are small and never name one message twice. */
  ghost predicate InboxesFit(a: seq<QueuedInput>, b: seq<QueuedInput>) {
    |a| + |b| <= INBOX_CAPACITY && DistinctIds(a + b)
  }

  ghost predicate PositionInv(p: Position) {
    && p.cursor >= -1
    && 0 <= p.lastTurn
    && (p.turn.Some? ==> p.turn.value == p.lastTurn >= 1)
    && (p.step.Some? ==> p.turn.Some?)
    && InboxesFit(p.nextTurn, p.nextStep)
  }

  datatype Splice = Splice(target: Target, start: nat, removed: nat, inserted: seq<QueuedInput>, canceled: bool)

  function ParseSplice(data: Json): Option<Splice> {
    var target, start, removed, inserted, outcome :=
      data.Get("target"), data.Get("start"), data.Get("removedCount"), data.Get("inserted"), data.Get("outcome");
    if (target == Str("next-turn") || target == Str("next-step")) && IsInteger(start, 0)
       && (removed.Undefined? || IsInteger(removed, 0)) && inserted.Arr?
       && (outcome.Undefined? || outcome == Str("canceled"))
    then
      var inputs := ParseInputs(inserted.items);
      if inputs.Some? then
        Some(Splice(if target == Str("next-turn") then NextTurn else NextStep, start.n,
                    if removed.Undefined? then 0 else removed.n, inputs.value, outcome == Str("canceled")))
      else None
    else None
  }

  function Edited(queue: seq<QueuedInput>, s: Splice): seq<QueuedInput>
    requires s.start + s.removed <= |queue|
  {
    queue[..s.start] + s.inserted + queue[s.start + s.removed..]
  }

  ghost function ApplySplice(p: Position, s: Splice): Option<Position> {
    if s.start + s.removed > |p.Queue(s.target)| then None
    else
      var q := p.WithQueue(s.target, Edited(p.Queue(s.target), s));
      if InboxesFit(q.nextTurn, q.nextStep) then Some(q) else None
  }

  ghost function AdvanceSplice(p: Position, data: Json): Option<Position> {
    var s := ParseSplice(data);
    if s.None? then None else ApplySplice(p, s.value)
  }

  predicate InStep(p: Position, data: Json) {
    p.turn.Some? && data.Get("turn") == Int(p.turn.value) && p.step.Some? && data.Get("step") == Int(p.step.value)
  }

  function AdvanceStep(p: Position, starting: bool, data: Json): Option<Position> {
    if p.turn.None? || data.Get("turn") != Int(p.turn.value) || !IsInteger(data.Get("step"), 1) then None
    else if starting then if p.step.Some? then None else Some(p.(step := Some(data.Get("step").n)))
    else if p.step != Some(data.Get("step").n) then None
    else Some(p.(step := None))
  }

  /** What one event does to the position, read as a log nobody owns; None rejects the event. */
  ghost function Moved(p: Position, e: Event): Option<Position> {
    match e.kind
    case Spliced => AdvanceSplice(p, e.data)
    case TurnStart =>
      var turn := e.data.Get("turn");
      if IsInteger(turn, 1) && turn.n > p.lastTurn && p.turn.None?
      then Some(p.(turn := Some(turn.n), lastTurn := turn.n)) else None
    case StepStart => AdvanceStep(p, true, e.data)
    case StepEnd => AdvanceStep(p, false, e.data)
    case UserMessage => if ParseInput(e.data).Some? then Some(p) else None
    case AssistantAttempt => if InStep(p, e.data) && e.data.Get("stream").Arr? then Some(p) else None
    case AssistantMessage =>
      if InStep(p, e.data) && e.data.Get("stream").Arr? && MapEvent(e).Some? then Some(p) else None
    case ToolCall | ToolResult => if InStep(p, e.data) && MapEvent(e).Some? then Some(p) else None
    case TurnEnd =>
      if p.turn.Some? && e.data.Get("turn") == Int(p.turn.value) && p.step.None?
         && MapEvent(e).Some? && MapEvent(e).value.terminal.value.valid
      then Some(p.(turn := None)) else None
    case EndSeed =>
      if p.turn.Some? then None
      else if e.data.Get("inherited") == Bool(true) then Some(p.(nextTurn := [], nextStep := []))
      else Some(p)
    case Title | TitleRequest | RequestInfo | GatewayPassive => Some(p)
    case AssistantChunk | SystemMessage | Unknown => if e.ignorable then Some(p) else None
  }

  ghost function Advance(p: Position, e: Event): Option<Position> {
    var q := Moved(p, e);
    if e.seqNo == p.cursor + 1 && q.Some? then Some(q.value.(cursor := e.seqNo)) else None
  }

  // ---------------------------------------------------------------- the owning request

  datatype Claim = Claim(id: string, turn: int)

  datatype Ownership = Ownership(
    requestId: Option<string>,
    correlated: bool,
    claim: Option<Claim>,
    finalResult: Option<RunResult>,
    finalMessage: Option<string>,
    usage: Option<Usage>)

  const UNOWNED := Ownership(None, false, None, None, None, None)

  datatype Log = Log(pos: Position, own: Ownership)

  /** A system-prompt context message, which no request has to claim. */
  predicate IsContext(data: Json) {
    var source := data.Get("source");
    && source.Get("kind") == Str("plugin")
    && source.Get("plugin") == Str("@deepseek-ai/dsh-system-prompt")
    && source.Get("rpcId").Undefined?
  }

  /** The splice takes queued input out of an inbox for processing. */
  predicate Claims(s: Splice) {
    s.removed > 0 && !s.canceled
  }

  ghost predicate PermitsSplice(l: Log, s: Splice)
    requires l.own.requestId.Some?
  {
    && (forall i :: 0 <= i < |s.inserted| ==> s.inserted[i].requestId == l.own.requestId)
    && (Claims(s) ==>
          && l.pos.turn.Some? && l.own.claim.None? && s.inserted == [] && s.removed == 1
          && s.start < |l.pos.Queue(s.target)|
          && l.pos.Queue(s.target)[s.start].requestId == l.own.requestId)
  }

  predicate InClaimedTurn(l: Log) {
    l.own.claim.Some? && l.pos.turn == Some(l.own.claim.value.turn)
  }

  /** What an owning request demands of each kind of event. */
  ghost predicate PermitsKind(l: Log, e: Event)
    requires l.own.requestId.Some?
  {
    match e.kind
    case Spliced => ParseSplice(e.data).Some? ==> PermitsSplice(l, ParseSplice(e.data).value)
    case UserMessage =>
      && InClaimedTurn(l) && l.pos.step.Some?
      && (IsContext(e.data) || ParseInput(e.data).None? ||
          (!l.own.correlated && ParseInput(e.data).value == QueuedInput(l.own.claim.value.id, l.own.requestId)))
    case AssistantMessage | AssistantAttempt | ToolCall | ToolResult => l.own.correlated
    case TurnEnd => InClaimedTurn(l)
    case EndSeed => false
    case _ => true
  }

  /** The extra demands an owning request makes on an event; once settled it only tolerates titles. */
  ghost predicate Permits(l: Log, e: Event) {
    l.own.requestId.Some? ==>
      (l.own.finalResult.Some? ==> e.kind.Title? || e.kind.TitleRequest?) && PermitsKind(l, e)
  }

  function AddKey(sum: Option<nat>, more: Option<nat>): Option<nat> {
    if more.None? then sum else Some((if sum.Some? then sum.value else 0) + more.value)
  }

  function AddUsage(sum: Option<Usage>, more: Option<Usage>): Option<Usage> {
    if more.None? then sum
    else
      var base := if sum.Some? then sum.value else Usage(None, None, None);
      Some(Usage(AddKey(base.input, more.value.input), AddKey(base.output, more.value.output),
                 AddKey(base.total, more.value.total)))
  }

  /** Message and usage after a list of portable observations. */
  function Gathered(own: Ownership, events: seq<MappedEvent>): Ownership
    decreases |events|
  {
    if events == [] then own
    else
      var e := events[0];
      Gathered(own.(finalMessage := if e.finalMessage.Some? then e.finalMessage else own.finalMessage,
                    usage := AddUsage(own.usage, e.usage)), events[1..])
  }

  /** The result a turn end settles: error codes stay private, output so far is attached. */
  function Settled(own: Ownership, observed: RunResult): RunResult {
    RunResult(observed.status,
              if observed.providerResult.Some? && observed.providerResult.value.reason == "error"
              then Some(ProviderResult("error", None)) else observed.providerResult,
              own.finalMessage, own.usage)
  }

  /** The event fits its kind's rules; contiguity and settlement are checked apart. */
  ghost predicate Fits(l: Log, e: Event) {
    Moved(l.pos, e).Some? && (l.own.requestId.Some? ==> PermitsKind(l, e))
  }

  ghost function OwnershipAfter(l: Log, e: Event): Ownership
    requires Fits(l, e)
  {
    if l.own.requestId.None? then l.own
    else
      match e.kind
      case Spliced =>
        var s := ParseSplice(e.data).value;
        if Claims(s) then
          l.own.(claim := Some(Claim(l.pos.Queue(s.target)[s.start].id, l.pos.turn.value)))
        else l.own
      case UserMessage => if IsContext(e.data) then l.own else l.own.(correlated := true)
      case AssistantMessage | ToolCall | ToolResult => Gathered(l.own, MapEvent(e).value.events)
      case TurnEnd => l.own.(finalResult := Some(Settled(l.own, MapEvent(e).value.terminal.value.result)))
      case _ => l.own
  }

  predicate IsOutput(kind: Kind) {
    kind.AssistantMessage? || kind.ToolCall? || kind.ToolResult?
  }

  /** Portable observations handed to the run for an accepted event. */
  ghost function Emitted(l: Log, e: Event): seq<MappedEvent>
    requires Moved(l.pos, e).Some?
  {
    if e.kind.TurnEnd? then []
    else if IsOutput(e.kind) && l.own.requestId.Some? then MapEvent(e).value.events
    else [Plain(Provider)]
  }

  /** Effect of a fitting event, before the cursor moves on. */
  ghost function Effect(l: Log, e: Event): Log
    requires Fits(l, e)
  {
    Log(Moved(l.pos, e).value, OwnershipAfter(l, e))
  }

  ghost predicate Accepts(l: Log, e: Event) {
    Advance(l.pos, e).Some? && Permits(l, e)
  }

  ghost function After(l: Log, e: Event): Log
    requires Accepts(l, e)
  {
    Log(Advance(l.pos, e).value, OwnershipAfter(l, e))
  }

  /** The wire value is an appended, well-formed event. */
  function Appended(value: Json): Option<Event> {
    var op := value.Get("surfaceOp");
    if op.Undefined? || op == Str("append") then ParseEvent(value) else None
  }

  ghost predicate AcceptsValue(l: Log, value: Json) {
    Appended(value).Some? && Accepts(l, Appended(value).value)
  }

  // ---------------------------------------------------------------- the mutable log

  datatype ErrorCode = ProviderApiIncompatible | RunConflict | SessionProviderMismatch | UnsupportedCapability

  datatype Refusal = Refusal(code: ErrorCode, reason: string)

  function Ids(inputs: seq<QueuedInput>): set<string> {
    set x | x in inputs :: x.id
  }

  /** The capacity check of the code: few entries, as many distinct identifiers. */
  predicate WithinCapacity(all: seq<QueuedInput>) {
    |all| <= INBOX_CAPACITY && |Ids(all)| == |all|
  }

  lemma IdsExtend(front: seq<QueuedInput>, last: QueuedInput)
    ensures Ids(front + [last]) == Ids(front) + {last.id}
    ensures last.id in Ids(front) <==> exists i :: 0 <= i < |front| && front[i].id == last.id
  {
    var all := front + [last];
    assert forall x :: x in all <==> x in front || x == last;
  }

  lemma {:induction false} IdsCountTheQueue(inputs: seq<QueuedInput>)
    ensures |Ids(inputs)| <= |inputs|
    ensures |Ids(inputs)| == |inputs| <==> DistinctIds(inputs)
  {
    if inputs != [] {
      var front, last := inputs[..|inputs| - 1], inputs[|inputs| - 1];
      IdsCountTheQueue(front);
      IdsExtend(front, last);
      assert inputs == front + [last];
      if last.id in Ids(front) {
        assert Ids(inputs) == Ids(front);
      }
    }
  }

  /** Taking inputs out of one inbox keeps both within bounds, whichever inbox it is. */
  lemma RemovalFits(p: Position, s: Splice)
    requires InboxesFit(p.nextTurn, p.nextStep)
    requires s.start + s.removed <= |p.Queue(s.target)| && s.inserted == []
    ensures var q := p.WithQueue(s.target, Edited(p.Queue(s.target), s));
            InboxesFit(q.nextTurn, q.nextStep)
  {
    var q := p.WithQueue(s.target, Edited(p.Queue(s.target), s));
    var before, after := p.nextTurn + p.nextStep, q.nextTurn + q.nextStep;
    var cut := if s.target.NextTurn? then s.start else |p.nextTurn| + s.start;
    assert forall i :: 0 <= i < |after| ==> after[i] == before[if i < cut then i else i + s.removed];
  }

  lemma FitMeansWithinCapacity(a: seq<QueuedInput>, b: seq<QueuedInput>)
    ensures InboxesFit(a, b) <==> WithinCapacity(a + b)
    ensures InboxesFit(a, b) <==> InboxesFit(b, a)
  {
    IdsCountTheQueue(a + b);
    if InboxesFit(a, b) {
      FitsEitherWay(a, b);
    }
    if InboxesFit(b, a) {
      FitsEitherWay(b, a);
    }
  }

  /** Two inboxes that fit in one order fit in the other. */
  lemma FitsEitherWay(a: seq<QueuedInput>, b: seq<QueuedInput>)
    requires InboxesFit(a, b)
    ensures InboxesFit(b, a)
  {
    forall i, j | 0 <= i < j < |b + a| ensures (b + a)[i].id != (b + a)[j].id {
      var i', j' := if i < |b| then |a| + i else i - |b|, if j < |b| then |a| + j else j - |b|;
      assert (a + b)[i'] == (b + a)[i] && (a + b)[j'] == (b + a)[j];
    }
  }

  lemma MovedKeepsInv(p: Position, e: Event)
    requires PositionInv(p) && Moved(p, e).Some?
    ensures PositionInv(Moved(p, e).value)
  {
  }

  class GatewaySessionLog {
    var cursor: int
    var turn: Option<int>
    var step: Option<int>
    var lastTurn: int
    var nextTurn: seq<QueuedInput>
    var nextStep: seq<QueuedInput>
    var requestId: Option<string>
    var correlated: bool
    var claim: Option<Claim>
    var finalResult: Option<RunResult>
    var finalMessage: Option<string>
    var usage: Option<Usage>

    function Here(): Position
      reads this
    {
      Position(cursor, turn, step, lastTurn, nextTurn, nextStep)
    }

    function State(): Log
      reads this
    {
      Log(Here(), Ownership(requestId, correlated, claim, finalResult, finalMessage, usage))
    }

    ghost predicate Valid()
      reads this
    {
      PositionInv(Here())
    }

    constructor ()
      ensures Valid() && State() == Log(FRESH, UNOWNED)
    {
      cursor, turn, step, lastTurn, nextTurn, nextStep := -1, None, None, 0, [], [];
      requestId, correlated, claim, finalResult, finalMessage, usage := None, false, None, None, None, None;
    }

    predicate IsIdle()
      reads this
    {
      turn.None? && nextTurn == [] && nextStep == []
    }

    /** Only an idle, unowned log can be owned; anything else changes nothing. */
    method Begin(id: string) returns (ok: bool)
      requires Valid()
      modifies this
      ensures Valid()
      ensures ok <==> old(State()).pos.Idle() && old(requestId).None?
      ensures State() == if ok then Log(old(Here()), UNOWNED.(requestId := Some(id))) else old(State())
    {
      if !IsIdle() || requestId.Some? {
        return false;
      }
      requestId, correlated, claim, finalResult, finalMessage, usage := Some(id), false, None, None, None, None;
      ok := true;
    }

    method Release()
      requires Valid()
      modifies this`requestId
      ensures Valid()
      ensures State() == Log(old(Here()), old(State()).own.(requestId := None))
    {
      requestId := None;
    }

    method AddUsageTotals(more: Usage)
      modifies this`usage
      ensures usage == AddUsage(old(usage), Some(more))
    {
      if usage.None? {
        usage := Some(Usage(None, None, None));
      }
      if more.input.Some? {
        usage := Some(usage.value.(input := AddKey(usage.value.input, more.input)));
      }
      if more.output.Some? {
        usage := Some(usage.value.(output := AddKey(usage.value.output, more.output)));
      }
      if more.total.Some? {
        usage := Some(usage.value.(total := AddKey(usage.value.total, more.total)));
      }
    }

    method Gather(events: seq<MappedEvent>)
      modifies this`finalMessage, this`usage
      ensures State() == Log(old(Here()), Gathered(old(State()).own, events))
    {
      for i := 0 to |events|
        invariant Here() == old(Here())
        invariant Gathered(State().own, events[i..]) == Gathered(old(State()).own, events)
      {
        var e := events[i];
        assert events[i..][1..] == events[i + 1..];
        if e.finalMessage.Some? {
          finalMessage := e.finalMessage;
        }
        if e.usage.Some? {
          AddUsageTotals(e.usage.value);
        }
      }
    }

    /** The inbox edit. The claim is recorded before the capacity check, which then cannot fail. */
    method SpliceInbox(s: Splice) returns (refused: Option<Refusal>)
      requires Valid()
      modifies this
      ensures refused.None? <==>
                ApplySplice(old(Here()), s).Some? && (old(requestId).Some? ==> PermitsSplice(old(State()), s))
      ensures refused.Some? ==> State() == old(State())
      ensures refused.Some? && refused.value.code.RunConflict? ==> old(requestId).Some?
      ensures refused.None? ==> Here() == ApplySplice(old(Here()), s).value
      ensures refused.None? ==>
                State().own ==
                  if old(requestId).Some? && Claims(s)
                  then old(State()).own.(claim := Some(Claim(old(Here()).Queue(s.target)[s.start].id, old(turn).value)))
                  else old(State()).own
    {
      var queue := if s.target.NextTurn? then nextTurn else nextStep;
      var other := if s.target.NextTurn? then nextStep else nextTurn;
      if s.start > |queue| || s.start + s.removed > |queue| {
        return Some(Refusal(ProviderApiIncompatible, "inbox_gap"));
      }
      if requestId.Some? && exists i :: 0 <= i < |s.inserted| && s.inserted[i].requestId != requestId {
        return Some(Refusal(RunConflict, "competing_input"));
      }
      var removed := queue[s.start..s.start + s.removed];
      if requestId.Some? && |removed| > 0 && !s.canceled {
        var claimed := removed[0];
        if turn.None? || claim.Some? || |s.inserted| != 0 || |removed| != 1 || claimed.requestId != requestId {
          return Some(Refusal(RunConflict, "unowned_claim"));
        }
        RemovalFits(Here(), s);
        claim := Some(Claim(claimed.id, turn.value));
      }
      var next := Edited(queue, s);
      FitMeansWithinCapacity(next, other);
      if !WithinCapacity(next + other) {
        return Some(Refusal(ProviderApiIncompatible, "inbox_capacity"));
      }
      if s.target.NextTurn? {
        nextTurn := next;
      } else {
        nextStep := next;
      }
      refused := None;
    }

    method AcceptSplice(e: Event) returns (refused: Option<Refusal>)
      requires Valid() && e.kind.Spliced?
      modifies this
      ensures refused.None? <==> Fits(old(State()), e)
      ensures State() == if refused.None? then Effect(old(State()), e) else old(State())
      ensures refused.Some? && refused.value.code.RunConflict? ==> old(requestId).Some?
    {
      var edit := ParseSplice(e.data);
      if edit.None? {
        return Some(Refusal(ProviderApiIncompatible, "gateway_failure"));
      }
      refused := SpliceInbox(edit.value);
    }

    method StartTurn(e: Event) returns (refused: Option<Refusal>)
      requires e.kind.TurnStart?
      modifies this
      ensures refused.None? <==> Fits(old(State()), e)
      ensures State() == if refused.None? then Effect(old(State()), e) else old(State())
      ensures refused.Some? ==> !refused.value.code.RunConflict?
    {
      var number := e.data.Get("turn");
      if !IsInteger(number, 1) || number.n <= lastTurn || turn.Some? {
        return Some(Refusal(ProviderApiIncompatible, "turn_conflict"));
      }
      turn, lastTurn := Some(number.n), number.n;
      refused := None;
    }

    method AcceptStep(e: Event) returns (refused: Option<Refusal>)
      requires e.kind.StepStart? || e.kind.StepEnd?
      modifies this
      ensures refused.None? <==> Fits(old(State()), e)
      ensures State() == if refused.None? then Effect(old(State()), e) else old(State())
      ensures refused.Some? ==> !refused.value.code.RunConflict?
    {
      var number := e.data.Get("step");
      if turn.None? || e.data.Get("turn") != Int(turn.value) || !IsInteger(number, 1) {
        return Some(Refusal(ProviderApiIncompatible, "step_conflict"));
      }
      if e.kind.StepStart? {
        if step.Some? {
          return Some(Refusal(ProviderApiIncompatible, "step_conflict"));
        }
        step := Some(number.n);
      } else {
        if step != Some(number.n) {
          return Some(Refusal(ProviderApiIncompatible, "step_conflict"));
        }
        step := None;
      }
      refused := None;
    }

    method AcceptUserMessage(e: Event) returns (refused: Option<Refusal>)
      requires e.kind.UserMessage?
      modifies this
      ensures refused.None? <==> Fits(old(State()), e)
      ensures State() == if refused.None? then Effect(old(State()), e) else old(State())
      ensures refused.Some? && refused.value.code.RunConflict? ==> old(requestId).Some?
    {
      var message := ParseInput(e.data);
      if message.None? {
        return Some(Refusal(ProviderApiIncompatible, "gateway_failure"));
      }
      var context := IsContext(e.data);
      if requestId.Some? {
        if claim.None? || turn != Some(claim.value.turn) || step.None?
           || (!context && (message.value.requestId != requestId || message.value.id != claim.value.id || correlated)) {
          return Some(Refusal(RunConflict, "competing_input"));
        }
        if !context {
          correlated := true;
        }
      }
      refused := None;
    }

    method AcceptOutput(e: Event) returns (r: Result<seq<MappedEvent>, Refusal>)
      requires IsOutput(e.kind) || e.kind.AssistantAttempt?
      modifies this
      ensures r.Ok? <==> Fits(old(State()), e)
      ensures State() == if r.Ok? then Effect(old(State()), e) else old(State())
      ensures r.Ok? ==> r.value == Emitted(old(State()), e)
      ensures r.Err? ==> !r.error.code.RunConflict?
    {
      var owned := requestId.Some?;
      if turn.None? || e.data.Get("turn") != Int(turn.value) || step.None?
         || e.data.Get("step") != Int(step.value) || (owned && !correlated) {
        return Err(Refusal(ProviderApiIncompatible, "unowned_output"));
      }
      if (e.kind.AssistantMessage? || e.kind.AssistantAttempt?) && !e.data.Get("stream").Arr? {
        return Err(Refusal(ProviderApiIncompatible, "gateway_failure"));
      }
      if !e.kind.AssistantAttempt? {
        var mapping := MapEvent(e);
        if mapping.None? {
          return Err(Refusal(ProviderApiIncompatible, "session.event"));
        }
        if owned {
          Gather(mapping.value.events);
          return Ok(mapping.value.events);
        }
      }
      r := Ok([Plain(Provider)]);
    }

    method EndTurn(e: Event) returns (refused: Option<Refusal>)
      requires e.kind.TurnEnd?
      modifies this
      ensures refused.None? <==> Fits(old(State()), e)
      ensures State() == if refused.None? then Effect(old(State()), e) else old(State())
      ensures refused.Some? && refused.value.code.RunConflict? ==> old(requestId).Some?
    {
      if turn.None? || e.data.Get("turn") != Int(turn.value) || step.Some? {
        return Some(Refusal(ProviderApiIncompatible, "turn_conflict"));
      }
      var mapping := MapEvent(e);
      if mapping.None? || !mapping.value.terminal.value.valid {
        return Some(Refusal(ProviderApiIncompatible, "terminal_invalid"));
      }
      if requestId.Some? {
        if claim.None? || turn != Some(claim.value.turn) {
          return Some(Refusal(RunConflict, "uncorrelated_terminal"));
        }
        finalResult := Some(Settled(State().own, mapping.value.terminal.value.result));
      }
      turn := None;
      refused := None;
    }

    method AcceptOther(e: Event) returns (refused: Option<Refusal>)
      requires e.kind in {EndSeed, Title, TitleRequest, RequestInfo, GatewayPassive, AssistantChunk, SystemMessage,
          Unknown}
      modifies this`nextTurn, this`nextStep
      ensures refused.None? <==> Fits(old(State()), e)
      ensures State() == if refused.None? then Effect(old(State()), e) else old(State())
      ensures refused.Some? ==> !refused.value.code.RunConflict?
    {
      match e.kind {
        case EndSeed =>
          if turn.Some? || requestId.Some? {
            return Some(Refusal(ProviderApiIncompatible, "seed_during_run"));
          }
          if e.data.Get("inherited") == Bool(true) {
            nextTurn, nextStep := [], [];
          }
        case Title | TitleRequest | RequestInfo | GatewayPassive =>
        case _ =>
          if !e.ignorable {
            return Some(Refusal(ProviderApiIncompatible, "unknown_required_event"));
          }
      }
      refused := None;
    }

    method Dispatch(e: Event) returns (r: Result<seq<MappedEvent>, Refusal>)
      requires Valid()
      modifies this
      ensures r.Ok? <==> Fits(old(State()), e)
      ensures State() == if r.Ok? then Effect(old(State()), e) else old(State())
      ensures r.Ok? ==> r.value == Emitted(old(State()), e)
      ensures r.Err? && r.error.code.RunConflict? ==> old(requestId).Some?
    {
      var refused: Option<Refusal>;
      match e.kind {
        case Spliced => refused := AcceptSplice(e);
        case TurnStart => refused := StartTurn(e);
        case StepStart | StepEnd => refused := AcceptStep(e);
        case UserMessage => refused := AcceptUserMessage(e);
        case AssistantMessage | AssistantAttempt | ToolCall | ToolResult =>
          r := AcceptOutput(e);
          return;
        case TurnEnd => refused := EndTurn(e);
        case _ => refused := AcceptOther(e);
      }
      r := if refused.Some? then Err(refused.value) else Ok(if e.kind.TurnEnd? then [] else [Plain(Provider)]);
    }

    /** Consume one wire value. It is accepted exactly when it advances the position and the owning
        request permits it; a refused value leaves the whole log as it was. */
    method Accept(value: Json) returns (r: Result<seq<MappedEvent>, Refusal>)
      requires Valid()
      modifies this
      ensures Valid()
      ensures r.Ok? <==> AcceptsValue(old(State()), value)
      ensures r.Ok? ==> State() == After(old(State()), Appended(value).value)
                        && r.value == Emitted(old(State()), Appended(value).value)
      ensures r.Err? ==> State() == old(State())
      ensures r.Err? && r.error.code.RunConflict? ==> old(requestId).Some?
    {
      if !value.Get("surfaceOp").Undefined? && value.Get("surfaceOp") != Str("append") {
        return Err(Refusal(ProviderApiIncompatible, "surface_replacement"));
      }
      var parsed := ParseEvent(value);
      if parsed.None? {
        return Err(Refusal(ProviderApiIncompatible, "session.event notification"));
      }
      var e := parsed.value;
      if e.seqNo != cursor + 1 {
        return Err(Refusal(ProviderApiIncompatible, "event_gap"));
      }
      if requestId.Some? && finalResult.Some? && !e.kind.Title? && !e.kind.TitleRequest? {
        return Err(Refusal(RunConflict, "activity_before_receipt"));
      }
      r := Dispatch(e);
      if r.Ok? {
        MovedKeepsInv(old(Here()), e);
        cursor := e.seqNo;
      }
    }
  }
}
