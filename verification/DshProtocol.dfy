/** Session-log events of the DeepSeek Harness protocol and their portable mapping. */
module DshProtocol {
  import opened Prelude
  import opened JsonValues
  import opened Contracts

  /** The event names both DSH state machines distinguish. */
  datatype Kind =
    | Spliced
    | TurnStart
    | TurnEnd
    | StepStart
    | StepEnd
    | UserMessage
    | AssistantMessage
    | AssistantAttempt
    | AssistantChunk
    | ToolCall
    | ToolResult
    | SystemMessage
    | EndSeed
    | Title
    | TitleRequest
    | RequestInfo
    | GatewayPassive
    | Unknown

  function KindOf(name: string): Kind {
    if name == "agent/inbox/spliced" then Spliced
    else if name == "turn/start" then TurnStart
    else if name == "turn/end" then TurnEnd
    else if name == "step/start" then StepStart
    else if name == "step/end" then StepEnd
    else if name == "user/message" then UserMessage
    else if name == "assistant/message" then AssistantMessage
    else if name == "assistant/attempt" then AssistantAttempt
    else if name == "assistant/chunk" then AssistantChunk
    else if name == "tool/call" then ToolCall
    else if name == "tool/result" then ToolResult
    else if name == "system/message" then SystemMessage
    else if name == "session/end-seed" then EndSeed
    else if name == "session/title" then Title
    else if name == "session/title-llm-request" then TitleRequest
    else if name == "request/context" || name == "request/header" then RequestInfo
    else if name == "agent-preset/selected" || name == "model/selection" || name == "permission/preset"
            || name == "sandbox/mode" || name == "approval/policy" || name == "llm/retry"
            || name == "llm/retry-started" then GatewayPassive
    else Unknown
  }

  datatype Event = Event(kind: Kind, seqNo: nat, data: Json, ignorable: bool)

  /** Validate the event envelope shared by the stdio notification and the Gateway frame. */
  function ParseEvent(value: Json): Option<Event> {
    var name, sequence, time, data, ignorable :=
      value.Get("type"), value.Get("seq"), value.Get("time"), value.Get("data"), value.Get("ignorable");
    if NonEmptyString(name) && IsInteger(sequence, 0) && (time.Int? || time.Frac?) && data.Obj?
       && (ignorable.Undefined? || ignorable == Bool(true))
    then Some(Event(KindOf(name.s), sequence.n, data, ignorable == Bool(true)))
    else None
  }

  /** One portable observation, before run identity and sequence are attached. */
  datatype MappedEvent = MappedEvent(kind: EventType, finalMessage: Option<string>, usage: Option<Usage>)

  function Plain(kind: EventType): MappedEvent {
    MappedEvent(kind, None, None)
  }

  datatype TerminalObservation = TerminalObservation(result: RunResult, eventType: EventType, valid: bool)

  datatype Mapping = Mapping(
    events: seq<MappedEvent>,
    insertedCount: nat,
    insertedIds: seq<string>,
    terminal: Option<TerminalObservation>)

  /** A mapping that only reports portable, non-terminal observations. */
  ghost predicate OnlyObserves(m: Mapping) {
    && (forall i :: 0 <= i < |m.events| ==> !IsTerminalType(m.events[i].kind))
    && m.insertedCount == 0 && m.insertedIds == [] && m.terminal.None?
  }

  function Observed(events: seq<MappedEvent>): Mapping {
    Mapping(events, 0, [], None)
  }

  datatype InboxMessage = InboxMessage(id: string, sourceKind: string, hasContent: bool)

  predicate ContentBlocks(v: Json) {
    v.Arr? && forall i :: 0 <= i < |v.items| ==> NonEmptyString(v.items[i].Get("type"))
  }

  function ParseUserMessage(v: Json): Option<InboxMessage> {
    var id, source, content := v.Get("id"), v.Get("source").Get("kind"), v.Get("content");
    if NonEmptyString(id) && v.Get("role") == Str("user") && ContentBlocks(content) && NonEmptyString(source)
    then Some(InboxMessage(id.s, source.s, content.items != []))
    else None
  }

  function ParseUserMessages(items: seq<Json>): (r: Option<seq<InboxMessage>>)
    ensures r.Some? ==> |r.value| == |items|
  {
    if items == [] then Some([])
    else
      var first, rest := ParseUserMessage(items[0]), ParseUserMessages(items[1..]);
      if first.Some? && rest.Some? then Some([first.value] + rest.value) else None
  }

  /** Identifiers of the user messages with content among `messages`, in order. */
  function UserIds(messages: seq<InboxMessage>): (ids: seq<string>)
    ensures |ids| <= |messages|
  {
    if messages == [] then []
    else
      (if messages[0].sourceKind == "user" && messages[0].hasContent then [messages[0].id] else [])
      + UserIds(messages[1..])
  }

  predicate HasTurnStep(data: Json) {
    IsInteger(data.Get("turn"), 1) && IsInteger(data.Get("step"), 1)
  }

  function ParseUsage(v: Json): Option<Usage> {
    var input, output, total := v.Get("inputTokens"), v.Get("outputTokens"), v.Get("totalTokens");
    if IsInteger(input, 0) && IsInteger(output, 0) && (total.Undefined? || IsInteger(total, 0))
    then Some(Usage(Some(input.n), Some(output.n), if total.Undefined? then None else Some(total.n)))
    else None
  }

  /** Text blocks of an assistant message joined in order; None when a text block carries no string. */
  function JoinText(blocks: seq<Json>): Option<string> {
    if blocks == [] then Some("")
    else
      var rest := JoinText(blocks[1..]);
      if rest.None? then None
      else if blocks[0].Get("type") != Str("text") then rest
      else if blocks[0].Get("text").Str? then Some(blocks[0].Get("text").s + rest.value)
      else None
  }

  function AssistantText(message: Json): Option<string> {
    var source := message.Get("source");
    if NonEmptyString(message.Get("id")) && message.Get("role") == Str("assistant")
       && ContentBlocks(message.Get("content")) && source.Get("kind") == Str("model")
       && NonEmptyString(source.Get("provider")) && NonEmptyString(source.Get("model"))
    then JoinText(message.Get("content").items)
    else None
  }

  predicate IsToolResult(message: Json) {
    var source, content := message.Get("source"), message.Get("content");
    && NonEmptyString(message.Get("id")) && message.Get("role") == Str("user")
    && source.Get("kind") == Str("tool") && NonEmptyString(source.Get("callId"))
    && content.Arr? && |content.items| == 1
    && content.items[0].Get("type") == Str("tool-result")
    && content.items[0].Get("toolCallId") == source.Get("callId")
    && ContentBlocks(content.items[0].Get("content"))
  }

  predicate IsTokenChar(c: char, first: bool) {
    'A' <= c <= 'Z' || 'a' <= c <= 'z' || '0' <= c <= '9' || (!first && (c == '.' || c == '_' || c == '+' || c == '-'))
  }

  /** A provider code short and plain enough to be repeated to the host. */
  predicate SafeToken(s: string) {
    1 <= |s| <= 128 && forall i :: 0 <= i < |s| ==> IsTokenChar(s[i], i == 0)
  }

  /** `String(v)`, as far as it can name an abort cause: a one-element array prints as its element. */
  function Stringified(v: Json): string {
    match v
    case Str(s) => s
    case Arr(items) => if |items| == 1 then Stringified(items[0]) else ""
    case _ => ""
  }

  function Outcome(status: Status, reason: string, detail: Option<string>): RunResult {
    RunResult(status, Some(ProviderResult(reason, detail)), None, None)
  }

  function InvalidTerminal(reason: string): TerminalObservation {
    TerminalObservation(Outcome(Failed, reason, None), RunFailed, false)
  }

  /** A recognised reason for an aborted turn. */
  predicate KnownCause(cause: Json) {
    var name := Stringified(cause.Get("kind"));
    || name == "disposed" || name == "legacy" || name == "parent" || name == "user"
    || (cause.Get("kind") == Str("hook") && cause.Get("reason").Str?)
  }

  /** Fail-closed reading of a turn's end reason. */
  function ObserveTerminal(reason: Json): (o: TerminalObservation)
    ensures o.eventType == TerminalType(o.result.status)
    ensures !o.valid ==> o.result.status.Failed?
    ensures !o.result.status.ConnectionAborted?
  {
    var kind := reason.Get("kind");
    if kind == Str("completed") then
      TerminalObservation(Outcome(Completed, "completed", None), RunCompleted, true)
    else if kind == Str("aborted") then
      var cause := reason.Get("reason");
      if KnownCause(cause)
      then TerminalObservation(Outcome(Cancelled, "aborted", Some(Stringified(cause.Get("kind")))), RunCancelled, true)
      else InvalidTerminal("malformed_aborted_reason")
    else if kind == Str("blocked") || kind == Str("max-tokens") || kind == Str("interrupted") then
      TerminalObservation(Outcome(Failed, kind.s, None), RunFailed, true)
    else if kind == Str("error") then
      var code := reason.Get("error").Get("code");
      if code.Str? then TerminalObservation(Outcome(Failed, "error",
          Some(if SafeToken(code.s) then code.s else "UNKNOWN")), RunFailed, true)
      else InvalidTerminal("malformed_error")
    else InvalidTerminal(if kind.Str? then "unknown_terminal_reason" else "malformed_terminal")
  }

  predicate ValidTitle(data: Json) {
    var source, marks := data.Get("source"), data.Get("messageSeqs");
    var kind, model := source.Get("kind"), source.Get("model");
    && NonEmptyString(data.Get("title"))
    && marks.Arr? && (forall i :: 0 <= i < |marks.items| ==> IsInteger(marks.items[i], 0))
    && (kind == Str("fallback") || kind == Str("provider") || kind == Str("user"))
    && (kind == Str("provider") ==>
          && NonEmptyString(source.Get("provider"))
          && (model.Undefined? || (NonEmptyString(model.Get("provider")) && NonEmptyString(model.Get("model")))))
  }

  predicate ValidSystemMessage(data: Json) {
    var message := data.Get("message");
    && HasTurnStep(data)
    && NonEmptyString(message.Get("id")) && message.Get("role") == Str("system")
    && ContentBlocks(message.Get("content"))
    && message.Get("source").Get("kind") == Str("plugin") && NonEmptyString(message.Get("source").Get("plugin"))
  }

  function MapSplice(data: Json): Option<Mapping> {
    var target, removed, outcome, inserted :=
      data.Get("target"), data.Get("removedCount"), data.Get("outcome"), data.Get("inserted");
    if (target == Str("next-turn") || target == Str("next-step")) && IsInteger(data.Get("start"), 0)
       && (removed.Undefined? || IsInteger(removed, 0)) && (outcome.Undefined? || outcome == Str("canceled"))
       && inserted.Arr?
    then
      var messages := ParseUserMessages(inserted.items);
      if messages.None? then None
      else
        var pureInsert := target == Str("next-turn") && (removed.Undefined? || removed == Int(0)) && outcome.Undefined?;
        Some(Mapping([Plain(Provider)], |messages.value|, if pureInsert then UserIds(messages.value) else [], None))
    else None
  }

  function MapChunk(data: Json): (r: Option<Mapping>)
    ensures r.Some? ==> OnlyObserves(r.value)
  {
    var chunk := data.Get("chunk");
    var tag := chunk.Get("type");
    if !HasTurnStep(data) then None
    else if tag == Str("text-delta") || tag == Str("reasoning-delta") then
      if IsInteger(chunk.Get("index"), 0) && chunk.Get("text").Str?
      then Some(Observed([Plain(if tag == Str("text-delta") then MessageDelta else ReasoningDelta)]))
      else None
    else if tag == Str("usage") then
      var usage := ParseUsage(chunk.Get("usage"));
      if usage.Some? then Some(Observed([MappedEvent(UsageUpdated, None, usage)])) else None
    else if tag.Str? then Some(Observed([Plain(Provider)]))
    else None
  }

  function MapMessage(data: Json): (r: Option<Mapping>)
    ensures r.Some? ==> OnlyObserves(r.value)
  {
    var text, usage := AssistantText(data.Get("message")), data.Get("usage");
    var parsed := ParseUsage(usage);
    if !HasTurnStep(data) || text.None? || (!usage.Undefined? && parsed.None?) then None
    else Some(Observed([MappedEvent(MessageCompleted, text, None)]
                       + if usage.Undefined? then [] else [MappedEvent(UsageUpdated, None, parsed)]))
  }

  function MapToolCall(data: Json): (r: Option<Mapping>)
    ensures r.Some? ==> OnlyObserves(r.value)
  {
    if HasTurnStep(data) && NonEmptyString(data.Get("callId")) && NonEmptyString(data.Get("name"))
       && data.Get("arguments").Str?
    then Some(Observed([Plain(ToolStarted)])) else None
  }

  function MapToolResult(data: Json): (r: Option<Mapping>)
    ensures r.Some? ==> OnlyObserves(r.value)
  {
    var error := data.Get("error");
    if HasTurnStep(data) && IsToolResult(data.Get("message"))
       && (error.Undefined? || (NonEmptyString(error.Get("name")) && NonEmptyString(error.Get("code"))))
    then Some(Observed([Plain(ToolCompleted)])) else None
  }

  function ProviderWhen(accepted: bool): (r: Option<Mapping>)
    ensures r.Some? ==> OnlyObserves(r.value)
  {
    if accepted then Some(Observed([Plain(Provider)])) else None
  }

  /** Map one session-log event; None is the code's `provider_api_incompatible`. */
  function MapEvent(e: Event): Option<Mapping> {
    match e.kind
    case Spliced => MapSplice(e.data)
    case AssistantChunk => MapChunk(e.data)
    case AssistantMessage => MapMessage(e.data)
    case ToolCall => MapToolCall(e.data)
    case ToolResult => MapToolResult(e.data)
    case TurnEnd =>
      if IsInteger(e.data.Get("turn"), 1)
      then Some(Mapping([], 0, [], Some(ObserveTerminal(e.data.Get("reason"))))) else None
    case Title => ProviderWhen(ValidTitle(e.data))
    case SystemMessage => ProviderWhen(ValidSystemMessage(e.data))
    case AssistantAttempt => ProviderWhen(HasTurnStep(e.data) && e.data.Get("stream").Arr?)
    case TurnStart | StepStart | StepEnd | UserMessage | EndSeed | RequestInfo => ProviderWhen(true)
    case TitleRequest | GatewayPassive | Unknown => ProviderWhen(e.ignorable)
  }

  /** What both consumers rely on: mapped observations are never terminal events, only a turn end
      carries a terminal observation, and that observation's event type agrees with its status. */
  lemma MappingIsPortable(e: Event)
    requires MapEvent(e).Some?
    ensures var m := MapEvent(e).value;
            && (forall i :: 0 <= i < |m.events| ==> !IsTerminalType(m.events[i].kind))
            && (m.terminal.Some? <==> e.kind.TurnEnd?)
            && (m.insertedCount > 0 ==> e.kind.Spliced?)
            && |m.insertedIds| <= m.insertedCount
            && (m.terminal.Some? ==>
                  && m.terminal.value.eventType == TerminalType(m.terminal.value.result.status)
                  && (!m.terminal.value.valid ==> m.terminal.value.result.status.Failed?)
                  && !m.terminal.value.result.status.ConnectionAborted?)
  {
    assert e.kind.TurnEnd? || e.kind.Spliced? || OnlyObserves(MapEvent(e).value);
  }
}
