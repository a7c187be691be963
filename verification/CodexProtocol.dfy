/** The portable mapping of Codex App Server notifications. */
module CodexProtocol {
  import opened Prelude
  import opened JsonValues
  import opened Contracts

  /** One portable observation; one with a result settles the run and carries that result's event type. */
  datatype Mapped = Mapped(kind: EventType, terminal: Option<RunResult>, finalMessage: Option<string>,
      usage: Option<Usage>)

  function Plain(kind: EventType): Mapped {
    Mapped(kind, None, None, None)
  }

  function Settling(kind: EventType, result: RunResult): Mapped {
    Mapped(kind, Some(result), None, None)
  }

  const TOOL_ITEM_TYPES := {
    "commandExecution", "fileChange", "mcpToolCall", "dynamicToolCall", "collabAgentToolCall",
    "subAgentActivity", "webSearch", "imageView", "imageGeneration"}

  const ERROR_CODES := {
    "activeTurnNotSteerable", "badRequest", "contextWindowExceeded", "cyberPolicy", "httpConnectionFailed",
    "internalServerError", "other", "responseStreamConnectionFailed", "responseStreamDisconnected",
    "responseTooManyFailedAttempts", "sandboxError", "serverOverloaded", "sessionBudgetExceeded",
    "threadRollbackFailed", "unauthorized", "usageLimitExceeded"}

  predicate IsNumber(v: Json) {
    v.Int? || v.Frac? || v.Infinite?
  }

  /** An observation that is neither terminal nor about an interaction. */
  predicate Observes(m: Mapped) {
    m.terminal.None? && !IsTerminalType(m.kind) && !m.kind.InteractionRequested? && !m.kind.InteractionResolved?
  }

  /** A code is repeated to the host only if it is a known one: a text, or the single key of an object. */
  function ErrorCode(v: Json): (code: Option<string>)
    ensures code.Some? ==> code.value in ERROR_CODES
  {
    match v
    case Str(s) => if s in ERROR_CODES then Some(s) else None
    case Obj(keys, _) => if |keys| == 1 && keys[0] in ERROR_CODES then Some(keys[0]) else None
    case _ => None
  }

  predicate IsCompleteTurn(turn: Json) {
    && NonEmptyString(turn.Get("id")) && turn.Get("items").Arr?
    && turn.Get("itemsView").Str? && turn.Get("status").Str?
    && IsNumber(turn.Get("startedAt"))
    && (turn.Get("completedAt").Null? || IsNumber(turn.Get("completedAt")))
    && (turn.Get("durationMs").Null? || IsNumber(turn.Get("durationMs")))
    && (turn.Get("error").Null? || turn.Get("error").Obj?)
  }

  /** The end of a turn. One that is not complete only is reported; an unknown status fails the run. */
  function MapTerminal(params: Json): seq<Mapped> {
    var turn := params.Get("turn");
    var status := turn.Get("status");
    if !IsCompleteTurn(turn) then [Plain(Provider)]
    else if status == Str("completed") then [Settling(RunCompleted, RunResult(Completed, None, None, None))]
    else if status == Str("interrupted") then [Settling(RunCancelled, RunResult(Cancelled, None, None, None))]
    else if status == Str("failed") then
      var code := ErrorCode(turn.Get("error").Get("codexErrorInfo"));
      [Settling(RunFailed, RunResult(Failed, if code.Some? then Some(ProviderResult("", code)) else None, None, None))]
    else
      [Plain(Provider), Settling(RunFailed, RunResult(Failed, Some(ProviderResult("unknown_terminal_status", None)),
          None, None))]
  }

  function Delta(params: Json, kind: EventType): Mapped {
    Plain(if params.Get("delta").Str? then kind else Provider)
  }

  function MapItem(item: Json, completed: bool): (m: Mapped)
    ensures Observes(m)
  {
    var tag := item.Get("type");
    if !tag.Str? then Plain(Provider)
    else if tag.s == "agentMessage" && completed then
      if item.Get("text").Str? then Mapped(MessageCompleted, None, Some(item.Get("text").s), None) else Plain(Provider)
    else if tag.s == "reasoning" && completed then Plain(ReasoningCompleted)
    else if tag.s in TOOL_ITEM_TYPES then Plain(if completed then ToolCompleted else ToolStarted)
    else Plain(Provider)
  }

  function Count(v: Json): Option<nat> {
    if v.Int? && v.n >= 0 then Some(v.n) else None
  }

  function MapUsage(params: Json): (m: Mapped)
    ensures Observes(m)
  {
    var last := params.Get("tokenUsage").Get("last");
    var input, output, total := last.Get("inputTokens"), last.Get("outputTokens"), last.Get("totalTokens");
    if IsNumber(input) && IsNumber(output) && IsNumber(total)
    then Mapped(UsageUpdated, None, None, Some(Usage(Count(input), Count(output), Count(total))))
    else Plain(Provider)
  }

  /** The notification names the adapter distinguishes. */
  datatype Name =
    | TurnStarted | ThreadStarted | MessageText | ReasoningText | ItemStarted | ItemCompleted | ToolOutput
    | TokenUsage | TurnCompleted | RequestResolved | ErrorReport | OtherName

  function NameOf(name: string): Name {
    if name == "turn/started" then TurnStarted
    else if name == "thread/started" then ThreadStarted
    else if name == "item/agentMessage/delta" then MessageText
    else if name == "item/reasoning/summaryTextDelta" || name == "item/reasoning/textDelta" then ReasoningText
    else if name == "item/started" then ItemStarted
    else if name == "item/completed" then ItemCompleted
    else if name == "item/commandExecution/outputDelta" || name == "item/fileChange/patchUpdated"
            || name == "item/mcpToolCall/progress" then ToolOutput
    else if name == "thread/tokenUsage/updated" then TokenUsage
    else if name == "turn/completed" then TurnCompleted
    else if name == "serverRequest/resolved" then RequestResolved
    else if name == "error" then ErrorReport
    else OtherName
  }

  function MapNotification(name: Name, params: Json): seq<Mapped> {
    match name
    case TurnStarted | ThreadStarted => []
    case MessageText => [Delta(params, MessageDelta)]
    case ReasoningText => [Delta(params, ReasoningDelta)]
    case ItemStarted | ItemCompleted => [MapItem(params.Get("item"), name.ItemCompleted?)]
    case ToolOutput => [Plain(ToolUpdated)]
    case TokenUsage => [MapUsage(params)]
    case TurnCompleted => MapTerminal(params)
    case RequestResolved | ErrorReport | OtherName => [Plain(Provider)]
  }

  /** A mapped event either settles with the event type of its result, or only observes. */
  ghost predicate Portable(m: Mapped) {
    if m.terminal.Some? then m.kind == TerminalType(m.terminal.value.status)
        && !m.terminal.value.status.ConnectionAborted?
    else Observes(m)
  }

  /** At most the last event settles, and one does exactly when `settles`. */
  ghost predicate WellMapped(events: seq<Mapped>, settles: bool) {
    && (forall i :: 0 <= i < |events| ==> Portable(events[i]))
    && (forall i :: 0 <= i < |events| - 1 ==> events[i].terminal.None?)
    && (settles <==> events != [] && events[|events| - 1].terminal.Some?)
  }

  lemma TerminalIsPortable(params: Json)
    ensures WellMapped(MapTerminal(params), IsCompleteTurn(params.Get("turn")))
  {
    hide IsCompleteTurn, ErrorCode;
  }

  /** Every notification maps to portable events, of which at most the last settles the run; one does exactly
      for the end of a complete turn. */
  lemma MappingIsPortable(name: Name, params: Json)
    ensures WellMapped(MapNotification(name, params), name.TurnCompleted? && IsCompleteTurn(params.Get("turn")))
  {
    hide MapTerminal, MapItem, MapUsage, IsCompleteTurn, ErrorCode;
    TerminalIsPortable(params);
  }
}
