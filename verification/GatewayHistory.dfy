/** What holds of a Gateway log over whole histories: replay, snapshots, and the life of one request. */
module GatewayHistory {
  import opened Prelude
  import opened JsonValues
  import opened Contracts
  import opened DshProtocol
  import opened GatewayLog

  // ---------------------------------------------------------------- replay

  datatype Op = Begin(id: string) | Feed(value: Json) | Release

  ghost function Do(l: Log, op: Op): Log {
    match op
    case Begin(id) =>
      if l.pos.Idle() && l.own.requestId.None? then Log(l.pos, UNOWNED.(requestId := Some(id))) else l
    case Feed(value) => if AcceptsValue(l, value) then After(l, Appended(value).value) else l
    case Release => Log(l.pos, l.own.(requestId := None))
  }

  /** The log after any interleaving of requests, wire values and releases. */
  ghost function Live(ops: seq<Op>): Log {
    if ops == [] then Log(FRESH, UNOWNED) else Do(Live(ops[..|ops| - 1]), ops[|ops| - 1])
  }

  /** The wire values that interleaving accepted, in order. */
  ghost function Accepted(ops: seq<Op>): seq<Json> {
    if ops == [] then []
    else
      var before, op := ops[..|ops| - 1], ops[|ops| - 1];
      Accepted(before) + if op.Feed? && AcceptsValue(Live(before), op.value) then [op.value] else []
  }

  /** One wire value read by a log nobody owns. */
  ghost function Read(p: Position, value: Json): Option<Position> {
    if Appended(value).Some? then Advance(p, Appended(value).value) else None
  }

  /** A fresh log nobody owns, fed the values in order; None as soon as one is rejected. */
  ghost function Rebuilt(values: seq<Json>): Option<Position> {
    if values == [] then Some(FRESH)
    else
      var before := Rebuilt(values[..|values| - 1]);
      if before.Some? then Read(before.value, values[|values| - 1]) else None
  }

  lemma {:induction false} ReplayEqualsLive(ops: seq<Op>)
    ensures Rebuilt(Accepted(ops)) == Some(Live(ops).pos)
    ensures PositionInv(Live(ops).pos) && Live(ops).pos.cursor == |Accepted(ops)| - 1
  {
    if ops != [] {
      var before, op := ops[..|ops| - 1], ops[|ops| - 1];
      ReplayEqualsLive(before);
      if op.Feed? && AcceptsValue(Live(before), op.value) {
        MovedKeepsInv(Live(before).pos, Appended(op.value).value);
        assert Accepted(ops)[..|Accepted(ops)| - 1] == Accepted(before);
      } else {
        assert Accepted(ops) == Accepted(before);
      }
    }
  }

  // ---------------------------------------------------------------- snapshots

  const MAX_RECORDS := 4096

  predicate OptionalString(v: Json) {
    v.Undefined? || GatewayString(v)
  }

  predicate SnapshotEnvelope(value: Json, sessionId: string) {
    var header, projections := value.Get("header"), value.Get("projections");
    && value.Get("type") == Str("snapshot")
    && header.Get("version") == Int(2)
    && header.Get("id") == Str(sessionId)
    && IsInteger(header.Get("createdAt"), 0)
    && header.Get("isSeeded").Bool?
    && GatewayString(header.Get("cwd"))
    && OptionalString(header.Get("parentSession"))
    && OptionalString(header.Get("agentPreset"))
    && IsInteger(value.Get("cursor"), -1)
    && value.Get("records").Arr? && |value.Get("records").items| <= MAX_RECORDS
    && value.Get("hasMore").Bool?
    && projections.Get("asOfSeq") == value.Get("cursor")
    && projections.Get("values").Obj?
  }

  predicate AreEventRecords(records: seq<Json>) {
    forall i :: 0 <= i < |records| ==> records[i].Get("type") == Str("event")
  }

  function RecordedEvents(records: seq<Json>): seq<Json> {
    seq(|records|, i requires 0 <= i < |records| => records[i].Get("event"))
  }

  /** The position a complete, unowned, non-subagent snapshot stands for. */
  ghost function SnapshotPosition(value: Json, sessionId: string): Option<Position> {
    if !SnapshotEnvelope(value, sessionId) || !value.Get("header").Get("origin").Undefined?
       || value.Get("hasMore") == Bool(true)
    then None
    else
      var records := value.Get("records").items;
      var rebuilt := Rebuilt(RecordedEvents(records));
      if AreEventRecords(records) && rebuilt.Some? && Int(rebuilt.value.cursor) == value.Get("cursor") then rebuilt
      else None
  }

  lemma ReadsNext(values: seq<Json>, i: nat)
    requires i < |values|
    ensures Rebuilt(values[..i + 1])
            == if Rebuilt(values[..i]).Some? then Read(Rebuilt(values[..i]).value, values[i]) else None
  {
    assert values[..i + 1][..i] == values[..i];
  }

  lemma {:induction false} RejectedPrefix(values: seq<Json>, n: nat)
    requires n <= |values| && Rebuilt(values[..n]).None?
    ensures Rebuilt(values).None?
    decreases |values| - n
  {
    if n < |values| {
      assert values[..n + 1][..n] == values[..n];
      RejectedPrefix(values, n + 1);
    } else {
      assert values[..n] == values;
    }
  }

  method FeedRecord(log: GatewaySessionLog, record: Json) returns (refused: Option<Refusal>)
    requires log.Valid() && log.State().own == UNOWNED
    modifies log
    ensures log.Valid() && log.State().own == UNOWNED
    ensures refused.None? <==> record.Get("type") == Str("event") && Read(old(log.Here()), record.Get("event")).Some?
    ensures refused.None? ==> Some(log.Here()) == Read(old(log.Here()), record.Get("event"))
  {
    if record.Get("type") != Str("event") {
      return Some(Refusal(ProviderApiIncompatible, "snapshot_invalid"));
    }
    var accepted := log.Accept(record.Get("event"));
    refused := if accepted.Ok? then None else Some(accepted.error);
  }

  /** Feed every record to a fresh log; fails exactly when one is no event record or is rejected. */
  method ReplayRecords(records: seq<Json>) returns (r: Result<GatewaySessionLog, Refusal>)
    ensures r.Ok? <==> AreEventRecords(records) && Rebuilt(RecordedEvents(records)).Some?
    ensures r.Ok? ==> fresh(r.value) && r.value.Valid()
                      && r.value.State() == Log(Rebuilt(RecordedEvents(records)).value, UNOWNED)
  {
    hide Read, PositionInv;
    var log := new GatewaySessionLog();
    ghost var events := RecordedEvents(records);
    for i := 0 to |records|
      invariant fresh(log) && log.Valid() && log.State().own == UNOWNED
      invariant AreEventRecords(records[..i])
      invariant Rebuilt(events[..i]) == Some(log.Here())
    {
      ReadsNext(events, i);
      var refused := FeedRecord(log, records[i]);
      if refused.Some? {
        if AreEventRecords(records) {
          RejectedPrefix(events, i + 1);
        }
        return Err(refused.value);
      }
    }
    assert events[..|records|] == events;
    r := Ok(log);
  }

  /** Open a session from its snapshot: succeeds exactly when the records replay to the stated cursor. */
  method ParseGatewaySnapshot(value: Json, sessionId: string) returns (r: Result<GatewaySessionLog, Refusal>)
    ensures r.Ok? <==> SnapshotPosition(value, sessionId).Some?
    ensures r.Ok? ==> fresh(r.value) && r.value.Valid()
                      && r.value.State() == Log(SnapshotPosition(value, sessionId).value, UNOWNED)
  {
    if !SnapshotEnvelope(value, sessionId) {
      return Err(Refusal(ProviderApiIncompatible, "snapshot_invalid"));
    }
    if !value.Get("header").Get("origin").Undefined? {
      return Err(Refusal(SessionProviderMismatch, "subagent_owned"));
    }
    if value.Get("hasMore") == Bool(true) {
      return Err(Refusal(UnsupportedCapability, "history_capacity"));
    }
    r := ReplayRecords(value.Get("records").items);
    if r.Ok? && Int(r.value.cursor) != value.Get("cursor") {
      return Err(Refusal(ProviderApiIncompatible, "snapshot_gap"));
    }
  }

  /** A snapshot recording what a live log accepted rebuilds that log's position, whoever owned it. */
  lemma SnapshotRebuildsLive(ops: seq<Op>, value: Json, sessionId: string)
    requires SnapshotEnvelope(value, sessionId)
    requires value.Get("header").Get("origin").Undefined? && value.Get("hasMore") == Bool(false)
    requires value.Get("cursor") == Int(Live(ops).pos.cursor)
    requires |value.Get("records").items| == |Accepted(ops)|
    requires forall i :: 0 <= i < |Accepted(ops)| ==>
               value.Get("records").items[i].Get("type") == Str("event")
               && value.Get("records").items[i].Get("event") == Accepted(ops)[i]
    ensures SnapshotPosition(value, sessionId) == Some(Live(ops).pos)
  {
    ReplayEqualsLive(ops);
    assert RecordedEvents(value.Get("records").items) == Accepted(ops);
  }

  // ---------------------------------------------------------------- the life of one request

  ghost function Begun(p: Position, id: string): Log {
    Log(p, UNOWNED.(requestId := Some(id)))
  }

  /** The log after accepting `es` in order; None when one of them is rejected. */
  ghost function Played(l: Log, es: seq<Event>): Option<Log> {
    if es == [] then Some(l)
    else
      var before, e := Played(l, es[..|es| - 1]), es[|es| - 1];
      if before.Some? && Accepts(before.value, e) then Some(After(before.value, e)) else None
  }

  /** Everything handed to the run while `es` was accepted. */
  ghost function Outputs(l: Log, es: seq<Event>): seq<MappedEvent>
    requires Played(l, es).Some?
  {
    if es == [] then []
    else Outputs(l, es[..|es| - 1]) + Emitted(Played(l, es[..|es| - 1]).value, es[|es| - 1])
  }

  predicate IsClaim(e: Event) {
    e.kind.Spliced? && ParseSplice(e.data).Some? && Claims(ParseSplice(e.data).value)
  }

  predicate IsCorrelation(e: Event) {
    e.kind.UserMessage? && !IsContext(e.data)
  }

  function Count(es: seq<Event>, p: Event -> bool): nat {
    if es == [] then 0 else Count(es[..|es| - 1], p) + if p(es[|es| - 1]) then 1 else 0
  }

  function Starts(es: seq<Event>): nat {
    Count(es, (e: Event) => e.kind.TurnStart?)
  }

  function Ends(es: seq<Event>): nat {
    Count(es, (e: Event) => e.kind.TurnEnd?)
  }

  function ClaimCount(es: seq<Event>): nat {
    Count(es, IsClaim)
  }

  function Correlations(es: seq<Event>): nat {
    Count(es, IsCorrelation)
  }

  /** What the last turn end reported. */
  function LastEnd(es: seq<Event>): Option<RunResult> {
    if es == [] then None
    else if es[|es| - 1].kind.TurnEnd? then Some(ObserveTerminal(es[|es| - 1].data.Get("reason")).result)
    else LastEnd(es[..|es| - 1])
  }

  function LastMessage(outputs: seq<MappedEvent>): Option<string> {
    if outputs == [] then None
    else if outputs[|outputs| - 1].finalMessage.Some? then outputs[|outputs| - 1].finalMessage
    else LastMessage(outputs[..|outputs| - 1])
  }

  datatype Key = Input | Output | Total

  function Reading(u: Usage, key: Key): Option<nat> {
    match key case Input => u.input case Output => u.output case Total => u.total
  }

  predicate Reports(e: MappedEvent, key: Key) {
    e.usage.Some? && Reading(e.usage.value, key).Some?
  }

  /** Sum of every reported reading of one key. */
  function KeySum(outputs: seq<MappedEvent>, key: Key): nat {
    if outputs == [] then 0
    else
      var last := outputs[|outputs| - 1];
      KeySum(outputs[..|outputs| - 1], key) + if Reports(last, key) then Reading(last.usage.value, key).value else 0
  }

  function KeyTotal(outputs: seq<MappedEvent>, key: Key): Option<nat> {
    if exists i :: 0 <= i < |outputs| && Reports(outputs[i], key) then Some(KeySum(outputs, key)) else None
  }

  /** Per-key totals of every usage report, absent when there was none. */
  function UsageOf(outputs: seq<MappedEvent>): Option<Usage> {
    if exists i :: 0 <= i < |outputs| && outputs[i].usage.Some?
    then Some(Usage(KeyTotal(outputs, Input), KeyTotal(outputs, Output), KeyTotal(outputs, Total)))
    else None
  }

  lemma KeyTotalExtends(outputs: seq<MappedEvent>, e: MappedEvent, key: Key)
    ensures KeyTotal(outputs + [e], key)
            == AddKey(KeyTotal(outputs, key), if e.usage.Some? then Reading(e.usage.value, key) else None)
  {
    var all := outputs + [e];
    assert all[..|outputs|] == outputs && all[|outputs|] == e;
    if Reports(e, key) {
      assert Reports(all[|outputs|], key);
      if !exists i :: 0 <= i < |outputs| && Reports(outputs[i], key) {
        NothingReported(outputs, key);
      }
    } else if i :| 0 <= i < |outputs| && Reports(outputs[i], key) {
      assert Reports(all[i], key);
    }
  }

  lemma {:induction false} NothingReported(outputs: seq<MappedEvent>, key: Key)
    requires forall i :: 0 <= i < |outputs| ==> !Reports(outputs[i], key)
    ensures KeySum(outputs, key) == 0
  {
    if outputs != [] {
      NothingReported(outputs[..|outputs| - 1], key);
    }
  }

  lemma UsageExtends(outputs: seq<MappedEvent>, e: MappedEvent)
    ensures UsageOf(outputs + [e]) == AddUsage(UsageOf(outputs), e.usage)
  {
    var all := outputs + [e];
    KeyTotalExtends(outputs, e, Input);
    KeyTotalExtends(outputs, e, Output);
    KeyTotalExtends(outputs, e, Total);
    assert all[|outputs|] == e && forall i :: 0 <= i < |outputs| ==> all[i] == outputs[i];
    if exists i :: 0 <= i < |outputs| && outputs[i].usage.Some? {
    } else {
      assert forall key, i :: 0 <= i < |outputs| ==> !Reports(outputs[i], key);
      if e.usage.Some? {
        assert all[|outputs|].usage.Some?;
      }
    }
  }

  /** Gathering the observations of one event extends the message and usage of everything before. */
  lemma {:induction false} GatheringExtends(own: Ownership, outputs: seq<MappedEvent>, events: seq<MappedEvent>)
    requires own.finalMessage == LastMessage(outputs) && own.usage == UsageOf(outputs)
    ensures var g := Gathered(own, events);
            g == own.(finalMessage := LastMessage(outputs + events), usage := UsageOf(outputs + events))
    decreases |events|
  {
    if events == [] {
      assert outputs + events == outputs;
    } else {
      var e, more := events[0], outputs + [events[0]];
      UsageExtends(outputs, e);
      assert more[..|outputs|] == outputs;
      var next := own.(finalMessage := if e.finalMessage.Some? then e.finalMessage else own.finalMessage,
                       usage := AddUsage(own.usage, e.usage));
      GatheringExtends(next, more, events[1..]);
      assert more + events[1..] == outputs + events;
    }
  }

  lemma ProviderAddsNothing(outputs: seq<MappedEvent>)
    ensures LastMessage(outputs + [Plain(Provider)]) == LastMessage(outputs)
    ensures UsageOf(outputs + [Plain(Provider)]) == UsageOf(outputs)
  {
    UsageExtends(outputs, Plain(Provider));
    assert (outputs + [Plain(Provider)])[..|outputs|] == outputs;
  }

  ghost predicate AllCarry(inputs: seq<QueuedInput>, id: string) {
    forall i :: 0 <= i < |inputs| ==> inputs[i].requestId == Some(id)
  }

  /** Phase of an owned request, told from the counts of accepted events. */
  ghost predicate Phase(l: Log, es: seq<Event>) {
    || (Starts(es) == 0 && l.pos.turn.None? && l.own.claim.None? && l.own.finalResult.None?)
    || (Starts(es) == 1 && l.pos.turn.Some? && l.own.finalResult.None?
        && (l.own.claim.Some? ==> l.pos.turn == Some(l.own.claim.value.turn)))
    || (Starts(es) == 1 && l.pos.turn.None? && l.own.finalResult.Some? && l.own.claim.Some?)
  }

  ghost predicate Bookkeeping(l: Log, es: seq<Event>, id: string) {
    && l.own.requestId == Some(id)
    && AllCarry(l.pos.nextTurn, id) && AllCarry(l.pos.nextStep, id)
    && ClaimCount(es) == (if l.own.claim.Some? then 1 else 0)
    && Correlations(es) == (if l.own.correlated then 1 else 0)
    && (l.own.correlated ==> l.own.claim.Some?)
    && Ends(es) == (if l.own.finalResult.Some? then 1 else 0)
  }

  /** The settled result, if any, is the turn's observed end with everything gathered attached. */
  ghost predicate ResultExplained(l: Log, es: seq<Event>, outputs: seq<MappedEvent>) {
    && l.own.finalMessage == LastMessage(outputs)
    && l.own.usage == UsageOf(outputs)
    && (l.own.finalResult.Some? <==> LastEnd(es).Some?)
    && (l.own.finalResult.Some? ==> l.own.finalResult.value == Settled(l.own, LastEnd(es).value))
  }

  lemma SpliceKeepsOwner(queue: seq<QueuedInput>, s: Splice, id: string)
    requires s.start + s.removed <= |queue| && AllCarry(queue, id) && AllCarry(s.inserted, id)
    ensures AllCarry(Edited(queue, s), id)
  {
    var edited := Edited(queue, s);
    forall i | 0 <= i < |edited| ensures edited[i].requestId == Some(id) {
      if i >= s.start + |s.inserted| {
        assert edited[i] == queue[i - |s.inserted| + s.removed];
      }
    }
  }

  lemma CountStep(l: Log, es: seq<Event>, e: Event, id: string)
    requires Phase(l, es) && Bookkeeping(l, es, id) && Accepts(l, e)
    ensures Phase(After(l, e), es + [e]) && Bookkeeping(After(l, e), es + [e], id)
  {
    assert (es + [e])[..|es|] == es;
    match e.kind {
      case Spliced =>
        var s := ParseSplice(e.data).value;
        SpliceKeepsOwner(l.pos.Queue(s.target), s, id);
      case AssistantMessage | ToolCall | ToolResult =>
        GatheredKeepsRest(l.own, MapEvent(e).value.events);
      case _ =>
    }
  }

  lemma {:induction false} GatheredKeepsRest(own: Ownership, events: seq<MappedEvent>)
    ensures var g := Gathered(own, events);
            g == own.(finalMessage := g.finalMessage, usage := g.usage)
    decreases |events|
  {
    if events != [] {
      var e := events[0];
      GatheredKeepsRest(own.(finalMessage := if e.finalMessage.Some? then e.finalMessage else own.finalMessage,
                             usage := AddUsage(own.usage, e.usage)), events[1..]);
    }
  }

  lemma OutputStep(l: Log, es: seq<Event>, outputs: seq<MappedEvent>, e: Event)
    requires l.own.requestId.Some? && ResultExplained(l, es, outputs) && Accepts(l, e) && IsOutput(e.kind)
    ensures ResultExplained(After(l, e), es + [e], outputs + Emitted(l, e))
  {
    assert (es + [e])[..|es|] == es;
    GatheringExtends(l.own, outputs, MapEvent(e).value.events);
  }

  lemma EndStep(l: Log, es: seq<Event>, outputs: seq<MappedEvent>, e: Event)
    requires l.own.requestId.Some? && ResultExplained(l, es, outputs) && Accepts(l, e) && e.kind.TurnEnd?
    ensures ResultExplained(After(l, e), es + [e], outputs + Emitted(l, e))
  {
    assert (es + [e])[..|es|] == es;
    assert outputs + [] == outputs;
  }

  lemma ResultStep(l: Log, es: seq<Event>, outputs: seq<MappedEvent>, e: Event)
    requires l.own.requestId.Some? && ResultExplained(l, es, outputs) && Accepts(l, e)
    ensures ResultExplained(After(l, e), es + [e], outputs + Emitted(l, e))
  {
    if IsOutput(e.kind) {
      OutputStep(l, es, outputs, e);
    } else if e.kind.TurnEnd? {
      EndStep(l, es, outputs, e);
    } else {
      assert (es + [e])[..|es|] == es;
      ProviderAddsNothing(outputs);
    }
  }

  /** While one request owns an initially idle log: at most one turn starts, one claim is made and one
      correlation; an unfinished claimed run stays in its claimed turn; every queued input carries the
      request; a result exists exactly when the one turn end was accepted, and it carries the last
      message and the per-key usage totals seen since the request began. */
  lemma {:induction false} RequestLife(p: Position, id: string, es: seq<Event>)
    requires p.Idle() && Played(Begun(p, id), es).Some?
    ensures var l, outputs := Played(Begun(p, id), es).value, Outputs(Begun(p, id), es);
            && Phase(l, es) && Bookkeeping(l, es, id) && ResultExplained(l, es, outputs)
            && Starts(es) <= 1 && ClaimCount(es) <= 1 && Correlations(es) <= 1 && Ends(es) <= 1
            && (l.own.claim.Some? && l.own.finalResult.None? ==> l.pos.turn == Some(l.own.claim.value.turn))
  {
    if es != [] {
      var before, e := es[..|es| - 1], es[|es| - 1];
      RequestLife(p, id, before);
      var l := Played(Begun(p, id), before).value;
      assert before + [e] == es;
      CountStep(l, before, e, id);
      ResultStep(l, before, Outputs(Begun(p, id), before), e);
    }
  }

  /** Until a claimed message is correlated, the run sees nothing but opaque provider observations. */
  lemma {:induction false} OutputFollowsCorrelation(p: Position, id: string, es: seq<Event>)
    requires p.Idle() && Played(Begun(p, id), es).Some? && Correlations(es) == 0
    ensures forall i :: 0 <= i < |Outputs(Begun(p, id), es)| ==> Outputs(Begun(p, id), es)[i] == Plain(Provider)
  {
    if es != [] {
      var before := es[..|es| - 1];
      OutputFollowsCorrelation(p, id, before);
      RequestLife(p, id, before);
    }
  }
}
