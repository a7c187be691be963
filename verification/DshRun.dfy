/** One run of the DeepSeek Harness stdio adapter: correlation, buffering before the prompt reply, settling at idle. */
module DshRun {
  import opened Prelude
  import opened Contracts
  import opened RunEvents
  import opened PortableTrace
  import D = DshProtocol

  /** A notification for the run's root session; raw ones carry nothing the run looks at. */
  datatype Notice = Raw | Status(idle: bool) | Session(event: D.Event)

  /** `connected`: the owning client has not closed. `discarded`: the prompt failed and the run was never
      handed out. `seen` lists the notices processed before settling, the
      first `start` of them up to and including the run's own splice. */
  datatype Run = Run(
    outlet: Outlet, capacity: nat, messageId: Option<string>, pending: seq<Notice>,
    correlated: bool, last: Option<nat>, terminal: Option<D.TerminalObservation>, terminalCount: nat,
    finalMessage: Option<string>, usage: Option<Usage>, result: Option<RunResult>,
    connected: bool, discarded: bool, seen: seq<Notice>, start: nat)

  function Started(prefix: string, capacity: nat): Run {
    Run(Emitted(Opened(prefix), RunStarted, capacity).0, capacity, None, [], false, None, None, 0, None, None, None,
        true, false, [], 0)
  }

  /** What identifies a run, and what it has buffered, outlives every step below. */
  ghost predicate Same(a: Run, b: Run) {
    b.messageId == a.messageId && b.discarded == a.discarded && b.pending == a.pending && b.capacity == a.capacity
  }

  function Finish(r: Run, result: RunResult, kind: EventType): (t: Run)
    ensures Same(r, t)
  {
    if r.result.Some? then r else r.(result := Some(result), outlet := Finished(r.outlet, result.status, kind))
  }

  function Reason(status: Status, reason: string): RunResult {
    RunResult(status, Some(ProviderResult(reason, None)), None, None)
  }

  function FailProtocol(r: Run, reason: string): (t: Run)
    ensures Same(r, t)
  {
    Finish(r, Reason(Failed, reason), RunFailed)
  }

  /** The client closes, which settles the run it still owns. */
  function AbortOwner(r: Run, reason: string): (t: Run)
    ensures Same(r, t)
  {
    if !r.connected then r
    else if r.discarded then r.(connected := false)
    else Finish(r.(connected := false), Reason(ConnectionAborted, reason), ConnectionAbortedEvent)
  }

  function Emit(r: Run, m: D.MappedEvent): (t: Run)
    ensures Same(r, t)
  {
    if r.result.Some? then r
    else
      var noted := r.(finalMessage := if m.finalMessage.Some? then m.finalMessage else r.finalMessage,
                      usage := if m.usage.Some? then m.usage else r.usage);
      var (outlet, taken) := Emitted(r.outlet, m.kind, r.capacity);
      if taken then noted.(outlet := outlet) else AbortOwner(noted.(outlet := outlet), "event_buffer_overflow")
  }

  function EmitAll(r: Run, events: seq<D.MappedEvent>): (t: Run)
    ensures Same(r, t)
  {
    if events == [] then r else Emit(EmitAll(r, events[..|events| - 1]), events[|events| - 1])
  }

  /** The result a single turn end calls for, completed by what the run observed. */
  function Observed(r: Run, o: D.TerminalObservation): (result: RunResult)
    ensures result.status == o.result.status
  {
    o.result.(finalMessage := if o.result.status.Completed? && r.finalMessage.Some?
                              then r.finalMessage else o.result.finalMessage,
              usage := if r.usage.Some? then r.usage else o.result.usage)
  }

  function IdleFailure(count: nat): (result: RunResult)
    ensures result.status == Failed
  {
    Reason(Failed, if count == 0 then "missing_terminal_reason" else "duplicate_terminal_reason")
  }

  function FinishAtIdle(r: Run): (t: Run)
    ensures Same(r, t)
  {
    if r.terminalCount != 1 || r.terminal.None? then Finish(r, IdleFailure(r.terminalCount), RunFailed)
    else Finish(r, Observed(r, r.terminal.value), if r.terminal.value.valid then r.terminal.value.eventType
        else RunFailed)
  }

  function OwnId(r: Run): string {
    if r.messageId.Some? then r.messageId.value else ""
  }

  predicate InsertsOnly(m: D.Mapping, id: string) {
    m.insertedCount == 1 && m.insertedIds == [id]
  }

  function Refused(r: Run, reason: string): (t: Run)
    ensures Same(r, t)
  {
    AbortOwner(FailProtocol(r, reason), "protocol_incompatible")
  }

  /** A session event before the run's own splice has been seen; None: the mapping throws. */
  function Correlate(r: Run, e: D.Event): (t: Option<Run>)
    ensures t.Some? ==> Same(r, t.value)
  {
    if !e.kind.Spliced? then Some(r)
    else
      match D.MapEvent(e)
      case None => None
      case Some(m) =>
        if OwnId(r) !in m.insertedIds then Some(r)
        else if !InsertsOnly(m, OwnId(r)) then Some(Refused(r, "ambiguous_prompt_receipt"))
        else Some(EmitAll(r.(correlated := true, last := Some(e.seqNo), start := |r.seen|), m.events))
  }

  function Counted(r: Run, e: D.Event, m: D.Mapping): Run {
    r.(last := Some(e.seqNo),
       terminalCount := if m.terminal.Some? then r.terminalCount + 1 else r.terminalCount,
       terminal := if m.terminal.Some? && r.terminal.None? then m.terminal else r.terminal)
  }

  /** A session event of the run's own turn; None: the mapping throws. */
  function Follow(r: Run, e: D.Event): (t: Option<Run>)
    ensures t.Some? ==> Same(r, t.value)
  {
    if r.last.None? || e.seqNo != r.last.value + 1 then Some(Refused(r, "provider_api_incompatible"))
    else
      match D.MapEvent(e)
      case None => None
      case Some(m) =>
        if m.insertedCount > 0 then Some(Refused(r, "competing_prompt"))
        else Some(EmitAll(Counted(r, e, m), m.events))
  }

  function Noted(r: Run, n: Notice): Run {
    if r.result.Some? then r else r.(seen := r.seen + [n])
  }

  /** Process one notice, settled or not; None: its mapping throws, before anything has changed. */
  function Processed(r: Run, n: Notice): (t: Option<Run>)
    ensures t.Some? ==> Same(r, t.value)
  {
    var noted := Noted(r, n);
    match n
    case Raw => Some(if r.correlated then Emit(noted, D.Plain(Provider)) else noted)
    case Status(idle) => Some(if idle && r.correlated then FinishAtIdle(noted) else noted)
    case Session(e) => if r.correlated then Follow(noted, e) else Correlate(noted, e)
  }

  /** What the client does with a notice; a throwing mapping fails the run and closes the client. */
  function Received(r: Run, n: Notice): Run {
    if r.discarded || r.result.Some? then r
    else if r.messageId.None? then
      if |r.pending| + 1 >= r.capacity then AbortOwner(r, "event_buffer_overflow") else r.(pending := r.pending + [n])
    else
      var p := Processed(r, n);
      if p.Some? then p.value else Refused(r, "provider_api_incompatible")
  }

  /** The state after replaying the notices in order, or where a mapping throws; false: one did. */
  function Replayed(r: Run, notices: seq<Notice>): (Run, bool)
    decreases |notices|
  {
    if notices == [] then (r, true)
    else
      var p := Processed(r, notices[0]);
      if p.None? then (r, false) else Replayed(p.value, notices[1..])
  }

  function Discarded(r: Run, abort: bool): Run {
    var gone := r.(discarded := true, pending := [], outlet := r.outlet.(queue := RunEvents.Closed(r.outlet.queue)));
    if abort then AbortOwner(gone, "prompt_outcome_unknown") else gone
  }

  /** The prompt reply names the run's message and empties the buffer. */
  function Named(r: Run, id: string): Run {
    r.(messageId := Some(id), pending := [])
  }

  /** The buffered notices are replayed in order. A mapping that throws discards the run as far as it got. */
  function Acknowledged(r: Run, id: string): Run {
    if r.discarded || r.messageId.Some? || r.result.Some? then r
    else
      var (t, understood) := Replayed(Named(r, id), r.pending);
      if understood then t else Discarded(t, true)
  }

  /** The prompt request failed; only a remote error leaves the connection usable. */
  function PromptFailed(r: Run, remote: bool): Run {
    if r.discarded || r.messageId.Some? then r else Discarded(r, !remote)
  }

  // ---------------------------------------------------------------- every interleaving

  datatype Op =
    | Receive(n: Notice) | DecodeFails | Acknowledge(id: string) | PromptFails(remote: bool)
    | Abort(reason: string) | Consume

  function Step(r: Run, op: Op): Run {
    match op
    case Receive(n) => Received(r, n)
    case DecodeFails => if r.discarded then AbortOwner(r, "protocol_incompatible")
        else Refused(r, "provider_api_incompatible")
    case Acknowledge(id) => Acknowledged(r, id)
    case PromptFails(remote) => PromptFailed(r, remote)
    case Abort(reason) => AbortOwner(r, reason)
    case Consume => r.(outlet := Read(r.outlet))
  }

  ghost predicate Core(r: Run) {
    && OutletInv(r.outlet)
    && r.outlet.final == (if r.result.Some? then Some(r.result.value.status) else None)
    && (r.result.None? && !r.discarded ==> r.connected)
  }

  /** What emitting, failing and aborting may change: the outlet, what was observed, and settling as something
      other than completed. A settled run keeps its result and its trace. */
  ghost predicate Quietly(a: Run, b: Run) {
    && b == a.(outlet := b.outlet, finalMessage := b.finalMessage, usage := b.usage, result := b.result,
        connected := b.connected)
    && (a.result.Some? ==> b.result == a.result && b.outlet == a.outlet)
    && (a.result.None? && b.result.Some? ==> !b.result.value.status.Completed?)
  }

  lemma FinishKeeps(r: Run, result: RunResult, kind: EventType)
    requires OutletInv(r.outlet) && r.outlet.final == (if r.result.Some? then Some(r.result.value.status) else None)
    requires kind == TerminalType(result.status)
    ensures Core(Finish(r, result, kind))
    ensures Finish(r, result, kind).result == if r.result.Some? then r.result else Some(result)
  {
    FinishedKeeps(r.outlet, result.status, kind);
    hide OutletInv, Finished, TerminalType;
  }

  lemma AbortOwnerKeeps(r: Run, reason: string)
    requires Core(r)
    ensures Core(AbortOwner(r, reason)) && Quietly(r, AbortOwner(r, reason))
    ensures !AbortOwner(r, reason).connected && (r.discarded || AbortOwner(r, reason).result.Some?)
  {
    if r.connected && !r.discarded {
      FinishKeeps(r.(connected := false), Reason(ConnectionAborted, reason), ConnectionAbortedEvent);
    }
    hide OutletInv, Finished;
  }

  lemma RefusedKeeps(r: Run, reason: string)
    requires Core(r)
    ensures Core(Refused(r, reason)) && Quietly(r, Refused(r, reason)) && Refused(r, reason).result.Some?
        && !Refused(r, reason).connected
  {
    FinishKeeps(r, Reason(Failed, reason), RunFailed);
    AbortOwnerKeeps(FailProtocol(r, reason), "protocol_incompatible");
    hide OutletInv, Finished, Finish;
    var failed := FailProtocol(r, reason);
    assert failed == r.(result := failed.result, outlet := failed.outlet) by {
      FinishFrame(r, Reason(Failed, reason), RunFailed);
    }
  }

  lemma FinishFrame(r: Run, result: RunResult, kind: EventType)
    ensures var f := Finish(r, result, kind);
      f == r.(result := f.result, outlet := f.outlet) && (r.result.Some? ==> f == r)
  {
  }

  lemma EmitKeeps(r: Run, m: D.MappedEvent)
    requires Core(r) && !IsTerminalType(m.kind)
    ensures Core(Emit(r, m)) && Quietly(r, Emit(r, m))
  {
    hide IsTerminalType, OutletInv;
    if r.result.None? {
      EmittedKeeps(r.outlet, m.kind, r.capacity);
      var noted := r.(finalMessage := if m.finalMessage.Some? then m.finalMessage else r.finalMessage,
                      usage := if m.usage.Some? then m.usage else r.usage,
                      outlet := Emitted(r.outlet, m.kind, r.capacity).0);
      assert Core(noted);
      hide Emitted, Core, AbortOwner;
      AbortOwnerKeeps(noted, "event_buffer_overflow");
    }
  }

  lemma {:induction false} EmitAllKeeps(r: Run, events: seq<D.MappedEvent>)
    requires Core(r) && forall i :: 0 <= i < |events| ==> !IsTerminalType(events[i].kind)
    ensures Core(EmitAll(r, events)) && Quietly(r, EmitAll(r, events))
  {
    hide IsTerminalType, Core, Emit;
    if events != [] {
      EmitAllKeeps(r, events[..|events| - 1]);
      EmitKeeps(EmitAll(r, events[..|events| - 1]), events[|events| - 1]);
    }
  }

  // ---------------------------------------------------------------- what a completed run went through

  function Events(notices: seq<Notice>): seq<D.Event> {
    if notices == [] then []
    else
      var last := notices[|notices| - 1];
      Events(notices[..|notices| - 1]) + if last.Session? then [last.event] else []
  }

  function TurnEnds(events: seq<D.Event>): seq<D.TerminalObservation> {
    if events == [] then []
    else
      var m := D.MapEvent(events[|events| - 1]);
      TurnEnds(events[..|events| - 1]) + if m.Some? && m.value.terminal.Some? then [m.value.terminal.value] else []
  }

  /** A splice into the next turn that inserts exactly this message. */
  ghost predicate OwnSplice(n: Notice, id: string) {
    && n.Session? && n.event.kind.Spliced?
    && D.MapEvent(n.event).Some? && InsertsOnly(D.MapEvent(n.event).value, id)
  }

  /** Numbered without a gap from `base` on, all of them understood, none inserting a message. */
  ghost predicate GapFree(events: seq<D.Event>, base: nat) {
    forall i :: 0 <= i < |events| ==>
      && events[i].seqNo == base + 1 + i
      && D.MapEvent(events[i]).Some? && D.MapEvent(events[i]).value.insertedCount == 0
  }

  ghost predicate NoIdle(notices: seq<Notice>) {
    forall i :: 0 <= i < |notices| ==> notices[i] != Status(true)
  }

  /** The own splice, then gap-free events with no other insertion and exactly one turn end, a completed
      one, and then idle. */
  ghost predicate CompletedHistory(seen: seq<Notice>, start: nat, id: string) {
    && 0 < start < |seen| && OwnSplice(seen[start - 1], id)
    && var turn := seen[start..|seen| - 1];
    && NoIdle(turn) && seen[|seen| - 1] == Status(true)
    && GapFree(Events(turn), seen[start - 1].event.seqNo)
    && |TurnEnds(Events(turn))| == 1 && TurnEnds(Events(turn))[0].result.status.Completed?
  }

  /** How the run's fields reflect the notices since its splice. */
  ghost predicate FollowsTurn(id: string, seen: seq<Notice>, start: nat, last: Option<nat>, count: nat,
                              terminal: Option<D.TerminalObservation>)
  {
    && 0 < start <= |seen| && OwnSplice(seen[start - 1], id)
    && var turn, base := seen[start..], seen[start - 1].event.seqNo;
    && NoIdle(turn) && GapFree(Events(turn), base)
    && last == Some(base + |Events(turn)|)
    && var ends := TurnEnds(Events(turn));
    && count == |ends|
    && terminal == (if ends == [] then None else Some(ends[0]))
  }

  ghost predicate Follows(r: Run) {
    r.messageId.Some? && FollowsTurn(OwnId(r), r.seen, r.start, r.last, r.terminalCount, r.terminal)
  }

  ghost predicate Reflects(r: Run) {
    && (r.correlated && r.result.None? ==> Follows(r))
    && (!r.correlated && r.result.None? ==> r.terminalCount == 0 && r.terminal.None?)
    && (r.result.Some? && r.result.value.status.Completed? ==>
        r.correlated && CompletedHistory(r.seen, r.start, OwnId(r)))
  }

  ghost predicate Inv(r: Run) {
    && Core(r) && Reflects(r)
    && (r.messageId.Some? ==> r.pending == [])
    && (r.messageId.None? ==> !r.correlated)
  }

  lemma QuietlyReflects(a: Run, b: Run)
    requires Reflects(a) && Quietly(a, b)
    ensures Reflects(b)
  {
    hide OwnSplice, GapFree, NoIdle, Events, TurnEnds;
  }

  // ---------------------------------------------------------------- processing one notice

  lemma AppendedTurn(seen: seq<Notice>, start: nat, n: Notice)
    requires start <= |seen|
    ensures var turn := seen[start..];
      && (seen + [n])[start..] == turn + [n] && (seen + [n])[start..|seen|] == turn
      && Events(turn + [n]) == (if n.Session? then Events(turn) + [n.event] else Events(turn))
      && (NoIdle(turn) && n != Status(true) ==> NoIdle(turn + [n]))
  {
    var turn := seen[start..];
    assert (seen + [n])[start..] == turn + [n];
    assert (turn + [n])[..|turn|] == turn;
  }

  lemma AppendedEnds(events: seq<D.Event>, e: D.Event)
    ensures var m := D.MapEvent(e);
      TurnEnds(events + [e]) == if m.Some? && m.value.terminal.Some? then TurnEnds(events) + [m.value.terminal.value]
          else TurnEnds(events)
  {
    assert (events + [e])[..|events|] == events;
  }

  /** Every turn end reads as a result its event type agrees with. */
  lemma {:induction false} EndsAgree(events: seq<D.Event>)
    ensures forall i :: 0 <= i < |TurnEnds(events)| ==>
      var o := TurnEnds(events)[i];
      o.eventType == TerminalType(o.result.status) && (!o.valid ==> o.result.status.Failed?)
  {
    hide D.MapEvent, TerminalType;
    if events != [] {
      EndsAgree(events[..|events| - 1]);
      if D.MapEvent(events[|events| - 1]).Some? {
        D.MappingIsPortable(events[|events| - 1]);
      }
    }
  }

  /** Notices that are neither session events nor idle do not count. */
  lemma PassedOver(r: Run, n: Notice)
    requires Reflects(r) && r.result.None? && !n.Session? && n != Status(true)
    ensures Reflects(Noted(r, n))
  {
    if r.correlated {
      AppendedTurn(r.seen, r.start, n);
      hide Events, TurnEnds, OwnSplice;
    }
  }

  /** At idle the fields tell whether the turn so far was a completed one. */
  lemma IdleHistory(r: Run)
    requires Follows(r)
    ensures var noted := Noted(r, Status(true));
      r.result.None? && r.terminalCount == 1 ==>
        && r.terminal.Some? && r.terminal.value.eventType == TerminalType(r.terminal.value.result.status)
        && (!r.terminal.value.valid ==> r.terminal.value.result.status.Failed?)
        && (r.terminal.value.result.status.Completed? ==> CompletedHistory(noted.seen, r.start, OwnId(r)))
  {
    if r.result.None? && r.terminalCount == 1 {
      AppendedTurn(r.seen, r.start, Status(true));
      EndsAgree(Events(r.seen[r.start..]));
      hide Events, TurnEnds, OwnSplice, GapFree, NoIdle;
    }
  }

  lemma FinishReflects(r: Run, result: RunResult, kind: EventType)
    requires Core(r) && r.result.None? && kind == TerminalType(result.status)
    requires result.status.Completed? ==> r.correlated && CompletedHistory(r.seen, r.start, OwnId(r))
    ensures var t := Finish(r, result, kind);
      Core(t) && Reflects(t)
  {
    FinishKeeps(r, result, kind);
    FinishFrame(r, result, kind);
    hide Finish, OutletInv, CompletedHistory, Follows;
  }

  lemma IdleKeeps(r: Run)
    requires Core(r) && Reflects(r) && r.correlated && r.result.None?
    ensures var t := FinishAtIdle(Noted(r, Status(true)));
      Core(t) && Reflects(t)
  {
    hide Core, Follows, CompletedHistory, Finish, IdleFailure, Observed;
    IdleHistory(r);
    NotedCore(r, Status(true));
    var noted := Noted(r, Status(true));
    hide Reflects;
    if r.terminalCount == 1 {
      var o := r.terminal.value;
      FinishReflects(noted, Observed(noted, o), if o.valid then o.eventType else RunFailed);
    } else {
      FinishReflects(noted, IdleFailure(r.terminalCount), RunFailed);
    }
  }

  lemma GapFreeAppend(events: seq<D.Event>, base: nat, e: D.Event)
    requires GapFree(events, base) && e.seqNo == base + 1 + |events|
    requires D.MapEvent(e).Some? && D.MapEvent(e).value.insertedCount == 0
    ensures GapFree(events + [e], base)
  {
    hide D.MapEvent;
  }

  lemma SpliceIsEvent(n: Notice, id: string)
    requires OwnSplice(n, id)
    ensures n.Session?
  {
  }

  lemma NextFollows(id: string, seen: seq<Notice>, start: nat, last: nat, count: nat,
      terminal: Option<D.TerminalObservation>, e: D.Event)
    requires FollowsTurn(id, seen, start, Some(last), count, terminal) && e.seqNo == last + 1
    requires D.MapEvent(e).Some? && D.MapEvent(e).value.insertedCount == 0
    ensures var end := D.MapEvent(e).value.terminal;
      FollowsTurn(id, seen + [Session(e)], start, Some(e.seqNo), if end.Some? then count + 1 else count,
                  if end.Some? && terminal.None? then end else terminal)
  {
    hide Events, TurnEnds, OwnSplice, NoIdle, GapFree, D.MapEvent;
    SpliceIsEvent(seen[start - 1], id);
    var turn, more := seen[start..], seen + [Session(e)];
    AppendedTurn(seen, start, Session(e));
    AppendedEnds(Events(turn), e);
    GapFreeAppend(Events(turn), seen[start - 1].event.seqNo, e);
    assert more[start - 1] == seen[start - 1];
    var now := more[start..];
    assert now == turn + [Session(e)];
    assert Events(now) == Events(turn) + [e];
    assert NoIdle(now);
  }

  lemma CountedFollows(r: Run, e: D.Event)
    requires Follows(r) && r.result.None? && r.last.Some? && e.seqNo == r.last.value + 1
    requires D.MapEvent(e).Some? && D.MapEvent(e).value.insertedCount == 0
    ensures Follows(Counted(Noted(r, Session(e)), e, D.MapEvent(e).value))
  {
    hide FollowsTurn, D.MapEvent;
    NextFollows(OwnId(r), r.seen, r.start, r.last.value, r.terminalCount, r.terminal, e);
  }

  lemma FollowKeeps(r: Run, e: D.Event)
    requires Core(r) && Reflects(r) && r.correlated && r.result.None?
    ensures var p := Follow(Noted(r, Session(e)), e);
      p.Some? ==>
        Core(p.value) && Reflects(p.value)
  {
    var noted := Noted(r, Session(e));
    hide OutletInv, OwnSplice, Follows, TurnEnds, Events;
    if r.last.None? || e.seqNo != r.last.value + 1 {
      RefusedReflects(noted, "provider_api_incompatible");
    } else if D.MapEvent(e).Some? {
      var m := D.MapEvent(e).value;
      D.MappingIsPortable(e);
      if m.insertedCount > 0 {
        RefusedReflects(noted, "competing_prompt");
      } else {
        CountedFollows(r, e);
        var counted := Counted(noted, e, m);
        assert Core(counted) && Reflects(counted);
        hide Core, Reflects, EmitAll;
        EmitAllKeeps(counted, m.events);
        QuietlyReflects(counted, EmitAll(counted, m.events));
      }
    }
  }

  lemma RefusedReflects(r: Run, reason: string)
    requires Core(r) && r.result.None?
    ensures Core(Refused(r, reason)) && Reflects(Refused(r, reason))
  {
    RefusedKeeps(r, reason);
    hide Core, Follows, Refused;
  }

  lemma CorrelateKeeps(r: Run, e: D.Event)
    requires Core(r) && Reflects(r) && !r.correlated && r.result.None? && r.messageId.Some?
    ensures var p := Correlate(Noted(r, Session(e)), e);
      p.Some? ==>
        Core(p.value) && Reflects(p.value)
  {
    var noted := Noted(r, Session(e));
    hide OutletInv;
    if e.kind.Spliced? && D.MapEvent(e).Some? {
      var m := D.MapEvent(e).value;
      D.MappingIsPortable(e);
      if OwnId(r) in m.insertedIds {
        if InsertsOnly(m, OwnId(r)) {
          var own := noted.(correlated := true, last := Some(e.seqNo), start := |noted.seen|);
          assert own.seen[own.start..] == [];
          assert Core(own) && Reflects(own);
          hide Core, Reflects, EmitAll;
          EmitAllKeeps(own, m.events);
          QuietlyReflects(own, EmitAll(own, m.events));
        } else {
          RefusedReflects(noted, "ambiguous_prompt_receipt");
        }
      }
    }
  }

  /** After settling nothing a notice does shows: result, trace and what led to them stay. */
  lemma SettledProcessed(r: Run, n: Notice)
    requires Core(r) && r.result.Some?
    ensures var p := Processed(r, n);
      p.Some? ==>
        && Core(p.value) && p.value.result == r.result && p.value.outlet == r.outlet && p.value.seen == r.seen
        && (r.correlated ==> p.value.correlated && p.value.start == r.start)
  {
    hide OutletInv, IsTerminalType;
    match n
    case Session(e) =>
      if r.correlated {
        SettledFollow(r, e);
      } else {
        SettledCorrelate(r, e);
      }
    case _ =>
  }

  lemma SettledFollow(r: Run, e: D.Event)
    requires Core(r) && r.result.Some?
    ensures var p := Follow(r, e);
      p.Some? ==>
        && Core(p.value)
        && p.value == r.(connected := p.value.connected, last := p.value.last, terminal := p.value.terminal,
                         terminalCount := p.value.terminalCount)
  {
    hide OutletInv, D.MapEvent;
    RefusedKeeps(r, "provider_api_incompatible");
    RefusedKeeps(r, "competing_prompt");
    if D.MapEvent(e).Some? {
      SettledEmits(Counted(r, e, D.MapEvent(e).value), D.MapEvent(e).value.events);
    }
    SettledRefusal(r, "provider_api_incompatible");
    SettledRefusal(r, "competing_prompt");
    hide Refused, EmitAll;
  }

  lemma SettledRefusal(r: Run, reason: string)
    requires Core(r) && r.result.Some?
    ensures Refused(r, reason) == r.(connected := false)
  {
  }

  lemma {:induction false} SettledEmits(r: Run, events: seq<D.MappedEvent>)
    requires r.result.Some?
    ensures EmitAll(r, events) == r
  {
    if events != [] {
      SettledEmits(r, events[..|events| - 1]);
    }
  }

  lemma SettledCorrelate(r: Run, e: D.Event)
    requires Core(r) && r.result.Some?
    ensures var p := Correlate(r, e);
      p.Some? ==>
        && Core(p.value)
        && p.value == r.(connected := p.value.connected, correlated := p.value.correlated, last := p.value.last,
            start := p.value.start)
  {
    hide OutletInv, D.MapEvent;
    SettledRefusal(r, "ambiguous_prompt_receipt");
    if D.MapEvent(e).Some? {
      SettledEmits(r.(correlated := true, last := Some(e.seqNo), start := |r.seen|), D.MapEvent(e).value.events);
    }
    hide Refused, EmitAll;
  }

  lemma LiveProcessedKeeps(r: Run, n: Notice)
    requires Inv(r) && r.messageId.Some? && r.result.None?
    ensures Processed(r, n).Some? ==> Inv(Processed(r, n).value)
  {
    hide Follow, Correlate, FinishAtIdle, Follows, CompletedHistory, Core;
    match n
    case Raw =>
      PassedOver(r, n);
      NotedCore(r, n);
      if r.correlated {
        RawKeeps(Noted(r, n));
      }
    case Status(idle) =>
      NotedCore(r, n);
      if !idle {
        PassedOver(r, n);
      } else if r.correlated {
        IdleKeeps(r);
      }
    case Session(e) => if r.correlated { FollowKeeps(r, e); } else { CorrelateKeeps(r, e); }
  }

  lemma NotedCore(r: Run, n: Notice)
    requires Core(r)
    ensures Core(Noted(r, n))
  {
    hide OutletInv;
  }

  lemma RawKeeps(r: Run)
    requires Core(r) && Reflects(r)
    ensures var t := Emit(r, D.Plain(Provider));
      Core(t) && Reflects(t)
  {
    EmitKeeps(r, D.Plain(Provider));
    QuietlyReflects(r, Emit(r, D.Plain(Provider)));
    hide Core, Reflects, Emit;
  }

  lemma ProcessedKeeps(r: Run, n: Notice)
    requires Inv(r) && r.messageId.Some?
    ensures Processed(r, n).Some? ==> Inv(Processed(r, n).value)
  {
    if r.result.Some? {
      SettledProcessed(r, n);
      hide Core, OutletInv, CompletedHistory, Processed;
    } else {
      LiveProcessedKeeps(r, n);
    }
  }
}
