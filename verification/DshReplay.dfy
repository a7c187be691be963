/** Notices buffered before the prompt reply, replayed when it comes, against the same notices received after it. */
module DshReplay {
  import opened Prelude
  import opened JsonValues
  import opened Contracts
  import opened RunEvents
  import opened DshRun
  import opened DshRunHistory
  import D = DshProtocol

  ghost predicate SameOutcome(a: Run, b: Run) {
    a.result == b.result && a.outlet == b.outlet
  }

  /** The notices as the client would hand them on after the reply. */
  function ReceivedAll(r: Run, notices: seq<Notice>): Run
    decreases |notices|
  {
    if notices == [] then r else ReceivedAll(Received(r, notices[0]), notices[1..])
  }

  // ---------------------------------------------------------------- which buffers replay to their end

  /** How far the run's own turn has been read: the number of its last event, None before the own splice. */
  function At(r: Run): Option<nat> {
    if r.correlated then r.last else None
  }

  ghost predicate Anchored(r: Run) {
    r.correlated ==> r.last.Some?
  }

  /** Whether replay looks into an event at all. */
  predicate Looked(at: Option<nat>, e: D.Event) {
    if at.None? then e.kind.Spliced? else e.seqNo == at.value + 1
  }

  /** How one notice moves the place in the turn; None: its mapping throws. */
  function Placed(at: Option<nat>, n: Notice, id: string): Option<Option<nat>> {
    if !n.Session? || !Looked(at, n.event) then Some(at)
    else
      match D.MapEvent(n.event)
      case None => None
      case Some(m) => Some(if (if at.None? then InsertsOnly(m, id) else m.insertedCount == 0) then Some(n.event.seqNo)
          else at)
  }

  /** Every buffered event that replay looks into is understood. */
  predicate Understood(notices: seq<Notice>, id: string, at: Option<nat>)
    decreases |notices|
  {
    notices == [] || (Placed(at, notices[0], id).Some?
        && Understood(notices[1..], id, Placed(at, notices[0], id).value))
  }

  lemma EmitPlace(r: Run, m: D.MappedEvent)
    ensures Emit(r, m).correlated == r.correlated && Emit(r, m).last == r.last
    ensures r.result.None? && Emit(r, m).result.Some? ==> !Emit(r, m).connected
  {
    hide Emitted, Finished;
  }

  lemma {:induction false} EmitsPlace(r: Run, events: seq<D.MappedEvent>)
    ensures var t := EmitAll(r, events);
      t.correlated == r.correlated && t.last == r.last && (r.result.None? && t.result.Some? ==> !t.connected)
  {
    hide Emit;
    if events != [] {
      var before := EmitAll(r, events[..|events| - 1]);
      EmitsPlace(r, events[..|events| - 1]);
      EmitPlace(before, events[|events| - 1]);
      if before.result.Some? {
        SettledEmits(before, [events[|events| - 1]]);
        assert [events[|events| - 1]][..0] == [];
        assert EmitAll(before, [events[|events| - 1]]) == Emit(before, events[|events| - 1]);
      }
    }
  }

  lemma RefusedPlace(r: Run, reason: string)
    ensures Refused(r, reason).correlated == r.correlated && Refused(r, reason).last == r.last
        && !Refused(r, reason).connected
  {
    hide Finished;
  }

  /** Settled or not, a notice throws exactly when the buffer says so, and moves the place as it says. */
  lemma ProcessedPlace(r: Run, n: Notice)
    requires Anchored(r)
    ensures var p, at := Processed(r, n), Placed(At(r), n, OwnId(r));
      && (p.Some? <==> at.Some?)
      && (p.Some? ==> Anchored(p.value) && At(p.value) == at.value)
  {
    hide D.MapEvent, EmitAll, Emit, Refused, Finished;
    var noted := Noted(r, n);
    match n
    case Raw => EmitPlace(noted, D.Plain(Provider));
    case Status(_) =>
    case Session(e) =>
      RefusedPlace(noted, "provider_api_incompatible");
      RefusedPlace(noted, "competing_prompt");
      RefusedPlace(noted, "ambiguous_prompt_receipt");
      if D.MapEvent(e).Some? {
        var m := D.MapEvent(e).value;
        EmitsPlace(noted.(correlated := true, last := Some(e.seqNo), start := |noted.seen|), m.events);
        EmitsPlace(Counted(noted, e, m), m.events);
      }
  }

  lemma {:induction false} ReplayedPlace(r: Run, notices: seq<Notice>)
    requires Anchored(r)
    ensures Replayed(r, notices).1 <==> Understood(notices, OwnId(r), At(r))
    decreases |notices|
  {
    hide Processed, Placed, Anchored, At;
    if notices != [] {
      ProcessedPlace(r, notices[0]);
      if Processed(r, notices[0]).Some? {
        ReplayedPlace(Processed(r, notices[0]).value, notices[1..]);
      }
    }
  }

  // ---------------------------------------------------------------- result and events

  lemma {:induction false} SettledReplays(r: Run, notices: seq<Notice>)
    requires Core(r) && r.result.Some?
    ensures SameOutcome(Replayed(r, notices).0, r)
    decreases |notices|
  {
    hide Processed, Core;
    if notices != [] {
      SettledProcessed(r, notices[0]);
      if Processed(r, notices[0]).Some? {
        SettledReplays(Processed(r, notices[0]).value, notices[1..]);
      }
    }
  }

  lemma {:induction false} SettledReceives(r: Run, notices: seq<Notice>)
    requires r.result.Some?
    ensures ReceivedAll(r, notices) == r
    decreases |notices|
  {
    if notices != [] {
      SettledReceives(r, notices[1..]);
    }
  }

  /** A replay that does not throw shares result and events with one-by-one delivery, although it does not
      stop at the notice that settles the run. */
  lemma {:induction false} ReplayedOutcome(r: Run, notices: seq<Notice>)
    requires Inv(r) && r.messageId.Some? && !r.discarded && Replayed(r, notices).1
    ensures SameOutcome(Replayed(r, notices).0, ReceivedAll(r, notices))
    decreases |notices|
  {
    hide Processed, Core, Reflects;
    if r.result.Some? {
      assert Core(r);
      SettledReplays(r, notices);
      SettledReceives(r, notices);
    } else if notices != [] {
      ProcessedKeeps(r, notices[0]);
      ReplayedOutcome(Processed(r, notices[0]).value, notices[1..]);
    }
  }

  /** Replaying the buffer gives the host the run, with the result and the events that receiving the notices
      after the reply would give, exactly when every event replay looks into is understood. Otherwise the
      host gets an error: the run is discarded and the connection closed. */
  lemma ReplayMatchesReceiving(r: Run, id: string)
    requires Inv(r) && !r.discarded && r.messageId.None? && r.result.None?
    ensures var t := Acknowledged(r, id);
      && (!t.discarded && SameOutcome(t, ReceivedAll(Named(r, id), r.pending)) <==> Understood(r.pending, id, None))
      && (t.discarded ==> !t.connected)
  {
    assert At(Named(r, id)) == None && Anchored(Named(r, id));
    hide Inv, Replayed, ReceivedAll, Understood;
    NamedKeeps(r, id);
    ReplayedPlace(Named(r, id), r.pending);
    ReplayedKeeps(Named(r, id), r.pending);
    if Replayed(Named(r, id), r.pending).1 {
      ReplayedOutcome(Named(r, id), r.pending);
    }
  }

  // ---------------------------------------------------------------- the connection

  lemma {:induction false} EventsSplit(n: Notice, rest: seq<Notice>)
    ensures Events([n] + rest) == (if n.Session? then [n.event] else []) + Events(rest)
  {
    var all := [n] + rest;
    if rest == [] {
      assert all[..0] == [];
    } else {
      assert all[..|all| - 1] == [n] + rest[..|rest| - 1];
      EventsSplit(n, rest[..|rest| - 1]);
    }
  }

  lemma GapFreeSplit(e: D.Event, rest: seq<D.Event>, base: nat)
    ensures GapFree([e] + rest, base) <==>
      e.seqNo == base + 1 && D.MapEvent(e).Some? && D.MapEvent(e).value.insertedCount == 0 && GapFree(rest, e.seqNo)
  {
    hide D.MapEvent;
    var all := [e] + rest;
    if GapFree(all, base) {
      assert all[0] == e;
      forall i | 0 <= i < |rest|
        ensures rest[i].seqNo == base + 2 + i && D.MapEvent(rest[i]).Some?
            && D.MapEvent(rest[i]).value.insertedCount == 0
      {
        assert rest[i] == all[i + 1];
      }
    }
  }

  lemma {:induction false} ClosedReplays(r: Run, notices: seq<Notice>)
    requires Core(r) && r.result.Some? && !r.connected
    ensures !Replayed(r, notices).0.connected
    decreases |notices|
  {
    hide Processed, Core;
    if notices != [] && Processed(r, notices[0]).Some? {
      SettledProcessed(r, notices[0]);
      ClosedProcessed(r, notices[0]);
      ClosedReplays(Processed(r, notices[0]).value, notices[1..]);
    }
  }

  lemma ClosedProcessed(r: Run, n: Notice)
    requires Core(r) && r.result.Some? && !r.connected
    ensures Processed(r, n).Some? ==> !Processed(r, n).value.connected
  {
    hide D.MapEvent, OutletInv, EmitAll;
    if n.Session? && D.MapEvent(n.event).Some? {
      var m := D.MapEvent(n.event).value;
      SettledEmits(r.(correlated := true, last := Some(n.event.seqNo), start := |r.seen|), m.events);
      SettledEmits(Counted(r, n.event, m), m.events);
    }
  }

  /** One notice behind the settling one leaves the connection open exactly when it is no event or the next one
      of the turn, understood and inserting nothing. */
  lemma OpenProcessed(r: Run, n: Notice)
    requires Core(r) && r.result.Some? && r.correlated && r.last.Some? && r.connected
    ensures var p := Processed(r, n);
      (p.Some? && p.value.connected) <==>
        (n.Session? ==>
           && n.event.seqNo == r.last.value + 1 && D.MapEvent(n.event).Some?
               && D.MapEvent(n.event).value.insertedCount == 0)
    ensures var p := Processed(r, n);
      p.Some? && p.value.connected ==> p.value.last == if n.Session? then Some(n.event.seqNo) else r.last
  {
    hide D.MapEvent, OutletInv, EmitAll;
    if n.Session? && D.MapEvent(n.event).Some? {
      SettledEmits(Counted(r, n.event, D.MapEvent(n.event).value), D.MapEvent(n.event).value.events);
    }
  }

  /** What is replayed behind the notice that settled the run neither throws nor closes the connection
      exactly when the run's own turn goes on in it: gap-free events, understood, with no insertion. */
  lemma {:induction false} ConnectionSurvives(r: Run, rest: seq<Notice>)
    requires Core(r) && r.result.Some? && r.correlated && r.last.Some? && r.connected
    ensures Replayed(r, rest).1 && Replayed(r, rest).0.connected <==> GapFree(Events(rest), r.last.value)
    decreases |rest|
  {
    assert rest == [] ==> Events(rest) == [] && GapFree([], r.last.value);
    hide Processed, Core, GapFree, Events, D.MapEvent;
    if rest != [] {
      var n, more := rest[0], rest[1..];
      assert rest == [n] + more;
      EventsSplit(n, more);
      OpenProcessed(r, n);
      if n.Session? {
        GapFreeSplit(n.event, Events(more), r.last.value);
      } else {
        assert [] + Events(more) == Events(more);
      }
      if Processed(r, n).Some? {
        SettledProcessed(r, n);
        if Processed(r, n).value.connected {
          ConnectionSurvives(Processed(r, n).value, more);
        } else {
          ClosedReplays(Processed(r, n).value, more);
        }
      }
    }
  }

  /** How many of the notices are received until the run settles. */
  function Until(r: Run, notices: seq<Notice>): (k: nat)
    ensures k <= |notices|
    decreases |notices|
  {
    if notices == [] || r.result.Some? then 0 else 1 + Until(Received(r, notices[0]), notices[1..])
  }

  /** Only idle settles a run and leaves its connection open, and only a correlated one. */
  lemma LiveSettles(r: Run, n: Notice)
    requires Anchored(r) && r.result.None?
    ensures var p := Processed(r, n);
      p.Some? && p.value.result.Some? && p.value.connected ==> p.value.correlated && p.value.last.Some?
  {
    hide D.MapEvent, EmitAll, Emit, Refused, Finished;
    var noted := Noted(r, n);
    match n
    case Raw => EmitPlace(noted, D.Plain(Provider));
    case Status(_) =>
    case Session(e) =>
      RefusedPlace(noted, "provider_api_incompatible");
      RefusedPlace(noted, "competing_prompt");
      RefusedPlace(noted, "ambiguous_prompt_receipt");
      if D.MapEvent(e).Some? {
        var m := D.MapEvent(e).value;
        EmitsPlace(noted.(correlated := true, last := Some(e.seqNo), start := |noted.seen|), m.events);
        EmitsPlace(Counted(noted, e, m), m.events);
      }
  }

  /** Over a whole buffer: replay keeps the connection as one-by-one delivery does exactly when the notices
      behind the one that settles the run go on with its turn. */
  lemma {:induction false} ReplayedConnection(r: Run, notices: seq<Notice>)
    requires Inv(r) && Anchored(r) && r.messageId.Some? && !r.discarded && r.result.None? && Replayed(r, notices).1
    ensures var t, u := Replayed(r, notices).0, ReceivedAll(r, notices);
      && (u.result.Some? && u.connected ==> u.last.Some?)
      && (t.connected == u.connected <==>
            (u.result.Some? && u.connected ==> GapFree(Events(notices[Until(r, notices)..]), u.last.value)))
    decreases |notices|
  {
    hide Processed, Core, Reflects, GapFree, Events;
    if notices != [] {
      var n, more := notices[0], notices[1..];
      var p := Processed(r, n).value;
      ProcessedKeeps(r, n);
      ProcessedPlace(r, n);
      assert notices[Until(r, notices)..] == more[Until(p, more)..];
      if p.result.None? {
        ReplayedConnection(p, more);
      } else {
        SettledReceives(p, more);
        LiveSettles(r, n);
        if p.connected {
          ConnectionSurvives(p, more);
        } else {
          ClosedReplays(p, more);
        }
      }
    }
  }

  /** The whole comparison. Replay is one-by-one delivery in result, events and connection exactly when every
      event it looks into is understood and, once the run has settled with the connection open, the notices
      left in the buffer only go on with its turn. `Understood` and `GapFree` are read off the buffer; where in
      it one-by-one delivery settles, and whether the connection is then open, also depends on the room in the
      event queue. With room for every event it is the first idle behind the own splice, unless an event out of
      sequence or a competing insertion comes before. */
  lemma ReplayIsReceiving(r: Run, id: string)
    requires Inv(r) && !r.discarded && r.messageId.None? && r.result.None?
    ensures var t, named := Acknowledged(r, id), Named(r, id);
      var u := ReceivedAll(named, r.pending);
      var left := r.pending[Until(named, r.pending)..];
      !t.discarded && SameOutcome(t, u) && t.connected == u.connected <==>
        && Understood(r.pending, id, None)
        && (u.result.Some? && u.connected ==> u.last.Some? && GapFree(Events(left), u.last.value))
  {
    assert At(Named(r, id)) == None && Anchored(Named(r, id));
    hide Inv, Replayed, ReceivedAll, Understood, GapFree, Events, Until;
    ReplayMatchesReceiving(r, id);
    NamedKeeps(r, id);
    ReplayedPlace(Named(r, id), r.pending);
    if Replayed(Named(r, id), r.pending).1 {
      ReplayedConnection(Named(r, id), r.pending);
    }
  }

  // ---------------------------------------------------------------- two buffers

  function Record(fields: map<string, Json>): Json {
    Obj([], fields)
  }

  const OWN_MESSAGE := Record(map[
    "id" := Str("m"), "role" := Str("user"), "source" := Record(map["kind" := Str("user")]),
    "content" := Arr([Record(map["type" := Str("text")])])])
  const OWN_SPLICE := Session(D.Event(D.Spliced, 1, Record(map[
    "target" := Str("next-turn"), "start" := Int(0),
    "inserted" := Arr([OWN_MESSAGE])]), false))
  const TURN_END := Session(D.Event(D.TurnEnd, 2, Record(map[
    "turn" := Int(1), "reason" := Record(map["kind" := Str("completed")])]), false))
  /** Behind the turn end: an event out of sequence, and one in sequence that no mapping understands. */
  const STRAY := Session(D.Event(D.StepStart, 9, Record(map[]), false))
  const TORN := Session(D.Event(D.Spliced, 3, Record(map[]), false))

  lemma SingleMessage(message: Json)
    requires D.ParseUserMessage(message).Some?
    ensures D.ParseUserMessages([message]) == Some([D.ParseUserMessage(message).value])
  {
    var parsed, none := D.ParseUserMessage(message).value, D.ParseUserMessages([message][1..]).value;
    assert [parsed] + none == [parsed];
  }

  lemma OwnMessageParses()
    ensures D.ParseUserMessages([OWN_MESSAGE]) == Some([D.InboxMessage("m", "user", true)])
  {
    assert D.ParseUserMessage(OWN_MESSAGE) == Some(D.InboxMessage("m", "user", true));
    hide D.ParseUserMessage, D.ParseUserMessages;
    SingleMessage(OWN_MESSAGE);
  }

  lemma OwnSpliceMaps()
    ensures D.MapEvent(OWN_SPLICE.event) == Some(D.Mapping([D.Plain(Provider)], 1, ["m"], None))
  {
    var parsed := D.InboxMessage("m", "user", true);
    assert D.UserIds([parsed]) == ["m"] by {
      assert [parsed][1..] == [] && ["m"] + D.UserIds([]) == ["m"];
    }
    hide D.ParseUserMessage, D.ParseUserMessages, D.UserIds;
    OwnMessageParses();
    assert OWN_SPLICE.event.data.Get("inserted").items == [OWN_MESSAGE];
  }

  const COMPLETED := D.Outcome(Completed, "completed", None)

  lemma TurnEndMaps()
    ensures D.MapEvent(TURN_END.event) == Some(D.Mapping([], 0, [],
        Some(D.TerminalObservation(COMPLETED, RunCompleted, true))))
    ensures D.MapEvent(TORN.event).None?
  {
  }

  /** The three notices settle the run as completed and leave the connection open. */
  lemma OwnTurn() returns (a: Run, b: Run, c: Run)
    ensures Processed(Named(Started("run", 8), "m"), OWN_SPLICE) == Some(a) && a.result.None?
    ensures Processed(a, TURN_END) == Some(b) && b.result.None?
    ensures Processed(b, Status(true)) == Some(c) && c.result == Some(COMPLETED)
    ensures c.correlated && c.connected && c.last == Some(2)
  {
    OwnSpliceMaps();
    TurnEndMaps();
    hide D.MapEvent;
    var r := Named(Started("run", 8), "m");
    var own := Noted(r, OWN_SPLICE).(correlated := true, last := Some(1), start := 1);
    a := Processed(r, OWN_SPLICE).value;
    assert OwnId(r) == "m" && "m" in ["m"];
    assert [D.Plain(Provider)][..0] == [];
    assert a == EmitAll(own, [D.Plain(Provider)]) == Emit(own, D.Plain(Provider));
    assert a.result.None? && a.correlated && a.last == Some(1);
    b := Processed(a, TURN_END).value;
    c := Processed(b, Status(true)).value;
  }

  function Turn(last: Notice): seq<Notice> {
    [OWN_SPLICE, TURN_END, Status(true), last]
  }

  /** The four notices come before the prompt reply. */
  function Early(last: Notice): Run {
    Acknowledged(ReceivedAll(Started("run", 8), Turn(last)), "m")
  }

  /** The four notices come after it. */
  function Late(last: Notice): Run {
    ReceivedAll(Acknowledged(Started("run", 8), "m"), Turn(last))
  }

  lemma {:induction false} Buffers(r: Run, notices: seq<Notice>)
    requires !r.discarded && r.result.None? && r.messageId.None? && |r.pending| + |notices| < r.capacity
    ensures ReceivedAll(r, notices) == r.(pending := r.pending + notices)
    decreases |notices|
  {
    if notices != [] {
      assert r.pending + [notices[0]] + notices[1..] == r.pending + notices;
      Buffers(r.(pending := r.pending + [notices[0]]), notices[1..]);
    } else {
      assert r.pending + notices == r.pending;
    }
  }

  /** The run just acknowledged, with nothing buffered and with the whole turn buffered. */
  lemma BothNamed(last: Notice)
    ensures var r, named := Started("run", 8), Named(Started("run", 8), "m");
      && Inv(named) && named.messageId.Some? && !named.discarded
      && Late(last) == ReceivedAll(named, Turn(last))
      && Early(last) == var (t, understood) := Replayed(named, Turn(last)); if understood then t else Discarded(t, true)
  {
    var r, buffer := Started("run", 8), Turn(last);
    StartedKeeps("run", 8);
    Buffers(r, buffer);
    assert r.pending + buffer == buffer;
    NamedKeeps(r, "m");
    hide Inv, Discarded, ReceivedAll;
    assert Replayed(Named(r, "m"), []) == (Named(r, "m"), true);
    assert Named(r.(pending := buffer), "m") == Named(r, "m");
  }

  lemma OneReplayed(r: Run, t: Run, notices: seq<Notice>)
    requires notices != [] && Processed(r, notices[0]) == Some(t)
    requires r.result.None? && r.messageId.Some? && !r.discarded
    ensures Replayed(r, notices) == Replayed(t, notices[1..]) && ReceivedAll(r, notices) == ReceivedAll(t, notices[1..])
    ensures t.messageId.Some? && !t.discarded
  {
    hide Processed;
  }

  /** Both orders go through the same settled state before the last notice. */
  lemma BothOrders(last: Notice) returns (c: Run)
    ensures c.result == Some(COMPLETED) && c.correlated && c.connected && c.last == Some(2) && Late(last) == c
    ensures !c.discarded && Core(c)
    ensures Early(last) == var (t, understood) := Replayed(c, [last]); if understood then t else Discarded(t, true)
  {
    var named, buffer := Named(Started("run", 8), "m"), Turn(last);
    assert named.result.None?;
    BothNamed(last);
    var a, b;
    a, b, c := OwnTurn();
    hide Processed, Discarded, Started, Inv, Core, Early, Late, Replayed, ReceivedAll, Named;
    OneReplayed(named, a, buffer);
    OneReplayed(a, b, buffer[1..]);
    OneReplayed(b, c, buffer[1..][1..]);
    assert buffer[1..][1..][1..] == [last];
    SettledReceives(c, [last]);
    SoundTurn(named, a, b, c);
  }

  lemma SoundTurn(named: Run, a: Run, b: Run, c: Run)
    requires Inv(named) && named.messageId.Some? && a.messageId.Some? && b.messageId.Some?
    requires Processed(named, OWN_SPLICE) == Some(a) && Processed(a, TURN_END) == Some(b)
    requires Processed(b, Status(true)) == Some(c)
    ensures Core(c)
  {
    hide Core, Reflects, Processed;
    ProcessedKeeps(named, OWN_SPLICE);
    ProcessedKeeps(a, TURN_END);
    ProcessedKeeps(b, Status(true));
  }

  /** An event out of sequence behind the idle that settles the run closes the connection when it is replayed
      and is ignored when it is received; result and events are the same. */
  lemma ReplayMayCloseConnection()
    ensures SameOutcome(Early(STRAY), Late(STRAY)) && Late(STRAY).result == Some(COMPLETED)
    ensures !Early(STRAY).discarded && !Early(STRAY).connected && Late(STRAY).connected
  {
    var c := BothOrders(STRAY);
    SettledRefusal(c, "provider_api_incompatible");
    assert [STRAY][1..] == [];
    assert Processed(c, STRAY) == Some(c.(connected := false));
    hide Early, Late, Processed;
    assert Replayed(c, [STRAY]) == Replayed(c.(connected := false), []);
  }

  /** An event in sequence that no mapping understands costs the host the run when it is replayed, although
      the run had completed, and is ignored when it is received. */
  lemma ReplayMayLoseTheRun()
    ensures Early(TORN).discarded && !Early(TORN).connected
    ensures Late(TORN).result == Some(COMPLETED) && Late(TORN).connected && !Late(TORN).discarded
  {
    var c := BothOrders(TORN);
    TurnEndMaps();
    hide Early, Late;
    assert Processed(c, TORN).None?;
  }
}
