/** What a Codex run's trace tells the host about each interaction, and the run's main result. */
module CodexInteractions {
  import opened Prelude
  import opened Contracts
  import opened RunEvents
  import opened PortableTrace
  import opened JsonValues
  import opened CodexRun
  import P = CodexProtocol

  predicate IsInteraction(kind: EventType) {
    kind.InteractionRequested? || kind.InteractionResolved?
  }

  /** The interaction events of a trace, in order. */
  function Interactions(events: seq<Event>): seq<Event> {
    if events == [] then []
    else
      var last := events[|events| - 1];
      Interactions(events[..|events| - 1]) + if IsInteraction(last.kind) then [last] else []
  }

  function Printed(prefix: string, notes: seq<Note>): seq<Event> {
    if notes == [] then []
    else
      var last := notes[|notes| - 1];
      Printed(prefix, notes[..|notes| - 1]) + [Stamped(prefix, last.kind, last.number)]
  }

  ghost predicate At(notes: seq<Note>, i: nat, kind: EventType, id: nat) {
    i < |notes| && notes[i].kind == kind && notes[i].id == id
  }

  ghost predicate RequestTold(notes: seq<Note>, id: nat) {
    exists i: nat :: At(notes, i, InteractionRequested, id)
  }

  /** The interaction was requested and later resolved. */
  ghost predicate BothTold(notes: seq<Note>, id: nat) {
    exists i: nat, j: nat :: i < j && At(notes, i, InteractionRequested, id) && At(notes, j, InteractionResolved, id)
  }

  /** No interaction is requested twice or resolved twice, and none is told resolved that was not. */
  ghost predicate AtMostOnce(serial: nat, resolved: set<nat>, notes: seq<Note>) {
    && (forall k :: 0 <= k < |notes| ==>
          && IsInteraction(notes[k].kind) && notes[k].id < serial
          && (notes[k].kind.InteractionResolved? ==> notes[k].id in resolved))
    && (forall i, j :: 0 <= i < j < |notes| ==> notes[i].kind != notes[j].kind || notes[i].id != notes[j].id)
  }

  ghost predicate AllTold(serial: nat, resolved: set<nat>, notes: seq<Note>) {
    && (forall id: nat :: id < serial ==> RequestTold(notes, id))
    && (forall id: nat :: id in resolved ==> BothTold(notes, id))
  }

  /** Every number drawn is on an event the queue took: the run never overflowed. */
  ghost predicate Whole(o: Outlet) {
    |Trace(o.queue)| == o.next
  }

  ghost predicate Recorded(o: Outlet, notes: seq<Note>) {
    |Trace(o.queue)| <= o.next && Interactions(Trace(o.queue)) == Printed(o.prefix, notes)
  }

  ghost predicate Spoken(r: Run) {
    && Recorded(r.outlet, r.notes)
    && AtMostOnce(r.serial, r.resolved, r.notes)
    && (Whole(r.outlet) ==> AllTold(r.serial, r.resolved, r.notes))
  }

  // ---------------------------------------------------------------- one event

  lemma TraceStep(o: Outlet, kind: EventType, capacity: nat)
    requires QueueInv(o.queue) && o.final.None?
    ensures var (after, taken) := Emitted(o, kind, capacity);
      && Trace(after.queue) == (if taken then Trace(o.queue) + [Stamped(o.prefix, kind, o.next)] else Trace(o.queue))
      && after.next == o.next + 1 && after.prefix == o.prefix
  {
    hide Trace, Stamped, Pushed;
    QueueSteps(o.queue, Stamped(o.prefix, kind, o.next), capacity);
  }

  lemma LongerTrace(events: seq<Event>, e: Event)
    ensures Interactions(events + [e]) == Interactions(events) + if IsInteraction(e.kind) then [e] else []
  {
    assert (events + [e])[..|events|] == events;
  }

  lemma LongerNotes(prefix: string, notes: seq<Note>, n: Note)
    ensures Printed(prefix, notes + [n]) == Printed(prefix, notes) + [Stamped(prefix, n.kind, n.number)]
  {
    assert (notes + [n])[..|notes|] == notes;
  }

  lemma RecordedStep(o: Outlet, notes: seq<Note>, kind: EventType, id: nat, capacity: nat)
    requires QueueInv(o.queue) && o.final.None? && Recorded(o, notes)
    ensures var (after, taken) := Emitted(o, kind, capacity);
      && Recorded(after, if taken && IsInteraction(kind) then notes + [Note(kind, id, o.next)] else notes)
      && (Whole(after) ==> taken && Whole(o))
  {
    TraceStep(o, kind, capacity);
    LongerTrace(Trace(o.queue), Stamped(o.prefix, kind, o.next));
    LongerNotes(o.prefix, notes, Note(kind, id, o.next));
    StampFields(o.prefix, kind, o.next);
    hide Trace, Stamped, Emitted, Interactions, Printed;
  }

  /** Another event of the run that is not about an interaction. */
  lemma OfferedSpoken(r: Run, kind: EventType)
    requires Core(r) && Spoken(r) && !IsInteraction(kind)
    ensures Spoken(Offered(r, kind).0)
  {
    hide AtMostOnce, AllTold, LiveTrace, ValidTrace, Ledger, Recorded, Whole;
    if r.result.None? {
      RecordedStep(r.outlet, r.notes, kind, 0, r.capacity);
    }
    hide Emitted;
    SettledOffers(r, kind);
  }

  lemma AtLonger(notes: seq<Note>, n: Note)
    ensures forall i: nat, kind: EventType, id: nat :: At(notes, i, kind, id) ==> At(notes + [n], i, kind, id)
    ensures At(notes + [n], |notes|, n.kind, n.id)
  {
  }

  /** A request is told for the first time. */
  lemma RequestedNote(serial: nat, resolved: set<nat>, notes: seq<Note>, number: nat)
    requires AtMostOnce(serial, resolved, notes)
    ensures AtMostOnce(serial + 1, resolved, notes)
    ensures var more := notes + [Note(InteractionRequested, serial, number)];
      AtMostOnce(serial + 1, resolved, more) && (AllTold(serial, resolved, notes) ==>
          AllTold(serial + 1, resolved, more))
  {
    var more := notes + [Note(InteractionRequested, serial, number)];
    AtLonger(notes, Note(InteractionRequested, serial, number));
    if AllTold(serial, resolved, notes) {
      forall id: nat | id < serial + 1 ensures RequestTold(more, id) {
        if id < serial {
          assert RequestTold(notes, id);
        }
      }
      forall id: nat | id in resolved ensures BothTold(more, id) {
        assert BothTold(notes, id);
      }
    }
  }

  /** A resolution is told for the first time, after the request. */
  lemma ResolvedNote(serial: nat, resolved: set<nat>, notes: seq<Note>, id: nat, number: nat)
    requires AtMostOnce(serial, resolved, notes) && id < serial && id !in resolved
    ensures AtMostOnce(serial, resolved + {id}, notes)
    ensures var more := notes + [Note(InteractionResolved, id, number)];
      && AtMostOnce(serial, resolved + {id}, more)
      && (AllTold(serial, resolved, notes) ==> AllTold(serial, resolved + {id}, more))
  {
    var more := notes + [Note(InteractionResolved, id, number)];
    AtLonger(notes, Note(InteractionResolved, id, number));
    if AllTold(serial, resolved, notes) {
      forall x: nat | x < serial ensures RequestTold(more, x) {
        assert RequestTold(notes, x);
      }
      forall x: nat | x in resolved + {id} ensures BothTold(more, x) {
        if x in resolved {
          assert BothTold(notes, x);
        } else {
          assert RequestTold(notes, x);
          var i: nat :| At(notes, i, InteractionRequested, x);
          assert At(more, i, InteractionRequested, x) && At(more, |notes|, InteractionResolved, x);
        }
      }
    }
  }

  lemma LedgerPending(r: Run, id: nat)
    requires Core(r) && id in r.pending
    ensures id < r.serial && id !in r.resolved && r.result.None? && QueueInv(r.outlet.queue) && r.outlet.final.None?
  {
  }

  lemma ResolvedSpoken(r: Run, id: nat)
    requires Core(r) && Spoken(r) && id in r.pending
    ensures Spoken(Told(Forget(r, id), InteractionResolved, id).0)
  {
    LedgerPending(r, id);
    ResolvedNote(r.serial, r.resolved, r.notes, id, r.outlet.next);
    RecordedStep(r.outlet, r.notes, InteractionResolved, id, r.capacity);
    hide Core, AtMostOnce, AllTold, Recorded, Whole, Emitted, QueueInv;
  }

  lemma WantedSpoken(r: Run)
    requires Core(r) && Spoken(r) && r.result.None?
    ensures Spoken(Told(Wanted(r), InteractionRequested, r.serial).0)
  {
    LiveOutlet(r);
    hide Core;
    RequestedNote(r.serial, r.resolved, r.notes, r.outlet.next);
    RecordedStep(r.outlet, r.notes, InteractionRequested, r.serial, r.capacity);
    hide AtMostOnce, AllTold, Recorded, Whole, Emitted, QueueInv;
  }

  lemma LiveOutlet(r: Run)
    requires Core(r) && r.result.None?
    ensures QueueInv(r.outlet.queue) && r.outlet.final.None?
  {
  }

  // ---------------------------------------------------------------- settling

  /** Nothing of the run is pending, or an event of it was lost. */
  ghost predicate Clear(r: Run) {
    r.result.Some? || r.pending == [] || !Whole(r.outlet)
  }

  lemma FinishedTrace(o: Outlet, notes: seq<Note>, status: Status, kind: EventType)
    requires QueueInv(o.queue) && o.final.None? && Recorded(o, notes) && !IsInteraction(kind)
    ensures Recorded(Finished(o, status, kind), notes) && (Whole(Finished(o, status, kind)) ==> Whole(o))
  {
    var e := Stamped(o.prefix, kind, o.next);
    QueueSteps(o.queue, e, 0);
    QueueSteps(PushedTerminal(o.queue, e), e, 0);
    LongerTrace(Trace(o.queue), e);
    StampFields(o.prefix, kind, o.next);
    hide Trace, Stamped, Interactions, Printed, PushedTerminal, Closed;
  }

  lemma MoreResolved(serial: nat, resolved: set<nat>, notes: seq<Note>, more: set<nat>)
    requires AtMostOnce(serial, resolved, notes)
    ensures AtMostOnce(serial, resolved + more, notes)
  {
  }

  lemma FinishSpoken(r: Run, result: RunResult, kind: EventType)
    requires Core(r) && Spoken(r) && Clear(r) && kind == TerminalType(result.status)
    ensures Spoken(Finish(r, result, kind))
  {
    if r.result.None? {
      assert QueueInv(r.outlet.queue) && r.outlet.final.None? && !IsInteraction(kind);
      FinishedTrace(r.outlet, r.notes, result.status, kind);
      MoreResolved(r.serial, r.resolved, r.notes, Members(r.pending));
      assert r.pending == [] ==> r.resolved + Members(r.pending) == r.resolved;
      hide Core, AtMostOnce, AllTold, Recorded, Whole, Finished, QueueInv, Members;
    }
  }

  /** Closing tells every pending interaction resolved, as far as there is room, and leaves none of them. */
  lemma {:induction false} ClosedSpoken(r: Run, ids: seq<nat>)
    requires Core(r) && Spoken(r)
    ensures var t := ResolveClosed(r, ids);
      Spoken(t) && forall id :: id in t.pending ==> id in r.pending && id !in ids
    decreases |ids|
  {
    hide Core, Spoken, Told, Without;
    if ids != [] {
      var rest := ids[1..];
      assert ids == [ids[0]] + rest;
      if ids[0] in r.pending {
        var next := Told(Forget(r, ids[0]), InteractionResolved, ids[0]).0;
        ForgetKeeps(r, ids[0]);
        ToldKeeps(Forget(r, ids[0]), InteractionResolved, ids[0]);
        ResolvedSpoken(r, ids[0]);
        assert forall id :: id in next.pending ==> id in r.pending && id != ids[0];
        ClosedSpoken(next, rest);
      } else {
        ClosedSpoken(r, rest);
      }
    }
  }

  lemma Disconnected(r: Run)
    requires Core(r) && Spoken(r)
    ensures Core(r.(clientOpen := false)) && Spoken(r.(clientOpen := false))
  {
    hide OutletInv, Ledger, Recorded, AtMostOnce, AllTold, Whole;
  }

  lemma SomeMember(ids: seq<nat>)
    ensures ids == [] || exists id :: id in ids
  {
    assert ids == [] || ids[0] in ids;
  }

  lemma ClosedClears(r: Run)
    requires Core(r) && Spoken(r)
    ensures var t := ResolveClosed(r, r.pending); Core(t) && Spoken(t) && Clear(t)
  {
    hide Core, Spoken, ResolveClosed, Whole;
    ResolveClosedKeeps(r, r.pending);
    ClosedSpoken(r, r.pending);
    SomeMember(ResolveClosed(r, r.pending).pending);
  }

  lemma AbortSpoken(r: Run)
    requires Core(r) && Spoken(r)
    ensures Spoken(AbortClient(r))
  {
    hide Core, Spoken, ResolveClosed, Finish, Clear;
    if r.clientOpen {
      var closed := r.(clientOpen := false);
      Disconnected(r);
      ClosedClears(closed);
      FinishSpoken(ResolveClosed(closed, r.pending), RunResult(ConnectionAborted, None, None, None),
          ConnectionAbortedEvent);
    }
  }

  // ---------------------------------------------------------------- the steps

  /** Nothing new is pending. */
  ghost predicate Drained(a: Run, b: Run) {
    a.pending == [] ==> b.pending == []
  }

  lemma AbortDrains(r: Run)
    ensures Drained(r, AbortClient(r))
  {
    hide Told, Finished;
  }

  lemma EmitSpoken(r: Run, kind: EventType)
    requires Core(r) && Spoken(r) && !IsInteraction(kind) && !IsTerminalType(kind)
    ensures Spoken(Emit(r, kind)) && Drained(r, Emit(r, kind))
  {
    hide Core, Spoken, AbortClient, IsTerminalType;
    if r.result.None? {
      OfferedKeeps(r, kind);
      OfferedSpoken(r, kind);
      hide Offered;
      AbortSpoken(Offered(r, kind).0);
      AbortDrains(Offered(r, kind).0);
    }
  }

  lemma ResolveSpoken(r: Run, id: nat)
    requires Core(r) && Spoken(r)
    ensures Spoken(Resolve(r, id))
    ensures forall x :: x in Resolve(r, id).pending ==> x in r.pending && x != id
  {
    if id in r.pending {
      LedgerPending(r, id);
      hide Core, Spoken, Told, AbortClient, Without;
      var next := Told(Forget(r, id), InteractionResolved, id).0;
      ForgetKeeps(r, id);
      ToldKeeps(Forget(r, id), InteractionResolved, id);
      ResolvedSpoken(r, id);
      AbortSpoken(next);
      AbortShrinks(next);
    }
  }

  lemma AbortShrinks(r: Run)
    requires Core(r) && Spoken(r)
    ensures forall x :: x in AbortClient(r).pending ==> x in r.pending
  {
    if r.clientOpen {
      hide Core, Spoken, ResolveClosed;
      Disconnected(r);
      ClosedSpoken(r.(clientOpen := false), r.pending);
    }
  }

  lemma {:induction false} ResolveAllSpoken(r: Run, ids: seq<nat>)
    requires Core(r) && Spoken(r)
    ensures var t := ResolveAll(r, ids);
      Spoken(t) && forall x :: x in t.pending ==> x in r.pending && x !in ids
    decreases |ids|
  {
    hide Core, Spoken, Resolve;
    if ids != [] {
      assert ids == [ids[0]] + ids[1..];
      ResolveKeeps(r, ids[0]);
      ResolveSpoken(r, ids[0]);
      ResolveAllSpoken(Resolve(r, ids[0]), ids[1..]);
    }
  }

  lemma EmitMappedSpoken(r: Run, m: P.Mapped)
    requires Core(r) && Spoken(r) && P.Portable(m) && (m.terminal.Some? ==> Clear(r))
    ensures Spoken(EmitMapped(r, m)) && Drained(r, EmitMapped(r, m))
  {
    hide OutletInv, Ledger, Recorded, AtMostOnce, AllTold, Whole, Finish, Emit, Merged, IsTerminalType, TerminalType;
    if r.result.None? {
      var noted := r.(finalMessage := if m.finalMessage.Some? then m.finalMessage else r.finalMessage,
                      usage := if m.usage.Some? then m.usage else r.usage);
      assert Core(noted) && Spoken(noted) && (m.terminal.Some? ==> Clear(noted));
      hide Core, Spoken;
      if m.terminal.Some? {
        FinishSpoken(noted, Merged(noted, m.terminal.value), m.kind);
        FinishDrains(noted, Merged(noted, m.terminal.value), m.kind);
      } else {
        EmitSpoken(noted, m.kind);
      }
    }
  }

  lemma FinishDrains(r: Run, result: RunResult, kind: EventType)
    ensures Drained(r, Finish(r, result, kind))
  {
  }

  /** With nothing pending, or nothing settling, all events of a notification can be told. */
  lemma {:induction false} EmitAllSpoken(r: Run, events: seq<P.Mapped>)
    requires Core(r) && Spoken(r)
    requires forall i :: 0 <= i < |events| ==> P.Portable(events[i])
    requires r.pending == [] || forall i :: 0 <= i < |events| ==> events[i].terminal.None?
    ensures Spoken(EmitAll(r, events))
    decreases |events|
  {
    hide Core, Spoken, EmitMapped, P.Portable, Whole;
    if events != [] {
      assert events[0].terminal.Some? ==> Clear(r);
      EmitMappedKeeps(r, events[0]);
      EmitMappedSpoken(r, events[0]);
      EmitAllSpoken(EmitMapped(r, events[0]), events[1..]);
    }
  }

  lemma NotifiedSpoken(r: Run, name: P.Name, params: Json)
    requires Inv(r) && Spoken(r)
    ensures Spoken(Notified(r, name, params))
  {
    if r.listed && !name.RequestResolved? {
      var events := P.MapNotification(name, params);
      var confirmed := Confirmed(r, name);
      ConfirmedKeeps(r, name);
      SameSpoken(r, confirmed);
      P.MappingIsPortable(name, params);
      hide Core, CancelOk, Spoken, ResolveAll, EmitAll, P.Portable, P.MapNotification, P.IsCompleteTurn;
      ResolveAllKeeps(confirmed, confirmed.pending);
      ResolveAllSpoken(confirmed, confirmed.pending);
      var resolved := ResolveAll(confirmed, confirmed.pending);
      SomeMember(resolved.pending);
      EmitAllSpoken(if HasTerminal(events) then resolved else confirmed, events);
    }
  }

  lemma RequestedSpoken(r: Run)
    requires Inv(r) && Spoken(r)
    ensures Spoken(Requested(r))
  {
    if r.listed {
      WantedKeeps(r);
      WantedSpoken(r);
      hide Inv, Core, Spoken, Told, AbortClient;
      ToldKeeps(Wanted(r), InteractionRequested, r.serial);
      AbortSpoken(Told(Wanted(r), InteractionRequested, r.serial).0);
    }
  }

  lemma ReadSpoken(r: Run)
    requires Inv(r) && Spoken(r)
    ensures Spoken(r.(outlet := Read(r.outlet)))
  {
    ReadKeeps(r.outlet);
    assert Read(r.outlet).next == r.outlet.next && Read(r.outlet).prefix == r.outlet.prefix;
    hide Read, Trace, AtMostOnce, AllTold, OutletInv, Ledger, Interactions, Printed;
  }

  /** Only the outlet, the interactions and what was told of them matter. */
  lemma SameSpoken(r: Run, t: Run)
    requires Spoken(r) && t.outlet == r.outlet && t.notes == r.notes && t.serial == r.serial && t.resolved == r.resolved
    ensures Spoken(t)
  {
    hide Recorded, AtMostOnce, AllTold, Whole;
  }

  lemma ClosingSpoken(r: Run, op: Op)
    requires Inv(r) && Spoken(r) && (op.EndInterrupt? || op.Watchdog? || op.CloseClient?)
    ensures Spoken(Step(r, op))
  {
    var threw := r.(cancel := Threw);
    assert Core(threw) by { hide OutletInv, Ledger; }
    SameSpoken(r, threw);
    hide Core, Spoken, AbortClient;
    AbortSpoken(r);
    AbortSpoken(threw);
    if op.EndInterrupt? && r.cancel.Interrupting? {
      SameSpoken(r, r.(cancel := AwaitSettlement(true)));
      SameSpoken(r, r.(cancel := Done(AbortedMode)));
    }
  }

  lemma StepSpoken(r: Run, op: Op)
    requires Inv(r) && Spoken(r)
    ensures Spoken(Step(r, op))
  {
    match op
    case Notify(name, params) => hide Inv, Notified, Spoken; NotifiedSpoken(r, name, params);
    case Request => hide Inv, Requested, Spoken; RequestedSpoken(r);
    case Settle(id) => hide Core, Resolve, Spoken; ResolveSpoken(r, id);
    case Consume => hide Inv, Spoken; ReadSpoken(r);
    case EndInterrupt(_) => hide Inv, InterruptEnded, Spoken; ClosingSpoken(r, op);
    case Watchdog => hide Inv, WatchdogFired, Spoken; ClosingSpoken(r, op);
    case CloseClient => hide Inv, AbortClient, Spoken; ClosingSpoken(r, op);
    case _ => hide Inv, Spoken; SameSpoken(r, Step(r, op));
  }

  /** What every step of a run keeps. */
  ghost predicate Sound(r: Run) {
    Inv(r) && Spoken(r)
  }

  lemma StepSound(r: Run, op: Op)
    requires Sound(r)
    ensures Sound(Step(r, op)) && (Attended(r) ==> Attended(Step(r, op)))
  {
    hide Inv, Spoken, Step;
    StepKeeps(r, op);
    StepSpoken(r, op);
  }

  lemma {:induction false} RunSound(r: Run, ops: seq<Op>)
    requires Sound(r)
    ensures Sound(RunOf(r, ops)) && (Attended(r) ==> Attended(RunOf(r, ops)))
    decreases |ops|
  {
    hide Sound, Step;
    if ops != [] {
      StepSound(r, ops[0]);
      RunSound(Step(r, ops[0]), ops[1..]);
    }
  }

  lemma FreshOutlet(prefix: string)
    ensures QueueInv(Opened(prefix).queue) && Opened(prefix).final.None?
  {
  }

  lemma StartedSpoken(prefix: string, capacity: nat, open: bool)
    requires capacity >= 2
    ensures Spoken(Started(prefix, capacity, open))
  {
    OpenedInv(prefix);
    assert Recorded(Opened(prefix), []) && AtMostOnce(0, {}, []) && AllTold(0, {}, []);
    hide Emitted, Recorded, Whole, OutletInv, Opened, AtMostOnce, AllTold;
    FreshOutlet(prefix);
    RecordedStep(Opened(prefix), [], RunStarted, 0, capacity);
  }

  /** Over every interleaving, with overflow and with a client that closed before the run was there: a settled
      run has a valid trace agreeing with its result. The interaction events of the trace are those of `notes`,
      at most one request and one resolution for each interaction; and unless an event of the run was lost, a
      settled run's trace has exactly one of each, the request first. A run that started with its client open is
      unsettled only while the client is open. A cancellation is reported native only for a run that settled
      cancelled, and as aborted exactly when the run was. */
  lemma SettledRun(prefix: string, capacity: nat, open: bool, ops: seq<Op>)
    requires capacity >= 2
    ensures var r := RunOf(Started(prefix, capacity, open), ops);
      && (r.result.Some? ==> ValidTrace(Trace(r.outlet.queue), r.result.value.status))
      && Interactions(Trace(r.outlet.queue)) == Printed(r.outlet.prefix, r.notes)
      && AtMostOnce(r.serial, r.resolved, r.notes)
      && (r.result.Some? && Whole(r.outlet) ==> forall id: nat :: id < r.serial ==> BothTold(r.notes, id))
      && (open && r.result.None? ==> r.clientOpen)
      && (r.cancel.Done? ==> r.result.Some?)
      && (r.cancel == Done(Native) ==> r.result.value.status.Cancelled?)
      && (r.cancel.Done? ==> (r.cancel.mode.AbortedMode? <==> r.result.value.status.ConnectionAborted?))
  {
    hide RunOf, ValidTrace, LiveTrace, AtMostOnce, BothTold, RequestTold, Interactions, Printed, Started;
    StartedKeeps(prefix, capacity, open);
    StartedSpoken(prefix, capacity, open);
    RunSound(Started(prefix, capacity, open), ops);
  }
}
