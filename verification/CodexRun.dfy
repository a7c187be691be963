/** One run of the Codex adapter: its events, its pending interactions and its cancellation. */
module CodexRun {
  import opened Prelude
  import opened Contracts
  import opened RunEvents
  import opened PortableTrace
  import opened JsonValues
  import P = CodexProtocol

  datatype CancelMode = Native | AlreadyTerminal | AbortedMode

  /** `cancel()` waits for the provider's start signal, interrupts, then waits for the run to settle. */
  datatype Cancel = NotAsked | AwaitStart | Interrupting | AwaitSettlement(acknowledged: bool) | Done(mode: CancelMode)
      | Threw

  /** An interaction event that reached the queue: its type, the interaction it names, its number. */
  datatype Note = Note(kind: EventType, id: nat, number: nat)

  /** `pending`: interactions of this run not resolved yet, oldest first, `resolved` those that were, by serial.
      `notes` lists the interaction events the queue took. `listed`: the client still counts the run as active. */
  datatype Run = Run(
    outlet: Outlet, capacity: nat, finalMessage: Option<string>, usage: Option<Usage>, result: Option<RunResult>,
    timedOut: bool, start: Option<bool>, cancel: Cancel,
    listed: bool, clientOpen: bool, serial: nat, pending: seq<nat>, resolved: set<nat>, notes: seq<Note>)

  /** The reply that names the turn may come after the client has closed; `open` tells. */
  function Started(prefix: string, capacity: nat, open: bool): Run {
    Run(Emitted(Opened(prefix), RunStarted, capacity).0, capacity, None, None, None, false, None, NotAsked, true, open,
        0, [], {}, [])
  }

  function Offered(r: Run, kind: EventType): (Run, bool) {
    var (outlet, taken) := Emitted(r.outlet, kind, r.capacity);
    (r.(outlet := outlet), taken)
  }

  /** An event about one interaction. */
  function Told(r: Run, kind: EventType, id: nat): (Run, bool) {
    var (offered, taken) := Offered(r, kind);
    (if taken && r.outlet.final.None? then offered.(notes := r.notes + [Note(kind, id, r.outlet.next)])
        else offered, taken)
  }

  function Without(pending: seq<nat>, id: nat): (left: seq<nat>)
    ensures forall x :: x in left <==> x in pending && x != id
  {
    if pending == [] then []
    else (if pending[0] == id then [] else [pending[0]]) + Without(pending[1..], id)
  }

  function Members(ids: seq<nat>): set<nat> {
    set x | x in ids
  }

  function Forget(r: Run, id: nat): Run {
    r.(pending := Without(r.pending, id), resolved := r.resolved + {id})
  }

  /** Interactions dropped while the client closes: each is announced if there is room. */
  function ResolveClosed(r: Run, ids: seq<nat>): Run
    decreases |ids|
  {
    if ids == [] then r
    else ResolveClosed(if ids[0] in r.pending then Told(Forget(r, ids[0]), InteractionResolved, ids[0]).0
        else r, ids[1..])
  }

  /** Settle. The client then forgets the run and what it still had pending. */
  function Finish(r: Run, result: RunResult, kind: EventType): Run {
    if r.result.Some? then r
    else
      r.(result := Some(result), start := if r.start.Some? then r.start else Some(false),
         outlet := Finished(r.outlet, result.status, kind), listed := false,
         pending := [], resolved := r.resolved + Members(r.pending))
  }

  function AbortRun(r: Run): Run {
    Finish(r, RunResult(ConnectionAborted, None, None, None), ConnectionAbortedEvent)
  }

  function AbortClient(r: Run): Run {
    if !r.clientOpen then r
    else
      var closed := r.(clientOpen := false);
      if r.listed then AbortRun(ResolveClosed(closed, r.pending)) else closed
  }

  function Emit(r: Run, kind: EventType): Run {
    if r.result.Some? then r
    else
      var (offered, taken) := Offered(r, kind);
      if taken then offered else AbortClient(offered)
  }

  function Tell(r: Run, kind: EventType, id: nat): Run {
    if r.result.Some? then r
    else
      var (told, taken) := Told(r, kind, id);
      if taken then told else AbortClient(told)
  }

  function Resolve(r: Run, id: nat): Run {
    if id in r.pending then Tell(Forget(r, id), InteractionResolved, id) else r
  }

  function ResolveAll(r: Run, ids: seq<nat>): Run
    decreases |ids|
  {
    if ids == [] then r else ResolveAll(Resolve(r, ids[0]), ids[1..])
  }

  /** The reported result completed by what the run observed; a timed-out cancellation says so. */
  function Merged(r: Run, terminal: RunResult): (result: RunResult)
    ensures result.status == terminal.status
  {
    RunResult(
      terminal.status,
      if r.timedOut && terminal.status.Cancelled? then Some(ProviderResult("timeout", None))
          else terminal.providerResult,
      if terminal.status.Completed? && r.finalMessage.Some? then r.finalMessage else terminal.finalMessage,
      if r.usage.Some? then r.usage else terminal.usage)
  }

  function EmitMapped(r: Run, m: P.Mapped): Run {
    if r.result.Some? then r
    else
      var noted := r.(finalMessage := if m.finalMessage.Some? then m.finalMessage else r.finalMessage,
                      usage := if m.usage.Some? then m.usage else r.usage);
      if m.terminal.Some? then Finish(noted, Merged(noted, m.terminal.value), m.kind) else Emit(noted, m.kind)
  }

  function EmitAll(r: Run, events: seq<P.Mapped>): Run
    decreases |events|
  {
    if events == [] then r else EmitAll(EmitMapped(r, events[0]), events[1..])
  }

  predicate HasTerminal(events: seq<P.Mapped>) {
    exists i :: 0 <= i < |events| && events[i].terminal.Some?
  }

  /** The turn's start confirms the run's, if nothing has settled that yet. */
  function Confirmed(r: Run, name: P.Name): Run {
    if name.TurnStarted? && r.start.None? then r.(start := Some(true)) else r
  }

  /** A notification routed to this run; a terminal one resolves what is pending before it is emitted. */
  function Notified(r: Run, name: P.Name, params: Json): Run {
    if !r.listed || name.RequestResolved? then r
    else
      var events := P.MapNotification(name, params);
      var confirmed := Confirmed(r, name);
      EmitAll(if HasTerminal(events) then ResolveAll(confirmed, confirmed.pending) else confirmed, events)
  }

  function Wanted(r: Run): Run {
    r.(pending := r.pending + [r.serial], serial := r.serial + 1)
  }

  function Requested(r: Run): Run {
    if !r.listed then r else Tell(Wanted(r), InteractionRequested, r.serial)
  }

  // ---------------------------------------------------------------- cancellation

  function CancelAsked(r: Run): Run {
    if r.result.None? && r.cancel.NotAsked? then r.(cancel := AwaitStart) else r
  }

  /** The start signal is known: interrupt a started run that is still going. */
  function CancelWoken(r: Run): Run {
    if r.cancel.AwaitStart? && r.start.Some?
    then r.(cancel := if r.start.value && r.result.None? then Interrupting else AwaitSettlement(false)) else r
  }

  function Aborted(r: Run): bool {
    r.result.Some? && r.result.value.status.ConnectionAborted?
  }

  /** The interrupt request ends; its failure counts as an abort if the run was aborted meanwhile. A failed
      cancellation asked for by the timeout closes the client. */
  function InterruptEnded(r: Run, ok: bool): Run {
    if !r.cancel.Interrupting? then r
    else if ok then r.(cancel := AwaitSettlement(true))
    else if Aborted(r) then r.(cancel := Done(AbortedMode))
    else if r.timedOut then AbortClient(r.(cancel := Threw))
    else r.(cancel := Threw)
  }

  function CancelSettled(r: Run): Run {
    if r.cancel.AwaitSettlement? && r.result.Some? then
      r.(cancel := Done(if r.result.value.status.Cancelled? && r.cancel.acknowledged then Native
                        else if Aborted(r) then AbortedMode else AlreadyTerminal))
    else r
  }

  /** The watchdog runs only while a cancellation is under way. */
  function WatchdogFired(r: Run): Run {
    if r.cancel.AwaitStart? || r.cancel.Interrupting? || r.cancel.AwaitSettlement? then AbortClient(r) else r
  }

  function TimedOut(r: Run): Run {
    if r.result.Some? then r else CancelAsked(r.(timedOut := true))
  }

  // ---------------------------------------------------------------- every interleaving

  datatype Op =
    | Notify(name: P.Name, params: Json) | Request | Settle(id: nat)
    | AskCancel | WakeCancel | EndInterrupt(ok: bool) | SettleCancel | Watchdog | Timeout | CloseClient | Consume

  function Step(r: Run, op: Op): Run {
    match op
    case Notify(name, params) => Notified(r, name, params)
    case Request => Requested(r)
    case Settle(id) => Resolve(r, id)
    case AskCancel => CancelAsked(r)
    case WakeCancel => CancelWoken(r)
    case EndInterrupt(ok) => InterruptEnded(r, ok)
    case SettleCancel => CancelSettled(r)
    case Watchdog => WatchdogFired(r)
    case Timeout => TimedOut(r)
    case CloseClient => AbortClient(r)
    case Consume => r.(outlet := Read(r.outlet))
  }

  ghost predicate Sorted(ids: seq<nat>) {
    forall i, j :: 0 <= i < j < |ids| ==> ids[i] < ids[j]
  }

  /** Each interaction ever requested either is pending, in order, or was resolved, and then only once. */
  ghost predicate Ledger(serial: nat, pending: seq<nat>, resolved: set<nat>) {
    && Sorted(pending)
    && (forall id: nat :: id < serial <==> id in pending || id in resolved)
    && (forall id :: id in pending ==> id !in resolved)
  }

  ghost predicate Core(r: Run) {
    && OutletInv(r.outlet)
    && r.outlet.final == (if r.result.Some? then Some(r.result.value.status) else None)
    && Ledger(r.serial, r.pending, r.resolved)
    && (r.result.Some? ==> r.pending == [] && r.start.Some? && !r.listed)
    && (r.result.None? ==> r.listed)
  }

  ghost predicate CancelOk(r: Run) {
    && (r.cancel.Done? ==> r.result.Some?)
    && (r.cancel == Done(Native) ==> r.result.value.status.Cancelled?)
    && (r.cancel == Done(AbortedMode) <==> r.cancel.Done? && Aborted(r))
  }

  /** An unsettled run has a client that is still open to settle it. */
  ghost predicate Attended(r: Run) {
    r.result.None? ==> r.clientOpen
  }

  ghost predicate Inv(r: Run) {
    Core(r) && CancelOk(r)
  }

  lemma SortedFront(first: nat, rest: seq<nat>)
    requires Sorted(rest) && forall i :: 0 <= i < |rest| ==> first < rest[i]
    ensures Sorted([first] + rest)
  {
    var all := [first] + rest;
    forall i, j | 0 <= i < j < |all| ensures all[i] < all[j] {
      assert all[j] == rest[j - 1];
      if i > 0 {
        assert all[i] == rest[i - 1];
      }
    }
  }

  lemma {:induction false} WithoutSorted(pending: seq<nat>, id: nat)
    requires Sorted(pending)
    ensures Sorted(Without(pending, id))
  {
    if pending != [] {
      var rest := Without(pending[1..], id);
      assert Sorted(pending[1..]);
      WithoutSorted(pending[1..], id);
      if pending[0] == id {
        assert Without(pending, id) == rest;
      } else {
        forall i | 0 <= i < |rest| ensures pending[0] < rest[i] {
          assert rest[i] in pending[1..];
        }
        SortedFront(pending[0], rest);
        assert Without(pending, id) == [pending[0]] + rest;
      }
    }
  }

  lemma LedgerSteps(serial: nat, pending: seq<nat>, resolved: set<nat>, id: nat)
    requires Ledger(serial, pending, resolved)
    ensures id in pending ==> Ledger(serial, Without(pending, id), resolved + {id})
    ensures Ledger(serial, [], resolved + Members(pending))
    ensures Ledger(serial + 1, pending + [serial], resolved)
  {
    WithoutSorted(pending, id);
    forall i | 0 <= i < |pending| ensures pending[i] < serial {
      assert pending[i] in pending;
    }
  }

  // ---------------------------------------------------------------- steps keep the invariant

  lemma FinishKeeps(r: Run, result: RunResult, kind: EventType)
    requires Core(r) && kind == TerminalType(result.status)
    ensures Core(Finish(r, result, kind))
    ensures Finish(r, result, kind).result == if r.result.Some? then r.result else Some(result)
  {
    hide OutletInv, Ledger, Finished, TerminalType, Members;
    FinishedKeeps(r.outlet, result.status, kind);
    LedgerSteps(r.serial, r.pending, r.resolved, 0);
  }

  lemma OfferedKeeps(r: Run, kind: EventType)
    requires Core(r) && !IsTerminalType(kind)
    ensures Core(Offered(r, kind).0) && Offered(r, kind).0 == r.(outlet := Offered(r, kind).0.outlet)
  {
    hide OutletInv, Ledger, IsTerminalType;
    EmittedKeeps(r.outlet, kind, r.capacity);
    EmittedFinal(r.outlet, kind, r.capacity);
    hide Emitted;
  }

  lemma ToldKeeps(r: Run, kind: EventType, id: nat)
    requires Core(r) && !IsTerminalType(kind)
    ensures var t := Told(r, kind, id).0;
      Core(t) && t == r.(outlet := t.outlet, notes := t.notes)
    ensures r.result.Some? ==> Told(r, kind, id).0 == r
  {
    OfferedKeeps(r, kind);
    hide OutletInv, Ledger, Emitted, IsTerminalType;
    SettledOffers(r, kind);
  }

  lemma EmittedFinal(o: Outlet, kind: EventType, capacity: nat)
    ensures Emitted(o, kind, capacity).0.final == o.final
  {
  }

  lemma ForgetKeeps(r: Run, id: nat)
    requires Core(r) && id in r.pending
    ensures Core(Forget(r, id))
  {
    hide OutletInv, Ledger;
    LedgerSteps(r.serial, r.pending, r.resolved, id);
  }

  /** What a step leaves alone: the run's parameters and its cancellation. */
  ghost predicate Beside(a: Run, b: Run) {
    && b.cancel == a.cancel && b.timedOut == a.timedOut && b.capacity == a.capacity
    && (a.result.Some? ==> b.result == a.result && b.outlet == a.outlet)
    && (a.start.Some? ==> b.start == a.start)
  }

  lemma {:induction false} ResolveClosedKeeps(r: Run, ids: seq<nat>)
    requires Core(r)
    ensures Core(ResolveClosed(r, ids)) && Beside(r, ResolveClosed(r, ids))
    ensures ResolveClosed(r, ids).result == r.result && ResolveClosed(r, ids).clientOpen == r.clientOpen
    decreases |ids|
  {
    hide Core, Told;
    if ids != [] {
      if ids[0] in r.pending {
        ForgetKeeps(r, ids[0]);
        ToldKeeps(Forget(r, ids[0]), InteractionResolved, ids[0]);
        ResolveClosedKeeps(Told(Forget(r, ids[0]), InteractionResolved, ids[0]).0, ids[1..]);
      } else {
        ResolveClosedKeeps(r, ids[1..]);
      }
    }
  }

  lemma SettledOffers(r: Run, kind: EventType)
    ensures r.outlet.final.Some? ==> Offered(r, kind).0.outlet == r.outlet
  {
  }

  lemma FinalMatches(r: Run)
    requires Core(r)
    ensures r.result.Some? <==> r.outlet.final.Some?
    ensures r.result.None? <==> r.listed
  {
  }

  lemma AbortClientKeeps(r: Run)
    requires Core(r)
    ensures var t := AbortClient(r);
      Core(t) && Beside(r, t) && !t.clientOpen
      && (r.clientOpen ==> t.result.Some? && (r.result.None? ==> Aborted(t)))
  {
    hide OutletInv, Ledger, ResolveClosed, Finish;
    if r.clientOpen {
      var closed := r.(clientOpen := false);
      assert Core(closed);
      hide Core;
      FinalMatches(r);
      ResolveClosedKeeps(closed, r.pending);
      var resolved := ResolveClosed(closed, r.pending);
      FinishKeeps(resolved, RunResult(ConnectionAborted, None, None, None), ConnectionAbortedEvent);
      FinishBeside(resolved, RunResult(ConnectionAborted, None, None, None), ConnectionAbortedEvent);
    }
  }

  lemma FinishBeside(r: Run, result: RunResult, kind: EventType)
    ensures Beside(r, Finish(r, result, kind)) && Finish(r, result, kind).clientOpen == r.clientOpen
  {
  }

  lemma EmitKeeps(r: Run, kind: EventType)
    requires Core(r) && !IsTerminalType(kind)
    ensures Core(Emit(r, kind)) && Beside(r, Emit(r, kind))
    ensures Attended(r) ==> Attended(Emit(r, kind))
  {
    hide Core, Offered, AbortClient, IsTerminalType;
    if r.result.None? {
      OfferedKeeps(r, kind);
      AbortClientKeeps(Offered(r, kind).0);
    }
  }

  lemma TellKeeps(r: Run, kind: EventType, id: nat)
    requires Core(r) && !IsTerminalType(kind)
    ensures Core(Tell(r, kind, id)) && Beside(r, Tell(r, kind, id))
    ensures Attended(r) ==> Attended(Tell(r, kind, id))
  {
    hide Core, Told, AbortClient, IsTerminalType;
    if r.result.None? {
      ToldKeeps(r, kind, id);
      AbortClientKeeps(Told(r, kind, id).0);
    }
  }

  lemma ResolveKeeps(r: Run, id: nat)
    requires Core(r)
    ensures Core(Resolve(r, id)) && Beside(r, Resolve(r, id))
    ensures Attended(r) ==> Attended(Resolve(r, id))
  {
    hide Core, Tell;
    if id in r.pending {
      ForgetKeeps(r, id);
      TellKeeps(Forget(r, id), InteractionResolved, id);
    }
  }

  lemma {:induction false} ResolveAllKeeps(r: Run, ids: seq<nat>)
    requires Core(r)
    ensures var t := ResolveAll(r, ids); Core(t) && Beside(r, t) && (Attended(r) ==> Attended(t))
    decreases |ids|
  {
    hide Core, Resolve;
    if ids != [] {
      ResolveKeeps(r, ids[0]);
      ResolveAllKeeps(Resolve(r, ids[0]), ids[1..]);
    }
  }

  lemma EmitMappedKeeps(r: Run, m: P.Mapped)
    requires Core(r) && P.Portable(m)
    ensures var t := EmitMapped(r, m); Core(t) && Beside(r, t) && (Attended(r) ==> Attended(t))
  {
    hide OutletInv, Ledger, Finish, Emit, TerminalType, IsTerminalType, Merged;
    if r.result.None? {
      var noted := r.(finalMessage := if m.finalMessage.Some? then m.finalMessage else r.finalMessage,
                      usage := if m.usage.Some? then m.usage else r.usage);
      assert Core(noted);
      hide Core;
      if m.terminal.Some? {
        FinishKeeps(noted, Merged(noted, m.terminal.value), m.kind);
        FinishBeside(noted, Merged(noted, m.terminal.value), m.kind);
      } else {
        EmitKeeps(noted, m.kind);
      }
    }
  }

  lemma {:induction false} EmitAllKeeps(r: Run, events: seq<P.Mapped>)
    requires Core(r) && forall i :: 0 <= i < |events| ==> P.Portable(events[i])
    ensures var t := EmitAll(r, events); Core(t) && Beside(r, t) && (Attended(r) ==> Attended(t))
    decreases |events|
  {
    hide Core, EmitMapped, P.Portable;
    if events != [] {
      EmitMappedKeeps(r, events[0]);
      EmitAllKeeps(EmitMapped(r, events[0]), events[1..]);
    }
  }

  /** A cancellation's verdict stands: what it was based on cannot change any more. */
  lemma BesideCancel(a: Run, b: Run)
    requires CancelOk(a) && Beside(a, b)
    ensures CancelOk(b)
  {
  }

  lemma ConfirmedKeeps(r: Run, name: P.Name)
    requires Inv(r)
    ensures Inv(Confirmed(r, name)) && (Attended(r) ==> Attended(Confirmed(r, name)))
  {
    hide OutletInv, Ledger;
  }

  lemma ResolveAllInv(r: Run, ids: seq<nat>)
    requires Inv(r)
    ensures Inv(ResolveAll(r, ids)) && (Attended(r) ==> Attended(ResolveAll(r, ids)))
  {
    hide Core, CancelOk, ResolveAll;
    ResolveAllKeeps(r, ids);
    BesideCancel(r, ResolveAll(r, ids));
  }

  lemma EmitAllInv(r: Run, events: seq<P.Mapped>)
    requires Inv(r) && forall i :: 0 <= i < |events| ==> P.Portable(events[i])
    ensures Inv(EmitAll(r, events)) && (Attended(r) ==> Attended(EmitAll(r, events)))
  {
    hide Core, CancelOk, EmitAll;
    EmitAllKeeps(r, events);
    BesideCancel(r, EmitAll(r, events));
  }

  lemma NotifiedKeeps(r: Run, name: P.Name, params: Json)
    requires Inv(r)
    ensures Inv(Notified(r, name, params)) && (Attended(r) ==> Attended(Notified(r, name, params)))
  {
    hide Inv, ResolveAll, EmitAll, Confirmed, P.Portable, P.MapNotification, P.IsCompleteTurn;
    P.MappingIsPortable(name, params);
    ConfirmedKeeps(r, name);
    var events, confirmed := P.MapNotification(name, params), Confirmed(r, name);
    ResolveAllInv(confirmed, confirmed.pending);
    EmitAllInv(confirmed, events);
    EmitAllInv(ResolveAll(confirmed, confirmed.pending), events);
  }

  lemma WantedKeeps(r: Run)
    requires Core(r) && r.result.None?
    ensures Core(Wanted(r))
  {
    LedgerSteps(r.serial, r.pending, r.resolved, 0);
    hide OutletInv, Ledger;
  }

  lemma RequestedKeeps(r: Run)
    requires Inv(r)
    ensures Inv(Requested(r)) && (Attended(r) ==> Attended(Requested(r)))
  {
    hide OutletInv, Ledger, CancelOk, Tell;
    if r.listed {
      WantedKeeps(r);
      hide Core;
      TellKeeps(Wanted(r), InteractionRequested, r.serial);
      BesideCancel(r, Wanted(r));
      BesideCancel(Wanted(r), Requested(r));
    }
  }

  lemma CancelKeeps(r: Run, op: Op)
    requires Inv(r) && (op.AskCancel? || op.WakeCancel? || op.SettleCancel? || op.Timeout?)
    ensures Inv(Step(r, op)) && (Attended(r) ==> Attended(Step(r, op)))
  {
    hide OutletInv, Ledger;
  }

  lemma ClosingKeeps(r: Run, op: Op)
    requires Inv(r) && (op.EndInterrupt? || op.Watchdog? || op.CloseClient?)
    ensures Inv(Step(r, op)) && (Attended(r) ==> Attended(Step(r, op)))
  {
    hide OutletInv, Ledger, AbortClient;
    var threw := r.(cancel := Threw);
    assert Core(threw) && CancelOk(threw);
    AbortClientKeeps(r);
    AbortClientKeeps(threw);
    hide Core;
    BesideCancel(r, AbortClient(r));
    BesideCancel(threw, AbortClient(threw));
  }

  lemma ConsumeKeeps(r: Run)
    requires Inv(r)
    ensures Inv(r.(outlet := Read(r.outlet)))
  {
    ReadKeeps(r.outlet);
    hide OutletInv, Ledger, Read;
  }

  lemma StepKeeps(r: Run, op: Op)
    requires Inv(r)
    ensures Inv(Step(r, op)) && (Attended(r) ==> Attended(Step(r, op)))
  {
    hide Inv, Notified, Requested, Resolve, CancelAsked, CancelWoken, InterruptEnded, CancelSettled, WatchdogFired,
        TimedOut, AbortClient;
    match op
    case Notify(name, params) => NotifiedKeeps(r, name, params);
    case Request => RequestedKeeps(r);
    case Settle(id) => SettleKeeps(r, id);
    case AskCancel => CancelKeeps(r, op);
    case WakeCancel => CancelKeeps(r, op);
    case SettleCancel => CancelKeeps(r, op);
    case Timeout => CancelKeeps(r, op);
    case Consume => ConsumeKeeps(r);
    case _ => ClosingKeeps(r, op);
  }

  lemma SettleKeeps(r: Run, id: nat)
    requires Inv(r)
    ensures Inv(Resolve(r, id)) && (Attended(r) ==> Attended(Resolve(r, id)))
  {
    ResolveKeeps(r, id);
    BesideCancel(r, Resolve(r, id));
    hide Core, CancelOk, Resolve;
  }

  lemma StartedKeeps(prefix: string, capacity: nat, open: bool)
    requires capacity >= 2
    ensures Inv(Started(prefix, capacity, open)) && (open ==> Attended(Started(prefix, capacity, open)))
  {
    OpenedInv(prefix);
    EmittedKeeps(Opened(prefix), RunStarted, capacity);
    hide OutletInv;
  }

  function RunOf(r: Run, ops: seq<Op>): Run
    decreases |ops|
  {
    if ops == [] then r else RunOf(Step(r, ops[0]), ops[1..])
  }
}
