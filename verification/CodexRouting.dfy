/** Routing Codex notifications to runs while the reply that names a run's turn is still on its way. */
module CodexRouting {
  import opened Prelude

  /** What routing looks at; a message is otherwise known by its position on the wire. */
  datatype Message = Message(thread: Option<string>, turn: Option<string>)

  /** A run: its thread and turn, the first message to arrive after its start was requested, the messages it
      got, and, once settled, how many messages had been handled by then. */
  datatype Run = Run(thread: string, turn: string, from: nat, received: seq<nat>, until: Option<nat>)

  /** A pending `turn/start`: the promise the pump may wait on, and how many messages had arrived by then. */
  datatype Starting = Starting(promise: nat, from: nat)

  /** The pump handles `log` strictly in order; `waiting` is the promise it is suspended on. */
  datatype Router = Router(
    log: seq<Message>, handled: nat, waiting: Option<nat>, promises: nat, resolved: set<nat>,
    starting: map<string, Starting>, byThread: map<string, nat>, byTurn: map<string, nat>, seen: set<string>,
    runs: seq<Run>, closed: bool)

  function Initial(): Router {
    Router([], 0, None, 0, {}, map[], map[], map[], {}, [], false)
  }

  function Route(r: Router, m: Message): (run: Option<nat>)
    ensures run.Some? ==> run.value < |r.runs|
  {
    if m.turn.Some? && m.turn.value in r.byTurn && r.byTurn[m.turn.value] < |r.runs|
       && (m.thread.None? || r.runs[r.byTurn[m.turn.value]].thread == m.thread.value)
    then Some(r.byTurn[m.turn.value])
    else None
  }

  function Delivered(runs: seq<Run>, i: nat, k: nat): seq<Run>
    requires i < |runs|
  {
    runs[i := runs[i].(received := runs[i].received + [k])]
  }

  /** The message is handed to the run it routes to, or only observed. */
  function Passed(r: Router, run: Option<nat>): Router
    requires run.Some? ==> run.value < |r.runs|
  {
    r.(handled := r.handled + 1, waiting := None,
       runs := if run.Some? then Delivered(r.runs, run.value, r.handled) else r.runs)
  }

  /** The pump takes the next message, or suspends until the thread's start is decided. */
  function Pumped(r: Router): Router {
    if r.waiting.Some? || r.handled >= |r.log| then r
    else
      var m := r.log[r.handled];
      var run := Route(r, m);
      if run.None? && m.thread.Some? && m.thread.value in r.starting
      then r.(waiting := Some(r.starting[m.thread.value].promise))
      else Passed(r, run)
  }

  function Resumed(r: Router): Router {
    if r.waiting.Some? && r.waiting.value in r.resolved && r.handled < |r.log|
    then Passed(r, Route(r, r.log[r.handled])) else r
  }

  function StartAsked(r: Router, thread: string): Router {
    if r.closed || thread in r.starting || thread in r.byThread then r
    else r.(promises := r.promises + 1, starting := r.starting[thread := Starting(r.promises, |r.log|)])
  }

  function Decided(r: Router, thread: string): Router
    requires thread in r.starting
  {
    r.(resolved := r.resolved + {r.starting[thread].promise}, starting := r.starting - {thread})
  }

  function Settle(r: Router, i: nat): Router {
    if i >= |r.runs| || r.runs[i].until.Some? then r
    else
      var run := r.runs[i];
      r.(runs := r.runs[i := run.(until := Some(r.handled))],
         byThread := if run.thread in r.byThread && r.byThread[run.thread] == i then r.byThread - {run.thread}
             else r.byThread,
         byTurn := if run.turn in r.byTurn && r.byTurn[run.turn] == i then r.byTurn - {run.turn} else r.byTurn)
  }

  function SettleUpTo(r: Router, n: nat): Router {
    if n == 0 then r else Settle(SettleUpTo(r, n - 1), n - 1)
  }

  function Closed(r: Router): Router {
    if r.closed then r else SettleUpTo(r.(closed := true), |r.runs|)
  }

  /** The reply names the turn. A turn seen before closes the client. */
  function StartReplied(r: Router, thread: string, turn: string): Router {
    if thread !in r.starting then r
    else if turn in r.seen then Decided(Closed(r).(starting := r.starting), thread)
    else
      var i, from := |r.runs|, r.starting[thread].from;
      Decided(r.(runs := r.runs + [Run(thread, turn, from, [], None)], seen := r.seen + {turn},
                 byThread := r.byThread[thread := i], byTurn := r.byTurn[turn := i]), thread)
  }

  function StartFailed(r: Router, thread: string): Router {
    if thread in r.starting then Decided(r, thread) else r
  }

  // ---------------------------------------------------------------- every interleaving

  datatype Op =
    | Arrive(m: Message) | Pump | Resume | AskStart(thread: string) | Reply(thread: string, turn: string)
    | FailStart(thread: string) | SettleRun(i: nat) | Close

  function Step(r: Router, op: Op): Router {
    match op
    case Arrive(m) => r.(log := r.log + [m])
    case Pump => Pumped(r)
    case Resume => Resumed(r)
    case AskStart(thread) => StartAsked(r, thread)
    case Reply(thread, turn) => StartReplied(r, thread, turn)
    case FailStart(thread) => StartFailed(r, thread)
    case SettleRun(i) => Settle(r, i)
    case Close => Closed(r)
  }

  /** Positions in `log[a..b]` of the messages that name both this thread and this turn, in wire order. */
  function OwnBetween(log: seq<Message>, a: nat, b: nat, thread: string, turn: string): seq<nat>
    requires b <= |log|
  {
    if b <= a then []
    else
      OwnBetween(log, a, b - 1, thread, turn)
      + if log[b - 1] == Message(Some(thread), Some(turn)) then [b - 1] else []
  }

  /** Those of these positions, from `a` on, whose message names a thread. */
  function Carrying(log: seq<Message>, a: nat, positions: seq<nat>): seq<nat> {
    if positions == [] then []
    else
      var k := positions[|positions| - 1];
      Carrying(log, a, positions[..|positions| - 1]) + if a <= k < |log| && log[k].thread.Some? then [k] else []
  }

  /** How many messages had been handled when the run settled, or have been by now. */
  function End(handled: nat, run: Run): nat {
    if run.until.Some? then run.until.value else handled
  }

  /** A message naming the run's turn, and no other thread than the run's. */
  predicate Meant(m: Message, run: Run) {
    m.turn == Some(run.turn) && (m.thread.None? || m.thread == Some(run.thread))
  }

  /** A run got nothing but messages meant for it, in wire order; and of those that arrived after its start was
      requested and name its thread, all of them. */
  ghost predicate RunOk(log: seq<Message>, handled: nat, run: Run) {
    var end := End(handled, run);
    && end <= handled <= |log|
    && (forall i :: 0 <= i < |run.received| ==> run.received[i] < end && Meant(log[run.received[i]], run))
    && (forall i, j :: 0 <= i < j < |run.received| ==> run.received[i] < run.received[j])
    && Carrying(log, run.from, run.received) == OwnBetween(log, run.from, end, run.thread, run.turn)
  }

  ghost predicate Registered(r: Router) {
    && (forall i :: 0 <= i < |r.runs| && r.runs[i].until.None? ==>
          && r.runs[i].turn in r.byTurn && r.byTurn[r.runs[i].turn] == i
          && r.runs[i].thread in r.byThread && r.byThread[r.runs[i].thread] == i)
    && (forall turn :: turn in r.byTurn ==>
          r.byTurn[turn] < |r.runs| && r.runs[r.byTurn[turn]].turn == turn && r.runs[r.byTurn[turn]].until.None?)
    && (forall thread :: thread in r.byThread ==>
          r.byThread[thread] < |r.runs| && r.runs[r.byThread[thread]].thread == thread
              && r.runs[r.byThread[thread]].until.None?)
    && (forall i :: 0 <= i < |r.runs| ==> r.runs[i].turn in r.seen)
  }

  /** While a thread's start is undecided, no message naming that thread is handled. */
  ghost predicate HeldBack(r: Router) {
    && (forall thread :: thread in r.starting ==>
          && thread !in r.byThread
          && r.starting[thread].promise < r.promises && r.starting[thread].promise !in r.resolved
          && forall k :: r.starting[thread].from <= k < r.handled && k < |r.log| ==> r.log[k].thread != Some(thread))
    && (forall a, b :: a in r.starting && b in r.starting && a != b ==> r.starting[a].promise != r.starting[b].promise)
  }

  /** A suspended pump waits for the start of the thread its message names, or that start is decided. */
  ghost predicate Suspended(r: Router) {
    r.waiting.Some? ==>
      && r.handled < |r.log| && r.log[r.handled].thread.Some?
      && r.waiting.value < r.promises
      && forall thread :: thread in r.starting && r.log[r.handled].thread == Some(thread) ==>
           r.starting[thread].promise == r.waiting.value || r.handled < r.starting[thread].from
  }

  ghost predicate Inv(r: Router) {
    && r.handled <= |r.log|
    && (forall i :: 0 <= i < |r.runs| ==> RunOk(r.log, r.handled, r.runs[i]))
    && Registered(r) && HeldBack(r) && Suspended(r)
    && (forall p :: p in r.resolved ==> p < r.promises)
  }

  lemma {:induction false} OwnAppend(log: seq<Message>, a: nat, b: nat, thread: string, turn: string, m: Message)
    requires b <= |log|
    ensures OwnBetween(log + [m], a, b, thread, turn) == OwnBetween(log, a, b, thread, turn)
  {
    if b > a {
      OwnAppend(log, a, b - 1, thread, turn, m);
    }
  }

  lemma {:induction false} OwnNone(log: seq<Message>, a: nat, b: nat, thread: string, turn: string)
    requires b <= |log| && forall k :: a <= k < b ==> log[k].thread != Some(thread)
    ensures OwnBetween(log, a, b, thread, turn) == []
  {
    if b > a {
      OwnNone(log, a, b - 1, thread, turn);
    }
  }

  lemma {:induction false} CarryingAppend(log: seq<Message>, a: nat, positions: seq<nat>, m: Message)
    requires forall i :: 0 <= i < |positions| ==> positions[i] < |log|
    ensures Carrying(log + [m], a, positions) == Carrying(log, a, positions)
  {
    if positions != [] {
      CarryingAppend(log, a, positions[..|positions| - 1], m);
    }
  }

  lemma CarryingNext(log: seq<Message>, a: nat, positions: seq<nat>, k: nat)
    ensures Carrying(log, a, positions + [k]) ==
      Carrying(log, a, positions) + if a <= k < |log| && log[k].thread.Some? then [k] else []
  {
    assert (positions + [k])[..|positions|] == positions;
  }

  // ---------------------------------------------------------------- steps keep the invariant

  lemma ArrivedRun(log: seq<Message>, handled: nat, run: Run, m: Message)
    requires RunOk(log, handled, run)
    ensures RunOk(log + [m], handled, run)
  {
    CarryingAppend(log, run.from, run.received, m);
    OwnAppend(log, run.from, End(handled, run), run.thread, run.turn, m);
  }

  lemma ArrivedKeeps(r: Router, m: Message)
    requires Inv(r)
    ensures Inv(r.(log := r.log + [m]))
  {
    hide RunOk, Registered;
    forall i | 0 <= i < |r.runs| ensures RunOk(r.log + [m], r.handled, r.runs[i]) {
      ArrivedRun(r.log, r.handled, r.runs[i], m);
    }
    assert Registered(r.(log := r.log + [m])) by { ArrivedRegistered(r, m); }
  }

  lemma ArrivedRegistered(r: Router, m: Message)
    requires Registered(r)
    ensures Registered(r.(log := r.log + [m]))
  {
  }

  lemma PassedRun(log: seq<Message>, handled: nat, run: Run, gets: bool)
    requires RunOk(log, handled, run) && handled < |log|
    requires gets ==> run.until.None? && Meant(log[handled], run)
    requires !gets && run.until.None? ==> log[handled] != Message(Some(run.thread), Some(run.turn))
    ensures RunOk(log, handled + 1, if gets then run.(received := run.received + [handled]) else run)
  {
    CarryingNext(log, run.from, run.received, handled);
  }

  /** A message goes to a run exactly when the run is active and the message is the run's own, or names only
      its turn. */
  lemma RouteFinds(r: Router, m: Message, i: nat)
    requires Registered(r) && i < |r.runs|
    ensures Route(r, m) == Some(i) ==>
      r.runs[i].until.None? && Meant(m, r.runs[i])
    ensures r.runs[i].until.None? && m == Message(Some(r.runs[i].thread), Some(r.runs[i].turn)) ==>
        Route(r, m) == Some(i)
    ensures Route(r, m) == Some(i) && m.thread.Some? ==> m.thread.value in r.byThread
  {
  }

  lemma PassedRegistered(r: Router, run: Option<nat>)
    requires Registered(r) && (run.Some? ==> run.value < |r.runs|)
    ensures Registered(Passed(r, run))
  {
  }

  lemma PassedHeld(r: Router, run: Option<nat>)
    requires HeldBack(r) && r.handled < |r.log| && (run.Some? ==> run.value < |r.runs|)
    requires forall thread :: thread in r.starting && r.log[r.handled].thread == Some(thread) ==>
        r.handled < r.starting[thread].from
    ensures HeldBack(Passed(r, run))
  {
  }

  lemma PassedKeeps(r: Router)
    requires Inv(r) && r.handled < |r.log|
    requires Route(r, r.log[r.handled]).None? ==>
      forall thread :: thread in r.starting && r.log[r.handled].thread == Some(thread) ==>
          r.handled < r.starting[thread].from
    ensures Inv(Passed(r, Route(r, r.log[r.handled])))
  {
    hide RunOk, Registered, Route;
    var m := r.log[r.handled];
    var run := Route(r, m);
    var t := Passed(r, run);
    forall i | 0 <= i < |r.runs| ensures RunOk(t.log, t.handled, t.runs[i]) {
      RouteFinds(r, m, i);
      PassedRun(r.log, r.handled, r.runs[i], run == Some(i));
    }
    if run.Some? {
      RouteFinds(r, m, run.value);
    }
    PassedRegistered(r, run);
    PassedHeld(r, run);
    hide HeldBack;
  }

  lemma PumpedKeeps(r: Router)
    requires Inv(r)
    ensures Inv(Pumped(r))
  {
    hide RunOk, Registered, Route, Passed;
    if r.waiting.None? && r.handled < |r.log| {
      var m := r.log[r.handled];
      if Route(r, m).Some? || m.thread.None? || m.thread.value !in r.starting {
        PassedKeeps(r);
      } else {
        SameRegistered(r, Pumped(r));
      }
    }
  }

  lemma ResumedKeeps(r: Router)
    requires Inv(r)
    ensures Inv(Resumed(r))
  {
    hide RunOk, Registered, Route, Passed;
    if r.waiting.Some? && r.waiting.value in r.resolved {
      PassedKeeps(r);
    }
  }

  lemma AskedKeeps(r: Router, thread: string)
    requires Inv(r)
    ensures Inv(StartAsked(r, thread))
  {
    hide RunOk, Registered;
    if !r.closed && thread !in r.starting && thread !in r.byThread {
      assert Registered(StartAsked(r, thread)) by { SameRegistered(r, StartAsked(r, thread)); }
    }
  }

  lemma SameRegistered(r: Router, t: Router)
    requires Registered(r) && t.runs == r.runs && t.byTurn == r.byTurn && t.byThread == r.byThread && r.seen <= t.seen
    ensures Registered(t)
  {
  }

  lemma DecidedKeeps(r: Router, thread: string)
    requires Inv(r) && thread in r.starting
    ensures Inv(Decided(r, thread))
  {
    hide RunOk, Registered;
    assert Registered(Decided(r, thread)) by { SameRegistered(r, Decided(r, thread)); }
  }

  lemma SettledRegistered(r: Router, i: nat)
    requires Registered(r)
    ensures Registered(Settle(r, i))
  {
  }

  lemma SettledRun(log: seq<Message>, handled: nat, run: Run)
    requires RunOk(log, handled, run) && run.until.None?
    ensures RunOk(log, handled, run.(until := Some(handled)))
  {
  }

  lemma SettledHeld(r: Router, i: nat)
    requires HeldBack(r) && Suspended(r)
    ensures HeldBack(Settle(r, i)) && Suspended(Settle(r, i))
  {
  }

  lemma SettleKeeps(r: Router, i: nat)
    requires Inv(r)
    ensures Inv(Settle(r, i)) && Settle(r, i).starting == r.starting
  {
    hide Registered, RunOk, HeldBack, Suspended;
    SettledRegistered(r, i);
    SettledHeld(r, i);
    if i < |r.runs| && r.runs[i].until.None? {
      SettledRun(r.log, r.handled, r.runs[i]);
    }
  }

  lemma {:induction false} SettleUpToKeeps(r: Router, n: nat)
    requires Inv(r)
    ensures var t := SettleUpTo(r, n); Inv(t) && t.starting == r.starting
  {
    hide Inv, Settle;
    if n > 0 {
      SettleUpToKeeps(r, n - 1);
      SettleKeeps(SettleUpTo(r, n - 1), n - 1);
    }
  }

  lemma ClosedKeeps(r: Router)
    requires Inv(r)
    ensures Inv(Closed(r)) && Closed(r).starting == r.starting
  {
    if !r.closed {
      assert Inv(r.(closed := true)) by { hide RunOk; SameRegistered(r, r.(closed := true)); }
      SettleUpToKeeps(r.(closed := true), |r.runs|);
    }
    hide Inv, SettleUpTo;
  }

  lemma NewRun(log: seq<Message>, handled: nat, run: Run)
    requires handled <= |log| && run.received == [] && run.until.None?
    requires forall k :: run.from <= k < handled ==> log[k].thread != Some(run.thread)
    ensures RunOk(log, handled, run)
  {
    OwnNone(log, run.from, handled, run.thread, run.turn);
  }

  lemma NamedRegistered(r: Router, run: Run)
    requires Registered(r) && run.turn !in r.seen && run.thread !in r.byThread && run.until.None?
    ensures Registered(r.(runs := r.runs + [run], seen := r.seen + {run.turn},
                          byThread := r.byThread[run.thread := |r.runs|], byTurn := r.byTurn[run.turn := |r.runs|]))
  {
  }

  lemma NamedHeld(r: Router, thread: string, turn: string, run: Run)
    requires HeldBack(r) && Suspended(r) && thread in r.starting
    ensures var named := r.(runs := r.runs + [run], seen := r.seen + {turn},
                            byThread := r.byThread[thread := |r.runs|], byTurn := r.byTurn[turn := |r.runs|]);
      var t := Decided(named, thread);
      HeldBack(t) && Suspended(t)
  {
  }

  lemma NamedRuns(r: Router, run: Run)
    requires forall i :: 0 <= i < |r.runs| ==> RunOk(r.log, r.handled, r.runs[i])
    requires RunOk(r.log, r.handled, run)
    ensures forall i :: 0 <= i < |r.runs + [run]| ==> RunOk(r.log, r.handled, (r.runs + [run])[i])
  {
    hide RunOk;
  }

  lemma FreshRun(r: Router, thread: string, turn: string)
    requires HeldBack(r) && thread in r.starting && r.handled <= |r.log|
    ensures thread !in r.byThread && r.starting[thread].promise < r.promises
    ensures RunOk(r.log, r.handled, Run(thread, turn, r.starting[thread].from, [], None))
  {
    NewRun(r.log, r.handled, Run(thread, turn, r.starting[thread].from, [], None));
    hide RunOk;
  }

  lemma NamedKeeps(r: Router, thread: string, turn: string)
    requires Inv(r) && thread in r.starting && turn !in r.seen
    ensures Inv(StartReplied(r, thread, turn))
  {
    hide RunOk, Registered, HeldBack, Suspended;
    var run := Run(thread, turn, r.starting[thread].from, [], None);
    FreshRun(r, thread, turn);
    NamedRuns(r, run);
    NamedRegistered(r, run);
    NamedHeld(r, thread, turn, run);
    var named := r.(runs := r.runs + [run], seen := r.seen + {turn},
                    byThread := r.byThread[thread := |r.runs|], byTurn := r.byTurn[turn := |r.runs|]);
    SameRegistered(named, Decided(named, thread));
    assert StartReplied(r, thread, turn) == Decided(named, thread);
  }

  lemma RepliedKeeps(r: Router, thread: string, turn: string)
    requires Inv(r)
    ensures Inv(StartReplied(r, thread, turn))
  {
    hide Inv, Closed, Decided;
    if thread in r.starting {
      if turn in r.seen {
        ClosedKeeps(r);
        assert Closed(r).(starting := r.starting) == Closed(r);
        DecidedKeeps(Closed(r), thread);
      } else {
        NamedKeeps(r, thread, turn);
      }
    }
  }

  lemma StepKeeps(r: Router, op: Op)
    requires Inv(r)
    ensures Inv(Step(r, op))
  {
    hide Inv, Pumped, Resumed, StartAsked, StartReplied, Decided, Settle, Closed;
    match op
    case Arrive(m) => ArrivedKeeps(r, m);
    case Pump => PumpedKeeps(r);
    case Resume => ResumedKeeps(r);
    case AskStart(thread) => AskedKeeps(r, thread);
    case Reply(thread, turn) => RepliedKeeps(r, thread, turn);
    case FailStart(thread) => if thread in r.starting { DecidedKeeps(r, thread); }
    case SettleRun(i) => SettleKeeps(r, i);
    case Close => ClosedKeeps(r);
  }

  function RunOf(r: Router, ops: seq<Op>): Router
    decreases |ops|
  {
    if ops == [] then r else RunOf(Step(r, ops[0]), ops[1..])
  }

  lemma {:induction false} RunKeeps(r: Router, ops: seq<Op>)
    requires Inv(r)
    ensures Inv(RunOf(r, ops))
    decreases |ops|
  {
    hide Inv, Step;
    if ops != [] {
      StepKeeps(r, ops[0]);
      RunKeeps(Step(r, ops[0]), ops[1..]);
    }
  }

  /** Whatever the interleaving: every message that names a run's thread and turn, arrived after the run's
      start was requested and was handled before the run settled has reached that run, in wire order, also
      when it came ahead of the reply that named the turn; and no message naming another turn or another
      thread ever did. */
  lemma EarlyEventsReachTheirRun(ops: seq<Op>, i: nat)
    requires i < |RunOf(Initial(), ops).runs|
    ensures var r := RunOf(Initial(), ops);
      var run := r.runs[i];
      && End(r.handled, run) <= |r.log|
      && Carrying(r.log, run.from, run.received) == OwnBetween(r.log, run.from, End(r.handled, run), run.thread,
          run.turn)
      && (forall k: nat :: k in Carrying(r.log, run.from, run.received) <==>
            run.from <= k < End(r.handled, run) && r.log[k] == Message(Some(run.thread), Some(run.turn)))
      && (forall k :: 0 <= k < |run.received| ==>
            run.received[k] < End(r.handled, run) && Meant(r.log[run.received[k]], run))
      && (forall j, k :: 0 <= j < k < |run.received| ==> run.received[j] < run.received[k])
  {
    assert Inv(Initial());
    RunKeeps(Initial(), ops);
    var r := RunOf(Initial(), ops);
    hide RunOf, Registered, HeldBack, Suspended;
    assert RunOk(r.log, r.handled, r.runs[i]);
    OwnMembers(r.log, r.runs[i].from, End(r.handled, r.runs[i]), r.runs[i].thread, r.runs[i].turn);
  }

  lemma {:induction false} OwnMembers(log: seq<Message>, a: nat, b: nat, thread: string, turn: string)
    requires b <= |log|
    ensures forall k: nat :: k in OwnBetween(log, a, b, thread, turn) <==>
      a <= k < b && log[k] == Message(Some(thread), Some(turn))
  {
    if b > a {
      OwnMembers(log, a, b - 1, thread, turn);
    }
  }

  // ---------------------------------------------------------------- the client object

  class CodexRouter {
    var startingByThread: map<string, Starting>
    var activeByThread: map<string, nat>
    var activeByTurn: map<string, nat>
    var seenTurnIds: set<string>
    var closed: bool
    var log: seq<Message>
    var handled: nat
    var waiting: Option<nat>
    var promises: nat
    var resolvedPromises: set<nat>
    var runs: seq<Run>

    ghost function State(): Router
      reads this
    {
      Router(log, handled, waiting, promises, resolvedPromises, startingByThread, activeByThread, activeByTurn,
          seenTurnIds, runs, closed)
    }

    ghost predicate Valid()
      reads this
    {
      Inv(State())
    }

    constructor ()
      ensures Valid() && State() == Initial()
    {
      startingByThread, activeByThread, activeByTurn, seenTurnIds, closed := map[], map[], map[], {}, false;
      log, handled, waiting, promises, resolvedPromises, runs := [], 0, None, 0, {}, [];
    }

    method FindRun(m: Message) returns (run: Option<nat>)
      requires Valid()
      ensures run == Route(State(), m)
    {
      if m.turn.None? || m.turn.value !in activeByTurn {
        return None;
      }
      var i := activeByTurn[m.turn.value];
      if i < |runs| && (m.thread.None? || runs[i].thread == m.thread.value) {
        return Some(i);
      }
      return None;
    }

    method HandOver(run: Option<nat>)
      requires run.Some? ==> run.value < |runs|
      modifies this`handled, this`waiting, this`runs
      ensures State() == Passed(old(State()), run)
    {
      if run.Some? {
        runs := Delivered(runs, run.value, handled);
      }
      handled, waiting := handled + 1, None;
    }

    /** One turn of the pump: route the next message, or wait for the start its thread has pending. */
    method PumpNext()
      requires Valid() && waiting.None? && handled < |log|
      modifies this
      ensures Valid() && State() == Pumped(old(State()))
    {
      hide Inv, Route, Passed;
      PumpedKeeps(State());
      var m := log[handled];
      var run := FindRun(m);
      if run.None? && m.thread.Some? && m.thread.value in startingByThread {
        waiting := Some(startingByThread[m.thread.value].promise);
        return;
      }
      HandOver(run);
    }

    /** The awaited start was decided: route once more, for good. */
    method ResumePump()
      requires Valid() && waiting.Some? && waiting.value in resolvedPromises && handled < |log|
      modifies this
      ensures Valid() && State() == Resumed(old(State()))
    {
      hide Inv, Route, Passed;
      ResumedKeeps(State());
      var run := FindRun(log[handled]);
      HandOver(run);
    }

    method BeginStart(thread: string) returns (begun: bool)
      requires Valid()
      modifies this
      ensures Valid() && State() == StartAsked(old(State()), thread)
      ensures begun == (!old(closed) && thread !in old(startingByThread) && thread !in old(activeByThread))
    {
      hide Inv;
      AskedKeeps(State(), thread);
      if closed || thread in activeByThread || thread in startingByThread {
        return false;
      }
      startingByThread := startingByThread[thread := Starting(promises, |log|)];
      promises := promises + 1;
      return true;
    }

    method Decide(thread: string)
      requires thread in startingByThread
      modifies this`startingByThread, this`resolvedPromises
      ensures State() == Decided(old(State()), thread)
    {
      resolvedPromises := resolvedPromises + {startingByThread[thread].promise};
      startingByThread := startingByThread - {thread};
    }

    /** A turn seen before is fatal; otherwise the run is registered before the waiting pump goes on. */
    method ReplyStart(thread: string, turn: string) returns (ok: bool)
      requires Valid() && thread in startingByThread
      modifies this
      ensures Valid() && State() == StartReplied(old(State()), thread, turn) && ok == (turn !in old(seenTurnIds))
    {
      hide Inv, Settle;
      RepliedKeeps(State(), thread, turn);
      ClosedKeeps(State());
      if turn in seenTurnIds {
        Abort();
        Decide(thread);
        return false;
      }
      seenTurnIds := seenTurnIds + {turn};
      var run := Run(thread, turn, startingByThread[thread].from, [], None);
      activeByThread, activeByTurn := activeByThread[thread := |runs|], activeByTurn[turn := |runs|];
      runs := runs + [run];
      Decide(thread);
      return true;
    }

    method FailStart(thread: string)
      requires Valid() && thread in startingByThread
      modifies this
      ensures Valid() && State() == StartFailed(old(State()), thread)
    {
      hide Inv;
      DecidedKeeps(State(), thread);
      Decide(thread);
    }

    /** A settled run is forgotten, unless its thread or turn stands for another one by now. */
    method OnRunTerminal(i: nat)
      modifies this`runs, this`activeByThread, this`activeByTurn
      ensures State() == Settle(old(State()), i)
    {
      if i >= |runs| || runs[i].until.Some? {
        return;
      }
      var run := runs[i];
      runs := runs[i := run.(until := Some(handled))];
      if run.thread in activeByThread && activeByThread[run.thread] == i {
        activeByThread := activeByThread - {run.thread};
      }
      if run.turn in activeByTurn && activeByTurn[run.turn] == i {
        activeByTurn := activeByTurn - {run.turn};
      }
    }

    method Abort()
      modifies this
      ensures State() == Closed(old(State()))
    {
      hide Settle;
      if closed {
        return;
      }
      closed := true;
      ghost var was := State();
      var n := |runs|;
      for i := 0 to n
        invariant State() == SettleUpTo(was, i)
      {
        OnRunTerminal(i);
      }
    }
  }
}
