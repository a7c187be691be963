/** The Hermes client's sessions: which may start, run or branch, and which never may again. */
module HermesSessions {
  import opened Prelude
  import H = HermesRun

  datatype Hosted = Hosted(session: string, run: H.Run)

  /** One `startRun` call under way; `closed` once its session handle or the client was closed. */
  datatype Call = Call(session: string, closed: bool)

  /** `starting` names the call that holds a session, `active` the run. */
  datatype Client = Client(
    runs: seq<Hosted>, calls: map<nat, Call>, nextCall: nat, starting: map<string, nat>, active: map<string, nat>,
    branching: set<string>, quarantined: set<string>, retired: set<string>, known: set<string>)

  function Initial(): Client {
    Client([], map[], 0, map[], map[], {}, {}, {}, {})
  }

  predicate Reusable(c: Client, s: string) {
    s !in c.branching && s !in c.retired && s !in c.quarantined
  }

  predicate Free(c: Client, s: string) {
    Reusable(c, s) && s !in c.active && s !in c.starting
  }

  function StartAsked(c: Client, s: string): Client {
    if !Free(c, s) then c
    else
      c.(calls := c.calls[c.nextCall := Call(s, false)], starting := c.starting[s := c.nextCall],
         nextCall := c.nextCall + 1)
  }

  function Released(c: Client, s: string, call: nat): Client {
    if s in c.starting && c.starting[s] == call then c.(starting := c.starting - {s}) else c
  }

  /** The native start failed. Unless the provider certainly refused it, nobody knows what the session does now. */
  function StartFailed(c: Client, call: nat, refused: bool): Client {
    if call !in c.calls then c
    else
      var a := c.calls[call];
      var t := Released(c.(calls := c.calls - {call}), a.session, call);
      if a.closed || !refused then t.(quarantined := c.quarantined + {a.session}) else t
  }

  /** The native start succeeded, for a call nobody gave up meanwhile. */
  function StartSucceeded(c: Client, call: nat, run: H.Run): Client {
    if call !in c.calls then c
    else
      var a := c.calls[call];
      var t := Released(c.(calls := c.calls - {call}), a.session, call);
      if a.closed || a.session !in c.starting || c.starting[a.session] != call
      then t.(quarantined := c.quarantined + {a.session})
      else t.(runs := c.runs + [Hosted(a.session, run)], active := c.active[a.session := |c.runs|])
  }

  function Replaced(c: Client, i: nat, t: H.Run): Client
    requires i < |c.runs|
  {
    var s := c.runs[i].session;
    c.(runs := c.runs[i := Hosted(s, t)],
       active := if t.result.Some? && s in c.active && c.active[s] == i then c.active - {s} else c.active,
       quarantined := if t.unsafe then c.quarantined + {s} else c.quarantined)
  }

  /** A run makes a step: the client forgets a settled run and remembers an unsafe session. */
  function RunStepped(c: Client, i: nat, op: H.Op): Client {
    if i < |c.runs| then Replaced(c, i, H.Step(c.runs[i].run, op)) else c
  }

  /** A session handle is closed: its start is given up, its run aborted. */
  function HandleClosed(c: Client, s: string): Client {
    var marked := if s in c.starting && c.starting[s] in c.calls
                  then c.(calls := c.calls[c.starting[s] := c.calls[c.starting[s]].(closed := true)]) else c;
    if s in c.active then RunStepped(marked, c.active[s], H.GiveUpRun) else marked
  }

  function BranchAsked(c: Client, s: string): Client {
    if Free(c, s) then c.(branching := c.branching + {s}) else c
  }

  /** A branch ends: its parent is retired in favour of the child, or left in doubt once the fork was requested. */
  function BranchEnded(c: Client, s: string, child: Option<string>, requested: bool): Client {
    if s !in c.branching then c
    else if child.Some?
    then c.(branching := c.branching - {s}, retired := c.retired + {s}, known := c.known + {child.value})
    else c.(branching := c.branching - {s}, quarantined := if requested then c.quarantined + {s} else c.quarantined)
  }

  /** The answer to a resume, which is asked only for a reusable session, but may come when it no longer is:
      the session turns out branched elsewhere, or is known from now on. */
  function Resumed(c: Client, s: string, branched: bool): Client {
    if branched then c.(retired := c.retired + {s}) else c.(known := c.known + {s})
  }

  // ---------------------------------------------------------------- every interleaving

  datatype Op =
    | AskStart(s: string) | FailStart(call: nat, refused: bool) | SucceedStart(call: nat, run: H.Run)
    | StepRun(i: nat, op: H.Op) | CloseHandle(s: string)
    | AskBranch(s: string) | EndBranch(s: string, child: Option<string>, requested: bool)
        | AnswerResume(s: string, branched: bool)

  /** A started run is a fresh one, and its steps are those a run can make. */
  ghost predicate Legal(op: Op) {
    && (op.SucceedStart? ==> H.Inv(op.run) && op.run.result.None?)
  }

  function Step(c: Client, op: Op): Client {
    match op
    case AskStart(s) => StartAsked(c, s)
    case FailStart(call, refused) => StartFailed(c, call, refused)
    case SucceedStart(call, run) => StartSucceeded(c, call, run)
    case StepRun(i, o) => RunStepped(c, i, o)
    case CloseHandle(s) => HandleClosed(c, s)
    case AskBranch(s) => BranchAsked(c, s)
    case EndBranch(s, child, requested) => BranchEnded(c, s, child, requested)
    case AnswerResume(s, branched) => Resumed(c, s, branched)
  }

  /** A session is in at most one of starting, active and branching, and then not quarantined. */
  ghost predicate Exclusive(c: Client) {
    && c.starting.Keys !! c.active.Keys && c.starting.Keys !! c.branching && c.active.Keys !! c.branching
    && c.quarantined !! c.starting.Keys && c.quarantined !! c.active.Keys && c.quarantined !! c.branching
  }

  ghost predicate RunsOk(c: Client) {
    && (forall i :: 0 <= i < |c.runs| ==>
          H.Inv(c.runs[i].run) && (c.runs[i].run.unsafe ==> c.runs[i].session in c.quarantined))
    && (forall i :: 0 <= i < |c.runs| && c.runs[i].run.result.None? ==>
          c.runs[i].session in c.active && c.active[c.runs[i].session] == i)
    && (forall s :: s in c.active ==>
          c.active[s] < |c.runs| && c.runs[c.active[s]].session == s && c.runs[c.active[s]].run.result.None?)
  }

  /** Each start call under way holds its session. */
  ghost predicate CallsOk(c: Client) {
    && (forall call :: call in c.calls ==>
          call < c.nextCall && c.calls[call].session in c.starting && c.starting[c.calls[call].session] == call)
    && (forall s :: s in c.starting ==> c.starting[s] in c.calls && c.calls[c.starting[s]].session == s)
  }

  ghost predicate Inv(c: Client) {
    Exclusive(c) && RunsOk(c) && CallsOk(c)
  }

  lemma StartAskedKeeps(c: Client, s: string)
    requires Inv(c)
    ensures Inv(StartAsked(c, s))
  {
    hide H.Inv;
  }

  lemma StartFailedKeeps(c: Client, call: nat, refused: bool)
    requires Inv(c)
    ensures Inv(StartFailed(c, call, refused))
  {
    hide H.Inv;
  }

  lemma StartSucceededKeeps(c: Client, call: nat, run: H.Run)
    requires Inv(c) && H.Inv(run) && run.result.None?
    ensures Inv(StartSucceeded(c, call, run))
  {
    hide H.Inv;
    UnsettledSafe(run);
  }

  lemma UnsettledSafe(run: H.Run)
    requires H.Inv(run) && run.result.None?
    ensures !run.unsafe
  {
    hide H.Core, H.Informed, H.Justified;
  }

  /** Settled runs stay settled and safe ones stay safe; an unsettled run is safe. */
  lemma RunFacts(run: H.Run, op: H.Op)
    requires H.Inv(run)
    ensures var t := H.Step(run, op);
      && H.Inv(t) && (run.result.Some? ==> t.result.Some? && t.unsafe == run.unsafe) && (t.result.None? ==> !t.unsafe)
  {
    hide H.Inv, H.Step;
    H.StepKeeps(run, op);
    if run.result.Some? {
      H.ResultStays(run, op);
      if !run.unsafe {
        H.SafeStaysSafe(run, op);
      }
    } else if H.Step(run, op).result.None? {
      UnsettledSafe(H.Step(run, op));
    }
  }

  lemma ReplacedRuns(c: Client, i: nat, t: H.Run)
    requires RunsOk(c) && i < |c.runs| && H.Inv(t)
    requires c.runs[i].run.result.Some? ==> t.result.Some?
    ensures RunsOk(Replaced(c, i, t))
  {
    hide H.Inv;
  }

  lemma ReplacedExclusive(c: Client, i: nat, t: H.Run)
    requires Exclusive(c) && RunsOk(c) && i < |c.runs|
    requires (c.runs[i].run.result.Some? ==> t.unsafe == c.runs[i].run.unsafe) && (t.result.None? ==> !t.unsafe)
    ensures Exclusive(Replaced(c, i, t))
  {
    hide H.Inv;
  }

  lemma HostedInv(c: Client, i: nat)
    requires RunsOk(c) && i < |c.runs|
    ensures H.Inv(c.runs[i].run)
  {
  }

  lemma RunSteppedKeeps(c: Client, i: nat, op: H.Op)
    requires Inv(c)
    ensures Inv(RunStepped(c, i, op))
  {
    hide H.Step, H.Inv, Exclusive, RunsOk;
    if i < |c.runs| {
      var run, t := c.runs[i].run, H.Step(c.runs[i].run, op);
      HostedInv(c, i);
      RunFacts(run, op);
      ReplacedRuns(c, i, t);
      ReplacedExclusive(c, i, t);
      assert RunStepped(c, i, op) == Replaced(c, i, t);
    }
  }

  lemma HandleClosedKeeps(c: Client, s: string)
    requires Inv(c)
    ensures Inv(HandleClosed(c, s))
  {
    hide H.Inv, RunStepped;
    var marked := if s in c.starting && c.starting[s] in c.calls
                  then c.(calls := c.calls[c.starting[s] := c.calls[c.starting[s]].(closed := true)]) else c;
    assert Inv(marked);
    hide Inv;
    if s in c.active {
      RunSteppedKeeps(marked, c.active[s], H.GiveUpRun);
    }
  }

  lemma BranchKeeps(c: Client, s: string, child: Option<string>, requested: bool)
    requires Inv(c)
    ensures Inv(BranchAsked(c, s)) && Inv(BranchEnded(c, s, child, requested))
  {
    hide H.Inv;
  }

  lemma StepKeeps(c: Client, op: Op)
    requires Inv(c) && Legal(op)
    ensures Inv(Step(c, op))
  {
    hide Inv, StartAsked, StartFailed, StartSucceeded, RunStepped, HandleClosed, BranchAsked, BranchEnded, Resumed,
        H.Inv;
    match op
    case AskStart(s) => StartAskedKeeps(c, s);
    case FailStart(call, refused) => StartFailedKeeps(c, call, refused);
    case SucceedStart(call, run) => StartSucceededKeeps(c, call, run);
    case StepRun(i, o) => RunSteppedKeeps(c, i, o);
    case CloseHandle(s) => HandleClosedKeeps(c, s);
    case AskBranch(s) => BranchKeeps(c, s, None, false);
    case EndBranch(s, child, requested) => BranchKeeps(c, s, child, requested);
    case AnswerResume(s, branched) => ResumedKeeps(c, s, branched);
  }

  lemma ResumedKeeps(c: Client, s: string, branched: bool)
    requires Inv(c)
    ensures Inv(Resumed(c, s, branched))
  {
    hide H.Inv;
  }

  // ---------------------------------------------------------------- whole runs

  function RunOf(c: Client, ops: seq<Op>): Client
    decreases |ops|
  {
    if ops == [] then c else RunOf(Step(c, ops[0]), ops[1..])
  }

  lemma {:induction false} RunKeeps(c: Client, ops: seq<Op>)
    requires Inv(c) && forall i :: 0 <= i < |ops| ==> Legal(ops[i])
    ensures Inv(RunOf(c, ops))
    decreases |ops|
  {
    hide Inv, Step, Legal;
    if ops != [] {
      StepKeeps(c, ops[0]);
      RunKeeps(Step(c, ops[0]), ops[1..]);
    }
  }

  /** From the start, over every interleaving: no session is in two of starting, active and branching at
      once, and none that is starting, active or branching is quarantined. */
  lemma SessionsExclusive(ops: seq<Op>, s: string)
    requires forall i :: 0 <= i < |ops| ==> Legal(ops[i])
    ensures var c := RunOf(Initial(), ops);
      && !(s in c.starting && s in c.active) && !(s in c.starting && s in c.branching)
          && !(s in c.active && s in c.branching)
      && (s in c.quarantined ==> s !in c.starting && s !in c.active && s !in c.branching)
  {
    hide RunOf, Legal, RunsOk, CallsOk;
    InitialKeeps();
    RunKeeps(Initial(), ops);
  }

  lemma InitialKeeps()
    ensures Inv(Initial())
  {
  }

  /** A session given up for good: quarantined or retired, and not in use. */
  ghost predicate GivenUp(c: Client, s: string) {
    && (s in c.quarantined || s in c.retired)
    && s !in c.starting && s !in c.active && s !in c.branching
  }

  function RunsFor(runs: seq<Hosted>, s: string): nat {
    if runs == [] then 0 else RunsFor(runs[..|runs| - 1], s) + if runs[|runs| - 1].session == s then 1 else 0
  }

  lemma {:induction false} SameSessions(a: seq<Hosted>, b: seq<Hosted>, s: string)
    requires |a| == |b| && forall i :: 0 <= i < |a| ==> a[i].session == b[i].session
    ensures RunsFor(a, s) == RunsFor(b, s)
  {
    if a != [] {
      SameSessions(a[..|a| - 1], b[..|b| - 1], s);
    }
  }

  lemma MoreRuns(runs: seq<Hosted>, h: Hosted, s: string)
    ensures RunsFor(runs + [h], s) == RunsFor(runs, s) + if h.session == s then 1 else 0
  {
    assert (runs + [h])[..|runs|] == runs;
  }

  lemma StepGivenUp(c: Client, op: Op, s: string)
    requires Inv(c) && Legal(op) && GivenUp(c, s)
    ensures GivenUp(Step(c, op), s) && RunsFor(Step(c, op).runs, s) == RunsFor(c.runs, s)
  {
    hide H.Inv, H.Step, RunsOk, Legal;
    match op
    case SucceedStart(call, run) =>
      if call in c.calls {
        MoreRuns(c.runs, Hosted(c.calls[call].session, run), s);
      }
    case StepRun(i, o) => SameSessions(c.runs, Step(c, op).runs, s);
    case CloseHandle(other) => SameSessions(c.runs, Step(c, op).runs, s);
    case _ =>
  }

  /** A quarantined session, or one retired by its own branch, never starts, runs, resumes or branches again. */
  lemma {:induction false} GivenUpForGood(c: Client, ops: seq<Op>, s: string)
    requires Inv(c) && GivenUp(c, s) && forall i :: 0 <= i < |ops| ==> Legal(ops[i])
    ensures var t := RunOf(c, ops);
      && GivenUp(t, s) && RunsFor(t.runs, s) == RunsFor(c.runs, s)
      && !Reusable(t, s) && StartAsked(t, s) == t && BranchAsked(t, s) == t
    decreases |ops|
  {
    hide Inv, Step, Legal;
    if ops != [] {
      StepKeeps(c, ops[0]);
      StepGivenUp(c, ops[0], s);
      GivenUpForGood(Step(c, ops[0]), ops[1..], s);
    }
  }

  /** Quarantine alone is enough to be given up, and so is a successful branch. */
  lemma HowSessionsEnd(c: Client, s: string, child: string)
    requires Inv(c)
    ensures s in c.quarantined ==> GivenUp(c, s)
    ensures s in c.branching ==>
      GivenUp(BranchEnded(c, s, Some(child), true), s) && GivenUp(BranchEnded(c, s, None, true), s)
  {
    hide RunsOk, CallsOk;
  }

  // ---------------------------------------------------------------- the client object

  class HermesClient {
    var startingBySession: map<string, nat>
    var activeBySession: map<string, nat>
    var branchingSessions: set<string>
    var quarantinedSessions: set<string>
    var retiredSessions: set<string>
    var knownSessions: set<string>
    var calls: map<nat, Call>
    var nextCall: nat
    var runs: seq<Hosted>

    ghost function State(): Client
      reads this
    {
      Client(runs, calls, nextCall, startingBySession, activeBySession, branchingSessions, quarantinedSessions,
          retiredSessions, knownSessions)
    }

    ghost predicate Valid()
      reads this
    {
      Inv(State())
    }

    constructor ()
      ensures Valid() && State() == Initial()
    {
      startingBySession, activeBySession, calls, nextCall, runs := map[], map[], map[], 0, [];
      branchingSessions, quarantinedSessions, retiredSessions, knownSessions := {}, {}, {}, {};
      new;
      InitialKeeps();
    }

    method SessionReusable(s: string) returns (ok: bool)
      ensures ok == Reusable(State(), s)
    {
      return s !in branchingSessions && s !in retiredSessions && s !in quarantinedSessions;
    }

    method BeginStart(s: string) returns (call: Option<nat>)
      requires Valid()
      modifies this
      ensures Valid() && State() == StartAsked(old(State()), s)
      ensures call == if Free(old(State()), s) then Some(old(nextCall)) else None
    {
      hide Inv;
      StartAskedKeeps(State(), s);
      var reusable := SessionReusable(s);
      if !reusable || s in activeBySession || s in startingBySession {
        return None;
      }
      call := Some(nextCall);
      calls, startingBySession := calls[nextCall := Call(s, false)], startingBySession[s := nextCall];
      nextCall := nextCall + 1;
    }

    method Release(s: string, call: nat)
      modifies this`startingBySession
      ensures State() == Released(old(State()), s, call)
    {
      if s in startingBySession && startingBySession[s] == call {
        startingBySession := startingBySession - {s};
      }
    }

    method FailStart(call: nat, refused: bool)
      requires Valid() && call in calls
      modifies this
      ensures Valid() && State() == StartFailed(old(State()), call, refused)
    {
      hide Inv;
      StartFailedKeeps(State(), call, refused);
      var a := calls[call];
      calls := calls - {call};
      Release(a.session, call);
      if a.closed || !refused {
        quarantinedSessions := quarantinedSessions + {a.session};
      }
    }

    /** The session is handed over only if the call still holds it; otherwise it is quarantined. */
    method SucceedStart(call: nat, run: H.Run) returns (started: bool)
      requires Valid() && call in calls && H.Inv(run) && run.result.None?
      modifies this
      ensures Valid() && State() == StartSucceeded(old(State()), call, run)
      ensures started <==> |runs| == old(|runs|) + 1
    {
      hide Inv, H.Inv;
      StartSucceededKeeps(State(), call, run);
      var a := calls[call];
      var held := a.session in startingBySession && startingBySession[a.session] == call;
      calls := calls - {call};
      Release(a.session, call);
      if a.closed || !held {
        quarantinedSessions := quarantinedSessions + {a.session};
        return false;
      }
      activeBySession := activeBySession[a.session := |runs|];
      runs := runs + [Hosted(a.session, run)];
      return true;
    }

    /** A run has moved on to `t`: forget it once settled, quarantine its session once unsafe. */
    method RunMoved(i: nat, op: H.Op)
      requires Valid() && i < |runs|
      modifies this
      ensures Valid() && State() == RunStepped(old(State()), i, op)
    {
      hide Inv, H.Step;
      RunSteppedKeeps(State(), i, op);
      var s, t := runs[i].session, H.Step(runs[i].run, op);
      runs := runs[i := Hosted(s, t)];
      if t.result.Some? && s in activeBySession && activeBySession[s] == i {
        activeBySession := activeBySession - {s};
      }
      if t.unsafe {
        quarantinedSessions := quarantinedSessions + {s};
      }
    }

    method BeginBranch(s: string) returns (begun: bool)
      requires Valid()
      modifies this
      ensures Valid() && State() == BranchAsked(old(State()), s) && begun == Free(old(State()), s)
    {
      hide Inv;
      BranchKeeps(State(), s, None, false);
      var reusable := SessionReusable(s);
      if !reusable || s in activeBySession || s in startingBySession {
        return false;
      }
      branchingSessions := branchingSessions + {s};
      return true;
    }

    method EndBranch(s: string, child: Option<string>, requested: bool)
      requires Valid() && s in branchingSessions
      modifies this
      ensures Valid() && State() == BranchEnded(old(State()), s, child, requested)
    {
      hide Inv;
      BranchKeeps(State(), s, child, requested);
      if child.Some? {
        retiredSessions, knownSessions := retiredSessions + {s}, knownSessions + {child.value};
      } else if requested {
        quarantinedSessions := quarantinedSessions + {s};
      }
      branchingSessions := branchingSessions - {s};
    }
  }
}
