/** Runs of the JSON-RPC transport in which every identifier is used and a reply goes astray. */
module ReusedIdentifiers {
  import opened Prelude
  import opened RequestIds
  import opened JsonRpcRequests

  lemma {:induction false} RunSplits(l: Limits, s: Rpc, a: seq<Op>, b: seq<Op>)
    requires Inv(l, s)
    ensures Run(l, s, a + b) == Run(l, Run(l, s, a), b)
    decreases |a|
  {
    hide Inv, Step;
    if a == [] {
      assert a + b == b;
    } else {
      StepKeeps(l, s, a[0]);
      assert (a + b)[0] == a[0] && (a + b)[1..] == a[1..] + b;
      RunSplits(l, Step(l, s, a[0]), a[1..], b);
    }
  }

  /** `n` requests, each timing out at once while the first frame keeps the write queue full. */
  function ExpiredCalls(n: nat): seq<Op> {
    if n == 0 then [] else ExpiredCalls(n - 1) + [Issue(false, true), Expire(IdAt(n - 1))]
  }

  function ExpiredRequests(n: nat): (r: seq<Request>)
    ensures |r| == n && forall i :: 0 <= i < n ==> r[i] == Request.Request(i, false, false, false, [Failed])
  {
    if n == 0 then [] else ExpiredRequests(n - 1) + [Request.Request(n - 1, false, false, false, [Failed])]
  }

  function FailedAfterFirst(n: nat): set<nat> {
    if n <= 1 then {} else FailedAfterFirst(n - 1) + {n - 1}
  }

  function AfterExpiredCalls(n: nat): Rpc {
    Rpc(true, n, ExpiredRequests(n), map[], 0, 0, map[],
        if n == 0 then [] else [Some(0)], None, [], FailedAfterFirst(n))
  }

  lemma RunTwo(l: Limits, s: Rpc, a: Op, b: Op)
    requires Inv(l, s)
    ensures Inv(l, Step(l, s, a)) && Run(l, s, [a, b]) == Step(l, Step(l, s, a), b)
  {
    hide Inv, Step;
    StepKeeps(l, s, a);
    StepKeeps(l, Step(l, s, a), b);
    assert [a, b][1..] == [b] && [b][1..] == [];
    assert Run(l, Step(l, s, a), [b]) == Run(l, Step(l, Step(l, s, a), b), []);
  }

  /** A request made while none is pending, and its expiry. */
  lemma ExpiredCall(l: Limits, s: Rpc)
    requires Inv(l, s) && s.open && s.pending == map[] && s.held == map[] && l.maxPending > 0
    ensures var issued := Step(l, s, Issue(false, true));
      var r := s.(probes := s.probes + 1, requests := s.requests + [Request.Request(s.probes, false, false, false, [])],
                  pending := map[IdAt(s.probes) := |s.requests|]);
      && Inv(l, issued)
      && issued == Enqueued(l, r, |s.requests|)
      && Step(l, issued, Expire(IdAt(s.probes))) ==
         issued.(pending := map[], requests := s.requests + [Request.Request(s.probes, false, false, false, [Failed])])
  {
    hide IdAt;
    StepKeeps(l, s, Issue(false, true));
    hide Inv;
    var issued := Step(l, s, Issue(false, true));
    assert FirstFree({}, s.probes) == s.probes;
    assert s.pending.Keys == {};
    var n := |s.requests|;
    assert issued.pending == map[IdAt(s.probes) := n];
    assert issued.requests == s.requests + [Request.Request(s.probes, false, false, false, [])];
    assert issued.pending - {IdAt(s.probes)} == map[];
    var none: seq<Settlement> := [];
    assert none + [Failed] == [Failed];
    assert Extended(issued.requests, n, Failed) == s.requests
        + [Request.Request(s.probes, false, false, false, [Failed])];
  }

  lemma {:induction false} ExpiredCallsRun(n: nat)
    ensures Inv(Limits(1, 1), Initial()) && Run(Limits(1, 1), Initial(), ExpiredCalls(n)) == AfterExpiredCalls(n)
  {
    var l := Limits(1, 1);
    InitialInv(l);
    hide Inv, Step, IdAt;
    if n == 0 {
      assert Run(l, Initial(), []) == Initial();
    } else {
      hide AfterExpiredCalls, Run, Initial;
      ExpiredCallsRun(n - 1);
      assert ExpiredCalls(n) == ExpiredCalls(n - 1) + [Issue(false, true), Expire(IdAt(n - 1))];
      hide ExpiredCalls;
      RunSplits(l, Initial(), ExpiredCalls(n - 1), [Issue(false, true), Expire(IdAt(n - 1))]);
      NextExpiredCall(n - 1);
    }
  }

  lemma NextExpiredCall(n: nat)
    requires Inv(Limits(1, 1), AfterExpiredCalls(n))
    ensures Run(Limits(1, 1), AfterExpiredCalls(n), [Issue(false, true), Expire(IdAt(n))]) == AfterExpiredCalls(n + 1)
  {
    var l, s := Limits(1, 1), AfterExpiredCalls(n);
    hide Inv, Step, IdAt, Run;
    ExpiredCall(l, s);
    RunTwo(l, s, Issue(false, true), Expire(IdAt(n)));
    var t := Step(l, Step(l, s, Issue(false, true)), Expire(IdAt(n)));
    hide ExpiredCalls;
    assert t.requests == ExpiredRequests(n + 1);
    hide ExpiredRequests;
    assert t.failures == FailedAfterFirst(n + 1);
    hide FailedAfterFirst;
    assert t.queue == [Some(0)];
  }

  /** A run that does mislead: once every identifier has been used, the frame of the
      first, long expired request goes out on behalf of the newest one, and a reply settles that request
      although its own frame never reached the stream. */
  lemma ReusedIdentifierMisleads(reply: Reply)
    ensures var l := Limits(1, 1);
      var ops := ExpiredCalls(MAX_SAFE_INTEGER) + [Issue(false, true), Turn(true)] + [Response(0, reply)];
      Inv(l, Initial()) && var t := Run(l, Initial(), ops);
      && |t.requests| == MAX_SAFE_INTEGER + 1
      && t.requests[MAX_SAFE_INTEGER].settlements == [Answered(Some(0), reply, 0)]
      && t.wire == [Some(0)] && !Own(t)
  {
    hide Inv, Requested, Turned, Responded, AfterExpiredCalls, ExpiredCalls, Run;
    var l, n := Limits(1, 1), MAX_SAFE_INTEGER;
    ExpiredCallsRun(n);
    var s := AfterExpiredCalls(n);
    RunSplits(l, Initial(), ExpiredCalls(n), [Issue(false, true), Turn(true)]);
    RunSplits(l, Initial(), ExpiredCalls(n) + [Issue(false, true), Turn(true)], [Response(0, reply)]);
    RunTwo(l, s, Issue(false, true), Turn(true));
    RunOne(l, Run(l, s, [Issue(false, true), Turn(true)]), Response(0, reply));
    assert IdAt(n) == 1 && IdAt(0) == 1;
    WrappedCall(l, n, reply);
    MisdirectedAnswer(Run(l, Initial(), ExpiredCalls(n) + [Issue(false, true), Turn(true)] + [Response(0, reply)]), n);
  }

  lemma RunOne(l: Limits, s: Rpc, a: Op)
    requires Inv(l, s)
    ensures Run(l, s, [a]) == Step(l, s, a)
  {
    hide Inv, Step;
    StepKeeps(l, s, a);
    assert [a][1..] == [];
  }

  lemma WrappedCall(l: Limits, n: nat, reply: Reply)
    requires l == Limits(1, 1) && Inv(l, AfterExpiredCalls(n)) && n > 0 && IdAt(n) == IdAt(0)
    ensures var a := Step(l, AfterExpiredCalls(n), Issue(false, true));
      Inv(l, a) && var b := Step(l, a, Turn(true));
      Inv(l, b) && var t := Step(l, b, Response(0, reply));
      |t.requests| == n + 1 && t.requests[n].settlements == [Answered(Some(0), reply, 0)] && t.wire == [Some(0)]
  {
    hide Inv, Requested, Turned, Responded, IdAt;
    var s := AfterExpiredCalls(n);
    ExpiredCall(l, s);
    var a := Step(l, s, Issue(false, true));
    assert a.requests[0] == ExpiredRequests(n)[0];
    hide ExpiredRequests, FailedAfterFirst;
    StepKeeps(l, a, Turn(true));
    WrappedTurn(a, n, reply);
  }

  lemma WrappedTurn(a: Rpc, n: nat, reply: Reply)
    requires a.open && a.writing.None? && a.queue == [Some(0)] && a.wire == [] && a.sequence == 0
    requires n > 0 && |a.requests| == n + 1 && a.requests[0].probe == 0
        && a.requests[n] == Request.Request(n, false, false, false, [])
    requires a.pending == map[IdAt(0) := n]
    ensures var b := Turned(a, true);
      && b.pending == map[IdAt(0) := n] && n < |b.requests|
      && var t := Replied(b, 0, reply);
      |t.requests| == n + 1 && t.requests[n].settlements == [Answered(Some(0), reply, 0)] && t.wire == [Some(0)]
  {
    hide IdAt;
    assert IdOf(a.requests[0]) == IdAt(0);
  }

  /** The first frame is written before its request times out; then as above, until every identifier is used. */
  function LateCalls(n: nat): seq<Op> {
    if n <= 1 then [Issue(false, true), Turn(true)] + [Flush, Expire(IdAt(0))]
    else LateCalls(n - 1) + [Issue(false, true), Expire(IdAt(n - 1))]
  }

  /** Nothing pending, one frame written, and at most one queued. */
  ghost predicate Idle(l: Limits, s: Rpc, n: nat) {
    && Inv(l, s) && s.open && s.pending == map[] && s.held == map[] && s.writing.None? && s.sequence == 0
    && s.wire == [Some(0)] && |s.queue| <= 1 && (s.queue != [] ==> s.queue[0].Some?)
    && s.probes == n == |s.requests| && n > 0 && s.requests[0].probe == 0
  }

  lemma FirstWritten(l: Limits)
    requires l == Limits(1, 1)
    ensures Inv(l, Initial()) && Idle(l, Run(l, Initial(), LateCalls(1)), 1)
  {
    InitialInv(l);
    hide Inv, Step, IdAt, Run;
    var a, b := [Issue(false, true), Turn(true)], [Flush, Expire(IdAt(0))];
    RunSplits(l, Initial(), a, b);
    RunTwo(l, Initial(), Issue(false, true), Turn(true));
    var s := Step(l, Step(l, Initial(), Issue(false, true)), Turn(true));
    assert Run(l, Initial(), a) == s;
    RunTwo(l, s, Flush, Expire(IdAt(0)));
    WrittenCall(l);
  }

  lemma WrittenCall(l: Limits)
    requires l == Limits(1, 1) && Inv(l, Initial())
    ensures var i := Step(l, Initial(), Issue(false, true));
      Inv(l, i) && var t := Step(l, i, Turn(true));
      Inv(l, t) && var f := Step(l, t, Flush);
      Inv(l, f) && Idle(l, Step(l, f, Expire(IdAt(0))), 1)
  {
    hide Inv, IdAt;
    ExpiredCall(l, Initial());
    var i := Step(l, Initial(), Issue(false, true));
    StepKeeps(l, i, Turn(true));
    var t := Step(l, i, Turn(true));
    assert IdOf(i.requests[0]) == IdAt(0) && i.pending == map[IdAt(0) := 0];
    StepKeeps(l, t, Flush);
    var f := Step(l, t, Flush);
    StepKeeps(l, f, Expire(IdAt(0)));
    assert f.pending - {IdAt(0)} == map[];
  }

  lemma IdleCall(l: Limits, s: Rpc, n: nat)
    requires l == Limits(1, 1) && Idle(l, s, n)
    ensures Idle(l, Run(l, s, [Issue(false, true), Expire(IdAt(n))]), n + 1)
  {
    hide Inv, Step, IdAt, Run;
    ExpiredCall(l, s);
    RunTwo(l, s, Issue(false, true), Expire(IdAt(n)));
    StepKeeps(l, Step(l, s, Issue(false, true)), Expire(IdAt(n)));
  }

  lemma {:induction false} LateCallsRun(n: nat)
    requires n > 0
    ensures var l := Limits(1, 1); Inv(l, Initial()) && Idle(l, Run(l, Initial(), LateCalls(n)), n)
  {
    var l := Limits(1, 1);
    FirstWritten(l);
    hide Idle, Run, Inv, IdAt;
    if n > 1 {
      LateCallsRun(n - 1);
      RunSplits(l, Initial(), LateCalls(n - 1), [Issue(false, true), Expire(IdAt(n - 1))]);
      IdleCall(l, Run(l, Initial(), LateCalls(n - 1)), n - 1);
    }
  }

  lemma StaleDropped(l: Limits, s: Rpc, n: nat)
    requires Idle(l, s, n)
    ensures var a := Step(l, s, Turn(true));
      && a == s.(queue := []) && a.open && a.pending == map[] && a.held == map[] && a.writing.None?
      && a.wire == [Some(0)] && a.sequence == 0 && a.probes == n == |a.requests| && n > 0 && a.requests[0].probe == 0
  {
    hide IdAt, Allocated, Correlated, Barred;
    assert s.queue != [] ==> s.queue[1..] == [];
  }

  /** A stale frame still queued is dropped, the newest request is written under the first one's identifier. */
  lemma ReusedCall(l: Limits, s: Rpc, n: nat, reply: Reply)
    requires l == Limits(1, 1) && Idle(l, s, n) && IdAt(n) == IdAt(0)
    ensures var a := Step(l, s, Turn(true));
      Inv(l, a) && var b := Step(l, a, Issue(false, true));
      Inv(l, b) && var c := Step(l, b, Turn(true));
      Inv(l, c) && var t := Step(l, c, Response(0, reply));
      && |t.requests| == n + 1 && t.requests[n].settlements == [Answered(Some(0), reply, 0)]
      && t.wire == [Some(0), Some(n)]
  {
    StepKeeps(l, s, Turn(true));
    var a := Step(l, s, Turn(true));
    StaleDropped(l, s, n);
    hide Inv, IdAt, Idle, Turned;
    ExpiredCall(l, a);
    var b := Step(l, a, Issue(false, true));
    assert b.queue == [Some(n)] && b.requests[0] == s.requests[0];
    assert b.pending == map[IdAt(0) := n];
    hide Requested;
    StepKeeps(l, b, Turn(true));
    ReusedTurn(b, n, reply);
  }

  lemma ReusedTurn(b: Rpc, n: nat, reply: Reply)
    requires b.open && b.writing.None? && b.queue == [Some(n)] && b.wire == [Some(0)] && b.sequence == 0
    requires n > 0 && |b.requests| == n + 1 && b.requests[0].probe == 0
    requires b.requests[n] == Request.Request(n, false, false, false, []) && IdAt(n) == IdAt(0)
    requires b.pending == map[IdAt(0) := n]
    ensures var c := Turned(b, true);
      && c.pending == map[IdAt(0) := n] && n < |c.requests|
      && var t := Replied(c, 0, reply);
      && |t.requests| == n + 1 && t.requests[n].settlements == [Answered(Some(0), reply, 0)]
      && t.wire == [Some(0), Some(n)]
  {
    hide IdAt;
    assert IdOf(b.requests[0]) == IdAt(0) && IdOf(b.requests[n]) == IdAt(0);
  }

  /** Another run that misleads, with no frame written in another one's place: the reply to the first, expired
      request comes after every identifier has been used and settles the newest one. */
  lemma LateReplyMisleads(reply: Reply)
    ensures var l := Limits(1, 1);
      var ops := LateCalls(MAX_SAFE_INTEGER) + [Turn(true), Issue(false, true)] + [Turn(true), Response(0, reply)];
      Inv(l, Initial()) && var t := Run(l, Initial(), ops);
      && |t.requests| == MAX_SAFE_INTEGER + 1
      && t.requests[MAX_SAFE_INTEGER].settlements == [Answered(Some(0), reply, 0)]
      && t.wire == [Some(0), Some(MAX_SAFE_INTEGER)] && !Own(t)
  {
    var l, n := Limits(1, 1), MAX_SAFE_INTEGER;
    LateCallsRun(n);
    assert IdAt(n) == IdAt(0);
    var s := Run(l, Initial(), LateCalls(n));
    hide LateCalls, Run, Step, Idle, IdAt, Inv;
    var x, y := [Turn(true), Issue(false, true)], [Turn(true), Response(0, reply)];
    ReusedCall(l, s, n, reply);
    IdleInv(l, s, n);
    RunSplits(l, Initial(), LateCalls(n), x);
    RunSplits(l, Initial(), LateCalls(n) + x, y);
    RunTwo(l, s, Turn(true), Issue(false, true));
    RunTwo(l, Run(l, s, x), Turn(true), Response(0, reply));
    MisdirectedAnswer(Run(l, Initial(), LateCalls(n) + x + y), n);
  }

  lemma IdleInv(l: Limits, s: Rpc, n: nat)
    requires Idle(l, s, n)
    ensures Inv(l, s)
  {
  }

  lemma MisdirectedAnswer(s: Rpc, n: nat)
    requires n < |s.requests| && s.requests[n].settlements != [] && s.requests[n].settlements[0].Answered?
    requires s.requests[n].settlements[0].origin != Some(n)
    ensures !Own(s)
  {
    assert !OwnReply(s.requests[n], n, s.wire, s.acked);
  }
}
