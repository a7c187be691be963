/** What the ACP client tracks per session: prompt slots, cancellations, closings and permission requests. */
module AcpSessions {
  import opened Prelude

  datatype Session = Session(id: string)
  datatype Key = Key(id: string)

  datatype Status = Running | Detached | Ended

  /** One call of `prompt` that got past its checks; its index is its token. */
  datatype Prompt = Prompt(session: Session, status: Status)

  datatype Answer = Cancelled | Chosen | Refused

  /** One inbound permission request and the answers given to it. */
  datatype Permission = Permission(key: Key, session: Session, answers: seq<Answer>)

  /** How a `session/close` call ended; `Detached` is a local timeout or abort, which proves nothing. */
  datatype CloseEnd = Closed | CloseRefused | CloseDetached

  /** `operations` is the client's own count of running cancellations; `cancels` and `closes` are the calls
      actually in flight. `pending` maps a request key to the permission waiting for an outcome. */
  datatype Client = Client(
    open: bool, shut: bool, prompts: seq<Prompt>, active: map<Session, nat>,
    cancelling: set<Session>, operations: map<Session, nat>, cancels: map<Session, nat>,
    closing: set<Session>, closes: set<Session>,
    permissions: seq<Permission>, pending: map<Key, nat>)

  function Initial(): Client {
    Client(true, false, [], map[], {}, map[], map[], {}, {}, [], map[])
  }

  function Count(m: map<Session, nat>, s: Session): nat {
    if s in m then m[s] else 0
  }

  /** A session nobody prompts and nobody cancels is no longer marked. */
  function Unmarked(c: Client, s: Session): (r: Client)
    ensures r == c.(cancelling := r.cancelling) && r.cancelling <= c.cancelling
  {
    if s !in c.active && s !in c.operations then c.(cancelling := c.cancelling - {s}) else c
  }

  function Answered(permissions: seq<Permission>, n: nat, answer: Answer): seq<Permission>
    requires n < |permissions|
  {
    permissions[n := permissions[n].(answers := permissions[n].answers + [answer])]
  }

  /** The n-th permission request still waits for an outcome. */
  predicate Waits(permissions: seq<Permission>, pending: map<Key, nat>, n: nat) {
    n < |permissions| && permissions[n].key in pending && pending[permissions[n].key] == n
  }

  predicate For(permissions: seq<Permission>, n: nat, s: Session) {
    n < |permissions| && permissions[n].session == s
  }

  /** The waiting permissions of one session among these keys, answered as cancelled... */
  function AnsweredAmong(permissions: seq<Permission>, pending: map<Key, nat>, s: Session, keys: set<Key>)
    : (r: seq<Permission>)
    ensures |r| == |permissions|
  {
    seq(|permissions|, n requires 0 <= n < |permissions| =>
      if Waits(permissions, pending, n) && permissions[n].session == s && permissions[n].key in keys
      then permissions[n].(answers := permissions[n].answers + [Cancelled]) else permissions[n])
  }

  /** ...and those still waiting. */
  function LeftAmong(permissions: seq<Permission>, pending: map<Key, nat>, s: Session, keys: set<Key>): map<Key, nat> {
    map key | key in pending && !(key in keys && For(permissions, pending[key], s)) :: pending[key]
  }

  /** Every permission waiting for this session is answered as cancelled and forgotten. */
  function Settled(c: Client, s: Session): (r: Client)
    ensures r == c.(permissions := r.permissions, pending := r.pending)
  {
    c.(permissions := AnsweredAmong(c.permissions, c.pending, s, c.pending.Keys),
       pending := LeftAmong(c.permissions, c.pending, s, c.pending.Keys))
  }

  predicate CanPrompt(c: Client, s: Session) {
    c.open && s !in c.active && s !in c.cancelling && s !in c.closing
  }

  function PromptStarted(c: Client, s: Session): Client {
    if CanPrompt(c, s) then c.(prompts := c.prompts + [Prompt(s, Running)], active := c.active[s := |c.prompts|]) else c
  }

  /** The prompt call ends. A wait given up locally keeps its slot: the agent may still be working. */
  function PromptEnded(c: Client, n: nat, detached: bool): Client {
    if n >= |c.prompts| || c.prompts[n].status != Running then c
    else
      var s := c.prompts[n].session;
      var ended := c.(prompts := c.prompts[n := Prompt(s, if detached then Detached else Ended)]);
      if detached then ended
      else Unmarked(if s in c.active && c.active[s] == n then ended.(active := c.active - {s}) else ended, s)
  }

  function CancelStarted(c: Client, s: Session): Client {
    if !c.open then c
    else
      Settled(c.(cancelling := c.cancelling + {s}, operations := c.operations[s := Count(c.operations, s) + 1],
                 cancels := c.cancels[s := Count(c.cancels, s) + 1]), s)
  }

  /** One operation fewer; a count nobody kept any more reads as one. */
  function Fewer(counts: map<Session, nat>, s: Session): map<Session, nat> {
    if s in counts && counts[s] > 1 then counts[s := counts[s] - 1] else counts - {s}
  }

  function CancelEnded(c: Client, s: Session): Client {
    if s !in c.cancels then c
    else Unmarked(c.(cancels := Fewer(c.cancels, s), operations := Fewer(c.operations, s)), s)
  }

  function CloseStarted(c: Client, s: Session): Client {
    if !c.open || s in c.closing then c
    else Settled(c.(closing := c.closing + {s}, closes := c.closes + {s}), s)
  }

  function CloseEnded(c: Client, s: Session, end: CloseEnd): Client {
    if s !in c.closes then c
    else
      var done := c.(closes := c.closes - {s});
      match end
      case Closed => Unmarked(done.(active := c.active - {s}), s).(closing := c.closing - {s})
      case CloseRefused => done.(closing := c.closing - {s})
      case CloseDetached => done
  }

  /** A permission request comes in. The transport never delivers a key still unanswered. */
  function PermissionArrived(c: Client, key: Key, s: Session, hasHandler: bool): Client {
    if key in c.pending then c
    else
      var n := |c.permissions|;
      if s in c.cancelling || s in c.closing then c.(permissions := c.permissions + [Permission(key, s, [Cancelled])])
      else if !hasHandler then c.(permissions := c.permissions + [Permission(key, s, [Refused])])
      else c.(permissions := c.permissions + [Permission(key, s, [])], pending := c.pending[key := n])
  }

  /** The host's permission handler finishes; too late when the request was settled meanwhile. */
  function HandlerDone(c: Client, n: nat, answer: Answer): Client {
    if Waits(c.permissions, c.pending, n) then
      c.(pending := c.pending - {c.permissions[n].key}, permissions := Answered(c.permissions, n, answer))
    else c
  }

  /** `fail`: waiting permissions are dropped unanswered; the session marks stay. */
  function Failed(c: Client): Client {
    if c.open then c.(open := false, pending := map[]) else c
  }

  function Shut(c: Client): Client {
    if c.open then
      c.(open := false, shut := true, pending := map[], active := map[], cancelling := {}, operations := map[],
          closing := {})
    else c
  }

  // ---------------------------------------------------------------- every interleaving

  datatype Op =
    | StartPrompt(s: Session) | EndPrompt(n: nat, detached: bool)
    | StartCancel(s: Session) | EndCancel(s: Session)
    | StartClose(s: Session) | EndClose(s: Session, end: CloseEnd)
    | ArrivePermission(key: Key, s: Session, hasHandler: bool) | FinishHandler(n: nat, answer: Answer)
    | Fail | ShutDown

  function Step(c: Client, op: Op): Client {
    match op
    case StartPrompt(s) => PromptStarted(c, s)
    case EndPrompt(n, detached) => PromptEnded(c, n, detached)
    case StartCancel(s) => CancelStarted(c, s)
    case EndCancel(s) => CancelEnded(c, s)
    case StartClose(s) => CloseStarted(c, s)
    case EndClose(s, end) => CloseEnded(c, s, end)
    case ArrivePermission(key, s, hasHandler) => PermissionArrived(c, key, s, hasHandler)
    case FinishHandler(n, answer) => HandlerDone(c, n, answer)
    case Fail => Failed(c)
    case ShutDown => Shut(c)
  }

  /** A slot names a prompt of that session that has not ended. */
  ghost predicate SlotsOk(prompts: seq<Prompt>, active: map<Session, nat>) {
    forall s :: s in active ==>
      active[s] < |prompts| && prompts[active[s]].session == s && prompts[active[s]].status != Ended
  }

  /** The client's counts are those of the cancellations in flight, until `close()` forgets them. */
  ghost predicate CountsOk(shut: bool, operations: map<Session, nat>, cancels: map<Session, nat>) {
    && (if shut then operations == map[] else operations == cancels)
    && (forall s :: s in cancels ==> cancels[s] > 0)
  }

  /** Sessions with a cancellation in flight are marked, and marked sessions have one or a prompt. */
  ghost predicate MarksOk(c: Client) {
    && c.operations.Keys <= c.cancelling <= c.active.Keys + c.operations.Keys
    && (!c.shut ==> c.closes <= c.closing)
    && (c.shut ==> !c.open && c.cancelling == {} && c.closing == {})
  }

  ghost predicate PendingOk(permissions: seq<Permission>, pending: map<Key, nat>) {
    && (forall key :: key in pending ==>
          && pending[key] < |permissions| && permissions[pending[key]].key == key
          && permissions[pending[key]].answers == [])
    && (forall n :: 0 <= n < |permissions| ==> |permissions[n].answers| <= 1)
  }

  /** No permission waits for any of these sessions. */
  ghost predicate Quiet(permissions: seq<Permission>, pending: map<Key, nat>, sessions: set<Session>) {
    forall key :: key in pending && pending[key] < |permissions| ==> permissions[pending[key]].session !in sessions
  }

  ghost predicate Inv(c: Client) {
    && SlotsOk(c.prompts, c.active) && CountsOk(c.shut, c.operations, c.cancels) && MarksOk(c)
    && PendingOk(c.permissions, c.pending) && Quiet(c.permissions, c.pending, c.cancelling + c.closing)
  }

  lemma QuietLess(permissions: seq<Permission>, pending: map<Key, nat>, a: set<Session>, b: set<Session>)
    requires Quiet(permissions, pending, a) && b <= a
    ensures Quiet(permissions, pending, b)
  {
  }

  lemma SettledQuiet(permissions: seq<Permission>, pending: map<Key, nat>, sessions: set<Session>, s: Session)
    requires PendingOk(permissions, pending) && Quiet(permissions, pending, sessions)
    ensures var settled := AnsweredAmong(permissions, pending, s, pending.Keys);
      var left := LeftAmong(permissions, pending, s, pending.Keys);
      PendingOk(settled, left) && Quiet(settled, left, sessions + {s})
  {
  }

  lemma StartPromptKeeps(c: Client, s: Session)
    requires Inv(c)
    ensures Inv(PromptStarted(c, s))
  {
    hide PendingOk, Quiet;
  }

  /** Everything but the mark of one session, which is then reconsidered. */
  ghost predicate InvExcept(c: Client, s: Session) {
    && SlotsOk(c.prompts, c.active) && CountsOk(c.shut, c.operations, c.cancels)
    && c.operations.Keys <= c.cancelling && c.cancelling - {s} <= c.active.Keys + c.operations.Keys
    && (!c.shut ==> c.closes <= c.closing)
    && (c.shut ==> !c.open && c.cancelling == {} && c.closing == {})
    && PendingOk(c.permissions, c.pending) && Quiet(c.permissions, c.pending, c.cancelling + c.closing)
  }

  lemma UnmarkedKeeps(c: Client, s: Session)
    requires InvExcept(c, s)
    ensures Inv(Unmarked(c, s))
  {
    hide PendingOk, Quiet, SlotsOk, CountsOk;
    if s !in c.active && s !in c.operations {
      QuietLess(c.permissions, c.pending, c.cancelling + c.closing, c.cancelling - {s} + c.closing);
    }
  }

  lemma FreedSlots(prompts: seq<Prompt>, active: map<Session, nat>, n: nat, status: Status)
    requires SlotsOk(prompts, active) && n < |prompts|
    ensures var s := prompts[n].session;
      var ended := prompts[n := Prompt(s, status)];
      && SlotsOk(ended, if s in active && active[s] == n then active - {s} else active)
      && (status != Ended ==> SlotsOk(ended, active))
  {
  }

  lemma EndPromptKeeps(c: Client, n: nat, detached: bool)
    requires Inv(c)
    ensures Inv(PromptEnded(c, n, detached))
  {
    hide PendingOk, Quiet, SlotsOk;
    if n < |c.prompts| && c.prompts[n].status == Running {
      var s := c.prompts[n].session;
      FreedSlots(c.prompts, c.active, n, if detached then Detached else Ended);
      if !detached {
        var ended := c.(prompts := c.prompts[n := Prompt(s, Ended)]);
        var freed := if s in c.active && c.active[s] == n then ended.(active := c.active - {s}) else ended;
        assert InvExcept(freed, s);
        hide Inv, InvExcept, Unmarked;
        UnmarkedKeeps(freed, s);
      }
    }
  }

  lemma StartCancelKeeps(c: Client, s: Session)
    requires Inv(c)
    ensures Inv(CancelStarted(c, s))
  {
    if c.open {
      SettledQuiet(c.permissions, c.pending, c.cancelling + c.closing, s);
      assert c.cancelling + c.closing + {s} == c.cancelling + {s} + c.closing;
      hide PendingOk, Quiet, AnsweredAmong, LeftAmong, SlotsOk;
    }
  }

  lemma EndCancelKeeps(c: Client, s: Session)
    requires Inv(c)
    ensures Inv(CancelEnded(c, s))
  {
    hide PendingOk, Quiet, SlotsOk;
    if s in c.cancels {
      var ended := c.(cancels := Fewer(c.cancels, s), operations := Fewer(c.operations, s));
      assert InvExcept(ended, s);
      hide Inv, InvExcept, Unmarked;
      UnmarkedKeeps(ended, s);
    }
  }

  lemma StartCloseKeeps(c: Client, s: Session)
    requires Inv(c)
    ensures Inv(CloseStarted(c, s))
  {
    if c.open && s !in c.closing {
      SettledQuiet(c.permissions, c.pending, c.cancelling + c.closing, s);
      assert c.cancelling + c.closing + {s} == c.cancelling + (c.closing + {s});
      hide PendingOk, Quiet, AnsweredAmong, LeftAmong, SlotsOk;
    }
  }

  lemma LessClosing(c: Client, s: Session)
    requires Inv(c) && s !in c.closes
    ensures Inv(c.(closing := c.closing - {s}))
  {
    QuietLess(c.permissions, c.pending, c.cancelling + c.closing, c.cancelling + (c.closing - {s}));
    hide PendingOk, Quiet, SlotsOk;
  }

  lemma EndCloseKeeps(c: Client, s: Session, end: CloseEnd)
    requires Inv(c)
    ensures Inv(CloseEnded(c, s, end))
  {
    hide PendingOk, Quiet;
    if s in c.closes {
      var done := c.(closes := c.closes - {s});
      assert Inv(done) && InvExcept(done.(active := c.active - {s}), s);
      hide Inv, InvExcept;
      LessClosing(done, s);
      UnmarkedKeeps(done.(active := c.active - {s}), s);
      LessClosing(Unmarked(done.(active := c.active - {s}), s), s);
    }
  }

  lemma AppendedPermission(permissions: seq<Permission>, pending: map<Key, nat>, sessions: set<Session>, p: Permission)
    requires PendingOk(permissions, pending) && Quiet(permissions, pending, sessions) && |p.answers| <= 1
    ensures PendingOk(permissions + [p], pending) && Quiet(permissions + [p], pending, sessions)
    ensures p.answers == [] && p.session !in sessions && p.key !in pending ==>
      var more := pending[p.key := |permissions|];
      PendingOk(permissions + [p], more) && Quiet(permissions + [p], more, sessions)
  {
  }

  lemma PermissionKeeps(c: Client, key: Key, s: Session, hasHandler: bool)
    requires Inv(c)
    ensures Inv(PermissionArrived(c, key, s, hasHandler))
  {
    hide SlotsOk, PendingOk, Quiet;
    AppendedPermission(c.permissions, c.pending, c.cancelling + c.closing, Permission(key, s, []));
    AppendedPermission(c.permissions, c.pending, c.cancelling + c.closing, Permission(key, s, [Cancelled]));
    AppendedPermission(c.permissions, c.pending, c.cancelling + c.closing, Permission(key, s, [Refused]));
  }

  lemma HandlerKeeps(c: Client, n: nat, answer: Answer)
    requires Inv(c)
    ensures Inv(HandlerDone(c, n, answer))
  {
    hide SlotsOk;
  }

  lemma DownKeeps(c: Client)
    requires Inv(c)
    ensures Inv(Failed(c)) && Inv(Shut(c))
  {
  }

  lemma StepKeeps(c: Client, op: Op)
    requires Inv(c)
    ensures Inv(Step(c, op))
  {
    hide Inv, PromptStarted, PromptEnded, CancelStarted, CancelEnded, CloseStarted, CloseEnded, PermissionArrived,
        HandlerDone, Failed, Shut;
    match op
    case StartPrompt(s) => StartPromptKeeps(c, s);
    case EndPrompt(n, detached) => EndPromptKeeps(c, n, detached);
    case StartCancel(s) => StartCancelKeeps(c, s);
    case EndCancel(s) => EndCancelKeeps(c, s);
    case StartClose(s) => StartCloseKeeps(c, s);
    case EndClose(s, end) => EndCloseKeeps(c, s, end);
    case ArrivePermission(key, s, hasHandler) => PermissionKeeps(c, key, s, hasHandler);
    case FinishHandler(n, answer) => HandlerKeeps(c, n, answer);
    case Fail => DownKeeps(c);
    case ShutDown => DownKeeps(c);
  }

  // ---------------------------------------------------------------- whole runs

  function Run(c: Client, ops: seq<Op>): Client
    decreases |ops|
  {
    if ops == [] then c else Run(Step(c, ops[0]), ops[1..])
  }

  /** From the start, over every interleaving: slots are sound, marks mean what they say, nothing waits for
      a session being cancelled or closed. */
  lemma {:induction false} RunKeeps(c: Client, ops: seq<Op>)
    requires Inv(c)
    ensures Inv(Run(c, ops))
    decreases |ops|
  {
    hide Inv, Step;
    if ops != [] {
      StepKeeps(c, ops[0]);
      RunKeeps(Step(c, ops[0]), ops[1..]);
    }
  }

  lemma InitialKeeps()
    ensures Inv(Initial())
  {
  }

  lemma EndedActive(c: Client, n: nat, detached: bool)
    ensures PromptEnded(c, n, detached).active ==
      if n < |c.prompts| && c.prompts[n].status == Running && !detached
         && c.prompts[n].session in c.active && c.active[c.prompts[n].session] == n
      then c.active - {c.prompts[n].session} else c.active
  {
    hide Unmarked;
  }

  /** A prompt that ends frees at most its own slot: one taken since by a later prompt stays taken. */
  lemma EndingFreesOnlyItself(c: Client, n: nat, detached: bool, s: Session)
    requires Inv(c)
    ensures var t := PromptEnded(c, n, detached);
      && t.active.Keys <= c.active.Keys
      && (s in c.active && (detached || c.active[s] != n) ==> s in t.active && t.active[s] == c.active[s])
      && (s in c.active && c.active[s] == n && c.prompts[n].status == Running && !detached ==> s !in t.active)
  {
    hide PendingOk, Quiet, CountsOk, MarksOk, PromptEnded;
    EndedActive(c, n, detached);
  }

  /** The prompt has ended, or nothing more can start, or it still holds its session's slot. */
  ghost predicate Holds(c: Client, s: Session, m: nat) {
    && m < |c.prompts| && c.prompts[m].session == s
    && (c.prompts[m].status == Ended || !c.open || (s in c.active && c.active[s] == m))
  }

  /** No prompt of the session was started between the two states. */
  ghost predicate NoneStarted(a: Client, b: Client, s: Session) {
    |a.prompts| <= |b.prompts| && forall n :: |a.prompts| <= n < |b.prompts| ==> b.prompts[n].session != s
  }

  lemma EndCloseFrame(c: Client, s: Session, end: CloseEnd)
    ensures var t := CloseEnded(c, s, end);
      && t.prompts == c.prompts && t.open == c.open
      && t.active == if s in c.closes && end.Closed? then c.active - {s} else c.active
  {
    hide Unmarked;
  }

  lemma EndPromptFrame(c: Client, n: nat, detached: bool)
    ensures var t := PromptEnded(c, n, detached);
      && t.open == c.open
      && t.prompts == if n < |c.prompts| && c.prompts[n].status == Running
                      then c.prompts[n := Prompt(c.prompts[n].session, if detached then Detached else Ended)]
                          else c.prompts
  {
    hide Unmarked;
  }

  /** A successful close frees the slot of a prompt that has not ended. */
  predicate Frees(c: Client, op: Op, s: Session, m: nat) {
    && op == EndClose(s, Closed) && s in c.closes && c.open
    && m < |c.prompts| && c.prompts[m].status != Ended
  }

  /** What slots depend on. */
  ghost predicate SameSlots(a: Client, b: Client) {
    b.prompts == a.prompts && b.active == a.active && b.open == a.open
  }

  lemma CancelFrame(c: Client, s: Session)
    ensures SameSlots(c, CancelStarted(c, s)) && SameSlots(c, CloseStarted(c, s))
  {
    hide Settled, Count;
  }

  lemma CancelEndFrame(c: Client, s: Session)
    ensures SameSlots(c, CancelEnded(c, s))
  {
    hide Unmarked, Fewer;
  }

  lemma PermissionFrame(c: Client, key: Key, s: Session, hasHandler: bool, n: nat, answer: Answer)
    ensures SameSlots(c, PermissionArrived(c, key, s, hasHandler)) && SameSlots(c, HandlerDone(c, n, answer))
  {
  }

  lemma DownFrame(c: Client)
    ensures Failed(c).prompts == c.prompts && !Failed(c).open && Shut(c).prompts == c.prompts && !Shut(c).open
  {
  }

  /** Steps that are neither about prompts nor the end of a close leave the slots alone, or end the client. */
  lemma OtherFrame(c: Client, op: Op)
    requires !op.StartPrompt? && !op.EndPrompt? && !op.EndClose?
    ensures var t := Step(c, op);
      SameSlots(c, t) || (t.prompts == c.prompts && !t.open && (op.Fail? || op.ShutDown?))
  {
    hide CancelStarted, CloseStarted, CancelEnded, PermissionArrived, HandlerDone, Failed, Shut;
    match op
    case StartCancel(s) => CancelFrame(c, s);
    case StartClose(s) => CancelFrame(c, s);
    case EndCancel(s) => CancelEndFrame(c, s);
    case ArrivePermission(key, s, hasHandler) => PermissionFrame(c, key, s, hasHandler, 0, Refused);
    case FinishHandler(n, answer) => PermissionFrame(c, Key(""), Session(""), false, n, answer);
    case _ => DownFrame(c);
  }

  /** Every step lets the prompt keep its slot, except exactly the freeing ones. */
  lemma StepHolds(c: Client, op: Op, s: Session, m: nat)
    requires Inv(c) && Holds(c, s, m)
    ensures Holds(Step(c, op), s, m) <==> !Frees(c, op, s, m)
  {
    hide Inv, PromptEnded, CloseEnded;
    match op
    case StartPrompt(_) =>
    case EndPrompt(n, detached) =>
      EndedActive(c, n, detached);
      EndPromptFrame(c, n, detached);
    case EndClose(other, end) => EndCloseFrame(c, other, end);
    case _ =>
      OtherFrame(c, op);
      hide Step;
  }

  /** A prompt that ended stays so, and one that has not and holds its slot keeps others of its session out. */
  lemma StepKeepsOut(c: Client, op: Op, s: Session, m: nat)
    requires Inv(c) && Holds(c, s, m)
    ensures var t := Step(c, op);
      && m < |t.prompts| && (c.prompts[m].status == Ended ==> t.prompts[m].status == Ended)
      && (t.prompts[m].status != Ended ==> NoneStarted(c, t, s))
  {
    hide Inv, PromptEnded, CloseEnded;
    match op
    case StartPrompt(_) =>
    case EndPrompt(n, detached) => EndPromptFrame(c, n, detached);
    case EndClose(other, end) => EndCloseFrame(c, other, end);
    case _ =>
      OtherFrame(c, op);
      hide Step;
  }

  /** Prompts are only added, and keep their session. */
  ghost predicate PromptsKept(a: seq<Prompt>, b: seq<Prompt>) {
    |a| <= |b| && forall n :: 0 <= n < |a| ==> b[n].session == a[n].session
  }

  lemma PromptsStay(c: Client, op: Op)
    ensures PromptsKept(c.prompts, Step(c, op).prompts)
  {
    hide PromptEnded, CloseEnded, AnsweredAmong, LeftAmong, Unmarked;
    match op
    case EndPrompt(n, detached) => EndPromptFrame(c, n, detached);
    case EndClose(s, end) => EndCloseFrame(c, s, end);
    case _ =>
  }

  lemma {:induction false} RunPromptsStay(c: Client, ops: seq<Op>)
    ensures PromptsKept(c.prompts, Run(c, ops).prompts)
    decreases |ops|
  {
    hide Step;
    if ops != [] {
      PromptsStay(c, ops[0]);
      RunPromptsStay(Step(c, ops[0]), ops[1..]);
    }
  }

  /** No step of the run frees the prompt's slot. */
  ghost predicate NeverFreed(c: Client, ops: seq<Op>, s: Session, m: nat)
    decreases |ops|
  {
    ops == [] || (!Frees(c, ops[0], s, m) && NeverFreed(Step(c, ops[0]), ops[1..], s, m))
  }

  lemma PrefixRun(c: Client, ops: seq<Op>, k: nat)
    requires 0 < k <= |ops|
    ensures Run(c, ops[..k]) == Run(Step(c, ops[0]), ops[1..][..k - 1])
  {
    hide Step;
    assert ops[..k][1..] == ops[1..][..k - 1];
  }

  /** Over every interleaving a prompt keeps its slot at every moment exactly when no step frees it. */
  lemma {:induction false} SlotKeptExactly(c: Client, ops: seq<Op>, s: Session, m: nat)
    requires Inv(c) && Holds(c, s, m)
    ensures (forall k :: 0 <= k <= |ops| ==> Holds(Run(c, ops[..k]), s, m)) <==> NeverFreed(c, ops, s, m)
    decreases |ops|
  {
    assert Run(c, ops[..0]) == c;
    hide Inv, Step, Holds, Frees;
    if ops != [] {
      var t, rest := Step(c, ops[0]), ops[1..];
      StepKeeps(c, ops[0]);
      StepHolds(c, ops[0], s, m);
      assert Run(t, rest[..0]) == t;
      assert NeverFreed(c, ops, s, m) <==> !Frees(c, ops[0], s, m) && NeverFreed(t, rest, s, m);
      hide Run, NeverFreed;
      forall k | 0 < k <= |ops| ensures Run(c, ops[..k]) == Run(t, rest[..k - 1]) {
        PrefixRun(c, ops, k);
      }
      if Holds(t, s, m) {
        SlotKeptExactly(t, rest, s, m);
        forall j | 0 <= j <= |rest| ensures Holds(Run(t, rest[..j]), s, m) <==> Holds(Run(c, ops[..j + 1]), s, m) {
        }
      } else {
        assert !Holds(Run(c, ops[..1]), s, m);
      }
    }
  }

  /** As long as a prompt whose slot is never freed has not ended, no later prompt of its session starts. */
  lemma {:induction false} KeptOut(c: Client, ops: seq<Op>, s: Session, m: nat)
    requires Inv(c) && Holds(c, s, m) && NeverFreed(c, ops, s, m)
    ensures var t := Run(c, ops);
      && m < |t.prompts| && (c.prompts[m].status == Ended ==> t.prompts[m].status == Ended)
      && (t.prompts[m].status != Ended ==> NoneStarted(c, t, s))
    decreases |ops|
  {
    hide Inv, Step, Frees;
    if ops != [] {
      var next, rest := Step(c, ops[0]), ops[1..];
      StepKeeps(c, ops[0]);
      StepHolds(c, ops[0], s, m);
      StepKeepsOut(c, ops[0], s, m);
      PromptsStay(c, ops[0]);
      KeptOut(next, rest, s, m);
      RunPromptsStay(next, rest);
    }
  }

  /** A prompt that starts holds its slot. */
  lemma StartHolds(c: Client, s: Session)
    requires Inv(c) && CanPrompt(c, s)
    ensures Holds(PromptStarted(c, s), s, |c.prompts|)
  {
  }

  /** From the start, over every interleaving: a prompt that has started keeps its slot at every later moment
      exactly when no step frees it, and then no other prompt of its session starts until it has ended, given
      up locally or not. */
  lemma OnePromptPerSession(before: seq<Op>, s: Session, after: seq<Op>)
    requires CanPrompt(Run(Initial(), before), s)
    ensures var c := Run(Initial(), before);
      var m, t := |c.prompts|, Step(c, StartPrompt(s));
      && ((forall k :: 0 <= k <= |after| ==> Holds(Run(t, after[..k]), s, m)) <==> NeverFreed(t, after, s, m))
      && (NeverFreed(t, after, s, m) ==>
            var u := Run(t, after);
            m < |u.prompts| && (u.prompts[m].status != Ended ==> NoneStarted(t, u, s)))
  {
    hide Inv, Run, Holds, NeverFreed, NoneStarted;
    var c := Run(Initial(), before);
    InitialKeeps();
    RunKeeps(Initial(), before);
    StepKeeps(c, StartPrompt(s));
    StartHolds(c, s);
    var m, t := |c.prompts|, Step(c, StartPrompt(s));
    SlotKeptExactly(t, after, s, m);
    if NeverFreed(t, after, s, m) {
      KeptOut(t, after, s, m);
    }
  }

  /** After a freeing step the session can be prompted again at once exactly when no cancellation of it is
      still counted. */
  lemma FreedCanPrompt(c: Client, op: Op, s: Session, m: nat)
    requires Inv(c) && Frees(c, op, s, m)
    ensures var t := Step(c, op);
      && (CanPrompt(t, s) <==> s !in c.operations)
      && t.open && s !in t.active && s !in t.closing && t.operations == c.operations && t.prompts == c.prompts
  {
    hide PendingOk, Quiet, SlotsOk;
  }

  lemma EndCancelFrame(c: Client, s: Session)
    requires Inv(c) && c.open && s !in c.active && s !in c.closing && s in c.operations
    ensures var t := CancelEnded(c, s);
      && t.open && s !in t.active && s !in t.closing && t.prompts == c.prompts
      && t.operations == Fewer(c.operations, s) && (s in t.operations || CanPrompt(t, s))
  {
    hide PendingOk, Quiet, SlotsOk;
  }

  /** Once nothing holds or closes a session, the end of its cancellations is all a new prompt waits for. */
  lemma {:induction false} SessionReopens(c: Client, s: Session) returns (ops: seq<Op>)
    requires Inv(c) && c.open && s !in c.active && s !in c.closing && (s !in c.operations ==> CanPrompt(c, s))
    ensures forall op :: op in ops ==> op == EndCancel(s)
    ensures CanPrompt(Run(c, ops), s) && Run(c, ops).prompts == c.prompts
    decreases Count(c.operations, s)
  {
    if s !in c.operations {
      return [];
    }
    assert c.operations[s] > 0;
    var t := Step(c, EndCancel(s));
    StepKeeps(c, EndCancel(s));
    EndCancelFrame(c, s);
    var rest := SessionReopens(t, s);
    ops := [EndCancel(s)] + rest;
    assert ops[0] == EndCancel(s) && ops[1..] == rest;
    hide Step, Inv;
    assert Run(c, ops) == Run(t, rest);
  }

  /** Hence a freed slot always admits a second prompt: some continuation starts one while the first has not
      ended. */
  lemma FreedAdmitsAnother(c: Client, op: Op, s: Session, m: nat) returns (ops: seq<Op>)
    requires Inv(c) && Frees(c, op, s, m) && Holds(c, s, m)
    ensures var t := Run(c, [op] + ops + [StartPrompt(s)]);
      && |t.prompts| == |c.prompts| + 1 && t.prompts[|c.prompts|] == Prompt(s, Running)
      && t.prompts[m] == c.prompts[m] && t.prompts[m].status != Ended
  {
    FreedCanPrompt(c, op, s, m);
    StepKeeps(c, op);
    ops := SessionReopens(Step(c, op), s);
    hide Inv;
    RunSplits(c, [op], ops);
    RunSplits(c, [op] + ops, [StartPrompt(s)]);
    RunOne(c, op);
    RunOne(Run(c, [op] + ops), StartPrompt(s));
  }

  lemma {:induction false} RunSplits(c: Client, a: seq<Op>, b: seq<Op>)
    ensures Run(c, a + b) == Run(Run(c, a), b)
    decreases |a|
  {
    hide Step;
    if a == [] {
      assert a + b == b;
    } else {
      assert (a + b)[0] == a[0] && (a + b)[1..] == a[1..] + b;
      RunSplits(Step(c, a[0]), a[1..], b);
    }
  }

  lemma RunOne(c: Client, op: Op)
    ensures Run(c, [op]) == Step(c, op)
  {
    hide Step;
    assert [op][1..] == [];
    assert Run(Step(c, op), []) == Step(c, op);
  }

  /** A successful close does let a second prompt start while the first has not ended. */
  lemma CloseAdmitsAnother(s: Session)
    ensures var t := Run(Initial(), [StartPrompt(s), StartClose(s), EndClose(s, Closed), StartPrompt(s)]);
      t.prompts == [Prompt(s, Running), Prompt(s, Running)]
  {
    hide AnsweredAmong, LeftAmong;
    var ops := [StartPrompt(s), StartClose(s), EndClose(s, Closed), StartPrompt(s)];
    assert ops[1..] == [StartClose(s), EndClose(s, Closed), StartPrompt(s)];
    assert ops[1..][1..] == [EndClose(s, Closed), StartPrompt(s)];
    assert ops[1..][1..][1..] == [StartPrompt(s)] && ops[1..][1..][1..][1..] == [];
    var a := Step(Initial(), StartPrompt(s));
    var b := Step(a, StartClose(s));
    var d := Step(b, EndClose(s, Closed));
    var e := Step(d, StartPrompt(s));
    assert a.prompts == b.prompts == d.prompts == [Prompt(s, Running)];
    assert d.active == map[] && CanPrompt(d, s);
    assert e.prompts == [Prompt(s, Running), Prompt(s, Running)];
    hide Step;
    assert Run(e, []) == e && Run(d, [StartPrompt(s)]) == Run(e, []);
    assert Run(b, ops[1..][1..]) == Run(d, ops[1..][1..][1..]);
    assert Run(a, ops[1..]) == Run(b, ops[1..][1..]);
  }

  /** Cancelling a session answers exactly its waiting permissions, each as cancelled. */
  lemma CancellingAnswersItsOwn(c: Client, s: Session, n: nat)
    requires Inv(c) && c.open && n < |c.permissions|
    ensures var t := CancelStarted(c, s);
      if Waits(c.permissions, c.pending, n) && c.permissions[n].session == s
      then t.permissions[n].answers == [Cancelled] && !Waits(t.permissions, t.pending, n)
      else t.permissions[n] == c.permissions[n]
           && (Waits(t.permissions, t.pending, n) <==> Waits(c.permissions, c.pending, n))
  {
    hide SlotsOk, CountsOk, MarksOk, Quiet;
  }

  /** Over every run from the start, no permission request waits for a session that is being cancelled or
      closed: it was answered when that began, or on arrival. */
  lemma NothingWaitsForCancelled(ops: seq<Op>, n: nat)
    ensures var c := Run(Initial(), ops);
      Waits(c.permissions, c.pending, n) ==>
        var s := c.permissions[n].session;
        && s !in c.cancelling && s !in c.closing
        && (!c.shut ==> s !in c.cancels && s !in c.closes)
  {
    hide Run, SlotsOk, PendingOk;
    InitialKeeps();
    RunKeeps(Initial(), ops);
  }

  ghost predicate AnswersKept(a: seq<Permission>, b: seq<Permission>) {
    && |a| <= |b|
    && forall n :: 0 <= n < |a| ==> b[n].key == a[n].key && b[n].session == a[n].session && a[n].answers <= b[n].answers
  }

  lemma AnsweringKeeps(permissions: seq<Permission>, pending: map<Key, nat>, s: Session, keys: set<Key>, n: nat,
      p: Permission, answer: Answer)
    ensures AnswersKept(permissions, permissions)
    ensures AnswersKept(permissions, AnsweredAmong(permissions, pending, s, keys))
    ensures AnswersKept(permissions, permissions + [p])
    ensures n < |permissions| ==> AnswersKept(permissions, Answered(permissions, n, answer))
  {
  }

  lemma EndsAnswerNothing(c: Client, n: nat, detached: bool, s: Session, end: CloseEnd)
    ensures PromptEnded(c, n, detached).permissions == c.permissions
    ensures CancelEnded(c, s).permissions == c.permissions
    ensures CloseEnded(c, s, end).permissions == c.permissions
  {
    hide Unmarked;
  }

  lemma StepAnswersKept(c: Client, op: Op)
    ensures AnswersKept(c.permissions, Step(c, op).permissions)
  {
    hide PromptEnded, CancelEnded, CloseEnded, AnsweredAmong, LeftAmong, Answered, AnswersKept;
    AnsweringKeeps(c.permissions, c.pending, Session(""), {}, 0, Permission(Key(""), Session(""), []), Refused);
    match op
    case StartCancel(s) =>
      AnsweringKeeps(c.permissions, c.pending, s, c.pending.Keys, 0, Permission(Key(""), s, []), Refused);
    case StartClose(s) =>
      AnsweringKeeps(c.permissions, c.pending, s, c.pending.Keys, 0, Permission(Key(""), s, []), Refused);
    case EndPrompt(n, detached) => EndsAnswerNothing(c, n, detached, Session(""), Closed);
    case EndCancel(s) => EndsAnswerNothing(c, 0, false, s, Closed);
    case EndClose(s, end) => EndsAnswerNothing(c, 0, false, s, end);
    case ArrivePermission(key, s, hasHandler) =>
      AnsweringKeeps(c.permissions, c.pending, s, {}, 0, Permission(key, s, []), Refused);
      AnsweringKeeps(c.permissions, c.pending, s, {}, 0, Permission(key, s, [Cancelled]), Refused);
      AnsweringKeeps(c.permissions, c.pending, s, {}, 0, Permission(key, s, [Refused]), Refused);
    case FinishHandler(n, answer) =>
      AnsweringKeeps(c.permissions, c.pending, Session(""), {}, n, Permission(Key(""), Session(""), []), answer);
    case _ =>
  }

  /** Each permission request gets at most one answer, ever. */
  lemma {:induction false} OneAnswerEach(c: Client, ops: seq<Op>, n: nat)
    requires Inv(c) && n < |c.permissions|
    ensures var t := Run(c, ops);
      n < |t.permissions| && c.permissions[n].answers <= t.permissions[n].answers && |t.permissions[n].answers| <= 1
    decreases |ops|
  {
    hide Step, Quiet, SlotsOk, CountsOk, MarksOk;
    if ops != [] {
      StepKeeps(c, ops[0]);
      StepAnswersKept(c, ops[0]);
      OneAnswerEach(Step(c, ops[0]), ops[1..], n);
    }
  }

  lemma OneMoreAnswered(permissions: seq<Permission>, pending: map<Key, nat>, s: Session, keys: set<Key>, key: Key)
    requires PendingOk(permissions, pending) && key in pending && key !in keys
    ensures var (done, left) := (AnsweredAmong(permissions, pending, s, keys),
        LeftAmong(permissions, pending, s, keys));
      && key in left && left[key] < |done| && (done[left[key]].session == s <==> permissions[left[key]].session == s)
      && (if done[left[key]].session == s
          then AnsweredAmong(permissions, pending, s, keys + {key}) == Answered(done, left[key], Cancelled)
               && LeftAmong(permissions, pending, s, keys + {key}) == left - {key}
          else AnsweredAmong(permissions, pending, s, keys + {key}) == done
               && LeftAmong(permissions, pending, s, keys + {key}) == left)
      && forall k :: k in LeftAmong(permissions, pending, s, keys + {key}) <==>
          k in left && !(k == key && done[left[key]].session == s)
  {
  }

  // ---------------------------------------------------------------- the client object

  class AcpClient {
    var open: bool
    var activePromptSessions: map<Session, nat>
    var cancellingSessions: set<Session>
    var cancellationOperations: map<Session, nat>
    var closingSessions: set<Session>
    var pendingPermissions: map<Key, nat>
    var permissions: seq<Permission>
    var prompts: seq<Prompt>
    ghost var shut: bool
    ghost var cancels: map<Session, nat>
    ghost var closes: set<Session>

    ghost function State(): Client
      reads this
    {
      Client(open, shut, prompts, activePromptSessions, cancellingSessions, cancellationOperations, cancels,
             closingSessions, closes, permissions, pendingPermissions)
    }

    ghost predicate Valid()
      reads this
    {
      Inv(State())
    }

    constructor ()
      ensures Valid() && State() == Initial()
    {
      open, activePromptSessions, cancellingSessions, cancellationOperations := true, map[], {}, map[];
      closingSessions, pendingPermissions, permissions, prompts := {}, map[], [], [];
      shut, cancels, closes := false, map[], {};
    }

    method MaybeClearCancellation(s: Session)
      modifies this`cancellingSessions
      ensures State() == Unmarked(old(State()), s)
    {
      if s !in activePromptSessions && s !in cancellationOperations {
        cancellingSessions := cancellingSessions - {s};
      }
    }

    /** The slot is taken with a fresh token. */
    method BeginPrompt(s: Session) returns (token: Option<nat>)
      requires Valid()
      modifies this
      ensures Valid() && State() == PromptStarted(old(State()), s)
      ensures token == if CanPrompt(old(State()), s) then Some(old(|prompts|)) else None
    {
      hide Inv;
      StartPromptKeeps(State(), s);
      if !open || s in activePromptSessions || s in cancellingSessions || s in closingSessions {
        return None;
      }
      token := Some(|prompts|);
      activePromptSessions := activePromptSessions[s := |prompts|];
      prompts := prompts + [Prompt(s, Running)];
    }

    method EndPrompt(token: nat, detachedLocalWait: bool)
      requires Valid() && token < |prompts| && prompts[token].status == Running
      modifies this
      ensures Valid() && State() == PromptEnded(old(State()), token, detachedLocalWait)
    {
      hide Inv;
      EndPromptKeeps(State(), token, detachedLocalWait);
      var s := prompts[token].session;
      prompts := prompts[token := Prompt(s, if detachedLocalWait then Detached else Ended)];
      if !detachedLocalWait {
        if s in activePromptSessions && activePromptSessions[s] == token {
          activePromptSessions := activePromptSessions - {s};
        }
        MaybeClearCancellation(s);
      }
    }

    /** Answer each waiting permission of the session as cancelled. */
    method SettleSessionPermissions(s: Session)
      requires PendingOk(permissions, pendingPermissions)
      modifies this`permissions, this`pendingPermissions
      ensures State() == Settled(old(State()), s)
    {
      var todo := pendingPermissions.Keys;
      assert permissions == AnsweredAmong(permissions, pendingPermissions, s, {});
      assert pendingPermissions == LeftAmong(permissions, pendingPermissions, s, {});
      while todo != {}
        invariant todo <= pendingPermissions.Keys
        invariant var seen := old(pendingPermissions).Keys - todo;
          && permissions == AnsweredAmong(old(permissions), old(pendingPermissions), s, seen)
          && pendingPermissions == LeftAmong(old(permissions), old(pendingPermissions), s, seen)
      {
        var key := AnyOf(todo);
        OneMoreAnswered(old(permissions), old(pendingPermissions), s, old(pendingPermissions).Keys - todo, key);
        assert old(pendingPermissions).Keys - todo + {key} == old(pendingPermissions).Keys - (todo - {key});
        var n := pendingPermissions[key];
        todo := todo - {key};
        if permissions[n].session == s {
          pendingPermissions := pendingPermissions - {key};
          permissions := Answered(permissions, n, Cancelled);
        }
      }
      assert old(pendingPermissions).Keys - todo == old(pendingPermissions).Keys;
    }

    method BeginCancel(s: Session) returns (begun: bool)
      requires Valid()
      modifies this
      ensures Valid() && State() == CancelStarted(old(State()), s) && begun == old(open)
    {
      StartCancelKeeps(State(), s);
      if !open {
        return false;
      }
      cancellingSessions := cancellingSessions + {s};
      cancellationOperations := cancellationOperations[s := Count(cancellationOperations, s) + 1];
      cancels := cancels[s := Count(cancels, s) + 1];
      hide SlotsOk, CountsOk, MarksOk, Quiet, PendingOk;
      SettleSessionPermissions(s);
      return true;
    }

    method EndCancel(s: Session)
      requires Valid() && s in cancels
      modifies this
      ensures Valid() && State() == CancelEnded(old(State()), s)
    {
      hide Inv;
      EndCancelKeeps(State(), s);
      cancels := Fewer(cancels, s);
      cancellationOperations := Fewer(cancellationOperations, s);
      MaybeClearCancellation(s);
    }

    method BeginClose(s: Session) returns (begun: bool)
      requires Valid()
      modifies this
      ensures Valid() && State() == CloseStarted(old(State()), s)
      ensures begun == (old(open) && s !in old(closingSessions))
    {
      StartCloseKeeps(State(), s);
      if !open || s in closingSessions {
        return false;
      }
      closingSessions, closes := closingSessions + {s}, closes + {s};
      hide SlotsOk, CountsOk, MarksOk, Quiet, PendingOk;
      SettleSessionPermissions(s);
      return true;
    }

    method EndClose(s: Session, end: CloseEnd)
      requires Valid() && s in closes
      modifies this
      ensures Valid() && State() == CloseEnded(old(State()), s, end)
    {
      hide Inv;
      EndCloseKeeps(State(), s, end);
      closes := closes - {s};
      if end.Closed? {
        activePromptSessions := activePromptSessions - {s};
        MaybeClearCancellation(s);
      }
      if !end.CloseDetached? {
        closingSessions := closingSessions - {s};
      }
    }

    method HandlePermissionRequest(key: Key, s: Session, hasHandler: bool)
      requires Valid() && key !in pendingPermissions
      modifies this
      ensures Valid() && State() == PermissionArrived(old(State()), key, s, hasHandler)
    {
      hide SlotsOk, CountsOk, PendingOk, Quiet, MarksOk;
      PermissionKeeps(State(), key, s, hasHandler);
      if s in cancellingSessions || s in closingSessions {
        permissions := permissions + [Permission(key, s, [Cancelled])];
        return;
      }
      if !hasHandler {
        permissions := permissions + [Permission(key, s, [Refused])];
        return;
      }
      pendingPermissions := pendingPermissions[key := |permissions|];
      permissions := permissions + [Permission(key, s, [])];
    }

    /** The handler's outcome is sent only if the request was still waiting. */
    method FinishHandler(n: nat, answer: Answer) returns (sent: bool)
      requires Valid()
      modifies this
      ensures Valid() && State() == HandlerDone(old(State()), n, answer)
      ensures sent == Waits(old(permissions), old(pendingPermissions), n)
    {
      hide Inv;
      HandlerKeeps(State(), n, answer);
      if !Waits(permissions, pendingPermissions, n) {
        return false;
      }
      pendingPermissions := pendingPermissions - {permissions[n].key};
      permissions := Answered(permissions, n, answer);
      return true;
    }

    method Fail()
      requires Valid()
      modifies this
      ensures Valid() && State() == Failed(old(State()))
    {
      hide Inv;
      DownKeeps(State());
      if open {
        open, pendingPermissions := false, map[];
      }
    }

    method Close()
      requires Valid()
      modifies this
      ensures Valid() && State() == Shut(old(State()))
    {
      hide Inv;
      DownKeeps(State());
      if open {
        open, shut, pendingPermissions := false, true, map[];
        activePromptSessions, cancellingSessions, cancellationOperations, closingSessions := map[], {}, map[], {};
      }
    }
  }
}
