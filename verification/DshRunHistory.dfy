/** What every interleaving of a DeepSeek Harness stdio run guarantees, and the run object itself. */
module DshRunHistory {
  import opened Prelude
  import opened Contracts
  import opened RunEvents
  import opened PortableTrace
  import opened DshRun

  lemma StartedKeeps(prefix: string, capacity: nat)
    requires capacity >= 2
    ensures Inv(Started(prefix, capacity)) && |Trace(Started(prefix, capacity).outlet.queue)| == 1
  {
    OpenedInv(prefix);
    EmittedKeeps(Opened(prefix), RunStarted, capacity);
    hide OutletInv;
  }

  lemma {:induction false} ReplayedKeeps(r: Run, notices: seq<Notice>)
    requires Inv(r) && r.messageId.Some?
    ensures var t := Replayed(r, notices).0;
      Inv(t) && t.messageId == r.messageId && t.discarded == r.discarded
    decreases |notices|
  {
    hide Processed, Core, Reflects;
    if notices != [] {
      ProcessedKeeps(r, notices[0]);
      if Processed(r, notices[0]).Some? {
        ReplayedKeeps(Processed(r, notices[0]).value, notices[1..]);
      }
    }
  }

  lemma AbortKeeps(r: Run, reason: string)
    requires Inv(r)
    ensures Inv(AbortOwner(r, reason))
  {
    AbortOwnerKeeps(r, reason);
    QuietlyReflects(r, AbortOwner(r, reason));
    hide Core, Reflects, AbortOwner;
  }

  lemma DiscardedKeeps(r: Run, abort: bool)
    requires Inv(r)
    ensures Inv(Discarded(r, abort))
  {
    var gone := r.(discarded := true, pending := [], outlet := r.outlet.(queue := RunEvents.Closed(r.outlet.queue)));
    assert Core(gone) by {
      QueueSteps(r.outlet.queue, Stamped(r.outlet.prefix, Provider, 0), 0);
      hide LiveTrace, ValidTrace;
    }
    assert Reflects(gone) by { hide FollowsTurn, CompletedHistory; }
    hide Core, Reflects;
    AbortKeeps(gone, "prompt_outcome_unknown");
  }

  lemma NamedKeeps(r: Run, id: string)
    requires Inv(r) && r.messageId.None?
    ensures Inv(Named(r, id))
  {
    hide OutletInv, FollowsTurn, CompletedHistory;
  }

  lemma AcknowledgedKeeps(r: Run, id: string)
    requires Inv(r)
    ensures Inv(Acknowledged(r, id))
  {
    hide Inv, Replayed, Discarded;
    if !r.discarded && r.messageId.None? && r.result.None? {
      NamedKeeps(r, id);
      ReplayedKeeps(Named(r, id), r.pending);
      DiscardedKeeps(Replayed(Named(r, id), r.pending).0, true);
    }
  }

  lemma ReceivedKeeps(r: Run, n: Notice)
    requires Inv(r)
    ensures Inv(Received(r, n))
  {
    hide Processed, Refused, AbortOwner;
    if !r.discarded && r.result.None? {
      if r.messageId.None? {
        AbortKeeps(r, "event_buffer_overflow");
        assert Core(r.(pending := r.pending + [n])) by { hide OutletInv; }
        assert Reflects(r.(pending := r.pending + [n])) by { hide FollowsTurn, CompletedHistory; }
        hide Core, Reflects;
      } else {
        ProcessedKeeps(r, n);
        RefusedReflects(r, "provider_api_incompatible");
        hide Core, Reflects;
      }
    }
  }

  lemma ConsumeKeeps(r: Run)
    requires Inv(r)
    ensures Inv(r.(outlet := Read(r.outlet)))
  {
    ReadKeeps(r.outlet);
    hide OutletInv, Read, FollowsTurn, CompletedHistory;
  }

  lemma DecodeFailsKeeps(r: Run)
    requires Inv(r)
    ensures Inv(Step(r, DecodeFails))
  {
    AbortKeeps(r, "protocol_incompatible");
    if !r.discarded {
      RefusedKeeps(r, "provider_api_incompatible");
      QuietlyReflects(r, Refused(r, "provider_api_incompatible"));
    }
    hide Core, Reflects, Refused, AbortOwner;
  }

  lemma StepKeeps(r: Run, op: Op)
    requires Inv(r)
    ensures Inv(Step(r, op))
  {
    hide Inv, Received, Acknowledged, Discarded, AbortOwner, Refused, Read;
    match op
    case Receive(n) => ReceivedKeeps(r, n);
    case DecodeFails => DecodeFailsKeeps(r);
    case Acknowledge(id) => AcknowledgedKeeps(r, id);
    case PromptFails(remote) => DiscardedKeeps(r, !remote);
    case Abort(reason) => AbortKeeps(r, reason);
    case Consume => ConsumeKeeps(r);
  }

  function RunOf(r: Run, ops: seq<Op>): Run
    decreases |ops|
  {
    if ops == [] then r else RunOf(Step(r, ops[0]), ops[1..])
  }

  lemma {:induction false} RunKeeps(r: Run, ops: seq<Op>)
    requires Inv(r)
    ensures Inv(RunOf(r, ops))
    decreases |ops|
  {
    hide Inv, Step;
    if ops != [] {
      StepKeeps(r, ops[0]);
      RunKeeps(Step(r, ops[0]), ops[1..]);
    }
  }

  /** A run reports completed only after a splice inserting exactly its own message, then gap-free session
      events with no other insertion and exactly one turn end, a completed one, and then idle. Before the
      prompt reply or after it makes no difference. */
  lemma CompletedOnlyAfterOwnTurn(prefix: string, capacity: nat, ops: seq<Op>)
    requires capacity >= 2
    ensures var r := RunOf(Started(prefix, capacity), ops);
      r.result.Some? && r.result.value.status.Completed? ==>
        r.messageId.Some? && CompletedHistory(r.seen, r.start, r.messageId.value)
  {
    StartedKeeps(prefix, capacity);
    hide CompletedHistory, Core, RunOf, FollowsTurn;
    RunKeeps(Started(prefix, capacity), ops);
  }

  /** Once settled, overflow or not, what the consumer has read and can still read is a valid trace that
      agrees with the result. */
  lemma SettledTraceIsValid(prefix: string, capacity: nat, ops: seq<Op>)
    requires capacity >= 2
    ensures var r := RunOf(Started(prefix, capacity), ops);
      r.result.Some? ==> ValidTrace(Trace(r.outlet.queue), r.result.value.status) && r.outlet.queue.closed
  {
    StartedKeeps(prefix, capacity);
    hide RunOf, Reflects, ValidTrace, LiveTrace;
    RunKeeps(Started(prefix, capacity), ops);
  }

  /** At idle a correlated run completes exactly when it saw one turn end and that one was completed. */
  lemma IdleDecides(r: Run)
    requires Inv(r) && r.correlated && r.result.None? && !r.discarded
    ensures var ends := TurnEnds(Events(r.seen[r.start..]));
      var t := Received(r, Status(true));
      t.result.Some? && (t.result.value.status.Completed? <==> |ends| == 1 && ends[0].result.status.Completed?)
  {
    hide Events, TurnEnds, OutletInv, GapFree, NoIdle, OwnSplice, Finished;
  }
}
