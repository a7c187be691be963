/** The executable specification of a run's event trace, and why numbering events in order satisfies it. */
module PortableTrace {
  import opened Prelude
  import opened Decimals
  import opened Contracts

  datatype Event = Event(id: string, kind: EventType, number: nat)

  datatype Flaw = EmptyTrace | RepeatedId | NotIncreasing | NotOneTerminal | TerminalNotLast | Disagreement

  ghost predicate DistinctIds(events: seq<Event>) {
    forall i, j :: 0 <= i < j < |events| ==> events[i].id != events[j].id
  }

  ghost predicate Increasing(events: seq<Event>) {
    forall i, j :: 0 <= i < j < |events| ==> events[i].number < events[j].number
  }

  /** Exactly one event is terminal, it is the last, and its type is the one the result calls for. */
  ghost predicate EndsWith(events: seq<Event>, status: Status) {
    && events != []
    && (forall i :: 0 <= i < |events| - 1 ==> !IsTerminalType(events[i].kind))
    && events[|events| - 1].kind == TerminalType(status)
  }

  /** What the conformance suite demands of a run's trace. */
  ghost predicate ValidTrace(events: seq<Event>, status: Status) {
    DistinctIds(events) && Increasing(events) && EndsWith(events, status)
  }

  function Elements<T>(s: seq<T>): set<T> {
    set x | x in s
  }

  function Ids(events: seq<Event>): (ids: seq<string>)
    ensures |ids| == |events| && forall i :: 0 <= i < |events| ==> ids[i] == events[i].id
  {
    seq(|events|, i requires 0 <= i < |events| => events[i].id)
  }

  /** A sequence has as many different elements as it is long exactly when none repeats. */
  lemma {:induction false} DistinctCount<T>(s: seq<T>)
    ensures |Elements(s)| <= |s|
    ensures |Elements(s)| == |s| <==> forall i, j :: 0 <= i < j < |s| ==> s[i] != s[j]
  {
    if s == [] {
      assert Elements(s) == {};
    } else {
      var init, last := s[..|s| - 1], s[|s| - 1];
      DistinctCount(init);
      assert Elements(s) == Elements(init) + {last};
      if last in init {
        assert Elements(s) == Elements(init);
        var i :| 0 <= i < |init| && init[i] == last;
        assert s[i] == s[|s| - 1];
      } else if |Elements(init)| < |init| {
        var i, j :| 0 <= i < j < |init| && init[i] == init[j];
        assert s[i] == s[j];
      }
    }
  }

  lemma {:induction false} NeighboursIncrease(events: seq<Event>)
    requires forall k :: 0 < k < |events| ==> events[k - 1].number < events[k].number
    ensures Increasing(events)
  {
    if events != [] {
      var init := events[..|events| - 1];
      NeighboursIncrease(init);
      forall i, j | 0 <= i < j < |events| ensures events[i].number < events[j].number {
        if j < |init| {
          assert init[i].number < init[j].number;
        } else {
          assert i == |init| - 1 || init[i].number < init[|init| - 1].number;
        }
      }
    }
  }

  method NumbersIncrease(events: seq<Event>) returns (ok: bool)
    ensures ok <==> Increasing(events)
  {
    var index := 1;
    while index < |events|
      invariant forall k :: 0 < k < |events| && k < index ==> events[k - 1].number < events[k].number
    {
      if events[index].number <= events[index - 1].number {
        return false;
      }
      index := index + 1;
    }
    NeighboursIncrease(events);
    return true;
  }

  /** Positions of the terminal events, in order. */
  method Terminals(events: seq<Event>) returns (terminals: seq<nat>)
    ensures forall k :: 0 <= k < |terminals| ==> terminals[k] < |events| && IsTerminalType(events[terminals[k]].kind)
    ensures forall i :: 0 <= i < |events| && IsTerminalType(events[i].kind) ==> i in terminals
    ensures forall k, m :: 0 <= k < m < |terminals| ==> terminals[k] < terminals[m]
  {
    terminals := [];
    for index := 0 to |events|
      invariant forall k :: 0 <= k < |terminals| ==> terminals[k] < index && IsTerminalType(events[terminals[k]].kind)
      invariant forall i :: 0 <= i < index && IsTerminalType(events[i].kind) ==> i in terminals
      invariant forall k, m :: 0 <= k < m < |terminals| ==> terminals[k] < terminals[m]
    {
      if IsTerminalType(events[index].kind) {
        terminals := terminals + [index];
      }
    }
  }

  /** The repository's validator accepts exactly the valid traces. */
  method ValidatePortableRunTrace(events: seq<Event>, status: Status) returns (flaw: Option<Flaw>)
    ensures flaw.None? <==> ValidTrace(events, status)
  {
    hide IsTerminalType;
    if |events| == 0 {
      return Some(EmptyTrace);
    }
    DistinctCount(Ids(events));
    assert DistinctIds(events) <==> |Elements(Ids(events))| == |events|;
    if |Elements(Ids(events))| != |events| {
      return Some(RepeatedId);
    }
    var increasing := NumbersIncrease(events);
    if !increasing {
      return Some(NotIncreasing);
    }
    hide DistinctIds, Increasing, Ids, Elements;
    var terminals := Terminals(events);
    TypesOfStatus(status);
    if |terminals| != 1 {
      assert EndsWith(events, status) ==> |events| - 1 in terminals;
      assert |terminals| > 1 ==> terminals[0] < terminals[1];
      return Some(NotOneTerminal);
    }
    if terminals[0] != |events| - 1 {
      return Some(TerminalNotLast);
    }
    if events[terminals[0]].kind != TerminalType(status) {
      return Some(Disagreement);
    }
    return None;
  }

  lemma TypesOfStatus(status: Status)
    ensures IsTerminalType(TerminalType(status))
  {
  }

  // ---------------------------------------------------------------- traces under construction

  function Stamped(prefix: string, kind: EventType, number: nat): Event {
    Event(prefix + Decimal(number), kind, number)
  }

  /** A run still going: stamped with increasing numbers below `next`, nothing terminal. */
  ghost predicate LiveTrace(prefix: string, events: seq<Event>, next: nat) {
    && (forall i :: 0 <= i < |events| ==>
          events[i] == Stamped(prefix, events[i].kind, events[i].number) && events[i].number < next
          && !IsTerminalType(events[i].kind))
    && Increasing(events)
  }

  lemma StampsDistinct(prefix: string, a: Event, b: Event)
    requires a == Stamped(prefix, a.kind, a.number) && b == Stamped(prefix, b.kind, b.number)
    requires a.id == b.id
    ensures a.number == b.number
  {
    assert a.id[|prefix|..] == Decimal(a.number) && b.id[|prefix|..] == Decimal(b.number);
    DecimalInjective(a.number, b.number);
  }

  lemma LiveTraceGrows(prefix: string, events: seq<Event>, next: nat, kind: EventType)
    requires LiveTrace(prefix, events, next) && !IsTerminalType(kind)
    ensures LiveTrace(prefix, events, next + 1)
    ensures LiveTrace(prefix, events + [Stamped(prefix, kind, next)], next + 1)
  {
    hide Stamped;
    assert Stamped(prefix, kind, next).kind == kind && Stamped(prefix, kind, next).number == next by {
      StampFields(prefix, kind, next);
    }
  }

  lemma StampFields(prefix: string, kind: EventType, next: nat)
    ensures Stamped(prefix, kind, next).kind == kind && Stamped(prefix, kind, next).number == next
  {
  }

  /** Closing a live trace with the terminal event of its status makes it valid, gaps in the numbering or not. */
  lemma LiveTraceEnds(prefix: string, events: seq<Event>, next: nat, status: Status)
    requires LiveTrace(prefix, events, next)
    ensures ValidTrace(events + [Stamped(prefix, TerminalType(status), next)], status)
  {
    var all := events + [Stamped(prefix, TerminalType(status), next)];
    StampFields(prefix, TerminalType(status), next);
    hide Stamped, TerminalType;
    forall i, j | 0 <= i < j < |all| ensures all[i].id != all[j].id && all[i].number < all[j].number {
      if all[i].id == all[j].id {
        StampsDistinct(prefix, all[i], all[j]);
      }
    }
  }
}
