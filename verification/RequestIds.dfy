/** Cyclic allocation of JSON-RPC request identifiers. */
module RequestIds {
  import opened Prelude

  /** The identifier tried by the n-th probe: 1, 2, ..., 2^53 - 1, 1, 2, ... */
  function IdAt(probe: nat): (id: int)
    ensures 1 <= id <= MAX_SAFE_INTEGER
  {
    1 + probe % MAX_SAFE_INTEGER
  }

  function NextId(id: int): int {
    if id == MAX_SAFE_INTEGER then 1 else id + 1
  }

  lemma NextProbe(probe: nat)
    ensures IdAt(probe + 1) == NextId(IdAt(probe))
  {
  }

  /** The same identifier comes round again only a whole cycle later. */
  lemma CyclesApart(a: nat, b: nat)
    requires a < b && IdAt(a) == IdAt(b)
    ensures b >= a + MAX_SAFE_INTEGER
  {
  }

  ghost function Window(probe: nat, n: nat): set<int> {
    if n == 0 then {} else Window(probe, n - 1) + {IdAt(probe + n - 1)}
  }

  lemma {:induction false} WindowMembers(probe: nat, n: nat)
    ensures forall id :: id in Window(probe, n) <==> exists q :: probe <= q < probe + n && id == IdAt(q)
  {
    hide IdAt;
    if n > 0 {
      WindowMembers(probe, n - 1);
    }
  }

  lemma {:induction false} WindowSize(probe: nat, n: nat)
    requires n <= MAX_SAFE_INTEGER
    ensures |Window(probe, n)| == n
  {
    hide IdAt;
    if n > 0 {
      WindowSize(probe, n - 1);
      WindowMembers(probe, n - 1);
      forall q | probe <= q < probe + n - 1 ensures IdAt(q) != IdAt(probe + n - 1) {
        if IdAt(q) == IdAt(probe + n - 1) {
          CyclesApart(q, probe + n - 1);
        }
      }
    }
  }

  lemma SubsetSize<T>(a: set<T>, b: set<T>)
    requires a <= b
    ensures |a| <= |b|
  {
    assert b == a + (b - a);
  }

  /** Pigeonhole: fewer busy identifiers than probes means one probe finds a free one. */
  lemma SomeProbeIsFree(busy: set<int>, probe: nat)
    requires |busy| < MAX_SAFE_INTEGER
    ensures exists q :: probe <= q <= probe + |busy| && IdAt(q) !in busy
  {
    hide IdAt;
    if forall q :: probe <= q <= probe + |busy| ==> IdAt(q) in busy {
      WindowMembers(probe, |busy| + 1);
      WindowSize(probe, |busy| + 1);
      assert Window(probe, |busy| + 1) <= busy by {
        hide Window;
        forall id | id in Window(probe, |busy| + 1) ensures id in busy {
          var q :| probe <= q < probe + (|busy| + 1) && id == IdAt(q);
          assert IdAt(q) in busy;
        }
      }
      SubsetSize(Window(probe, |busy| + 1), busy);
    }
  }

  /** The first probe from `probe` on whose identifier is free. */
  ghost function FirstFree(busy: set<int>, probe: nat): (p: nat)
    requires |busy| < MAX_SAFE_INTEGER
    ensures probe <= p <= probe + |busy| && IdAt(p) !in busy
    ensures forall q :: probe <= q < p ==> IdAt(q) in busy
  {
    SomeProbeIsFree(busy, probe);
    FirstFrom(busy, probe, probe + |busy|)
  }

  ghost function FirstFrom(busy: set<int>, probe: nat, limit: nat): (p: nat)
    requires exists q :: probe <= q <= limit && IdAt(q) !in busy
    ensures probe <= p <= limit && IdAt(p) !in busy
    ensures forall q :: probe <= q < p ==> IdAt(q) in busy
    decreases limit - probe
  {
    if IdAt(probe) !in busy then probe else FirstFrom(busy, probe + 1, limit)
  }

  class Allocator {
    var nextRequestId: int
    var probes: nat  // how many identifiers were tried so far, which tells reused identifiers apart

    ghost predicate Valid()
      reads this
    {
      nextRequestId == IdAt(probes)
    }

    constructor ()
      ensures Valid() && probes == 0
    {
      nextRequestId, probes := 1, 0;
    }

    /** With fewer pending requests than identifiers the allocator always returns a free one, the first
        in cyclic order, within one probe more than there are pending requests; it never gives up. */
    method AllocateRequestId(pending: set<int>) returns (r: Option<int>)
      requires Valid() && |pending| < MAX_SAFE_INTEGER
      modifies this
      ensures Valid()
      ensures probes == FirstFree(pending, old(probes)) + 1
      ensures old(probes) < probes <= old(probes) + |pending| + 1
      ensures r == Some(IdAt(probes - 1)) && r.value !in pending
    {
      hide IdAt;
      var start := nextRequestId;
      while true
        invariant Valid() && old(probes) <= probes <= FirstFree(pending, old(probes))
        decreases FirstFree(pending, old(probes)) - probes
      {
        var candidate := nextRequestId;
        NextProbe(probes);
        nextRequestId := NextId(candidate);
        probes := probes + 1;
        if candidate !in pending {
          return Some(candidate);
        }
        if nextRequestId == start {
          CyclesApart(old(probes), probes);
          return None;
        }
      }
    }
  }
}
