/** Newline-delimited frames: the receiving half of both stdio transports. */
module Framing {
  import opened Prelude
  import opened Bytes

  /** JSON-RPC counts a trailing CR against the frame limit; JSONL grants it one byte of its own. */
  datatype Rule = JsonRpc | Jsonl

  datatype Failure = MessageTooLarge | MalformedMessage | CapacityExceeded

  /** Limits and the abstract frame decoder. A message either waits in the inbound queue or, like a
      JSON-RPC response, is consumed on the spot. */
  datatype Settings<!M> = Settings(rule: Rule, maxFrame: nat, capacity: nat, decode: seq<Byte> -> Option<M>,
      queues: M -> bool)

  predicate Admissible(rule: Rule, maxFrame: nat, line: seq<Byte>) {
    |line| <= maxFrame || (rule.Jsonl? && |line| == maxFrame + 1 && line[maxFrame] == CR)
  }

  function StripCr(line: seq<Byte>): seq<Byte> {
    if line != [] && line[|line| - 1] == CR then line[..|line| - 1] else line
  }

  /** The receiver: its open line, every message it took in so far, and its inbound queue. */
  datatype Link<!M> =
    | Up(line: seq<Byte>, received: seq<M>, buffered: nat, waiting: bool)
    | Down(received: seq<M>, failure: Failure)

  function Deliver<M>(cfg: Settings<M>, s: Link<M>, m: M): Link<M>
    requires s.Up?
  {
    if !cfg.queues(m) then Up(s.line, s.received + [m], s.buffered, s.waiting)
    else if s.waiting then Up(s.line, s.received + [m], s.buffered, false)
    else if s.buffered >= cfg.capacity then Down(s.received, CapacityExceeded)
    else Up(s.line, s.received + [m], s.buffered + 1, false)
  }

  /** A complete line: stripped, decoded, delivered. */
  function LineEnd<M>(cfg: Settings<M>, s: Link<M>): Link<M>
    requires s.Up?
  {
    var m := cfg.decode(StripCr(s.line));
    if m.None? then Down(s.received, MalformedMessage) else Deliver(cfg, s.(line := []), m.value)
  }

  function Feed<M>(cfg: Settings<M>, s: Link<M>, b: Byte): Link<M> {
    if s.Down? then s
    else if b == LF then LineEnd(cfg, s)
    else if Admissible(cfg.rule, cfg.maxFrame, s.line + [b]) then s.(line := s.line + [b])
    else Down(s.received, MessageTooLarge)
  }

  function FeedAll<M>(cfg: Settings<M>, s: Link<M>, bytes: seq<Byte>): Link<M> {
    if bytes == [] then s else Feed(cfg, FeedAll(cfg, s, bytes[..|bytes| - 1]), bytes[|bytes| - 1])
  }

  function Pull<M>(s: Link<M>): Link<M> {
    if s.Down? then s
    else if s.buffered > 0 then s.(buffered := s.buffered - 1)
    else s.(waiting := true)
  }

  lemma {:induction false} DownStays<M>(cfg: Settings<M>, s: Link<M>, bytes: seq<Byte>)
    requires s.Down?
    ensures FeedAll(cfg, s, bytes) == s
  {
    if bytes != [] {
      DownStays(cfg, s, bytes[..|bytes| - 1]);
    }
  }

  lemma {:induction false} FeedAllAppend<M>(cfg: Settings<M>, s: Link<M>, a: seq<Byte>, b: seq<Byte>)
    ensures FeedAll(cfg, s, a + b) == FeedAll(cfg, FeedAll(cfg, s, a), b)
  {
    if b == [] {
      assert a + b == a;
    } else {
      assert (a + b)[..|a + b| - 1] == a + b[..|b| - 1];
      FeedAllAppend(cfg, s, a, b[..|b| - 1]);
    }
  }

  /** Admissibility is settled by the whole segment: a line that fits has fitted all along. */
  lemma {:induction false} FeedSegment<M>(cfg: Settings<M>, s: Link<M>, segment: seq<Byte>)
    requires s.Up? && LF !in segment && Admissible(cfg.rule, cfg.maxFrame, s.line)
    ensures FeedAll(cfg, s, segment)
            == if Admissible(cfg.rule, cfg.maxFrame, s.line + segment) then s.(line := s.line + segment)
               else Down(s.received, MessageTooLarge)
  {
    if segment == [] {
      assert s.line + segment == s.line;
    } else {
      var front, last := segment[..|segment| - 1], segment[|segment| - 1];
      FeedSegment(cfg, s, front);
      assert (s.line + front) + [last] == s.line + segment;
      assert last in segment && |s.line + front| < |s.line + segment|;
    }
  }

  class FrameReader<M> {
    const cfg: Settings<M>
    var lineChunks: seq<seq<Byte>>
    var lineBytes: nat
    var received: seq<M>
    var queue: seq<M>
    var waiting: bool
    var failure: Option<Failure>

    ghost predicate Valid()
      reads this
    {
      failure.None? ==> lineBytes == |Flat(lineChunks)| && Admissible(cfg.rule, cfg.maxFrame, Flat(lineChunks))
    }

    ghost function State(): Link<M>
      reads this
    {
      if failure.Some? then Down(received, failure.value) else Up(Flat(lineChunks), received, |queue|, waiting)
    }

    constructor (cfg: Settings<M>)
      ensures this.cfg == cfg && Valid() && State() == Up([], [], 0, false) && queue == []
    {
      this.cfg := cfg;
      lineChunks, lineBytes, received, queue, waiting, failure := [], 0, [], [], false, None;
    }

    method AppendLineSegment(segment: seq<Byte>) returns (fits: bool)
      requires Valid() && failure.None?
      modifies this`lineChunks, this`lineBytes, this`failure
      ensures Valid()
      ensures fits <==> Admissible(cfg.rule, cfg.maxFrame, old(Flat(lineChunks)) + segment)
      ensures fits ==> failure.None? && Flat(lineChunks) == old(Flat(lineChunks)) + segment
      ensures !fits ==> failure == Some(MessageTooLarge)
    {
      if segment == [] {
        assert Flat(lineChunks) + segment == Flat(lineChunks);
        return true;
      }
      var next := lineBytes + |segment|;
      var optionalCr := cfg.rule.Jsonl? && next == cfg.maxFrame + 1 && segment[|segment| - 1] == CR;
      ghost var line := Flat(lineChunks) + segment;
      assert line[|line| - 1] == segment[|segment| - 1];
      if next > cfg.maxFrame && !optionalCr {
        failure := Some(MessageTooLarge);
        return false;
      }
      ghost var before := lineChunks;
      lineChunks := lineChunks + [segment];
      assert lineChunks[..|before|] == before;
      lineBytes := next;
      fits := true;
    }

    /** Hand one message to the inbound queue: to a waiting reader, or into a free slot. */
    method Push(m: M) returns (taken: bool)
      modifies this`queue, this`waiting
      ensures taken <==> old(waiting) || |old(queue)| < cfg.capacity
      ensures waiting == false
      ensures queue == if taken && !old(waiting) then old(queue) + [m] else old(queue)
    {
      if waiting {
        waiting := false;
        return true;
      }
      if |queue| >= cfg.capacity {
        return false;
      }
      queue := queue + [m];
      taken := true;
    }

    /** The frame given to the decoder never exceeds the limit. */
    method ConsumeLine()
      requires Valid() && failure.None?
      modifies this
      ensures Valid()
      ensures State() == LineEnd(cfg, old(State()))
    {
      var line := Concatenate(lineChunks);
      lineChunks, lineBytes := [], 0;
      if line != [] && line[|line| - 1] == CR {
        line := line[..|line| - 1];
      }
      assert |line| <= cfg.maxFrame;
      var decoded := cfg.decode(line);
      if decoded.None? {
        failure := Some(MalformedMessage);
        return;
      }
      if cfg.queues(decoded.value) {
        var taken := Push(decoded.value);
        if !taken {
          failure := Some(CapacityExceeded);
          return;
        }
      }
      received := received + [decoded.value];
    }

    /** Finish the open line with its last segment and consume it. */
    method TakeLine(segment: seq<Byte>)
      requires Valid() && failure.None? && LF !in segment
      modifies this
      ensures Valid()
      ensures State() == FeedAll(cfg, old(State()), segment + [LF])
    {
      hide LineEnd, Admissible;
      ghost var start := State();
      FeedSegment(cfg, start, segment);
      assert (segment + [LF])[..|segment|] == segment;
      var fits := AppendLineSegment(segment);
      if fits {
        ConsumeLine();
      }
    }

    /** One chunk: wherever its boundaries fall, the reader ends where its bytes alone lead. */
    method ConsumeChunk(chunk: seq<Byte>)
      requires Valid()
      modifies this
      ensures Valid()
      ensures State() == FeedAll(cfg, old(State()), chunk)
    {
      hide LineEnd, Admissible, Feed;
      ghost var start := State();
      var segmentStart, index := 0, 0;
      assert chunk[..0] == [];
      while index < |chunk| && failure.None?
        invariant 0 <= segmentStart <= index <= |chunk|
        invariant Valid() && LF !in chunk[segmentStart..index]
        invariant State() == FeedAll(cfg, start, chunk[..segmentStart])
      {
        if chunk[index] != LF {
          assert chunk[segmentStart..index + 1] == chunk[segmentStart..index] + [chunk[index]];
          index := index + 1;
          continue;
        }
        var segment := chunk[segmentStart..index];
        FeedAllAppend(cfg, start, chunk[..segmentStart], segment + [LF]);
        assert chunk[..segmentStart] + (segment + [LF]) == chunk[..index + 1];
        TakeLine(segment);
        index := index + 1;
        segmentStart := index;
      }
      ghost var rest := chunk[segmentStart..];
      FeedAllAppend(cfg, start, chunk[..segmentStart], rest);
      assert chunk[..segmentStart] + rest == chunk;
      if failure.Some? {
        DownStays(cfg, State(), rest);
      } else {
        FeedSegment(cfg, State(), rest);
        if segmentStart < |chunk| {
          var fits := AppendLineSegment(chunk[segmentStart..]);
        }
      }
    }

    /** One read by the consumer: a queued message, or a pending wait for the next. */
    method Next() returns (m: Option<M>)
      requires Valid() && failure.None?
      modifies this`queue, this`waiting
      ensures Valid() && State() == Pull(old(State()))
      ensures m == (if old(queue) == [] then None else Some(old(queue)[0]))
      ensures queue == if old(queue) == [] then [] else old(queue)[1..]
    {
      if queue == [] {
        waiting := true;
        return None;
      }
      m := Some(queue[0]);
      queue := queue[1..];
    }
  }
}
