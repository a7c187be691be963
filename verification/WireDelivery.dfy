/** From one transport's `send` to another's inbound queue, over any cutting of the wire into chunks. */
module WireDelivery {
  import opened Prelude
  import opened Bytes
  import Framing
  import WriteQueue

  // ---------------------------------------------------------------- the reader between pulls

  datatype Op = Chunk(bytes: seq<Byte>) | Pull

  ghost function Reads<M(!new)>(cfg: Framing.Settings<M>, ops: seq<Op>): Framing.Link<M> {
    if ops == [] then Framing.Up([], [], 0, false)
    else
      var before := Reads(cfg, ops[..|ops| - 1]);
      match ops[|ops| - 1]
      case Chunk(bytes) => Framing.FeedAll(cfg, before, bytes)
      case Pull => Framing.Pull(before)
  }

  function Fed(ops: seq<Op>): seq<Byte> {
    if ops == [] then []
    else Fed(ops[..|ops| - 1]) + if ops[|ops| - 1].Chunk? then ops[|ops| - 1].bytes else []
  }

  /** The same frame rules with a queue that never fills up. */
  function Unbounded<M>(cfg: Framing.Settings<M>): Framing.Settings<M> {
    cfg.(queues := m => false)
  }

  /** The verdict of the bytes alone: everything but the occupancy of the inbound queue. A reader whose queue
      overflowed took in only messages of the byte pass, in order, and lacks at least the one it refused. */
  ghost predicate AgreesWith<M(!new)>(s: Framing.Link<M>, pass: Framing.Link<M>) {
    || (s.Up? && pass.Up? && s.line == pass.line && s.received == pass.received)
    || (s.Down? && s == pass)
    || (s.Down? && s.failure.CapacityExceeded? && s.received < pass.received)
  }

  lemma ReceivesMore<M(!new)>(cfg: Framing.Settings<M>, s: Framing.Link<M>, b: Byte)
    ensures s.received <= Framing.Feed(cfg, s, b).received
  {
  }

  lemma {:induction false} FeedAgrees<M(!new)>(cfg: Framing.Settings<M>, s: Framing.Link<M>, pass: Framing.Link<M>,
      bytes: seq<Byte>)
    requires AgreesWith(s, pass)
    ensures AgreesWith(Framing.FeedAll(cfg, s, bytes), Framing.FeedAll(Unbounded(cfg), pass, bytes))
  {
    if bytes != [] {
      FeedAgrees(cfg, s, pass, bytes[..|bytes| - 1]);
      ReceivesMore(Unbounded(cfg), Framing.FeedAll(Unbounded(cfg), pass, bytes[..|bytes| - 1]), bytes[|bytes| - 1]);
    }
  }

  /** Whether a line is accepted, and what was received, depends on the bytes and never on where chunks
      or reads fell; only a full inbound queue can make a difference. */
  lemma {:induction false} ChunkingIsInvisible<M(!new)>(cfg: Framing.Settings<M>, ops: seq<Op>)
    ensures AgreesWith(Reads(cfg, ops), Framing.FeedAll(Unbounded(cfg), Framing.Up([], [], 0, false), Fed(ops)))
  {
    if ops != [] {
      var front, start := ops[..|ops| - 1], Framing.Up([], [], 0, false);
      ChunkingIsInvisible(cfg, front);
      match ops[|ops| - 1] {
        case Chunk(bytes) =>
          FeedAgrees(cfg, Reads(cfg, front), Framing.FeedAll(Unbounded(cfg), start, Fed(front)), bytes);
          Framing.FeedAllAppend(Unbounded(cfg), start, Fed(front), bytes);
        case Pull => assert Fed(ops) == Fed(front);
      }
    }
  }

  /** An open line is always within the rule's allowance, so what is left of it without its CR, which is all
      the decoder ever gets, is within the frame limit. */
  lemma {:induction false} DecodedFramesFit<M(!new)>(cfg: Framing.Settings<M>, ops: seq<Op>)
    ensures var s := Reads(cfg, ops);
      s.Up? ==> Framing.Admissible(cfg.rule, cfg.maxFrame, s.line) && |Framing.StripCr(s.line)| <= cfg.maxFrame
  {
    if ops != [] {
      var front := ops[..|ops| - 1];
      DecodedFramesFit(cfg, front);
      if ops[|ops| - 1].Chunk? {
        FedFramesFit(cfg, Reads(cfg, front), ops[|ops| - 1].bytes);
      }
    }
  }

  lemma {:induction false} FedFramesFit<M(!new)>(cfg: Framing.Settings<M>, s: Framing.Link<M>, bytes: seq<Byte>)
    requires s.Up? ==> Framing.Admissible(cfg.rule, cfg.maxFrame, s.line)
    ensures var t := Framing.FeedAll(cfg, s, bytes);
      t.Up? ==> Framing.Admissible(cfg.rule, cfg.maxFrame, t.line)
  {
    if bytes != [] {
      FedFramesFit(cfg, s, bytes[..|bytes| - 1]);
    }
  }

  // ---------------------------------------------------------------- both ends

  /** Encoded messages are one line, end in no CR, fit the reader's limit and decode to themselves. */
  ghost predicate Matched<M(!new)>(out: WriteQueue.Settings<M>, into: Framing.Settings<M>) {
    forall m :: out.encode(m).Some? ==>
      var line := out.encode(m).value;
      && LF !in line && (line != [] ==> line[|line| - 1] != CR)
      && |line| <= into.maxFrame && into.decode(line) == Some(m)
  }

  /** The reader has taken in whole frames of a prefix of the messages, and holds part of the next. */
  ghost predicate Tracks<M(!new)>(out: WriteQueue.Settings<M>, messages: seq<M>, s: Framing.Link<M>, fed: seq<Byte>)
    requires WriteQueue.Encodable(out, messages)
  {
    && s.received <= messages
    && (s.Down? ==> s.failure.CapacityExceeded?)
    && (s.Up? ==> LF !in s.line && fed == WriteQueue.Frames(out, s.received) + s.line)
  }

  lemma {:induction false} FramesPrefix<M(!new)>(out: WriteQueue.Settings<M>, messages: seq<M>, k: nat)
    requires WriteQueue.Encodable(out, messages) && k <= |messages|
    ensures WriteQueue.Encodable(out, messages[..k])
    ensures WriteQueue.Frames(out, messages[..k]) <= WriteQueue.Frames(out, messages)
    decreases |messages|
  {
    if k < |messages| {
      var front := messages[..|messages| - 1];
      FramesPrefix(out, front, k);
      assert front[..k] == messages[..k];
    } else {
      assert messages[..k] == messages;
    }
  }

  lemma NextFrame<M(!new)>(out: WriteQueue.Settings<M>, messages: seq<M>, k: nat)
    requires WriteQueue.Encodable(out, messages) && k < |messages|
    ensures WriteQueue.Encodable(out, messages[..k]) && out.encode(messages[k]).Some?
    ensures WriteQueue.Frames(out, messages[..k]) + WriteQueue.Frame(out, messages[k])
            <= WriteQueue.Frames(out, messages)
  {
    FramesPrefix(out, messages, k);
    FramesPrefix(out, messages, k + 1);
    assert messages[..k + 1] == messages[..k] + [messages[k]];
    WriteQueue.FramesExtend(out, messages[..k], messages[k]);
  }

  /** Where the wire agrees with a started frame, the next byte is the frame's next byte. */
  lemma NextByte(wire: seq<Byte>, before: seq<Byte>, code: seq<Byte>, line: seq<Byte>, b: Byte)
    requires before + (code + [LF]) <= wire && (before + line) + [b] <= wire && LF !in line
    ensures |line| <= |code| && line == code[..|line|] && b == (code + [LF])[|line|]
    ensures b == LF && LF !in code ==> line == code
  {
    var frame := code + [LF];
    assert forall i :: 0 <= i < |frame| ==> wire[|before| + i] == (before + frame)[|before| + i] == frame[i];
    assert forall i :: 0 <= i < |line| ==> wire[|before| + i] == ((before + line) + [b])[|before| + i] == line[i];
    assert wire[|before| + |line|] == ((before + line) + [b])[|before| + |line|] == b;
    assert frame[|code|] == LF;
  }

  /** A line feed completes the frame: one more message is taken in, unless the queue is full. */
  lemma FrameCompletes<M(!new)>(out: WriteQueue.Settings<M>, into: Framing.Settings<M>, messages: seq<M>,
                                s: Framing.Link<M>, fed: seq<Byte>)
    requires Matched(out, into) && WriteQueue.Encodable(out, messages) && Tracks(out, messages, s, fed)
    requires s.Up? && |s.received| < |messages| && out.encode(messages[|s.received|]) == Some(s.line)
    ensures Tracks(out, messages, Framing.Feed(into, s, LF), fed + [LF])
  {
    var k := |s.received|;
    var more := s.received + [messages[k]];
    assert Framing.StripCr(s.line) == s.line;
    assert more == messages[..k + 1];
    FramesPrefix(out, messages, k + 1);
    WriteQueue.FramesExtend(out, s.received, messages[k]);
    assert fed + [LF] == WriteQueue.Frames(out, more) + [];
  }

  lemma NextMessage<M(!new)>(out: WriteQueue.Settings<M>, messages: seq<M>, s: Framing.Link<M>, fed: seq<Byte>, b: Byte)
    requires WriteQueue.Encodable(out, messages) && s.Up? && Tracks(out, messages, s, fed)
    requires fed + [b] <= WriteQueue.Frames(out, messages)
    ensures |s.received| < |messages| && out.encode(messages[|s.received|]).Some?
    ensures var code := out.encode(messages[|s.received|]).value;
            && |s.line| <= |code| && s.line == code[..|s.line|] && b == (code + [LF])[|s.line|]
            && (b == LF && LF !in code ==> s.line == code)
  {
    var k := |s.received|;
    assert s.received == messages[..k] && messages[..|messages|] == messages;
    if k < |messages| {
      NextFrame(out, messages, k);
      NextByte(WriteQueue.Frames(out, messages), WriteQueue.Frames(out, messages[..k]),
               out.encode(messages[k]).value, s.line, b);
    }
  }

  lemma ByteTracks<M(!new)>(out: WriteQueue.Settings<M>, into: Framing.Settings<M>, messages: seq<M>,
                            s: Framing.Link<M>, fed: seq<Byte>, b: Byte)
    requires Matched(out, into) && WriteQueue.Encodable(out, messages)
    requires Tracks(out, messages, s, fed) && fed + [b] <= WriteQueue.Frames(out, messages)
    ensures Tracks(out, messages, Framing.Feed(into, s, b), fed + [b])
  {
    if s.Up? {
      NextMessage(out, messages, s, fed, b);
      if b == LF {
        FrameCompletes(out, into, messages, s, fed);
      } else {
        assert fed + [b] == WriteQueue.Frames(out, s.received) + (s.line + [b]);
      }
    }
  }

  lemma {:induction false} BytesTrack<M(!new)>(out: WriteQueue.Settings<M>, into: Framing.Settings<M>, messages: seq<M>,
                                               s: Framing.Link<M>, fed: seq<Byte>, more: seq<Byte>)
    requires Matched(out, into) && WriteQueue.Encodable(out, messages)
    requires Tracks(out, messages, s, fed) && fed + more <= WriteQueue.Frames(out, messages)
    ensures Tracks(out, messages, Framing.FeedAll(into, s, more), fed + more)
    decreases |more|
  {
    if more == [] {
      assert fed + more == fed;
    } else {
      var front, b := more[..|more| - 1], more[|more| - 1];
      assert fed + more == (fed + front) + [b];
      BytesTrack(out, into, messages, s, fed, front);
      ByteTracks(out, into, messages, Framing.FeedAll(into, s, front), fed + front, b);
    }
  }

  lemma {:induction false} ReaderTracks<M(!new)>(out: WriteQueue.Settings<M>, into: Framing.Settings<M>,
      messages: seq<M>,
                                                 ops: seq<Op>)
    requires Matched(out, into) && WriteQueue.Encodable(out, messages)
    requires Fed(ops) <= WriteQueue.Frames(out, messages)
    ensures Tracks(out, messages, Reads(into, ops), Fed(ops))
  {
    if ops != [] {
      var front := ops[..|ops| - 1];
      assert Fed(front) <= Fed(ops);
      ReaderTracks(out, into, messages, front);
      match ops[|ops| - 1] {
        case Chunk(bytes) => BytesTrack(out, into, messages, Reads(into, front), Fed(front), bytes);
        case Pull => assert Fed(ops) == Fed(front);
      }
    }
  }

  /** For every interleaving at the sender and every cutting of its wire at the receiver: the receiver
      takes in a prefix of the messages whose write was started, in send order; it fails only when its
      queue overflows; and once the whole wire has arrived it has taken in exactly those messages. */
  lemma WireDelivers<M(!new)>(out: WriteQueue.Settings<M>, into: Framing.Settings<M>,
                              sends: seq<WriteQueue.Op<M>>, arrivals: seq<Op>)
    requires Matched(out, into) && Fed(arrivals) <= WriteQueue.Run(out, sends).wire
    ensures var written, link := WriteQueue.Written(WriteQueue.Run(out, sends).entries), Reads(into, arrivals);
            && link.received <= written
            && (link.Down? ==> link.failure.CapacityExceeded?)
            && (link.Up? && Fed(arrivals) == WriteQueue.Run(out, sends).wire ==>
                link.received == written && link.line == [])
  {
    var written, link := WriteQueue.Written(WriteQueue.Run(out, sends).entries), Reads(into, arrivals);
    ReaderTracks(out, into, written, arrivals);
    if link.Up? && Fed(arrivals) == WriteQueue.Run(out, sends).wire {
      WholeWire(out, written, link);
    }
  }

  lemma WholeWire<M(!new)>(out: WriteQueue.Settings<M>, messages: seq<M>, s: Framing.Link<M>)
    requires WriteQueue.Encodable(out, messages) && s.Up?
    requires Tracks(out, messages, s, WriteQueue.Frames(out, messages))
    ensures s.received == messages && s.line == []
  {
    var k := |s.received|;
    assert s.received == messages[..k];
    if k < |messages| {
      NextFrame(out, messages, k);
      var before := WriteQueue.Frames(out, messages[..k]);
      WholeFrameInside(before, out.encode(messages[k]).value, s.line);
    }
  }

  lemma WholeFrameInside(before: seq<Byte>, code: seq<Byte>, rest: seq<Byte>)
    requires before + (code + [LF]) <= before + rest
    ensures LF in rest
  {
    var n := |code|;
    assert rest[n] == (before + rest)[|before| + n] == (before + (code + [LF]))[|before| + n] == LF;
  }
}
