/** Whole-stream reading of server-sent events, and the incremental parser's agreement with it. */
module EventStreamReference {
  import opened Prelude
  import opened Bytes
  import opened EventStream

  // ---------------------------------------------------------------- chunk boundaries are invisible

  /** The parser after a series of chunks. */
  ghost function Consumed(cfg: Settings, chunks: seq<seq<Byte>>): Parse {
    if chunks == [] then START
    else
      var before, chunk := Consumed(cfg, chunks[..|chunks| - 1]), chunks[|chunks| - 1];
      if before.Broken? then before
      else if |chunk| > cfg.maxChunk then Broken(before.events, ChunkTooLarge)
      else FeedAll(cfg, before, chunk)
  }

  /** What a subscriber sees: the events, then how the stream ended. */
  ghost function Outcome(cfg: Settings, chunks: seq<seq<Byte>>, readFails: bool): Ending {
    var p := Consumed(cfg, chunks);
    if p.Reading? && readFails then Failed(p.events, StreamFailed) else Finish(cfg, p)
  }

  method ParseSse(cfg: Settings, chunks: seq<seq<Byte>>, readFails: bool) returns (ending: Ending)
    ensures ending == Outcome(cfg, chunks, readFails)
  {
    var parser := new SseParser(cfg);
    for i := 0 to |chunks|
      invariant fresh(parser) && parser.cfg == cfg && parser.Valid() && parser.failure.None?
      invariant parser.State() == Consumed(cfg, chunks[..i])
    {
      assert chunks[..i + 1][..i] == chunks[..i];
      parser.ConsumeChunk(chunks[i]);
      if parser.failure.Some? {
        FailureIsFinal(cfg, chunks, i + 1);
        return Failed(parser.yielded, parser.failure.value);
      }
    }
    assert chunks[..|chunks|] == chunks;
    if readFails {
      return Failed(parser.yielded, StreamFailed);
    }
    ending := parser.End();
  }

  lemma {:induction false} FailureIsFinal(cfg: Settings, chunks: seq<seq<Byte>>, n: nat)
    requires n <= |chunks| && Consumed(cfg, chunks[..n]).Broken?
    ensures Consumed(cfg, chunks) == Consumed(cfg, chunks[..n])
    decreases |chunks| - n
  {
    if n < |chunks| {
      assert chunks[..n + 1][..n] == chunks[..n];
      FailureIsFinal(cfg, chunks, n + 1);
    } else {
      assert chunks[..n] == chunks;
    }
  }

  ghost predicate LegalChunks(cfg: Settings, chunks: seq<seq<Byte>>) {
    forall i :: 0 <= i < |chunks| ==> |chunks[i]| <= cfg.maxChunk
  }

  lemma {:induction false} ChunksAreOnePass(cfg: Settings, chunks: seq<seq<Byte>>)
    requires LegalChunks(cfg, chunks)
    ensures Consumed(cfg, chunks) == FeedAll(cfg, START, Flat(chunks))
  {
    if chunks != [] {
      var front, last := chunks[..|chunks| - 1], chunks[|chunks| - 1];
      ChunksAreOnePass(cfg, front);
      FeedAllAppend(cfg, START, Flat(front), last);
      if Consumed(cfg, front).Broken? {
        BrokenStays(cfg, Consumed(cfg, front), last);
      }
    }
  }

  /** However one byte stream is cut into legal chunks, the subscriber sees the same events followed by
      the same ending or failure. */
  lemma ChunkingIsInvisible(cfg: Settings, a: seq<seq<Byte>>, b: seq<seq<Byte>>, readFails: bool)
    requires LegalChunks(cfg, a) && LegalChunks(cfg, b) && Flat(a) == Flat(b)
    ensures Outcome(cfg, a, readFails) == Outcome(cfg, b, readFails)
  {
    ChunksAreOnePass(cfg, a);
    ChunksAreOnePass(cfg, b);
  }

  // ---------------------------------------------------------------- the reference reading

  predicate IsBreak(b: Byte) {
    b == LF || b == CR
  }

  function BreakAt(bytes: seq<Byte>): (i: nat)
    ensures i <= |bytes| && (i < |bytes| ==> IsBreak(bytes[i])) && (forall j :: 0 <= j < i ==> !IsBreak(bytes[j]))
  {
    if bytes == [] || IsBreak(bytes[0]) then 0 else 1 + BreakAt(bytes[1..])
  }

  /** What follows the line break at `i`: CRLF is one break, a lone CR or LF is one too. */
  function AfterBreak(bytes: seq<Byte>, i: nat): seq<Byte>
    requires i < |bytes|
  {
    if bytes[i] == CR && i + 1 < |bytes| && bytes[i + 1] == LF then bytes[i + 2..] else bytes[i + 1..]
  }

  /** Lines of the whole stream, and the unterminated remainder. */
  function SplitLines(bytes: seq<Byte>): (seq<seq<Byte>>, seq<Byte>)
    decreases |bytes|
  {
    var i := BreakAt(bytes);
    if i == |bytes| then ([], bytes)
    else
      var (lines, rest) := SplitLines(AfterBreak(bytes, i));
      ([bytes[..i]] + lines, rest)
  }

  function Texts(cfg: Settings, first: bool, lines: seq<seq<Byte>>): Option<seq<string>> {
    if lines == [] then Some([])
    else
      var head, tail := TextOf(cfg, first, lines[0]), Texts(cfg, false, lines[1..]);
      if head.Some? && tail.Some? then Some([head.value] + tail.value) else None
  }

  /** Values of the fields called `name` in a block of non-empty lines, in order. */
  function ValuesOf(block: seq<string>, name: FieldName): seq<string>
    requires "" !in block
  {
    if block == [] then []
    else
      var last := FieldOf(block[|block| - 1]);
      ValuesOf(block[..|block| - 1], name) + if last.Field? && last.name == name then [last.value] else []
  }

  function LastOf<T>(values: seq<T>): Option<T> {
    if values == [] then None else Some(values[|values| - 1])
  }

  /** The last identifier free of NUL, or the one in force before. */
  function LastId(ids: seq<string>, before: string): string {
    if ids == [] then before
    else if '\0' in ids[|ids| - 1] then LastId(ids[..|ids| - 1], before)
    else ids[|ids| - 1]
  }

  function LastRetry(values: seq<string>): Option<nat> {
    if values == [] then None
    else if RetryOf(values[|values| - 1]).Some? then RetryOf(values[|values| - 1])
    else LastRetry(values[..|values| - 1])
  }

  /** The event a block stands for: its data lines joined, none without data. */
  function BlockEvent(block: seq<string>, id: string): Option<SseEvent>
    requires "" !in block
  {
    var data, name := ValuesOf(block, DataField), LastOf(ValuesOf(block, EventField));
    if data == [] then None
    else Some(SseEvent(Join(data), LastId(ValuesOf(block, IdField), id), if name == Some("") then None else name,
                       LastRetry(ValuesOf(block, RetryField))))
  }

  function EmptyAt(lines: seq<string>): (i: nat)
    ensures i <= |lines| && (i < |lines| ==> lines[i] == "") && (forall j :: 0 <= j < i ==> lines[j] != "")
    ensures "" !in lines[..i]
  {
    if lines == [] || lines[0] == "" then 0 else 1 + EmptyAt(lines[1..])
  }

  /** Events of a whole stream of text lines: one per block that an empty line closes. */
  function EventsOf(lines: seq<string>, id: string): seq<SseEvent>
    decreases |lines|
  {
    var i := EmptyAt(lines);
    if i == |lines| then []
    else
      Emit(BlockEvent(lines[..i], id)) + EventsOf(lines[i + 1..], LastId(ValuesOf(lines[..i], IdField), id))
  }

  // ---------------------------------------------------------------- one pass reads lines

  /** Reading terminated lines one after another from given fields. */
  function LinesRead(cfg: Settings, f: Fields, events: seq<SseEvent>, lines: seq<seq<Byte>>): Parse
    decreases |lines|
  {
    if lines == [] then Reading([], false, f, events)
    else if |lines[0]| > cfg.maxLine then Broken(events, LineTooLarge)
    else
      match LineRead(cfg, f, lines[0])
      case Ok((g, event)) => LinesRead(cfg, g, events + Emit(event), lines[1..])
      case Err(failure) => Broken(events, failure)
  }

  /** The remainder joins the open line, if it is short enough. */
  function WithRest(cfg: Settings, p: Parse, rest: seq<Byte>): Parse {
    if p.Broken? then p
    else if |rest| > cfg.maxLine then Broken(p.events, LineTooLarge)
    else p.(line := rest)
  }

  lemma {:induction false} FeedPlain(cfg: Settings, p: Parse, bytes: seq<Byte>)
    requires p.Reading? && !p.skip && |p.line| <= cfg.maxLine
    requires forall i :: 0 <= i < |bytes| ==> !IsBreak(bytes[i])
    ensures FeedAll(cfg, p, bytes) == if |p.line| + |bytes| > cfg.maxLine then Broken(p.events, LineTooLarge)
                                      else p.(line := p.line + bytes)
    decreases |bytes|
  {
    if bytes == [] {
      assert p.line + bytes == p.line;
    } else {
      var q := Feed(cfg, p, bytes[0]);
      if q.Broken? {
        BrokenStays(cfg, q, bytes[1..]);
      } else {
        FeedPlain(cfg, q, bytes[1..]);
        assert p.line + bytes == q.line + bytes[1..];
      }
    }
  }

  /** A pending LF of a CRLF pair changes nothing but where the next line starts. */
  lemma SkipIsAfterBreak(cfg: Settings, p: Parse, bytes: seq<Byte>, i: nat)
    requires p.Reading? && i < |bytes| && IsBreak(bytes[i])
    ensures var q := p.(skip := bytes[i] == CR);
            Finish(cfg, FeedAll(cfg, q, bytes[i + 1..]))
            == Finish(cfg, FeedAll(cfg, p.(skip := false), AfterBreak(bytes, i)))
  {
    var rest := bytes[i + 1..];
    if bytes[i] == CR && rest != [] {
      if rest[0] == LF {
        assert rest[1..] == bytes[i + 2..];
      } else {
        assert Feed(cfg, p.(skip := true), rest[0]) == Feed(cfg, p.(skip := false), rest[0]);
      }
    }
  }

  /** The byte-wise pass ends like reading the split lines one after another. */
  lemma {:induction false} PassReadsLines(cfg: Settings, f: Fields, events: seq<SseEvent>, bytes: seq<Byte>)
    ensures var (lines, rest) := SplitLines(bytes);
            Finish(cfg, FeedAll(cfg, Reading([], false, f, events), bytes))
            == Finish(cfg, WithRest(cfg, LinesRead(cfg, f, events, lines), rest))
    decreases |bytes|
  {
    hide LineRead;
    var p, i := Reading([], false, f, events), BreakAt(bytes);
    if i == |bytes| {
      FeedPlain(cfg, p, bytes);
      assert [] + bytes == bytes;
    } else {
      FeedPlain(cfg, p, bytes[..i]);
      FeedLast(cfg, p, bytes, i);
      assert [] + bytes[..i] == bytes[..i] && bytes == bytes[..i + 1] + bytes[i + 1..];
      FeedAllAppend(cfg, p, bytes[..i + 1], bytes[i + 1..]);
      var q := FeedAll(cfg, p, bytes[..i + 1]);
      if q.Broken? {
        BrokenStays(cfg, q, bytes[i + 1..]);
      } else {
        SkipIsAfterBreak(cfg, q, bytes, i);
        PassReadsLines(cfg, q.fields, q.events, AfterBreak(bytes, i));
      }
    }
  }

  // ---------------------------------------------------------------- lines group into blocks

  /** The fields after the non-empty lines of a block, told from the block as a whole. */
  ghost predicate Summarises(f: Fields, block: seq<string>, id: string)
    requires "" !in block
  {
    && f.data == ValuesOf(block, DataField)
    && f.name == LastOf(ValuesOf(block, EventField))
    && f.id == LastId(ValuesOf(block, IdField), id)
    && f.retry == LastRetry(ValuesOf(block, RetryField))
  }

  lemma LastExtends(values: seq<string>, value: string, id: string)
    ensures LastOf(values + [value]) == Some(value)
    ensures LastId(values + [value], id) == if '\0' in value then LastId(values, id) else value
    ensures LastRetry(values + [value]) == if RetryOf(value).Some? then RetryOf(value) else LastRetry(values)
  {
    hide RetryOf;
    assert (values + [value])[..|values|] == values;
  }

  lemma FieldSummarised(f: Fields, block: seq<string>, id: string, line: string)
    requires "" !in block && line != "" && Summarises(f, block, id)
    ensures "" !in block + [line] && Summarises(WithField(f, FieldOf(line)), block + [line], id)
  {
    var field := FieldOf(line);
    hide FieldOf, RetryOf, LastOf, LastId, LastRetry, ValuesOf;
    assert "" !in block + [line];
    ValuesExtend(block, line, DataField);
    ValuesExtend(block, line, EventField);
    ValuesExtend(block, line, IdField);
    ValuesExtend(block, line, RetryField);
    if field.Field? {
      LastExtends(ValuesOf(block, field.name), field.value, id);
    }
  }

  lemma ValuesExtend(block: seq<string>, line: string, name: FieldName)
    requires "" !in block && line != ""
    ensures var field := FieldOf(line);
            ValuesOf(block + [line], name)
            == if field.Field? && field.name == name then ValuesOf(block, name) + [field.value]
                else ValuesOf(block, name)
  {
    assert (block + [line])[..|block|] == block;
  }

  /** An empty line closes the block: it dispatches the block's event and starts a new block. */
  lemma BlankLine(cfg: Settings, f: Fields, raw: seq<Byte>, block: seq<string>, id: string)
    requires "" !in block && Summarises(f, block, id) && TextOf(cfg, f.first, raw) == Some("")
    ensures LineRead(cfg, f, raw) == Ok((Fields(false, [], None, None, f.id, 0), BlockEvent(block, id)))
    ensures f.id == LastId(ValuesOf(block, IdField), id)
    ensures Summarises(Fields(false, [], None, None, f.id, 0), [], f.id)
  {
  }

  /** Any other accepted line extends the block. */
  lemma FieldLine(cfg: Settings, f: Fields, raw: seq<Byte>, block: seq<string>, id: string)
    requires "" !in block && Summarises(f, block, id)
    requires LineRead(cfg, f, raw).Ok? && TextOf(cfg, f.first, raw) != Some("")
    ensures var text, (g, event) := TextOf(cfg, f.first, raw).value, LineRead(cfg, f, raw).value;
            event.None? && !g.first && "" !in block + [text] && Summarises(g, block + [text], id)
  {
    hide FieldOf, ValuesOf, LastOf, LastId, LastRetry, WithField, Dispatched;
    FieldSummarised(f.(first := false, bytes := f.bytes + |raw| + 1), block, id, TextOf(cfg, f.first, raw).value);
  }

  lemma FirstLine(cfg: Settings, f: Fields, events: seq<SseEvent>, lines: seq<seq<Byte>>)
    requires lines != [] && LinesRead(cfg, f, events, lines).Reading?
    ensures LineRead(cfg, f, lines[0]).Ok? && TextOf(cfg, f.first, lines[0]).Some?
    ensures var (g, event) := LineRead(cfg, f, lines[0]).value;
            LinesRead(cfg, f, events, lines) == LinesRead(cfg, g, events + Emit(event), lines[1..])
    ensures Texts(cfg, false, lines[1..]).Some? ==>
              Texts(cfg, f.first, lines)
              == Some([TextOf(cfg, f.first, lines[0]).value] + Texts(cfg, false, lines[1..]).value)
  {
  }

  lemma OpenBlock(block: seq<string>, id: string)
    requires "" !in block
    ensures EventsOf(block, id) == []
  {
    assert forall i :: 0 <= i < |block| ==> block[i] in block;
  }

  /** Reading the lines, with part of the open block already read, yields the reference events. */
  ghost predicate YieldsBlocks(cfg: Settings, f: Fields, events: seq<SseEvent>, lines: seq<seq<Byte>>,
                               block: seq<string>, id: string)
  {
    var texts := Texts(cfg, f.first, lines);
    && texts.Some?
    && LinesRead(cfg, f, events, lines).events == events + EventsOf(block + texts.value, id)
  }

  lemma Associative<T>(a: seq<T>, b: seq<T>, c: seq<T>)
    ensures (a + b) + c == a + (b + c)
  {
  }

  lemma {:induction false} LinesAreBlocks(cfg: Settings, f: Fields, events: seq<SseEvent>, lines: seq<seq<Byte>>,
                                          block: seq<string>, id: string)
    requires "" !in block && Summarises(f, block, id)
    requires LinesRead(cfg, f, events, lines).Reading?
    ensures YieldsBlocks(cfg, f, events, lines, block, id)
    decreases |lines|
  {
    if lines == [] {
      OpenBlock(block, id);
      assert block + [] == block && events + [] == events;
    } else {
      FirstLine(cfg, f, events, lines);
      var (g, event) := LineRead(cfg, f, lines[0]).value;
      if TextOf(cfg, f.first, lines[0]) == Some("") {
        BlankLine(cfg, f, lines[0], block, id);
        LinesAreBlocks(cfg, g, events + Emit(event), lines[1..], [], g.id);
        var tail := Texts(cfg, false, lines[1..]).value;
        ClosedBlock(block, tail, id);
        Associative(events, Emit(event), EventsOf(tail, g.id));
        assert [] + tail == tail;
      } else {
        FieldLine(cfg, f, lines[0], block, id);
        assert events + Emit(event) == events;
        var text := TextOf(cfg, f.first, lines[0]).value;
        LinesAreBlocks(cfg, g, events, lines[1..], block + [text], id);
        Associative(block, [text], Texts(cfg, false, lines[1..]).value);
      }
    }
  }

  lemma FirstEmpty(block: seq<string>, tail: seq<string>)
    requires "" !in block
    ensures var all := block + ([""] + tail);
            EmptyAt(all) == |block| && all[..|block|] == block && all[|block| + 1..] == tail
  {
    var all := block + ([""] + tail);
    assert all[|block|] == "";
    assert forall j :: 0 <= j < |block| ==> all[j] == block[j] && block[j] in block;
  }

  lemma ClosedBlock(block: seq<string>, tail: seq<string>, id: string)
    requires "" !in block
    ensures EventsOf(block + ([""] + tail), id)
            == Emit(BlockEvent(block, id)) + EventsOf(tail, LastId(ValuesOf(block, IdField), id))
  {
    hide BlockEvent, ValuesOf, LastId, EmptyAt;
    FirstEmpty(block, tail);
  }

  /** On every accepted stream the parser yields exactly the reference events, however it was chunked:
      split the bytes at CRLF, CR or LF, decode the lines, and read the blocks closed by empty lines. */
  lemma AcceptedStreamsMatchReference(cfg: Settings, chunks: seq<seq<Byte>>)
    requires LegalChunks(cfg, chunks) && Outcome(cfg, chunks, false).Complete?
    ensures var (lines, rest) := SplitLines(Flat(chunks));
            && Texts(cfg, true, lines).Some?
            && Outcome(cfg, chunks, false).events == EventsOf(Texts(cfg, true, lines).value, "")
  {
    var (lines, rest) := SplitLines(Flat(chunks));
    ChunksAreOnePass(cfg, chunks);
    PassReadsLines(cfg, NO_FIELDS, [], Flat(chunks));
    LinesAreBlocks(cfg, NO_FIELDS, [], lines, [], "");
    var texts := Texts(cfg, true, lines).value;
    assert [] + texts == texts && [] + EventsOf(texts, "") == EventsOf(texts, "");
  }
}
