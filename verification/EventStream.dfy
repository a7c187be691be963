/** Incremental server-sent-event parsing over arbitrary network chunks. */
module EventStream {
  import opened Prelude
  import opened Bytes

  datatype SseEvent = SseEvent(data: string, id: string, name: Option<string>, retry: Option<nat>)

  datatype Failure = LineTooLarge | EventTooLarge | InvalidEncoding | ChunkTooLarge | StreamFailed

  /** Byte limits and the fatal UTF-8 decoder, which is partial and otherwise arbitrary. */
  datatype Settings = Settings(maxLine: nat, maxEvent: nat, maxChunk: nat, decode: seq<Byte> -> Option<string>)

  // ---------------------------------------------------------------- one line

  const BOM := '\U{FEFF}'

  function IndexOf(s: string, c: char): (i: nat)
    ensures i <= |s| && (i < |s| ==> s[i] == c) && (forall j :: 0 <= j < i ==> s[j] != c)
  {
    if s == "" || s[0] == c then 0 else 1 + IndexOf(s[1..], c)
  }

  datatype FieldName = DataField | EventField | IdField | RetryField | OtherField

  function NameOf(name: string): FieldName {
    if name == "data" then DataField
    else if name == "event" then EventField
    else if name == "id" then IdField
    else if name == "retry" then RetryField
    else OtherField
  }

  datatype Field = Comment | Field(name: FieldName, value: string)

  /** A non-empty line read as a field: name up to the first colon, value after it less one space. */
  function FieldOf(line: string): Field
    requires line != ""
  {
    var colon := IndexOf(line, ':');
    if colon == 0 then Comment
    else if colon == |line| then Field(NameOf(line), "")
    else
      var value := line[colon + 1..];
      Field(NameOf(line[..colon]), if value != "" && value[0] == ' ' then value[1..] else value)
  }

  predicate AllDigits(s: string) {
    s != "" && forall i :: 0 <= i < |s| ==> '0' <= s[i] <= '9'
  }

  function DecimalValue(s: string): nat
    requires forall i :: 0 <= i < |s| ==> '0' <= s[i] <= '9'
  {
    if s == "" then 0 else 10 * DecimalValue(s[..|s| - 1]) + (s[|s| - 1] - '0') as nat
  }

  /** A reconnection time: decimal digits naming a safe integer. */
  function RetryOf(value: string): Option<nat> {
    if AllDigits(value) && DecimalValue(value) <= MAX_SAFE_INTEGER then Some(DecimalValue(value)) else None
  }

  datatype Fields = Fields(first: bool, data: seq<string>, name: Option<string>, retry: Option<nat>, id: string,
      bytes: nat)

  const NO_FIELDS := Fields(true, [], None, None, "", 0)

  function Join(lines: seq<string>): string {
    if lines == [] then "" else if |lines| == 1 then lines[0]
        else Join(lines[..|lines| - 1]) + "\n" + lines[|lines| - 1]
  }

  /** Text of a raw line; a byte order mark is dropped from the first line of the stream only. */
  function TextOf(cfg: Settings, first: bool, raw: seq<Byte>): Option<string> {
    var text := cfg.decode(raw);
    if text.Some? && first && text.value != "" && text.value[0] == BOM then Some(text.value[1..]) else text
  }

  function WithField(f: Fields, field: Field): (g: Fields)
    ensures g.first == f.first && g.bytes == f.bytes
  {
    if field.Comment? then f
    else
      match field.name
      case DataField => f.(data := f.data + [field.value])
      case EventField => f.(name := Some(field.value))
      case IdField => if '\0' in field.value then f else f.(id := field.value)
      case RetryField => if RetryOf(field.value).Some? then f.(retry := RetryOf(field.value)) else f
      case OtherField => f
  }

  function Dispatched(f: Fields): Option<SseEvent> {
    if f.data == [] then None
    else Some(SseEvent(Join(f.data), f.id, if f.name == Some("") then None else f.name, f.retry))
  }

  /** Reading one complete line. */
  function LineRead(cfg: Settings, f: Fields, raw: seq<Byte>): Result<(Fields, Option<SseEvent>), Failure> {
    var text := TextOf(cfg, f.first, raw);
    if text.None? then Err(InvalidEncoding)
    else if text.value == "" then Ok((Fields(false, [], None, None, f.id, 0), Dispatched(f)))
    else if f.bytes + |raw| + 1 > cfg.maxEvent then Err(EventTooLarge)
    else Ok((WithField(f.(first := false, bytes := f.bytes + |raw| + 1), FieldOf(text.value)), None))
  }

  // ---------------------------------------------------------------- one byte at a time

  /** The parser between bytes: an open line and fields with the events so far, or a failure. */
  datatype Parse =
    | Reading(line: seq<Byte>, skip: bool, fields: Fields, events: seq<SseEvent>)
    | Broken(events: seq<SseEvent>, failure: Failure)

  const START := Reading([], false, NO_FIELDS, [])

  function Emit(event: Option<SseEvent>): seq<SseEvent> {
    if event.Some? then [event.value] else []
  }

  /** A line of admissible length ended by a line break. */
  function EndLine(cfg: Settings, p: Parse, skip: bool): Parse
    requires p.Reading?
  {
    match LineRead(cfg, p.fields, p.line)
    case Ok((fields, event)) => Reading([], skip, fields, p.events + Emit(event))
    case Err(failure) => Broken(p.events, failure)
  }

  function Feed(cfg: Settings, p: Parse, b: Byte): Parse {
    if p.Broken? then p
    else if p.skip && b == LF then p.(skip := false)
    else if b == LF || b == CR then EndLine(cfg, p.(skip := false), b == CR)
    else if |p.line| + 1 > cfg.maxLine then Broken(p.events, LineTooLarge)
    else p.(line := p.line + [b], skip := false)
  }

  /** One pass over a whole stretch of bytes. */
  function FeedAll(cfg: Settings, p: Parse, bytes: seq<Byte>): Parse
    decreases |bytes|
  {
    if bytes == [] then p else FeedAll(cfg, Feed(cfg, p, bytes[0]), bytes[1..])
  }

  datatype Ending = Complete(events: seq<SseEvent>) | Failed(events: seq<SseEvent>, failure: Failure)

  /** End of stream: an unterminated last line is still validated but can no longer dispatch. */
  function Finish(cfg: Settings, p: Parse): Ending {
    if p.Broken? then Failed(p.events, p.failure)
    else if p.line == [] then Complete(p.events)
    else if LineRead(cfg, p.fields, p.line).Err? then Failed(p.events, LineRead(cfg, p.fields, p.line).error)
    else Complete(p.events)
  }

  lemma {:induction false} FeedAllAppend(cfg: Settings, p: Parse, a: seq<Byte>, b: seq<Byte>)
    ensures FeedAll(cfg, p, a + b) == FeedAll(cfg, FeedAll(cfg, p, a), b)
    decreases |a|
  {
    if a == [] {
      assert a + b == b;
    } else {
      assert (a + b)[1..] == a[1..] + b;
      FeedAllAppend(cfg, Feed(cfg, p, a[0]), a[1..], b);
    }
  }

  lemma {:induction false} BrokenStays(cfg: Settings, p: Parse, bytes: seq<Byte>)
    requires p.Broken?
    ensures FeedAll(cfg, p, bytes) == p
    decreases |bytes|
  {
    if bytes != [] {
      BrokenStays(cfg, p, bytes[1..]);
    }
  }

  lemma FeedLast(cfg: Settings, p: Parse, bytes: seq<Byte>, n: nat)
    requires n < |bytes|
    ensures FeedAll(cfg, p, bytes[..n + 1]) == Feed(cfg, FeedAll(cfg, p, bytes[..n]), bytes[n])
  {
    assert bytes[..n + 1] == bytes[..n] + [bytes[n]];
    FeedAllAppend(cfg, p, bytes[..n], [bytes[n]]);
    assert [bytes[n]][1..] == [];
  }

  // ---------------------------------------------------------------- the parser over chunks

  class SseParser {
    const cfg: Settings
    var lineChunks: seq<seq<Byte>>
    var lineBytes: nat
    var skipLineFeed: bool
    var fields: Fields
    var yielded: seq<SseEvent>
    var failure: Option<Failure>

    ghost predicate Valid()
      reads this
    {
      lineBytes == |Flat(lineChunks)| <= cfg.maxLine || failure.Some?
    }

    ghost function State(): Parse
      reads this
    {
      if failure.Some? then Broken(yielded, failure.value) else Reading(Flat(lineChunks), skipLineFeed, fields, yielded)
    }

    constructor (cfg: Settings)
      ensures this.cfg == cfg && Valid() && State() == START
    {
      this.cfg := cfg;
      lineChunks, lineBytes, skipLineFeed, fields, yielded, failure := [], 0, false, NO_FIELDS, [], None;
    }

    method ConsumeLine(raw: seq<Byte>) returns (r: Result<Option<SseEvent>, Failure>)
      modifies this`fields
      ensures match LineRead(cfg, old(fields), raw)
              case Ok((after, event)) => r == Ok(event) && fields == after
              case Err(problem) => r == Err(problem)
    {
      hide WithField, FieldOf;
      var text := cfg.decode(raw);
      if text.None? {
        return Err(InvalidEncoding);
      }
      var decoded := text.value;
      if fields.first {
        fields := fields.(first := false);
        if decoded != "" && decoded[0] == BOM {
          decoded := decoded[1..];
        }
      }
      if decoded == "" {
        var event := Dispatched(fields);
        fields := fields.(data := [], name := None, retry := None, bytes := 0);
        return Ok(event);
      }
      fields := fields.(bytes := fields.bytes + |raw| + 1);
      if fields.bytes > cfg.maxEvent {
        return Err(EventTooLarge);
      }
      fields := WithField(fields, FieldOf(decoded));
      r := Ok(None);
    }

    method Append(segment: seq<Byte>) returns (fits: bool)
      requires failure.None? && Valid()
      modifies this`lineChunks, this`lineBytes, this`failure
      ensures fits <==> |old(Flat(lineChunks))| + |segment| <= cfg.maxLine
      ensures Valid()
      ensures fits ==> failure.None? && Flat(lineChunks) == old(Flat(lineChunks)) + segment
      ensures !fits ==> failure == Some(LineTooLarge)
    {
      lineBytes := lineBytes + |segment|;
      if lineBytes > cfg.maxLine {
        failure := Some(LineTooLarge);
        return false;
      }
      if segment != [] {
        ghost var before := lineChunks;
        lineChunks := lineChunks + [segment];
        assert lineChunks[..|before|] == before;
      }
      fits := true;
    }

    /** A line break: complete the open line with its last segment and read it. */
    method Break(segment: seq<Byte>, byte: Byte)
      requires Valid() && failure.None? && !skipLineFeed
      modifies this
      ensures Valid()
      ensures var line := old(Flat(lineChunks)) + segment;
              State() == if |line| > cfg.maxLine then Broken(old(yielded), LineTooLarge)
                         else EndLine(cfg, Reading(line, false, old(fields), old(yielded)), byte == CR)
    {
      hide LineRead;
      var fits := Append(segment);
      if !fits {
        return;
      }
      var line := Concatenate(lineChunks);
      var event := ConsumeLine(line);
      if event.Err? {
        failure := Some(event.error);
        return;
      }
      lineChunks, lineBytes := [], 0;
      skipLineFeed := byte == CR;
      if event.value.Some? {
        yielded := yielded + [event.value.value];
      }
    }

    /** One chunk from the network. Whatever segments it cuts lines into, the parser ends where a single
        pass over its bytes ends. */
    method ConsumeChunk(chunk: seq<Byte>)
      requires Valid() && failure.None?
      modifies this
      ensures Valid()
      ensures State() == if |chunk| > cfg.maxChunk then Broken(old(yielded), ChunkTooLarge)
                         else FeedAll(cfg, old(State()), chunk)
    {
      hide EndLine;
      if |chunk| > cfg.maxChunk {
        failure := Some(ChunkTooLarge);
        return;
      }
      ghost var start := State();
      var segmentStart, index := 0, 0;
      while index < |chunk|
        invariant 0 <= segmentStart <= index <= |chunk|
        invariant Valid() && failure.None?
        invariant InSegment(FeedAll(cfg, start, chunk[..index]), chunk[segmentStart..index])
      {
        FeedLast(cfg, start, chunk, index);
        var byte := chunk[index];
        assert chunk[segmentStart..index + 1] == chunk[segmentStart..index] + [byte];
        index := index + 1;
        if skipLineFeed {
          skipLineFeed := false;
          if byte == LF {
            segmentStart := index;
            continue;
          }
        }
        if byte != LF && byte != CR {
          continue;
        }
        Break(chunk[segmentStart..index - 1], byte);
        if failure.Some? {
          Stopped(start, chunk, index);
          return;
        }
        segmentStart := index;
      }
      assert chunk[..|chunk|] == chunk;
      if segmentStart < |chunk| {
        var fits := Append(chunk[segmentStart..]);
      }
    }

    /** The pass so far, given the part of the open line still sitting in the current chunk: a line that
        has outgrown the limit has already failed in the pass, and will fail here when it is appended. */
    ghost predicate InSegment(pass: Parse, segment: seq<Byte>)
      reads this
    {
      var line := Flat(lineChunks) + segment;
      && (skipLineFeed ==> segment == [])
      && pass == if |line| <= cfg.maxLine then Reading(line, skipLineFeed, fields, yielded)
                 else Broken(yielded, LineTooLarge)
    }

    lemma Stopped(start: Parse, chunk: seq<Byte>, n: nat)
      requires n <= |chunk| && FeedAll(cfg, start, chunk[..n]).Broken?
      ensures FeedAll(cfg, start, chunk) == FeedAll(cfg, start, chunk[..n])
    {
      assert chunk == chunk[..n] + chunk[n..];
      FeedAllAppend(cfg, start, chunk[..n], chunk[n..]);
      BrokenStays(cfg, FeedAll(cfg, start, chunk[..n]), chunk[n..]);
    }

    method End() returns (ending: Ending)
      requires Valid()
      modifies this`fields
      ensures ending == Finish(cfg, old(State()))
    {
      if failure.Some? {
        return Failed(yielded, failure.value);
      }
      if lineBytes > 0 {
        var line := Concatenate(lineChunks);
        var last := ConsumeLine(line);
        if last.Err? {
          return Failed(yielded, last.error);
        }
      }
      ending := Complete(yielded);
    }
  }
}
