/** Stock result types shared by every module. */
module Prelude {
  datatype Option<+T> = None | Some(value: T)

  datatype Result<+T, +E> = Ok(value: T) | Err(error: E)

  const MAX_SAFE_INTEGER := 9007199254740991

  method AnyOf<T(==)>(s: set<T>) returns (x: T)
    requires s != {}
    ensures x in s
  {
    x :| x in s;
  }
}

/** Decimal numerals, as template literals print non-negative safe integers. */
module Decimals {
  function Digit(d: nat): char
    requires d < 10
  {
    "0123456789"[d]
  }

  function Decimal(n: nat): (text: string)
    ensures |text| > 0
  {
    if n < 10 then [Digit(n)] else Decimal(n / 10) + [Digit(n % 10)]
  }

  lemma {:induction false} DecimalInjective(a: nat, b: nat)
    requires Decimal(a) == Decimal(b)
    ensures a == b
  {
    var x, y := Decimal(a), Decimal(b);
    assert x[|x| - 1] == Digit(a % 10) && y[|y| - 1] == Digit(b % 10);
    if a >= 10 && b >= 10 {
      assert Decimal(a / 10) == x[..|x| - 1] && Decimal(b / 10) == y[..|y| - 1];
      DecimalInjective(a / 10, b / 10);
    }
  }
}

/** Raw bytes and the two line-break bytes. */
module Bytes {
  newtype Byte = b: int | 0 <= b < 256

  const LF: Byte := 10
  const CR: Byte := 13

  /** Consecutive pieces joined. */
  function Flat(pieces: seq<seq<Byte>>): seq<Byte> {
    if pieces == [] then [] else Flat(pieces[..|pieces| - 1]) + pieces[|pieces| - 1]
  }

  /** The buffered pieces of an open line copied into one buffer. */
  method Concatenate(pieces: seq<seq<Byte>>) returns (line: seq<Byte>)
    ensures line == Flat(pieces)
  {
    line := [];
    for i := 0 to |pieces|
      invariant line == Flat(pieces[..i])
    {
      assert pieces[..i + 1][..i] == pieces[..i];
      line := line + pieces[i];
    }
    assert pieces[..|pieces|] == pieces;
  }
}

/** Decoded JavaScript values, as far as the adapters inspect them. */
module JsonValues {
  import opened Prelude

  /** `Undefined` is an absent property. Numbers are split by the questions the code asks of them;
      an object keeps its own keys in insertion order. */
  datatype Json =
    | Undefined
    | Null
    | Bool(b: bool)
    | Int(n: int)
    | Frac
    | Infinite
    | Str(s: string)
    | Arr(items: seq<Json>)
    | Obj(keys: seq<string>, fields: map<string, Json>)
  {
    /** Property access through the record guard: anything but a plain object has no property. */
    function Get(key: string): Json {
      if Obj? && key in fields then fields[key] else Undefined
    }
  }

  predicate IsInteger(v: Json, minimum: int) {
    v.Int? && -MAX_SAFE_INTEGER <= v.n <= MAX_SAFE_INTEGER && v.n >= minimum
  }

  predicate NonEmptyString(v: Json) {
    v.Str? && v.s != ""
  }
}

/** The portable contract: event vocabulary, terminal results and usage. */
module Contracts {
  import opened Prelude

  datatype Status = Completed | Cancelled | Failed | ConnectionAborted

  datatype EventType =
    | RunStarted
    | MessageDelta
    | MessageCompleted
    | ReasoningDelta
    | ReasoningCompleted
    | ToolStarted
    | ToolUpdated
    | ToolCompleted
    | InteractionRequested
    | InteractionResolved
    | ArtifactCreated
    | UsageUpdated
    | RunCompleted
    | RunCancelled
    | RunFailed
    | ConnectionAbortedEvent
    | Provider

  predicate IsTerminalType(t: EventType) {
    t.RunCompleted? || t.RunCancelled? || t.RunFailed? || t.ConnectionAbortedEvent?
  }

  /** The terminal event type that agrees with a settled status. */
  function TerminalType(status: Status): EventType {
    match status
    case Completed => RunCompleted
    case Cancelled => RunCancelled
    case Failed => RunFailed
    case ConnectionAborted => ConnectionAbortedEvent
  }

  /** Token counts; a key the provider never reported is absent. */
  datatype Usage = Usage(input: Option<nat>, output: Option<nat>, total: Option<nat>)

  datatype ProviderResult = ProviderResult(reason: string, detail: Option<string>)

  datatype RunResult = RunResult(
    status: Status,
    providerResult: Option<ProviderResult>,
    finalMessage: Option<string>,
    usage: Option<Usage>)
}
