/** The bounded structural view of unknown ACP traffic. */
module Redaction {
  import opened Prelude
  import opened Decimals
  import opened JsonValues

  const MAX_DEPTH: nat := 4
  const MAX_NODES: nat := 64
  const MAX_ITEMS: nat := 16

  const STRUCTURAL_KEYS: set<string> := {"kind", "outcome", "sessionUpdate", "status", "type"}

  const STRUCTURAL_VALUES: set<string> := {
    "agent_message_chunk", "agent_thought_chunk", "available_commands_update", "cancelled", "completed",
    "config_option_update", "content", "diff", "failed", "in_progress", "pending", "plan", "session_info_update",
    "terminal", "text", "tool_call", "tool_call_update", "usage_update", "user_message_chunk"}

  const REDACTED := Str("[redacted]")
  const TRUNCATED := Str("[truncated]")
  const TRUNCATED_KEY := "__truncated__"

  function Shown(n: nat): (shown: nat)
    ensures shown <= MAX_ITEMS && shown <= n
  {
    if n < MAX_ITEMS then n else MAX_ITEMS
  }

  function Renamed(index: nat): string {
    "[redacted-key-" + Decimal(index) + "]"
  }

  function SafeKey(key: string, index: nat): string {
    if key in STRUCTURAL_KEYS then key else Renamed(index)
  }

  /** `digest` abbreviates a text that is not itself published. */
  function StructuralValue(s: string, digest: string -> string): Json {
    if s in STRUCTURAL_VALUES then Str(s) else Str("value-" + digest(s))
  }

  /** Property assignment: a key already there keeps its place and gets the new value. */
  function Put(output: Json, key: string, v: Json): Json
    requires output.Obj?
  {
    Obj(if key in output.fields then output.keys else output.keys + [key], output.fields[key := v])
  }

  function WithMarker(output: Json, truncated: bool): Json
    requires output.Obj?
  {
    if truncated then Put(output, TRUNCATED_KEY, TRUNCATED) else output
  }

  /** The view of a value and the node count after it; `nodes` is the count so far, over the whole tree. */
  function Redacted(v: Json, depth: nat, nodes: nat, key: Option<string>, digest: string -> string): (Json, nat)
    requires depth <= MAX_DEPTH
    decreases MAX_DEPTH - depth, MAX_ITEMS + 1
  {
    if nodes + 1 > MAX_NODES || depth >= MAX_DEPTH then (TRUNCATED, nodes + 1)
    else
      match v
      case Null => (Null, nodes + 1)
      case Str(s) =>
        (if key.Some? && key.value in STRUCTURAL_KEYS then StructuralValue(s, digest) else REDACTED, nodes + 1)
      case Arr(items) =>
        var (output, after) := Elements(items, Shown(|items|), depth, nodes + 1, digest);
        (Arr(if |items| > MAX_ITEMS then output + [TRUNCATED] else output), after)
      case Obj(keys, _) =>
        var (output, after) := Entries(v, Shown(|keys|), depth, nodes + 1, digest);
        (WithMarker(output, |keys| > MAX_ITEMS || after > MAX_NODES), after)
      case _ => (REDACTED, nodes + 1)
  }

  /** The first `count` items, in order. */
  function Elements(items: seq<Json>, count: nat, depth: nat, nodes: nat,
        digest: string -> string)
    : (r: (seq<Json>, nat))
    requires depth < MAX_DEPTH && count <= |items| && count <= MAX_ITEMS
    ensures |r.0| == count
    decreases MAX_DEPTH - depth, count
  {
    if count == 0 then ([], nodes)
    else
      var (output, between) := Elements(items, count - 1, depth, nodes, digest);
      var (item, after) := Redacted(items[count - 1], depth + 1, between, None, digest);
      (output + [item], after)
  }

  /** The first `count` entries, in order. */
  function Entries(v: Json, count: nat, depth: nat, nodes: nat, digest: string -> string): (r: (Json, nat))
    requires v.Obj? && depth < MAX_DEPTH && count <= |v.keys| && count <= MAX_ITEMS
    ensures r.0.Obj?
    decreases MAX_DEPTH - depth, count
  {
    if count == 0 then (Obj([], map[]), nodes)
    else
      var (output, between) := Entries(v, count - 1, depth, nodes, digest);
      var key := v.keys[count - 1];
      var (item, after) := Redacted(v.Get(key), depth + 1, between, Some(key), digest);
      (Put(output, SafeKey(key, count - 1), item), after)
  }

  /** The mutable counter one call of the recursion shares with all others. */
  class Counter {
    var nodes: nat
    constructor ()
      ensures nodes == 0
    {
      nodes := 0;
    }
  }

  method Redact(v: Json, depth: nat, state: Counter, key: Option<string>,
        digest: string -> string)
    returns (output: Json)
    requires depth <= MAX_DEPTH
    modifies state
    ensures (output, state.nodes) == Redacted(v, depth, old(state.nodes), key, digest)
    decreases MAX_DEPTH - depth
  {
    state.nodes := state.nodes + 1;
    if state.nodes > MAX_NODES || depth >= MAX_DEPTH {
      return TRUNCATED;
    }
    match v
    case Null => return Null;
    case Str(s) => return if key.Some? && key.value in STRUCTURAL_KEYS then StructuralValue(s, digest) else REDACTED;
    case Arr(items) => output := RedactItems(items, depth, state, digest);
    case Obj(_, _) => output := RedactRecord(v, depth, state, digest);
    case _ => return REDACTED;
  }

  method RedactItems(items: seq<Json>, depth: nat, state: Counter, digest: string -> string) returns (output: Json)
    requires depth < MAX_DEPTH
    modifies state
    ensures var (shown, after) := Elements(items, Shown(|items|), depth, old(state.nodes), digest);
      output == Arr(if |items| > MAX_ITEMS then shown + [TRUNCATED] else shown) && state.nodes == after
    decreases MAX_DEPTH - depth, 0
  {
    hide Redacted;
    var shown: seq<Json> := [];
    for i := 0 to Shown(|items|)
      invariant (shown, state.nodes) == Elements(items, i, depth, old(state.nodes), digest)
    {
      var item := Redact(items[i], depth + 1, state, None, digest);
      shown := shown + [item];
    }
    if |items| > MAX_ITEMS {
      shown := shown + [TRUNCATED];
    }
    return Arr(shown);
  }

  method RedactRecord(v: Json, depth: nat, state: Counter, digest: string -> string) returns (output: Json)
    requires v.Obj? && depth < MAX_DEPTH
    modifies state
    ensures var (shown, after) := Entries(v, Shown(|v.keys|), depth, old(state.nodes), digest);
      output == WithMarker(shown, |v.keys| > MAX_ITEMS || after > MAX_NODES) && state.nodes == after
    decreases MAX_DEPTH - depth, 0
  {
    hide Redacted, Put, SafeKey;
    output := Obj([], map[]);
    for i := 0 to Shown(|v.keys|)
      invariant (output, state.nodes) == Entries(v, i, depth, old(state.nodes), digest)
    {
      var item := Redact(v.Get(v.keys[i]), depth + 1, state, Some(v.keys[i]), digest);
      output := Put(output, SafeKey(v.keys[i], i), item);
    }
    if |v.keys| > MAX_ITEMS || state.nodes > MAX_NODES {
      output := Put(output, TRUNCATED_KEY, TRUNCATED);
    }
  }

  /** One observation: the whole tree shares one counter, starting from nothing. */
  method RedactObservation(params: Json, digest: string -> string) returns (output: Json, visited: nat)
    ensures (output, visited) == Redacted(params, 0, 0, None, digest)
  {
    var state := new Counter();
    output := Redact(params, 0, state, None, digest);
    visited := state.nodes;
  }

  // ---------------------------------------------------------------- the node bound

  function Max(a: nat, b: nat): nat {
    if a < b then b else a
  }

  /** The count a visit at this depth can leave behind when it began below the limit. */
  function Ceiling(depth: nat): nat
    requires depth <= MAX_DEPTH
  {
    MAX_NODES + 1 + (MAX_ITEMS - 1) * (MAX_DEPTH - depth)
  }

  lemma {:induction false} VisitBound(v: Json, depth: nat, nodes: nat, key: Option<string>, digest: string -> string)
    requires depth <= MAX_DEPTH
    ensures nodes + 1 <= Redacted(v, depth, nodes, key, digest).1 <= Max(nodes + 1, Ceiling(depth))
    decreases MAX_DEPTH - depth, MAX_ITEMS + 1
  {
    hide Elements, Entries, WithMarker, StructuralValue, Shown;
    if nodes + 1 <= MAX_NODES && depth < MAX_DEPTH {
      match v
      case Arr(items) => ElementsBound(items, Shown(|items|), depth, nodes + 1, digest);
      case Obj(keys, _) => EntriesBound(v, Shown(|keys|), depth, nodes + 1, digest);
      case _ =>
    }
  }

  lemma {:induction false} ElementsBound(items: seq<Json>, count: nat, depth: nat, nodes: nat, digest: string -> string)
    requires depth < MAX_DEPTH && count <= |items| && count <= MAX_ITEMS && nodes <= MAX_NODES
    ensures nodes <= Elements(items, count, depth, nodes, digest).1 <= Max(nodes, Ceiling(depth + 1) - 1) + count
    decreases MAX_DEPTH - depth, count
  {
    hide Redacted;
    if count > 0 {
      ElementsBound(items, count - 1, depth, nodes, digest);
      VisitBound(items[count - 1], depth + 1, Elements(items, count - 1, depth, nodes, digest).1, None, digest);
    }
  }

  lemma {:induction false} EntriesBound(v: Json, count: nat, depth: nat, nodes: nat, digest: string -> string)
    requires v.Obj? && depth < MAX_DEPTH && count <= |v.keys| && count <= MAX_ITEMS && nodes <= MAX_NODES
    ensures nodes <= Entries(v, count, depth, nodes, digest).1 <= Max(nodes, Ceiling(depth + 1) - 1) + count
    decreases MAX_DEPTH - depth, count
  {
    hide Redacted;
    if count > 0 {
      EntriesBound(v, count - 1, depth, nodes, digest);
      VisitBound(v.Get(v.keys[count - 1]), depth + 1, Entries(v, count - 1, depth, nodes, digest).1,
          Some(v.keys[count - 1]), digest);
    }
  }

  /** Every visit adds one to the counter, so this bounds the visits: 125, within 64 + 4 * 16. */
  lemma VisitsBounded(params: Json, digest: string -> string)
    ensures 1 <= Redacted(params, 0, 0, None, digest).1 <= 125 < MAX_NODES + MAX_DEPTH * MAX_ITEMS
  {
    VisitBound(params, 0, 0, None, digest);
  }

  // ---------------------------------------------------------------- no two entries collide

  lemma NoStructuralKeyLooksRenamed(key: string)
    requires key in STRUCTURAL_KEYS
    ensures |key| > 0 && key[0] != '[' && key[0] != '_'
  {
  }

  lemma RenamedApart(i: nat, j: nat)
    requires Renamed(i) == Renamed(j)
    ensures i == j
  {
    var head := |"[redacted-key-"|;
    assert Renamed(i)[head..|Renamed(i)| - 1] == Decimal(i);
    assert Renamed(j)[head..|Renamed(j)| - 1] == Decimal(j);
    DecimalInjective(i, j);
  }

  /** Different entries of one object are published under different keys, and never under the marker's. */
  lemma SafeKeysApart(a: string, i: nat, b: string, j: nat)
    requires a != b && i != j
    ensures SafeKey(a, i) != SafeKey(b, j)
    ensures SafeKey(a, i) != TRUNCATED_KEY
  {
    assert Renamed(i)[0] == '[' && Renamed(j)[0] == '[';
    if a in STRUCTURAL_KEYS {
      NoStructuralKeyLooksRenamed(a);
    } else if b in STRUCTURAL_KEYS {
      NoStructuralKeyLooksRenamed(b);
    } else if Renamed(i) == Renamed(j) {
      RenamedApart(i, j);
    }
  }

  ghost predicate Distinct(keys: seq<string>) {
    forall i, j :: 0 <= i < j < |keys| ==> keys[i] != keys[j]
  }

  /** An object with exactly these keys, in this order, and these values under them. */
  ghost predicate Holds(output: Json, names: seq<string>, views: seq<Json>) {
    && output.Obj? && output.keys == names && |names| == |views|
    && (forall k :: k in output.fields ==> exists i :: 0 <= i < |names| && k == names[i])
    && forall i :: 0 <= i < |names| ==> names[i] in output.fields && output.fields[names[i]] == views[i]
  }

  lemma PutHolds(output: Json, names: seq<string>, views: seq<Json>, name: string, view: Json)
    requires Holds(output, names, views) && forall i :: 0 <= i < |names| ==> names[i] != name
    ensures Holds(Put(output, name, view), names + [name], views + [view])
  {
    var both := names + [name];
    assert name !in output.fields;
    forall k | k in Put(output, name, view).fields ensures exists i :: 0 <= i < |both| && k == both[i] {
      if k == name {
        assert both[|names|] == k;
      } else {
        var i :| 0 <= i < |names| && k == names[i];
        assert both[i] == k;
      }
    }
  }

  function Names(keys: seq<string>, count: nat): (names: seq<string>)
    requires count <= |keys|
    ensures |names| == count && forall i :: 0 <= i < count ==> names[i] == SafeKey(keys[i], i)
  {
    if count == 0 then [] else Names(keys, count - 1) + [SafeKey(keys[count - 1], count - 1)]
  }

  /** The views of the first `count` entries, each redacted with the counter where the previous left it. */
  function Views(v: Json, count: nat, depth: nat, nodes: nat, digest: string -> string): (views: seq<Json>)
    requires v.Obj? && depth < MAX_DEPTH && count <= |v.keys| && count <= MAX_ITEMS
    ensures |views| == count
  {
    if count == 0 then []
    else
      Views(v, count - 1, depth, nodes, digest)
      + [Redacted(v.Get(v.keys[count - 1]), depth + 1, Entries(v, count - 1, depth, nodes, digest).1,
          Some(v.keys[count - 1]), digest).0]
  }

  lemma NamesDistinct(keys: seq<string>, count: nat)
    requires Distinct(keys) && count <= |keys|
    ensures Distinct(Names(keys, count)) && forall i :: 0 <= i < count ==> Names(keys, count)[i] != TRUNCATED_KEY
  {
    hide SafeKey, Names;
    var names := Names(keys, count);
    forall i, j | 0 <= i < j < count ensures names[i] != names[j] {
      SafeKeysApart(keys[i], i, keys[j], j);
    }
    forall i | 0 <= i < count ensures names[i] != TRUNCATED_KEY {
      SafeKeysApart(keys[i], i, keys[i] + "x", i + 1);
    }
  }

  /** The i-th entry of the view is the i-th entry of the input, renamed and redacted: none is lost or overwritten. */
  lemma {:induction false} EntriesKeepApart(v: Json, count: nat, depth: nat, nodes: nat, digest: string -> string)
    requires v.Obj? && depth < MAX_DEPTH && count <= |v.keys| && count <= MAX_ITEMS && Distinct(v.keys)
    ensures Holds(Entries(v, count, depth, nodes, digest).0, Names(v.keys, count),
        Views(v, count, depth, nodes, digest))
  {
    hide Redacted, SafeKey, Put, Distinct;
    if count > 0 {
      EntriesKeepApart(v, count - 1, depth, nodes, digest);
      var i := count - 1;
      var between := Entries(v, i, depth, nodes, digest);
      var view := Redacted(v.Get(v.keys[i]), depth + 1, between.1, Some(v.keys[i]), digest).0;
      NamesDistinct(v.keys, count);
      NewName(Names(v.keys, i), SafeKey(v.keys[i], i));
      hide Holds;
      PutHolds(between.0, Names(v.keys, i), Views(v, i, depth, nodes, digest), SafeKey(v.keys[i], i), view);
    }
  }

  lemma NewName(names: seq<string>, name: string)
    requires Distinct(names + [name])
    ensures forall i :: 0 <= i < |names| ==> names[i] != name
  {
    var both := names + [name];
    forall i | 0 <= i < |names| ensures names[i] != name {
      assert both[i] == names[i] && both[|names|] == name;
    }
  }

  /** The whole view of an object: its first sixteen entries one for one, and the marker as one more when
      something was cut off. */
  lemma ObjectView(v: Json, depth: nat, nodes: nat, key: Option<string>, digest: string -> string)
    requires v.Obj? && Distinct(v.keys) && depth < MAX_DEPTH && nodes + 1 <= MAX_NODES
    ensures var shown := Shown(|v.keys|);
      var (output, after) := Redacted(v, depth, nodes, key, digest);
      var names, views := Names(v.keys, shown), Views(v, shown, depth, nodes + 1, digest);
      && Distinct(names)
      && if |v.keys| > MAX_ITEMS || after > MAX_NODES then Holds(output, names + [TRUNCATED_KEY], views + [TRUNCATED])
         else Holds(output, names, views)
  {
    hide Holds, Put, Distinct, Entries, Names, Views;
    var shown := Shown(|v.keys|);
    EntriesKeepApart(v, shown, depth, nodes + 1, digest);
    NamesDistinct(v.keys, shown);
    PutHolds(Entries(v, shown, depth, nodes + 1, digest).0, Names(v.keys, shown),
        Views(v, shown, depth, nodes + 1, digest),
             TRUNCATED_KEY, TRUNCATED);
  }

  // ---------------------------------------------------------------- what the view can say

  ghost predicate PublicText(s: string, digest: string -> string) {
    s == "[redacted]" || s == "[truncated]" || s in STRUCTURAL_VALUES || exists t :: s == "value-" + digest(t)
  }

  ghost predicate PublicKey(k: string) {
    k in STRUCTURAL_KEYS || k == TRUNCATED_KEY || exists i :: 0 <= i < MAX_ITEMS && k == Renamed(i)
  }

  /** Nothing but fixed vocabulary, digests and null, nested at most `levels` deep and seventeen wide. */
  ghost predicate Public(v: Json, levels: nat, digest: string -> string) {
    match v
    case Null => true
    case Str(s) => PublicText(s, digest)
    case Arr(items) => levels > 0 && |items| <= MAX_ITEMS + 1 && forall i :: 0 <= i < |items| ==>
        Public(items[i], levels - 1, digest)
    case Obj(keys, fields) =>
      && levels > 0 && |keys| <= MAX_ITEMS + 1
      && (forall i :: 0 <= i < |keys| ==> PublicKey(keys[i]))
      && forall k :: k in fields ==> PublicKey(k) && Public(fields[k], levels - 1, digest)
    case _ => false
  }

  /** The view never repeats a text, number or flag of the traffic outside the published vocabulary. */
  lemma {:induction false} ViewIsPublic(v: Json, depth: nat, nodes: nat, key: Option<string>, digest: string -> string)
    requires depth <= MAX_DEPTH
    ensures Public(Redacted(v, depth, nodes, key, digest).0, MAX_DEPTH - depth, digest)
    decreases MAX_DEPTH - depth, MAX_ITEMS + 1
  {
    hide Elements, Entries, WithMarker, StructuralValue, PublicText, Public, Shown;
    assert PublicLeaf(REDACTED, digest) && PublicLeaf(TRUNCATED, digest) by { FixedIsPublic(digest); }
    assert Public(Null, MAX_DEPTH - depth, digest) by { NullIsPublic(MAX_DEPTH - depth, digest); }
    LeafIsPublic(MAX_DEPTH - depth, digest);
    if nodes + 1 <= MAX_NODES && depth < MAX_DEPTH {
      match v
      case Str(s) => TextIsPublic(s, digest);
      case Arr(items) => ItemsArePublic(items, depth, nodes, key, digest);
      case Obj(_, _) => RecordIsPublic(v, depth, nodes, key, digest);
      case _ =>
    }
  }

  ghost predicate PublicLeaf(v: Json, digest: string -> string) {
    v.Str? && PublicText(v.s, digest)
  }

  lemma FixedIsPublic(digest: string -> string)
    ensures PublicLeaf(REDACTED, digest) && PublicLeaf(TRUNCATED, digest)
  {
  }

  lemma NullIsPublic(levels: nat, digest: string -> string)
    ensures Public(Null, levels, digest)
  {
  }

  lemma LeafIsPublic(levels: nat, digest: string -> string)
    ensures forall v :: PublicLeaf(v, digest) ==> Public(v, levels, digest)
  {
  }

  lemma ItemsArePublic(items: seq<Json>, depth: nat, nodes: nat, key: Option<string>, digest: string -> string)
    requires depth < MAX_DEPTH && nodes + 1 <= MAX_NODES
    ensures Public(Redacted(Arr(items), depth, nodes, key, digest).0, MAX_DEPTH - depth, digest)
    decreases MAX_DEPTH - depth, MAX_ITEMS, 1
  {
    hide PublicText;
    var shown := Elements(items, Shown(|items|), depth, nodes + 1, digest).0;
    ElementsArePublic(items, Shown(|items|), depth, nodes + 1, digest);
    hide Elements;
    FixedIsPublic(digest);
    LeafIsPublic(MAX_DEPTH - depth - 1, digest);
    assert Redacted(Arr(items), depth, nodes, key, digest).0
        == Arr(if |items| > MAX_ITEMS then shown + [TRUNCATED] else shown);
  }

  lemma RecordIsPublic(v: Json, depth: nat, nodes: nat, key: Option<string>, digest: string -> string)
    requires v.Obj? && depth < MAX_DEPTH && nodes + 1 <= MAX_NODES
    ensures Public(Redacted(v, depth, nodes, key, digest).0, MAX_DEPTH - depth, digest)
    decreases MAX_DEPTH - depth, MAX_ITEMS, 1
  {
    hide Entries, PublicText, Public;
    EntriesArePublic(v, Shown(|v.keys|), depth, nodes + 1, digest);
    FixedIsPublic(digest);
    LeafIsPublic(MAX_DEPTH - depth - 1, digest);
    PutIsPublic(Entries(v, Shown(|v.keys|), depth, nodes + 1, digest).0, TRUNCATED_KEY, TRUNCATED, MAX_DEPTH - depth,
        digest);
  }

  lemma PutIsPublic(output: Json, name: string, view: Json, levels: nat, digest: string -> string)
    requires output.Obj? && |output.keys| <= MAX_ITEMS && Public(output, levels, digest)
    requires PublicKey(name) && levels > 0 && Public(view, levels - 1, digest)
    ensures Put(output, name, view).Obj? && |Put(output, name, view).keys| <= |output.keys| + 1
    ensures Public(Put(output, name, view), levels, digest)
  {
    hide PublicKey, PublicText;
  }

  lemma TextIsPublic(s: string, digest: string -> string)
    ensures StructuralValue(s, digest).Str? && PublicText(StructuralValue(s, digest).s, digest)
  {
  }

  lemma {:induction false} ElementsArePublic(items: seq<Json>, count: nat, depth: nat, nodes: nat,
      digest: string -> string)
    requires depth < MAX_DEPTH && count <= |items| && count <= MAX_ITEMS
    ensures forall i :: 0 <= i < count ==> Public(Elements(items, count, depth, nodes, digest).0[i],
        MAX_DEPTH - depth - 1, digest)
    decreases MAX_DEPTH - depth, count, 0
  {
    hide Redacted, Public;
    if count > 0 {
      ElementsArePublic(items, count - 1, depth, nodes, digest);
      ViewIsPublic(items[count - 1], depth + 1, Elements(items, count - 1, depth, nodes, digest).1, None, digest);
    }
  }

  lemma {:induction false} EntriesArePublic(v: Json, count: nat, depth: nat, nodes: nat, digest: string -> string)
    requires v.Obj? && depth < MAX_DEPTH && count <= |v.keys| && count <= MAX_ITEMS
    ensures var output := Entries(v, count, depth, nodes, digest).0;
      |output.keys| <= count && Public(output, MAX_DEPTH - depth, digest)
    decreases MAX_DEPTH - depth, count, 0
  {
    hide Redacted, SafeKey, PublicKey, Public, Put;
    if count == 0 {
      EmptyIsPublic(MAX_DEPTH - depth, digest);
    } else {
      EntriesArePublic(v, count - 1, depth, nodes, digest);
      var i := count - 1;
      var between := Entries(v, i, depth, nodes, digest);
      var view := Redacted(v.Get(v.keys[i]), depth + 1, between.1, Some(v.keys[i]), digest).0;
      ViewIsPublic(v.Get(v.keys[i]), depth + 1, between.1, Some(v.keys[i]), digest);
      SafeKeyIsPublic(v.keys[i], i);
      PutIsPublic(between.0, SafeKey(v.keys[i], i), view, MAX_DEPTH - depth, digest);
    }
  }

  lemma EmptyIsPublic(levels: nat, digest: string -> string)
    requires levels > 0
    ensures Public(Obj([], map[]), levels, digest)
  {
  }

  lemma SafeKeyIsPublic(key: string, index: nat)
    requires index < MAX_ITEMS
    ensures PublicKey(SafeKey(key, index))
  {
  }
}
