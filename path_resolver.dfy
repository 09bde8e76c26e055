/** `getNestedValue`: resolves a dotted path in the xml2js tree to a string,
    with "" as the one signal for "not there". */
module PathResolver {
  import opened Tree

  /** Position of the first dot in s at or after `from`, or |s| when there is
      none. */
  function DotIndex(s: string, from: nat): (i: nat)
    requires from <= |s|
    ensures from <= i <= |s|
    decreases |s| - from
  {
    if from == |s| || s[from] == '.' then from else DotIndex(s, from + 1)
  }

  /** `s.split(".")`: the pieces between the dots, always at least one. */
  function Split(s: string): (parts: seq<string>)
    ensures |parts| >= 1
    decreases |s|
  {
    if '.' !in s then [s]
    else
      var i := DotIndex(s, 0);
      if i == |s| then [s] else [s[..i]] + Split(s[i + 1..])
  }

  /** `parts.join(".")`. */
  function Join(parts: seq<string>): string
    requires |parts| >= 1
  {
    if |parts| == 1 then parts[0] else parts[0] + "." + Join(parts[1..])
  }

  /** One turn of the loop: `value && value[key]` holds, and gives the next value. */
  function Step(v: Node, key: string): Option<Node> {
    if !Truthy(v) then None
    else
      match Get(v, key)
      case Some(c) => if Truthy(c) then Some(c) else None
      case None => None
  }

  /** The value the loop ends with, or None where it returns "" early. */
  function Walk(v: Node, keys: seq<string>): Option<Node> {
    if keys == [] then Some(v)
    else
      match Step(v, keys[0])
      case None => None
      case Some(c) => Walk(c, keys[1..])
  }

  /** A non-empty array is replaced by its first element, once. */
  function Unwrap(v: Node): Node {
    if v.Seq? && |v.items| > 0 then v.items[0] else v
  }

  /** `typeof value === "string" ? value : value?._ || ""`. */
  function Coerce(v: Node): string {
    match v
    case Str(s) => s
    case Seq(_) => ""
    case Map(fields) => if "_" in fields && fields["_"].Str? then fields["_"].text else ""
  }

  /** The string `getNestedValue(obj, path)` returns. */
  function NestedValue(obj: Node, path: string): string {
    match Walk(obj, Split(path))
    case None => ""
    case Some(v) => Coerce(Unwrap(v))
  }

  /** The loop of `getNestedValue`, step by step over the split path. */
  method GetNestedValue(obj: Node, path: string) returns (r: string)
    ensures r == NestedValue(obj, path)
  {
    var keys := Split(path);
    var value := obj;
    var i := 0;
    while i < |keys|
      invariant 0 <= i <= |keys|
      invariant Walk(obj, keys) == Walk(value, keys[i..])
    {
      var key := keys[i];
      var next := Get(value, key);
      if Truthy(value) && next.Some? && Truthy(next.value) {
        value := next.value;
      } else {
        return "";
      }
      i := i + 1;
    }
    if value.Seq? && |value.items| > 0 {
      value := value.items[0];
    }
    r := Coerce(value);
  }

  /** Walking a concatenation of paths is walking the first, then the second. */
  lemma {:induction false} WalkAppend(v: Node, a: seq<string>, b: seq<string>)
    ensures Walk(v, a + b) == (match Walk(v, a) case None => None case Some(w) => Walk(w, b))
  {
    if a == [] {
      assert a + b == b;
    } else {
      assert (a + b)[0] == a[0] && (a + b)[1..] == a[1..] + b;
      match Step(v, a[0])
      case None =>
      case Some(c) => WalkAppend(c, a[1..], b);
    }
  }

  /** DotIndex finds the first dot: none comes before it. */
  lemma {:induction false} DotIndexFirst(s: string, from: nat)
    requires from <= |s|
    ensures DotIndex(s, from) < |s| ==> s[DotIndex(s, from)] == '.'
    ensures forall j :: from <= j < DotIndex(s, from) ==> s[j] != '.'
    decreases |s| - from
  {
    if from < |s| && s[from] != '.' {
      DotIndexFirst(s, from + 1);
    }
  }

  /** In `k + "." + rest` with a dot-free k, the first dot follows k. */
  lemma {:induction false} DotIndexAfter(k: string, rest: string, from: nat)
    requires '.' !in k && from <= |k|
    ensures DotIndex(k + "." + rest, from) == |k|
    decreases |k| - from
  {
    var s := k + "." + rest;
    if from < |k| {
      assert s[from] == k[from];
      DotIndexAfter(k, rest, from + 1);
    } else {
      assert s[from] == '.';
    }
  }

  /** A segment without a dot is split off the front of a path intact. */
  lemma SplitPrefix(k: string, rest: string)
    requires '.' !in k
    ensures Split(k + "." + rest) == [k] + Split(rest)
  {
    var s := k + "." + rest;
    DotIndexAfter(k, rest, 0);
    assert s[..|k|] == k && s[|k| + 1..] == rest;
  }

  /** A string without a dot splits into itself alone. */
  lemma SplitNoDot(k: string)
    requires '.' !in k
    ensures Split(k) == [k]
  {
  }

  /** Splitting undoes joining dot-free segments. */
  lemma {:induction false} SplitJoin(parts: seq<string>)
    requires |parts| >= 1
    requires forall i :: 0 <= i < |parts| ==> '.' !in parts[i]
    ensures Split(Join(parts)) == parts
  {
    if |parts| == 1 {
      SplitNoDot(parts[0]);
    } else {
      SplitPrefix(parts[0], Join(parts[1..]));
      SplitJoin(parts[1..]);
    }
  }

  /** No piece of a split path contains a dot. */
  lemma {:induction false} SplitPartsHaveNoDot(s: string)
    ensures forall i :: 0 <= i < |Split(s)| ==> '.' !in Split(s)[i]
    decreases |s|
  {
    var i := DotIndex(s, 0);
    DotIndexFirst(s, 0);
    assert '.' !in s[..i] by {
      forall j | 0 <= j < i ensures s[..i][j] != '.' {
        assert s[..i][j] == s[j];
      }
    }
    if i < |s| {
      SplitPartsHaveNoDot(s[i + 1..]);
      var parts := Split(s);
      assert parts == [s[..i]] + Split(s[i + 1..]);
      forall p | 1 <= p < |parts| ensures '.' !in parts[p] {
        assert parts[p] == Split(s[i + 1..])[p - 1];
      }
    }
  }

  /** Joining undoes splitting: no character of the path is lost. */
  lemma {:induction false} JoinSplit(s: string)
    ensures Join(Split(s)) == s
    decreases |s|
  {
    var i := DotIndex(s, 0);
    if i < |s| {
      DotIndexFirst(s, 0);
      JoinSplit(s[i + 1..]);
      var parts := Split(s);
      assert parts[0] == s[..i] && parts[1..] == Split(s[i + 1..]);
      assert s == s[..i] + "." + s[i + 1..];
    }
  }

  /** Resolving a path given as its dot-free segments. */
  lemma ResolveSegments(obj: Node, keys: seq<string>)
    requires |keys| >= 1
    requires forall i :: 0 <= i < |keys| ==> '.' !in keys[i]
    ensures NestedValue(obj, Join(keys)) ==
              (match Walk(obj, keys) case None => "" case Some(v) => Coerce(Unwrap(v)))
  {
    SplitJoin(keys);
  }

  /** A one-segment path is one step of the loop, then the final coercion. */
  lemma ResolveKey(obj: Node, k: string)
    requires '.' !in k
    ensures NestedValue(obj, k) ==
              (match Step(obj, k) case None => "" case Some(c) => Coerce(Unwrap(c)))
  {
    SplitNoDot(k);
    match Step(obj, k)
    case None =>
    case Some(c) => assert Walk(obj, [k]) == Walk(c, []);
  }

  /** A missing or falsy segment at any depth gives "": once some prefix of the
      path leads to a value in which the next segment finds nothing (or finds a
      falsy value), the whole path resolves to "". */
  lemma MissingSegment(obj: Node, path: string, i: nat, v: Node)
    requires i < |Split(path)|
    requires Walk(obj, Split(path)[..i]) == Some(v)
    requires Step(v, Split(path)[i]) == None
    ensures NestedValue(obj, path) == ""
  {
    var keys := Split(path);
    assert keys == keys[..i] + keys[i..];
    WalkAppend(obj, keys[..i], keys[i..]);
  }

  /** Path decomposition: `getNestedValue(obj, k + "." + rest)` is
      `getNestedValue(obj[k], rest)` when `obj[k]` is there and truthy, and ""
      when it is not. */
  lemma Decompose(obj: Node, k: string, rest: string)
    requires '.' !in k
    ensures NestedValue(obj, k + "." + rest) ==
              (match Step(obj, k) case None => "" case Some(child) => NestedValue(child, rest))
  {
    SplitPrefix(k, rest);
    assert ([k] + Split(rest))[1..] == Split(rest);
  }

  /** The empty object `{}` and the empty string resolve every path to "". */
  lemma EmptyResolvesEmpty(path: string)
    ensures NestedValue(EmptyMap, path) == ""
    ensures NestedValue(Str(""), path) == ""
  {
  }

  /** A value `[ "X" ]` resolves to "X", and so does `[ { _: "X", $: ... } ]`. */
  lemma ResolvesSingleton(obj: Node, keys: seq<string>, x: string, attrs: map<string, Node>)
    requires |keys| >= 1
    requires forall i :: 0 <= i < |keys| ==> '.' !in keys[i]
    ensures Walk(obj, keys) == Some(Seq([Str(x)])) ==> NestedValue(obj, Join(keys)) == x
    ensures Walk(obj, keys) == Some(Seq([Map(attrs["_" := Str(x)])])) ==>
              NestedValue(obj, Join(keys)) == x
  {
    ResolveSegments(obj, keys);
  }

  /** A text wrapper `{ _: "X", $: attrs }` resolves to "X": its attributes and
      any other field are ignored. */
  lemma ResolvesWrapper(obj: Node, keys: seq<string>, fields: map<string, Node>, x: string)
    requires |keys| >= 1
    requires forall i :: 0 <= i < |keys| ==> '.' !in keys[i]
    requires Walk(obj, keys) == Some(Map(fields))
    requires "_" in fields && fields["_"] == Str(x)
    ensures NestedValue(obj, Join(keys)) == x
  {
    ResolveSegments(obj, keys);
  }

  /** Only one level of array is unwrapped: an empty array, an array whose first
      element is again an array, and an object without a text field `_` all
      resolve to "". */
  lemma OneLevelOnly(obj: Node, keys: seq<string>)
    requires |keys| >= 1
    requires forall i :: 0 <= i < |keys| ==> '.' !in keys[i]
    ensures Walk(obj, keys) == Some(Seq([])) ==> NestedValue(obj, Join(keys)) == ""
    ensures (Walk(obj, keys).Some? && Walk(obj, keys).value.Seq? &&
             |Walk(obj, keys).value.items| > 0 && Walk(obj, keys).value.items[0].Seq?) ==>
              NestedValue(obj, Join(keys)) == ""
    ensures (Walk(obj, keys).Some? && Walk(obj, keys).value.Map? &&
             "_" !in Walk(obj, keys).value.fields) ==>
              NestedValue(obj, Join(keys)) == ""
  {
    ResolveSegments(obj, keys);
  }
}
