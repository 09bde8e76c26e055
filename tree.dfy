/** The tree shape that xml2js builds from an XML document, and JavaScript's
    property access `v[key]` on it.

    xml2js turns every element into an array (even an element that occurs once),
    an element with attributes into an object holding its text under `_` and its
    attributes under `$`, and plain text into a string. */
module Tree {

  datatype Option<T> = None | Some(value: T)

  /** A value of the parsed document: a string, an array or an object. */
  datatype Node =
    | Str(text: string)
    | Seq(items: seq<Node>)
    | Map(fields: map<string, Node>)

  /** The object literal `{}` the extraction falls back to. */
  const EmptyMap: Node := Map(map[])

  /** JavaScript truthiness: among these shapes only the empty string is falsy;
      arrays and objects are truthy even when empty. */
  predicate Truthy(v: Node) {
    !(v.Str? && v.text == "")
  }

  predicate IsDigit(c: char) {
    '0' <= c <= '9'
  }

  predicate AllDigits(s: string) {
    forall i :: 0 <= i < |s| ==> IsDigit(s[i])
  }

  function DigitChar(d: nat): (c: char)
    requires d < 10
    ensures IsDigit(c) && (c as int) - ('0' as int) == d
  {
    (('0' as int) + d) as char
  }

  /** The number a string of decimal digits denotes. */
  function DigitsValue(s: string): nat
    requires AllDigits(s)
  {
    if s == [] then 0
    else DigitsValue(s[..|s| - 1]) * 10 + ((s[|s| - 1] as int) - ('0' as int))
  }

  /** A key that names an array element: decimal digits with no leading zero
      ("0", "7", "12" — but not "", "07" or "-1"). */
  predicate IsCanonicalIndex(key: string) {
    |key| > 0 && IsDigit(key[0]) && AllDigits(key) && (key[0] == '0' ==> |key| == 1)
  }

  /** The array index a property key names, if any. */
  function ParseIndex(key: string): Option<nat> {
    if IsCanonicalIndex(key) then Some(DigitsValue(key)) else None
  }

  /** `String(n)` for a natural number: the key under which an array holds
      its element n. */
  function IndexString(n: nat): string {
    if n < 10 then [DigitChar(n)] else IndexString(n / 10) + [DigitChar(n % 10)]
  }

  /** `v[key]` in JavaScript, for the shapes above: an own field of an object,
      or the element of an array that the key names by its decimal index.
      Nothing is found in a string, and inherited properties (`length`,
      `toString`, ...) are not modelled. */
  function Get(v: Node, key: string): Option<Node> {
    match v
    case Str(_) => None
    case Seq(items) =>
      (match ParseIndex(key)
       case Some(i) => if i < |items| then Some(items[i]) else None
       case None => None)
    case Map(fields) => if key in fields then Some(fields[key]) else None
  }

  lemma {:induction false} IndexStringFacts(n: nat)
    ensures |IndexString(n)| > 0 && AllDigits(IndexString(n))
    ensures n > 0 ==> IndexString(n)[0] != '0'
    ensures DigitsValue(IndexString(n)) == n
  {
    if n >= 10 {
      IndexStringFacts(n / 10);
      var s := IndexString(n);
      assert s[..|s| - 1] == IndexString(n / 10);
    }
  }

  /** Printing an index and parsing it back gives the index. */
  lemma ParseIndexString(n: nat)
    ensures ParseIndex(IndexString(n)) == Some(n)
  {
    IndexStringFacts(n);
  }

  lemma {:induction false} LeadingNonZeroPositive(s: string)
    requires |s| > 0 && AllDigits(s) && s[0] != '0'
    ensures DigitsValue(s) >= 1
  {
    if |s| > 1 {
      LeadingNonZeroPositive(s[..|s| - 1]);
    }
  }

  /** Every key that names an index is the printed form of that index, so an
      element is reachable under exactly one key. */
  lemma {:induction false} ParseIndexCanonical(key: string, n: nat)
    requires ParseIndex(key) == Some(n)
    ensures key == IndexString(n)
  {
    if |key| > 1 {
      var p := key[..|key| - 1];
      var d := (key[|key| - 1] as int) - ('0' as int);
      assert IsCanonicalIndex(p);
      LeadingNonZeroPositive(p);
      assert n == DigitsValue(p) * 10 + d;
      assert n / 10 == DigitsValue(p) && n % 10 == d;
      ParseIndexCanonical(p, DigitsValue(p));
      assert key == p + [key[|key| - 1]];
    }
  }

  /** The key "0" names the first element. */
  lemma ParseIndexZero()
    ensures ParseIndex("0") == Some(0)
  {
  }

  /** Array element i is found under the key `String(i)` and under no other. */
  lemma GetElement(items: seq<Node>, i: nat, key: string)
    ensures key == IndexString(i) ==>
              Get(Seq(items), key) == (if i < |items| then Some(items[i]) else None)
    ensures ParseIndex(key) == Some(i) <==> key == IndexString(i)
  {
    ParseIndexString(i);
    if ParseIndex(key) == Some(i) {
      ParseIndexCanonical(key, i);
    }
  }
}
