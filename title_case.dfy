/** `camelCaseToTitleCase` of the upload page: turns a field name such as
    `mobileNumber` into the label "Mobile Number" by putting a space before
    every capital and upper-casing the first character. */
module TitleCase {

  predicate IsUpper(c: char) {
    'A' <= c <= 'Z'
  }

  predicate IsLower(c: char) {
    'a' <= c <= 'z'
  }

  /** `toUpperCase` on one character, for the ASCII letters. */
  function ToUpper(c: char): char {
    if IsLower(c) then (c as int - 32) as char else c
  }

  /** The number of capitals in s. */
  function CountUpper(s: string): nat {
    if s == [] then 0 else (if IsUpper(s[0]) then 1 else 0) + CountUpper(s[1..])
  }

  /** `s.replace(/([A-Z])/g, " $1")`: a space inserted before every capital. */
  function Spaced(s: string): string {
    if s == [] then []
    else (if IsUpper(s[0]) then [' ', s[0]] else [s[0]]) + Spaced(s[1..])
  }

  /** Removes each space that stands right before a capital: the inverse of
      Spaced. */
  function Unspaced(r: string): string {
    if r == [] then []
    else if |r| >= 2 && r[0] == ' ' && IsUpper(r[1]) then [r[1]] + Unspaced(r[2..])
    else [r[0]] + Unspaced(r[1..])
  }

  /** `camelCaseToTitleCase(s)`: "" for the empty string; otherwise the spaced
      string with its first character upper-cased. */
  function CamelCaseToTitleCase(s: string): (r: string)
    ensures s == [] <==> r == []
  {
    if s == [] then ""
    else
      var spaced := Spaced(s);
      [ToUpper(spaced[0])] + spaced[1..]
  }

  /** Upper-casing leaves capitals and non-letters alone and turns a lower-case
      letter into its capital. */
  lemma ToUpperFacts(c: char)
    ensures IsLower(c) ==> IsUpper(ToUpper(c)) && ToUpper(c) as int == c as int - 32
    ensures !IsLower(c) ==> ToUpper(c) == c
    ensures ToUpper(ToUpper(c)) == ToUpper(c)
    ensures ToUpper(c) == ' ' <==> c == ' '
  {
  }

  /** The spaced string is one character longer per capital, never starts with
      a capital, and puts a space in front of every capital it holds. */
  lemma {:induction false} SpacedFacts(s: string)
    ensures |Spaced(s)| == |s| + CountUpper(s)
    ensures s != [] ==> |Spaced(s)| > 0 && !IsUpper(Spaced(s)[0])
    ensures s != [] && IsUpper(s[0]) ==> Spaced(s)[..2] == [' ', s[0]]
    ensures s != [] && !IsUpper(s[0]) ==> Spaced(s)[0] == s[0]
    ensures forall j :: 0 < j < |Spaced(s)| && IsUpper(Spaced(s)[j]) ==> Spaced(s)[j - 1] == ' '
  {
    if s != [] {
      var head: string := if IsUpper(s[0]) then [' ', s[0]] else [s[0]];
      var tail := Spaced(s[1..]);
      SpacedFacts(s[1..]);
      var r := Spaced(s);
      assert r == head + tail;
      forall j | 0 < j < |r| && IsUpper(r[j]) ensures r[j - 1] == ' ' {
        if j > |head| {
          assert r[j] == tail[j - |head|] && r[j - 1] == tail[j - 1 - |head|];
        }
      }
    }
  }

  /** Without capitals nothing is inserted. */
  lemma {:induction false} SpacedNoCapitals(s: string)
    requires CountUpper(s) == 0
    ensures Spaced(s) == s
  {
    if s != [] {
      SpacedNoCapitals(s[1..]);
      assert s == [s[0]] + s[1..];
    }
  }

  /** Removing the inserted spaces gives back the original string: spacing
      loses no character and reorders nothing. */
  lemma {:induction false} UnspacedSpaced(s: string)
    ensures Unspaced(Spaced(s)) == s
  {
    if s != [] {
      var tail := Spaced(s[1..]);
      UnspacedSpaced(s[1..]);
      SpacedFacts(s[1..]);
      if IsUpper(s[0]) {
        var r := [' ', s[0]] + tail;
        assert r[2..] == tail;
      } else {
        var r := [s[0]] + tail;
        assert r[1..] == tail;
        assert |r| >= 2 ==> r[1] == tail[0];
      }
      assert s == [s[0]] + s[1..];
    }
  }

  /** The label has one extra character per capital and a space before every
      capital it holds. A leading capital
      gets a space in front of it; otherwise the first character is upper-cased
      and the rest spaced. */
  lemma TitleCaseShape(s: string)
    ensures var r := CamelCaseToTitleCase(s);
            |r| == |s| + CountUpper(s) &&
            (forall j :: 0 < j < |r| && IsUpper(r[j]) ==> r[j - 1] == ' ') &&
            (s != [] && IsUpper(s[0]) ==> r == [' ', s[0]] + Spaced(s[1..])) &&
            (s != [] && !IsUpper(s[0]) ==> r[0] == ToUpper(s[0]) && r[1..] == Spaced(s[1..]))
  {
    if s != [] {
      SpacedFacts(s);
      var sp := Spaced(s);
      var r := CamelCaseToTitleCase(s);
      assert r[1..] == sp[1..];
      forall j | 0 < j < |r| && IsUpper(r[j]) ensures r[j - 1] == ' ' {
        if j > 1 {
          assert r[j] == sp[j] && r[j - 1] == sp[j - 1];
        }
      }
      if IsUpper(s[0]) {
        assert sp == [' ', s[0]] + Spaced(s[1..]);
        assert ToUpper(' ') == ' ';
      } else {
        assert sp == [s[0]] + Spaced(s[1..]);
      }
    }
  }

  /** A name without capitals is only upper-cased at its first letter
      ("score" gives "Score"). */
  lemma TitleCaseNoCapitals(s: string)
    requires s != [] && CountUpper(s) == 0
    ensures CamelCaseToTitleCase(s) == [ToUpper(s[0])] + s[1..]
  {
    SpacedNoCapitals(s);
  }

  /** Removing the inserted spaces from the label gives the input with its first
      character upper-cased: the label adds spaces before capitals and changes
      nothing else. */
  lemma TitleCaseUnspaced(s: string)
    requires s != []
    ensures Unspaced(CamelCaseToTitleCase(s)) == [ToUpper(s[0])] + s[1..]
  {
    var r := CamelCaseToTitleCase(s);
    var tail := Spaced(s[1..]);
    SpacedFacts(s[1..]);
    UnspacedSpaced(s[1..]);
    if IsUpper(s[0]) {
      assert r == [' ', s[0]] + tail;
      assert r[2..] == tail;
    } else {
      assert r == [ToUpper(s[0])] + tail;
      assert r[1..] == tail;
      assert |r| >= 2 ==> r[1] == tail[0];
    }
  }

  /** As written, a name that starts with a capital gets a leading space,
      although the intent is to space capitals except at the start: "Name"
      becomes " Name". */
  lemma LeadingCapitalGetsSpace()
    ensures CamelCaseToTitleCase("Name") == " Name"
  {
  }

  /** The intended behaviour: a space before every capital except one at the
      start, then the first character upper-cased. */
  function TitleCaseExceptStart(s: string): (r: string)
    ensures s == [] <==> r == []
  {
    if s == [] then "" else [ToUpper(s[0])] + Spaced(s[1..])
  }

  /** The intended label starts with the input's first character upper-cased
      (so with a space only when the input does), spaces every later capital,
      and loses nothing but the spaces it inserted. */
  lemma ExceptStartFacts(s: string)
    requires s != []
    ensures var r := TitleCaseExceptStart(s);
            r[0] == ToUpper(s[0]) && (r[0] == ' ' <==> s[0] == ' ') &&
            |r| == |s| + CountUpper(s[1..]) &&
            (forall j :: 0 < j < |r| && IsUpper(r[j]) ==> r[j - 1] == ' ') &&
            Unspaced(r) == [ToUpper(s[0])] + s[1..]
  {
    var r := TitleCaseExceptStart(s);
    var tail := Spaced(s[1..]);
    SpacedFacts(s[1..]);
    UnspacedSpaced(s[1..]);
    ToUpperFacts(s[0]);
    assert r[1..] == tail;
    forall j | 0 < j < |r| && IsUpper(r[j]) ensures r[j - 1] == ' ' {
      if j > 1 {
        assert r[j] == tail[j - 1] && r[j - 1] == tail[j - 2];
      }
    }
    assert |r| >= 2 ==> r[1] == tail[0];
  }

  /** The two agree on every name that does not start with a capital, which is
      every camelCase field name. */
  lemma ExceptStartAgrees(s: string)
    requires s != [] && !IsUpper(s[0])
    ensures TitleCaseExceptStart(s) == CamelCaseToTitleCase(s)
  {
  }
}
