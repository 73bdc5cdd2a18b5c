/** The JavaScript string operations the console relies on: `trim`,
    `toLowerCase`, `includes`/`indexOf`, `startsWith`, and `split`/`join`
    on a one-character separator. */
module Text {

  import opened Types

  /** `pat` occurs in `s` at index `k`. */
  predicate OccursAt(s: string, pat: string, k: nat) {
    k + |pat| <= |s| && s[k..k + |pat|] == pat
  }

  /** `s.indexOf(pat, from)`: the first occurrence at or after `from`. */
  function IndexOf(s: string, pat: string, from: nat): (r: Option<nat>)
    requires from <= |s|
    ensures r.Some? ==> from <= r.value && OccursAt(s, pat, r.value)
    ensures r.Some? ==> forall k: nat :: from <= k < r.value ==> !OccursAt(s, pat, k)
    ensures r.None? ==> forall k: nat :: from <= k ==> !OccursAt(s, pat, k)
    decreases |s| - from
  {
    if from + |pat| > |s| then None
    else if s[from..from + |pat|] == pat then Some(from)
    else IndexOf(s, pat, from + 1)
  }

  /** `s.includes(pat)`. */
  predicate Includes(s: string, pat: string) {
    IndexOf(s, pat, 0).Some?
  }

  lemma IncludesAt(s: string, pat: string, k: nat)
    requires OccursAt(s, pat, k)
    ensures Includes(s, pat)
  {
  }

  predicate StartsWith(s: string, prefix: string) {
    |prefix| <= |s| && s[..|prefix|] == prefix
  }

  /** toLowerCase, for the ASCII letters. */
  function LowerChar(c: char): char {
    if 'A' <= c <= 'Z' then (c as int + 32) as char else c
  }

  function Lower(s: string): (r: string)
    ensures |r| == |s|
    ensures forall i :: 0 <= i < |s| ==> r[i] == LowerChar(s[i])
  {
    if s == [] then [] else [LowerChar(s[0])] + Lower(s[1..])
  }

  /** The characters `trim` removes: WhiteSpace and LineTerminator of
      section 12.2 and 12.3 of ECMA-262. */
  predicate IsJsWhitespace(c: char) {
    || c == '\t' || c == '\n' || c == '\U{B}' || c == '\U{C}' || c == '\r'
    || c == ' ' || c == '\U{A0}' || c == '\U{1680}'
    || ('\U{2000}' <= c <= '\U{200A}')
    || c == '\U{2028}' || c == '\U{2029}' || c == '\U{202F}' || c == '\U{205F}'
    || c == '\U{3000}' || c == '\U{FEFF}'
  }

  predicate AllWhitespace(s: string) {
    forall i :: 0 <= i < |s| ==> IsJsWhitespace(s[i])
  }

  function TrimStart(s: string): (r: string)
    ensures |r| <= |s| && r == s[|s| - |r|..]
    ensures AllWhitespace(s[..|s| - |r|])
    ensures r == [] || !IsJsWhitespace(r[0])
  {
    if s != [] && IsJsWhitespace(s[0]) then
      var r := TrimStart(s[1..]);
      assert s[1..][..|s[1..]| - |r|] == s[1..|s| - |r|];
      r
    else s
  }

  function TrimEnd(s: string): (r: string)
    ensures |r| <= |s| && r == s[..|r|]
    ensures AllWhitespace(s[|r|..])
    ensures r == [] || !IsJsWhitespace(r[|r| - 1])
  {
    if s != [] && IsJsWhitespace(s[|s| - 1]) then
      var r := TrimEnd(s[..|s| - 1]);
      assert s[..|s| - 1][|r|..] == s[|r|..|s| - 1];
      assert s[|r|..] == s[|r|..|s| - 1] + [s[|s| - 1]];
      assert s[..|s| - 1][..|r|] == s[..|r|];
      r
    else s
  }

  function Trim(s: string): string {
    TrimEnd(TrimStart(s))
  }

  /** `!s.trim()` holds exactly when every character of `s` is white space. */
  lemma TrimEmptyIffBlank(s: string)
    ensures Trim(s) == [] <==> AllWhitespace(s)
  {
    var t := TrimStart(s);
    if !AllWhitespace(s) {
      var i :| 0 <= i < |s| && !IsJsWhitespace(s[i]);
      assert i >= |s| - |t| by {
        assert forall j :: 0 <= j < |s| - |t| ==> s[..|s| - |t|][j] == s[j];
      }
      assert t != [];
    }
  }

  /** `!s.trim()`. */
  function IsBlank(s: string): (r: bool)
    ensures r <==> AllWhitespace(s)
  {
    TrimEmptyIffBlank(s);
    Trim(s) == ""
  }

  /** `s.split(sep)` for a one-character separator: always at least one
      segment. */
  function Split(s: string, sep: char): (r: seq<string>)
    ensures |r| >= 1
  {
    if s == [] then [""]
    else
      var rest := Split(s[1..], sep);
      if s[0] == sep then [""] + rest
      else [[s[0]] + rest[0]] + rest[1..]
  }

  /** No segment contains the separator. */
  lemma {:induction false} SplitSegmentsLackSeparator(s: string, sep: char)
    ensures forall k :: 0 <= k < |Split(s, sep)| ==> sep !in Split(s, sep)[k]
  {
    if s != [] {
      SplitSegmentsLackSeparator(s[1..], sep);
      var rest := Split(s[1..], sep);
      if s[0] != sep {
        assert sep !in [s[0]] + rest[0];
      }
    }
  }

  /** `parts.join(sep)`. */
  function Join(parts: seq<string>, sep: char): string {
    if |parts| == 0 then ""
    else if |parts| == 1 then parts[0]
    else parts[0] + [sep] + Join(parts[1..], sep)
  }

  lemma {:induction false} JoinSplit(s: string, sep: char)
    ensures Join(Split(s, sep), sep) == s
  {
    if s != [] {
      var rest := Split(s[1..], sep);
      JoinSplit(s[1..], sep);
      if s[0] == sep {
        assert Split(s, sep) == [""] + rest;
        assert ([""] + rest)[1..] == rest;
        assert s == [sep] + s[1..];
      } else {
        var r := Split(s, sep);
        assert r == [[s[0]] + rest[0]] + rest[1..];
        if |rest| == 1 {
          assert s == [s[0]] + s[1..];
        } else {
          assert r[1..] == rest[1..];
          assert Join(rest, sep) == rest[0] + [sep] + Join(rest[1..], sep);
          assert s == [s[0]] + s[1..];
        }
      }
    }
  }

  lemma {:induction false} SplitJoin(parts: seq<string>, sep: char)
    requires |parts| >= 1
    requires forall k :: 0 <= k < |parts| ==> sep !in parts[k]
    ensures Split(Join(parts, sep), sep) == parts
  {
    if |parts| == 1 {
      SplitNoSeparator(parts[0], sep);
    } else {
      SplitJoin(parts[1..], sep);
      SplitNoSeparator(parts[0], sep);
      SplitConcat(parts[0], Join(parts[1..], sep), sep);
      assert [parts[0]] + parts[1..] == parts;
    }
  }

  lemma {:induction false} SplitNoSeparator(s: string, sep: char)
    requires sep !in s
    ensures Split(s, sep) == [s]
  {
    if s != [] {
      SplitNoSeparator(s[1..], sep);
      assert [s[0]] + s[1..] == s;
    }
  }

  /** One step of Split: a leading character either starts a new segment
      (the separator) or joins the first segment of the rest. */
  lemma SplitCons(c: char, t: string, sep: char)
    ensures Split([c] + t, sep)
      == if c == sep then [""] + Split(t, sep) else [[c] + Split(t, sep)[0]] + Split(t, sep)[1..]
  {
    assert ([c] + t)[1..] == t;
  }

  /** Splitting at a separator splits the two sides independently. */
  lemma {:induction false} SplitConcat(a: string, b: string, sep: char)
    ensures Split(a + [sep] + b, sep) == Split(a, sep) + Split(b, sep)
  {
    if a == [] {
      assert a + [sep] + b == [sep] + b;
      SplitCons(sep, b, sep);
    } else {
      var t := a[1..] + [sep] + b;
      assert a + [sep] + b == [a[0]] + t;
      assert a == [a[0]] + a[1..];
      SplitConcat(a[1..], b, sep);
      SplitCons(a[0], t, sep);
      SplitCons(a[0], a[1..], sep);
      var ra, rb := Split(a[1..], sep), Split(b, sep);
      if a[0] == sep {
        assert [""] + (ra + rb) == ([""] + ra) + rb;
      } else {
        assert [[a[0]] + (ra + rb)[0]] + (ra + rb)[1..] == ([[a[0]] + ra[0]] + ra[1..]) + rb;
      }
    }
  }

  /** `xs.slice(0, -2)`: all but the last two elements, or none. */
  function DropLastTwo<T>(xs: seq<T>): (r: seq<T>)
    ensures |xs| >= 2 ==> r == xs[..|xs| - 2]
    ensures |xs| < 2 ==> r == []
  {
    if |xs| >= 2 then xs[..|xs| - 2] else []
  }

  /** `String(n)` for an integer: its decimal digits, with a leading minus
      sign when negative. */
  function DecimalString(n: int): (r: string)
    ensures |r| >= 1
    ensures n >= 0 ==> forall i :: 0 <= i < |r| ==> '0' <= r[i] <= '9'
  {
    if n < 0 then "-" + NatDecimal(-n) else NatDecimal(n)
  }

  function NatDecimal(n: nat): (r: string)
    ensures |r| >= 1
    ensures forall i :: 0 <= i < |r| ==> '0' <= r[i] <= '9'
  {
    var d := ['0' + (n % 10) as char];
    if n < 10 then d else NatDecimal(n / 10) + d
  }

  /** The number a string of decimal digits denotes, most significant
      digit first. */
  function DigitsValue(s: string): int
  {
    if s == [] then 0
    else DigitsValue(s[..|s| - 1]) * 10 + (s[|s| - 1] as int - '0' as int)
  }

  /** Reading the digits back gives the number they were written from. */
  lemma {:induction false} NatDecimalValue(n: nat)
    ensures DigitsValue(NatDecimal(n)) == n
  {
    var d := ['0' + (n % 10) as char];
    if n < 10 {
      assert NatDecimal(n) == d;
      assert d[..0] == [];
    } else {
      NatDecimalValue(n / 10);
      var r := NatDecimal(n / 10) + d;
      assert NatDecimal(n) == r;
      assert r[..|r| - 1] == NatDecimal(n / 10);
    }
  }

  /** The number a decimal string with an optional leading minus sign
      denotes. */
  function SignedValue(s: string): int
  {
    if |s| > 0 && s[0] == '-' then -DigitsValue(s[1..]) else DigitsValue(s)
  }

  /** Reading a written number back gives the number. */
  lemma DecimalStringValue(n: int)
    ensures SignedValue(DecimalString(n)) == n
  {
    if n < 0 {
      var r := DecimalString(n);
      assert r == "-" + NatDecimal(-n);
      assert r[1..] == NatDecimal(-n);
      NatDecimalValue(-n);
    } else {
      assert DecimalString(n) == NatDecimal(n);
      NatDecimalValue(n);
    }
  }

  /** Distinct numbers are written differently, so a string written from
      the clock determines the instant it was written at. */
  lemma DecimalStringInjective(m: int, n: int)
    requires DecimalString(m) == DecimalString(n)
    ensures m == n
  {
    DecimalStringValue(m);
    DecimalStringValue(n);
  }
}
