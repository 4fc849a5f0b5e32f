/**
 * The .NET string operations the generator relies on, stated over `seq<char>`:
 * whitespace tests, Trim, invariant lower-casing, ordinal case-insensitive
 * equality, Join, Split with RemoveEmptyEntries | TrimEntries, character
 * replacement and Int32.ToString.
 */
module Text {
  import opened Wrappers

  /** C#'s `int`. */
  type Int32 = x: int | -0x8000_0000 <= x < 0x8000_0000

  const Int32MaxValue: Int32 := 0x7FFF_FFFF

  // ---------------------------------------------------------------------------
  // Whitespace and Trim
  // ---------------------------------------------------------------------------

  /** `char.IsWhiteSpace`: the Unicode space separators, line and paragraph
      separators, and the control characters U+0009..U+000D, U+0085. */
  predicate IsWhiteSpace(ch: char) {
    ch == ' ' || ('\t' <= ch <= '\r') || ch == '\U{85}' || ch == '\U{A0}' || ch == '\U{1680}'
    || ('\U{2000}' <= ch <= '\U{200A}') || ch == '\U{2028}' || ch == '\U{2029}'
    || ch == '\U{202F}' || ch == '\U{205F}' || ch == '\U{3000}'
  }

  predicate AllWhiteSpace(s: string) {
    forall i :: 0 <= i < |s| ==> IsWhiteSpace(s[i])
  }

  /** `string.IsNullOrWhiteSpace`. */
  predicate IsNullOrWhiteSpace(s: Option<string>) {
    s.None? || AllWhiteSpace(s.value)
  }

  /** No whitespace at either end. */
  predicate IsTrimmed(s: string) {
    s == [] || (!IsWhiteSpace(s[0]) && !IsWhiteSpace(s[|s| - 1]))
  }

  /** The first index at or after `i` whose character is not whitespace,
      or `|s|` when there is none. */
  function SkipLeading(s: string, i: nat): (j: nat)
    requires i <= |s|
    ensures i <= j <= |s|
    decreases |s| - i
  {
    if i < |s| && IsWhiteSpace(s[i]) then SkipLeading(s, i + 1) else i
  }

  /** The end of `s[lo..j]` once its trailing whitespace is dropped. */
  function SkipTrailing(s: string, lo: nat, j: nat): (k: nat)
    requires lo <= j <= |s|
    ensures lo <= k <= j
    decreases j
  {
    if lo < j && IsWhiteSpace(s[j - 1]) then SkipTrailing(s, lo, j - 1) else j
  }

  lemma {:induction false} SkipLeadingSpec(s: string, i: nat)
    requires i <= |s|
    ensures forall k :: i <= k < SkipLeading(s, i) ==> IsWhiteSpace(s[k])
    ensures SkipLeading(s, i) == |s| || !IsWhiteSpace(s[SkipLeading(s, i)])
    decreases |s| - i
  {
    if i < |s| && IsWhiteSpace(s[i]) {
      SkipLeadingSpec(s, i + 1);
    }
  }

  lemma {:induction false} SkipTrailingSpec(s: string, lo: nat, j: nat)
    requires lo <= j <= |s|
    ensures forall k :: SkipTrailing(s, lo, j) <= k < j ==> IsWhiteSpace(s[k])
    ensures SkipTrailing(s, lo, j) == lo || !IsWhiteSpace(s[SkipTrailing(s, lo, j) - 1])
    decreases j
  {
    if lo < j && IsWhiteSpace(s[j - 1]) {
      SkipTrailingSpec(s, lo, j - 1);
    }
  }

  /** `string.Trim()`: removes leading and trailing whitespace. */
  function Trim(s: string): string {
    var lo := SkipLeading(s, 0);
    s[lo..SkipTrailing(s, lo, |s|)]
  }

  /** `Trim` keeps one slice of `s`, has no whitespace at either end, and
      what it removes is whitespace. */
  lemma TrimSlice(s: string) returns (lo: nat)
    ensures IsTrimmed(Trim(s))
    ensures lo + |Trim(s)| <= |s| && Trim(s) == s[lo..lo + |Trim(s)|]
    ensures forall i :: 0 <= i < lo ==> IsWhiteSpace(s[i])
    ensures forall i :: lo + |Trim(s)| <= i < |s| ==> IsWhiteSpace(s[i])
  {
    lo := SkipLeading(s, 0);
    var hi := SkipTrailing(s, lo, |s|);
    SkipLeadingSpec(s, 0);
    SkipTrailingSpec(s, lo, |s|);
    var r := Trim(s);
    assert r == s[lo..hi];
    if r != [] {
      assert r[0] == s[lo] && r[|r| - 1] == s[hi - 1];
    }
  }

  /** `Trim` adds no character. */
  lemma TrimKeepsAbsent(s: string, ch: char)
    requires ch !in s
    ensures ch !in Trim(s)
  {
    var lo := TrimSlice(s);
    var r := Trim(s);
    forall i | 0 <= i < |r| ensures r[i] != ch {
      assert r[i] == s[lo + i];
    }
  }

  /** Trimming text that has no whitespace at either end changes nothing. */
  lemma TrimOfTrimmed(s: string)
    requires IsTrimmed(s)
    ensures Trim(s) == s
  {
    if s != [] {
      assert SkipLeading(s, 0) == 0;
      assert SkipTrailing(s, 0, |s|) == |s|;
    }
  }

  /** A present string is blank exactly when trimming leaves nothing. */
  lemma BlankIffTrimEmpty(s: string)
    ensures IsNullOrWhiteSpace(Some(s)) <==> Trim(s) == ""
  {
    var lo := TrimSlice(s);
    var r := Trim(s);
    if r != "" {
      assert s[lo] == r[0];
    }
  }

  // ---------------------------------------------------------------------------
  // Case
  // ---------------------------------------------------------------------------

  predicate IsAsciiUpper(ch: char) { 'A' <= ch <= 'Z' }
  predicate IsAsciiLower(ch: char) { 'a' <= ch <= 'z' }

  function LowerChar(ch: char): char {
    if IsAsciiUpper(ch) then (ch as int + 32) as char else ch
  }

  function UpperChar(ch: char): char {
    if IsAsciiLower(ch) then (ch as int - 32) as char else ch
  }

  /** Ordinal case-insensitive character equality (`StringComparer.OrdinalIgnoreCase`). */
  predicate SameCharIgnoreCase(a: char, b: char) {
    UpperChar(a) == UpperChar(b)
  }

  /** `string.Equals(a, b, StringComparison.OrdinalIgnoreCase)`. */
  predicate EqualsIgnoreCase(a: string, b: string) {
    |a| == |b| && forall i :: 0 <= i < |a| ==> SameCharIgnoreCase(a[i], b[i])
  }

  /** `string.ToLowerInvariant()`, ASCII letters only. */
  function ToLowerInvariant(s: string): (r: string)
    ensures |r| == |s|
  {
    seq(|s|, i requires 0 <= i < |s| => LowerChar(s[i]))
  }

  /** No upper-case letter is left, the result equals its input ignoring
      case, and every other character is kept. */
  lemma ToLowerInvariantSpec(s: string)
    ensures var r := ToLowerInvariant(s);
            (forall i :: 0 <= i < |r| ==> !IsAsciiUpper(r[i]))
            && EqualsIgnoreCase(r, s)
            && (forall i :: 0 <= i < |s| && !IsAsciiUpper(s[i]) ==> r[i] == s[i])
  {
  }

  /** Appending is associative; stated once so that callers need not
      re-prove it by extensionality in a large context. */
  lemma AppendAssoc<T>(a: seq<T>, b: seq<T>, c: seq<T>)
    ensures a + (b + c) == (a + b) + c
  {
  }

  // Where the parts of a sequence made of two, three or four parts sit.

  lemma SecondOfTwoAt<T>(s: seq<T>, a: seq<T>, b: seq<T>, j: nat)
    requires s == a + b && j < |b|
    ensures |a| + j < |s| && s[|a| + j] == b[j]
  {
  }

  lemma SecondOfThreeAt<T>(s: seq<T>, a: seq<T>, b: seq<T>, c: seq<T>, j: nat)
    requires s == a + b + c && j < |b|
    ensures |a| + j < |s| && s[|a| + j] == b[j]
  {
  }

  lemma ThirdOfThreeAt<T>(s: seq<T>, a: seq<T>, b: seq<T>, c: seq<T>, j: nat)
    requires s == a + b + c && j < |c|
    ensures |a| + |b| + j < |s| && s[|a| + |b| + j] == c[j]
  {
  }

  lemma FirstPartAt<T>(s: seq<T>, a: seq<T>, b: seq<T>, c: seq<T>, d: seq<T>, j: nat)
    requires s == a + b + c + d && j < |a|
    ensures j < |s| && s[j] == a[j]
  {
  }

  lemma SecondPartAt<T>(s: seq<T>, a: seq<T>, b: seq<T>, c: seq<T>, d: seq<T>, j: nat)
    requires s == a + b + c + d && j < |b|
    ensures |a| + j < |s| && s[|a| + j] == b[j]
  {
  }

  lemma ThirdPartAt<T>(s: seq<T>, a: seq<T>, b: seq<T>, c: seq<T>, d: seq<T>, j: nat)
    requires s == a + b + c + d && j < |c|
    ensures |a| + |b| + j < |s| && s[|a| + |b| + j] == c[j]
  {
  }

  lemma FourthPartAt<T>(s: seq<T>, a: seq<T>, b: seq<T>, c: seq<T>, d: seq<T>, j: nat)
    requires s == a + b + c + d && j < |d|
    ensures |a| + |b| + |c| + j < |s| && s[|a| + |b| + |c| + j] == d[j]
  {
  }

  /** The empty sequence is a unit of appending. */
  lemma AppendEmpty<T>(a: seq<T>)
    ensures a + [] == a && [] + a == a
  {
  }

  // ---------------------------------------------------------------------------
  // Join and Split
  // ---------------------------------------------------------------------------

  /** `string.Join(sep, xs)`. */
  function Join(xs: seq<string>, sep: string): string {
    if |xs| == 0 then ""
    else if |xs| == 1 then xs[0]
    else xs[0] + sep + Join(xs[1..], sep)
  }

  /** The index of the first `ch` in `s` at or after `i`, or `|s|`. */
  function FindChar(s: string, ch: char, i: nat): (j: nat)
    requires i <= |s|
    ensures i <= j <= |s|
    decreases |s| - i
  {
    if i == |s| || s[i] == ch then i else FindChar(s, ch, i + 1)
  }

  lemma {:induction false} FindCharSpec(s: string, ch: char, i: nat)
    requires i <= |s|
    ensures forall k :: i <= k < FindChar(s, ch, i) ==> s[k] != ch
    ensures FindChar(s, ch, i) < |s| ==> s[FindChar(s, ch, i)] == ch
    decreases |s| - i
  {
    if i < |s| && s[i] != ch {
      FindCharSpec(s, ch, i + 1);
    }
  }

  /** `s.Split(sep, RemoveEmptyEntries | TrimEntries)`: the pieces between
      separators, each trimmed, those that are then empty dropped, in order. */
  function SplitEntries(s: string, sep: char): seq<string>
    decreases |s|
  {
    var j := FindChar(s, sep, 0);
    var piece := Trim(s[..j]);
    (if piece == "" then [] else [piece])
      + (if j == |s| then [] else SplitEntries(s[j + 1..], sep))
  }

  /** Every entry is non-empty, trimmed and free of the separator. */
  lemma {:induction false} SplitEntriesClean(s: string, sep: char)
    ensures forall e <- SplitEntries(s, sep) :: e != "" && IsTrimmed(e) && sep !in e
    decreases |s|
  {
    var j := FindChar(s, sep, 0);
    var piece := Trim(s[..j]);
    FindCharSpec(s, sep, 0);
    assert sep !in s[..j];
    TrimKeepsAbsent(s[..j], sep);
    var lo := TrimSlice(s[..j]);
    var head := if piece == "" then [] else [piece];
    var rest: seq<string> := [];
    if j < |s| {
      rest := SplitEntries(s[j + 1..], sep);
      SplitEntriesClean(s[j + 1..], sep);
    }
    assert SplitEntries(s, sep) == head + rest;
  }

  /** Joining non-empty, trimmed, separator-free entries and splitting them
      again gives the entries back. */
  lemma {:induction false} SplitEntriesJoin(xs: seq<string>, sep: char)
    requires forall i :: 0 <= i < |xs| ==> xs[i] != "" && IsTrimmed(xs[i]) && sep !in xs[i]
    ensures SplitEntries(Join(xs, [sep]), sep) == xs
  {
    if xs == [] {
      assert Trim("") == "";
    } else {
      var s := Join(xs, [sep]);
      var x := xs[0];
      var j := FindChar(s, sep, 0);
      FindCharSpec(s, sep, 0);
      TrimOfTrimmed(x);
      if |xs| == 1 {
        assert forall k :: 0 <= k < |s| ==> s[k] != sep;
        assert j == |s|;
        assert s[..j] == x;
      } else {
        var tail := Join(xs[1..], [sep]);
        assert s == x + [sep] + tail;
        assert s[|x|] == sep;
        assert forall k :: 0 <= k < |x| ==> s[k] == x[k] && x[k] != sep;
        assert j == |x|;
        assert s[..j] == x;
        assert s[j + 1..] == tail;
        SplitEntriesJoin(xs[1..], sep);
        assert [x] + xs[1..] == xs;
      }
    }
  }

  // ---------------------------------------------------------------------------
  // Replace
  // ---------------------------------------------------------------------------

  /** `s.Replace(from, to)` on characters. */
  function ReplaceChar(s: string, from: char, to: char): (r: string)
    ensures |r| == |s|
    ensures forall i :: 0 <= i < |s| ==> r[i] == (if s[i] == from then to else s[i])
  {
    seq(|s|, i requires 0 <= i < |s| => if s[i] == from then to else s[i])
  }

  // ---------------------------------------------------------------------------
  // Int32.ToString
  // ---------------------------------------------------------------------------

  predicate IsDigit(ch: char) { '0' <= ch <= '9' }

  predicate AllDigits(s: string) {
    forall i :: 0 <= i < |s| ==> IsDigit(s[i])
  }

  function DigitChar(d: nat): (ch: char)
    requires d < 10
    ensures IsDigit(ch) && ch as int - '0' as int == d
  {
    ('0' as int + d) as char
  }

  /** The value of a string of decimal digits. */
  function ParseNat(s: string): nat
    requires AllDigits(s)
  {
    if s == [] then 0 else ParseNat(s[..|s| - 1]) * 10 + (s[|s| - 1] as int - '0' as int)
  }

  /** Decimal digits of `n` without leading zeros; reading them back gives `n`. */
  function NatToString(n: nat): (r: string)
    ensures |r| >= 1 && AllDigits(r)
    ensures r[0] != '0' || r == "0"
    ensures ParseNat(r) == n
  {
    if n < 10 then [DigitChar(n)]
    else
      var r := NatToString(n / 10) + [DigitChar(n % 10)];
      assert r[..|r| - 1] == NatToString(n / 10);
      r
  }

  /** `int.ToString()`: a minus sign for negative values, then the digits. */
  function IntToString(n: int): (r: string)
    ensures IsIntText(r)
    ensures n >= 0 ==> AllDigits(r) && |r| >= 1
    ensures n < 0 ==> |r| >= 2 && r[0] == '-' && AllDigits(r[1..])
  {
    if n < 0 then "-" + NatToString(-n) else NatToString(n)
  }

  /** An optional minus sign followed by decimal digits. */
  predicate IsIntText(s: string) {
    (|s| >= 1 && s[0] == '-' && AllDigits(s[1..])) || AllDigits(s)
  }

  /** Reads back a rendering of `IntToString`. */
  function ParseInt(s: string): int
    requires IsIntText(s)
  {
    if |s| >= 1 && s[0] == '-' then 0 - ParseNat(s[1..]) else ParseNat(s)
  }

  /** `IntToString` loses nothing: parsing it gives the number back. */
  lemma IntToStringRoundTrip(n: int)
    ensures ParseInt(IntToString(n)) == n
  {
    if n < 0 {
      assert IntToString(n)[1..] == NatToString(-n);
    }
  }

  /** Different numbers print differently. */
  lemma IntToStringInjective(m: int, n: int)
    requires IntToString(m) == IntToString(n)
    ensures m == n
  {
    IntToStringRoundTrip(m);
    IntToStringRoundTrip(n);
  }

  // ---------------------------------------------------------------------------
  // Reading printed parts back
  // ---------------------------------------------------------------------------

  /** Text framed by the same head and a closing parenthesis determines its middle. */
  lemma WrappedInjective(head: string, a: string, b: string)
    requires head + a + ")" == head + b + ")"
    ensures a == b
  {
    var l := head + a + ")";
    assert |a| == |b|;
    forall i | 0 <= i < |a| ensures a[i] == b[i] {
      assert a[i] == l[|head| + i];
      assert b[i] == (head + b + ")")[|head| + i];
    }
  }

  /** A printed number holds no comma. */
  lemma NoCommaInNumber(n: int)
    ensures ',' !in IntToString(n)
  {
  }

  /** The first comma of `a + "," + b` is the one after `a`. */
  lemma FirstComma(a: string, b: string)
    requires ',' !in a
    ensures FindChar(a + "," + b, ',', 0) == |a|
  {
    var l := a + "," + b;
    FindCharSpec(l, ',', 0);
    var j := FindChar(l, ',', 0);
    assert l[|a|] == ',';
  }

  /** Joining two comma-free texts with a comma can be undone. */
  lemma CommaSplit(a: string, b: string, c: string, d: string)
    requires ',' !in a && ',' !in c
    requires a + "," + b == c + "," + d
    ensures a == c && b == d
  {
    var l := a + "," + b;
    FirstComma(a, b);
    FirstComma(c, d);
    assert a == l[..|a|] && c == (c + "," + d)[..|c|];
    assert b == l[|a| + 1..] && d == (c + "," + d)[|c| + 1..];
  }

  /** Two numbers printed with a comma between them read back as a pair. */
  lemma NumberPairInjective(a: int, b: int, c: int, d: int)
    requires IntToString(a) + "," + IntToString(b) == IntToString(c) + "," + IntToString(d)
    ensures a == c && b == d
  {
    NoCommaInNumber(a);
    NoCommaInNumber(c);
    CommaSplit(IntToString(a), IntToString(b), IntToString(c), IntToString(d));
    IntToStringInjective(a, c);
    IntToStringInjective(b, d);
  }

  /** Two numbers printed as `head(a,b)` read back as a pair. */
  lemma WrappedPairInjective(head: string, a: int, b: int, c: int, d: int)
    requires head + IntToString(a) + "," + IntToString(b) + ")" == head + IntToString(c) + "," + IntToString(d) + ")"
    ensures a == c && b == d
  {
    var x := IntToString(a) + "," + IntToString(b);
    var y := IntToString(c) + "," + IntToString(d);
    AppendAssoc(head, IntToString(a) + ",", IntToString(b));
    AppendAssoc(head, IntToString(a), ",");
    AppendAssoc(head, IntToString(c) + ",", IntToString(d));
    AppendAssoc(head, IntToString(c), ",");
    WrappedInjective(head, x, y);
    NumberPairInjective(a, b, c, d);
  }
}
