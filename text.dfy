/**
 * The parts of Go's `strings` and `fmt` packages that the bot and its
 * scenario-file parser rely on, stated over Unicode scalar values
 * (Dafny's `char`).
 */
module Text {
  import opened Options

  /** The Unicode White_Space characters. */
  const SpaceChars: set<char> := {
    ' ', '\t', '\n', '\U{B}', '\U{C}', '\r', '\U{85}', '\U{A0}', '\U{1680}',
    '\U{2000}', '\U{2001}', '\U{2002}', '\U{2003}', '\U{2004}', '\U{2005}',
    '\U{2006}', '\U{2007}', '\U{2008}', '\U{2009}', '\U{200A}',
    '\U{2028}', '\U{2029}', '\U{202F}', '\U{205F}', '\U{3000}'
  }

  /** Go's `unicode.IsSpace`. Both `strings.TrimSpace` and the `fmt`
      scanner skip exactly these characters. */
  predicate IsSpace(c: char) {
    c in SpaceChars
  }

  /** A line that `strings.TrimSpace` turns into "". */
  predicate IsBlank(s: string) {
    forall k :: 0 <= k < |s| ==> IsSpace(s[k])
  }

  /** Neither end of `s` is a space: `strings.TrimSpace` leaves it alone. */
  predicate IsTrimmed(s: string) {
    s == [] || (!IsSpace(s[0]) && !IsSpace(s[|s| - 1]))
  }

  /** The first position at or after `i` that is not white space, or |s|. */
  function SpaceEnd(s: string, i: nat): (k: nat)
    requires i <= |s|
    ensures i <= k <= |s|
    ensures k < |s| ==> !IsSpace(s[k])
    decreases |s| - i
  {
    if i < |s| && IsSpace(s[i]) then SpaceEnd(s, i + 1) else i
  }

  /** The end of s[lo..j] once its trailing white space is dropped. */
  function SpaceStart(s: string, lo: nat, j: nat): (k: nat)
    requires lo <= j <= |s|
    ensures lo <= k <= j
    ensures lo < k ==> !IsSpace(s[k - 1])
    decreases j - lo
  {
    if lo < j && IsSpace(s[j - 1]) then SpaceStart(s, lo, j - 1) else j
  }

  /** `strings.TrimSpace`: `s` without its leading and trailing white space. */
  function TrimSpace(s: string): (r: string)
    ensures IsTrimmed(r)
    ensures |r| <= |s|
  {
    var a := SpaceEnd(s, 0);
    s[a..SpaceStart(s, a, |s|)]
  }

  /** What `SpaceEnd` skips is white space. */
  lemma {:induction false} SpaceEndSkips(s: string, i: nat)
    requires i <= |s|
    ensures forall k :: i <= k < SpaceEnd(s, i) ==> IsSpace(s[k])
    decreases |s| - i
  {
    if i < |s| && IsSpace(s[i]) {
      SpaceEndSkips(s, i + 1);
    }
  }

  /** What `SpaceStart` drops is white space. */
  lemma {:induction false} SpaceStartSkips(s: string, lo: nat, j: nat)
    requires lo <= j <= |s|
    ensures forall k :: SpaceStart(s, lo, j) <= k < j ==> IsSpace(s[k])
    decreases j - lo
  {
    if lo < j && IsSpace(s[j - 1]) {
      SpaceStartSkips(s, lo, j - 1);
    }
  }

  /** `strings.TrimSpace` leaves nothing exactly of a string of white space. */
  lemma TrimSpaceBlank(s: string)
    ensures TrimSpace(s) == [] <==> IsBlank(s)
  {
    var a := SpaceEnd(s, 0);
    SpaceEndSkips(s, 0);
    SpaceStartSkips(s, a, |s|);
    if TrimSpace(s) == [] {
      assert a == |s|;
    }
  }

  /** A string with no white space at either end is its own trimmed form. */
  lemma TrimSpaceOfTrimmed(s: string)
    requires IsTrimmed(s)
    ensures TrimSpace(s) == s
  {
    assert s[0..|s|] == s;
  }

  /** `strings.TrimSpace` only removes characters. */
  lemma TrimSpaceWithin(s: string, c: char)
    requires c !in s
    ensures c !in TrimSpace(s)
  {
    var a := SpaceEnd(s, 0);
    var r := TrimSpace(s);
    forall k | 0 <= k < |r|
      ensures r[k] != c
    {
      assert r[k] == s[a + k];
    }
  }

  /** One trailing space after a trimmed string is all `strings.TrimSpace` removes. */
  lemma TrimSpaceOfPadded(s: string)
    requires IsTrimmed(s)
    ensures TrimSpace(s + " ") == s
  {
    var p := s + " ";
    if s != [] {
      assert p[0] == s[0] && p[|s| - 1] == s[|s| - 1];
      assert SpaceStart(p, 0, |p|) == SpaceStart(p, 0, |s|) == |s|;
      assert p[0..|s|] == s;
    }
  }

  /** One leading space before a trimmed string is all `strings.TrimSpace` removes. */
  lemma TrimSpaceOfLeftPadded(s: string)
    requires IsTrimmed(s)
    ensures TrimSpace(" " + s) == s
  {
    var p := " " + s;
    assert SpaceEnd(p, 0) == SpaceEnd(p, 1);
    if s != [] {
      assert p[1] == s[0] && p[|p| - 1] == s[|s| - 1];
      assert p[1..|p|] == s;
    }
  }

  /** A non-space character in front of a trimmed, non-empty string keeps it trimmed. */
  lemma TrimmedAfter(c: char, s: string)
    requires !IsSpace(c) && s != [] && IsTrimmed(s)
    ensures IsTrimmed([c] + s)
  {
    assert ([c] + s)[|s|] == s[|s| - 1];
  }

  /** `strings.HasPrefix` */
  predicate HasPrefix(s: string, p: string) {
    |p| <= |s| && s[..|p|] == p
  }

  /** `strings.TrimPrefix` */
  function TrimPrefix(s: string, p: string): (r: string)
    ensures HasPrefix(s, p) ==> p + r == s
    ensures !HasPrefix(s, p) ==> r == s
  {
    if HasPrefix(s, p) then s[|p|..] else s
  }

  lemma TrimPrefixOfConcat(p: string, s: string)
    ensures TrimPrefix(p + s, p) == s
  {
    assert (p + s)[..|p|] == p;
  }

  /** `strings.HasSuffix` */
  predicate HasSuffix(s: string, p: string) {
    |p| <= |s| && s[|s| - |p|..] == p
  }

  /** `strings.TrimSuffix` */
  function TrimSuffix(s: string, p: string): (r: string)
    ensures HasSuffix(s, p) ==> r + p == s
    ensures !HasSuffix(s, p) ==> r == s
  {
    if HasSuffix(s, p) then s[..|s| - |p|] else s
  }

  /** `sep` occurs in `s` at position `k`. */
  predicate OccursAt(s: string, sep: string, k: int) {
    0 <= k && k + |sep| <= |s| && s[k..k + |sep|] == sep
  }

  function IndexFrom(s: string, sep: string, i: nat): (r: int)
    ensures r == -1 || (i <= r && OccursAt(s, sep, r))
    ensures forall k :: i <= k && (r == -1 || k < r) ==> !OccursAt(s, sep, k)
    decreases |s| - i
  {
    if i + |sep| > |s| then -1
    else if s[i..i + |sep|] == sep then i
    else IndexFrom(s, sep, i + 1)
  }

  /** `strings.Index`: the first position at which `sep` occurs in `s`, or -1. */
  function Index(s: string, sep: string): (r: int)
    ensures r == -1 || OccursAt(s, sep, r)
    ensures forall k :: 0 <= k && (r == -1 || k < r) ==> !OccursAt(s, sep, k)
  {
    IndexFrom(s, sep, 0)
  }

  /** `strings.Contains` */
  predicate Contains(s: string, sep: string) {
    Index(s, sep) >= 0
  }

  /** `strings.Split(s, string(sep))` for a one-character separator. */
  function Split(s: string, sep: char): (parts: seq<string>)
    ensures |parts| >= 1
    ensures forall k :: 0 <= k < |parts| ==> sep !in parts[k]
  {
    if s == [] then [[]]
    else
      var rest := Split(s[1..], sep);
      if s[0] == sep then [[]] + rest
      else [[s[0]] + rest[0]] + rest[1..]
  }

  /** `strings.Join(parts, string(sep))` for a non-empty list of parts. */
  function Join(parts: seq<string>, sep: char): string
    requires |parts| >= 1
  {
    if |parts| == 1 then parts[0] else parts[0] + [sep] + Join(parts[1..], sep)
  }

  /** Joining the pieces of a split gives back the string. */
  lemma {:induction false} JoinSplit(s: string, sep: char)
    ensures Join(Split(s, sep), sep) == s
  {
    if s != [] {
      var rest := Split(s[1..], sep);
      JoinSplit(s[1..], sep);
      if s[0] != sep {
        if |rest| == 1 {
          assert Split(s, sep) == [[s[0]] + rest[0]];
        } else {
          var parts := Split(s, sep);
          assert parts[1..] == rest[1..];
          assert Join(rest, sep) == rest[0] + [sep] + Join(rest[1..], sep);
        }
      }
    }
  }

  /** Joining one more part adds a separator and the part. */
  lemma {:induction false} JoinSnoc(parts: seq<string>, x: string, sep: char)
    requires |parts| >= 1
    ensures Join(parts + [x], sep) == Join(parts, sep) + [sep] + x
    decreases |parts|
  {
    if |parts| == 1 {
      assert (parts + [x])[1..] == [x];
    } else {
      assert (parts + [x])[1..] == parts[1..] + [x];
      JoinSnoc(parts[1..], x, sep);
      assert [parts[0]] + parts[1..] == parts;
    }
  }

  /** Splitting a join of pieces that hold no separator gives back the pieces. */
  lemma {:induction false} SplitJoin(parts: seq<string>, sep: char)
    requires |parts| >= 1
    requires forall k :: 0 <= k < |parts| ==> sep !in parts[k]
    ensures Split(Join(parts, sep), sep) == parts
  {
    if |parts| == 1 {
      SplitNoSep(parts[0], sep);
    } else {
      SplitJoin(parts[1..], sep);
      SplitPrefix(parts[0], Join(parts[1..], sep), sep);
      assert Join(parts, sep) == parts[0] + ([sep] + Join(parts[1..], sep));
      assert [parts[0]] + parts[1..] == parts;
    }
  }

  lemma {:induction false} SplitNoSep(s: string, sep: char)
    requires sep !in s
    ensures Split(s, sep) == [s]
  {
    if s != [] {
      SplitNoSep(s[1..], sep);
      assert [s[0]] + s[1..] == s;
    }
  }

  /** A separator-free head becomes the first piece of the split. */
  lemma {:induction false} SplitPrefix(a: string, b: string, sep: char)
    requires sep !in a
    ensures Split(a + ([sep] + b), sep) == [a] + Split(b, sep)
  {
    if a == [] {
      assert a + ([sep] + b) == [sep] + b;
      assert ([sep] + b)[1..] == b;
    } else {
      SplitPrefix(a[1..], b, sep);
      assert (a + ([sep] + b))[1..] == a[1..] + ([sep] + b);
      assert [a[0]] + a[1..] == a;
    }
  }

  // ---- Decimal integers: fmt's %d, both ways ----

  const MinInt64: int := -0x8000_0000_0000_0000
  const MaxInt64: int := 0x7FFF_FFFF_FFFF_FFFF

  predicate IsDigit(c: char) {
    '0' <= c <= '9'
  }

  function DigitChar(d: int): (c: char)
    requires 0 <= d < 10
    ensures IsDigit(c) && c as int - '0' as int == d
  {
    ('0' as int + d) as char
  }

  /** The decimal digits of `n`, most significant first, without leading zeros. */
  function Digits(n: nat): (s: string)
    ensures s != [] && forall k :: 0 <= k < |s| ==> IsDigit(s[k])
    decreases n
  {
    if n < 10 then [DigitChar(n)] else Digits(n / 10) + [DigitChar(n % 10)]
  }

  function DigitValue(c: char): (d: nat)
    requires IsDigit(c)
    ensures d < 10 && DigitChar(d) == c
  {
    c as int - '0' as int
  }

  /** The number a run of decimal digits denotes. */
  function DigitsValue(s: string): nat
    requires forall k :: 0 <= k < |s| ==> IsDigit(s[k])
  {
    if s == [] then 0 else DigitsValue(s[..|s| - 1]) * 10 + DigitValue(s[|s| - 1])
  }

  /** `fmt.Sprintf("%d", n)` */
  function FormatInt(n: int): (s: string)
    ensures s != [] && (IsDigit(s[0]) || s[0] == '-')
    ensures forall k :: 0 < k < |s| ==> IsDigit(s[k])
  {
    if n < 0 then "-" + Digits(-n) else Digits(n)
  }

  function Signed(negative: bool, magnitude: nat): int {
    if negative then 0 - magnitude else magnitude as int
  }

  /** The length of the run of digits that starts `s`. */
  function DigitRun(s: string): (n: nat)
    ensures n <= |s|
    ensures forall k :: 0 <= k < n ==> IsDigit(s[k])
    ensures n < |s| ==> !IsDigit(s[n])
  {
    if s != [] && IsDigit(s[0]) then 1 + DigitRun(s[1..]) else 0
  }

  /** fmt's `SkipSpace` for `Sscanf`: skip white space, but stop at a newline,
      which `Sscanf` does not treat as a space. */
  function SkipSpace(s: string): (r: string)
    ensures |r| <= |s| && r == s[|s| - |r|..]
    ensures r == [] || r[0] == '\n' || !IsSpace(r[0])
  {
    if s != [] && s[0] != '\n' && IsSpace(s[0]) then SkipSpace(s[1..]) else s
  }

  /**
   * `fmt.Sscanf(s, "%d", &x)` with `x` an int64: skip leading spaces, take an
   * optional sign and then the longest run of decimal digits (anything after
   * it is ignored). `None` stands for the error Sscanf reports: end of input,
   * a newline, no digit, or a value outside the int64 range.
   */
  function ScanInt(s: string): (r: Option<int>)
    ensures r.Some? ==> MinInt64 <= r.value <= MaxInt64
  {
    ScanToken(SkipSpace(s))
  }

  /** The %d verb once the spaces are skipped. */
  function ScanToken(t: string): (r: Option<int>)
    ensures r.Some? ==> MinInt64 <= r.value <= MaxInt64
  {
    if t == [] || t[0] == '\n' then None
    else
      var negative := t[0] == '-';
      var u := if negative || t[0] == '+' then t[1..] else t;
      var n := DigitRun(u);
      if n == 0 then None else InInt64(Signed(negative, DigitsValue(u[..n])))
  }

  /** ParseInt's range check for a 64-bit result. */
  function InInt64(x: int): (r: Option<int>)
    ensures r.Some? ==> MinInt64 <= r.value <= MaxInt64
  {
    if MinInt64 <= x <= MaxInt64 then Some(x) else None
  }

  lemma {:induction false} DigitsValueOfDigits(n: nat)
    ensures DigitsValue(Digits(n)) == n
    decreases n
  {
    if n >= 10 {
      DigitsValueOfDigits(n / 10);
      var s := Digits(n);
      assert s[..|s| - 1] == Digits(n / 10);
    }
  }

  /** Scanning what `%d` printed gives the number back. */
  lemma {:induction false} ScanFormat(n: int)
    requires MinInt64 <= n <= MaxInt64
    ensures ScanInt(FormatInt(n)) == Some(n)
  {
    var m: nat := if n < 0 then -n else n;
    var d := Digits(m);
    DigitsValueOfDigits(m);
    assert Signed(n < 0, DigitsValue(d)) == n;
    assert FormatInt(n) == if n < 0 then "-" + d else d;
    ScanDigits(FormatInt(n), d, n < 0);
  }

  /** How `ScanInt` reads an optional minus sign followed by digits only. */
  lemma {:induction false} ScanDigits(s: string, d: string, negative: bool)
    requires d != [] && forall k :: 0 <= k < |d| ==> IsDigit(d[k])
    requires s == if negative then "-" + d else d
    requires MinInt64 <= Signed(negative, DigitsValue(d)) <= MaxInt64
    ensures ScanInt(s) == Some(Signed(negative, DigitsValue(d)))
  {
    if negative {
      ScanMinusDigits(d);
    } else {
      ScanPlainDigits(d);
    }
  }

  lemma ScanMinusDigits(d: string)
    requires d != [] && forall k :: 0 <= k < |d| ==> IsDigit(d[k])
    ensures ScanInt("-" + d) == InInt64(Signed(true, DigitsValue(d)))
  {
    var s := "-" + d;
    assert s[0] == '-' && s[1..] == d;
    DigitRunAll(d);
    SignIsNotSpace(s);
    ScanTokenOfRun(s, true, d);
  }

  lemma ScanPlainDigits(d: string)
    requires d != [] && forall k :: 0 <= k < |d| ==> IsDigit(d[k])
    ensures ScanInt(d) == InInt64(Signed(false, DigitsValue(d)))
  {
    assert IsDigit(d[0]);
    DigitRunAll(d);
    SignIsNotSpace(d);
    ScanTokenOfRun(d, false, d);
  }

  /** ScanToken on a token made of a sign and a run of digits only. */
  lemma ScanTokenOfRun(t: string, negative: bool, u: string)
    requires t != [] && t[0] != '\n' && (t[0] == '-') == negative
    requires u == if negative || t[0] == '+' then t[1..] else t
    requires u != [] && forall k :: 0 <= k < |u| ==> IsDigit(u[k])
    requires DigitRun(u) == |u|
    ensures ScanToken(t) == InInt64(Signed(negative, DigitsValue(u)))
  {
    assert u[..DigitRun(u)] == u;
  }

  /** A sign or a digit stops SkipSpace. */
  lemma SignIsNotSpace(s: string)
    requires s != [] && (s[0] == '-' || IsDigit(s[0]))
    ensures SkipSpace(s) == s
  {
    assert !IsSpace(s[0]);
  }

  lemma {:induction false} DigitRunAll(s: string)
    requires forall k :: 0 <= k < |s| ==> IsDigit(s[k])
    ensures DigitRun(s) == |s|
  {
    if s != [] {
      DigitRunAll(s[1..]);
    }
  }
}
