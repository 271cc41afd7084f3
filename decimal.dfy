/**
 * Decimal text as Python writes and reads it: `str(n)` for a non-negative
 * integer, the value of a run of ASCII digits, and `".".join` / `split(".")`
 * for dotted text. Credentials and payment identifiers are built from these.
 */
module Decimal {

  predicate IsDigit(c: char) {
    '0' <= c <= '9'
  }

  function DigitValue(c: char): (d: nat)
    requires IsDigit(c)
    ensures d < 10
  {
    (c as int) - ('0' as int)
  }

  function DigitChar(d: nat): (c: char)
    requires d < 10
    ensures IsDigit(c) && DigitValue(c) == d
  {
    (('0' as int) + d) as char
  }

  predicate AllDigits(s: string) {
    forall i :: 0 <= i < |s| ==> IsDigit(s[i])
  }

  /** The value of a string of decimal digits, most significant digit first. */
  function Value(s: string): nat
    requires AllDigits(s)
  {
    if s == [] then 0 else Value(s[..|s| - 1]) * 10 + DigitValue(s[|s| - 1])
  }

  /** The form `str(n)` produces: non-empty digits, no leading zero unless the number is 0. */
  predicate IsCanonical(s: string) {
    |s| > 0 && AllDigits(s) && (s[0] == '0' ==> |s| == 1)
  }

  /** Python's `str(n)` for a non-negative integer `n`. */
  function Render(n: nat): (s: string)
    ensures IsCanonical(s)
    ensures s[0] == '0' <==> n == 0
  {
    if n < 10 then [DigitChar(n)] else Render(n / 10) + [DigitChar(n % 10)]
  }

  /** Reading back what `Render` wrote gives the number again. */
  lemma {:induction false} ValueOfRender(n: nat)
    ensures Value(Render(n)) == n
  {
    if n >= 10 {
      var s := Render(n);
      assert s[..|s| - 1] == Render(n / 10);
      ValueOfRender(n / 10);
    }
  }

  /** A digit string with a non-zero leading digit has a positive value. */
  lemma {:induction false} LeadingDigitPositive(s: string)
    requires |s| > 0 && AllDigits(s) && s[0] != '0'
    ensures Value(s) > 0
  {
    if |s| > 1 {
      LeadingDigitPositive(s[..|s| - 1]);
    }
  }

  /** Conversely, every canonical digit string is what `Render` writes for its value. */
  lemma {:induction false} RenderOfValue(s: string)
    requires IsCanonical(s)
    ensures Render(Value(s)) == s
  {
    if |s| > 1 {
      var p := s[..|s| - 1];
      LeadingDigitPositive(p);
      RenderOfValue(p);
      assert Value(s) / 10 == Value(p);
    }
  }

  /** The value of a non-empty digit string needs no more digits than the string has. */
  lemma {:induction false} RenderOfValueLength(s: string)
    requires |s| > 0 && AllDigits(s)
    ensures |Render(Value(s))| <= |s|
  {
    if |s| > 1 {
      var p := s[..|s| - 1];
      RenderOfValueLength(p);
      assert Value(s) / 10 == Value(p);
    }
  }

  /** `s` is the decimal rendering of a number in [lo, hi]. */
  predicate IsDecimalIn(s: string, lo: nat, hi: nat) {
    IsCanonical(s) && lo <= Value(s) <= hi
  }

  /** `s` is `prefix` followed by the decimal rendering of a number in [lo, hi]. */
  predicate HasNumberedSuffix(s: string, prefix: string, lo: nat, hi: nat) {
    |prefix| <= |s| && s[..|prefix|] == prefix && IsDecimalIn(s[|prefix|..], lo, hi)
  }

  lemma RenderedSuffix(prefix: string, n: nat, lo: nat, hi: nat)
    requires lo <= n <= hi
    ensures HasNumberedSuffix(prefix + Render(n), prefix, lo, hi)
  {
    var s := prefix + Render(n);
    assert s[..|prefix|] == prefix;
    assert s[|prefix|..] == Render(n);
    ValueOfRender(n);
  }

  /** Python's `".".join(parts)`. */
  function JoinDots(parts: seq<string>): string {
    if |parts| == 0 then ""
    else if |parts| == 1 then parts[0]
    else parts[0] + "." + JoinDots(parts[1..])
  }

  /** Python's `s.split(".")`: always at least one part. */
  function SplitDots(s: string): (parts: seq<string>)
    ensures |parts| >= 1
  {
    if s == [] then [""]
    else
      var rest := SplitDots(s[1..]);
      if s[0] == '.' then [""] + rest else [[s[0]] + rest[0]] + rest[1..]
  }

  /** A part without dots glues onto the first part of whatever follows it. */
  lemma {:induction false} SplitDotFree(p: string, t: string)
    requires '.' !in p
    ensures SplitDots(p + t) == [p + SplitDots(t)[0]] + SplitDots(t)[1..]
  {
    if p != [] {
      var rest := SplitDots(t);
      assert (p + t)[0] == p[0] && p[0] != '.';
      assert (p + t)[1..] == p[1..] + t;
      SplitDotFree(p[1..], t);
      assert [p[0]] + (p[1..] + rest[0]) == p + rest[0];
    } else {
      var rest := SplitDots(t);
      assert p + t == t && p + rest[0] == rest[0];
      assert [rest[0]] + rest[1..] == rest;
    }
  }

  /** Splitting on dots undoes joining on dots, when no part holds a dot. */
  lemma {:induction false} SplitJoin(parts: seq<string>)
    requires |parts| >= 1
    requires forall i :: 0 <= i < |parts| ==> '.' !in parts[i]
    ensures SplitDots(JoinDots(parts)) == parts
  {
    if |parts| == 1 {
      SplitDotFree(parts[0], "");
      assert parts[0] + "" == parts[0];
    } else {
      var rest := JoinDots(parts[1..]);
      assert JoinDots(parts) == parts[0] + ("." + rest);
      SplitDotFree(parts[0], "." + rest);
      assert ("." + rest)[1..] == rest;
      SplitJoin(parts[1..]);
      assert SplitDots("." + rest) == [""] + parts[1..];
      assert parts[0] + "" == parts[0];
      assert [parts[0]] + parts[1..] == parts;
    }
  }

  lemma DigitsHaveNoDot(s: string)
    requires AllDigits(s)
    ensures '.' !in s
  {
  }
}
