/**
 * The quantity a purchase request asks for: the optional `quantity`
 * query parameter, read with Python's `int()` and clamped to [1, 20].
 */
module Quantity {
  import opened Options
  import opened Decimal

  const MinQuantity: int := 1
  const MaxQuantity: int := 20

  /** `max(1, min(20, q))`. */
  function Clamp(q: int): (r: int)
    ensures MinQuantity <= r <= MaxQuantity
    ensures MinQuantity <= q <= MaxQuantity ==> r == q
    ensures q > MaxQuantity ==> r == MaxQuantity
    ensures q < MinQuantity ==> r == MinQuantity
  {
    var upper := if q < MaxQuantity then q else MaxQuantity;
    if MinQuantity > upper then MinQuantity else upper
  }

  /** The ASCII characters Python's `int()` skips around a number: space and `\t` to `\r`. */
  predicate IsSpace(c: char) {
    c == ' ' || '\t' <= c <= '\r'
  }

  /**
   * Since Python 3.11, `int()` refuses decimal text of more than this many
   * digits (the default of `sys.get_int_max_str_digits()`); leading zeros
   * count, underscores do not.
   */
  const MaxStrDigits: nat := 4300

  function Magnitude(n: int): nat {
    if n < 0 then -n else n
  }

  function TrimLeft(s: string): (t: string)
    ensures |t| <= |s|
    ensures t != [] ==> !IsSpace(t[0])
  {
    if s != [] && IsSpace(s[0]) then TrimLeft(s[1..]) else s
  }

  function TrimRight(s: string): (t: string)
    ensures |t| <= |s|
    ensures t != [] ==> !IsSpace(t[|t| - 1])
  {
    if s != [] && IsSpace(s[|s| - 1]) then TrimRight(s[..|s| - 1]) else s
  }

  function Strip(s: string): string {
    TrimRight(TrimLeft(s))
  }

  /** Digits, possibly with single underscores between two digits, as `int()` accepts them. */
  predicate IsDigitGroups(b: string) {
    && |b| > 0 && IsDigit(b[0])
    && DigitsOrUnderscores(b)
    && forall i :: 0 <= i < |b| && b[i] == '_' ==> i + 1 < |b| && IsDigit(b[i + 1])
  }

  predicate DigitsOrUnderscores(b: string) {
    forall i :: 0 <= i < |b| ==> IsDigit(b[i]) || b[i] == '_'
  }

  function DropUnderscores(b: string): (d: string)
    requires DigitsOrUnderscores(b)
    ensures AllDigits(d)
    ensures b != [] && b[0] != '_' ==> |d| > 0
  {
    if b == [] then []
    else (if b[0] == '_' then [] else [b[0]]) + DropUnderscores(b[1..])
  }

  /**
   * A digit-group body and its value; `None` for any other text and for
   * more than `MaxStrDigits` digits, so a parsed value never has more
   * digits than that.
   */
  function ParseGroups(b: string): (r: Option<nat>)
    ensures r.Some? ==> |Render(r.value)| <= MaxStrDigits
  {
    if IsDigitGroups(b) && |DropUnderscores(b)| <= MaxStrDigits then
      RenderOfValueLength(DropUnderscores(b));
      Some(Value(DropUnderscores(b)))
    else None
  }

  /** An optional sign followed by a digit-group body. */
  function ParseSigned(t: string): (r: Option<int>)
    ensures r.Some? ==> |Render(Magnitude(r.value))| <= MaxStrDigits
  {
    if |t| > 0 && t[0] == '-' then
      match ParseGroups(t[1..])
      case None => None
      case Some(v) => Some(-(v as int))
    else if |t| > 0 && t[0] == '+' then
      match ParseGroups(t[1..])
      case None => None
      case Some(v) => Some(v as int)
    else
      match ParseGroups(t)
      case None => None
      case Some(v) => Some(v as int)
  }

  /**
   * Python's `int(s)` on a string, base 10: `None` where it raises
   * `ValueError`. A number it returns has at most `MaxStrDigits` digits.
   */
  function ParseInt(s: string): (r: Option<int>)
    ensures r.Some? ==> |Render(Magnitude(r.value))| <= MaxStrDigits
  {
    ParseSigned(Strip(s))
  }

  /** Python's `"_".join(runs)`. */
  function JoinUnderscores(runs: seq<string>): string {
    if |runs| == 0 then ""
    else if |runs| == 1 then runs[0]
    else runs[0] + "_" + JoinUnderscores(runs[1..])
  }

  /** Python's `"".join(runs)`. */
  function Concat(runs: seq<string>): (s: string)
    ensures (forall i :: 0 <= i < |runs| ==> AllDigits(runs[i])) ==> AllDigits(s)
  {
    if runs == [] then ""
    else
      assert forall i :: 0 <= i < |runs| - 1 ==> runs[1..][i] == runs[i + 1];
      runs[0] + Concat(runs[1..])
  }

  /** One or more non-empty runs of digits. */
  predicate DigitRuns(runs: seq<string>) {
    |runs| >= 1 && forall i :: 0 <= i < |runs| ==> |runs[i]| > 0 && AllDigits(runs[i])
  }

  lemma {:induction false} DropUnderscoresAppend(x: string, y: string)
    requires DigitsOrUnderscores(x) && DigitsOrUnderscores(y)
    ensures DigitsOrUnderscores(x + y)
    ensures DropUnderscores(x + y) == DropUnderscores(x) + DropUnderscores(y)
  {
    if x != [] {
      assert (x + y)[0] == x[0];
      assert (x + y)[1..] == x[1..] + y;
      DropUnderscoresAppend(x[1..], y);
    } else {
      assert x + y == y;
    }
  }

  lemma {:induction false} DropUnderscoresOfDigits(s: string)
    requires AllDigits(s)
    ensures DropUnderscores(s) == s
  {
    if s != [] {
      assert s[0] != '_';
      DropUnderscoresOfDigits(s[1..]);
      assert [s[0]] + s[1..] == s;
    }
  }

  /**
   * `"_".join` of non-empty digit runs is a body `int()` accepts, and its
   * digits are the runs written one after another.
   */
  lemma {:induction false} JoinedRunsAreGroups(runs: seq<string>)
    requires DigitRuns(runs)
    ensures IsDigitGroups(JoinUnderscores(runs))
    ensures DropUnderscores(JoinUnderscores(runs)) == Concat(runs)
  {
    var r := runs[0];
    DropUnderscoresOfDigits(r);
    if |runs| == 1 {
      assert Concat(runs) == r + "";
      assert r + "" == r;
    } else {
      var tail := runs[1..];
      assert DigitRuns(tail) by {
        assert forall i :: 0 <= i < |tail| ==> tail[i] == runs[i + 1];
      }
      JoinedRunsAreGroups(tail);
      var j := JoinUnderscores(tail);
      var b := r + "_" + j;
      assert JoinUnderscores(runs) == b;
      DropUnderscoresAppend(r, "_");
      DropUnderscoresAppend(r + "_", j);
      assert DropUnderscores("_") == [];
      assert b[0] == r[0];
      forall i | 0 <= i < |b| && b[i] == '_'
        ensures i + 1 < |b| && IsDigit(b[i + 1])
      {
        if i == |r| {
          assert b[i + 1] == j[0];
        } else {
          assert i > |r|;
          assert b[i] == j[i - |r| - 1];
          assert b[i + 1] == j[i - |r|];
        }
      }
      assert r + [] == r;
    }
  }

  /** What follows the first digit, or the first digit and an underscore, of an accepted body is accepted. */
  lemma GroupsAfter(b: string, k: nat)
    requires IsDigitGroups(b) && 1 <= k < |b| && IsDigit(b[k]) && (k == 2 ==> b[1] == '_') && k <= 2
    ensures IsDigitGroups(b[k..])
  {
    var t := b[k..];
    assert forall i :: 0 <= i < |t| ==> t[i] == b[i + k];
  }

  lemma JoinCons(x: string, rest: seq<string>)
    requires |rest| >= 1
    ensures JoinUnderscores([x] + rest) == x + "_" + JoinUnderscores(rest)
  {
    assert ([x] + rest)[1..] == rest;
  }

  /** Gluing a character onto the first run puts it in front of the join. */
  lemma {:induction false} JoinGlue(c: char, rest: seq<string>)
    requires |rest| >= 1
    ensures JoinUnderscores([[c] + rest[0]] + rest[1..]) == [c] + JoinUnderscores(rest)
  {
    var first := [c] + rest[0];
    var runs := [first] + rest[1..];
    if |rest| == 1 {
      assert runs == [first];
    } else {
      var j := JoinUnderscores(rest[1..]);
      assert runs[0] == first && runs[1..] == rest[1..];
      assert JoinUnderscores(runs) == first + "_" + j;
      assert JoinUnderscores(rest) == rest[0] + "_" + j;
      assert first + "_" + j == [c] + (rest[0] + "_" + j);
    }
  }

  /** The digit runs of an accepted body, in order. */
  function RunsOf(b: string): (runs: seq<string>)
    requires IsDigitGroups(b)
    ensures DigitRuns(runs) && JoinUnderscores(runs) == b
    decreases |b|
  {
    if |b| == 1 then [b]
    else if b[1] == '_' then
      GroupsAfter(b, 2);
      var rest := RunsOf(b[2..]);
      JoinCons(b[..1], rest);
      assert b[..1] + "_" + b[2..] == b;
      [b[..1]] + rest
    else
      GroupsAfter(b, 1);
      var rest := RunsOf(b[1..]);
      JoinGlue(b[0], rest);
      assert [b[0]] + b[1..] == b;
      [[b[0]] + rest[0]] + rest[1..]
  }

  /**
   * The bodies `int()` accepts are exactly the `"_".join` of one or more
   * non-empty digit runs; the value is that of the runs written together,
   * and text of more than `MaxStrDigits` digits is refused.
   */
  lemma ParseGroupsOfRuns(runs: seq<string>)
    requires DigitRuns(runs)
    ensures ParseGroups(JoinUnderscores(runs)) ==
            if |Concat(runs)| <= MaxStrDigits then Some(Value(Concat(runs))) else None
  {
    JoinedRunsAreGroups(runs);
  }

  /** Conversely, every accepted body is such a join, valued as its runs written together. */
  lemma ParseGroupsAccepted(b: string)
    requires ParseGroups(b).Some?
    ensures exists runs :: DigitRuns(runs) && JoinUnderscores(runs) == b &&
                           ParseGroups(b) == Some(Value(Concat(runs)))
  {
    var runs := RunsOf(b);
    JoinedRunsAreGroups(runs);
  }

  /** Python's `str(n)` for any integer. */
  function IntRender(n: int): string {
    if n < 0 then "-" + Render(-n) else Render(n)
  }

  /** No text is stripped from a string that starts and ends with something other than space. */
  lemma StripUnspaced(s: string)
    requires s != [] && !IsSpace(s[0]) && !IsSpace(s[|s| - 1])
    ensures Strip(s) == s
  {
  }

  /** A canonical digit string within the digit limit is a digit-group body with the same value. */
  lemma ParseGroupsOfDigits(digits: string)
    requires IsCanonical(digits) && |digits| <= MaxStrDigits
    ensures ParseGroups(digits) == Some(Value(digits))
  {
    assert IsDigit(digits[0]);
    assert IsDigitGroups(digits);
    DropUnderscoresOfDigits(digits);
  }

  /** A canonical digit string within the digit limit is read as its value. */
  lemma ParseIntOfDigits(digits: string)
    requires IsCanonical(digits) && |digits| <= MaxStrDigits
    ensures ParseInt(digits) == Some(Value(digits))
  {
    StripUnspaced(digits);
    ParseGroupsOfDigits(digits);
    assert IsDigit(digits[0]);
  }

  /** A minus sign before a canonical digit string negates its value. */
  lemma ParseIntOfNegated(s: string)
    requires |s| > 1 && s[0] == '-' && IsCanonical(s[1..]) && |s| - 1 <= MaxStrDigits
    ensures ParseInt(s) == Some(-(Value(s[1..]) as int))
  {
    assert s[|s| - 1] == s[1..][|s| - 2];
    StripUnspaced(s);
    ParseGroupsOfDigits(s[1..]);
  }

  lemma ParseIntOfNatural(n: nat)
    requires |Render(n)| <= MaxStrDigits
    ensures ParseInt(Render(n)) == Some(n)
  {
    ValueOfRender(n);
    ParseIntOfDigits(Render(n));
  }

  lemma ParseIntOfNegative(n: int, s: string)
    requires n < 0 && |s| > 1 && s[0] == '-' && s[1..] == Render(-n) && |s| - 1 <= MaxStrDigits
    ensures ParseInt(s) == Some(n)
  {
    ValueOfRender(-n);
    ParseIntOfNegated(s);
  }

  /**
   * `int(str(n)) == n`: reading back an integer's decimal text gives the
   * integer, for every integer of at most `MaxStrDigits` digits (beyond
   * that Python refuses to write or read the text).
   */
  lemma ParseIntOfRender(n: int)
    requires |Render(Magnitude(n))| <= MaxStrDigits
    ensures ParseInt(IntRender(n)) == Some(n)
  {
    if n < 0 {
      var s := IntRender(n);
      assert s[0] == '-' && s[1..] == Render(-n);
      ParseIntOfNegative(n, s);
    } else {
      ParseIntOfNatural(n);
    }
  }

  /** The quantity `create_payment` stores for an optional query parameter. */
  function QuantityOf(arg: Option<string>): (q: int)
    ensures MinQuantity <= q <= MaxQuantity
    ensures arg.None? ==> q == 1
    ensures arg.Some? && ParseInt(arg.value).None? ==> q == 1
    ensures arg.Some? && ParseInt(arg.value).Some? ==> q == Clamp(ParseInt(arg.value).value)
  {
    var text := if arg.Some? then arg.value else "1";
    ParseIntOfRender(1);
    match ParseInt(text)
    case None => 1
    case Some(n) => Clamp(n)
  }

  /**
   * A request for `str(n)` items stores exactly n when 1 <= n <= 20,
   * 20 above that and 1 below.
   */
  lemma QuantityOfRequest(n: int)
    requires |Render(Magnitude(n))| <= MaxStrDigits
    ensures QuantityOf(Some(IntRender(n))) == Clamp(n)
    ensures MinQuantity <= n <= MaxQuantity ==> QuantityOf(Some(IntRender(n))) == n
    ensures n > MaxQuantity ==> QuantityOf(Some(IntRender(n))) == MaxQuantity
    ensures n < MinQuantity ==> QuantityOf(Some(IntRender(n))) == MinQuantity
  {
    ParseIntOfRender(n);
  }

  /** A run of more than `MaxStrDigits` digits makes `int()` raise, so the stored quantity is 1. */
  lemma QuantityOfOverlong(s: string)
    requires AllDigits(s) && |s| > MaxStrDigits
    ensures QuantityOf(Some(s)) == 1
  {
    StripUnspaced(s);
    DropUnderscoresOfDigits(s);
  }
}
