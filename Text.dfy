/**
 * The few pieces of the Kotlin/Java library that the media source relies on:
 * fixed-width integers, their decimal `toString`, string templates of
 * nullable values, `lastIndexOf` and the throwing `substring`.
 * A decimal parser is the reference inverse of `toString`.
 */
module Text {
  import opened Wrappers

  /** Kotlin `Int`. */
  type Int32 = x: int | -0x8000_0000 <= x < 0x8000_0000
  /** Kotlin `Long`. */
  type Int64 = x: int | -0x8000_0000_0000_0000 <= x < 0x8000_0000_0000_0000

  /** Thrown by `String.substring` when an index is out of range. */
  datatype StringIndexOutOfBounds = StringIndexOutOfBounds

  predicate IsDigit(c: char) { '0' <= c <= '9' }

  predicate AllDigits(s: string) {
    forall i :: 0 <= i < |s| ==> IsDigit(s[i])
  }

  /** The text `Long.toString` and `Int.toString` may produce: an optional '-' and at least one digit. */
  predicate IsDecimal(s: string) {
    (|s| >= 1 && AllDigits(s)) || (|s| >= 2 && s[0] == '-' && AllDigits(s[1..]))
  }

  /**
   * The text `toString` produces, with nothing padded: no leading zero except
   * in "0" itself, and no "-0".
   */
  predicate IsCanonicalDecimal(s: string) {
    && IsDecimal(s)
    && (s[0] == '0' ==> |s| == 1)
    && (s[0] == '-' ==> s[1] != '0')
  }

  function DigitChar(d: nat): (c: char)
    requires d < 10
    ensures IsDigit(c)
  {
    ('0' as int + d) as char
  }

  function DigitValue(c: char): (d: nat)
    requires IsDigit(c)
    ensures d < 10
  {
    c as int - '0' as int
  }

  /** Decimal digits of `n`, most significant first, with no leading zero. */
  function NatToString(n: nat): (s: string)
    ensures |s| >= 1 && AllDigits(s)
    ensures s[0] == '0' ==> n == 0
  {
    if n < 10 then [DigitChar(n)] else NatToString(n / 10) + [DigitChar(n % 10)]
  }

  /** `toString` of an `Int` or a `Long`: a '-' for negatives, then the digits of the magnitude. */
  function IntToString(i: int): (s: string)
    ensures IsDecimal(s) && IsCanonicalDecimal(s)
    ensures (s[0] == '-') == (i < 0)
    ensures i >= 0 && s[0] == '0' ==> i == 0
    ensures i < 0 ==> s[1] != '0'
  {
    if i < 0 then "-" + NatToString(-i) else NatToString(i)
  }

  function ParseNat(s: string): nat
    requires AllDigits(s)
  {
    if s == [] then 0 else ParseNat(s[..|s| - 1]) * 10 + DigitValue(s[|s| - 1])
  }

  /** The decimal reading of `s`, or `None` when `s` is not decimal text. */
  function ParseInt(s: string): (r: Option<int>)
    ensures r.Some? <==> IsDecimal(s)
  {
    if |s| >= 2 && s[0] == '-' && AllDigits(s[1..]) then Some(0 - ParseNat(s[1..]))
    else if |s| >= 1 && AllDigits(s) then Some(ParseNat(s))
    else None
  }

  lemma {:induction false} ParseNatToString(n: nat)
    ensures ParseNat(NatToString(n)) == n
  {
    if n >= 10 {
      var s := NatToString(n / 10);
      var t := s + [DigitChar(n % 10)];
      assert t[..|t| - 1] == s;
      ParseNatToString(n / 10);
    }
  }

  /** `toString` loses nothing: the decimal text reads back as the number. */
  lemma IntToStringRoundTrip(i: int)
    ensures ParseInt(IntToString(i)) == Some(i)
  {
    var s := IntToString(i);
    if i < 0 {
      assert s[1..] == NatToString(-i);
      ParseNatToString(-i);
    } else {
      ParseNatToString(i);
    }
  }

  /** A digit string with a non-zero first digit reads as a positive number. */
  lemma {:induction false} ParseNatPositive(s: string)
    requires |s| >= 1 && AllDigits(s) && s[0] != '0'
    ensures ParseNat(s) >= 1
  {
    if |s| > 1 {
      ParseNatPositive(s[..|s| - 1]);
    }
  }

  /** The digits of the number a digit string without leading zero reads as are that string. */
  lemma {:induction false} NatToStringParse(s: string)
    requires |s| >= 1 && AllDigits(s) && (s[0] == '0' ==> |s| == 1)
    ensures NatToString(ParseNat(s)) == s
  {
    var last := s[|s| - 1];
    if |s| == 1 {
      assert s[..0] == [];
      assert s == [last];
    } else {
      var p := s[..|s| - 1];
      ParseNatPositive(p);
      NatToStringParse(p);
      var n := ParseNat(s);
      assert n == ParseNat(p) * 10 + DigitValue(last);
      assert n / 10 == ParseNat(p) && n % 10 == DigitValue(last);
      assert DigitChar(n % 10) == last;
      assert s == p + [last];
    }
  }

  /**
   * The other direction of the round trip: canonical decimal text is exactly
   * what `toString` gives for the number it reads as.
   */
  lemma ParseIntCanonical(s: string)
    requires IsCanonicalDecimal(s)
    ensures ParseInt(s).Some? && IntToString(ParseInt(s).value) == s
  {
    if s[0] == '-' {
      var t := s[1..];
      ParseNatPositive(t);
      NatToStringParse(t);
      assert s == "-" + t;
    } else {
      NatToStringParse(s);
    }
  }

  /** Decimal text holds neither a path separator nor a space. */
  lemma DecimalHasNoSeparator(s: string)
    requires IsDecimal(s)
    ensures '/' !in s && ' ' !in s
  {
    if '/' in s || ' ' in s {
      var k :| 0 <= k < |s| && (s[k] == '/' || s[k] == ' ');
    }
  }

  /** A Kotlin string template `"$x"` of a `String?`: `null` is rendered as the text "null". */
  function Render(x: Option<string>): string {
    if x.Some? then x.value else "null"
  }

  /** `String.indexOf(c)`: the first position of `c`, or -1. */
  function IndexOf(s: string, c: char): (r: int)
    ensures -1 <= r < |s|
    ensures r == -1 <==> c !in s
    ensures r >= 0 ==> s[r] == c && forall j :: 0 <= j < r ==> s[j] != c
  {
    if |s| == 0 then -1
    else if s[0] == c then 0
    else
      var k := IndexOf(s[1..], c);
      if k < 0 then -1 else k + 1
  }

  /** `String.lastIndexOf(c)`: the last position of `c`, or -1. */
  function LastIndexOf(s: string, c: char): (r: int)
    ensures -1 <= r < |s|
    ensures r == -1 <==> c !in s
    ensures r >= 0 ==> s[r] == c && forall j :: r < j < |s| ==> s[j] != c
  {
    if |s| == 0 then -1
    else if s[|s| - 1] == c then |s| - 1
    else LastIndexOf(s[..|s| - 1], c)
  }

  /** The first occurrence of `c` in `a + [c] + b` is the one after `a`. */
  lemma IndexOfJoin(a: string, c: char, b: string)
    requires c !in a
    ensures IndexOf(a + [c] + b, c) == |a|
  {
    var s := a + [c] + b;
    assert s[|a|] == c;
  }

  /** The last occurrence of `c` in `a + [c] + b` is the one before `b`. */
  lemma LastIndexOfJoin(a: string, c: char, b: string)
    requires c !in b
    ensures LastIndexOf(a + [c] + b, c) == |a|
  {
    var s := a + [c] + b;
    assert s[|a|] == c;
  }

  /** `s.substring(begin, end)`, which throws unless `0 <= begin <= end <= s.length`. */
  function Substring(s: string, begin: int, end: int): (r: Result<string, StringIndexOutOfBounds>)
    ensures r.Success? <==> 0 <= begin <= end <= |s|
    ensures r.Success? ==>
              |r.value| == end - begin && forall i :: 0 <= i < end - begin ==> r.value[i] == s[begin + i]
  {
    if 0 <= begin <= end <= |s| then Success(s[begin..end])
    else Failure(StringIndexOutOfBounds)
  }
}
