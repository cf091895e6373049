/**
 * String helpers the models share: prefixes, splitting at the first
 * occurrence of a separator, and the decimal text of integers as Python's
 * `str(int)` writes it and `int(str)` reads it (ASCII digits with an
 * optional sign).
 */
module Strings {
  import opened Wrappers

  predicate StartsWith(s: string, prefix: string)
  {
    |prefix| <= |s| && s[..|prefix|] == prefix
  }

  /** The position of the first `c` in `s`, or `|s|` when `s` holds none. */
  function FirstIndexOf(s: string, c: char): (k: nat)
    ensures k <= |s|
    ensures k < |s| ==> s[k] == c
    ensures forall j :: 0 <= j < k ==> s[j] != c
  {
    if s == [] then 0
    else if s[0] == c then 0
    else 1 + FirstIndexOf(s[1..], c)
  }

  /** Splits `s` around its first `c`: what precedes it and what follows it. */
  function SplitFirst(s: string, c: char): (r: Option<(string, string)>)
    ensures r.None? <==> c !in s
    ensures r.Some? ==> c !in r.value.0 && s == r.value.0 + [c] + r.value.1
  {
    var k := FirstIndexOf(s, c);
    if k == |s| then None else Some((s[..k], s[k + 1..]))
  }

  /** Joining two parts with a separator the first part lacks can be undone. */
  lemma SplitFirstJoin(a: string, c: char, b: string)
    requires c !in a
    ensures SplitFirst(a + [c] + b, c) == Some((a, b))
  {
    var s := a + [c] + b;
    assert s[|a|] == c;
    var k := FirstIndexOf(s, c);
    assert k == |a|;
    assert s[..k] == a;
    assert s[k + 1..] == b;
  }

  // ---------------------------------------------------------------------
  // Decimal text of integers

  predicate IsDigit(c: char)
  {
    '0' <= c <= '9'
  }

  predicate AllDigits(s: string)
  {
    forall k :: 0 <= k < |s| ==> IsDigit(s[k])
  }

  function DigitChar(d: nat): (c: char)
    requires d < 10
    ensures IsDigit(c)
  {
    ('0' as int + d) as char
  }

  function DigitValue(c: char): (d: nat)
    requires IsDigit(c)
    ensures d < 10 && DigitChar(d) == c
  {
    c as int - '0' as int
  }

  /** The shortest decimal text of `n`, most significant digit first. */
  function NatToDecimal(n: nat): (s: string)
    ensures |s| >= 1 && AllDigits(s)
  {
    if n < 10 then [DigitChar(n)] else NatToDecimal(n / 10) + [DigitChar(n % 10)]
  }

  /** The value of a digit string read in base ten. */
  function DecimalValue(s: string): nat
    requires AllDigits(s)
  {
    if s == [] then 0 else DecimalValue(s[..|s| - 1]) * 10 + DigitValue(s[|s| - 1])
  }

  lemma {:induction false} DecimalRoundTrip(n: nat)
    ensures DecimalValue(NatToDecimal(n)) == n
  {
    if n >= 10 {
      DecimalRoundTrip(n / 10);
      var s := NatToDecimal(n);
      assert s[..|s| - 1] == NatToDecimal(n / 10);
      assert DigitValue(DigitChar(n % 10)) == n % 10;
    } else {
      assert DigitValue(DigitChar(n)) == n;
    }
  }

  /** Python's `str(n)` for an integer `n`. */
  function IntToString(n: int): (s: string)
    ensures |s| >= 1
    ensures n >= 0 ==> AllDigits(s)
    ensures n < 0 ==> s[0] == '-' && AllDigits(s[1..])
  {
    if n < 0 then "-" + NatToDecimal(-n) else NatToDecimal(n)
  }

  /**
   * Python's `int(s)` for a string `s`: an optional sign followed by at least
   * one ASCII digit; any other text raises ValueError (here: None).
   */
  function ParseInt(s: string): (r: Option<int>)
    ensures r.Some? <==>
              (AllDigits(s) && |s| >= 1) ||
              (|s| >= 2 && (s[0] == '-' || s[0] == '+') && AllDigits(s[1..]))
  {
    if |s| >= 1 && (s[0] == '-' || s[0] == '+') then
      if |s| >= 2 && AllDigits(s[1..]) then
        Some(if s[0] == '-' then -(DecimalValue(s[1..]) as int) else DecimalValue(s[1..]))
      else None
    else if |s| >= 1 && AllDigits(s) then Some(DecimalValue(s))
    else None
  }

  /** `int(str(n)) == n`: the text Python writes for an integer reads back as it. */
  lemma ParseIntRoundTrip(n: int)
    ensures ParseInt(IntToString(n)) == Some(n)
  {
    var s := IntToString(n);
    if n < 0 {
      var d := NatToDecimal(-n);
      assert s == "-" + d;
      assert s[1..] == d && |s| >= 2 && s[0] == '-';
      DecimalRoundTrip(-n);
      assert ParseInt(s) == Some(-(DecimalValue(d) as int));
    } else {
      assert s == NatToDecimal(n);
      assert IsDigit(s[0]);
      DecimalRoundTrip(n);
      assert ParseInt(s) == Some(DecimalValue(s));
    }
  }
}
