/** The decimal grammar of stock quantities, and the integers in thousandths it stands for. */
module Quantity {
  import opened Ledger

  predicate IsDigit(c: char) {
    '0' <= c <= '9'
  }

  predicate AllDigits(s: string) {
    forall n :: 0 <= n < |s| ==> IsDigit(s[n])
  }

  /** `0|[1-9]\d{0,14}` */
  predicate IsWhole(s: string) {
    1 <= |s| <= 15 && AllDigits(s) && (s[0] == '0' ==> |s| == 1)
  }

  /** `\d{1,3}` */
  predicate IsFraction(s: string) {
    1 <= |s| <= 3 && AllDigits(s)
  }

  /** UNSIGNED_STOCK_DECIMAL_PATTERN, read as a grammar. */
  ghost predicate IsUnsigned(s: string) {
    IsWhole(s) || exists whole, fraction :: IsWhole(whole) && IsFraction(fraction) && s == whole + "." + fraction
  }

  /** SIGNED_STOCK_DECIMAL_PATTERN. */
  ghost predicate IsSigned(s: string) {
    IsUnsigned(s) || (s != [] && s[0] == '-' && IsUnsigned(s[1..]))
  }

  // ---------------------------------------------------------------- value

  function Pow10(n: nat): (p: nat)
    ensures p > 0
  {
    if n == 0 then 1 else 10 * Pow10(n - 1)
  }

  function Number(s: string): (v: nat)
    requires AllDigits(s)
    ensures v < Pow10(|s|)
  {
    if s == [] then 0 else 10 * Number(s[..|s| - 1]) + (s[|s| - 1] as int - '0' as int)
  }

  /** Position of the first decimal point, or the length. */
  function Point(s: string): (n: nat)
    ensures n <= |s| && (n < |s| ==> s[n] == '.') && forall m :: 0 <= m < n ==> s[m] != '.'
  {
    if s == [] || s[0] == '.' then 0 else 1 + Point(s[1..])
  }

  /** The value in thousandths of a string in the unsigned pattern; `None` for any other string. */
  function Thousandths(s: string): Option<nat> {
    var n := Point(s);
    if !IsWhole(s[..n]) then None
    else if n == |s| then Some(1_000 * Number(s[..n]))
    else if !IsFraction(s[n + 1..]) then None
    else Some(1_000 * Number(s[..n]) + Pow10(3 - (|s| - n - 1)) * Number(s[n + 1..]))
  }

  function SignedThousandths(s: string): Option<int> {
    if s != [] && s[0] == '-' then
      match Thousandths(s[1..])
      case None => None
      case Some(v) => Some(-(v as int))
    else
      match Thousandths(s)
      case None => None
      case Some(v) => Some(v)
  }

  /** The parser takes exactly the strings of the pattern. */
  lemma ParsesPattern(s: string)
    ensures Thousandths(s).Some? <==> IsUnsigned(s)
  {
    var n := Point(s);
    if Thousandths(s).Some? {
      if n < |s| {
        assert s == s[..n] + "." + s[n + 1..];
      } else {
        assert s[..n] == s;
      }
    }
    if IsWhole(s) {
      assert n == |s|;
      assert s[..n] == s;
    } else if IsUnsigned(s) {
      var whole, fraction :| IsWhole(whole) && IsFraction(fraction) && s == whole + "." + fraction;
      assert s[|whole|] == '.' && s[..|whole|] == whole && s[|whole| + 1..] == fraction;
      assert n == |whole| by {
        assert forall m :: 0 <= m < |whole| ==> s[m] == whole[m];
      }
    }
  }

  /** The value of a digit is its position among the digits. */
  lemma DigitValue(s: string, c: char, d: nat)
    requires AllDigits(s) && d < 10 && c == "0123456789"[d]
    ensures AllDigits(s + [c]) && Number(s + [c]) == 10 * Number(s) + d && Number("") == 0
  {
    assert (s + [c])[..|s|] == s;
  }

  lemma ValueOfWhole(whole: string)
    requires IsWhole(whole)
    ensures Thousandths(whole) == Some(1_000 * Number(whole))
  {
    assert forall m :: 0 <= m < |whole| ==> whole[m] != '.';
    assert Point(whole) == |whole| && whole[..|whole|] == whole;
  }

  lemma OneDecimal(s: string, n: nat)
    requires n == Point(s) && |s| == n + 2 && IsWhole(s[..n]) && IsFraction(s[n + 1..])
    ensures Thousandths(s) == Some(1_000 * Number(s[..n]) + 100 * Number(s[n + 1..]))
  {
    assert Pow10(0) == 1 && Pow10(1) == 10;
    assert Pow10(3 - (|s| - n - 1)) == 100;
  }

  lemma TwoDecimals(s: string, n: nat)
    requires n == Point(s) && |s| == n + 3 && IsWhole(s[..n]) && IsFraction(s[n + 1..])
    ensures Thousandths(s) == Some(1_000 * Number(s[..n]) + 10 * Number(s[n + 1..]))
  {
    assert Pow10(0) == 1;
    assert Pow10(3 - (|s| - n - 1)) == 10;
  }

  /** One decimal counts hundreds of thousandths. */
  lemma ReadsOneDecimal(whole: string, fraction: string)
    requires IsWhole(whole) && IsFraction(fraction) && |fraction| == 1
    ensures Thousandths(whole + "." + fraction) == Some(1_000 * Number(whole) + 100 * Number(fraction))
  {
    PointAfterWhole(whole, fraction);
    Parts(whole, fraction);
    OneDecimal(whole + "." + fraction, |whole|);
  }

  /** Two decimals count tens of thousandths. */
  lemma ReadsTwoDecimals(whole: string, fraction: string)
    requires IsWhole(whole) && IsFraction(fraction) && |fraction| == 2
    ensures Thousandths(whole + "." + fraction) == Some(1_000 * Number(whole) + 10 * Number(fraction))
  {
    PointAfterWhole(whole, fraction);
    Parts(whole, fraction);
    TwoDecimals(whole + "." + fraction, |whole|);
  }

  /** A minus sign negates, and nothing else does. */
  lemma ValueOfSigned(s: string)
    requires Thousandths(s).Some?
    ensures SignedThousandths(s) == Some(Thousandths(s).value)
    ensures SignedThousandths("-" + s) == Some(-(Thousandths(s).value as int))
  {
    assert ("-" + s)[1..] == s;
    assert s != [] && IsDigit(s[0]) by {
      assert s[..Point(s)][0] == s[0];
    }
  }

  lemma {:induction false} Pow10Grows(a: nat, b: nat)
    requires a <= b
    ensures Pow10(a) <= Pow10(b)
    decreases b
  {
    if a < b {
      Pow10Grows(a, b - 1);
    }
  }

  lemma {:induction false} Pow10Adds(a: nat, b: nat)
    ensures Pow10(a + b) == Pow10(a) * Pow10(b)
    decreases a
  {
    if a > 0 {
      Pow10Adds(a - 1, b);
    }
  }

  /** Fifteen digits of a whole number stay below 10^15. */
  lemma WholeLimit()
    ensures Pow10(15) == 1_000_000_000_000_000
  {
    assert Pow10(3) == 1_000;
    Pow10Adds(3, 3);
    Pow10Adds(6, 6);
    Pow10Adds(12, 3);
  }

  /** Whatever passes the pattern fits the column: below 10^18 thousandths. */
  lemma FitsColumn(s: string)
    requires Thousandths(s).Some?
    ensures Thousandths(s).value < COLUMN_LIMIT
  {
    var n := Point(s);
    Pow10Grows(n, 15);
    WholeLimit();
    if n < |s| {
      var digits := |s| - n - 1;
      Pow10Adds(3 - digits, digits);
      assert Pow10(3) == 1_000;
      FractionBelowOne(Pow10(3 - digits), Number(s[n + 1..]), Pow10(digits));
    }
  }

  lemma FractionBelowOne(unit: nat, part: nat, whole: nat)
    requires unit > 0 && part < whole
    ensures unit * part < unit * whole
  {
  }

  // ---------------------------------------------------------------- every quantity has a notation

  function Digit(n: nat): (c: char)
    requires n < 10
    ensures IsDigit(c) && c as int - '0' as int == n
  {
    ('0' as int + n) as char
  }

  function RenderWhole(n: nat): (s: string)
    ensures s != [] && AllDigits(s) && Number(s) == n
    ensures s[0] == '0' ==> n == 0 && |s| == 1
  {
    if n < 10 then
      assert Number([]) == 0;
      assert [Digit(n)][..0] == [];
      [Digit(n)]
    else
      var front := RenderWhole(n / 10);
      assert (front + [Digit(n % 10)])[..|front|] == front;
      front + [Digit(n % 10)]
  }

  lemma {:induction false} RenderLength(n: nat, k: nat)
    requires n < Pow10(k) && k > 0
    ensures |RenderWhole(n)| <= k
    decreases k
  {
    if n >= 10 {
      RenderLength(n / 10, k - 1);
    }
  }

  function RenderFraction(r: nat): string
    requires r < 1_000
  {
    [Digit(r / 100), Digit(r % 100 / 10), Digit(r % 10)]
  }

  function Render(n: nat): string {
    RenderWhole(n / 1_000) + "." + RenderFraction(n % 1_000)
  }

  lemma FractionDigits(r: nat)
    requires r < 1_000
    ensures IsFraction(RenderFraction(r)) && Number(RenderFraction(r)) == r
  {
    var a, b, c := Digit(r / 100), Digit(r % 100 / 10), Digit(r % 10);
    assert [a, b, c][..2] == [a, b] && [a, b][..1] == [a] && [a][..0] == [];
    assert Number([]) == 0;
    assert Number([a]) == r / 100;
    assert Number([a, b]) == 10 * (r / 100) + r % 100 / 10;
  }

  lemma ParsesAt(s: string, n: nat)
    requires n == Point(s) && |s| == n + 4 && IsWhole(s[..n]) && IsFraction(s[n + 1..])
    ensures Thousandths(s) == Some(1_000 * Number(s[..n]) + Number(s[n + 1..]))
  {
    assert Pow10(3 - (|s| - n - 1)) == 1;
  }

  lemma Parts(whole: string, fraction: string)
    ensures var s := whole + "." + fraction;
            |s| == |whole| + 1 + |fraction| && s[..|whole|] == whole && s[|whole| + 1..] == fraction
  {
  }

  /** Three decimals count thousandths. */
  lemma ReadsThreeDecimals(whole: string, fraction: string)
    requires IsWhole(whole) && IsFraction(fraction) && |fraction| == 3
    ensures Thousandths(whole + "." + fraction) == Some(1_000 * Number(whole) + Number(fraction))
  {
    PointAfterWhole(whole, fraction);
    Parts(whole, fraction);
    ParsesAt(whole + "." + fraction, |whole|);
  }

  /** Round trip: the pattern covers the whole column, so the notation loses no quantity. */
  lemma RoundTrip(n: nat)
    requires n < COLUMN_LIMIT
    ensures IsUnsigned(Render(n)) && Thousandths(Render(n)) == Some(n)
  {
    WholeLimit();
    RenderLength(n / 1_000, 15);
    FractionDigits(n % 1_000);
    ReadsThreeDecimals(RenderWhole(n / 1_000), RenderFraction(n % 1_000));
    ParsesPattern(Render(n));
  }

  lemma PointAfterWhole(whole: string, fraction: string)
    requires AllDigits(whole)
    ensures Point(whole + "." + fraction) == |whole|
  {
    var s := whole + "." + fraction;
    assert s[|whole|] == '.';
    assert forall m :: 0 <= m < |whole| ==> s[m] == whole[m];
  }

  /** Signed quantities: exactly the pattern, exactly the magnitudes of the column, both signs. */
  lemma SignedRange(s: string)
    ensures SignedThousandths(s).Some? <==> IsSigned(s)
    ensures SignedThousandths(s).Some? ==> -COLUMN_LIMIT < SignedThousandths(s).value < COLUMN_LIMIT
  {
    ParsesPattern(s);
    if s != [] && s[0] == '-' {
      ParsesPattern(s[1..]);
      assert !IsUnsigned(s) by {
        assert Point(s) == 0 || s[..Point(s)][0] == '-';
      }
      if Thousandths(s[1..]).Some? {
        FitsColumn(s[1..]);
      }
    } else if Thousandths(s).Some? {
      FitsColumn(s);
    }
  }

  function SignedRender(v: int): string {
    if v >= 0 then Render(v) else "-" + Render(-v)
  }

  lemma ReadsUnsigned(s: string, v: nat)
    requires s != [] && s[0] != '-' && IsUnsigned(s) && Thousandths(s) == Some(v)
    ensures IsSigned(s) && SignedThousandths(s) == Some(v)
  {
  }

  lemma ReadsMinus(s: string, v: nat)
    requires IsUnsigned(s) && Thousandths(s) == Some(v)
    ensures IsSigned("-" + s) && SignedThousandths("-" + s) == Some(-(v as int))
  {
    assert ("-" + s)[1..] == s;
  }

  /** Every signed quantity has a notation that reads back as itself. */
  lemma SignedRoundTrip(v: int)
    requires -COLUMN_LIMIT < v < COLUMN_LIMIT
    ensures IsSigned(SignedRender(v)) && SignedThousandths(SignedRender(v)) == Some(v)
  {
    if v >= 0 {
      RoundTrip(v);
      assert IsDigit(Render(v)[0]);
      ReadsUnsigned(Render(v), v);
    } else {
      RoundTrip(-v);
      ReadsMinus(Render(-v), -v);
    }
  }
}
