/** One-decimal text of a number, as the intake counter uses it: the
    JavaScript `toFixed(1)` rendering of a number and the `parseFloat`
    reading of that rendering. Values on the parsing side are integer
    tenths, so a rendered number read back is exact. */
module DecimalText {

  datatype Option<T> = None | Some(value: T)

  /** The integer nearest to `y`, the larger one on a tie. */
  function RoundHalfUp(y: real): (r: int)
    ensures r as real - 0.5 <= y < r as real + 0.5
  {
    (y + 0.5).Floor
  }

  /** The number of tenths `toFixed(1)` keeps of `x`: the magnitude is
      rounded to the nearest tenth with ties upward, and a negative `x`
      is rounded as its magnitude and negated, so on a negative tie the
      result moves away from zero. */
  function RoundTenths(x: real): (n: int)
    ensures 0.0 <= x ==> n as real - 0.5 <= 10.0 * x < n as real + 0.5
    ensures x < 0.0 ==> n as real - 0.5 < 10.0 * x <= n as real + 0.5
  {
    if x < 0.0 then -RoundHalfUp(-10.0 * x) else RoundHalfUp(10.0 * x)
  }

  /** No other integer meets the interval `RoundTenths` promises, so the
      rounding rule fixes its result. */
  lemma RoundTenthsUnique(x: real, m: int)
    requires 0.0 <= x ==> m as real - 0.5 <= 10.0 * x < m as real + 0.5
    requires x < 0.0 ==> m as real - 0.5 < 10.0 * x <= m as real + 0.5
    ensures RoundTenths(x) == m
  {
  }

  /** A number that already is a whole count of tenths is kept as it is. */
  lemma RoundTenthsOfTenths(n: int)
    ensures RoundTenths(n as real / 10.0) == n
  {
  }

  predicate IsDigit(c: char) {
    '0' <= c <= '9'
  }

  predicate AllDigits(s: string) {
    forall i :: 0 <= i < |s| ==> IsDigit(s[i])
  }

  function DigitChar(d: int): (c: char)
    requires 0 <= d < 10
    ensures IsDigit(c) && c as int - '0' as int == d
  {
    ('0' as int + d) as char
  }

  function DigitValue(c: char): (d: nat)
    requires IsDigit(c)
    ensures d < 10 && DigitChar(d) == c
  {
    c as int - '0' as int
  }

  /** The decimal digits of `n`, most significant first, without leading
      zeros. */
  function NatToDecimal(n: nat): (s: string)
    ensures 1 <= |s| && AllDigits(s)
    ensures n < 10 <==> |s| == 1
    ensures |s| > 1 ==> s[0] != '0'
  {
    if n < 10 then [DigitChar(n)] else NatToDecimal(n / 10) + [DigitChar(n % 10)]
  }

  /** The number a string of decimal digits denotes. */
  function DigitsValue(s: string): nat
    requires AllDigits(s)
  {
    if s == [] then 0 else DigitsValue(s[..|s| - 1]) * 10 + DigitValue(s[|s| - 1])
  }

  lemma {:induction false} DigitsValueOfNatToDecimal(n: nat)
    ensures DigitsValue(NatToDecimal(n)) == n
  {
    if n >= 10 {
      var prefix := NatToDecimal(n / 10);
      var s := prefix + [DigitChar(n % 10)];
      assert s[..|s| - 1] == prefix;
      DigitsValueOfNatToDecimal(n / 10);
    }
  }

  /** `x.toFixed(1)`: an optional minus sign for a negative `x`, the whole
      litres in decimal, a point, and the tenths digit. */
  function ToFixed1(x: real): (s: string)
    ensures 3 <= |s| && s[|s| - 2] == '.' && IsDigit(s[|s| - 1])
    ensures s[0] == '-' <==> x < 0.0
  {
    var m := RoundHalfUp(10.0 * (if x < 0.0 then -x else x));
    assert m >= 0;
    (if x < 0.0 then "-" else "") + NatToDecimal(m / 10) + "." + [DigitChar(m % 10)]
  }

  /** The tenths denoted by an unsigned one-decimal string such as "12.5":
      ten for each whole unit before the point, plus the digit after it. */
  function ParseUnsignedFixed1(s: string): (r: Option<nat>)
    ensures r.Some? <==> 3 <= |s| && s[|s| - 2] == '.' && IsDigit(s[|s| - 1]) && AllDigits(s[..|s| - 2])
    ensures r.Some? ==> r.value / 10 == DigitsValue(s[..|s| - 2]) && r.value % 10 == DigitValue(s[|s| - 1])
  {
    if 3 <= |s| && s[|s| - 2] == '.' && IsDigit(s[|s| - 1]) && AllDigits(s[..|s| - 2])
    then Some(DigitsValue(s[..|s| - 2]) * 10 + DigitValue(s[|s| - 1]))
    else None
  }

  /** Any whole number written in decimal, a point and one digit reads
      back as that many tenths. */
  lemma ParseUnsignedOfFixed1(q: nat, d: nat)
    requires d < 10
    ensures ParseUnsignedFixed1(NatToDecimal(q) + "." + [DigitChar(d)]) == Some(10 * q + d)
  {
    var s := NatToDecimal(q) + "." + [DigitChar(d)];
    assert s[..|s| - 2] == NatToDecimal(q);
    DigitsValueOfNatToDecimal(q);
  }

  /** `parseFloat` on the strings `toFixed(1)` produces, giving the value
      in tenths: an optional minus sign, digits, a point and one digit. A
      minus sign negates the value, so "-0.0" reads as zero. `None` means
      the string is outside these shapes; it does not stand for NaN, since
      `parseFloat` also reads "12", "1.25", ".5" and "+0.5". */
  function ParseFixed1(s: string): (r: Option<int>)
    ensures s == [] ==> r.None?
    ensures r.Some? ==> 3 <= |s| && s[|s| - 2] == '.'
    ensures r.Some? <==> ParseUnsignedFixed1(s).Some? || (0 < |s| && s[0] == '-' && ParseUnsignedFixed1(s[1..]).Some?)
    ensures ParseUnsignedFixed1(s).Some? ==> r == Some(ParseUnsignedFixed1(s).value as int)
    ensures 0 < |s| && s[0] == '-' && ParseUnsignedFixed1(s[1..]).Some? ==> r == Some(-(ParseUnsignedFixed1(s[1..]).value as int))
  {
    if 0 < |s| && s[0] == '-' then
      assert 3 <= |s| ==> !IsDigit(s[..|s| - 2][0]);
      match ParseUnsignedFixed1(s[1..])
      case Some(m) => Some(0 - m as int)
      case None => None
    else
      match ParseUnsignedFixed1(s)
      case Some(m) => Some(m)
      case None => None
  }

  /** Reading back what `toFixed(1)` wrote gives exactly the rounded
      number of tenths: the text step of the intake update loses nothing. */
  lemma ParseToFixed1(x: real)
    ensures ParseFixed1(ToFixed1(x)) == Some(RoundTenths(x))
  {
    var m := RoundHalfUp(10.0 * (if x < 0.0 then -x else x));
    var digits := NatToDecimal(m / 10) + "." + [DigitChar(m % 10)];
    ParseUnsignedOfFixed1(m / 10, m % 10);
    if x < 0.0 {
      assert ToFixed1(x) == "-" + digits;
      assert ToFixed1(x)[1..] == digits;
    } else {
      assert ToFixed1(x) == digits;
    }
  }
}
