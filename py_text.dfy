/**
 * The two Python built-ins the clock normaliser relies on, restricted to the
 * values it can meet: `str()` of a non-negative float that has at most two
 * decimals, and `int()` of a short string.
 */
module PyText {
  import opened Wrappers

  predicate IsDigit(c: char) {
    '0' <= c <= '9'
  }

  function DigitChar(d: int): (c: char)
    requires 0 <= d < 10
    ensures IsDigit(c)
  {
    ('0' as int + d) as char
  }

  function DigitValue(c: char): (d: int)
    requires IsDigit(c)
    ensures 0 <= d < 10 && DigitChar(d) == c
  {
    c as int - '0' as int
  }

  lemma DigitValueOfChar(d: int)
    requires 0 <= d < 10
    ensures DigitValue(DigitChar(d)) == d
  {
  }

  predicate AllDigits(s: string) {
    forall i :: 0 <= i < |s| ==> IsDigit(s[i])
  }

  /** Decimal numeral of `n` without leading zeros, as `str(n)` prints it. */
  function NatToString(n: nat): (s: string)
    ensures 1 <= |s| && AllDigits(s)
    decreases n
  {
    if n < 10 then [DigitChar(n)] else NatToString(n / 10) + [DigitChar(n % 10)]
  }

  /** The number of characters of `str(n)` grows exactly at the powers of ten. */
  lemma {:induction false} NatToStringLength(n: nat)
    ensures |NatToString(n)| == 1 <==> n < 10
    ensures |NatToString(n)| == 2 <==> 10 <= n < 100
    ensures |NatToString(n)| >= 3 <==> 100 <= n
  {
    if n >= 10 {
      NatToStringLength(n / 10);
    }
  }

  /** Value of a string of decimal digits, most significant first. */
  function DigitsValue(s: string): (n: nat)
    requires AllDigits(s)
    ensures |s| == 0 ==> n == 0
  {
    if |s| == 0 then 0 else DigitsValue(s[..|s| - 1]) * 10 + DigitValue(s[|s| - 1])
  }

  /** Reading back the numeral of `n` gives `n`. */
  lemma {:induction false} DigitsValueOfNatToString(n: nat)
    ensures DigitsValue(NatToString(n)) == n
  {
    var s := NatToString(n);
    if n >= 10 {
      DigitsValueOfNatToString(n / 10);
      assert s[..|s| - 1] == NatToString(n / 10);
      DigitValueOfChar(n % 10);
    } else {
      DigitValueOfChar(n);
    }
  }

  /**
   * `int(s)` for base 10: a non-empty string of digits is read as a number
   * (leading zeros allowed); anything else raises ValueError.
   */
  function ParseInt(s: string): (r: Result<nat>)
    ensures r.Ok? <==> 0 < |s| && AllDigits(s)
    ensures r.Ok? ==> r.value == DigitsValue(s)
    ensures r.Err? ==> r.error == InvalidIntLiteral(s)
  {
    if 0 < |s| && AllDigits(s) then Ok(DigitsValue(s)) else Err(InvalidIntLiteral(s))
  }

  /**
   * `str(x / 100)` for a float holding exactly `x` hundredths: the integer
   * part, a point, then one decimal digit when the hundredths digit is zero
   * and two otherwise (Python prints the shortest form, keeping at least one
   * decimal).
   */
  function HundredthsToString(x: nat): (s: string)
    ensures |s| == |NatToString(x / 100)| + 1 + (if x % 10 == 0 then 1 else 2)
    ensures s[..|NatToString(x / 100)|] == NatToString(x / 100)
    ensures s[|NatToString(x / 100)|] == '.'
    ensures s[|NatToString(x / 100)| + 1] == DigitChar(x % 100 / 10)
    ensures x % 10 != 0 ==> s[|NatToString(x / 100)| + 2] == DigitChar(x % 10)
  {
    var fraction := x % 100;
    NatToString(x / 100) + "." +
      (if fraction % 10 == 0 then [DigitChar(fraction / 10)]
       else [DigitChar(fraction / 10), DigitChar(fraction % 10)])
  }

  /**
   * The third character of `str(x / 100)`: the first decimal digit while the
   * integer part has one digit, the point when it has two, and an integer
   * digit when it has more.
   */
  lemma ThirdCharacter(x: nat)
    ensures x < 1000 ==> HundredthsToString(x)[2] == DigitChar(x % 100 / 10)
    ensures 1000 <= x < 10000 ==> HundredthsToString(x)[2] == '.'
    ensures 10000 <= x ==> IsDigit(HundredthsToString(x)[2])
  {
    var s := HundredthsToString(x);
    var k := NatToString(x / 100);
    NatToStringLength(x / 100);
    if 10000 <= x {
      assert s[..|k|] == k;
      assert s[2] == k[2];
    }
  }
}
