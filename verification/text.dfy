/** Decimal rendering of integers, as a JavaScript template literal renders
    an integral number (`${rollValue}`) inside the log messages. */
module Text {

  /** Every character of `s` is an ASCII decimal digit. */
  predicate IsDigits(s: string) {
    forall k :: 0 <= k < |s| ==> '0' <= s[k] <= '9'
  }

  /** The digit character for `d`. */
  function Digit(d: nat): (c: char)
    requires d < 10
    ensures '0' <= c <= '9'
    ensures c as int - '0' as int == d
  {
    ('0' as int + d) as char
  }

  /** The value of a string of decimal digits, most significant digit first. */
  function DigitsValue(s: string): nat
    requires IsDigits(s)
    decreases |s|
  {
    if s == [] then 0 else 10 * DigitsValue(s[..|s| - 1]) + (s[|s| - 1] as int - '0' as int)
  }

  /** The shortest decimal numeral of `n`: never empty, all digits, and
      no leading zero except for zero itself. */
  function NatToString(n: nat): (s: string)
    ensures s != [] && IsDigits(s)
    ensures s[0] == '0' ==> n == 0
    decreases n
  {
    if n < 10 then [Digit(n)] else NatToString(n / 10) + [Digit(n % 10)]
  }

  /** Reading back the numeral of `n` gives `n`. */
  lemma {:induction false} NatToStringRoundTrip(n: nat)
    ensures DigitsValue(NatToString(n)) == n
    decreases n
  {
    if n >= 10 {
      var s := NatToString(n);
      assert s[..|s| - 1] == NatToString(n / 10);
      NatToStringRoundTrip(n / 10);
    }
  }

  /** The decimal numeral of an integer: a minus sign for negative values,
      followed by the numeral of the magnitude. */
  function IntToString(i: int): string {
    if i < 0 then "-" + NatToString(-i) else NatToString(i)
  }

  /** The numeral of an integer starts with a minus sign exactly when the
      integer is negative; its digits read back to the magnitude and have
      no leading zero unless the integer is 0. */
  lemma IntToStringDecodes(i: int)
    ensures IntToString(i) != []
    ensures IntToString(i)[0] == '-' <==> i < 0
    ensures i < 0 ==> |IntToString(i)| >= 2 && IntToString(i)[1] != '0'
    ensures i < 0 ==> IsDigits(IntToString(i)[1..]) && DigitsValue(IntToString(i)[1..]) == -i
    ensures i >= 0 ==> IntToString(i)[0] == '0' ==> i == 0
    ensures i >= 0 ==> IsDigits(IntToString(i)) && DigitsValue(IntToString(i)) == i
  {
    if i < 0 {
      NatToStringRoundTrip(-i);
      assert IntToString(i)[1..] == NatToString(-i);
    } else {
      NatToStringRoundTrip(i);
    }
  }
}
