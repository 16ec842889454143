/** Decimal rendering of amounts: `formatMoney` and `String(n)` of js/app.js.
    Amounts are integer cents, so `Number(n).toFixed(2)` becomes exact
    integer arithmetic: dollars, a point, and two cent digits. */
module Money {
  import opened Options

  predicate IsDigit(c: char) { '0' <= c <= '9' }

  predicate AllDigits(s: string) { forall i :: 0 <= i < |s| ==> IsDigit(s[i]) }

  function DigitChar(d: nat): (c: char)
    requires d < 10
    ensures IsDigit(c) && (c as int) - ('0' as int) == d
  {
    (('0' as int) + d) as char
  }

  function DigitValue(c: char): (d: nat)
    requires IsDigit(c)
    ensures d < 10 && DigitChar(d) == c
  {
    (c as int) - ('0' as int)
  }

  /** Decimal digits of n, most significant first, without leading zeros. */
  function NatToString(n: nat): (s: string)
    ensures |s| > 0 && AllDigits(s)
    ensures |s| > 1 ==> s[0] != '0'
  {
    if n < 10 then [DigitChar(n)] else NatToString(n / 10) + [DigitChar(n % 10)]
  }

  /** Value of a string of decimal digits, most significant first. */
  function DigitsToNat(s: string): nat
    requires AllDigits(s)
  {
    if s == [] then 0 else DigitsToNat(s[..|s| - 1]) * 10 + DigitValue(s[|s| - 1])
  }

  lemma {:induction false} NatToStringRoundTrip(n: nat)
    ensures DigitsToNat(NatToString(n)) == n
  {
    var s := NatToString(n);
    if n >= 10 {
      var p := NatToString(n / 10);
      assert s[..|s| - 1] == p;
      NatToStringRoundTrip(n / 10);
    }
  }

  /** `String(n)` of an integer, as used for the header badge. */
  function IntToString(n: int): (s: string)
    ensures |s| > 0
    ensures (n < 0) <==> s[0] == '-'
    ensures var d := s[(if n < 0 then 1 else 0)..]; |d| > 0 && AllDigits(d) && (|d| > 1 ==> d[0] != '0')
  {
    if n < 0 then "-" + NatToString(-n) else NatToString(n)
  }

  /** Inverse of IntToString on the strings it produces. */
  function ParseInt(s: string): (r: Option<int>)
  {
    if |s| > 0 && s[0] == '-' then
      (if |s| > 1 && AllDigits(s[1..]) then Some(-(DigitsToNat(s[1..]) as int)) else None)
    else if |s| > 0 && AllDigits(s) then Some(DigitsToNat(s))
    else None
  }

  lemma IntToStringRoundTrip(n: int)
    ensures ParseInt(IntToString(n)) == Some(n)
  {
    if n < 0 {
      var s := IntToString(n);
      assert s[1..] == NatToString(-n);
      NatToStringRoundTrip(-n);
    } else {
      assert IntToString(n) == NatToString(n);
      NatToStringRoundTrip(n);
    }
  }

  /** `"$" + Number(n).toFixed(2)` for an amount of `cents` hundredths of a dollar.
      A negative amount prints its minus sign after the dollar sign, as
      JavaScript's template literal does with a negative number. */
  function FormatMoney(cents: int): (s: string)
    ensures |s| >= 5 && s[0] == '$' && s[|s| - 3] == '.'
    ensures IsDigit(s[|s| - 2]) && IsDigit(s[|s| - 1])
    ensures (cents < 0) <==> s[1] == '-'
    ensures var w := s[(if cents < 0 then 2 else 1)..|s| - 3];
      |w| > 0 && AllDigits(w) && (|w| > 1 ==> w[0] != '0')
  {
    var a: nat := if cents < 0 then -cents else cents;
    "$" + (if cents < 0 then "-" else "") + NatToString(a / 100) + "."
      + [DigitChar(a % 100 / 10), DigitChar(a % 100 % 10)]
  }

  /** Reads back a string of the shape FormatMoney produces. */
  function ParseMoney(s: string): (r: Option<int>)
  {
    if |s| < 5 || s[0] != '$' || s[|s| - 3] != '.' || !IsDigit(s[|s| - 2]) || !IsDigit(s[|s| - 1]) then None
    else
      var cents := DigitValue(s[|s| - 2]) * 10 + DigitValue(s[|s| - 1]);
      var whole := s[1..|s| - 3];
      if |whole| > 1 && whole[0] == '-' && AllDigits(whole[1..]) then Some(-(DigitsToNat(whole[1..]) * 100 + cents))
      else if |whole| > 0 && AllDigits(whole) then Some(DigitsToNat(whole) * 100 + cents)
      else None
  }

  lemma {:induction false} FormatMoneyRoundTrip(cents: int)
    ensures ParseMoney(FormatMoney(cents)) == Some(cents)
  {
    var a: nat := if cents < 0 then -cents else cents;
    var x, y := a % 100 / 10, a % 100 % 10;
    assert FormatMoney(cents)
      == "$" + ((if cents < 0 then "-" else "") + NatToString(a / 100)) + "." + [DigitChar(x), DigitChar(y)];
    ParseMoneyOf(cents < 0, a / 100, x, y);
    assert a == a / 100 * 100 + (x * 10 + y);
  }

  /** ParseMoney reads a sign, whole dollars and two cent digits back. */
  lemma {:induction false} ParseMoneyOf(neg: bool, d: nat, x: nat, y: nat)
    requires x < 10 && y < 10
    ensures var v := d * 100 + (x * 10 + y);
      ParseMoney("$" + ((if neg then "-" else "") + NatToString(d)) + "." + [DigitChar(x), DigitChar(y)])
        == Some(if neg then -v else v)
  {
    var digits := NatToString(d);
    var whole := (if neg then "-" else "") + digits;
    var s := "$" + whole + "." + [DigitChar(x), DigitChar(y)];
    ParseMoneyParts(whole, x, y);
    NatToStringRoundTrip(d);
    assert DigitValue(s[|s| - 2]) * 10 + DigitValue(s[|s| - 1]) == x * 10 + y;
    if neg {
      assert whole[1..] == digits;
      assert ParseMoney(s) == Some(-(d * 100 + (x * 10 + y)));
    } else {
      assert whole == digits && IsDigit(whole[0]);
      assert ParseMoney(s) == Some(d * 100 + (x * 10 + y));
    }
  }

  /** ParseMoney splits a printed amount back into its whole part and its
      two cent digits. */
  lemma ParseMoneyParts(whole: string, x: nat, y: nat)
    requires x < 10 && y < 10
    ensures var s := "$" + whole + "." + [DigitChar(x), DigitChar(y)];
      |s| >= 4 && s[1..|s| - 3] == whole && s[0] == '$' && s[|s| - 3] == '.'
      && s[|s| - 2] == DigitChar(x) && s[|s| - 1] == DigitChar(y)
  {
  }

  /** Two different amounts never print the same. */
  lemma FormatMoneyInjective(a: int, b: int)
    requires FormatMoney(a) == FormatMoney(b)
    ensures a == b
  {
    FormatMoneyRoundTrip(a);
    FormatMoneyRoundTrip(b);
  }
}
