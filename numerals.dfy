/** Kotlin's `String.toIntOrNull()` in radix 10, used to read a `topicId`
    page parameter, and `Int.toString()` as its inverse. */
module Numerals {
  import opened Values

  const INT_MIN: int := -0x8000_0000
  const INT_MAX: int := 0x7fff_ffff

  predicate IsDigit(c: char) { '0' <= c <= '9' }

  predicate AllDigits(s: string) { forall i :: 0 <= i < |s| ==> IsDigit(s[i]) }

  function DigitValue(c: char): nat
    requires IsDigit(c)
  {
    (c as int) - ('0' as int)
  }

  function DigitChar(d: nat): (c: char)
    requires d < 10
    ensures IsDigit(c) && DigitValue(c) == d
  {
    ('0' as int + d) as char
  }

  /** The number a string of decimal digits denotes, most significant first. */
  function DecimalValue(s: string): nat
    requires AllDigits(s)
    decreases |s|
  {
    if |s| == 0 then 0 else 10 * DecimalValue(s[..|s| - 1]) + DigitValue(s[|s| - 1])
  }

  /** A decimal numeral: an optional '+' or '-' sign, then one or more digits. */
  predicate IsNumeral(s: string)
  {
    || (|s| > 1 && (s[0] == '+' || s[0] == '-') && AllDigits(s[1..]))
    || (|s| > 0 && AllDigits(s))
  }

  /** The integer a numeral denotes; leading zeros and a '+' sign change nothing. */
  function NumeralValue(s: string): int
    requires IsNumeral(s)
  {
    if s[0] == '-' then var v: int := DecimalValue(s[1..]); -v
    else if s[0] == '+' then DecimalValue(s[1..])
    else DecimalValue(s)
  }

  /** `s.toIntOrNull()`: an optional '+' or '-' followed by at least one decimal
      digit, whose value fits a 32-bit `Int`; anything else is `null`. */
  function ToIntOrNull(s: string): (r: Option<int>)
    ensures r.Some? <==> IsNumeral(s) && INT_MIN <= NumeralValue(s) <= INT_MAX
    ensures r.Some? ==> r.value == NumeralValue(s)
    ensures r.Some? ==> INT_MIN <= r.value <= INT_MAX
    ensures r.Some? ==> |s| > 0 && (IsDigit(s[0]) || s[0] == '-' || s[0] == '+')
    ensures |s| > 0 && !IsDigit(s[0]) && s[0] != '-' && s[0] != '+' ==> r.None?
  {
    if |s| == 0 then None
    else if s[0] == '-' || s[0] == '+' then
      var digits := s[1..];
      if |digits| == 0 || !AllDigits(digits) then None
      else
        var v: int := DecimalValue(digits);
        var n := if s[0] == '-' then -v else v;
        if INT_MIN <= n <= INT_MAX then Some(n) else None
    else if !AllDigits(s) then None
    else if DecimalValue(s) <= INT_MAX then Some(DecimalValue(s))
    else None
  }

  /** The decimal digits of `n`, without leading zeros. */
  function NatDigits(n: nat): (s: string)
    ensures |s| > 0 && AllDigits(s)
    decreases n
  {
    if n < 10 then [DigitChar(n)] else NatDigits(n / 10) + [DigitChar(n % 10)]
  }

  /** `n.toString()` for an `Int`. */
  function IntToString(n: int): (s: string)
  {
    if n < 0 then "-" + NatDigits(-n) else NatDigits(n)
  }

  lemma {:induction false} NatDigitsValue(n: nat)
    ensures DecimalValue(NatDigits(n)) == n
    decreases n
  {
    var s := NatDigits(n);
    if n >= 10 {
      NatDigitsValue(n / 10);
      assert s[..|s| - 1] == NatDigits(n / 10);
    }
  }

  /** Every 32-bit `Int` written with `toString()` parses back to itself. */
  lemma ToIntOrNullInvertsToString(n: int)
    requires INT_MIN <= n <= INT_MAX
    ensures ToIntOrNull(IntToString(n)) == Some(n)
  {
    if n < 0 {
      var s := IntToString(n);
      assert s[1..] == NatDigits(-n);
      NatDigitsValue(-n);
    } else {
      NatDigitsValue(n);
    }
  }

  /** Text that is not a number, and numbers outside the `Int` range, give `null`. */
  lemma ToIntOrNullRejects()
    ensures ToIntOrNull("") == None
    ensures ToIntOrNull("-") == None
    ensures ToIntOrNull("12a") == None
    ensures ToIntOrNull("2147483648") == None
    ensures ToIntOrNull("-2147483648") == Some(INT_MIN)
    ensures ToIntOrNull("1a") == None && ToIntOrNull("+x") == None && ToIntOrNull(" 1") == None
  {
    assert !AllDigits("12a") by { assert !IsDigit("12a"[2]); }
    assert "2147483648"[..9] == "214748364";
    assert "214748364"[..8] == "21474836";
    assert "21474836"[..7] == "2147483";
    assert "2147483"[..6] == "214748";
    assert "214748"[..5] == "21474";
    assert "21474"[..4] == "2147";
    assert "2147"[..3] == "214";
    assert "214"[..2] == "21";
    assert "21"[..1] == "2";
    assert "-2147483648"[1..] == "2147483648";
  }

  /** Non-canonical numerals parse to the value they denote. */
  lemma ToIntOrNullNonCanonical()
    ensures ToIntOrNull("+7") == Some(7)
    ensures ToIntOrNull("007") == Some(7)
    ensures ToIntOrNull("-0") == Some(0)
  {
    assert "007"[..2] == "00" && "00"[..1] == "0";
    assert "+7"[1..] == "7" && "-0"[1..] == "0";
  }
}
