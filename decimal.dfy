/** Decimal rendering of integers, as Go's `fmt.Sprintf("%d", n)` produces it:
    an optional minus sign followed by the digits, most significant first,
    with no leading zeros. The service uses it for the fallback request
    identifier and for the item count in the response body. */
module Decimal {

  predicate IsDigit(c: char) {
    '0' <= c <= '9'
  }

  predicate AllDigits(s: string) {
    forall i :: 0 <= i < |s| ==> IsDigit(s[i])
  }

  function DigitChar(d: nat): (c: char)
    requires d < 10
    ensures IsDigit(c)
    ensures DigitValue(c) == d
  {
    ('0' as int + d) as char
  }

  function DigitValue(c: char): (d: nat)
    requires IsDigit(c)
    ensures d < 10
  {
    c as int - '0' as int
  }

  /** `%d` of a non-negative number: at least one digit, and a leading
      zero only for zero itself. */
  function NatToDecimal(n: nat): (s: string)
    ensures |s| >= 1 && AllDigits(s)
    ensures s[0] == '0' ==> n == 0
    ensures n == 0 ==> s == "0"
    decreases n
  {
    if n < 10 then [DigitChar(n)] else NatToDecimal(n / 10) + [DigitChar(n % 10)]
  }

  /** `%d` of any integer: negative numbers get a leading minus sign, and
      no zero follows it. */
  function IntToDecimal(n: int): (s: string)
    ensures |s| >= 1
    ensures n >= 0 <==> IsDigit(s[0])
    ensures n < 0 <==> s[0] == '-'
    ensures n < 0 ==> |s| >= 2 && s[1] != '0'
    ensures n >= 0 && s[0] == '0' ==> n == 0
    ensures n == 0 ==> s == "0"
  {
    if n < 0 then "-" + NatToDecimal(-n) else NatToDecimal(n)
  }

  /** Reads a string of digits back as a number; the inverse of NatToDecimal. */
  function ParseDecimal(s: string): (n: nat)
    requires AllDigits(s)
    decreases |s|
  {
    if |s| == 0 then 0 else 10 * ParseDecimal(s[..|s| - 1]) + DigitValue(s[|s| - 1])
  }

  lemma {:induction false} ParseDecimalOfNatToDecimal(n: nat)
    ensures ParseDecimal(NatToDecimal(n)) == n
    decreases n
  {
    var s := NatToDecimal(n);
    if n < 10 {
      assert s[..|s| - 1] == [];
    } else {
      var prefix := NatToDecimal(n / 10);
      assert s[..|s| - 1] == prefix;
      ParseDecimalOfNatToDecimal(n / 10);
    }
  }

  lemma NatToDecimalInjective(a: nat, b: nat)
    ensures NatToDecimal(a) == NatToDecimal(b) ==> a == b
  {
    ParseDecimalOfNatToDecimal(a);
    ParseDecimalOfNatToDecimal(b);
  }

  /** Reading the printed integer back: the digits after an optional minus
      sign give the absolute value, and the sign is there exactly for a
      negative number. */
  lemma IntToDecimalRoundTrip(n: int)
    ensures n >= 0 ==> AllDigits(IntToDecimal(n)) && ParseDecimal(IntToDecimal(n)) == n
    ensures n < 0 ==> AllDigits(IntToDecimal(n)[1..]) && ParseDecimal(IntToDecimal(n)[1..]) == -n
  {
    if n >= 0 {
      ParseDecimalOfNatToDecimal(n);
    } else {
      assert IntToDecimal(n)[1..] == NatToDecimal(-n);
      ParseDecimalOfNatToDecimal(-n);
    }
  }

  /** Two different integers never print the same. */
  lemma IntToDecimalInjective(a: int, b: int)
    ensures IntToDecimal(a) == IntToDecimal(b) ==> a == b
  {
    if IntToDecimal(a) == IntToDecimal(b) {
      if a < 0 && b < 0 {
        assert NatToDecimal(-a) == IntToDecimal(a)[1..];
        assert NatToDecimal(-b) == IntToDecimal(b)[1..];
        NatToDecimalInjective(-a, -b);
      } else if a >= 0 && b >= 0 {
        NatToDecimalInjective(a, b);
      }
    }
  }
}
