/**
 * The six-digit one-time code that every OTP-issuing handler of
 * server/controllers/authController.js generates:
 * `String(Math.floor(100000 + Math.random() * 900000))`.
 * `Math.random()` is an input here, a real in [0, 1).
 */
module OtpCode {

  /** The integer the handlers draw: the floor of 100000 + 900000 * x. */
  function OtpDraw(x: real): (n: int)
    requires 0.0 <= x < 1.0
    ensures 100000 <= n <= 999999
  {
    (100000.0 + x * 900000.0).Floor
  }

  function DigitChar(d: nat): (c: char)
    requires d < 10
    ensures '0' <= c <= '9'
  {
    (48 + d) as char
  }

  function DigitValue(c: char): (d: nat)
    requires '0' <= c <= '9'
    ensures d < 10
  {
    (c as int - 48) as nat
  }

  /** `String(n)` for a non-negative integer: its decimal numeral, no leading zeros. */
  function DecimalString(n: nat): string
  {
    if n < 10 then [DigitChar(n)] else DecimalString(n / 10) + [DigitChar(n % 10)]
  }

  predicate AllDigits(s: string)
  {
    forall i :: 0 <= i < |s| ==> '0' <= s[i] <= '9'
  }

  /** The value of a decimal numeral, read left to right. */
  function ParseDecimal(s: string): nat
    requires AllDigits(s)
  {
    if s == [] then 0 else ParseDecimal(s[..|s| - 1]) * 10 + DigitValue(s[|s| - 1])
  }

  function Pow10(k: nat): (p: nat)
    ensures p >= 1
  {
    if k == 0 then 1 else 10 * Pow10(k - 1)
  }

  /** An OTP as the handlers store and compare it: exactly six decimal digits. */
  predicate IsOtpCode(s: string)
  {
    |s| == 6 && AllDigits(s)
  }

  /** The code a handler stores and mails for the draw `x`. */
  function OtpOf(x: real): string
    requires 0.0 <= x < 1.0
  {
    DecimalString(OtpDraw(x))
  }

  lemma {:induction false} DecimalStringDigits(n: nat)
    ensures AllDigits(DecimalString(n))
  {
    if n >= 10 {
      DecimalStringDigits(n / 10);
    }
  }

  /** A number with k digits is written with exactly k characters. */
  lemma {:induction false} DecimalStringLength(n: nat, k: nat)
    requires 1 <= k && Pow10(k - 1) <= n < Pow10(k)
    ensures |DecimalString(n)| == k
  {
    if n >= 10 {
      assert k >= 2;
      DecimalStringLength(n / 10, k - 1);
    }
  }

  /** Parsing the numeral gives the number back, so distinct draws give distinct codes. */
  lemma {:induction false} ParseDecimalString(n: nat)
    ensures AllDigits(DecimalString(n)) && ParseDecimal(DecimalString(n)) == n
  {
    DecimalStringDigits(n);
    if n >= 10 {
      var s := DecimalString(n);
      assert s[..|s| - 1] == DecimalString(n / 10);
      ParseDecimalString(n / 10);
    }
  }

  /** Every generated OTP is the six-digit numeral of the integer drawn. */
  lemma OtpIsSixDigits(x: real)
    requires 0.0 <= x < 1.0
    ensures IsOtpCode(OtpOf(x))
    ensures ParseDecimal(OtpOf(x)) == OtpDraw(x)
  {
    var n := OtpDraw(x);
    assert Pow10(5) == 100000 && Pow10(6) == 1000000;
    DecimalStringLength(n, 6);
    DecimalStringDigits(n);
    ParseDecimalString(n);
  }

  /** Two draws that give different integers give different codes. */
  lemma OtpOfInjective(x: real, y: real)
    requires 0.0 <= x < 1.0 && 0.0 <= y < 1.0
    requires OtpDraw(x) != OtpDraw(y)
    ensures OtpOf(x) != OtpOf(y)
  {
    ParseDecimalString(OtpDraw(x));
    ParseDecimalString(OtpDraw(y));
  }
}
