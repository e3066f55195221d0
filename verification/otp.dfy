/** `generate_otp` of auth_email.py: `"{:06d}".format(random.randint(0, 999999))`.
    The random draw is a parameter; the model is the formatting. */
module OtpCode {

  /** Number of digits in a code. */
  const OtpLength: nat := 6

  /** `random.randint(0, 999999)` draws below this bound. */
  const OtpBound: nat := 1000000

  predicate IsDigit(c: char) {
    '0' <= c <= '9'
  }

  predicate AllDigits(s: string) {
    forall i :: 0 <= i < |s| ==> IsDigit(s[i])
  }

  /** A well-formed one-time passcode: six decimal digits. */
  predicate IsOtp(s: string) {
    |s| == OtpLength && AllDigits(s)
  }

  function Pow10(k: nat): (p: nat)
    ensures p >= 1
  {
    if k == 0 then 1 else 10 * Pow10(k - 1)
  }

  function DigitChar(d: nat): (c: char)
    requires d < 10
    ensures IsDigit(c) && c as int - '0' as int == d
  {
    ('0' as int + d) as char
  }

  /** The decimal number a string of digits spells, most significant digit first. */
  function DecimalValue(s: string): (v: nat)
    requires AllDigits(s)
    ensures v < Pow10(|s|)
  {
    if s == [] then 0
    else DecimalValue(s[..|s| - 1]) * 10 + (s[|s| - 1] as int - '0' as int)
  }

  /** `"{:0<width>d}".format(n)` for an `n` that fits in `width` digits:
      the decimal digits of `n`, left-padded with zeros. */
  function PadDecimal(n: nat, width: nat): (s: string)
    requires n < Pow10(width)
    ensures |s| == width && AllDigits(s)
  {
    if width == 0 then []
    else PadDecimal(n / 10, width - 1) + [DigitChar(n % 10)]
  }

  /** Reading back a padded number gives the number. */
  lemma {:induction false} DecimalOfPad(n: nat, width: nat)
    requires n < Pow10(width)
    ensures DecimalValue(PadDecimal(n, width)) == n
  {
    if width > 0 {
      var s := PadDecimal(n, width);
      assert s[..width - 1] == PadDecimal(n / 10, width - 1);
      DecimalOfPad(n / 10, width - 1);
    }
  }

  /** Padding the value of a digit string gives the string back. */
  lemma {:induction false} PadOfDecimal(s: string)
    requires AllDigits(s)
    ensures PadDecimal(DecimalValue(s), |s|) == s
  {
    if s != [] {
      var init := s[..|s| - 1];
      var d := s[|s| - 1] as int - '0' as int;
      var v := DecimalValue(s);
      assert v / 10 == DecimalValue(init) && v % 10 == d;
      PadOfDecimal(init);
      assert DigitChar(d) == s[|s| - 1];
      assert s == init + [s[|s| - 1]];
    }
  }

  /** `generate_otp()` for the drawn integer `n`. */
  function GenerateOtp(n: nat): (code: string)
    requires n < OtpBound
    ensures IsOtp(code)
    ensures DecimalValue(code) == n
  {
    DecimalOfPad(n, OtpLength);
    PadDecimal(n, OtpLength)
  }

  /** Different draws give different codes. */
  lemma GenerateOtpInjective(m: nat, n: nat)
    requires m < OtpBound && n < OtpBound
    ensures GenerateOtp(m) == GenerateOtp(n) <==> m == n
  {
  }

  /** Every six-digit string is the code of exactly one draw, so no code
      is out of reach of the generator. */
  lemma GenerateOtpOnto(code: string)
    requires IsOtp(code)
    ensures DecimalValue(code) < OtpBound && GenerateOtp(DecimalValue(code)) == code
  {
    PadOfDecimal(code);
  }
}
