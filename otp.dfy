/** The one-time codes of the account e-mails: a six-digit code drawn
    from `Math.random` and an expiry five minutes after issue. The draw
    and the clock are parameters. */
module Otp {
  import opened Wrappers
  import opened Text

  const OtpLow: int := 100000
  const OtpSpan: int := 900000
  /** Five minutes, in milliseconds. */
  const OtpLifetime: int := 5 * 60 * 1000

  /** `Math.floor(100000 + Math.random() * 900000)` for the draw `r`. */
  function GenerateOtp(r: real): (n: nat)
    requires 0.0 <= r < 1.0
    ensures OtpLow <= n < OtpLow + OtpSpan
  {
    var x := OtpLow as real + r * OtpSpan as real;
    assert OtpLow as real <= x < (OtpLow + OtpSpan) as real;
    x.Floor
  }

  /** Every code in range is drawn by some `r`: the draw is onto. */
  lemma GenerateOtpOnto(n: int)
    requires OtpLow <= n < OtpLow + OtpSpan
    ensures GenerateOtp((n - OtpLow) as real / OtpSpan as real) == n
  {
    var r := (n - OtpLow) as real / OtpSpan as real;
    assert r * OtpSpan as real == (n - OtpLow) as real;
  }

  /** The number of decimal digits of a code. */
  lemma SixDigits(n: nat)
    requires OtpLow <= n < OtpLow + OtpSpan
    ensures DigitCount(n) == 6
  {
    assert 10000 <= n / 10 < 100000;
    assert 1000 <= n / 100 < 10000 && n / 100 == (n / 10) / 10;
    assert 100 <= n / 1000 < 1000 && n / 1000 == (n / 100) / 10;
    assert 10 <= n / 10000 < 100 && n / 10000 == (n / 1000) / 10;
    assert 1 <= n / 100000 < 10 && n / 100000 == (n / 10000) / 10;
    assert DigitCount(n / 10000) == 2;
    assert DigitCount(n / 1000) == 3;
    assert DigitCount(n / 100) == 4;
    assert DigitCount(n / 10) == 5;
  }

  /** `.toString()` of the code: six decimal digits, the first not zero. */
  function OtpString(r: real): (s: string)
    requires 0.0 <= r < 1.0
    ensures |s| == 6 && s[0] != '0'
    ensures forall i :: 0 <= i < |s| ==> IsDigit(s[i])
    ensures DigitsValue(s) == GenerateOtp(r)
  {
    var n := GenerateOtp(r);
    NatToStringLength(n);
    SixDigits(n);
    NatToStringLeadingDigit(n);
    NatToStringValue(n);
    NatToString(n)
  }

  /** `getOTPExpiry()` at the time `now`. */
  function OtpExpiry(now: int): (t: int)
    ensures t > now && t - now == OtpLifetime
  {
    now + OtpLifetime
  }

  /** `currentTime < new Date(otpExpires)`: a code is live strictly before
      its expiry; a missing expiry reads as an invalid date, before which
      no time lies. */
  predicate Live(now: int, otpExpires: Option<int>) {
    otpExpires.Some? && now < otpExpires.value
  }

  /** A code is live for exactly its lifetime after issue. */
  lemma LiveWindow(issued: int, now: int)
    ensures Live(now, Some(OtpExpiry(issued))) <==> now < issued + OtpLifetime
  {
  }
}
