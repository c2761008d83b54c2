/**
  The countdown text: `formatTime` turns a number of seconds into `m:ss`,
  unpadded minutes, a colon, and seconds padded to two digits.

  JavaScript semantics are written out: `Math.floor(seconds / 60)` is Dafny's
  `/` (Euclidean division by a positive divisor is floor division), while
  JavaScript's `%` truncates toward zero, which is `JsRemainder`.
*/
module TimeFormat {
  import opened Wrappers

  predicate IsDigit(c: char) {
    '0' <= c <= '9'
  }

  function DigitValue(c: char): nat
    requires IsDigit(c)
  {
    c as int - '0' as int
  }

  function DigitChar(d: nat): (c: char)
    requires d < 10
    ensures IsDigit(c) && DigitValue(c) == d
  {
    ('0' as int + d) as char
  }

  /** Decimal digits of a non-negative integer, as JavaScript prints a number. */
  function NatToString(n: nat): string
    decreases n
  {
    if n < 10 then [DigitChar(n)] else NatToString(n / 10) + [DigitChar(n % 10)]
  }

  /** JavaScript's string form of an integer-valued number. */
  function NumberToString(n: int): string {
    if n < 0 then "-" + NatToString(-n) else NatToString(n)
  }

  predicate AllDigits(s: string) {
    forall i :: 0 <= i < |s| ==> IsDigit(s[i])
  }

  /** A non-empty digit string without superfluous leading zeros. */
  predicate IsCanonical(s: string) {
    |s| > 0 && AllDigits(s) && (s[0] == '0' ==> |s| == 1)
  }

  /** The value of a digit string, read most significant digit first. */
  function DecimalValue(s: string): nat
    requires AllDigits(s)
    decreases |s|
  {
    if s == [] then 0 else DecimalValue(s[..|s| - 1]) * 10 + DigitValue(s[|s| - 1])
  }

  lemma {:induction false} NatToStringIsDecimal(n: nat)
    ensures IsCanonical(NatToString(n))
    ensures DecimalValue(NatToString(n)) == n
    decreases n
  {
    if n >= 10 {
      NatToStringIsDecimal(n / 10);
      var p := NatToString(n / 10);
      var s := NatToString(n);
      assert s == p + [DigitChar(n % 10)];
      assert s[..|s| - 1] == p;
    }
  }

  /** JavaScript's `a % b`: the remainder takes the sign of the dividend. */
  function JsRemainder(a: int, b: int): (r: int)
    requires b > 0
    ensures a >= 0 ==> 0 <= r < b && a == (a / b) * b + r
    ensures a < 0 ==> -b < r <= 0 && a == -((-a) / b) * b + r
  {
    if a >= 0 then a % b else -((-a) % b)
  }

  /** `formatTime(seconds)`, lines 18-22. */
  function FormatTime(seconds: int): string {
    var minutes := seconds / 60;
    var secs := JsRemainder(seconds, 60);
    NumberToString(minutes) + ":" + (if secs < 10 then "0" else "") + NumberToString(secs)
  }

  /**
    Reads an `m:ss` string back: decimal minutes, a colon and two digits of
    seconds below 60. The inverse of `FormatTime` on non-negative input.
  */
  function ParseTime(text: string): Option<nat> {
    if |text| < 4 || text[|text| - 3] != ':' then None
    else
      var m := text[..|text| - 3];
      var hi, lo := text[|text| - 2], text[|text| - 1];
      if |m| > 0 && AllDigits(m) && IsDigit(hi) && IsDigit(lo) && DigitValue(hi) < 6
      then Some(DecimalValue(m) * 60 + DigitValue(hi) * 10 + DigitValue(lo))
      else None
  }

  /** The seconds field, for non-negative input: exactly two digits. */
  lemma SecondsField(secs: nat)
    requires secs < 60
    ensures (if secs < 10 then "0" else "") + NumberToString(secs)
            == [DigitChar(secs / 10), DigitChar(secs % 10)]
  {
    if secs >= 10 {
      assert NatToString(secs / 10) == [DigitChar(secs / 10)];
    }
  }

  /**
    For non-negative input `FormatTime(s)` is the decimal minutes `s / 60`,
    a colon, and the two digits of `s % 60`.
  */
  lemma FormatTimeLayout(s: nat)
    ensures var r := FormatTime(s);
      |r| >= 4 &&
      r[..|r| - 3] == NatToString(s / 60) &&
      r[|r| - 3] == ':' &&
      r[|r| - 2..] == [DigitChar((s % 60) / 10), DigitChar(s % 60 % 10)]
  {
    var secs := s % 60;
    assert JsRemainder(s, 60) == secs;
    SecondsField(secs);
    NatToStringIsDecimal(s / 60);
    var r := FormatTime(s);
    assert r == NatToString(s / 60) + ":" + [DigitChar(secs / 10), DigitChar(secs % 10)];
  }

  /** Reading back minutes and seconds gives `m * 60 + ss == s`. */
  lemma ParseFormatTime(s: nat)
    ensures ParseTime(FormatTime(s)) == Some(s)
  {
    FormatTimeLayout(s);
    NatToStringIsDecimal(s / 60);
    var r := FormatTime(s);
    var secs := s % 60;
    assert r[|r| - 2] == DigitChar(secs / 10);
    assert r[|r| - 1] == DigitChar(secs % 10);
    assert DecimalValue(r[..|r| - 3]) == s / 60;
  }

  /** Distinct second counts are displayed differently. */
  lemma FormatTimeInjective(s: nat, t: nat)
    requires FormatTime(s) == FormatTime(t)
    ensures s == t
  {
    ParseFormatTime(s);
    ParseFormatTime(t);
  }

  lemma FormatTimeExamples()
    ensures FormatTime(125) == "2:05"
    ensures FormatTime(59) == "0:59"
    ensures FormatTime(0) == "0:00"
    ensures FormatTime(177) == "2:57"
    ensures FormatTime(180) == "3:00"
  {
  }

  /**
    A negative count, which the countdown never produces, is shown with a
    negative minute and a negative, not two-digit, seconds field.
  */
  lemma FormatNegative()
    ensures FormatTime(-1) == "-1:0-1"
    ensures FormatTime(-61) == "-2:0-1"
  {
  }
}
