/**
 * The `mm:ss` text of the recording timer in `startRecordingTimer`, with
 * JavaScript's `Math.floor`, `%`, `String` and `padStart` written out.
 */
module Clock {

  import opened Wrappers

  /** Minutes and remaining seconds of an elapsed time, as the timer derives them. */
  datatype ClockReading = ClockReading(minutes: int, seconds: int)

  /** JavaScript's `%` with a positive divisor: the remainder takes the sign of the dividend. */
  function JsRemainder(a: int, b: int): (r: int)
    requires b > 0
    ensures a >= 0 ==> 0 <= r < b
    ensures a < 0 ==> -b < r <= 0
  {
    if a >= 0 then a % b else -((-a) % b)
  }

  /**
   * The value of JavaScript's `%`: `a - b * trunc(a / b)`, where the quotient
   * is rounded toward zero. With the bounds above it fixes the remainder.
   */
  lemma JsRemainderIsTruncated(a: int, b: int)
    requires b > 0
    ensures a == b * (if a >= 0 then a / b else -((-a) / b)) + JsRemainder(a, b)
  {
  }

  /**
   * `seconds = Math.floor(elapsed / 1000)`, `minutes = Math.floor(seconds / 60)`,
   * `remainingSeconds = seconds % 60`. Dafny's `/` with a positive divisor is
   * the floor already.
   */
  function ClockFields(elapsed: int): (c: ClockReading)
    ensures elapsed >= 0 ==> c.minutes * 60 + c.seconds == elapsed / 1000
    ensures elapsed >= 0 ==> 0 <= c.minutes && 0 <= c.seconds < 60
    ensures elapsed < 0 ==> c.minutes < 0
  {
    var seconds := elapsed / 1000;
    ClockReading(seconds / 60, JsRemainder(seconds, 60))
  }

  predicate IsDigit(c: char) { '0' <= c <= '9' }

  predicate AllDigits(s: string) { forall i :: 0 <= i < |s| ==> IsDigit(s[i]) }

  function DigitChar(d: nat): (c: char)
    requires d < 10
    ensures IsDigit(c)
  {
    ('0' as int + d) as char
  }

  /** `String(n)` for a non-negative integer: decimal digits, no leading zero. */
  function Decimal(n: nat): (s: string)
    ensures |s| >= 1 && AllDigits(s)
    ensures n < 10 <==> |s| == 1
    ensures 10 <= n < 100 ==> |s| == 2
    ensures s[0] == '0' <==> n == 0
    decreases n
  {
    if n < 10 then [DigitChar(n)] else Decimal(n / 10) + [DigitChar(n % 10)]
  }

  /** `String(i)` for any integer (`String(-0)` is `"0"`, which integers cannot tell apart anyway). */
  function JsIntString(i: int): (s: string)
    ensures |s| >= 1
    ensures s[0] == '-' <==> i < 0
    ensures AllDigits(if i < 0 then s[1..] else s)
    ensures |s| == 1 <==> 0 <= i < 10
  {
    if i < 0 then "-" + Decimal(-i) else Decimal(i)
  }

  /** `s.padStart(width, c)`: prefix copies of `c` up to `width` characters. */
  function PadStart(s: string, width: nat, c: char): (r: string)
    ensures |r| == if |s| >= width then |s| else width
    ensures r[|r| - |s|..] == s
    ensures forall i :: 0 <= i < |r| - |s| ==> r[i] == c
  {
    if |s| >= width then s else seq(width - |s|, _ => c) + s
  }

  /** The timer's text for `elapsed` milliseconds. */
  function FormatClock(elapsed: int): string
  {
    var c := ClockFields(elapsed);
    PadStart(JsIntString(c.minutes), 2, '0') + ":" + PadStart(JsIntString(c.seconds), 2, '0')
  }

  /**
   * The shown text has two padded fields and a colon, so at least five
   * characters, and starts with a minus sign exactly when the elapsed time
   * is negative.
   */
  lemma FormatClockShape(elapsed: int)
    ensures |FormatClock(elapsed)| >= 5
    ensures FormatClock(elapsed)[0] == '-' <==> elapsed < 0
  {
    var c := ClockFields(elapsed);
    var mm := PadStart(JsIntString(c.minutes), 2, '0');
    assert mm[0] == '-' <==> c.minutes < 0;
    assert FormatClock(elapsed)[0] == mm[0];
  }

  /** Value of a digit string; the inverse of `Decimal`. */
  function ParseDecimal(s: string): nat
    requires AllDigits(s)
    decreases |s|
  {
    if |s| == 0 then 0
    else ParseDecimal(s[..|s| - 1]) * 10 + (s[|s| - 1] as int - '0' as int)
  }

  /**
   * Reads an `mm:ss` text back: two digits of seconds after the last colon,
   * one or more digits of minutes before it.
   */
  function ParseClock(s: string): Option<ClockReading>
  {
    if |s| >= 4 && s[|s| - 3] == ':' && AllDigits(s[..|s| - 3]) && AllDigits(s[|s| - 2..])
    then Some(ClockReading(ParseDecimal(s[..|s| - 3]), ParseDecimal(s[|s| - 2..])))
    else None
  }

  lemma {:induction false} ParseDecimalOfDecimal(n: nat)
    ensures ParseDecimal(Decimal(n)) == n
    decreases n
  {
    if n >= 10 {
      var s := Decimal(n);
      assert s[..|s| - 1] == Decimal(n / 10);
      ParseDecimalOfDecimal(n / 10);
    }
  }

  /** A leading zero does not change the value of a digit string. */
  lemma {:induction false} ParseDecimalLeadingZero(s: string)
    requires AllDigits(s)
    ensures AllDigits("0" + s) && ParseDecimal("0" + s) == ParseDecimal(s)
    decreases |s|
  {
    var t := "0" + s;
    if |s| > 0 {
      assert t[..|t| - 1] == "0" + s[..|s| - 1];
      ParseDecimalLeadingZero(s[..|s| - 1]);
    }
  }

  /** Zero-padding a non-negative number to two places keeps its digits and its value. */
  lemma PaddedDecimal(n: nat)
    ensures AllDigits(PadStart(Decimal(n), 2, '0'))
    ensures ParseDecimal(PadStart(Decimal(n), 2, '0')) == n
    ensures |PadStart(Decimal(n), 2, '0')| >= 2
    ensures n < 100 ==> |PadStart(Decimal(n), 2, '0')| == 2
  {
    ParseDecimalOfDecimal(n);
    if n < 10 {
      assert PadStart(Decimal(n), 2, '0') == "0" + Decimal(n);
      ParseDecimalLeadingZero(Decimal(n));
    }
  }

  /** A text of one or more minute digits, a colon and two second digits reads back field by field. */
  lemma ParseClockOfFields(mm: string, ss: string)
    requires |mm| >= 1 && |ss| == 2 && AllDigits(mm) && AllDigits(ss)
    ensures ParseClock(mm + ":" + ss) == Some(ClockReading(ParseDecimal(mm), ParseDecimal(ss)))
  {
    var s := mm + ":" + ss;
    assert s[..|s| - 3] == mm;
    assert s[|s| - 2..] == ss;
  }

  /**
   * For a non-negative elapsed time the text is the zero-padded minutes, a
   * colon and exactly two digits of seconds, and it reads back as the
   * minutes and seconds the timer computed.
   */
  lemma FormatClockRoundTrip(elapsed: int)
    requires elapsed >= 0
    ensures ParseClock(FormatClock(elapsed)) == Some(ClockFields(elapsed))
  {
    var c := ClockFields(elapsed);
    var mm := PadStart(Decimal(c.minutes), 2, '0');
    var ss := PadStart(Decimal(c.seconds), 2, '0');
    assert FormatClock(elapsed) == mm + ":" + ss by {
      assert JsIntString(c.minutes) == Decimal(c.minutes);
      assert JsIntString(c.seconds) == Decimal(c.seconds);
    }
    PaddedDecimal(c.minutes);
    PaddedDecimal(c.seconds);
    ParseClockOfFields(mm, ss);
  }

  /** Below one second the timer shows `00:00`. */
  lemma UnderOneSecond(elapsed: int)
    requires 0 <= elapsed < 1000
    ensures FormatClock(elapsed) == "00:00"
  {
  }

  /** There is no hour field: one hour shows as sixty minutes. */
  lemma OneHourShowsSixtyMinutes()
    ensures FormatClock(3_600_000) == "60:00"
  {
    assert ClockFields(3_600_000) == ClockReading(60, 0);
    assert JsIntString(60) == "60" by {
      assert Decimal(6) == "6";
    }
    assert PadStart("60", 2, '0') == "60";
    assert PadStart(JsIntString(0), 2, '0') == "00";
  }

  /**
   * A start time later than the clock (a negative elapsed time) is not
   * rejected: floor and the truncating remainder give `-1:-1` for -1 ms.
   */
  lemma NegativeElapsed()
    ensures FormatClock(-1) == "-1:-1"
  {
    assert ClockFields(-1) == ClockReading(-1, -1);
    assert JsIntString(-1) == "-1";
    assert PadStart("-1", 2, '0') == "-1";
  }
}
