/**
 * Times of day as the form's time pickers deliver them, the order the
 * validator compares them by, and their `strftime("%H:%M")` rendering.
 */
module Clock {
  import opened Wrappers

  type Hour = h: nat | h < 24
  type Minute = m: nat | m < 60

  /** A time of day at the minute resolution of the time picker. */
  datatype Time = Time(hour: Hour, minute: Minute)

  /** Python's `a <= b` on time values: lexicographic on (hour, minute). */
  predicate AtOrBefore(a: Time, b: Time) {
    a.hour < b.hour || (a.hour == b.hour && a.minute <= b.minute)
  }

  /** Minutes elapsed since midnight. */
  function MinuteOfDay(t: Time): (m: nat)
    ensures m < 24 * 60
  {
    60 * t.hour + t.minute
  }

  /** The lexicographic comparison agrees with comparing minutes since midnight. */
  lemma AtOrBeforeByMinutes(a: Time, b: Time)
    ensures AtOrBefore(a, b) <==> MinuteOfDay(a) <= MinuteOfDay(b)
  {
  }

  /** AtOrBefore is a total order on times of day. */
  lemma AtOrBeforeTotalOrder(a: Time, b: Time, c: Time)
    ensures AtOrBefore(a, a)
    ensures AtOrBefore(a, b) || AtOrBefore(b, a)
    ensures AtOrBefore(a, b) && AtOrBefore(b, a) ==> a == b
    ensures AtOrBefore(a, b) && AtOrBefore(b, c) ==> AtOrBefore(a, c)
  {
  }

  predicate IsDigit(ch: char) {
    '0' <= ch <= '9'
  }

  function DigitValue(ch: char): (d: nat)
    requires IsDigit(ch)
    ensures d < 10
  {
    ch as int - '0' as int
  }

  function DigitChar(d: nat): (ch: char)
    requires d < 10
    ensures IsDigit(ch) && DigitValue(ch) == d
  {
    ('0' as int + d) as char
  }

  /** The zero-padded two-digit decimal rendering of n. */
  function TwoDigits(n: nat): (s: string)
    requires n < 100
    ensures |s| == 2 && IsDigit(s[0]) && IsDigit(s[1])
    ensures 10 * DigitValue(s[0]) + DigitValue(s[1]) == n
  {
    [DigitChar(n / 10), DigitChar(n % 10)]
  }

  /** The value of the two decimal digits at positions i and i + 1 of s. */
  function PairValue(s: string, i: nat): nat
    requires i + 1 < |s| && IsDigit(s[i]) && IsDigit(s[i + 1])
  {
    10 * DigitValue(s[i]) + DigitValue(s[i + 1])
  }

  /** s has the `HH:MM` shape: five characters, hour 00-23, a colon, minute 00-59. */
  predicate IsClockText(s: string) {
    && |s| == 5
    && IsDigit(s[0]) && IsDigit(s[1]) && s[2] == ':' && IsDigit(s[3]) && IsDigit(s[4])
    && PairValue(s, 0) < 24 && PairValue(s, 3) < 60
  }

  /** `t.strftime("%H:%M")`. */
  function Format(t: Time): (s: string)
    ensures IsClockText(s)
    ensures PairValue(s, 0) == t.hour && PairValue(s, 3) == t.minute
  {
    TwoDigits(t.hour) + [':'] + TwoDigits(t.minute)
  }

  /** Reads an `HH:MM` text back as a time of day; None for any other text. */
  function Parse(s: string): (r: Option<Time>)
    ensures r.Some? <==> IsClockText(s)
  {
    if IsClockText(s) then Some(Time(PairValue(s, 0), PairValue(s, 3))) else None
  }

  /** Reading back a rendered time gives the time. */
  lemma ParseFormat(t: Time)
    ensures Parse(Format(t)) == Some(t)
  {
  }

  /** Every `HH:MM` text is the rendering of the time it reads as. */
  lemma FormatParse(s: string)
    requires IsClockText(s)
    ensures Format(Parse(s).value) == s
  {
  }

  /** Distinct times render as distinct texts. */
  lemma FormatInjective(a: Time, b: Time)
    requires Format(a) == Format(b)
    ensures a == b
  {
  }
}
