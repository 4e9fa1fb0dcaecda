/**
  Timestamps of a `datetime64` column and their text form under
  `astype(str)`: `YYYY-MM-DD HH:MM:SS`, shortened to `YYYY-MM-DD` when every
  timestamp of the column falls on midnight.
 */
module Timestamps {

  /** A naive timestamp with whole seconds. */
  datatype DateTime = DateTime(year: nat, month: nat, day: nat, hour: nat, minute: nat, second: nat)

  /** The field ranges of a calendar timestamp with a four-digit year. */
  predicate Valid(t: DateTime)
  {
    && 1 <= t.year <= 9999 && 1 <= t.month <= 12 && 1 <= t.day <= 31
    && t.hour < 24 && t.minute < 60 && t.second < 60
  }

  predicate AtMidnight(t: DateTime)
  {
    t.hour == 0 && t.minute == 0 && t.second == 0
  }

  function Pow10(w: nat): (p: nat)
    ensures p >= 1
  {
    if w == 0 then 1 else 10 * Pow10(w - 1)
  }

  predicate IsDigit(c: char)
  {
    '0' <= c <= '9'
  }

  /** The last `w` decimal digits of `n`, zero-padded on the left. */
  function Digits(n: nat, w: nat): (s: string)
    ensures |s| == w
    ensures forall i :: 0 <= i < |s| ==> IsDigit(s[i])
  {
    if w == 0 then [] else Digits(n / 10, w - 1) + [('0' as int + n % 10) as char]
  }

  /** The number a string of decimal digits denotes (non-digits count as 0). */
  function DigitsValue(s: string): nat
  {
    if s == [] then 0
    else
      var last := s[|s| - 1];
      10 * DigitsValue(s[..|s| - 1]) + (if IsDigit(last) then last as int - '0' as int else 0)
  }

  /** Padding to `w` digits loses nothing when the number fits in `w` digits. */
  lemma {:induction false} DigitsRoundTrip(n: nat, w: nat)
    requires n < Pow10(w)
    ensures DigitsValue(Digits(n, w)) == n
  {
    if w > 0 {
      DigitsRoundTrip(n / 10, w - 1);
      var s := Digits(n, w);
      assert s[..|s| - 1] == Digits(n / 10, w - 1);
    }
  }

  /** `YYYY-MM-DD`. */
  function DateText(t: DateTime): string
  {
    Digits(t.year, 4) + "-" + Digits(t.month, 2) + "-" + Digits(t.day, 2)
  }

  /** `HH:MM:SS`. */
  function ClockText(t: DateTime): string
  {
    Digits(t.hour, 2) + ":" + Digits(t.minute, 2) + ":" + Digits(t.second, 2)
  }

  /** One timestamp as `astype(str)` writes it, given the column's date-only choice. */
  function StampText(t: DateTime, datesOnly: bool): (s: string)
    ensures |s| == if datesOnly then 10 else 19
  {
    if datesOnly then DateText(t) else DateText(t) + " " + ClockText(t)
  }

  /** Reads back a text written by `StampText`; a date alone means midnight. */
  function ParseStamp(s: string): DateTime
  {
    if |s| < 10 then DateTime(0, 0, 0, 0, 0, 0)
    else
      var date := DateTime(DigitsValue(s[..4]), DigitsValue(s[5..7]), DigitsValue(s[8..10]), 0, 0, 0);
      if |s| < 19 then date
      else date.(hour := DigitsValue(s[11..13]), minute := DigitsValue(s[14..16]), second := DigitsValue(s[17..19]))
  }

  lemma DateFields(t: DateTime, s: string)
    requires Valid(t)
    requires |s| >= 10 && s[..10] == DateText(t)
    ensures DigitsValue(s[..4]) == t.year
    ensures DigitsValue(s[5..7]) == t.month
    ensures DigitsValue(s[8..10]) == t.day
  {
    assert s[..4] == Digits(t.year, 4);
    assert s[5..7] == Digits(t.month, 2);
    assert s[8..10] == Digits(t.day, 2);
    DigitsRoundTrip(t.year, 4);
    DigitsRoundTrip(t.month, 2);
    DigitsRoundTrip(t.day, 2);
  }

  lemma ClockFields(t: DateTime, s: string)
    requires Valid(t)
    requires |s| == 19 && s[11..] == ClockText(t)
    ensures DigitsValue(s[11..13]) == t.hour
    ensures DigitsValue(s[14..16]) == t.minute
    ensures DigitsValue(s[17..19]) == t.second
  {
    assert s[11..13] == Digits(t.hour, 2);
    assert s[14..16] == Digits(t.minute, 2);
    assert s[17..19] == Digits(t.second, 2);
    DigitsRoundTrip(t.hour, 2);
    DigitsRoundTrip(t.minute, 2);
    DigitsRoundTrip(t.second, 2);
  }

  /**
    The text form is lossless: a valid timestamp is read back exactly, in
    the full form always and in the date-only form when it is at midnight.
   */
  lemma StampRoundTrip(t: DateTime, datesOnly: bool)
    requires Valid(t)
    requires datesOnly ==> AtMidnight(t)
    ensures ParseStamp(StampText(t, datesOnly)) == t
  {
    var s := StampText(t, datesOnly);
    assert s[..10] == DateText(t);
    DateFields(t, s);
    if !datesOnly {
      assert s[11..] == ClockText(t);
      ClockFields(t, s);
    }
  }
}
