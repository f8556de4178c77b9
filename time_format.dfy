/**
 * The time-of-day pattern `/^([01]?[0-9]|2[0-3]):[0-5][0-9]$/` shared by
 * booking.validation.js and business.validation.js, and its reading as minutes.
 */
module TimeFormat {

  predicate IsDigit(c: char)
  {
    '0' <= c <= '9'
  }

  function DigitValue(c: char): int
  {
    c as int - '0' as int
  }

  function DigitChar(d: int): (c: char)
    requires 0 <= d < 10
    ensures IsDigit(c) && DigitValue(c) == d
  {
    ('0' as int + d) as char
  }

  /** `HH:MM` with both fields padded to two digits. */
  function Padded(h: int, m: int): (s: string)
    requires 0 <= h < 100 && 0 <= m < 100
    ensures |s| == 5
  {
    [DigitChar(h / 10), DigitChar(h % 10), ':', DigitChar(m / 10), DigitChar(m % 10)]
  }

  /** `H:MM` with a one-digit hour. */
  function Unpadded(h: int, m: int): (s: string)
    requires 0 <= h < 10 && 0 <= m < 100
    ensures |s| == 4
  {
    [DigitChar(h), ':', DigitChar(m / 10), DigitChar(m % 10)]
  }

  /**
   * What the pattern describes: an hour 0-23, written with two digits or
   * (below 10) with one, a colon, and a two-digit minute 00-59.
   */
  ghost predicate IsTimeOfDay(s: string)
  {
    exists h, m :: 0 <= h < 24 && 0 <= m < 60 && (s == Padded(h, m) || (h < 10 && s == Unpadded(h, m)))
  }

  /** The pattern, alternative by alternative: `[01]?[0-9]` or `2[0-3]`, then `:[0-5][0-9]`. */
  predicate MatchesTime(s: string)
  {
    if |s| == 4 then
      IsDigit(s[0]) && s[1] == ':' && '0' <= s[2] <= '5' && IsDigit(s[3])
    else if |s| == 5 then
      (((s[0] == '0' || s[0] == '1') && IsDigit(s[1])) || (s[0] == '2' && '0' <= s[1] <= '3')) &&
      s[2] == ':' && '0' <= s[3] <= '5' && IsDigit(s[4])
    else false
  }

  /** The hour and minute written in an accepted time. */
  function HourOf(s: string): (h: int)
    requires MatchesTime(s)
    ensures 0 <= h < 24
    ensures |s| == 4 ==> h < 10
  {
    if |s| == 4 then DigitValue(s[0]) else 10 * DigitValue(s[0]) + DigitValue(s[1])
  }

  function MinuteOf(s: string): (m: int)
    requires MatchesTime(s)
    ensures 0 <= m < 60
  {
    10 * DigitValue(s[|s| - 2]) + DigitValue(s[|s| - 1])
  }

  /** An accepted time as minutes after midnight. */
  function ToMinutes(s: string): (t: int)
    requires MatchesTime(s)
    ensures 0 <= t < 24 * 60
  {
    HourOf(s) * 60 + MinuteOf(s)
  }

  /** Reading a time back from its text gives the text again. */
  lemma {:induction false} ReadBack(s: string)
    requires MatchesTime(s)
    ensures |s| == 5 ==> s == Padded(HourOf(s), MinuteOf(s))
    ensures |s| == 4 ==> s == Unpadded(HourOf(s), MinuteOf(s))
  {
    var m := MinuteOf(s);
    assert m / 10 == DigitValue(s[|s| - 2]) && m % 10 == DigitValue(s[|s| - 1]);
    if |s| == 5 {
      var h := HourOf(s);
      assert h / 10 == DigitValue(s[0]) && h % 10 == DigitValue(s[1]);
      assert DigitChar(h / 10) == s[0] && DigitChar(h % 10) == s[1];
      assert DigitChar(m / 10) == s[3] && DigitChar(m % 10) == s[4];
    } else {
      assert DigitChar(HourOf(s)) == s[0];
      assert DigitChar(m / 10) == s[2] && DigitChar(m % 10) == s[3];
    }
  }

  /** Writing an hour and minute and reading them back is the identity, in both widths. */
  lemma RenderRoundTrip(h: int, m: int)
    requires 0 <= h < 24 && 0 <= m < 60
    ensures MatchesTime(Padded(h, m)) && HourOf(Padded(h, m)) == h && MinuteOf(Padded(h, m)) == m
    ensures h < 10 ==> MatchesTime(Unpadded(h, m)) && HourOf(Unpadded(h, m)) == h && MinuteOf(Unpadded(h, m)) == m
  {
  }

  /** The character test accepts exactly the times of day the pattern describes. */
  lemma MatchesTimeIsTimeOfDay(s: string)
    ensures MatchesTime(s) <==> IsTimeOfDay(s)
  {
    if MatchesTime(s) {
      ReadBack(s);
      var h, m := HourOf(s), MinuteOf(s);
      assert s == Padded(h, m) || (h < 10 && s == Unpadded(h, m));
    }
    if IsTimeOfDay(s) {
      var h, m :| 0 <= h < 24 && 0 <= m < 60 && (s == Padded(h, m) || (h < 10 && s == Unpadded(h, m)));
      RenderRoundTrip(h, m);
    }
  }

  /** Values outside the clock, seconds, a one-digit minute and an empty text are all refused. */
  lemma RejectedExamples()
    ensures !MatchesTime("24:00") && !MatchesTime("12:60") && !MatchesTime("12:5")
    ensures !MatchesTime("09:30:00") && !MatchesTime("")
    ensures MatchesTime("9:30") && ToMinutes("9:30") == 570
    ensures MatchesTime("00:00") && ToMinutes("00:00") == 0
    ensures MatchesTime("23:59") && ToMinutes("23:59") == 1439
  {
  }
}
