/**
 * The preferred time of day: the pattern the bot accepts at its time step,
 * the hour and minute the scheduler reads back out of an accepted string,
 * and the renderings that produce exactly the accepted strings.
 */
module TimeOfDay {

  predicate IsDigit(c: char) {
    '0' <= c <= '9'
  }

  function DigitValue(c: char): (d: nat)
    requires IsDigit(c)
    ensures d < 10
  {
    c as int - '0' as int
  }

  function DigitChar(d: nat): (c: char)
    requires d < 10
    ensures IsDigit(c) && DigitValue(c) == d
  {
    ('0' as int + d) as char
  }

  /** `[01]?[0-9]|2[0-3]`: one digit, or two digits from 00 to 23. */
  predicate HourField(h: string) {
    || (|h| == 1 && IsDigit(h[0]))
    || (|h| == 2 && (h[0] == '0' || h[0] == '1') && IsDigit(h[1]))
    || (|h| == 2 && h[0] == '2' && '0' <= h[1] <= '3')
  }

  /** `[0-5][0-9]`: exactly two digits from 00 to 59. */
  predicate MinuteField(m: string) {
    |m| == 2 && '0' <= m[0] <= '5' && IsDigit(m[1])
  }

  /**
   * The anchored pattern `^([01]?[0-9]|2[0-3]):[0-5][0-9]$`. The minute
   * field is always two characters, so the colon is always third from the end.
   */
  predicate ValidTime(s: string) {
    (|s| == 4 || |s| == 5) && s[|s| - 3] == ':' && HourField(s[..|s| - 3]) && MinuteField(s[|s| - 2..])
  }

  /** `Number` applied to a string of one or two decimal digits. */
  function FieldValue(f: string): (n: nat)
    requires 1 <= |f| <= 2 && forall i :: 0 <= i < |f| ==> IsDigit(f[i])
    ensures n < 100
  {
    if |f| == 1 then DigitValue(f[0]) else 10 * DigitValue(f[0]) + DigitValue(f[1])
  }

  /** `s.split(":").map(Number)` on an accepted string: the hour and the minute it names. */
  function ParseTime(s: string): (hm: (nat, nat))
    requires ValidTime(s)
    ensures hm.0 < 24 && hm.1 < 60
  {
    (FieldValue(s[..|s| - 3]), FieldValue(s[|s| - 2..]))
  }

  /** Writes hour `h` and minute `m` as `H:MM`, or as `HH:MM` when `padHour` holds or the hour has two digits. */
  function Render(h: nat, m: nat, padHour: bool): string
    requires h < 24 && m < 60
  {
    var hour := if padHour || h >= 10 then [DigitChar(h / 10), DigitChar(h % 10)] else [DigitChar(h)];
    hour + [':', DigitChar(m / 10), DigitChar(m % 10)]
  }

  /** Every rendering is accepted and reads back as the hour and minute it was made from. */
  lemma RenderAccepted(h: nat, m: nat, padHour: bool)
    requires h < 24 && m < 60
    ensures ValidTime(Render(h, m, padHour))
    ensures ParseTime(Render(h, m, padHour)) == (h, m)
  {
    var s := Render(h, m, padHour);
    var n := |s|;
    assert s[n - 2..] == [DigitChar(m / 10), DigitChar(m % 10)];
    if padHour || h >= 10 {
      assert s[..n - 3] == [DigitChar(h / 10), DigitChar(h % 10)];
    } else {
      assert s[..n - 3] == [DigitChar(h)];
    }
  }

  /** Every accepted string is the rendering of the hour and minute it names. */
  lemma AcceptedIsRendered(s: string)
    requires ValidTime(s)
    ensures s == Render(ParseTime(s).0, ParseTime(s).1, |s| == 5)
  {
    var (h, m) := ParseTime(s);
    var r := Render(h, m, |s| == 5);
    assert |r| == |s|;
    forall i | 0 <= i < |s|
      ensures r[i] == s[i]
    {
    }
  }

  /** The accepted strings are exactly the renderings of the times of day from 0:00 to 23:59. */
  lemma ValidTimeIsRendering(s: string)
    ensures ValidTime(s) <==> exists h: nat, m: nat, pad :: h < 24 && m < 60 && s == Render(h, m, pad)
  {
    if ValidTime(s) {
      AcceptedIsRendered(s);
    }
    forall h: nat, m: nat, pad | h < 24 && m < 60 && s == Render(h, m, pad)
      ensures ValidTime(s)
    {
      RenderAccepted(h, m, pad);
    }
  }

  /** The cases the bot's time step is meant to accept and refuse. */
  lemma TimeExamples()
    ensures ValidTime("23:59") && ValidTime("09:05") && ValidTime("9:05") && ValidTime("0:00")
    ensures !ValidTime("24:00") && !ValidTime("9:5") && !ValidTime("12:60") && !ValidTime(" 9:05")
    ensures ParseTime("09:05") == (9, 5) && ParseTime("9:05") == (9, 5) && ParseTime("23:59") == (23, 59)
  {
  }
}
