/**
 * The `format_time` template filter: a string of the form `H:M:00` read as
 * a 24-hour time of day is shown as `hh:mm AM` or `hh:mm PM`; anything else
 * is shown as it came.
 *
 * The reading follows `datetime.strptime(value, '%H:%M:00')`: the hour is
 * one digit, or two digits from 00 to 23; the minute one digit, or two
 * digits from 00 to 59; then the literal `:00`, and nothing after it. The
 * writing follows `strftime('%I:%M %p')` in the C locale.
 */
module TimeFormat {
  import opened Wrappers
  import opened JsonValues

  datatype Clock = Clock(hour: nat, minute: nat)

  predicate ValidClock(c: Clock)
  {
    c.hour < 24 && c.minute < 60
  }

  predicate IsDigit(c: char)
  {
    '0' <= c <= '9'
  }

  function DigitValue(c: char): nat
    requires IsDigit(c)
  {
    c as nat - '0' as nat
  }

  /**
   * One numeric field of the format: a single digit, or two digits worth at
   * most `max`, followed by a colon. The value and the number of digits.
   */
  function ReadField(t: string, max: nat): (r: Option<(nat, nat)>)
    ensures r.Some? ==> r.value.0 <= max || r.value.1 == 1
    ensures r.Some? ==> r.value.0 < 100 && (r.value.1 == 1 || r.value.1 == 2) && r.value.1 < |t| && t[r.value.1] == ':'
    ensures r.Some? ==> IsDigit(t[0]) && (r.value.1 == 2 ==> IsDigit(t[1]))
    ensures r.Some? ==> r.value.0 == if r.value.1 == 1 then DigitValue(t[0]) else DigitValue(t[0]) * 10 + DigitValue(t[1])
    ensures r.None? && |t| >= 2 && IsDigit(t[0]) ==> t[1] != ':'
  {
    if |t| >= 2 && IsDigit(t[0]) && t[1] == ':' then Some((DigitValue(t[0]), 1))
    else if |t| >= 3 && IsDigit(t[0]) && IsDigit(t[1]) && t[2] == ':' && DigitValue(t[0]) * 10 + DigitValue(t[1]) <= max then
      Some((DigitValue(t[0]) * 10 + DigitValue(t[1]), 2))
    else None
  }

  /**
   * `strptime(s, '%H:%M:00')`, or None where it raises `ValueError`. What
   * it accepts is exactly the text of the clock it reads, each field padded
   * where the text has two digits for it (ParseWrite24 is the converse).
   */
  function ParseClock(s: string): (r: Option<Clock>)
    ensures r.Some? ==> ValidClock(r.value)
    ensures r.Some? ==> 6 <= |s| <= 8 && s[|s| - 3..] == ":00"
    ensures r.Some? ==> s == Write24(r.value, s[1] != ':', s[|s| - 5] != ':')
  {
    match ReadField(s, 23)
    case None => None
    case Some((hour, hourDigits)) =>
      var rest := s[hourDigits + 1..];
      match ReadField(rest, 59)
      case None => None
      case Some((minute, minuteDigits)) =>
        if rest[minuteDigits..] == ":00" then
          FieldTextOfDigits(s, hourDigits, hour);
          FieldTextOfDigits(rest, minuteDigits, minute);
          assert s == s[..hourDigits] + ":" + rest[..minuteDigits] + ":00";
          Some(Clock(hour, minute))
        else None
  }

  /** A number below 100 as two digits, zero-padded (`%02d`). */
  function Pad2(n: nat): (r: string)
    requires n < 100
    ensures |r| == 2 && IsDigit(r[0]) && IsDigit(r[1]) && DigitValue(r[0]) * 10 + DigitValue(r[1]) == n
  {
    ["0123456789"[n / 10], "0123456789"[n % 10]]
  }

  /** The hour on a 12-hour clock face (`%I`). */
  function Hour12(hour: nat): (h: nat)
    requires hour < 24
    ensures 1 <= h <= 12
    ensures hour == 0 ==> h == 12
    ensures 1 <= hour <= 12 ==> h == hour
    ensures 13 <= hour ==> h == hour - 12
  {
    if hour % 12 == 0 then 12 else hour % 12
  }

  /** `strftime('%I:%M %p')`. */
  function Render(c: Clock): (r: string)
    requires ValidClock(c)
    ensures |r| == 8 && r[2] == ':' && r[5] == ' ' && r[7] == 'M'
    ensures IsDigit(r[0]) && IsDigit(r[1]) && IsDigit(r[3]) && IsDigit(r[4])
    ensures DigitValue(r[0]) * 10 + DigitValue(r[1]) == Hour12(c.hour)
    ensures DigitValue(r[3]) * 10 + DigitValue(r[4]) == c.minute
    ensures r[6] == (if c.hour < 12 then 'A' else 'P')
  {
    Pad2(Hour12(c.hour)) + ":" + Pad2(c.minute) + " " + (if c.hour < 12 then "AM" else "PM")
  }

  /** `format_time(value)`: only a string that reads as a time of day is rewritten. */
  function FormatTime(value: Json): (r: Json)
    ensures !value.JStr? ==> r == value
    ensures value.JStr? && ParseClock(value.s).None? ==> r == value
    ensures value.JStr? && ParseClock(value.s).Some? ==> r == JStr(Render(ParseClock(value.s).value))
  {
    if value.JStr? then
      match ParseClock(value.s)
      case Some(c) => JStr(Render(c))
      case None => value
    else value
  }

  /** The digit standing for a value below ten. */
  function Digit(n: nat): (c: char)
    requires n < 10
    ensures IsDigit(c) && DigitValue(c) == n
  {
    "0123456789"[n]
  }

  lemma DigitOfValue(c: char)
    requires IsDigit(c)
    ensures Digit(DigitValue(c)) == c
  {
  }

  /**
   * A field as `%H` or `%M` is written: zero-padded to two digits, or a
   * single digit when the value is below ten and no padding is asked for.
   */
  function FieldText(n: nat, pad: bool): string
    requires n < 100
  {
    if pad || n >= 10 then Pad2(n) else [Digit(n)]
  }

  /** The 24-hour text `H:M:00` of a time of day, with or without padding. */
  function Write24(c: Clock, padHour: bool, padMinute: bool): string
    requires ValidClock(c)
  {
    FieldText(c.hour, padHour) + ":" + FieldText(c.minute, padMinute) + ":00"
  }

  lemma ReadFieldText(n: nat, pad: bool, max: nat, tail: string)
    requires n < 100 && n <= max
    requires |tail| > 0 && tail[0] == ':'
    ensures ReadField(FieldText(n, pad) + tail, max) == Some((n, |FieldText(n, pad)|))
  {
    var t := FieldText(n, pad) + tail;
    if |FieldText(n, pad)| == 2 {
      assert t[2] == ':' && t[1] != ':';
    }
  }

  /**
   * The filter reads the 24-hour text of every time of day, whether the
   * hour and the minute are zero-padded or not.
   */
  lemma ParseWrite24(c: Clock, padHour: bool, padMinute: bool)
    requires ValidClock(c)
    ensures ParseClock(Write24(c, padHour, padMinute)) == Some(c)
  {
    var h := FieldText(c.hour, padHour);
    var m := FieldText(c.minute, padMinute);
    var s := Write24(c, padHour, padMinute);
    assert s == h + (":" + m + ":00");
    ReadFieldText(c.hour, padHour, 23, ":" + m + ":00");
    var rest := s[|h| + 1..];
    assert rest == m + ":00";
    ReadFieldText(c.minute, padMinute, 59, ":00");
    assert rest[|m|..] == ":00";
  }

  lemma FieldTextOfDigits(t: string, k: nat, v: nat)
    requires (k == 1 || k == 2) && k <= |t| && IsDigit(t[0]) && (k == 2 ==> IsDigit(t[1]))
    requires v == if k == 1 then DigitValue(t[0]) else DigitValue(t[0]) * 10 + DigitValue(t[1])
    ensures v < 100 && FieldText(v, k == 2) == t[..k]
  {
    DigitOfValue(t[0]);
    if k == 2 {
      DigitOfValue(t[1]);
      SplitTens(DigitValue(t[0]), DigitValue(t[1]));
      assert Pad2(v) == [Digit(DigitValue(t[0])), Digit(DigitValue(t[1]))];
    }
  }

  lemma SplitTens(a: nat, b: nat)
    requires a < 10 && b < 10
    ensures (a * 10 + b) / 10 == a && (a * 10 + b) % 10 == b
  {
  }

  /** Reads the 12-hour text back: the clock a rendered string stands for. */
  function ReadTwelve(t: string): (r: Option<Clock>)
  {
    if |t| == 8 && IsDigit(t[0]) && IsDigit(t[1]) && t[2] == ':' && IsDigit(t[3]) && IsDigit(t[4]) && t[5] == ' '
       && (t[6..] == "AM" || t[6..] == "PM")
    then
      var h := DigitValue(t[0]) * 10 + DigitValue(t[1]);
      var m := DigitValue(t[3]) * 10 + DigitValue(t[4]);
      Some(Clock((if h == 12 then 0 else h) + (if t[6] == 'P' then 12 else 0), m))
    else None
  }

  /**
   * Nothing is lost by the rewrite: the 12-hour text gives back the time
   * of day it was made from, so two different times never look alike.
   */
  lemma RenderReadsBack(c: Clock)
    requires ValidClock(c)
    ensures ReadTwelve(Render(c)) == Some(c)
  {
    var r := Render(c);
    assert r[6..] == (if c.hour < 12 then "AM" else "PM");
  }

  /**
   * The filter is idempotent: its output is not of the form `H:M:00` (a
   * space follows the minute, not a colon), so a second pass leaves it as
   * it is.
   */
  lemma FormatTimeIdempotent(value: Json)
    ensures FormatTime(FormatTime(value)) == FormatTime(value)
  {
    if value.JStr? && ParseClock(value.s).Some? {
      var r := Render(ParseClock(value.s).value);
      assert ReadField(r, 23) == Some((DigitValue(r[0]) * 10 + DigitValue(r[1]), 2));
      assert ReadField(r[3..], 59).None?;
    }
  }

  /** Seconds other than `00` are not accepted, whatever the hour and minute. */
  lemma NonZeroSecondsUnchanged(c: Clock, seconds: string)
    requires ValidClock(c)
    requires seconds != "00"
    ensures FormatTime(JStr(Pad2(c.hour) + ":" + Pad2(c.minute) + ":" + seconds)) == JStr(Pad2(c.hour) + ":" + Pad2(c.minute) + ":" + seconds)
  {
    var s := Pad2(c.hour) + ":" + Pad2(c.minute) + ":" + seconds;
    assert ReadField(s, 23) == Some((c.hour, 2));
    var rest := s[3..];
    assert rest == Pad2(c.minute) + ":" + seconds;
    assert ReadField(rest, 59) == Some((c.minute, 2));
    assert rest[2..] == ":" + seconds;
    assert (":" + seconds)[1..] == seconds && ":00"[1..] == "00";
  }
}
