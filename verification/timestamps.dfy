/** Calendar timestamps and the two `strftime` layouts the dashboard uses:
    `%Y-%m-%d %H:%M` for display (lt2315.py:35, 95, 169) and
    `%d-%m-%y %H:%M` for the summary download (lt2315.py:256). */
module Timestamps {
  import opened Wrappers

  /** A parsed `TimeStamp` cell, to the second. */
  datatype DateTime = DateTime(year: int, month: int, day: int, hour: int, minute: int, second: int)

  predicate LeapYear(y: int) {
    (y % 4 == 0 && y % 100 != 0) || y % 400 == 0
  }

  function DaysInMonth(y: int, m: int): (n: int)
    requires 1 <= m <= 12
    ensures 28 <= n <= 31
  {
    if m == 2 then (if LeapYear(y) then 29 else 28)
    else if m == 4 || m == 6 || m == 9 || m == 11 then 30
    else 31
  }

  /** A real calendar instant. pandas timestamps lie between the years 1677
      and 2262, so four-digit years cover every value `pd.to_datetime` yields. */
  predicate Valid(t: DateTime) {
    && 1000 <= t.year <= 9999
    && 1 <= t.month <= 12
    && 1 <= t.day <= DaysInMonth(t.year, t.month)
    && 0 <= t.hour < 24
    && 0 <= t.minute < 60
    && 0 <= t.second < 60
  }

  type ValidDateTime = t: DateTime | Valid(t) witness DateTime(2000, 1, 1, 0, 0, 0)

  /** What survives formatting to the minute: everything but the seconds. */
  datatype Minute = Minute(year: int, month: int, day: int, hour: int, minute: int)

  function ToMinute(t: DateTime): Minute {
    Minute(t.year, t.month, t.day, t.hour, t.minute)
  }

  function Digit(d: int): (c: char)
    requires 0 <= d <= 9
    ensures '0' <= c <= '9'
  {
    ('0' as int + d) as char
  }

  /** `%02d`-style rendering. */
  function Pad2(n: int): (s: string)
    requires 0 <= n <= 99
    ensures |s| == 2
  {
    [Digit(n / 10), Digit(n % 10)]
  }

  /** `%Y` for a four-digit year. */
  function Pad4(n: int): (s: string)
    requires 0 <= n <= 9999
    ensures |s| == 4
  {
    Pad2(n / 100) + Pad2(n % 100)
  }

  /** `strftime("%Y-%m-%d %H:%M")`, the form shown on the dashboard. */
  function DisplayStamp(t: ValidDateTime): (s: string)
    ensures |s| == 16
    ensures s[4] == '-' && s[7] == '-' && s[10] == ' ' && s[13] == ':'
  {
    Pad4(t.year) + "-" + Pad2(t.month) + "-" + Pad2(t.day) + " " + Pad2(t.hour) + ":" + Pad2(t.minute)
  }

  /** `strftime("%d-%m-%y %H:%M")`, the form written to the summary download;
      `%y` is the year modulo 100. */
  function ExportStamp(t: ValidDateTime): (s: string)
    ensures |s| == 14
    ensures s[2] == '-' && s[5] == '-' && s[8] == ' ' && s[11] == ':'
  {
    Pad2(t.day) + "-" + Pad2(t.month) + "-" + Pad2(t.year % 100) + " " + Pad2(t.hour) + ":" + Pad2(t.minute)
  }

  function DigitValue(c: char): (d: Option<int>)
    ensures d.Some? ==> 0 <= d.value <= 9
  {
    if '0' <= c <= '9' then Some(c as int - '0' as int) else None
  }

  function Parse2(s: string): (n: Option<int>)
    requires |s| == 2
    ensures n.Some? ==> 0 <= n.value <= 99
  {
    match (DigitValue(s[0]), DigitValue(s[1]))
    case (Some(a), Some(b)) => Some(10 * a + b)
    case _ => None
  }

  /** Reads a display-form string back; the left inverse of `DisplayStamp`. */
  function ParseDisplay(s: string): Option<Minute> {
    if |s| != 16 || s[4] != '-' || s[7] != '-' || s[10] != ' ' || s[13] != ':' then None
    else
      match (Parse2(s[0..2]), Parse2(s[2..4]), Parse2(s[5..7]), Parse2(s[8..10]), Parse2(s[11..13]), Parse2(s[14..16]))
      case (Some(c), Some(y), Some(mo), Some(d), Some(h), Some(mi)) => Some(Minute(100 * c + y, mo, d, h, mi))
      case _ => None
  }

  /** Reorders a display-form string into the export form: `YYYY-MM-DD HH:MM`
      becomes `DD-MM-YY HH:MM`. */
  function DisplayToExport(s: string): string
    requires |s| == 16
  {
    s[8..10] + "-" + s[5..7] + "-" + s[2..4] + s[10..16]
  }

  lemma Pad2RoundTrip(n: int)
    requires 0 <= n <= 99
    ensures Parse2(Pad2(n)) == Some(n)
  {
    var s := Pad2(n);
    assert DigitValue(s[0]) == Some(n / 10);
    assert DigitValue(s[1]) == Some(n % 10);
  }

  /** Parsing a displayed stamp recovers the instant to the minute. */
  lemma DisplayRoundTrip(t: ValidDateTime)
    ensures ParseDisplay(DisplayStamp(t)) == Some(ToMinute(t))
  {
  }

  /** Two instants display alike exactly when they agree to the minute:
      seconds are dropped and nothing else is. */
  lemma DisplayInjectiveToMinute(t: ValidDateTime, u: ValidDateTime)
    ensures DisplayStamp(t) == DisplayStamp(u) <==> ToMinute(t) == ToMinute(u)
  {
    if DisplayStamp(t) == DisplayStamp(u) {
      DisplayRoundTrip(t);
      DisplayRoundTrip(u);
    }
  }

  /** The export stamp is the display stamp rearranged, with the century
      dropped: both come from one value and never disagree. */
  lemma ExportIsRearrangedDisplay(t: ValidDateTime)
    ensures DisplayToExport(DisplayStamp(t)) == ExportStamp(t)
  {
    var s := DisplayStamp(t);
    assert s[8..10] == Pad2(t.day);
    assert s[5..7] == Pad2(t.month);
    assert s[2..4] == Pad2(t.year % 100);
    assert s[10..16] == " " + Pad2(t.hour) + ":" + Pad2(t.minute);
  }

  /** The export form is not injective: any two instants whose years differ
      but agree modulo 100, and which agree to the minute otherwise, share an
      export stamp while their display stamps differ. */
  lemma ExportLosesCentury(t: ValidDateTime, u: ValidDateTime)
    requires t.year != u.year && t.year % 100 == u.year % 100
    requires t.month == u.month && t.day == u.day && t.hour == u.hour && t.minute == u.minute
    ensures ExportStamp(t) == ExportStamp(u)
    ensures DisplayStamp(t) != DisplayStamp(u)
  {
    DisplayInjectiveToMinute(t, u);
  }
}
