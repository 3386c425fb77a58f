/**
 Sunrise handling on the server side: the sunrise string returned by the
 sunrise/sunset data provider (`HH:MM:SS`) is reduced to an hour and a minute,
 and the blue-hour and golden-hour windows are derived from it by minute
 arithmetic with one borrow or carry and a wrap at midnight.

 A window may wrap past midnight: its end is then numerically before its start.
 */
module SunTimes {
  import opened Common

  datatype TimeOfDay = TimeOfDay(hour: int, minute: int)

  datatype TimeWindow = TimeWindow(start: TimeOfDay, end: TimeOfDay)

  /** The fields of the provider's response the model reads. */
  datatype SunTimesResponse = SunTimesResponse(date: string, sunrise: string, sunset: string)

  const MinutesPerHour: int := 60
  const HoursPerDay: int := 24
  const MinutesPerDay: int := 1440

  predicate ValidTime(t: TimeOfDay)
  {
    0 <= t.hour < HoursPerDay && 0 <= t.minute < MinutesPerHour
  }

  function MinuteOfDay(t: TimeOfDay): int
  {
    t.hour * MinutesPerHour + t.minute
  }

  lemma MinuteOfDayRange(t: TimeOfDay)
    requires ValidTime(t)
    ensures 0 <= MinuteOfDay(t) < MinutesPerDay
  {
  }

  /** `a % MinutesPerDay` for a value at most one day out of range. */
  lemma ModDay(a: int)
    requires -MinutesPerDay <= a < 2 * MinutesPerDay
    ensures a < 0 ==> a % MinutesPerDay == a + MinutesPerDay
    ensures 0 <= a < MinutesPerDay ==> a % MinutesPerDay == a
    ensures MinutesPerDay <= a ==> a % MinutesPerDay == a - MinutesPerDay
  {
  }

  // ------------------------------------------------------------- windows

  /**
   `t` moved back by `offset` minutes: the minute borrows at most one hour and
   an hour below zero wraps to the previous evening.
   */
  function MinutesBefore(t: TimeOfDay, offset: int): (r: TimeOfDay)
    requires 0 <= offset <= MinutesPerHour
    ensures ValidTime(t) ==>
      ValidTime(r) && MinuteOfDay(r) == (MinuteOfDay(t) - offset) % MinutesPerDay
  {
    var minute := t.minute - offset;
    var hour := if minute < 0 then t.hour - 1 else t.hour;
    var minute' := if minute < 0 then minute + MinutesPerHour else minute;
    var hour' := if hour < 0 then hour + HoursPerDay else hour;
    var r := TimeOfDay(hour', minute');
    if ValidTime(t) then
      ModDay(MinuteOfDay(t) - offset);
      r
    else r
  }

  /**
   `t` moved on by `offset` minutes (less than an hour): the minute carries at
   most one hour and an hour past 23 wraps to the next morning.
   */
  function MinutesAfter(t: TimeOfDay, offset: int): (r: TimeOfDay)
    requires 0 <= offset < MinutesPerHour
    ensures ValidTime(t) ==>
      ValidTime(r) && MinuteOfDay(r) == (MinuteOfDay(t) + offset) % MinutesPerDay
  {
    var minute := t.minute + offset;
    var hour := if minute >= MinutesPerHour then t.hour + 1 else t.hour;
    var minute' := if minute >= MinutesPerHour then minute - MinutesPerHour else minute;
    var hour' := if hour >= HoursPerDay then hour - HoursPerDay else hour;
    var r := TimeOfDay(hour', minute');
    if ValidTime(t) then
      ModDay(MinuteOfDay(t) + offset);
      r
    else r
  }

  /** The same minute of the following hour, wrapping at midnight. */
  function NextHour(t: TimeOfDay): (r: TimeOfDay)
    ensures ValidTime(t) ==>
      ValidTime(r) && MinuteOfDay(r) == (MinuteOfDay(t) + MinutesPerHour) % MinutesPerDay
    ensures r.minute == t.minute
  {
    var hour := t.hour + 1;
    var r := TimeOfDay(if hour >= HoursPerDay then hour - HoursPerDay else hour, t.minute);
    if ValidTime(t) then
      ModDay(MinuteOfDay(t) + MinutesPerHour);
      r
    else r
  }

  /** Blue hour: from 30 minutes before sunrise to 20 minutes after it. */
  function GetBlueHour(sunrise: TimeOfDay): (w: TimeWindow)
    ensures ValidTime(sunrise) ==>
      && ValidTime(w.start) && MinuteOfDay(w.start) == (MinuteOfDay(sunrise) - 30) % MinutesPerDay
      && ValidTime(w.end) && MinuteOfDay(w.end) == (MinuteOfDay(sunrise) + 20) % MinutesPerDay
  {
    TimeWindow(MinutesBefore(sunrise, 30), MinutesAfter(sunrise, 20))
  }

  /** Golden hour: from 10 minutes before sunrise to an hour after it. */
  function GetGoldenHourRange(sunrise: TimeOfDay): (w: TimeWindow)
    ensures ValidTime(sunrise) ==>
      && ValidTime(w.start) && MinuteOfDay(w.start) == (MinuteOfDay(sunrise) - 10) % MinutesPerDay
      && ValidTime(w.end) && MinuteOfDay(w.end) == (MinuteOfDay(sunrise) + 60) % MinutesPerDay
    ensures w.end.minute == sunrise.minute
  {
    TimeWindow(MinutesBefore(sunrise, 10), NextHour(sunrise))
  }

  /** Length of a window in minutes, counting across midnight when it wraps. */
  function Span(w: TimeWindow): int
  {
    (MinuteOfDay(w.end) - MinuteOfDay(w.start)) % MinutesPerDay
  }

  /** Minutes from the start of a window to `t`, counting across midnight. */
  function Offset(w: TimeWindow, t: TimeOfDay): int
  {
    (MinuteOfDay(t) - MinuteOfDay(w.start)) % MinutesPerDay
  }

  /** The blue hour always lasts 50 minutes and always has sunrise 30 minutes in. */
  lemma BlueHourSpan(sunrise: TimeOfDay)
    requires ValidTime(sunrise)
    ensures Span(GetBlueHour(sunrise)) == 50
    ensures Offset(GetBlueHour(sunrise), sunrise) == 30
  {
    var m := MinuteOfDay(sunrise);
    var w := GetBlueHour(sunrise);
    ModDay(m - 30);
    ModDay(m + 20);
    ModDay(MinuteOfDay(w.end) - MinuteOfDay(w.start));
    ModDay(m - MinuteOfDay(w.start));
  }

  /** The golden hour always lasts 70 minutes and always has sunrise 10 minutes in. */
  lemma GoldenHourSpan(sunrise: TimeOfDay)
    requires ValidTime(sunrise)
    ensures Span(GetGoldenHourRange(sunrise)) == 70
    ensures Offset(GetGoldenHourRange(sunrise), sunrise) == 10
  {
    var m := MinuteOfDay(sunrise);
    var w := GetGoldenHourRange(sunrise);
    ModDay(m - 10);
    ModDay(m + 60);
    ModDay(MinuteOfDay(w.end) - MinuteOfDay(w.start));
    ModDay(m - MinuteOfDay(w.start));
  }

  /** Windows that cross midnight. */
  lemma MidnightWrapExamples()
    ensures GetBlueHour(TimeOfDay(0, 10)) == TimeWindow(TimeOfDay(23, 40), TimeOfDay(0, 30))
    ensures GetGoldenHourRange(TimeOfDay(23, 30)).end == TimeOfDay(0, 30)
    ensures GetBlueHour(TimeOfDay(23, 50)).end == TimeOfDay(0, 10)
    ensures GetGoldenHourRange(TimeOfDay(0, 5)).start == TimeOfDay(23, 55)
  {
  }

  // ------------------------------------------------------------- parsing

  /** `s.split(":")`: the colon-separated fields, empty ones included. */
  function Split(s: string): (fields: seq<string>)
    ensures |fields| >= 1
    ensures forall i :: 0 <= i < |fields| ==> ':' !in fields[i]
    decreases |s|
  {
    if |s| == 0 then [""]
    else
      var rest := Split(s[1..]);
      if s[0] == ':' then [""] + rest
      else [[s[0]] + rest[0]] + rest[1..]
  }

  /** `fields.join(":")`, the inverse of `Split`. */
  function Join(fields: seq<string>): string
    requires |fields| >= 1
    decreases |fields|
  {
    if |fields| == 1 then fields[0] else fields[0] + ":" + Join(fields[1..])
  }

  /** Splitting loses nothing: joining the fields back gives the original string. */
  lemma {:induction false} JoinSplit(s: string)
    ensures Join(Split(s)) == s
    decreases |s|
  {
    if |s| > 0 {
      var rest := Split(s[1..]);
      JoinSplit(s[1..]);
      if s[0] == ':' {
        assert Split(s) == [""] + rest;
        assert ([""] + rest)[1..] == rest;
      } else {
        var fields := [[s[0]] + rest[0]] + rest[1..];
        assert Split(s) == fields;
        if |rest| == 1 {
          assert Join(fields) == [s[0]] + rest[0];
        } else {
          assert fields[1..] == rest[1..];
          assert Join(rest) == rest[0] + ":" + Join(rest[1..]);
          assert Join(fields) == [s[0]] + rest[0] + ":" + Join(rest[1..]);
        }
        assert s == [s[0]] + s[1..];
      }
    }
  }

  /** A colon-free first field is split off as it is. */
  lemma {:induction false} SplitField(field: string, rest: string)
    requires ':' !in field
    ensures Split(field + ":" + rest) == [field] + Split(rest)
    decreases |field|
  {
    var s := field + ":" + rest;
    if |field| == 0 {
      assert s == ":" + rest;
      assert s[1..] == rest;
    } else {
      assert s[0] == field[0];
      assert s[1..] == field[1..] + ":" + rest;
      SplitField(field[1..], rest);
      assert [field[0]] + field[1..] == field;
    }
  }

  predicate IsDigit(c: char)
  {
    '0' <= c <= '9'
  }

  predicate AllDigits(s: string)
  {
    forall i :: 0 <= i < |s| ==> IsDigit(s[i])
  }

  /** Value of a decimal digit string; the empty string is 0, as `Number("")` is. */
  function DecimalValue(s: string): (n: nat)
    requires AllDigits(s)
    decreases |s|
  {
    if |s| == 0 then 0
    else DecimalValue(s[..|s| - 1]) * 10 + (s[|s| - 1] as int - '0' as int)
  }

  /** `Number(field)` on the fields the model covers: decimal digits, or None (NaN). */
  function NumberOf(field: string): (n: Option<nat>)
    ensures n.Some? <==> AllDigits(field)
  {
    if AllDigits(field) then Some(DecimalValue(field)) else None
  }

  /**
   `parseTime`: the first two colon-separated fields as hour and minute; the
   seconds are dropped. None when a field is not a number or the minute is missing.
   */
  function ParseTime(timeStr: string): (t: Option<TimeOfDay>)
    ensures t.Some? ==> t.value.hour >= 0 && t.value.minute >= 0
    ensures t.Some? ==> ':' in timeStr
  {
    var fields := Split(timeStr);
    if |fields| < 2 then
      None
    else
      match (NumberOf(fields[0]), NumberOf(fields[1]))
      case (Some(h), Some(m)) =>
        JoinSplit(timeStr);
        assert timeStr == fields[0] + ":" + Join(fields[1..]);
        assert timeStr[|fields[0]|] == ':';
        Some(TimeOfDay(h, m))
      case _ => None
  }

  /**
   `getSunriseTime`: the parsed sunrise field of the provider's response. A
   sunrise string without a colon has no minute field and yields no time.
   */
  function GetSunriseTime(response: SunTimesResponse): (t: Option<TimeOfDay>)
    ensures ':' !in response.sunrise ==> t.None?
    ensures t.Some? ==> t.value.hour >= 0 && t.value.minute >= 0
  {
    ParseTime(response.sunrise)
  }

  /** Hour and minute fields are read as numbers; whatever follows the second colon is ignored. */
  lemma ParseTimeFields(hh: string, mm: string, rest: string)
    requires AllDigits(hh) && AllDigits(mm)
    ensures ParseTime(hh + ":" + mm + ":" + rest) == Some(TimeOfDay(DecimalValue(hh), DecimalValue(mm)))
  {
    SplitField(hh, mm + ":" + rest);
    SplitField(mm, rest);
    assert hh + ":" + mm + ":" + rest == hh + ":" + (mm + ":" + rest);
  }

  function DigitChar(d: int): (c: char)
    requires 0 <= d < 10
    ensures IsDigit(c)
    ensures c as int - '0' as int == d
  {
    ('0' as int + d) as char
  }

  /** Two-digit zero-padded rendering of 0..99. */
  function TwoDigits(n: int): (s: string)
    requires 0 <= n < 100
    ensures |s| == 2 && AllDigits(s)
  {
    [DigitChar(n / 10), DigitChar(n % 10)]
  }

  lemma TwoDigitsValue(n: int)
    requires 0 <= n < 100
    ensures DecimalValue(TwoDigits(n)) == n
  {
    var s := TwoDigits(n);
    assert s[..1] == [s[0]];
    assert [s[0]][..0] == [];
    assert DecimalValue(s[..1]) == n / 10;
    assert s[..|s| - 1] == s[..1];
  }

  /** The provider's `HH:MM:SS` rendering of a time. */
  function FormatTime(hour: int, minute: int, second: int): string
    requires 0 <= hour < 100 && 0 <= minute < 100 && 0 <= second < 100
  {
    TwoDigits(hour) + ":" + TwoDigits(minute) + ":" + TwoDigits(second)
  }

  /** Parsing an `HH:MM:SS` string returns its hour and minute; the seconds are discarded, not rounded. */
  lemma ParseFormattedTime(hour: int, minute: int, second: int)
    requires ValidTime(TimeOfDay(hour, minute)) && 0 <= second < 60
    ensures ParseTime(FormatTime(hour, minute, second)) == Some(TimeOfDay(hour, minute))
  {
    ParseTimeFields(TwoDigits(hour), TwoDigits(minute), TwoDigits(second));
    TwoDigitsValue(hour);
    TwoDigitsValue(minute);
  }

  /** The sunrise of a well-formed response, and the windows derived from it. */
  lemma SunriseWindowsFromResponse(response: SunTimesResponse, hour: int, minute: int, second: int)
    requires ValidTime(TimeOfDay(hour, minute)) && 0 <= second < 60
    requires response.sunrise == FormatTime(hour, minute, second)
    ensures GetSunriseTime(response) == Some(TimeOfDay(hour, minute))
    ensures MinuteOfDay(GetBlueHour(TimeOfDay(hour, minute)).start) == (hour * 60 + minute - 30) % MinutesPerDay
    ensures MinuteOfDay(GetGoldenHourRange(TimeOfDay(hour, minute)).end) == (hour * 60 + minute + 60) % MinutesPerDay
  {
    ParseFormattedTime(hour, minute, second);
  }
}
