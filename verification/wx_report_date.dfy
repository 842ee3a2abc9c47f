/**
 * Partial weather-report timestamps `ddhh[mm]`: the day and time come from the
 * text, the month and year from the current UTC date, rolling forward (a day
 * already past means next month) or backward (a day still to come means last
 * month).
 */
module WxReportDate {
  import opened Common
  import opened Text
  import opened DateCodec

  /**
   * `extractWxReportDateTime(text, includesMinutes, isPast)`; `None` is the
   * Invalid Date produced when a field does not parse.
   */
  function ExtractWxReportDateTime(text: string, includesMinutes: bool, isPast: bool, now: DateFields)
    : (r: Option<DateFields>)
    requires ValidNow(now)
    ensures r.Some? ==> 0 <= r.value.month < 12 && r.value.second == 0
    ensures r.Some? && !includesMinutes ==> r.value.minute == 0
    // forward: this month unless the day is already past, then next month
    ensures r.Some? && !isPast ==>
      MonthIndex(r.value) == MonthIndex(now) + (if r.value.day < now.day then 1 else 0)
    // backward: this month unless the day is still to come, then last month
    ensures r.Some? && isPast ==>
      MonthIndex(r.value) == MonthIndex(now) - (if r.value.day > now.day then 1 else 0)
  {
    var t := Trim(text);
    var dayText := Slice(t, 0, 2);
    var hour := ParseInt(Slice(t, 2, 4));
    var minute := if includesMinutes then ParseInt(Slice(t, 4, |t|)) else Some(0);
    var day := ParseInt(Trim(dayText));
    if day.None? || hour.None? || minute.None? then None
    else Some(RollStamp(day.value, hour.value, minute.value, isPast, now))
  }

  /**
   * The date a day and time of day denote relative to `now`: the current month,
   * except that a forward stamp whose day is already past is next month and a
   * backward stamp whose day is still to come is last month (with the year
   * carried across December/January).
   */
  function RollStamp(d: int, hour: int, minute: int, isPast: bool, now: DateFields): (f: DateFields)
    requires ValidNow(now)
    ensures f.day == d && f.hour == hour && f.minute == minute && f.second == 0
    ensures 0 <= f.month < 12
    ensures !isPast ==> MonthIndex(f) == MonthIndex(now) + (if d < now.day then 1 else 0)
    ensures isPast ==> MonthIndex(f) == MonthIndex(now) - (if d > now.day then 1 else 0)
  {
    var month0 := if !isPast then (if d < now.day then now.month + 1 else now.month)
                  else (if d > now.day then now.month - 1 else now.month);
    var month := if !isPast && month0 >= 12 then 0 else if isPast && month0 < 0 then 11 else month0;
    var year := if !isPast && month0 >= 12 then now.year + 1
                else if isPast && month0 < 0 then now.year - 1 else now.year;
    DateFields(year, month, d, hour, minute, 0)
  }

  /** The text `ddhhmm`, as the bulletins carry it. */
  function FormatDayTime(day: nat, hour: nat, minute: nat): (s: string)
    requires day < 100 && hour < 100 && minute < 100
    ensures |s| == 6 && AllDigits(s)
  {
    Pad2(day) + Pad2(hour) + Pad2(minute)
  }

  /** On a run of digits the day, hour and minute are characters 0-1, 2-3 and the rest. */
  lemma DigitFields(s: string, includesMinutes: bool, isPast: bool, now: DateFields)
    requires AllDigits(s) && |s| >= 4 && (includesMinutes ==> |s| > 4) && ValidNow(now)
    ensures var r := ExtractWxReportDateTime(s, includesMinutes, isPast, now);
      r.Some? && r.value.day == DigitsValue(s[..2]) && r.value.hour == DigitsValue(s[2..4])
      && r.value.minute == (if includesMinutes then DigitsValue(s[4..]) else 0)
  {
    TrimmedAlready(s);
    TrimmedAlready(s[..2]);
    assert Slice(s, 0, 2) == s[..2];
    assert Slice(s, 2, 4) == s[2..4];
    assert Slice(s, 4, |s|) == s[4..];
    ParseDigits(s[..2]);
    ParseDigits(s[2..4]);
    if includesMinutes {
      ParseDigits(s[4..]);
    }
  }

  /** Day, hour and minute written as `ddhhmm` are read back unchanged. */
  lemma ReadsFixedPositions(day: nat, hour: nat, minute: nat, isPast: bool, now: DateFields)
    requires day < 100 && hour < 100 && minute < 100 && ValidNow(now)
    ensures var r := ExtractWxReportDateTime(FormatDayTime(day, hour, minute), true, isPast, now);
      r.Some? && r.value.day == day && r.value.hour == hour && r.value.minute == minute
  {
    var s := FormatDayTime(day, hour, minute);
    var d, h, m := Pad2(day), Pad2(hour), Pad2(minute);
    assert s[..2] == d && s[2..4] == h && s[4..] == m;
    assert DigitsValue(d) == day && DigitsValue(h) == hour && DigitsValue(m) == minute;
    DigitFields(s, true, isPast, now);
  }

  /** Without minutes, `ddhh` gives that day and hour at minute 0. */
  lemma ReadsFixedPositionsNoMinutes(day: nat, hour: nat, isPast: bool, now: DateFields)
    requires day < 100 && hour < 100 && ValidNow(now)
    ensures var r := ExtractWxReportDateTime(Pad2(day) + Pad2(hour), false, isPast, now);
      r.Some? && r.value.day == day && r.value.hour == hour && r.value.minute == 0
  {
    var d, h := Pad2(day), Pad2(hour);
    var s := d + h;
    assert s[..2] == d && s[2..4] == h;
    assert DigitsValue(d) == day && DigitsValue(h) == hour;
    DigitFields(s, false, isPast, now);
  }
}
