/**
 * Graphic-area-forecast timestamps `"dd HHMM"`: day before the space, hour and
 * minute after it, month and year from the current UTC date rolling forward.
 */
module GfaDate {
  import opened Common
  import opened Text
  import opened DateCodec
  import WxReportDate

  /**
   * `extractGFADateTime(text)`. Without a space the time piece is `undefined`
   * and reading it throws; otherwise the first two pieces are decoded.
   */
  function ExtractGfaDateTime(text: string, now: DateFields): (r: Outcome<Option<DateFields>>)
    requires ValidNow(now)
    ensures r.Throws? <==> ' ' !in text
    ensures r.Returns? && r.value.Some? ==> 0 <= r.value.value.month < 12 && r.value.value.second == 0
    ensures r.Returns? && r.value.Some? ==>
      MonthIndex(r.value.value) == MonthIndex(now) + (if r.value.value.day < now.day then 1 else 0)
  {
    SplitHasSpace(text);
    var parts := Split(text, ' ');
    if |parts| < 2 then Throws else Returns(DecodePieces(parts[0], parts[1], now))
  }

  /**
   * The day piece and the `HHMM` piece, read relative to `now`, rolling forward;
   * `None` is the Invalid Date of a field that does not parse.
   */
  function DecodePieces(dayText: string, timeText: string, now: DateFields): (r: Option<DateFields>)
    requires ValidNow(now)
    ensures r.Some? ==> 0 <= r.value.month < 12 && r.value.second == 0
    ensures r.Some? ==> MonthIndex(r.value) == MonthIndex(now) + (if r.value.day < now.day then 1 else 0)
  {
    var hour := ParseInt(Slice(Trim(timeText), 0, 2));
    var minute := ParseInt(Slice(Trim(timeText), 2, |Trim(timeText)|));
    var day := ParseInt(Trim(dayText));
    if day.None? || hour.None? || minute.None? then None
    else Some(WxReportDate.RollStamp(day.value, hour.value, minute.value, false, now))
  }

  /** `split(' ')` yields a second piece exactly when there is a space. */
  lemma {:induction false} SplitHasSpace(s: string)
    ensures |Split(s, ' ')| >= 2 <==> ' ' in s
  {
    if s != [] {
      SplitHasSpace(s[1..]);
      assert ' ' in s <==> s[0] == ' ' || ' ' in s[1..];
    }
  }

  /** `"dd HHMM"` splits into the day and the time piece. */
  lemma SplitsAtSpace(dd: string, hhmm: string)
    requires AllDigits(dd) && AllDigits(hhmm)
    ensures Split(dd + " " + hhmm, ' ') == [dd, hhmm]
  {
    assert dd + " " + hhmm == dd + [' '] + hhmm;
    assert ' ' !in dd;
    assert ' ' !in hhmm;
    SplitAfter(dd, hhmm, ' ');
    SplitAfter(hhmm, [], ' ');
  }

  /** Each field of `"dd HHMM"` parses to its decimal value. */
  lemma FieldsParse(dd: string, hhmm: string)
    requires |dd| == 2 && |hhmm| == 4 && AllDigits(dd) && AllDigits(hhmm)
    ensures ParseInt(Trim(dd)) == Some(DigitsValue(dd))
    ensures ParseInt(Slice(Trim(hhmm), 0, 2)) == Some(DigitsValue(hhmm[..2]))
    ensures ParseInt(Slice(Trim(hhmm), 2, |Trim(hhmm)|)) == Some(DigitsValue(hhmm[2..]))
  {
    ParseWhole(dd);
    ParsePrefix(hhmm, 2);
    ParseSuffix(hhmm, 2);
  }

  lemma ParseWhole(t: string)
    requires t != [] && AllDigits(t)
    ensures ParseInt(Trim(t)) == Some(DigitsValue(t))
  {
    TrimmedAlready(t);
    ParseDigits(t);
  }

  lemma ParsePrefix(t: string, n: nat)
    requires 0 < n < |t| && AllDigits(t)
    ensures ParseInt(Slice(Trim(t), 0, n)) == Some(DigitsValue(t[..n]))
  {
    TrimmedAlready(t);
    assert Slice(t, 0, n) == t[..n];
    ParseDigits(t[..n]);
  }

  lemma ParseSuffix(t: string, n: nat)
    requires 0 < n < |t| && AllDigits(t)
    ensures ParseInt(Slice(Trim(t), n, |Trim(t)|)) == Some(DigitsValue(t[n..]))
  {
    TrimmedAlready(t);
    assert Slice(t, n, |t|) == t[n..];
    ParseDigits(t[n..]);
  }

  lemma GfaDigits(dd: string, hhmm: string, now: DateFields)
    requires |dd| == 2 && |hhmm| == 4 && AllDigits(dd) && AllDigits(hhmm) && ValidNow(now)
    ensures ExtractGfaDateTime(dd + " " + hhmm, now)
         == Returns(Some(WxReportDate.RollStamp(DigitsValue(dd), DigitsValue(hhmm[..2]), DigitsValue(hhmm[2..]), false, now)))
  {
    SplitsAtSpace(dd, hhmm);
    assert ExtractGfaDateTime(dd + " " + hhmm, now) == Returns(DecodePieces(dd, hhmm, now));
    FieldsParse(dd, hhmm);
  }

  lemma ReportDigits(s: string, now: DateFields)
    requires |s| == 6 && AllDigits(s) && ValidNow(now)
    ensures WxReportDate.ExtractWxReportDateTime(s, true, false, now)
         == Some(WxReportDate.RollStamp(DigitsValue(s[..2]), DigitsValue(s[2..4]), DigitsValue(s[4..]), false, now))
  {
    WxReportDate.DigitFields(s, true, false, now);
  }

  /** `"dd HHMM"` decodes to the same date as the forward-rolling report stamp `ddHHMM`. */
  lemma AgreesWithReportStamp(dd: string, hhmm: string, now: DateFields)
    requires |dd| == 2 && |hhmm| == 4 && AllDigits(dd) && AllDigits(hhmm) && ValidNow(now)
    ensures ExtractGfaDateTime(dd + " " + hhmm, now)
         == Returns(WxReportDate.ExtractWxReportDateTime(dd + hhmm, true, false, now))
  {
    GfaDigits(dd, hhmm, now);
    JoinedRuns(dd, hhmm);
    ReportDigits(dd + hhmm, now);
  }

  lemma JoinedRuns(dd: string, hhmm: string)
    requires |dd| == 2 && |hhmm| == 4 && AllDigits(dd) && AllDigits(hhmm)
    ensures var s := dd + hhmm;
      |s| == 6 && AllDigits(s) && s[..2] == dd && s[2..4] == hhmm[..2] && s[4..] == hhmm[2..]
  {
  }
}
