/**
 * Full timestamps in the fixed layouts `YYYY-MM-DD HH:MM` (a request's
 * `utcDateTime`) and `YYYY-MM-DD HH:MM:SS` (the "searched performed" line of a
 * scraped bulletin page), and the split-and-parse both parsers run on them.
 */
module FullStamp {
  import opened Common
  import opened Text
  import opened DateCodec

  /** A layout written as a template: `d` stands for one decimal digit, anything else for itself. */
  predicate Matches(s: string, template: string) {
    |s| == |template| &&
    forall i :: 0 <= i < |s| ==> if template[i] == 'd' then IsDigit(s[i]) else s[i] == template[i]
  }

  /** `\d{4}-\d{2}-\d{2}`. */
  const DateLayout: string := "dddd-dd-dd"

  /** `\d{2}:\d{2}`, and with `:\d{2}` seconds appended. */
  function TimeLayout(withSeconds: bool): string {
    if withSeconds then "dd:dd:dd" else "dd:dd"
  }

  /** `\d{4}-\d{2}-\d{2} \d{2}:\d{2}`, and with `:\d{2}` seconds appended. */
  function Layout(withSeconds: bool): (t: string)
    ensures |t| == if withSeconds then 19 else 16
  {
    DateLayout + " " + TimeLayout(withSeconds)
  }

  /** A stamp starts and ends with a digit. */
  lemma StampBounds(m: string, withSeconds: bool)
    requires Matches(m, Layout(withSeconds))
    ensures IsDigit(m[0]) && IsDigit(m[|m| - 1])
  {
    var t := Layout(withSeconds);
    if withSeconds {
      assert t == "dddd-dd-dd dd:dd:dd";
    } else {
      assert t == "dddd-dd-dd dd:dd";
    }
    assert t[0] == 'd' && t[|t| - 1] == 'd';
  }

  lemma MatchesAppend(x: string, tx: string, y: string, ty: string)
    requires Matches(x, tx) && Matches(y, ty)
    ensures Matches(x + y, tx + ty)
  {
  }

  lemma DigitsMatch(x: string, t: string)
    requires AllDigits(x) && |x| == |t| && forall i :: 0 <= i < |t| ==> t[i] == 'd'
    ensures Matches(x, t)
  {
  }

  /** The digit runs and separators of a stamp sit at fixed positions. */
  lemma DigitRuns(m: string, withSeconds: bool)
    requires Matches(m, Layout(withSeconds))
    ensures AllDigits(m[0..4]) && AllDigits(m[5..7]) && AllDigits(m[8..10])
    ensures AllDigits(m[11..13]) && AllDigits(m[14..16])
    ensures withSeconds ==> AllDigits(m[17..19])
    ensures m[4] == '-' && m[7] == '-' && m[10] == ' ' && m[13] == ':'
    ensures withSeconds ==> m[16] == ':'
    ensures ' ' !in m[0..10] && ' ' !in m[11..|m|] && '-' !in m[0..4] && '-' !in m[5..7] && '-' !in m[8..10]
    ensures ':' !in m[11..13] && ':' !in m[14..16] && (withSeconds ==> ':' !in m[17..19])
  {
    var t := Layout(withSeconds);
    assert t == "dddd-dd-dd " + TimeLayout(withSeconds);
    assert forall i :: 0 <= i < 4 || 5 <= i < 7 || 8 <= i < 10 || 11 <= i < 13 || 14 <= i < 16 ==> t[i] == 'd';
    assert withSeconds ==> forall i :: 17 <= i < 19 ==> t[i] == 'd';
    assert forall i :: 0 <= i < 10 ==> m[i] != ' ';
    assert forall i :: 11 <= i < |m| ==> m[i] != ' ';
  }

  /** `split(' ')`, then `split('-')` and `split(':')`, cut a stamp into its digit runs. */
  lemma SplitLayout(m: string, withSeconds: bool)
    requires Matches(m, Layout(withSeconds))
    ensures Split(m, ' ') == [m[0..10], m[11..|m|]]
    ensures Split(m[0..10], '-') == DateRuns(m)
    ensures Split(m[11..|m|], ':') == TimeRuns(m, withSeconds)
  {
    DigitRuns(m, withSeconds);
    SplitHalves(m);
    SplitDate(m);
    SplitTime(m, withSeconds);
  }

  lemma SplitHalves(m: string)
    requires |m| > 10 && m[10] == ' ' && ' ' !in m[0..10] && ' ' !in m[11..|m|]
    ensures Split(m, ' ') == [m[0..10], m[11..|m|]]
  {
    Cut(m, 0, 10, |m|);
    assert m[0..|m|] == m;
    SplitAfter(m[0..10], m[11..|m|], ' ');
    SplitAfter(m[11..|m|], [], ' ');
  }

  lemma SplitDate(m: string)
    requires |m| >= 10 && m[4] == '-' && m[7] == '-'
    requires '-' !in m[0..4] && '-' !in m[5..7] && '-' !in m[8..10]
    ensures Split(m[0..10], '-') == DateRuns(m)
  {
    Cut(m, 0, 4, 10);
    Cut(m, 5, 7, 10);
    SplitAfter(m[0..4], m[5..10], '-');
    SplitAfter(m[5..7], m[8..10], '-');
    SplitAfter(m[8..10], [], '-');
  }

  lemma SplitTime(m: string, withSeconds: bool)
    requires |m| == (if withSeconds then 19 else 16) && m[13] == ':' && (withSeconds ==> m[16] == ':')
    requires ':' !in m[11..13] && ':' !in m[14..16] && (withSeconds ==> ':' !in m[17..19])
    ensures Split(m[11..|m|], ':') == TimeRuns(m, withSeconds)
  {
    Cut(m, 11, 13, |m|);
    SplitAfter(m[11..13], m[14..|m|], ':');
    if withSeconds {
      Cut(m, 14, 16, 19);
      SplitAfter(m[14..16], m[17..19], ':');
      SplitAfter(m[17..19], [], ':');
    } else {
      SplitAfter(m[14..16], [], ':');
    }
  }

  /** The runs of a stamp, as `split` cuts them. */
  function DateRuns(m: string): seq<string>
    requires |m| >= 10
  {
    [m[0..4], m[5..7], m[8..10]]
  }

  function TimeRuns(m: string, withSeconds: bool): seq<string>
    requires |m| >= (if withSeconds then 19 else 16)
  {
    if withSeconds then [m[11..13], m[14..16], m[17..19]] else [m[11..13], m[14..16]]
  }

  /** The date a stamp denotes, its fields read from their fixed positions (month stored as `MM - 1`). */
  function FieldsAt(m: string, withSeconds: bool): DateFields
    requires |m| >= (if withSeconds then 19 else 16)
  {
    DateFields(DigitsValue(m[0..4]), DigitsValue(m[5..7]) - 1, DigitsValue(m[8..10]),
               DigitsValue(m[11..13]), DigitsValue(m[14..16]),
               if withSeconds then DigitsValue(m[17..19]) else 0)
  }

  /**
   * The split-and-parse both parsers run on a string of the layout: the date
   * piece cut at `-`, the time piece cut at `:`, each run read with `parseInt`
   * and the month stored as `MM - 1`; without seconds the second is 0.
   */
  function ReadFields(m: string, withSeconds: bool): (r: Option<DateFields>)
    requires Matches(m, Layout(withSeconds))
    ensures r == Some(FieldsAt(m, withSeconds))
  {
    SplitLayout(m, withSeconds);
    RunsParse(m, withSeconds);
    var parts := Split(m, ' ');
    var dateParts := Split(parts[0], '-');
    var timeParts := Split(parts[1], ':');
    ReadRuns(dateParts, timeParts, withSeconds)
  }

  /** `parseInt` of each run; a run that does not parse makes the Invalid Date `None`. */
  function ReadRuns(dateParts: seq<string>, timeParts: seq<string>, withSeconds: bool): Option<DateFields>
    requires |dateParts| >= 3 && |timeParts| >= (if withSeconds then 3 else 2)
  {
    Assemble(ParseInt(dateParts[0]), ParseInt(dateParts[1]), ParseInt(dateParts[2]),
             ParseInt(timeParts[0]), ParseInt(timeParts[1]), if withSeconds then ParseInt(timeParts[2]) else Some(0))
  }

  /** The date of six parsed runs, the month stored as `MM - 1`; any `NaN` gives the Invalid Date. */
  function Assemble(year: Option<int>, month: Option<int>, day: Option<int>,
                    hour: Option<int>, minute: Option<int>, second: Option<int>): Option<DateFields>
  {
    if year.None? || month.None? || day.None? || hour.None? || minute.None? || second.None? then None
    else Some(DateFields(year.value, month.value - 1, day.value, hour.value, minute.value, second.value))
  }

  /** Each run of a stamp parses to its decimal value. */
  lemma RunsParse(m: string, withSeconds: bool)
    requires Matches(m, Layout(withSeconds))
    ensures ReadRuns(DateRuns(m), TimeRuns(m, withSeconds), withSeconds) == Some(FieldsAt(m, withSeconds))
  {
    RunsAreDigits(m, withSeconds);
    DigitsParse(DateRuns(m), TimeRuns(m, withSeconds), withSeconds);
    AssembleRuns(m, withSeconds);
  }

  /** The runs of a stamp are non-empty runs of digits. */
  lemma RunsAreDigits(m: string, withSeconds: bool)
    requires Matches(m, Layout(withSeconds))
    ensures var ds, ts := DateRuns(m), TimeRuns(m, withSeconds);
      |ds| == 3 && |ts| == (if withSeconds then 3 else 2)
      && (forall i :: 0 <= i < |ds| ==> ds[i] != [] && AllDigits(ds[i]))
      && (forall i :: 0 <= i < |ts| ==> ts[i] != [] && AllDigits(ts[i]))
  {
    DigitRuns(m, withSeconds);
  }

  /** The values of the runs, assembled, are the stamp's fields. */
  lemma AssembleRuns(m: string, withSeconds: bool)
    requires |m| >= (if withSeconds then 19 else 16)
    ensures var ds, ts := DateRuns(m), TimeRuns(m, withSeconds);
      Assemble(Some(DigitsValue(ds[0])), Some(DigitsValue(ds[1])), Some(DigitsValue(ds[2])),
               Some(DigitsValue(ts[0])), Some(DigitsValue(ts[1])), Some(if withSeconds then DigitsValue(ts[2]) else 0))
      == Some(FieldsAt(m, withSeconds))
  {
  }

  /** Runs of digits are read as their decimal values. */
  lemma DigitsParse(ds: seq<string>, ts: seq<string>, withSeconds: bool)
    requires |ds| == 3 && |ts| == (if withSeconds then 3 else 2)
    requires forall i :: 0 <= i < |ds| ==> ds[i] != [] && AllDigits(ds[i])
    requires forall i :: 0 <= i < |ts| ==> ts[i] != [] && AllDigits(ts[i])
    ensures ReadRuns(ds, ts, withSeconds)
         == Assemble(Some(DigitsValue(ds[0])), Some(DigitsValue(ds[1])), Some(DigitsValue(ds[2])),
                     Some(DigitsValue(ts[0])), Some(DigitsValue(ts[1])), Some(if withSeconds then DigitsValue(ts[2]) else 0))
  {
    ParseDigits(ds[0]);
    ParseDigits(ds[1]);
    ParseDigits(ds[2]);
    ParseDigits(ts[0]);
    ParseDigits(ts[1]);
    if withSeconds {
      ParseDigits(ts[2]);
    }
    ReadParsed(ds, ts, withSeconds, Some(DigitsValue(ds[0])), Some(DigitsValue(ds[1])), Some(DigitsValue(ds[2])),
               Some(DigitsValue(ts[0])), Some(DigitsValue(ts[1])), Some(if withSeconds then DigitsValue(ts[2]) else 0));
  }

  /** Reading runs is assembling what `parseInt` makes of each. */
  lemma ReadParsed(ds: seq<string>, ts: seq<string>, withSeconds: bool, year: Option<int>, month: Option<int>,
                   day: Option<int>, hour: Option<int>, minute: Option<int>, second: Option<int>)
    requires |ds| >= 3 && |ts| >= (if withSeconds then 3 else 2)
    requires ParseInt(ds[0]) == year && ParseInt(ds[1]) == month && ParseInt(ds[2]) == day
    requires ParseInt(ts[0]) == hour && ParseInt(ts[1]) == minute
    requires if withSeconds then ParseInt(ts[2]) == second else second == Some(0)
    ensures ReadRuns(ds, ts, withSeconds) == Assemble(year, month, day, hour, minute, second)
  {
  }

  /** The fields a stamp can hold: a four-digit year and two-digit everything else. */
  predicate Printable(f: DateFields) {
    0 <= f.year < 10000 && 0 <= f.month + 1 < 100 && 0 <= f.day < 100
    && 0 <= f.hour < 100 && 0 <= f.minute < 100 && 0 <= f.second < 100
  }

  function DateText(f: DateFields): string
    requires Printable(f)
  {
    Pad4(f.year) + "-" + Pad2(f.month + 1) + "-" + Pad2(f.day)
  }

  function TimeText(f: DateFields, withSeconds: bool): string
    requires Printable(f)
  {
    Pad2(f.hour) + ":" + Pad2(f.minute) + (if withSeconds then ":" + Pad2(f.second) else "")
  }

  /** The stamp `YYYY-MM-DD HH:MM[:SS]` of a date, zero-padded, with the month written one-based. */
  function Format(f: DateFields, withSeconds: bool): string
    requires Printable(f)
  {
    DateText(f) + " " + TimeText(f, withSeconds)
  }

  lemma DateTextRuns(f: DateFields)
    requires Printable(f)
    ensures var d := DateText(f);
      Matches(d, DateLayout)
      && d[0..4] == Pad4(f.year) && d[5..7] == Pad2(f.month + 1) && d[8..10] == Pad2(f.day)
  {
    DateTextMatches(f);
    var y, mo, dd := Pad4(f.year), Pad2(f.month + 1), Pad2(f.day);
    SliceLeft(y + "-" + mo + "-", dd, 0, 4);
    SliceLeft(y + "-" + mo, "-", 0, 4);
    SliceLeft(y + "-", mo, 0, 4);
    SliceLeft(y, "-", 0, 4);
    assert y[0..4] == y;
    SliceLeft(y + "-" + mo + "-", dd, 5, 7);
    SliceLeft(y + "-" + mo, "-", 5, 7);
    SliceRight(y + "-", mo, 5, 7);
    assert mo[0..2] == mo;
    SliceRight(y + "-" + mo + "-", dd, 8, 10);
    assert dd[0..2] == dd;
  }

  lemma DateTextMatches(f: DateFields)
    requires Printable(f)
    ensures Matches(DateText(f), DateLayout)
  {
    var y, mo, dd := Pad4(f.year), Pad2(f.month + 1), Pad2(f.day);
    DigitsMatch(y, "dddd");
    DigitsMatch(mo, "dd");
    DigitsMatch(dd, "dd");
    MatchesAppend(y, "dddd", "-", "-");
    MatchesAppend(y + "-", "dddd-", mo, "dd");
    MatchesAppend(y + "-" + mo, "dddd-dd", "-", "-");
    MatchesAppend(y + "-" + mo + "-", "dddd-dd-", dd, "dd");
  }

  lemma TimeTextRuns(f: DateFields, withSeconds: bool)
    requires Printable(f)
    ensures var t := TimeText(f, withSeconds);
      Matches(t, TimeLayout(withSeconds))
      && t[0..2] == Pad2(f.hour) && t[3..5] == Pad2(f.minute)
      && (withSeconds ==> t[6..8] == Pad2(f.second))
  {
    TimeTextMatches(f, withSeconds);
    var h, mi, se := Pad2(f.hour), Pad2(f.minute), Pad2(f.second);
    var tail := if withSeconds then ":" + se else "";
    SliceLeft(h + ":" + mi, tail, 0, 2);
    SliceLeft(h + ":", mi, 0, 2);
    SliceLeft(h, ":", 0, 2);
    assert h[0..2] == h;
    SliceLeft(h + ":" + mi, tail, 3, 5);
    SliceRight(h + ":", mi, 3, 5);
    assert mi[0..2] == mi;
    if withSeconds {
      SliceRight(h + ":" + mi, tail, 6, 8);
      SliceRight(":", se, 1, 3);
      assert se[0..2] == se;
    }
  }

  lemma TimeTextMatches(f: DateFields, withSeconds: bool)
    requires Printable(f)
    ensures Matches(TimeText(f, withSeconds), TimeLayout(withSeconds))
  {
    var h, mi, se := Pad2(f.hour), Pad2(f.minute), Pad2(f.second);
    DigitsMatch(h, "dd");
    DigitsMatch(mi, "dd");
    MatchesAppend(h, "dd", ":", ":");
    MatchesAppend(h + ":", "dd:", mi, "dd");
    if withSeconds {
      DigitsMatch(se, "dd");
      MatchesAppend(":", ":", se, "dd");
      MatchesAppend(h + ":" + mi, "dd:dd", ":" + se, ":dd");
    } else {
      assert TimeText(f, withSeconds) == h + ":" + mi;
    }
  }

  /** A formatted date has the layout, with each field in the run `ReadFields` reads. */
  lemma FormatRuns(f: DateFields, withSeconds: bool)
    requires Printable(f)
    ensures var s := Format(f, withSeconds);
      Matches(s, Layout(withSeconds))
      && s[0..4] == Pad4(f.year) && s[5..7] == Pad2(f.month + 1) && s[8..10] == Pad2(f.day)
      && s[11..13] == Pad2(f.hour) && s[14..16] == Pad2(f.minute)
      && (withSeconds ==> s[17..19] == Pad2(f.second))
  {
    DateTextRuns(f);
    TimeTextRuns(f, withSeconds);
    JoinedRuns(DateText(f), TimeText(f, withSeconds), withSeconds);
  }

  /** A date piece and a time piece joined by a space: the layout, each run where it was. */
  lemma JoinedRuns(d: string, t: string, withSeconds: bool)
    requires Matches(d, DateLayout) && Matches(t, TimeLayout(withSeconds))
    ensures var s := d + " " + t;
      Matches(s, Layout(withSeconds))
      && s[0..4] == d[0..4] && s[5..7] == d[5..7] && s[8..10] == d[8..10]
      && s[11..13] == t[0..2] && s[14..16] == t[3..5]
      && (withSeconds ==> s[17..19] == t[6..8])
  {
    MatchesAppend(d, DateLayout, " ", " ");
    MatchesAppend(d + " ", DateLayout + " ", t, TimeLayout(withSeconds));
    SliceLeft(d + " ", t, 0, 4);
    SliceLeft(d, " ", 0, 4);
    SliceLeft(d + " ", t, 5, 7);
    SliceLeft(d, " ", 5, 7);
    SliceLeft(d + " ", t, 8, 10);
    SliceLeft(d, " ", 8, 10);
    SliceRight(d + " ", t, 11, 13);
    SliceRight(d + " ", t, 14, 16);
    if withSeconds {
      SliceRight(d + " ", t, 17, 19);
    }
  }

  /** Reading a formatted date gives the date back. */
  lemma ReadFormat(f: DateFields, withSeconds: bool)
    requires Printable(f) && (!withSeconds ==> f.second == 0)
    ensures Matches(Format(f, withSeconds), Layout(withSeconds))
            && ReadFields(Format(f, withSeconds), withSeconds) == Some(f)
  {
    FormatRuns(f, withSeconds);
  }

  /** Formatting what was read gives the stamp back. */
  lemma FormatRead(m: string, withSeconds: bool)
    requires Matches(m, Layout(withSeconds))
    ensures Printable(FieldsAt(m, withSeconds)) && Format(FieldsAt(m, withSeconds), withSeconds) == m
  {
    DigitRuns(m, withSeconds);
    PadOfDigits4(m[0..4]);
    PadOfDigits2(m[5..7]);
    PadOfDigits2(m[8..10]);
    PadOfDigits2(m[11..13]);
    PadOfDigits2(m[14..16]);
    if withSeconds {
      PadOfDigits2(m[17..19]);
    }
    var f := FieldsAt(m, withSeconds);
    FormatRuns(f, withSeconds);
    SameRuns(Format(f, withSeconds), m, withSeconds);
  }

  /** Two stamps with the same runs are the same string. */
  lemma SameRuns(s: string, m: string, withSeconds: bool)
    requires Matches(s, Layout(withSeconds)) && Matches(m, Layout(withSeconds))
    requires s[0..4] == m[0..4] && s[5..7] == m[5..7] && s[8..10] == m[8..10]
    requires s[11..13] == m[11..13] && s[14..16] == m[14..16]
    requires withSeconds ==> s[17..19] == m[17..19]
    ensures s == m
  {
    var t := Layout(withSeconds);
    forall i | 0 <= i < |m|
      ensures s[i] == m[i]
    {
      if i < 4 { assert s[0..4][i] == m[0..4][i]; }
      else if 5 <= i < 7 { assert s[5..7][i - 5] == m[5..7][i - 5]; }
      else if 8 <= i < 10 { assert s[8..10][i - 8] == m[8..10][i - 8]; }
      else if 11 <= i < 13 { assert s[11..13][i - 11] == m[11..13][i - 11]; }
      else if 14 <= i < 16 { assert s[14..16][i - 14] == m[14..16][i - 14]; }
      else if 17 <= i < 19 && withSeconds { assert s[17..19][i - 17] == m[17..19][i - 17]; }
      else {
        assert t == "dddd-dd-dd " + TimeLayout(withSeconds);
        assert t[i] != 'd';
      }
    }
  }
}
