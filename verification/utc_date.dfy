/** `utcDateTime`: a request's `YYYY-MM-DD HH:MM` departure or arrival time, read as UTC. */
module UtcDate {
  import opened Common
  import opened DateCodec
  import opened FullStamp

  /**
   * Only a whole string of the layout is accepted (the regular expression is
   * anchored at both ends); anything else is `undefined`, here `None`.
   */
  function UtcDateTime(raw: string): (r: Option<DateFields>)
    ensures r.Some? <==> Matches(raw, Layout(false))
    ensures r.Some? ==> r.value == FieldsAt(raw, false) && r.value.second == 0
  {
    if Matches(raw, Layout(false)) then ReadFields(raw, false) else None
  }

  /** Writing valid fields in the layout and reading them back gives the same fields. */
  lemma UtcRoundTrip(f: DateFields)
    requires Printable(f) && f.second == 0
    ensures UtcDateTime(Format(f, false)) == Some(f)
  {
    FormatRuns(f, false);
    ReadFormat(f, false);
  }

  /** An accepted string is exactly the layout of the fields read from it. */
  lemma UtcFormatsBack(raw: string)
    requires UtcDateTime(raw).Some?
    ensures Printable(UtcDateTime(raw).value) && Format(UtcDateTime(raw).value, false) == raw
  {
    FormatRead(raw, false);
  }

  /** A trailing seconds field, or any other extra character, is refused. */
  lemma UtcRejectsSeconds(f: DateFields)
    requires Printable(f)
    ensures UtcDateTime(Format(f, true)) == None
  {
    FormatRuns(f, true);
  }
}
