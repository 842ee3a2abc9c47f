/**
 * `extractSearchedPerformedDate`: the instant a bulletin search was performed,
 * taken from the first `YYYY-MM-DD HH:MM:SS` stamp anywhere in the page text.
 */
module SearchedDate {
  import opened Common
  import opened Text
  import opened DateCodec
  import opened FullStamp

  /** A stamp with seconds starts at position `j` of `t`. */
  predicate StampAt(t: string, j: nat) {
    j + 19 <= |t| && Matches(t[j..j + 19], Layout(true))
  }

  /** The leftmost position at or after `from` where a stamp starts, as an unanchored regular-expression match finds it. */
  function FindStamp(t: string, from: nat): (r: Option<nat>)
    decreases |t| - from
    ensures r.Some? ==> from <= r.value && StampAt(t, r.value)
    ensures r.Some? ==> forall j :: from <= j < r.value ==> !StampAt(t, j)
    ensures r.None? ==> forall j :: from <= j ==> !StampAt(t, j)
  {
    if from + 19 > |t| then None
    else if StampAt(t, from) then Some(from)
    else FindStamp(t, from + 1)
  }

  /**
   * The text is trimmed, searched for the first stamp, and the stamp's fields
   * are read; no stamp gives `null`, here `None`.
   */
  function ExtractSearchedPerformedDate(rawText: string): (r: Option<DateFields>)
    ensures r.None? <==> forall j :: !StampAt(Trim(rawText), j)
    ensures r.Some? ==> exists j: nat ::
      (StampAt(Trim(rawText), j)
       && (forall i :: 0 <= i < j ==> !StampAt(Trim(rawText), i))
       && r.value == FieldsAt(Trim(rawText)[j..j + 19], true))
  {
    var textContent := Trim(rawText);
    var found := FindStamp(textContent, 0);
    if found.None? then None
    else ReadFields(textContent[found.value..found.value + 19], true)
  }

  predicate NoDigit(s: string) {
    forall i :: 0 <= i < |s| ==> !IsDigit(s[i])
  }

  /** Leading white space before a non-space is all that `trimStart` drops. */
  lemma {:induction false} TrimStartBefore(x: string, y: string)
    requires y != [] && !IsSpace(y[0])
    ensures TrimStart(x + y) == TrimStart(x) + y
  {
    if x != [] {
      assert (x + y)[1..] == x[1..] + y;
      TrimStartBefore(x[1..], y);
    } else {
      assert x + y == y;
    }
  }

  /** Trailing white space after a non-space is all that `trimEnd` drops. */
  lemma {:induction false} TrimEndAfter(x: string, y: string)
    requires x != [] && !IsSpace(x[|x| - 1])
    ensures TrimEnd(x + y) == x + TrimEnd(y)
  {
    if y != [] {
      assert (x + y)[..|x + y| - 1] == x + y[..|y| - 1];
      TrimEndAfter(x, y[..|y| - 1]);
    } else {
      assert x + y == x;
    }
  }

  /** A stamp starts with a digit. */
  lemma StampStartsWithDigit(t: string, j: nat)
    ensures StampAt(t, j) ==> j < |t| && IsDigit(t[j])
  {
    if StampAt(t, j) {
      StampBounds(t[j..j + 19], true);
      assert t[j..j + 19][0] == t[j];
    }
  }

  /** A stamp is found where it starts when nothing before it holds a digit. */
  lemma FirstStampAfter(a: string, m: string, b: string)
    requires NoDigit(a) && Matches(m, Layout(true))
    ensures FindStamp(a + m + b, 0) == Some(|a|)
    ensures (a + m + b)[|a|..|a| + 19] == m
  {
    var t := a + m + b;
    SliceLeft(a + m, b, |a|, |a| + 19);
    SliceRight(a, m, |a|, |a| + 19);
    assert m[0..19] == m;
    assert StampAt(t, |a|);
    forall j | 0 <= j < |a|
      ensures !StampAt(t, j)
    {
      assert t[j] == a[j];
      StampStartsWithDigit(t, j);
    }
  }

  /** Trimming keeps a digit-free text digit-free. */
  lemma NoDigitTrimmed(prefix: string)
    requires NoDigit(prefix)
    ensures NoDigit(TrimStart(prefix))
  {
    var a := TrimStart(prefix);
    TrimStartShape(prefix);
    forall i | 0 <= i < |a| ensures !IsDigit(a[i]) {
      assert a[i] == prefix[|prefix| - |a| + i];
    }
  }

  /** Trimming text around a stamp leaves the stamp whole, and a digit-free prefix digit-free. */
  lemma TrimAround(prefix: string, m: string, suffix: string)
    requires NoDigit(prefix) && Matches(m, Layout(true))
    ensures NoDigit(TrimStart(prefix))
    ensures Trim(prefix + m + suffix) == TrimStart(prefix) + m + TrimEnd(suffix)
  {
    StampBounds(m, true);
    NoDigitTrimmed(prefix);
    var a := TrimStart(prefix);
    assert prefix + m + suffix == prefix + (m + suffix);
    TrimStartBefore(prefix, m + suffix);
    assert a + (m + suffix) == (a + m) + suffix;
    assert (a + m)[|a + m| - 1] == m[|m| - 1];
    TrimEndAfter(a + m, suffix);
  }

  /** Text around the stamp does not change the result, so long as none comes before it with a digit. */
  lemma SurroundingTextIgnored(prefix: string, f: DateFields, suffix: string)
    requires NoDigit(prefix) && Printable(f)
    ensures ExtractSearchedPerformedDate(prefix + Format(f, true) + suffix) == Some(f)
  {
    var m := Format(f, true);
    FormatRuns(f, true);
    ReadFormat(f, true);
    TrimAround(prefix, m, suffix);
    FirstStampAfter(TrimStart(prefix), m, TrimEnd(suffix));
  }
}
