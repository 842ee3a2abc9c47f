/**
 * The surface wind of a TAF window: the first token of the shape
 * `([0-3]\d0|VRB)(\d{2})G?(\d{2})?KT` (direction, two-digit speed, an optional
 * gust, the unit `KT`).
 */
module TafWind {
  import opened Common
  import opened Text

  /** A decoded wind; an absent gust is `NaN` in the source, here `None`. */
  datatype Wind = Wind(knots: int, degreesTrue: int, degreesRange: int, gustKnots: Option<int>)

  /** The direction field at `p`: a bearing `[0-3]d0` with range 0, or `VRB` as bearing 0 with range 360. */
  function DirectionAt(s: string, p: nat): Option<(int, int)> {
    if p + 3 > |s| then None
    else if '0' <= s[p] <= '3' && IsDigit(s[p + 1]) && s[p + 2] == '0' then Some((DigitsValue(s[p..p + 3]), 0))
    else if s[p..p + 3] == "VRB" then Some((0, 360))
    else None
  }

  /**
   * The token starting at `p`, if one does. The optional `G` and gust digits
   * are taken whenever they are there: giving either of them back never lets
   * `KT` match (a `G` or a digit would stand where the `K` must be), so the
   * expression's backtracking finds no other match at `p`.
   */
  function TokenAt(s: string, p: nat): Option<Wind> {
    if p + 5 > |s| then None
    else
      var dir := DirectionAt(s, p);
      if dir.None? || !IsDigit(s[p + 3]) || !IsDigit(s[p + 4]) then None
      else
        var q1 := if p + 5 < |s| && s[p + 5] == 'G' then p + 6 else p + 5;
        var gusty := q1 + 2 <= |s| && IsDigit(s[q1]) && IsDigit(s[q1 + 1]);
        var q2 := if gusty then q1 + 2 else q1;
        if q2 + 2 <= |s| && s[q2] == 'K' && s[q2 + 1] == 'T' then
          Some(Wind(DigitsValue(s[p + 3..p + 5]), dir.value.0, dir.value.1,
                    if gusty then Some(DigitsValue(s[q1..q1 + 2])) else None))
        else None
  }

  /** The leftmost token at or after `p`, as an unanchored match finds it. */
  function FirstWindFrom(s: string, p: nat): (r: Option<Wind>)
    decreases |s| - p
    ensures r.None? <==> forall q :: p <= q < |s| ==> TokenAt(s, q).None?
    ensures r.Some? ==> exists q :: p <= q < |s| && TokenAt(s, q) == r
                                    && forall q' :: p <= q' < q ==> TokenAt(s, q').None?
  {
    if p >= |s| then None
    else if TokenAt(s, p).Some? then TokenAt(s, p)
    else FirstWindFrom(s, p + 1)
  }

  /** `_extractWindFromTAF`: the first wind token of the text, or `undefined` (`None`). */
  function ExtractWind(s: string): (r: Option<Wind>)
    ensures r.None? <==> forall q :: 0 <= q < |s| ==> TokenAt(s, q).None?
    ensures r.Some? ==> exists q :: 0 <= q < |s| && TokenAt(s, q) == r
                                    && forall q' :: 0 <= q' < q ==> TokenAt(s, q').None?
  {
    FirstWindFrom(s, 0)
  }

  /** The token found at `k` is the one decoded when no token starts earlier. */
  lemma FirstTokenWins(s: string, k: nat, w: Wind)
    requires k < |s| && TokenAt(s, k) == Some(w)
    requires forall q :: 0 <= q < k ==> TokenAt(s, q).None?
    ensures ExtractWind(s) == Some(w)
  {
    var r := ExtractWind(s);
    assert r.Some?;
    var q :| 0 <= q < |s| && TokenAt(s, q) == r && forall q' :: 0 <= q' < q ==> TokenAt(s, q').None?;
    assert q == k;
  }

  /** The winds a bulletin can write: a bearing that is a multiple of 10 below 400, or `VRB`; two-digit speeds. */
  predicate Writable(w: Wind) {
    0 <= w.knots < 100
    && (w.gustKnots.None? || 0 <= w.gustKnots.value < 100)
    && ((w.degreesRange == 360 && w.degreesTrue == 0)
        || (w.degreesRange == 0 && 0 <= w.degreesTrue < 400 && w.degreesTrue % 10 == 0))
  }

  /** The three-character direction field. */
  function DirectionText(w: Wind): (d: string)
    requires Writable(w)
    ensures |d| == 3
  {
    if w.degreesRange == 360 then "VRB"
    else [DigitChar(w.degreesTrue / 100), DigitChar(w.degreesTrue / 10 % 10), '0']
  }

  /** The token as a bulletin writes it, e.g. `27015G25KT` or `VRB03KT`. */
  function FormatWind(w: Wind): (t: string)
    requires Writable(w)
    ensures |t| == (if w.gustKnots.Some? then 10 else 7)
  {
    DirectionText(w) + Pad2(w.knots) + (if w.gustKnots.Some? then "G" + Pad2(w.gustKnots.value) else "") + "KT"
  }

  lemma BearingDigits(w: Wind)
    requires Writable(w) && w.degreesRange == 0
    ensures DigitsValue(DirectionText(w)) == w.degreesTrue
  {
    var d := DirectionText(w);
    assert d[..2][..1][..0] == [];
    assert d[..2][..1] == d[..1];
    assert d[..|d| - 1] == d[..2];
    assert d[..2][..|d[..2]| - 1] == d[..1];
    assert DigitsValue(d[..1]) == w.degreesTrue / 100;
    assert DigitsValue(d[..2]) == (w.degreesTrue / 100) * 10 + w.degreesTrue / 10 % 10;
  }

  /** The direction field of a written token is read back as the wind's bearing and range. */
  lemma DirectionRead(t: string, p: nat, w: Wind)
    requires Writable(w) && p + 3 <= |t| && t[p..p + 3] == DirectionText(w)
    ensures DirectionAt(t, p) == Some((w.degreesTrue, w.degreesRange))
  {
    var d := DirectionText(w);
    assert t[p] == d[0] && t[p + 1] == d[1] && t[p + 2] == d[2];
    if w.degreesRange == 0 {
      BearingDigits(w);
    }
  }

  /** A character of text written at `p`. */
  lemma CharAt(t: string, p: nat, f: string, i: nat)
    requires p + |f| <= |t| && t[p..p + |f|] == f && i < |f|
    ensures t[p + i] == f[i]
  {
    assert t[p..p + |f|][i] == t[p + i];
  }

  /** The fields a token is decoded from, character by character. */
  lemma TokenFields(t: string, p: nat, dir: (int, int), knots: int, gust: Option<int>)
    requires p + 5 <= |t| && DirectionAt(t, p) == Some(dir)
    requires IsDigit(t[p + 3]) && IsDigit(t[p + 4]) && DigitsValue(t[p + 3..p + 5]) == knots
    requires gust.Some? ==> p + 10 <= |t| && t[p + 5] == 'G' && IsDigit(t[p + 6]) && IsDigit(t[p + 7])
                            && DigitsValue(t[p + 6..p + 8]) == gust.value && t[p + 8] == 'K' && t[p + 9] == 'T'
    requires gust.None? ==> p + 7 <= |t| && t[p + 5] == 'K' && t[p + 6] == 'T'
    ensures TokenAt(t, p) == Some(Wind(knots, dir.0, dir.1, gust))
  {
  }

  /** Wherever a written token stands, it is decoded there to the wind it was written from. */
  lemma TokenRead(t: string, p: nat, w: Wind)
    requires Writable(w) && p + |FormatWind(w)| <= |t| && t[p..p + |FormatWind(w)|] == FormatWind(w)
    ensures TokenAt(t, p) == Some(w)
  {
    var f := FormatWind(w);
    var d, k := DirectionText(w), Pad2(w.knots);
    assert f[..3] == d && f[3..5] == k;
    SliceOfSlice(t, p, p + |f|, 0, 3);
    SliceOfSlice(t, p, p + |f|, 3, 5);
    DirectionRead(t, p, w);
    assert t[p + 3..p + 5] == k;
    assert t[p + 3] == k[0] && t[p + 4] == k[1];
    if w.gustKnots.Some? {
      var g := Pad2(w.gustKnots.value);
      var tail := "G" + g + "KT";
      assert f == (d + k) + tail;
      assert f[5..] == tail;
      assert f[5] == tail[0] == 'G' && f[8] == tail[3] == 'K' && f[9] == tail[4] == 'T';
      assert f[6..8] == tail[1..3] == g;
      CharAt(t, p, f, 5);
      CharAt(t, p, f, 8);
      CharAt(t, p, f, 9);
      SliceOfSlice(t, p, p + |f|, 6, 8);
      assert t[p + 6..p + 8] == g;
      assert t[p + 6] == g[0] && t[p + 7] == g[1];
    } else {
      assert f == (d + k) + "KT";
      assert f[5..] == "KT";
      assert f[5] == 'K' && f[6] == 'T';
      CharAt(t, p, f, 5);
      CharAt(t, p, f, 6);
    }
    TokenFields(t, p, (w.degreesTrue, w.degreesRange), w.knots, w.gustKnots);
  }

  /** Round trip: the written token decodes to the wind it was written from. */
  lemma WindRoundTrip(w: Wind)
    requires Writable(w)
    ensures ExtractWind(FormatWind(w)) == Some(w)
  {
    var f := FormatWind(w);
    assert f[0..|f|] == f;
    TokenRead(f, 0, w);
    FirstTokenWins(f, 0, w);
  }

  /** Text that holds no digit and no `V` cannot start a token. */
  predicate NoTokenStart(s: string) {
    forall i :: 0 <= i < |s| ==> !IsDigit(s[i]) && s[i] != 'V'
  }

  /** Text before the token that cannot start one does not change what is decoded, nor does text after it. */
  lemma SurroundingTextIgnored(prefix: string, w: Wind, suffix: string)
    requires Writable(w) && NoTokenStart(prefix)
    ensures ExtractWind(prefix + FormatWind(w) + suffix) == Some(w)
  {
    var f := FormatWind(w);
    var s := prefix + f + suffix;
    var k := |prefix|;
    assert s[k..k + |f|] == f;
    TokenRead(s, k, w);
    forall q | 0 <= q < k
      ensures TokenAt(s, q).None?
    {
      assert s[q] == prefix[q];
      if q + 3 <= |s| {
        assert s[q..q + 3][0] == s[q];
      }
    }
    FirstTokenWins(s, k, w);
  }

  /** `VRB` gives bearing 0 with the full 360-degree range, and no gust without gust digits. */
  lemma VariableWind()
    ensures ExtractWind("VRB05KT") == Some(Wind(5, 0, 360, None))
  {
    var w := Wind(5, 0, 360, None);
    assert FormatWind(w) == "VRB05KT";
    WindRoundTrip(w);
  }

  /** The direction field admits `370`, `380` and `390`: the bearing is not bounded by 360. */
  lemma BearingAbove360Accepted()
    ensures ExtractWind("37010KT") == Some(Wind(10, 370, 0, None))
  {
    var w := Wind(10, 370, 0, None);
    assert DirectionText(w) == "370";
    assert FormatWind(w) == "37010KT";
    WindRoundTrip(w);
  }

  /** The speed field is exactly two digits: a three-digit speed is not decoded at all. */
  lemma ThreeDigitSpeedIgnored()
    ensures ExtractWind("270105KT") == None
  {
    var s := "270105KT";
    assert s[5] == '5' && s[6] == 'K';
    assert TokenAt(s, 0).None? && TokenAt(s, 2).None?;
    assert s[1..4] != "VRB" && s[3..6] != "VRB";
    assert forall q :: 0 <= q < |s| && q != 0 && q != 2 ==> DirectionAt(s, q).None?;
  }
}
