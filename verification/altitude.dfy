/**
 * The altitude lookup of an upper-wind forecast: finding the levels that
 * bracket a flight altitude, and reading the wind or the temperature there,
 * exactly at a level or by linear interpolation (or extrapolation) between
 * two levels. Quantities are `real`.
 */
module Altitude {
  import opened Common
  import opened Lists

  datatype BaseWind = BaseWind(knots: real, degreesTrue: real)

  /** What a level forecasts; either part may be missing. */
  datatype Forecast = Forecast(wind: Option<BaseWind>, temperature: Option<real>)

  /** `UpperwindPerAltitude`: one altitude level of an upper-wind forecast. */
  datatype Level = Level(altitude: real, forecast: Option<Forecast>)

  /** The three indices the lookup reports; -1 stands for "none". */
  datatype Indices = Indices(lowerIndex: int, actualIndex: int, upperIndex: int)

  /** No two levels share an altitude, so that any two levels give a slope. */
  predicate DistinctAltitudes(data: seq<Level>) {
    forall i, j :: 0 <= i < j < |data| ==> data[i].altitude != data[j].altitude
  }

  predicate Ascending(data: seq<Level>) {
    forall i, j :: 0 <= i < j < |data| ==> data[i].altitude < data[j].altitude
  }

  // ---------------------------------------------------------------------
  // _findUpperWindIndicesByAltitude
  // ---------------------------------------------------------------------

  /** The first level from `from` on that lies above the altitude, or -1. */
  function FirstAbove(data: seq<Level>, altitude: real, from: nat): (r: int)
    decreases |data| - from
    ensures r == -1 || (from <= r < |data| && data[r].altitude > altitude)
    ensures forall k :: from <= k < |data| && (r == -1 || k < r) ==> data[k].altitude <= altitude
  {
    if from >= |data| then -1
    else if data[from].altitude > altitude then from
    else FirstAbove(data, altitude, from + 1)
  }

  /** The last level before `n` that lies below the altitude, or -1. */
  function LastBelow(data: seq<Level>, altitude: real, n: nat): (r: int)
    requires n <= |data|
    ensures r == -1 || (0 <= r < n && data[r].altitude < altitude)
    ensures forall k :: r < k < n ==> data[k].altitude >= altitude
  {
    if n == 0 then -1
    else if data[n - 1].altitude < altitude then n - 1
    else LastBelow(data, altitude, n - 1)
  }

  /** The last level before `n` that lies at the altitude, or -1. */
  function LastAt(data: seq<Level>, altitude: real, n: nat): (r: int)
    requires n <= |data|
    ensures r == -1 || (0 <= r < n && data[r].altitude == altitude)
    ensures forall k :: r < k < n ==> data[k].altitude != altitude
  {
    if n == 0 then -1
    else if data[n - 1].altitude == altitude then n - 1
    else LastAt(data, altitude, n - 1)
  }

  /**
   * What the `findIndex` pass leaves: it stops at the first level above the
   * altitude, its callback having recorded the last level below and the
   * last level at the altitude among those it visited.
   */
  function Scanned(data: seq<Level>, altitude: real): Indices {
    var upper := FirstAbove(data, altitude, 0);
    var visited := if upper == -1 then |data| else upper;
    Indices(LastBelow(data, altitude, visited), LastAt(data, altitude, visited), upper)
  }

  /**
   * The reported indices: fewer than two levels report level 0 as the
   * exact one; a level at the altitude or a bracketing pair is reported as
   * found; otherwise the two levels at the nearer edge are reported.
   */
  function IndicesByAltitude(data: seq<Level>, altitude: real): Indices {
    if |data| < 2 then Indices(-1, 0, -1)
    else
      var s := Scanned(data, altitude);
      if s.actualIndex >= 0 || (s.lowerIndex >= 0 && s.upperIndex >= 0) then s
      else if s.lowerIndex >= 0 then Indices(s.lowerIndex - 1, s.actualIndex, s.lowerIndex)
      else Indices(s.upperIndex, s.actualIndex, s.upperIndex + 1)
  }

  /**
   * `_findUpperWindIndicesByAltitude`: `findIndex` with a callback that
   * records `lowerIndex` and `actualIndex` as it goes, then the edge cases.
   */
  method FindUpperWindIndicesByAltitude(data: seq<Level>, altitude: real) returns (r: Indices)
    ensures r == IndicesByAltitude(data, altitude)
  {
    if |data| < 2 {
      return Indices(-1, 0, -1);
    }
    var lowerIndex, actualIndex, upperIndex := -1, -1, -1;
    var idx := 0;
    while idx < |data| && upperIndex == -1
      invariant idx <= |data|
      invariant upperIndex == -1 || (upperIndex == idx && idx < |data| && data[idx].altitude > altitude)
      invariant forall k :: 0 <= k < idx ==> data[k].altitude <= altitude
      invariant lowerIndex == LastBelow(data, altitude, idx) && actualIndex == LastAt(data, altitude, idx)
      decreases |data| - idx, if upperIndex == -1 then 1 else 0
    {
      if data[idx].altitude < altitude {
        lowerIndex := idx;
      }
      if data[idx].altitude == altitude {
        actualIndex := idx;
      }
      if data[idx].altitude > altitude {
        upperIndex := idx;
      } else {
        idx := idx + 1;
      }
    }
    ScanStops(data, altitude, idx, upperIndex);
    if actualIndex >= 0 || (lowerIndex >= 0 && upperIndex >= 0) {
      return Indices(lowerIndex, actualIndex, upperIndex);
    }
    if lowerIndex >= 0 {
      return Indices(lowerIndex - 1, actualIndex, lowerIndex);
    }
    r := Indices(upperIndex, actualIndex, upperIndex + 1);
  }

  /** Where the pass stops: at the first level above the altitude, or past the end with none. */
  lemma ScanStops(data: seq<Level>, altitude: real, idx: nat, upperIndex: int)
    requires idx <= |data| && forall k :: 0 <= k < idx ==> data[k].altitude <= altitude
    requires (upperIndex == -1 && idx == |data|) || (upperIndex == idx < |data| && data[idx].altitude > altitude)
    ensures Scanned(data, altitude) == Indices(LastBelow(data, altitude, idx), LastAt(data, altitude, idx), upperIndex)
  {
    var upper := FirstAbove(data, altitude, 0);
    assert upper == -1 || data[upper].altitude > altitude;
  }

  /**
   * With two levels or more, every reported index is a level or -1; an exact
   * index lies at the altitude; and a lower and an upper index that are both
   * reported (and no exact one) are two different levels.
   */
  lemma IndicesInRange(data: seq<Level>, altitude: real)
    requires |data| >= 2
    ensures var r := IndicesByAltitude(data, altitude);
      -1 <= r.lowerIndex < |data| && -1 <= r.actualIndex < |data| && -1 <= r.upperIndex < |data|
      && (r.actualIndex >= 0 ==> data[r.actualIndex].altitude == altitude)
      && (r.actualIndex < 0 && r.lowerIndex >= 0 && r.upperIndex >= 0 ==> r.lowerIndex != r.upperIndex)
  {
    var s := Scanned(data, altitude);
    if s.actualIndex < 0 && s.lowerIndex < 0 {
      assert data[0].altitude > altitude;
    }
  }

  /** On an ascending grid, a level at the altitude is reported as the exact one. */
  lemma ExactLevelFound(data: seq<Level>, altitude: real, k: nat)
    requires |data| >= 2 && Ascending(data) && k < |data| && data[k].altitude == altitude
    ensures IndicesByAltitude(data, altitude).actualIndex == k
  {
    var s := Scanned(data, altitude);
    assert FirstAbove(data, altitude, 0) == -1 || FirstAbove(data, altitude, 0) > k;
  }

  /** On an ascending grid, an altitude strictly between two neighbouring levels is bracketed by them. */
  lemma BracketFound(data: seq<Level>, altitude: real, k: nat)
    requires Ascending(data) && k + 1 < |data| && data[k].altitude < altitude < data[k + 1].altitude
    ensures IndicesByAltitude(data, altitude) == Indices(k, -1, k + 1)
  {
    var s := Scanned(data, altitude);
    assert FirstAbove(data, altitude, 0) == k + 1;
    assert s.lowerIndex == k;
  }

  /** On an ascending grid, an altitude below every level uses the two lowest levels. */
  lemma BelowGrid(data: seq<Level>, altitude: real)
    requires |data| >= 2 && Ascending(data) && altitude < data[0].altitude
    ensures IndicesByAltitude(data, altitude) == Indices(0, -1, 1)
  {
    assert FirstAbove(data, altitude, 0) == 0;
  }

  /** On an ascending grid, an altitude above every level uses the two highest levels. */
  lemma AboveGrid(data: seq<Level>, altitude: real)
    requires |data| >= 2 && Ascending(data) && altitude > data[|data| - 1].altitude
    ensures IndicesByAltitude(data, altitude) == Indices(|data| - 2, -1, |data| - 1)
  {
    assert FirstAbove(data, altitude, 0) == -1;
    assert LastBelow(data, altitude, |data|) == |data| - 1;
    assert LastAt(data, altitude, |data|) == -1;
  }

  // ---------------------------------------------------------------------
  // Linear interpolation
  // ---------------------------------------------------------------------

  /** The line through `(x0, y0)` and `(x1, y1)` at `x`: slope, intercept, then `slope * x + intercept`. */
  function Interpolate(x0: real, y0: real, x1: real, y1: real, x: real): real
    requires x0 != x1
  {
    var slope := (y1 - y0) / (x1 - x0);
    var intercept := y0 - slope * x0;
    slope * x + intercept
  }

  /** The line goes through both of its points. */
  lemma InterpolateEndpoints(x0: real, y0: real, x1: real, y1: real)
    requires x0 != x1
    ensures Interpolate(x0, y0, x1, y1, x0) == y0
    ensures Interpolate(x0, y0, x1, y1, x1) == y1
  {
    var slope := (y1 - y0) / (x1 - x0);
    assert slope * (x1 - x0) == y1 - y0;
  }

  /** Between its two points the line stays between their values. */
  lemma InterpolateBetween(x0: real, y0: real, x1: real, y1: real, x: real)
    requires x0 < x < x1
    ensures var r := Interpolate(x0, y0, x1, y1, x);
      (y0 <= y1 ==> y0 <= r <= y1) && (y1 <= y0 ==> y1 <= r <= y0)
  {
    var slope := (y1 - y0) / (x1 - x0);
    var t := x - x0;
    assert Interpolate(x0, y0, x1, y1, x) == y0 + slope * t;
    assert slope * (x1 - x0) == y1 - y0;
    assert 0.0 < t < x1 - x0;
    if y0 <= y1 {
      assert slope >= 0.0;
      assert slope * t <= slope * (x1 - x0);
    } else {
      assert slope <= 0.0;
      assert slope * t >= slope * (x1 - x0);
    }
  }

  // ---------------------------------------------------------------------
  // Wind and temperature at an altitude
  // ---------------------------------------------------------------------

  /** A level kept by the filter is a level of the input; the filter keeps the order. */
  lemma {:induction false} FilterKeepsOrder(data: seq<Level>, keep: Level -> bool)
    ensures forall k :: 0 <= k < |Filter(data, keep)| ==> Filter(data, keep)[k] in data
    ensures Ascending(data) ==> Ascending(Filter(data, keep))
    ensures DistinctAltitudes(data) ==> DistinctAltitudes(Filter(data, keep))
  {
    if data != [] {
      var tail := data[1..];
      FilterKeepsOrder(tail, keep);
      var rest := Filter(tail, keep);
      forall k | 0 <= k < |rest|
        ensures rest[k] in data
        ensures Ascending(data) ==> data[0].altitude < rest[k].altitude
        ensures DistinctAltitudes(data) ==> data[0].altitude != rest[k].altitude
      {
        var m :| 0 <= m < |tail| && tail[m] == rest[k];
        assert data[m + 1] == rest[k];
      }
      assert Ascending(data) ==> Ascending(tail);
      assert DistinctAltitudes(data) ==> DistinctAltitudes(tail);
      if keep(data[0]) {
        assert Filter(data, keep) == [data[0]] + rest;
        ConsKeepsOrder(data[0], rest);
      } else {
        assert Filter(data, keep) == rest;
      }
    }
  }

  /** A level put in front of levels it lies below (or apart from) keeps them ascending (or distinct). */
  lemma ConsKeepsOrder(x: Level, rest: seq<Level>)
    ensures Ascending(rest) && (forall k :: 0 <= k < |rest| ==> x.altitude < rest[k].altitude) ==> Ascending([x] + rest)
    ensures DistinctAltitudes(rest) && (forall k :: 0 <= k < |rest| ==> x.altitude != rest[k].altitude) ==> DistinctAltitudes([x] + rest)
  {
    var r := [x] + rest;
    forall i, j | 0 <= i < j < |r|
      ensures r[j] == rest[j - 1] && (i > 0 ==> r[i] == rest[i - 1]) && (i == 0 ==> r[i] == x)
    {
    }
  }

  /** `item.forecast && item.forecast.wind`. */
  predicate HasWind(l: Level) {
    l.forecast.Some? && l.forecast.value.wind.Some?
  }

  /** `item.forecast && item.forecast.temperature`: a temperature of exactly 0 is falsy and does not count. */
  predicate HasTemperature(l: Level) {
    l.forecast.Some? && l.forecast.value.temperature.Some? && l.forecast.value.temperature.value != 0.0
  }

  /** `x || 1` on a number (0 is falsy). */
  function Or1(x: real): real {
    if x == 0.0 then 1.0 else x
  }

  /** The levels that carry a wind. */
  function WindLevels(data: seq<Level>): (r: seq<Level>)
    ensures forall k :: 0 <= k < |r| ==> HasWind(r[k])
    ensures Ascending(data) ==> Ascending(r)
    ensures DistinctAltitudes(data) ==> DistinctAltitudes(r)
  {
    FilterKeepsOrder(data, HasWind);
    Filter(data, HasWind)
  }

  /** The levels that carry a non-zero temperature. */
  function TemperatureLevels(data: seq<Level>): (r: seq<Level>)
    ensures forall k :: 0 <= k < |r| ==> HasTemperature(r[k])
    ensures Ascending(data) ==> Ascending(r)
    ensures DistinctAltitudes(data) ==> DistinctAltitudes(r)
  {
    FilterKeepsOrder(data, HasTemperature);
    Filter(data, HasTemperature)
  }

  function WindAt(l: Level): BaseWind
    requires HasWind(l)
  {
    l.forecast.value.wind.value
  }

  function TemperatureAt(l: Level): real
    requires HasTemperature(l)
  {
    l.forecast.value.temperature.value
  }

  /** The wind on the line through two wind levels, component by component. */
  function InterpolateWind(lower: Level, upper: Level, altitude: real): BaseWind
    requires HasWind(lower) && HasWind(upper) && lower.altitude != upper.altitude
  {
    BaseWind(Interpolate(lower.altitude, WindAt(lower).knots, upper.altitude, WindAt(upper).knots, altitude),
             Interpolate(lower.altitude, WindAt(lower).degreesTrue, upper.altitude, WindAt(upper).degreesTrue, altitude))
  }

  /**
   * `_getWindAtAltitude`: nothing without a wind level; the only wind level's
   * wind (`x || 0` leaves a number unchanged); with two or more, the wind of
   * the level at the altitude (each zero component read as 1), or the wind on
   * the line through the two reported levels, or nothing when the lower
   * index falls off the grid.
   */
  function WindAtAltitude(data: seq<Level>, altitude: real): Option<BaseWind>
    requires DistinctAltitudes(data)
  {
    var levels := WindLevels(data);
    if |levels| == 0 then None
    else if |levels| == 1 then Some(WindAt(levels[0]))
    else
      var ix := IndicesByAltitude(levels, altitude);
      IndicesInRange(levels, altitude);
      if ix.actualIndex >= 0 then
        var w := WindAt(levels[ix.actualIndex]);
        Some(BaseWind(Or1(w.knots), Or1(w.degreesTrue)))
      else if ix.lowerIndex >= 0 && ix.upperIndex >= 0 then
        Some(InterpolateWind(levels[ix.lowerIndex], levels[ix.upperIndex], altitude))
      else None
  }

  /**
   * `_getTemperatureAtAltitude`: the same lookup over the levels with a
   * non-zero temperature, without the `|| 1` on an exact level.
   */
  function TemperatureAtAltitude(data: seq<Level>, altitude: real): Option<real>
    requires DistinctAltitudes(data)
  {
    var levels := TemperatureLevels(data);
    if |levels| == 0 then None
    else if |levels| == 1 then Some(TemperatureAt(levels[0]))
    else
      var ix := IndicesByAltitude(levels, altitude);
      IndicesInRange(levels, altitude);
      if ix.actualIndex >= 0 then Some(TemperatureAt(levels[ix.actualIndex]))
      else if ix.lowerIndex >= 0 && ix.upperIndex >= 0 then
        var lower, upper := levels[ix.lowerIndex], levels[ix.upperIndex];
        Some(Interpolate(lower.altitude, TemperatureAt(lower), upper.altitude, TemperatureAt(upper), altitude))
      else None
  }

  /** No wind level, no wind. */
  lemma NoWindLevels(data: seq<Level>, altitude: real)
    requires DistinctAltitudes(data) && forall k :: 0 <= k < |data| ==> !HasWind(data[k])
    ensures WindAtAltitude(data, altitude).None?
  {
    FilterKeepsOrder(data, HasWind);
    if |WindLevels(data)| > 0 {
      assert WindLevels(data)[0] in data;
    }
  }

  /** On an ascending grid with two wind levels or more, the wind at a level's altitude is that level's wind, zeros read as 1. */
  lemma WindAtLevel(data: seq<Level>, altitude: real, k: nat)
    requires Ascending(data) && |WindLevels(data)| >= 2
    requires k < |WindLevels(data)| && WindLevels(data)[k].altitude == altitude
    ensures var w := WindAt(WindLevels(data)[k]);
      WindAtAltitude(data, altitude) == Some(BaseWind(Or1(w.knots), Or1(w.degreesTrue)))
  {
    FilterKeepsOrder(data, HasWind);
    ExactLevelFound(WindLevels(data), altitude, k);
  }

  /**
   * On an ascending grid, the wind between two neighbouring wind levels is
   * on the line through them, and it is the levels' own wind at their
   * altitudes.
   */
  lemma WindBetweenLevels(data: seq<Level>, altitude: real, k: nat)
    requires Ascending(data)
    requires var levels := WindLevels(data);
      k + 1 < |levels| && levels[k].altitude < altitude < levels[k + 1].altitude
    ensures var levels := WindLevels(data);
      WindAtAltitude(data, altitude) == Some(InterpolateWind(levels[k], levels[k + 1], altitude))
      && InterpolateWind(levels[k], levels[k + 1], levels[k].altitude) == WindAt(levels[k])
      && InterpolateWind(levels[k], levels[k + 1], levels[k + 1].altitude) == WindAt(levels[k + 1])
  {
    var levels := WindLevels(data);
    FilterKeepsOrder(data, HasWind);
    BracketFound(levels, altitude, k);
    var lo, hi := levels[k], levels[k + 1];
    InterpolateEndpoints(lo.altitude, WindAt(lo).knots, hi.altitude, WindAt(hi).knots);
    InterpolateEndpoints(lo.altitude, WindAt(lo).degreesTrue, hi.altitude, WindAt(hi).degreesTrue);
  }

  /** On an ascending grid, below the lowest wind level the line through the two lowest is extended. */
  lemma WindBelowLevels(data: seq<Level>, altitude: real)
    requires Ascending(data) && |WindLevels(data)| >= 2 && altitude < WindLevels(data)[0].altitude
    ensures WindAtAltitude(data, altitude) == Some(InterpolateWind(WindLevels(data)[0], WindLevels(data)[1], altitude))
  {
    FilterKeepsOrder(data, HasWind);
    BelowGrid(WindLevels(data), altitude);
  }

  /** On an ascending grid, above the highest wind level the line through the two highest is extended. */
  lemma WindAboveLevels(data: seq<Level>, altitude: real)
    requires Ascending(data) && |WindLevels(data)| >= 2
    requires altitude > WindLevels(data)[|WindLevels(data)| - 1].altitude
    ensures var levels := WindLevels(data);
      WindAtAltitude(data, altitude) == Some(InterpolateWind(levels[|levels| - 2], levels[|levels| - 1], altitude))
  {
    FilterKeepsOrder(data, HasWind);
    AboveGrid(WindLevels(data), altitude);
  }

  /** The only wind level gives its wind at every altitude, unchanged. */
  lemma SingleWindLevel(data: seq<Level>, altitude: real)
    requires DistinctAltitudes(data) && |WindLevels(data)| == 1
    ensures WindAtAltitude(data, altitude) == Some(WindAt(WindLevels(data)[0]))
  {
  }

  /** No level with a non-zero temperature, no temperature. */
  lemma NoTemperatureLevels(data: seq<Level>, altitude: real)
    requires DistinctAltitudes(data) && forall k :: 0 <= k < |data| ==> !HasTemperature(data[k])
    ensures TemperatureAtAltitude(data, altitude).None?
  {
    FilterKeepsOrder(data, HasTemperature);
    if |TemperatureLevels(data)| > 0 {
      assert TemperatureLevels(data)[0] in data;
    }
  }

  /** The only temperature level gives its temperature at every altitude. */
  lemma SingleTemperatureLevel(data: seq<Level>, altitude: real)
    requires DistinctAltitudes(data) && |TemperatureLevels(data)| == 1
    ensures TemperatureAtAltitude(data, altitude) == Some(TemperatureAt(TemperatureLevels(data)[0]))
  {
  }

  /** On an ascending grid with two temperature levels or more, the temperature at a level's altitude is that level's. */
  lemma TemperatureAtLevel(data: seq<Level>, altitude: real, k: nat)
    requires Ascending(data) && |TemperatureLevels(data)| >= 2
    requires k < |TemperatureLevels(data)| && TemperatureLevels(data)[k].altitude == altitude
    ensures TemperatureAtAltitude(data, altitude) == Some(TemperatureAt(TemperatureLevels(data)[k]))
  {
    FilterKeepsOrder(data, HasTemperature);
    ExactLevelFound(TemperatureLevels(data), altitude, k);
  }

  /**
   * On an ascending grid, the temperature between two neighbouring
   * temperature levels is on the line through them, which passes through
   * both levels' temperatures and so lies between them.
   */
  lemma TemperatureBetweenLevels(data: seq<Level>, altitude: real, k: nat)
    requires Ascending(data)
    requires var levels := TemperatureLevels(data);
      k + 1 < |levels| && levels[k].altitude < altitude < levels[k + 1].altitude
    ensures var levels := TemperatureLevels(data);
      var lo, hi := levels[k], levels[k + 1];
      var t0, t1 := TemperatureAt(lo), TemperatureAt(hi);
      TemperatureAtAltitude(data, altitude) == Some(Interpolate(lo.altitude, t0, hi.altitude, t1, altitude))
      && Interpolate(lo.altitude, t0, hi.altitude, t1, lo.altitude) == t0
      && Interpolate(lo.altitude, t0, hi.altitude, t1, hi.altitude) == t1
    ensures var levels := TemperatureLevels(data);
      var t0, t1 := TemperatureAt(levels[k]), TemperatureAt(levels[k + 1]);
      var r := TemperatureAtAltitude(data, altitude);
      r.Some? && (t0 <= t1 ==> t0 <= r.value <= t1) && (t1 <= t0 ==> t1 <= r.value <= t0)
  {
    var levels := TemperatureLevels(data);
    FilterKeepsOrder(data, HasTemperature);
    BracketFound(levels, altitude, k);
    var lo, hi := levels[k], levels[k + 1];
    InterpolateEndpoints(lo.altitude, TemperatureAt(lo), hi.altitude, TemperatureAt(hi));
    InterpolateBetween(lo.altitude, TemperatureAt(lo), hi.altitude, TemperatureAt(hi), altitude);
  }

  /** On an ascending grid, below the lowest temperature level the line through the two lowest is extended. */
  lemma TemperatureBelowLevels(data: seq<Level>, altitude: real)
    requires Ascending(data) && |TemperatureLevels(data)| >= 2 && altitude < TemperatureLevels(data)[0].altitude
    ensures var levels := TemperatureLevels(data);
      TemperatureAtAltitude(data, altitude)
        == Some(Interpolate(levels[0].altitude, TemperatureAt(levels[0]), levels[1].altitude, TemperatureAt(levels[1]), altitude))
  {
    FilterKeepsOrder(data, HasTemperature);
    BelowGrid(TemperatureLevels(data), altitude);
  }

  /** On an ascending grid, above the highest temperature level the line through the two highest is extended. */
  lemma TemperatureAboveLevels(data: seq<Level>, altitude: real)
    requires Ascending(data) && |TemperatureLevels(data)| >= 2
    requires altitude > TemperatureLevels(data)[|TemperatureLevels(data)| - 1].altitude
    ensures var levels := TemperatureLevels(data);
      var lo, hi := levels[|levels| - 2], levels[|levels| - 1];
      TemperatureAtAltitude(data, altitude)
        == Some(Interpolate(lo.altitude, TemperatureAt(lo), hi.altitude, TemperatureAt(hi), altitude))
  {
    FilterKeepsOrder(data, HasTemperature);
    AboveGrid(TemperatureLevels(data), altitude);
  }

  /** A level whose temperature is exactly 0 is not used: a grid whose only non-zero temperature is one level's gives that temperature everywhere. */
  lemma ZeroTemperatureIgnored(altitude: real, a0: real, a1: real, t: real)
    requires a0 != a1 && t != 0.0
    ensures TemperatureAtAltitude([Level(a0, Some(Forecast(None, Some(0.0)))), Level(a1, Some(Forecast(None, Some(t))))], altitude)
         == Some(t)
  {
    var data := [Level(a0, Some(Forecast(None, Some(0.0)))), Level(a1, Some(Forecast(None, Some(t))))];
    assert data[1..][1..] == [];
    assert !HasTemperature(data[0]) && HasTemperature(data[1]);
    assert Filter(data[1..], HasTemperature) == [data[1]];
    assert TemperatureLevels(data) == [data[1]];
  }
}
