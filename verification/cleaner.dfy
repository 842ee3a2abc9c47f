/**
 * `Cleaner`: selects and ranks what the decoders produced. TAF winds per
 * aerodrome are ordered within-forecast first, then by distance; METARs are
 * filtered and ordered by distance, newer first; one upper-wind forecast is
 * chosen per aerodrome, nearest aerodrome first, and read at the flight
 * altitude. Instants are integers (milliseconds), distances `real`.
 */
module Cleaner {
  import opened Common
  import opened Lists
  import opened Sorting
  import opened OrderedSet
  import opened TafWind
  import opened TafSummary
  import opened TafSelect
  import opened Altitude

  // ---------------------------------------------------------------------
  // aerodromeWinds
  // ---------------------------------------------------------------------

  datatype AerodromeWindInput = AerodromeWindInput(aerodrome: string, dateTimeAt: int, flightWithinForecast: bool,
                                                   nauticalMilesFromTarget: real, winds: TafWindSummary<int>)

  datatype AerodromeWind = AerodromeWind(aerodrome: string, order: nat, date: int, dateFrom: int, dateTo: int,
                                         gustFactorKnots: int, knots: int, degreesTrue: int, degreesRange: int)

  /** The comparator of `aerodromeWinds`: within-forecast first, then nearer first. */
  function WindRank(item: AerodromeWindInput): Key {
    Key(if item.flightWithinForecast then 0.0 else 1.0, item.nauticalMilesFromTarget)
  }

  /** `gustKnots ? gustKnots - knots : 0`. */
  function GustFactor(gustKnots: Option<int>, knots: int): int {
    if gustKnots.Some? && gustKnots.value != 0 then gustKnots.value - knots else 0
  }

  /** The record the `map` callback builds for the item at a position; it throws when the selection does. */
  function Summarise(item: AerodromeWindInput, order: nat): Outcome<AerodromeWind> {
    match SelectTafGroup(item.winds.groups, item.dateTimeAt, item.flightWithinForecast)
    case Throws => Throws
    case Returns(w) =>
      Returns(AerodromeWind(item.aerodrome, order, item.winds.date, w.dateFrom, w.dateTo,
                            GustFactor(w.gustKnots, w.knots), w.knots, w.degreesTrue, w.degreesRange))
  }

  /** `sortedData.map((item, idx) => ...)`: one record per item, numbered from 1; any throw throws the map. */
  function Summaries(sorted: seq<AerodromeWindInput>): Outcome<seq<AerodromeWind>> {
    if exists k :: 0 <= k < |sorted| && Summarise(sorted[k], k + 1).Throws? then Throws
    else Returns(seq(|sorted|, k requires 0 <= k < |sorted| && Summarise(sorted[k], k + 1).Returns? =>
                                Summarise(sorted[k], k + 1).value))
  }

  /** `aerodromeWinds`: sorts the caller's array in place, then summarises each item. */
  method AerodromeWinds(data: array<AerodromeWindInput>) returns (r: Outcome<seq<AerodromeWind>>)
    modifies data
    ensures data[..] == SortBy(old(data[..]), WindRank)
    ensures r == Summaries(data[..])
  {
    SortInPlace(data, WindRank);
    r := Summaries(data[..]);
  }

  /**
   * The ranking of `aerodromeWinds`: a permutation of the input with the
   * within-forecast items first and, among equals, the nearer first; one
   * record per item, in that order, numbered 1 to n.
   */
  lemma AerodromeWindsRanked(input: seq<AerodromeWindInput>)
    ensures var sorted := SortBy(input, WindRank);
      multiset(sorted) == multiset(input)
      && (forall i, j :: 0 <= i < j < |sorted| && sorted[j].flightWithinForecast ==> sorted[i].flightWithinForecast)
      && (forall i, j :: 0 <= i < j < |sorted| && sorted[i].flightWithinForecast == sorted[j].flightWithinForecast
            ==> sorted[i].nauticalMilesFromTarget <= sorted[j].nauticalMilesFromTarget)
    ensures var sorted := SortBy(input, WindRank);
      var r := Summaries(sorted);
      r.Returns? ==> |r.value| == |input|
                     && forall k :: 0 <= k < |input| ==> r.value[k].order == k + 1 && r.value[k].aerodrome == sorted[k].aerodrome
  {
    var sorted := SortBy(input, WindRank);
    SortBySortsAndPermutes(input, WindRank);
    SortByLength(input, WindRank);
    forall i, j | 0 <= i < j < |sorted|
      ensures (sorted[j].flightWithinForecast ==> sorted[i].flightWithinForecast)
      ensures sorted[i].flightWithinForecast == sorted[j].flightWithinForecast
              ==> sorted[i].nauticalMilesFromTarget <= sorted[j].nauticalMilesFromTarget
    {
      assert Le(WindRank(sorted[i]), WindRank(sorted[j]));
    }
    SummariesNumbered(sorted);
  }

  /** One summary per item, numbered from 1 in the order of the items. */
  lemma SummariesNumbered(sorted: seq<AerodromeWindInput>)
    ensures var r := Summaries(sorted);
      r.Returns? ==> |r.value| == |sorted|
                     && forall k :: 0 <= k < |sorted| ==> r.value[k].order == k + 1 && r.value[k].aerodrome == sorted[k].aerodrome
  {
  }

  /** The gust factor added to the speed gives the gust when it is truthy, and the speed otherwise. */
  lemma GustFactorAddsUp(w: GroupWind)
    ensures w.knots + GustFactor(w.gustKnots, w.knots)
         == if w.gustKnots.Some? && w.gustKnots.value != 0 then w.gustKnots.value else w.knots
  {
  }

  // ---------------------------------------------------------------------
  // aerodromeMETAR, enrouteMETAR
  // ---------------------------------------------------------------------

  datatype MetarInput = MetarInput(aerodromeCode: string, nauticalMilesFromTarget: real, date: int,
                                   temperature: Option<real>, altimeter: Option<real>)

  /** `{...metar, order}`. */
  datatype RankedMetar = RankedMetar(metar: MetarInput, order: nat)

  /** `!!x` on an optional number: present and not 0. */
  predicate Truthy(x: Option<real>) {
    x.Some? && x.value != 0.0
  }

  predicate HasTemperatureAndAltimeter(m: MetarInput) {
    Truthy(m.temperature) && Truthy(m.altimeter)
  }

  predicate HasAltimeter(m: MetarInput) {
    Truthy(m.altimeter)
  }

  /** The METAR comparator: nearer first, then newer first. */
  function MetarRank(m: MetarInput): Key {
    Key(m.nauticalMilesFromTarget, -(m.date as real))
  }

  /** `.map((metar, idx) => ({...metar, order: idx + 1}))`. */
  function Numbered(s: seq<MetarInput>): (r: seq<RankedMetar>)
    ensures |r| == |s|
  {
    seq(|s|, k requires 0 <= k < |s| => RankedMetar(s[k], k + 1))
  }

  function Metars(r: seq<RankedMetar>): seq<MetarInput> {
    seq(|r|, k requires 0 <= k < |r| => r[k].metar)
  }

  /** `aerodromeMETAR`: the records with a truthy temperature and altimeter, ranked. */
  function AerodromeMetar(data: seq<MetarInput>): seq<RankedMetar> {
    Numbered(SortBy(Filter(data, HasTemperatureAndAltimeter), MetarRank))
  }

  /** `enrouteMETAR`: the records with a truthy altimeter, ranked. */
  function EnrouteMetar(data: seq<MetarInput>): seq<RankedMetar> {
    Numbered(SortBy(Filter(data, HasAltimeter), MetarRank))
  }

  /**
   * Filtering then ranking keeps each passing record as often as it occurs
   * and no other, orders them nearer first and, at equal distance, newer
   * first, and numbers them 1 to n.
   */
  lemma MetarsRanked(data: seq<MetarInput>, keep: MetarInput -> bool)
    ensures var r := Numbered(SortBy(Filter(data, keep), MetarRank));
      (forall m :: multiset(Metars(r))[m] == if keep(m) then multiset(data)[m] else 0)
      && (forall k :: 0 <= k < |r| ==> r[k].order == k + 1)
      && (forall i, j :: 0 <= i < j < |r| ==>
            r[i].metar.nauticalMilesFromTarget < r[j].metar.nauticalMilesFromTarget
            || (r[i].metar.nauticalMilesFromTarget == r[j].metar.nauticalMilesFromTarget && r[i].metar.date >= r[j].metar.date))
  {
    var kept := Filter(data, keep);
    var sorted := SortBy(kept, MetarRank);
    var r := Numbered(sorted);
    SortBySortsAndPermutes(kept, MetarRank);
    FilterMultiset(data, keep);
    assert Metars(r) == sorted;
    forall i, j | 0 <= i < j < |r|
      ensures r[i].metar.nauticalMilesFromTarget < r[j].metar.nauticalMilesFromTarget
              || (r[i].metar.nauticalMilesFromTarget == r[j].metar.nauticalMilesFromTarget && r[i].metar.date >= r[j].metar.date)
    {
      assert Le(MetarRank(sorted[i]), MetarRank(sorted[j]));
    }
  }

  /** `aerodromeMETAR` keeps exactly the records whose temperature and altimeter are both present and non-zero. */
  lemma AerodromeMetarKeeps(data: seq<MetarInput>)
    ensures forall m :: m in Metars(AerodromeMetar(data)) <==> m in data && HasTemperatureAndAltimeter(m)
  {
    MetarsRanked(data, HasTemperatureAndAltimeter);
    forall m ensures m in Metars(AerodromeMetar(data)) <==> m in data && HasTemperatureAndAltimeter(m) {
      assert m in Metars(AerodromeMetar(data)) <==> m in multiset(Metars(AerodromeMetar(data)));
      assert m in data <==> m in multiset(data);
    }
  }

  /** `enrouteMETAR` keeps exactly the records whose altimeter is present and non-zero, whatever their temperature. */
  lemma EnrouteMetarKeeps(data: seq<MetarInput>)
    ensures forall m :: m in Metars(EnrouteMetar(data)) <==> m in data && HasAltimeter(m)
  {
    MetarsRanked(data, HasAltimeter);
    forall m ensures m in Metars(EnrouteMetar(data)) <==> m in data && HasAltimeter(m) {
      assert m in Metars(EnrouteMetar(data)) <==> m in multiset(Metars(EnrouteMetar(data)));
      assert m in data <==> m in multiset(data);
    }
  }

  /** A reading of exactly 0 is falsy: a record with a zero temperature is dropped by `aerodromeMETAR`. */
  lemma ZeroTemperatureDropped(m: MetarInput)
    requires m.temperature == Some(0.0)
    ensures AerodromeMetar([m]) == []
  {
    assert Filter([m], HasTemperatureAndAltimeter) == [];
  }

  // ---------------------------------------------------------------------
  // enrouteUpperWinds
  // ---------------------------------------------------------------------

  datatype UpperwindInput = UpperwindInput(aerodromeCode: string, nauticalMilesFromTarget: real, dateFrom: int, dateTo: int,
                                           flightWithinForecast: bool, dataPerAltitude: seq<Level>)

  datatype UpperWind = UpperWind(aerodromeCode: string, dateFrom: int, dateTo: int, order: nat,
                                 forecast: seq<Level>, wind: Option<BaseWind>, temperature: Option<real>)

  /** A forecast whose levels the altitude lookup can use. */
  predicate Usable(item: UpperwindInput) {
    DistinctAltitudes(item.dataPerAltitude)
  }

  /** The comparator of the first sort: nearer first. */
  function DistanceRank(item: UpperwindInput): Key {
    Key(item.nauticalMilesFromTarget, 0.0)
  }

  /** The comparator of the per-aerodrome sort: earlier `dateFrom` first. */
  function DateFromRank(item: UpperwindInput): Key {
    Key(item.dateFrom as real, 0.0)
  }

  /** `.map(item => item.aerodromeCode)`. */
  function Codes(data: seq<UpperwindInput>): (r: seq<string>)
    ensures |r| == |data| && forall k :: 0 <= k < |data| ==> r[k] == data[k].aerodromeCode
  {
    seq(|data|, k requires 0 <= k < |data| => data[k].aerodromeCode)
  }

  /** `item => item.aerodromeCode === aerodrome`. */
  function OfCode(code: string): UpperwindInput -> bool {
    (item: UpperwindInput) => item.aerodromeCode == code
  }

  /** `aerodromeData`: the forecasts for one aerodrome, earliest `dateFrom` first. */
  function ForecastsOf(data: seq<UpperwindInput>, code: string): seq<UpperwindInput> {
    SortBy(Filter(data, OfCode(code)), DateFromRank)
  }

  /** `find(item => item.flightWithinForecast)` from position `from` on. */
  function FirstWithin(forecasts: seq<UpperwindInput>, from: nat): (r: Option<nat>)
    decreases |forecasts| - from
    ensures r.Some? ==> from <= r.value < |forecasts| && forecasts[r.value].flightWithinForecast
                        && forall k :: from <= k < r.value ==> !forecasts[k].flightWithinForecast
    ensures r.None? ==> forall k :: from <= k < |forecasts| ==> !forecasts[k].flightWithinForecast
  {
    if from >= |forecasts| then None
    else if forecasts[from].flightWithinForecast then Some(from)
    else FirstWithin(forecasts, from + 1)
  }

  /** The forecast chosen: the first within-forecast one, else the first if the flight is earlier than it, else the last. */
  function Choose(forecasts: seq<UpperwindInput>, dateTimeAt: int): (r: UpperwindInput)
    requires forecasts != []
    ensures r in forecasts
  {
    match FirstWithin(forecasts, 0)
    case Some(k) => forecasts[k]
    case None => if dateTimeAt < forecasts[0].dateFrom then forecasts[0] else forecasts[|forecasts| - 1]
  }

  /** The record pushed for the chosen forecast. */
  function UpperWindOf(chosen: UpperwindInput, order: nat, altitude: real): UpperWind
    requires Usable(chosen)
  {
    UpperWind(chosen.aerodromeCode, chosen.dateFrom, chosen.dateTo, order, chosen.dataPerAltitude,
              WindAtAltitude(chosen.dataPerAltitude, altitude), TemperatureAtAltitude(chosen.dataPerAltitude, altitude))
  }

  /** The forecasts for an aerodrome are exactly its records. */
  lemma ForecastsMembers(data: seq<UpperwindInput>, code: string)
    ensures forall x :: x in ForecastsOf(data, code) <==> x in data && x.aerodromeCode == code
  {
    var kept := Filter(data, OfCode(code));
    FilterMembers(data, OfCode(code));
    SortBySortsAndPermutes(kept, DateFromRank);
    forall x ensures x in SortBy(kept, DateFromRank) <==> x in kept {
      assert x in SortBy(kept, DateFromRank) <==> x in multiset(SortBy(kept, DateFromRank));
      assert x in kept <==> x in multiset(kept);
    }
  }

  /** An aerodrome code of the data has at least one forecast. */
  lemma CodeHasForecasts(data: seq<UpperwindInput>, code: string)
    requires code in Codes(data)
    ensures ForecastsOf(data, code) != []
  {
    ForecastsMembers(data, code);
    var k :| 0 <= k < |data| && Codes(data)[k] == code;
    assert data[k] in ForecastsOf(data, code);
  }

  /** The sort reorders the forecasts, so all of them stay usable. */
  lemma SortKeepsUsable(input: seq<UpperwindInput>, key: UpperwindInput -> Key)
    requires forall x :: x in input ==> Usable(x)
    ensures forall x :: x in SortBy(input, key) ==> Usable(x)
  {
    SortBySortsAndPermutes(input, key);
    forall x | x in SortBy(input, key)
      ensures Usable(x)
    {
      assert x in multiset(SortBy(input, key));
    }
  }

  /** The record for an aerodrome of the data: its chosen forecast read at the altitude, numbered `order`. */
  function EntryFor(sorted: seq<UpperwindInput>, code: string, order: nat, altitude: real, dateTimeAt: int): (r: UpperWind)
    requires code in Codes(sorted) && forall x :: x in sorted ==> Usable(x)
    ensures r.aerodromeCode == code && r.order == order
  {
    CodeHasForecasts(sorted, code);
    ForecastsMembers(sorted, code);
    UpperWindOf(Choose(ForecastsOf(sorted, code), dateTimeAt), order, altitude)
  }

  /** The record for the `k`-th distinct aerodrome code, numbered `k + 1`. */
  function EntryAt(sorted: seq<UpperwindInput>, k: nat, altitude: real, dateTimeAt: int): (r: UpperWind)
    requires k < |Distinct(Codes(sorted))| && forall x :: x in sorted ==> Usable(x)
    ensures r.aerodromeCode == Distinct(Codes(sorted))[k] && r.order == k + 1
  {
    DistinctFrom(Codes(sorted));
    EntryFor(sorted, Distinct(Codes(sorted))[k], k + 1, altitude, dateTimeAt)
  }

  /** The records the loop pushes: one per distinct aerodrome code, in first-seen order, numbered from 1. */
  function UpperWindsOf(sorted: seq<UpperwindInput>, altitude: real, dateTimeAt: int): (r: seq<UpperWind>)
    requires forall x :: x in sorted ==> Usable(x)
    ensures |r| == |Distinct(Codes(sorted))|
    ensures forall k :: 0 <= k < |r| ==> r[k] == EntryAt(sorted, k, altitude, dateTimeAt)
  {
    seq(|Distinct(Codes(sorted))|, k requires 0 <= k < |Distinct(Codes(sorted))| => EntryAt(sorted, k, altitude, dateTimeAt))
  }

  /**
   * `enrouteUpperWinds`: sorts the caller's array by distance in place, then
   * collects one record per aerodrome.
   */
  method EnrouteUpperWinds(data: array<UpperwindInput>, altitude: real, dateTimeAt: int) returns (upperwinds: seq<UpperWind>)
    requires forall k :: 0 <= k < data.Length ==> Usable(data[k])
    modifies data
    ensures data[..] == SortBy(old(data[..]), DistanceRank)
    ensures forall x :: x in data[..] ==> Usable(x)
    ensures upperwinds == UpperWindsOf(data[..], altitude, dateTimeAt)
  {
    SortKeepsUsable(data[..], DistanceRank);
    SortInPlace(data, DistanceRank);
    upperwinds := CollectUpperWinds(data[..], altitude, dateTimeAt);
  }

  /**
   * The loop of `enrouteUpperWinds`: for each distinct code, in first-seen
   * order, pushes the record of its chosen forecast with the running `order`.
   */
  method CollectUpperWinds(sorted: seq<UpperwindInput>, altitude: real, dateTimeAt: int) returns (upperwinds: seq<UpperWind>)
    requires forall x :: x in sorted ==> Usable(x)
    ensures upperwinds == UpperWindsOf(sorted, altitude, dateTimeAt)
  {
    var aerodromes := Distinct(Codes(sorted));
    DistinctFrom(Codes(sorted));
    upperwinds := [];
    var order := 1;
    for idx := 0 to |aerodromes|
      invariant order == idx + 1 && |upperwinds| == idx
      invariant forall k :: 0 <= k < idx ==> upperwinds[k] == EntryAt(sorted, k, altitude, dateTimeAt)
    {
      var upperwind := UpperWindFor(sorted, aerodromes[idx], order, altitude, dateTimeAt);
      EntryAtIs(sorted, idx, altitude, dateTimeAt);
      ghost var prev := upperwinds;
      upperwinds := upperwinds + [upperwind];
      PushedEntry(sorted, altitude, dateTimeAt, prev, upperwinds);
      order := order + 1;
    }
    UpperWindsOfIs(sorted, altitude, dateTimeAt, upperwinds);
  }

  lemma EntryAtIs(sorted: seq<UpperwindInput>, k: nat, altitude: real, dateTimeAt: int)
    requires k < |Distinct(Codes(sorted))| && forall x :: x in sorted ==> Usable(x)
    ensures Distinct(Codes(sorted))[k] in Codes(sorted)
    ensures EntryAt(sorted, k, altitude, dateTimeAt) == EntryFor(sorted, Distinct(Codes(sorted))[k], k + 1, altitude, dateTimeAt)
  {
    DistinctFrom(Codes(sorted));
  }

  /** Pushing the next record keeps the pushed ones those of the first codes. */
  lemma PushedEntry(sorted: seq<UpperwindInput>, altitude: real, dateTimeAt: int, prev: seq<UpperWind>, next: seq<UpperWind>)
    requires |prev| < |Distinct(Codes(sorted))| && forall x :: x in sorted ==> Usable(x)
    requires forall k :: 0 <= k < |prev| ==> prev[k] == EntryAt(sorted, k, altitude, dateTimeAt)
    requires next == prev + [EntryAt(sorted, |prev|, altitude, dateTimeAt)]
    ensures forall k :: 0 <= k < |next| ==> next[k] == EntryAt(sorted, k, altitude, dateTimeAt)
  {
  }

  lemma UpperWindsOfIs(sorted: seq<UpperwindInput>, altitude: real, dateTimeAt: int, r: seq<UpperWind>)
    requires forall x :: x in sorted ==> Usable(x)
    requires |r| == |Distinct(Codes(sorted))|
    requires forall k :: 0 <= k < |r| ==> r[k] == EntryAt(sorted, k, altitude, dateTimeAt)
    ensures r == UpperWindsOf(sorted, altitude, dateTimeAt)
  {
  }

  /** One pass of the loop: the forecasts of the aerodrome, the one chosen, and its record read at the altitude. */
  method UpperWindFor(sorted: seq<UpperwindInput>, aerodrome: string, order: nat, altitude: real, dateTimeAt: int)
    returns (upperwind: UpperWind)
    requires aerodrome in Codes(sorted) && forall x :: x in sorted ==> Usable(x)
    ensures upperwind == EntryFor(sorted, aerodrome, order, altitude, dateTimeAt)
  {
    var aerodromeData := ForecastsOf(sorted, aerodrome);
    CodeHasForecasts(sorted, aerodrome);
    ForecastsMembers(sorted, aerodrome);
    var selected := Choose(aerodromeData, dateTimeAt);
    var wind := WindAtAltitude(selected.dataPerAltitude, altitude);
    var temperature := TemperatureAtAltitude(selected.dataPerAltitude, altitude);
    upperwind := UpperWind(selected.aerodromeCode, selected.dateFrom, selected.dateTo, order,
                           selected.dataPerAltitude, wind, temperature);
  }

  /** One record per distinct aerodrome code of the data, each code once, numbered 1 to k. */
  lemma UpperWindsPerAerodrome(sorted: seq<UpperwindInput>, altitude: real, dateTimeAt: int)
    requires forall x :: x in sorted ==> Usable(x)
    ensures var r := UpperWindsOf(sorted, altitude, dateTimeAt);
      (forall k :: 0 <= k < |r| ==> r[k].order == k + 1)
      && (forall i, j :: 0 <= i < j < |r| ==> r[i].aerodromeCode != r[j].aerodromeCode)
      && (forall c :: c in Codes(sorted) <==> exists k :: 0 <= k < |r| && r[k].aerodromeCode == c)
  {
    var r := UpperWindsOf(sorted, altitude, dateTimeAt);
    var aerodromes := Distinct(Codes(sorted));
    DistinctMembers(Codes(sorted));
    forall c | c in Codes(sorted)
      ensures exists k :: 0 <= k < |r| && r[k].aerodromeCode == c
    {
      var k :| 0 <= k < |aerodromes| && aerodromes[k] == c;
      assert r[k].aerodromeCode == c;
    }
  }

  /**
   * Nearest aerodrome first: after the distance sort, the aerodrome of an
   * earlier record first appears no farther away than that of a later one.
   */
  lemma UpperWindsByDistance(input: seq<UpperwindInput>, altitude: real, dateTimeAt: int)
    requires forall x :: x in input ==> Usable(x)
    ensures var sorted := SortBy(input, DistanceRank);
      (forall x :: x in sorted ==> Usable(x))
      && var r := UpperWindsOf(sorted, altitude, dateTimeAt);
         forall i, j :: 0 <= i < j < |r| ==>
           r[i].aerodromeCode in Codes(sorted) && r[j].aerodromeCode in Codes(sorted)
           && sorted[FirstIndex(Codes(sorted), r[i].aerodromeCode)].nauticalMilesFromTarget
              <= sorted[FirstIndex(Codes(sorted), r[j].aerodromeCode)].nauticalMilesFromTarget
  {
    var sorted := SortBy(input, DistanceRank);
    SortKeepsUsable(input, DistanceRank);
    SortBySortsAndPermutes(input, DistanceRank);
    var r := UpperWindsOf(sorted, altitude, dateTimeAt);
    var codes := Codes(sorted);
    var aerodromes := Distinct(codes);
    DistinctMembers(codes);
    DistinctFirstSeenOrder(codes);
    forall i, j | 0 <= i < j < |r|
      ensures sorted[FirstIndex(codes, r[i].aerodromeCode)].nauticalMilesFromTarget
              <= sorted[FirstIndex(codes, r[j].aerodromeCode)].nauticalMilesFromTarget
    {
      var a, b := FirstIndex(codes, aerodromes[i]), FirstIndex(codes, aerodromes[j]);
      assert a < b;
      assert Le(DistanceRank(sorted[a]), DistanceRank(sorted[b]));
    }
  }

  /** The forecasts of an aerodrome come earliest `dateFrom` first. */
  lemma ForecastsAscending(data: seq<UpperwindInput>, code: string)
    ensures var f := ForecastsOf(data, code);
      forall i, j :: 0 <= i < j < |f| ==> f[i].dateFrom <= f[j].dateFrom
  {
    var f := ForecastsOf(data, code);
    SortBySortsAndPermutes(Filter(data, OfCode(code)), DateFromRank);
    forall i, j | 0 <= i < j < |f|
      ensures f[i].dateFrom <= f[j].dateFrom
    {
      assert Le(DateFromRank(f[i]), DateFromRank(f[j]));
    }
  }

  /** When a forecast of the aerodrome holds the flight, the chosen one does, and it starts first among those. */
  lemma ChosenWithin(data: seq<UpperwindInput>, code: string, dateTimeAt: int, x: UpperwindInput)
    requires x in data && x.aerodromeCode == code && x.flightWithinForecast
    ensures var f := ForecastsOf(data, code);
      f != [] && var c := Choose(f, dateTimeAt);
      c in data && c.aerodromeCode == code && c.flightWithinForecast && c.dateFrom <= x.dateFrom
  {
    var f := ForecastsOf(data, code);
    ForecastsMembers(data, code);
    ForecastsAscending(data, code);
    var n :| 0 <= n < |f| && f[n] == x;
    var k := FirstWithin(f, 0).value;
    assert k <= n;
  }

  /** When no forecast holds the flight and the flight comes before the first, the chosen one starts earliest. */
  lemma ChosenBefore(data: seq<UpperwindInput>, code: string, dateTimeAt: int)
    requires exists x :: x in data && x.aerodromeCode == code
    requires forall x :: x in data && x.aerodromeCode == code ==> !x.flightWithinForecast
    ensures var f := ForecastsOf(data, code);
      f != [] && (dateTimeAt < f[0].dateFrom ==>
        var c := Choose(f, dateTimeAt);
        c in data && c.aerodromeCode == code && forall x :: x in data && x.aerodromeCode == code ==> c.dateFrom <= x.dateFrom)
  {
    var f := ForecastsOf(data, code);
    ForecastsMembers(data, code);
    ForecastsAscending(data, code);
    var x0 :| x0 in data && x0.aerodromeCode == code;
    assert x0 in f;
    assert FirstWithin(f, 0).None?;
    forall x | x in data && x.aerodromeCode == code
      ensures f[0].dateFrom <= x.dateFrom
    {
      assert x in f;
    }
  }

  /** When no forecast holds the flight and the flight does not come before the first, the chosen one starts latest. */
  lemma ChosenAfter(data: seq<UpperwindInput>, code: string, dateTimeAt: int)
    requires exists x :: x in data && x.aerodromeCode == code
    requires forall x :: x in data && x.aerodromeCode == code ==> !x.flightWithinForecast
    ensures var f := ForecastsOf(data, code);
      f != [] && (f[0].dateFrom <= dateTimeAt ==>
        var c := Choose(f, dateTimeAt);
        c in data && c.aerodromeCode == code && forall x :: x in data && x.aerodromeCode == code ==> x.dateFrom <= c.dateFrom)
  {
    var f := ForecastsOf(data, code);
    ForecastsMembers(data, code);
    ForecastsAscending(data, code);
    var x0 :| x0 in data && x0.aerodromeCode == code;
    assert x0 in f;
    assert FirstWithin(f, 0).None?;
    forall x | x in data && x.aerodromeCode == code
      ensures x.dateFrom <= f[|f| - 1].dateFrom
    {
      assert x in f;
    }
  }
}
