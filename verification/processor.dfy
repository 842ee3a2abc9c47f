/**
 * The request preprocessors: the aerodrome codes a request names, each once
 * in first-seen order and joined by single spaces, and for a reports request
 * the report types to fetch. `Set` values are insertion-ordered sequences
 * (`OrderedSet`); each `forEach(... add ...)` is a loop.
 */
module Processor {
  import opened Common
  import opened Text
  import opened OrderedSet
  import opened Schemas

  /** `ReportTypeOptions`. */
  datatype ReportType = Taf | Metar | UpperWind

  /** `ReportsRequestType`: the codes to search and the report types to fetch. */
  datatype ReportsRequestType = ReportsRequestType(aerodromeCodes: string, reports: seq<ReportType>)

  // ---------------------------------------------------------------------
  // What a request names
  // ---------------------------------------------------------------------

  /** `items.map(code)`. */
  function MapCodes<T>(xs: seq<T>, code: T -> string): (r: seq<string>)
    ensures |r| == |xs| && forall k :: 0 <= k < |xs| ==> r[k] == code(xs[k])
  {
    seq(|xs|, k requires 0 <= k < |xs| => code(xs[k]))
  }

  function ItemCode(item: ReportItem): string {
    item.aerodromeCode
  }

  function AerodromeCode(a: BriefingAerodrome): string {
    a.code
  }

  /** The codes of one enroute leg: its METARs, then its upper winds. */
  function LegCodes(leg: EnrouteLeg): seq<string> {
    MapCodes(leg.metar, ItemCode) + MapCodes(leg.upperwind, ItemCode)
  }

  function LegsCodes(legs: seq<EnrouteLeg>): seq<string>
    decreases |legs|
  {
    if legs == [] then [] else LegsCodes(legs[..|legs| - 1]) + LegCodes(legs[|legs| - 1])
  }

  /** The codes of a takeoff or landing section: its TAFs, then its METARs. */
  function SectionCodes(a: Option<AerodromeSection>): seq<string> {
    if a.None? then [] else MapCodes(a.value.taf, ItemCode) + MapCodes(a.value.metar, ItemCode)
  }

  function EnrouteCodes(e: Option<seq<EnrouteLeg>>): seq<string> {
    if e.None? then [] else LegsCodes(e.value)
  }

  /** Every code of a reports request, in the order the preprocessor adds them: takeoff, enroute, landing. */
  function RequestCodes(r: ReportRequest): seq<string> {
    SectionCodes(r.takeoffWeather) + EnrouteCodes(r.enrouteWeather) + SectionCodes(r.landingWeather)
  }

  /** The types a takeoff or landing section adds: `TAF`, then `METAR`. */
  function SectionTypes(a: Option<AerodromeSection>): seq<ReportType> {
    if a.Some? then [Taf, Metar] else []
  }

  /** The types the enroute section adds: `TAF`, then `Upper Wind`. */
  function EnrouteTypes(e: Option<seq<EnrouteLeg>>): seq<ReportType> {
    if e.Some? then [Taf, UpperWind] else []
  }

  /** The report types, each once, in the order they are added. */
  function RequestedTypes(r: ReportRequest): seq<ReportType> {
    Distinct(SectionTypes(r.takeoffWeather) + EnrouteTypes(r.enrouteWeather) + SectionTypes(r.landingWeather))
  }

  /** What `preprocessReportsInput` returns. */
  function ReportsOf(r: ReportRequest): ReportsRequestType {
    ReportsRequestType(Join(Distinct(RequestCodes(r)), ' '), RequestedTypes(r))
  }

  function StopCodes(s: BriefingStop): seq<string> {
    MapCodes(s.aerodromes, AerodromeCode)
  }

  function StopsCodes(stops: seq<BriefingStop>): seq<string>
    decreases |stops|
  {
    if stops == [] then [] else StopsCodes(stops[..|stops| - 1]) + StopCodes(stops[|stops| - 1])
  }

  /** Every code of a briefing request, as added: departure, arrival, legs, diversion options. */
  function BriefingCodes(b: BriefingRequest): seq<string> {
    [b.departure.aerodrome, b.arrival.aerodrome] + StopsCodes(b.legs) + StopsCodes(b.diversionOptions)
  }

  /** What `preprocessBriefingInput` returns. */
  function BriefingCodesOf(b: BriefingRequest): string {
    Join(Distinct(BriefingCodes(b)), ' ')
  }

  // ---------------------------------------------------------------------
  // The loops
  // ---------------------------------------------------------------------

  /** `xs.forEach(x => aerodromesList.add(code(x)))`. */
  method AddCodes<T>(list: seq<string>, xs: seq<T>, code: T -> string) returns (r: seq<string>)
    ensures r == InsertAll(list, MapCodes(xs, code))
  {
    r := list;
    for k := 0 to |xs|
      invariant r == InsertAll(list, MapCodes(xs, code)[..k])
    {
      r := Insert(r, code(xs[k]));
      assert MapCodes(xs, code)[..k + 1][..k] == MapCodes(xs, code)[..k];
    }
    assert MapCodes(xs, code)[..|xs|] == MapCodes(xs, code);
  }

  /** `legs.forEach(leg => { leg.metar.forEach(add); leg.upperwind.forEach(add) })`. */
  method AddLegCodes(list: seq<string>, legs: seq<EnrouteLeg>) returns (r: seq<string>)
    ensures r == InsertAll(list, LegsCodes(legs))
  {
    r := list;
    for k := 0 to |legs|
      invariant r == InsertAll(list, LegsCodes(legs[..k]))
    {
      ghost var before := r;
      r := AddCodes(r, legs[k].metar, ItemCode);
      r := AddCodes(r, legs[k].upperwind, ItemCode);
      InsertAllAppend(before, MapCodes(legs[k].metar, ItemCode), MapCodes(legs[k].upperwind, ItemCode));
      InsertAllAppend(list, LegsCodes(legs[..k]), LegCodes(legs[k]));
      assert legs[..k + 1][..k] == legs[..k];
    }
    assert legs[..|legs|] == legs;
  }

  /** `stops.forEach(item => item.aerodromes.forEach(a => add(a.code)))`. */
  method AddStopCodes(list: seq<string>, stops: seq<BriefingStop>) returns (r: seq<string>)
    ensures r == InsertAll(list, StopsCodes(stops))
  {
    r := list;
    for k := 0 to |stops|
      invariant r == InsertAll(list, StopsCodes(stops[..k]))
    {
      r := AddCodes(r, stops[k].aerodromes, AerodromeCode);
      InsertAllAppend(list, StopsCodes(stops[..k]), StopCodes(stops[k]));
      assert stops[..k + 1][..k] == stops[..k];
    }
    assert stops[..|stops|] == stops;
  }

  /** The section of `preprocessReportsInput` for a takeoff or landing section. */
  method AddSection(list: seq<string>, reports: seq<ReportType>, a: AerodromeSection)
    returns (list': seq<string>, reports': seq<ReportType>)
    ensures list' == InsertAll(list, SectionCodes(Some(a)))
    ensures reports' == InsertAll(reports, [Taf, Metar])
  {
    reports' := Insert(reports, Taf);
    reports' := Insert(reports', Metar);
    list' := AddCodes(list, a.taf, ItemCode);
    list' := AddCodes(list', a.metar, ItemCode);
    InsertAllAppend(list, MapCodes(a.taf, ItemCode), MapCodes(a.metar, ItemCode));
    InsertAllPair(reports, Taf, Metar);
  }

  /** The section of `preprocessReportsInput` for the enroute legs. */
  method AddEnroute(list: seq<string>, reports: seq<ReportType>, legs: seq<EnrouteLeg>)
    returns (list': seq<string>, reports': seq<ReportType>)
    ensures list' == InsertAll(list, LegsCodes(legs))
    ensures reports' == InsertAll(reports, [Taf, UpperWind])
  {
    reports' := Insert(reports, Taf);
    reports' := Insert(reports', UpperWind);
    InsertAllPair(reports, Taf, UpperWind);
    list' := AddLegCodes(list, legs);
  }

  /** Adding the three sections' lists in turn adds the whole request's list. */
  lemma AddedInTurn<T>(a: seq<T>, b: seq<T>, c: seq<T>)
    ensures InsertAll(InsertAll(InsertAll([], a), b), c) == Distinct(a + b + c)
  {
    InsertAllAppend([], a, b);
    InsertAllAppend([], a + b, c);
  }

  /** `Processor.preprocessReportsInput`. */
  method PreprocessReportsInput(request: ReportRequest) returns (r: ReportsRequestType)
    ensures r == ReportsOf(request)
  {
    var aerodromesList: seq<string> := [];
    var reports: seq<ReportType> := [];
    if request.takeoffWeather.Some? {
      aerodromesList, reports := AddSection(aerodromesList, reports, request.takeoffWeather.value);
    }
    assert aerodromesList == InsertAll([], SectionCodes(request.takeoffWeather));
    assert reports == InsertAll([], SectionTypes(request.takeoffWeather));
    ghost var list1, reports1 := aerodromesList, reports;
    if request.enrouteWeather.Some? {
      aerodromesList, reports := AddEnroute(aerodromesList, reports, request.enrouteWeather.value);
    }
    assert aerodromesList == InsertAll(list1, EnrouteCodes(request.enrouteWeather));
    assert reports == InsertAll(reports1, EnrouteTypes(request.enrouteWeather));
    ghost var list2, reports2 := aerodromesList, reports;
    if request.landingWeather.Some? {
      aerodromesList, reports := AddSection(aerodromesList, reports, request.landingWeather.value);
    }
    assert aerodromesList == InsertAll(list2, SectionCodes(request.landingWeather));
    assert reports == InsertAll(reports2, SectionTypes(request.landingWeather));
    AddedInTurn(SectionCodes(request.takeoffWeather), EnrouteCodes(request.enrouteWeather), SectionCodes(request.landingWeather));
    AddedInTurn(SectionTypes(request.takeoffWeather), EnrouteTypes(request.enrouteWeather), SectionTypes(request.landingWeather));
    r := ReportsRequestType(Join(aerodromesList, ' '), reports);
  }

  /** `Processor.preprocessBriefingInput`. */
  method PreprocessBriefingInput(request: BriefingRequest) returns (r: string)
    ensures r == BriefingCodesOf(request)
  {
    var aerodromesList: seq<string> := [];
    aerodromesList := Insert(aerodromesList, request.departure.aerodrome);
    aerodromesList := Insert(aerodromesList, request.arrival.aerodrome);
    InsertAllPair([], request.departure.aerodrome, request.arrival.aerodrome);
    aerodromesList := AddStopCodes(aerodromesList, request.legs);
    aerodromesList := AddStopCodes(aerodromesList, request.diversionOptions);
    InsertAllAppend([], [request.departure.aerodrome, request.arrival.aerodrome], StopsCodes(request.legs));
    InsertAllAppend([], [request.departure.aerodrome, request.arrival.aerodrome] + StopsCodes(request.legs),
                    StopsCodes(request.diversionOptions));
    r := Join(aerodromesList, ' ');
  }

  // ---------------------------------------------------------------------
  // Properties
  // ---------------------------------------------------------------------

  /**
   * `TAF` is requested when any section is present, `METAR` exactly when a
   * takeoff or landing section is, `Upper Wind` exactly when the enroute
   * section is; each at most once.
   */
  lemma RequestedTypesByPresence(r: ReportRequest)
    ensures var t := RequestedTypes(r);
      NoDup(t)
      && (Taf in t <==> r.takeoffWeather.Some? || r.enrouteWeather.Some? || r.landingWeather.Some?)
      && (Metar in t <==> r.takeoffWeather.Some? || r.landingWeather.Some?)
      && (UpperWind in t <==> r.enrouteWeather.Some?)
  {
    DistinctMembers(SectionTypes(r.takeoffWeather) + EnrouteTypes(r.enrouteWeather) + SectionTypes(r.landingWeather));
  }

  /** A request without sections asks for nothing: no codes, no report types. */
  lemma EmptyReportsRequest(r: ReportRequest)
    requires r.takeoffWeather.None? && r.enrouteWeather.None? && r.landingWeather.None?
    ensures ReportsOf(r) == ReportsRequestType("", [])
  {
    assert RequestCodes(r) == [];
  }

  /** Every code of a valid request is a valid code. */
  lemma {:induction false} LegsCodesValid(legs: seq<EnrouteLeg>, isDateTime: string -> bool)
    requires forall k :: 0 <= k < |legs| ==> ValidLeg(legs[k], isDateTime)
    ensures forall c :: c in LegsCodes(legs) ==> ValidCode(c)
    decreases |legs|
  {
    if legs != [] {
      var leg := legs[|legs| - 1];
      LegsCodesValid(legs[..|legs| - 1], isDateTime);
      assert ValidLeg(leg, isDateTime);
      forall c | c in LegCodes(leg)
        ensures ValidCode(c)
      {
        if c in MapCodes(leg.metar, ItemCode) {
          var k :| 0 <= k < |leg.metar| && MapCodes(leg.metar, ItemCode)[k] == c;
          assert ValidReportItem(leg.metar[k]);
        } else {
          var k :| 0 <= k < |leg.upperwind| && MapCodes(leg.upperwind, ItemCode)[k] == c;
          assert ValidReportItem(leg.upperwind[k]);
        }
      }
    }
  }

  lemma SectionCodesValid(a: Option<AerodromeSection>, isDateTime: string -> bool)
    requires a.Some? ==> ValidAerodromeSection(a.value, isDateTime)
    ensures forall c :: c in SectionCodes(a) ==> ValidCode(c)
  {
    if a.Some? {
      forall c | c in SectionCodes(a)
        ensures ValidCode(c)
      {
        if c in MapCodes(a.value.taf, ItemCode) {
          var k :| 0 <= k < |a.value.taf| && MapCodes(a.value.taf, ItemCode)[k] == c;
          assert ValidReportItem(a.value.taf[k]);
        } else {
          var k :| 0 <= k < |a.value.metar| && MapCodes(a.value.metar, ItemCode)[k] == c;
          assert ValidReportItem(a.value.metar[k]);
        }
      }
    }
  }

  /**
   * The code string of a valid reports request splits back, at its spaces,
   * into the request's codes, each once, in first-seen order.
   */
  lemma ReportCodesRoundTrip(r: ReportRequest, isDateTime: string -> bool)
    requires ValidReportRequest(r, isDateTime) && RequestCodes(r) != []
    ensures var d := Distinct(RequestCodes(r));
      Split(ReportsOf(r).aerodromeCodes, ' ') == d
      && NoDup(d) && (forall c :: c in d <==> c in RequestCodes(r))
      && forall i, j :: 0 <= i < j < |d| ==> FirstIndex(RequestCodes(r), d[i]) < FirstIndex(RequestCodes(r), d[j])
  {
    var codes := RequestCodes(r);
    var d := Distinct(codes);
    SectionCodesValid(r.takeoffWeather, isDateTime);
    SectionCodesValid(r.landingWeather, isDateTime);
    if r.enrouteWeather.Some? {
      LegsCodesValid(r.enrouteWeather.value, isDateTime);
    }
    DistinctMembers(codes);
    DistinctFirstSeenOrder(codes);
    assert codes[0] in d;
    forall k | 0 <= k < |d|
      ensures ' ' !in d[k]
    {
      assert d[k] in codes;
      ValidCodeIsWord(d[k]);
    }
    SplitJoin(d, ' ');
  }

  /** The briefing codes start with the departure, then the arrival unless it is the departure. */
  lemma BriefingHead(b: BriefingRequest)
    ensures var d := Distinct(BriefingCodes(b));
      |d| >= 1 && d[0] == b.departure.aerodrome
      && (b.arrival.aerodrome != b.departure.aerodrome ==> |d| >= 2 && d[1] == b.arrival.aerodrome)
  {
    var rest := StopsCodes(b.legs) + StopsCodes(b.diversionOptions);
    assert BriefingCodes(b) == [b.departure.aerodrome, b.arrival.aerodrome] + rest;
    DistinctHead(b.departure.aerodrome, b.arrival.aerodrome, rest);
  }

  /** Every code of a briefing request appears exactly once, in first-seen order. */
  lemma BriefingCodesOnce(b: BriefingRequest)
    ensures var d := Distinct(BriefingCodes(b));
      NoDup(d) && (forall c :: c in d <==> c in BriefingCodes(b))
      && forall i, j :: 0 <= i < j < |d| ==> FirstIndex(BriefingCodes(b), d[i]) < FirstIndex(BriefingCodes(b), d[j])
  {
    DistinctMembers(BriefingCodes(b));
    DistinctFirstSeenOrder(BriefingCodes(b));
  }

  /** The briefing string starts with the departure code, followed by a space or nothing. */
  lemma BriefingStartsWithDeparture(b: BriefingRequest)
    ensures var s := BriefingCodesOf(b);
      var dep := b.departure.aerodrome;
      |dep| <= |s| && s[..|dep|] == dep && (|s| == |dep| || s[|dep|] == ' ')
  {
    BriefingHead(b);
    JoinStartsWith(Distinct(BriefingCodes(b)), ' ');
  }
}

/**
 * The free-function copies of the preprocessors in `src/utils`: the same
 * loops over the same sets, so the same results as the `Processor` methods.
 */
module PreprocessUtils {
  import opened Common
  import opened Text
  import opened OrderedSet
  import opened Schemas
  import opened Processor

  /** `preprocessReportsInput`: the same report types and code string as `Processor.preprocessReportsInput`. */
  method PreprocessReportsInput(request: ReportRequest) returns (r: ReportsRequestType)
    ensures r == ReportsOf(request)
  {
    var aerodromesList: seq<string> := [];
    var reports: seq<ReportType> := [];
    if request.takeoffWeather.Some? {
      aerodromesList, reports := AddSection(aerodromesList, reports, request.takeoffWeather.value);
    }
    assert aerodromesList == InsertAll([], SectionCodes(request.takeoffWeather));
    assert reports == InsertAll([], SectionTypes(request.takeoffWeather));
    ghost var list1, reports1 := aerodromesList, reports;
    if request.enrouteWeather.Some? {
      aerodromesList, reports := AddEnroute(aerodromesList, reports, request.enrouteWeather.value);
    }
    assert aerodromesList == InsertAll(list1, EnrouteCodes(request.enrouteWeather));
    assert reports == InsertAll(reports1, EnrouteTypes(request.enrouteWeather));
    ghost var list2, reports2 := aerodromesList, reports;
    if request.landingWeather.Some? {
      aerodromesList, reports := AddSection(aerodromesList, reports, request.landingWeather.value);
    }
    assert aerodromesList == InsertAll(list2, SectionCodes(request.landingWeather));
    assert reports == InsertAll(reports2, SectionTypes(request.landingWeather));
    AddedInTurn(SectionCodes(request.takeoffWeather), EnrouteCodes(request.enrouteWeather), SectionCodes(request.landingWeather));
    AddedInTurn(SectionTypes(request.takeoffWeather), EnrouteTypes(request.enrouteWeather), SectionTypes(request.landingWeather));
    r := ReportsRequestType(Join(aerodromesList, ' '), reports);
  }

  /** `preprocessBriefingInput`: the same code string as `Processor.preprocessBriefingInput`. */
  method PreprocessBriefingInput(request: BriefingRequest) returns (r: string)
    ensures r == BriefingCodesOf(request)
  {
    var aerodromesList: seq<string> := [];
    aerodromesList := Insert(aerodromesList, request.departure.aerodrome);
    aerodromesList := Insert(aerodromesList, request.arrival.aerodrome);
    InsertAllPair([], request.departure.aerodrome, request.arrival.aerodrome);
    aerodromesList := AddStopCodes(aerodromesList, request.legs);
    aerodromesList := AddStopCodes(aerodromesList, request.diversionOptions);
    InsertAllAppend([], [request.departure.aerodrome, request.arrival.aerodrome], StopsCodes(request.legs));
    InsertAllAppend([], [request.departure.aerodrome, request.arrival.aerodrome] + StopsCodes(request.legs),
                    StopsCodes(request.diversionOptions));
    r := Join(aerodromesList, ' ');
  }
}
