/**
 * The request and response shapes of the reports and briefing endpoints and
 * the constraints their schemas put on each field, as predicates. A field a
 * schema requires is a field of the datatype; an optional one is an
 * `Option`. The date-time format check belongs to the validation library and
 * is passed in as `isDateTime`.
 */
module Schemas {
  import opened Common

  // ---------------------------------------------------------------------
  // Shared field rules
  // ---------------------------------------------------------------------

  /** A character of `^[-A-Za-z0-9']+$`. */
  predicate CodeChar(c: char) {
    'A' <= c <= 'Z' || 'a' <= c <= 'z' || '0' <= c <= '9' || c == '-' || c == '\''
  }

  /** An aerodrome code: 2 to 12 characters, letters, digits, `-` and `'` only. */
  predicate ValidCode(s: string) {
    2 <= |s| <= 12 && forall k :: 0 <= k < |s| ==> CodeChar(s[k])
  }

  /** `.int()` on a number. */
  predicate IsInteger(x: real) {
    x.Floor as real == x
  }

  // ---------------------------------------------------------------------
  // Reports request
  // ---------------------------------------------------------------------

  /** One requested report: an aerodrome and its distance from the target. */
  datatype ReportItem = ReportItem(aerodromeCode: string, nauticalMilesFromTarget: real)

  /** A takeoff or landing section. */
  datatype AerodromeSection = AerodromeSection(dateTime: string, taf: seq<ReportItem>, metar: seq<ReportItem>)

  /** One enroute leg. */
  datatype EnrouteLeg = EnrouteLeg(dateTime: string, upperwind: seq<ReportItem>, metar: seq<ReportItem>)

  /** The reports request body: every section is optional. */
  datatype ReportRequest = ReportRequest(takeoffWeather: Option<AerodromeSection>,
                                         enrouteWeather: Option<seq<EnrouteLeg>>,
                                         landingWeather: Option<AerodromeSection>)

  predicate ValidReportItem(item: ReportItem) {
    ValidCode(item.aerodromeCode) && item.nauticalMilesFromTarget >= 0.0
  }

  predicate ValidItems(items: seq<ReportItem>) {
    forall k :: 0 <= k < |items| ==> ValidReportItem(items[k])
  }

  predicate ValidAerodromeSection(a: AerodromeSection, isDateTime: string -> bool) {
    isDateTime(a.dateTime) && ValidItems(a.taf) && ValidItems(a.metar)
  }

  predicate ValidLeg(leg: EnrouteLeg, isDateTime: string -> bool) {
    isDateTime(leg.dateTime) && ValidItems(leg.upperwind) && ValidItems(leg.metar)
  }

  predicate ValidReportRequest(r: ReportRequest, isDateTime: string -> bool) {
    (r.takeoffWeather.Some? ==> ValidAerodromeSection(r.takeoffWeather.value, isDateTime))
    && (r.enrouteWeather.Some? ==> forall k :: 0 <= k < |r.enrouteWeather.value| ==> ValidLeg(r.enrouteWeather.value[k], isDateTime))
    && (r.landingWeather.Some? ==> ValidAerodromeSection(r.landingWeather.value, isDateTime))
  }

  // ---------------------------------------------------------------------
  // Reports response
  // ---------------------------------------------------------------------

  /** The weather of one phase of the flight as the response reports it; an `undefined` field is `None`. */
  datatype WeatherResponse = WeatherResponse(windMagnitudeKnot: real, windDirection: Option<real>,
                                             temperatureC: Option<real>, altimeterInHg: Option<real>)

  /** A wind direction the response accepts, as the schema is written: absent, or an integer in 1..360. */
  predicate ValidDirectionAsWritten(d: Option<real>) {
    d.Some? ==> IsInteger(d.value) && 1.0 <= d.value <= 360.0
  }

  /** A wind direction the response accepts once 0 stands for a variable wind: absent, or an integer in 0..360. */
  predicate ValidDirection(d: Option<real>) {
    d.Some? ==> IsInteger(d.value) && 0.0 <= d.value <= 360.0
  }

  /** The wind fields: a whole, non-negative magnitude and a direction in range. */
  predicate ValidWind(magnitude: real, direction: Option<real>) {
    IsInteger(magnitude) && magnitude >= 0.0 && ValidDirection(direction)
  }

  /** Every field of a phase's response: temperature and altimeter are required, the direction is not. */
  predicate ValidResponse(r: WeatherResponse) {
    ValidWind(r.windMagnitudeKnot, r.windDirection)
    && r.temperatureC.Some? && IsInteger(r.temperatureC.value)
    && r.altimeterInHg.Some? && -99.94 <= r.altimeterInHg.value <= 99.94
  }

  /** Every field, with the direction bound as the schema is written. */
  predicate ValidResponseAsWritten(r: WeatherResponse) {
    ValidResponse(r) && ValidDirectionAsWritten(r.windDirection)
  }

  // ---------------------------------------------------------------------
  // Briefing request
  // ---------------------------------------------------------------------

  datatype BriefingAerodrome = BriefingAerodrome(code: string, nauticalMilesFromPath: real)

  /** A leg or a diversion option: a time and the aerodromes near it. */
  datatype BriefingStop = BriefingStop(dateTime: string, aerodromes: seq<BriefingAerodrome>)

  /** The departure or the arrival. */
  datatype Endpoint = Endpoint(dateTime: string, aerodrome: string)

  /** The briefing request body: all four fields are required. */
  datatype BriefingRequest = BriefingRequest(departure: Endpoint, legs: seq<BriefingStop>,
                                             arrival: Endpoint, diversionOptions: seq<BriefingStop>)

  predicate ValidBriefingAerodrome(a: BriefingAerodrome) {
    ValidCode(a.code) && a.nauticalMilesFromPath >= 0.0
  }

  predicate ValidStop(s: BriefingStop, isDateTime: string -> bool) {
    isDateTime(s.dateTime) && forall k :: 0 <= k < |s.aerodromes| ==> ValidBriefingAerodrome(s.aerodromes[k])
  }

  predicate ValidEndpoint(e: Endpoint, isDateTime: string -> bool) {
    isDateTime(e.dateTime) && ValidCode(e.aerodrome)
  }

  predicate ValidBriefingRequest(b: BriefingRequest, isDateTime: string -> bool) {
    ValidEndpoint(b.departure, isDateTime) && ValidEndpoint(b.arrival, isDateTime)
    && (forall k :: 0 <= k < |b.legs| ==> ValidStop(b.legs[k], isDateTime))
    && (forall k :: 0 <= k < |b.diversionOptions| ==> ValidStop(b.diversionOptions[k], isDateTime))
  }

  // ---------------------------------------------------------------------
  // Properties
  // ---------------------------------------------------------------------

  /** A valid code is a non-empty word: it holds no space, so codes joined by spaces split back apart. */
  lemma ValidCodeIsWord(s: string)
    requires ValidCode(s)
    ensures s != [] && ' ' !in s
  {
  }

  /** The schema's bounds on codes, shown on samples: length 2 and 12 pass, 1 and 13 fail, as do a space and a dot. */
  lemma CodeSamples()
    ensures ValidCode("CY") && ValidCode("CYVR-O'HARE1") && ValidCode("k-o'1")
    ensures !ValidCode("C") && !ValidCode("CYVR-O'HARE12") && !ValidCode("CY VR") && !ValidCode("CY.R")
  {
    assert !CodeChar("CY VR"[2]);
    assert !CodeChar("CY.R"[2]);
  }

  /** The written direction bound is the corrected one without 0. */
  lemma DirectionBounds(d: Option<real>)
    ensures ValidDirectionAsWritten(d) <==> ValidDirection(d) && d != Some(0.0)
  {
  }
}
