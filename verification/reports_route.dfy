/**
 * The pure parts of the reports endpoint: the set of aerodrome codes it
 * checks against the database, and the response fields of a takeoff or
 * landing phase, read from the top-ranked TAF wind and METAR.
 */
module ReportsRoute {
  import opened Common
  import opened OrderedSet
  import opened Schemas
  import opened Processor
  import opened TafWind
  import opened TafSelect
  import opened Cleaner

  // ---------------------------------------------------------------------
  // The codes checked against the database
  // ---------------------------------------------------------------------

  /** The codes in the order the route adds them: takeoff, landing, then the enroute legs. */
  function CheckedCodes(r: ReportRequest): seq<string> {
    SectionCodes(r.takeoffWeather) + SectionCodes(r.landingWeather) + EnrouteCodes(r.enrouteWeather)
  }

  /** The codes of a takeoff or landing section added to the set. */
  method AddSectionCodes(list: seq<string>, a: AerodromeSection) returns (list': seq<string>)
    ensures list' == InsertAll(list, SectionCodes(Some(a)))
  {
    list' := AddCodes(list, a.taf, ItemCode);
    list' := AddCodes(list', a.metar, ItemCode);
    InsertAllAppend(list, MapCodes(a.taf, ItemCode), MapCodes(a.metar, ItemCode));
  }

  /** `aerodromesSet`, read back in insertion order. */
  method CollectAerodromes(request: ReportRequest) returns (aerodromesSet: seq<string>)
    ensures aerodromesSet == Distinct(CheckedCodes(request))
  {
    aerodromesSet := [];
    if request.takeoffWeather.Some? {
      aerodromesSet := AddSectionCodes(aerodromesSet, request.takeoffWeather.value);
    }
    assert aerodromesSet == InsertAll([], SectionCodes(request.takeoffWeather));
    ghost var list1 := aerodromesSet;
    if request.landingWeather.Some? {
      aerodromesSet := AddSectionCodes(aerodromesSet, request.landingWeather.value);
    }
    assert aerodromesSet == InsertAll(list1, SectionCodes(request.landingWeather));
    ghost var list2 := aerodromesSet;
    if request.enrouteWeather.Some? {
      aerodromesSet := AddLegCodes(aerodromesSet, request.enrouteWeather.value);
    }
    assert aerodromesSet == InsertAll(list2, EnrouteCodes(request.enrouteWeather));
    AddedInTurn(SectionCodes(request.takeoffWeather), SectionCodes(request.landingWeather), EnrouteCodes(request.enrouteWeather));
  }

  /**
   * The route checks the same codes the preprocessor sends to the scraper:
   * the same values, each once, so as many of them, in another order.
   */
  lemma CheckedCodesAreRequested(r: ReportRequest)
    ensures var checked, sent := Distinct(CheckedCodes(r)), Distinct(RequestCodes(r));
      NoDup(checked) && (forall c :: c in checked <==> c in sent) && |checked| == |sent|
  {
    var checked, sent := Distinct(CheckedCodes(r)), Distinct(RequestCodes(r));
    DistinctMembers(CheckedCodes(r));
    DistinctMembers(RequestCodes(r));
    NoDupSize(checked);
    NoDupSize(sent);
    assert (set x | x in checked) == (set x | x in sent);
  }

  // ---------------------------------------------------------------------
  // The response fields of a phase
  // ---------------------------------------------------------------------

  /** `wind[0].knots + wind[0].gustFactorKnots`. */
  function WindMagnitude(w: AerodromeWind): int {
    w.knots + w.gustFactorKnots
  }

  /** `wind_direction`: none for a calm, 0 for a variable wind, 360 for a bearing of 000, else the bearing. */
  function WindDirection(w: AerodromeWind): Option<int> {
    if w.knots == 0 && w.gustFactorKnots == 0 then None
    else if w.degreesRange != 0 then Some(0)
    else if w.degreesTrue == 0 then Some(360)
    else Some(w.degreesTrue)
  }

  function AsReal(d: Option<int>): Option<real> {
    if d.None? then None else Some(d.value as real)
  }

  /**
   * `weatherData.takeoffWeather` (and `landingWeather`): the wind of the
   * top-ranked aerodrome and the temperature and altimeter of the
   * top-ranked METAR; reading the first entry of an empty list throws.
   */
  function PhaseWeather(winds: seq<AerodromeWind>, metars: seq<RankedMetar>): Outcome<WeatherResponse> {
    if winds == [] || metars == [] then Throws
    else Returns(WeatherResponse(WindMagnitude(winds[0]) as real, AsReal(WindDirection(winds[0])),
                                 metars[0].metar.temperature, metars[0].metar.altimeter))
  }

  /** The winds the route reads: non-negative speed and magnitude, a bearing within 0..360. */
  predicate Reportable(w: AerodromeWind) {
    w.knots >= 0 && WindMagnitude(w) >= 0 && 0 <= w.degreesTrue <= 360
  }

  /**
   * The magnitude is the gust when the selected wind has one and the speed
   * otherwise, and the direction fields are the selected wind's.
   */
  lemma MagnitudeIsGustOrSpeed(item: AerodromeWindInput, order: nat)
    requires Summarise(item, order).Returns?
    ensures var g := SelectTafGroup(item.winds.groups, item.dateTimeAt, item.flightWithinForecast);
      var w := Summarise(item, order).value;
      g.Returns?
      && WindMagnitude(w) == (if g.value.gustKnots.Some? && g.value.gustKnots.value != 0 then g.value.gustKnots.value else g.value.knots)
      && w.degreesTrue == g.value.degreesTrue && w.degreesRange == g.value.degreesRange
  {
  }

  /**
   * The direction in each case: absent exactly for a calm, 0 exactly for a
   * variable wind that blows, 360 exactly for a steady bearing of 000 or 360.
   */
  lemma DirectionCases(w: AerodromeWind)
    ensures WindDirection(w).None? <==> w.knots == 0 && w.gustFactorKnots == 0
    ensures WindDirection(w) == Some(0) <==> !(w.knots == 0 && w.gustFactorKnots == 0) && w.degreesRange != 0
    ensures WindDirection(w) == Some(360) <==>
              !(w.knots == 0 && w.gustFactorKnots == 0) && w.degreesRange == 0 && (w.degreesTrue == 0 || w.degreesTrue == 360)
  {
  }

  /** A reportable wind always passes the wind fields of the response once 0 marks a variable wind. */
  lemma DerivedWindValid(w: AerodromeWind)
    requires Reportable(w)
    ensures ValidWind(WindMagnitude(w) as real, AsReal(WindDirection(w)))
  {
    var d := WindDirection(w);
    if d.Some? {
      assert IsInteger(d.value as real) by {
        assert (d.value as real).Floor == d.value;
      }
    }
    assert IsInteger(WindMagnitude(w) as real) by {
      assert (WindMagnitude(w) as real).Floor == WindMagnitude(w);
    }
  }

  /** Against the direction bound as written, a reportable wind fails exactly when it is variable and not calm. */
  lemma AsWrittenRejectsVariableWind(w: AerodromeWind)
    requires Reportable(w)
    ensures ValidDirectionAsWritten(AsReal(WindDirection(w))) <==> (w.knots == 0 && w.gustFactorKnots == 0) || w.degreesRange == 0
  {
    DerivedWindValid(w);
  }

  /**
   * A variable wind of 5 knots, as `VRB05KT` decodes, is reported with
   * direction 0, which the response schema as written rejects.
   */
  lemma VariableWindResponseRejected(aerodrome: string, date: int, dateFrom: int, dateTo: int)
    ensures var t := ExtractWind("VRB05KT").value;
      var w := AerodromeWind(aerodrome, 1, date, dateFrom, dateTo, GustFactor(t.gustKnots, t.knots),
                             t.knots, t.degreesTrue, t.degreesRange);
      Reportable(w) && WindDirection(w) == Some(0) && !ValidDirectionAsWritten(AsReal(WindDirection(w)))
  {
    VariableWind();
  }

  /**
   * With a reportable top wind and a top METAR whose temperature is a whole
   * number and whose altimeter is within range, the phase's response is
   * valid; with either list empty, building it throws.
   */
  lemma PhaseWeatherValid(winds: seq<AerodromeWind>, metars: seq<RankedMetar>)
    requires winds != [] ==> Reportable(winds[0])
    requires metars != [] ==> var m := metars[0].metar;
      m.temperature.Some? && IsInteger(m.temperature.value)
      && m.altimeter.Some? && -99.94 <= m.altimeter.value <= 99.94
    ensures PhaseWeather(winds, metars).Throws? <==> winds == [] || metars == []
    ensures PhaseWeather(winds, metars).Returns? ==> ValidResponse(PhaseWeather(winds, metars).value)
  {
    if winds != [] && metars != [] {
      DerivedWindValid(winds[0]);
    }
  }

  /** The top METAR the response reads comes from `aerodromeMETAR`, so both its readings are present and non-zero. */
  lemma TopMetarHasReadings(data: seq<MetarInput>)
    requires AerodromeMetar(data) != []
    ensures var m := AerodromeMetar(data)[0].metar;
      m in data && Truthy(m.temperature) && Truthy(m.altimeter)
  {
    AerodromeMetarKeeps(data);
    var r := AerodromeMetar(data);
    assert r[0].metar == Metars(r)[0];
  }

  /**
   * The METAR readers of the interpreter return nothing yet: with no
   * temperature read, `aerodromeMETAR` keeps no record, so building the
   * phase's response throws whatever the winds.
   */
  lemma UnreadMetarsThrow(winds: seq<AerodromeWind>, data: seq<MetarInput>)
    requires forall k :: 0 <= k < |data| ==> data[k].temperature.None?
    ensures AerodromeMetar(data) == [] && PhaseWeather(winds, AerodromeMetar(data)).Throws?
  {
    AerodromeMetarKeeps(data);
    var r := AerodromeMetar(data);
    forall m | m in data
      ensures !HasTemperatureAndAltimeter(m)
    {
      var k :| 0 <= k < |data| && data[k] == m;
    }
    forall m ensures multiset(Metars(r))[m] == 0 {
      assert m !in Metars(r);
    }
    assert multiset(Metars(r)) == multiset{};
    assert |r| == |multiset(Metars(r))| == 0;
  }
}
