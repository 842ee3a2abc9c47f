/**
 * `Cleaner._selectTafGroup`: the wind a decoded TAF forecasts at an instant.
 * Within the forecast, the first change group whose period holds the
 * instant is chosen, and in it the first `TEMPO`/`PROB` sub-group holding
 * the instant, else its `MAIN` sub-group; a `BECMG` group still in
 * transition yields to the group before it when that one's wind is
 * stronger. Otherwise the boundary sub-group nearest the instant is taken.
 * Instants are integers (milliseconds).
 */
module TafSelect {
  import opened Common
  import opened TafWind
  import opened TafSummary

  /** `TAFGroupWindData`: a sub-group's period and wind. */
  datatype GroupWind = GroupWind(dateFrom: int, dateTo: int, gustKnots: Option<int>, knots: int,
                                 degreesTrue: int, degreesRange: int)

  function WindData(dateFrom: int, dateTo: int, w: Wind): GroupWind {
    GroupWind(dateFrom, dateTo, w.gustKnots, w.knots, w.degreesTrue, w.degreesRange)
  }

  /** The fields of a sub-group as `TAFGroupWindData`. */
  function SubGroupWind(g: SubGroup<int>): GroupWind {
    WindData(g.dateFrom, g.dateTo, g.wind)
  }

  /** `gustKnots ? gustKnots : knots`: the gust when it is truthy (present and not 0), else the speed. */
  function Magnitude(w: Wind): int {
    if w.gustKnots.Some? && w.gustKnots.value != 0 then w.gustKnots.value else w.knots
  }

  /** A `BECMG` group at an instant of its transition `[dateFrom, transitionDate)`. */
  predicate InTransition(g: ChangeGroup<int>, t: int) {
    g.kind.BecmgGroup? && g.dateFrom <= t < g.kind.transitionDate
  }

  /**
   * The period test of the group search: `[dateFrom, dateTo)`, and for a
   * `BECMG` group its transition or `[transitionDate, dateTo)`.
   */
  predicate Holds(g: ChangeGroup<int>, t: int) {
    if g.kind.BecmgGroup? then InTransition(g, t) || (g.kind.transitionDate <= t < g.dateTo)
    else g.dateFrom <= t < g.dateTo
  }

  /** The first group from `from` on whose period holds the instant. */
  function FirstHolding(data: seq<ChangeGroup<int>>, t: int, from: nat): (r: Option<nat>)
    decreases |data| - from
    ensures r.Some? ==> from <= r.value < |data| && Holds(data[r.value], t)
                        && forall k :: from <= k < r.value ==> !Holds(data[k], t)
    ensures r.None? ==> forall k :: from <= k < |data| ==> !Holds(data[k], t)
  {
    if from >= |data| then None
    else if Holds(data[from], t) then Some(from)
    else FirstHolding(data, t, from + 1)
  }

  /**
   * `isPrevious` as the search's callback leaves it for the group found at
   * `k`: for a group in transition it compares the wind of the first
   * sub-group of the group before with its own, which throws when either is
   * missing. (The callback reads nothing for the groups it passes over, so
   * only the group found can throw.)
   */
  function PreviousIsStronger(data: seq<ChangeGroup<int>>, k: nat, t: int): Outcome<bool>
    requires k < |data|
  {
    if !InTransition(data[k], t) then Returns(false)
    else if k == 0 || data[k - 1].groups == [] || data[k].groups == [] then Throws
    else Returns(Magnitude(data[k - 1].groups[0].wind) > Magnitude(data[k].groups[0].wind))
  }

  /** The first sub-group other than `MAIN` whose closed period `[dateFrom, dateTo]` holds the instant. */
  function FirstCovering(groups: seq<SubGroup<int>>, t: int, from: nat): (r: Option<nat>)
    decreases |groups| - from
    ensures r.Some? ==> from <= r.value < |groups| && groups[r.value].kind != Main
                        && groups[r.value].dateFrom <= t <= groups[r.value].dateTo
    ensures r.Some? ==> forall m :: from <= m < r.value ==>
                          !(groups[m].kind != Main && groups[m].dateFrom <= t <= groups[m].dateTo)
    ensures r.None? ==> forall m :: from <= m < |groups| ==>
                          !(groups[m].kind != Main && groups[m].dateFrom <= t <= groups[m].dateTo)
  {
    if from >= |groups| then None
    else if groups[from].kind != Main && groups[from].dateFrom <= t <= groups[from].dateTo then Some(from)
    else FirstCovering(groups, t, from + 1)
  }

  /**
   * Outside the forecast, or when no group holds the instant: the first
   * sub-group of the first group before the forecast starts, else the last
   * sub-group of the last group; reading a missing one throws.
   */
  function Boundary(data: seq<ChangeGroup<int>>, t: int): Outcome<GroupWind> {
    if data == [] then Throws
    else if t < data[0].dateFrom then
      if data[0].groups == [] then Throws else Returns(SubGroupWind(data[0].groups[0]))
    else
      var last := data[|data| - 1];
      if last.groups == [] then Throws else Returns(SubGroupWind(last.groups[|last.groups| - 1]))
  }

  function SelectTafGroup(data: seq<ChangeGroup<int>>, t: int, withinForecast: bool): Outcome<GroupWind> {
    var found := if withinForecast then FirstHolding(data, t, 0) else None;
    if found.None? then Boundary(data, t)
    else
      var k := found.value;
      match PreviousIsStronger(data, k, t)
      case Throws => Throws
      case Returns(isPrevious) =>
        if isPrevious then
          var tempGroup := data[k - 1].groups[0];
          Returns(WindData(tempGroup.dateFrom, data[k].kind.transitionDate, tempGroup.wind))
        else
          var sub := FirstCovering(data[k].groups, t, 0);
          if sub.Some? then Returns(SubGroupWind(data[k].groups[sub.value]))
          else if data[k].groups == [] then Throws
          else Returns(SubGroupWind(data[k].groups[0]))
  }

  /** Within the forecast, the first group holding the instant, and in it the first `TEMPO`/`PROB` sub-group holding it, give the wind. */
  lemma SelectsFirstCovering(data: seq<ChangeGroup<int>>, t: int, k: nat, m: nat)
    requires k < |data| && Holds(data[k], t) && forall j :: 0 <= j < k ==> !Holds(data[j], t)
    requires !InTransition(data[k], t)
    requires var gs := data[k].groups;
      m < |gs| && gs[m].kind != Main && gs[m].dateFrom <= t <= gs[m].dateTo
      && forall j :: 0 <= j < m ==> !(gs[j].kind != Main && gs[j].dateFrom <= t <= gs[j].dateTo)
    ensures SelectTafGroup(data, t, true) == Returns(SubGroupWind(data[k].groups[m]))
  {
    var found := FirstHolding(data, t, 0);
    assert found == Some(k);
    var sub := FirstCovering(data[k].groups, t, 0);
    assert sub == Some(m);
  }

  /** Within the forecast, when no `TEMPO`/`PROB` sub-group of the group found holds the instant, its first sub-group gives the wind. */
  lemma SelectsFirstSubgroup(data: seq<ChangeGroup<int>>, t: int, k: nat)
    requires k < |data| && Holds(data[k], t) && forall j :: 0 <= j < k ==> !Holds(data[j], t)
    requires !InTransition(data[k], t)
    requires var gs := data[k].groups;
      gs != [] && forall j :: 0 <= j < |gs| ==> !(gs[j].kind != Main && gs[j].dateFrom <= t <= gs[j].dateTo)
    ensures SelectTafGroup(data, t, true) == Returns(SubGroupWind(data[k].groups[0]))
  {
    assert FirstHolding(data, t, 0) == Some(k);
  }

  /**
   * The tie-break: a `BECMG` group in transition whose predecessor's first
   * sub-group blows stronger (gust if set, else speed) gives that
   * sub-group's wind, from its start to the transition date.
   */
  lemma BecmgYieldsToStrongerPrevious(data: seq<ChangeGroup<int>>, t: int, k: nat)
    requires 0 < k < |data| && InTransition(data[k], t) && forall j :: 0 <= j < k ==> !Holds(data[j], t)
    requires data[k - 1].groups != [] && data[k].groups != []
    requires Magnitude(data[k - 1].groups[0].wind) > Magnitude(data[k].groups[0].wind)
    ensures var prev := data[k - 1].groups[0];
      SelectTafGroup(data, t, true) == Returns(WindData(prev.dateFrom, data[k].kind.transitionDate, prev.wind))
  {
    assert FirstHolding(data, t, 0) == Some(k);
  }

  /** A `BECMG` group in transition whose predecessor is not stronger keeps its own sub-groups. */
  lemma BecmgKeepsOwnWind(data: seq<ChangeGroup<int>>, t: int, k: nat)
    requires 0 < k < |data| && InTransition(data[k], t) && forall j :: 0 <= j < k ==> !Holds(data[j], t)
    requires data[k - 1].groups != [] && data[k].groups != []
    requires Magnitude(data[k - 1].groups[0].wind) <= Magnitude(data[k].groups[0].wind)
    ensures var gs := data[k].groups;
      var sub := FirstCovering(gs, t, 0);
      SelectTafGroup(data, t, true) == Returns(SubGroupWind(gs[if sub.Some? then sub.value else 0]))
  {
    assert FirstHolding(data, t, 0) == Some(k);
  }

  /**
   * Outside the forecast, or when no group holds the instant, the first
   * sub-group of the first group is taken before the forecast starts, and
   * the last sub-group of the last group otherwise.
   */
  lemma FallsBackToBoundary(data: seq<ChangeGroup<int>>, t: int, withinForecast: bool)
    requires !withinForecast || forall j :: 0 <= j < |data| ==> !Holds(data[j], t)
    requires data != [] && data[0].groups != [] && data[|data| - 1].groups != []
    ensures var last := data[|data| - 1].groups;
      SelectTafGroup(data, t, withinForecast)
      == Returns(SubGroupWind(if t < data[0].dateFrom then data[0].groups[0] else last[|last| - 1]))
  {
    if withinForecast {
      assert FirstHolding(data, t, 0).None?;
    }
  }

  /** Every group has sub-groups and the first is no `BECMG` group in transition: the selection does not throw. */
  lemma SelectionReturns(data: seq<ChangeGroup<int>>, t: int, withinForecast: bool)
    requires data != [] && forall j :: 0 <= j < |data| ==> data[j].groups != []
    requires !InTransition(data[0], t)
    ensures SelectTafGroup(data, t, withinForecast).Returns?
  {
  }

  /** The selected wind is the wind of a sub-group of the forecast (or, after the tie-break, of the group before). */
  lemma SelectedWindIsForecast(data: seq<ChangeGroup<int>>, t: int, withinForecast: bool)
    requires SelectTafGroup(data, t, withinForecast).Returns?
    ensures var r := SelectTafGroup(data, t, withinForecast).value;
      exists k, m :: 0 <= k < |data| && 0 <= m < |data[k].groups|
                     && WindData(r.dateFrom, r.dateTo, data[k].groups[m].wind) == r
  {
    var r := SelectTafGroup(data, t, withinForecast).value;
    var found := if withinForecast then FirstHolding(data, t, 0) else None;
    if found.None? {
      if t < data[0].dateFrom {
        assert WindData(r.dateFrom, r.dateTo, data[0].groups[0].wind) == r;
      } else {
        var n := |data| - 1;
        assert WindData(r.dateFrom, r.dateTo, data[n].groups[|data[n].groups| - 1].wind) == r;
      }
    } else {
      var k := found.value;
      var isPrevious := PreviousIsStronger(data, k, t).value;
      if isPrevious {
        assert WindData(r.dateFrom, r.dateTo, data[k - 1].groups[0].wind) == r;
      } else {
        var sub := FirstCovering(data[k].groups, t, 0);
        var m := if sub.Some? then sub.value else 0;
        assert WindData(r.dateFrom, r.dateTo, data[k].groups[m].wind) == r;
      }
    }
  }
}
