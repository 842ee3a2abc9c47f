/**
 * What the TAF decoder returns: change groups (the aerodrome's own group,
 * `FM` and `BECMG`), each holding the temporary sub-groups that carry a
 * wind. The instant type is a parameter: the decoder builds `Date`s from
 * report fields, the selection rules compare instants.
 */
module TafSummary {
  import opened TafWind

  datatype SubKind = Main | Tempo | Prob30 | Prob40

  /** A temporary group: `MAIN` for the group's own window, or a `TEMPO`/`PROB` span. */
  datatype SubGroup<I> = SubGroup(kind: SubKind, dateFrom: I, dateTo: I, wind: Wind)

  /** `MAIN` (the aerodrome anchor), `FM`, or `BECMG`, which alone carries a transition date. */
  datatype GroupKind<I> = MainGroup | FmGroup | BecmgGroup(transitionDate: I)

  datatype ChangeGroup<I> = ChangeGroup(kind: GroupKind<I>, dateFrom: I, dateTo: I, groups: seq<SubGroup<I>>)

  datatype TafWindSummary<I> = TafWindSummary(date: I, groups: seq<ChangeGroup<I>>)
}
