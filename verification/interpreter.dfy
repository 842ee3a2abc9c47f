/**
 * `Interpreter.extractWindFromTAF`: a TAF is cut at its permanent change-group
 * anchors (the aerodrome code, `FM`, `BECMG`, with `RMK` closing the forecast).
 * Each anchor opens a change group; the text up to the next anchor is its body,
 * split at `TEMPO`/`PROB30`/`PROB40 ddhh/ddhh` spans into windows, each window
 * giving a sub-group its wind. Sub-groups without a wind and groups left without
 * sub-groups are dropped.
 *
 * The anchor expression's successive matches are taken as input (`Chunk`s):
 * the text before each anchor and the anchor's fields. Everything after that
 * (trimming, span search, wind search, slicing) is modelled on the strings.
 */
module Interpreter {
  import opened Common
  import opened Text
  import opened DateCodec
  import opened TafWind
  import opened TafSummary
  import WxReportDate

  /** A `Date` built from report fields; `None` is the Invalid Date. */
  type Instant = Option<DateFields>

  /** The clock reading `new Date()` gives the decoder. */
  type Now = n: DateFields | ValidNow(n) witness DateFields(2000, 0, 1, 0, 0, 0)

  /** Which alternative of `(<aerodrome>|FM|BECMG)` matched. */
  datatype Code = AerodromeCode | Fm | Becmg

  /**
   * One match of the anchor expression: `RMK`, or a change anchor with the
   * optional issue field (match 4), the `ddhh` start (match 5) and the
   * optional second `ddhh` (match 7). Match 4 is either ` ddhhmmZ ` or the
   * bare whitespace alternative `\s`, so `issue.value` may be a single
   * whitespace character; `IssueDate` then reads the empty string.
   */
  datatype Anchor = Rmk | Change(code: Code, issue: Option<string>, from: string, second: Option<string>)

  /** The text matched before an anchor (match 1), and the anchor. */
  datatype Chunk = Chunk(lead: string, anchor: Anchor)

  /** A span `(TEMPO|PROB[34]0)\s(\d{4})\/(\d{4})`: its kind, its two `ddhh` texts and its length. */
  datatype Span = Span(kind: SubKind, fromText: string, toText: string, len: nat)

  /** Reads the span starting at a position, if one does; a span read lies inside the text. */
  type SpanReader = f: (string, nat) -> Option<Span>
    | forall s: string, p: nat :: f(s, p).Some? ==> 0 < f(s, p).value.len && p + f(s, p).value.len <= |s|
    witness (s: string, p: nat) => None

  /**
   * The three readers the decoder applies to its texts: the span expression at
   * a fixed position, the wind reader `_extractWindFromTAF`, and
   * `extractWxReportDateTime(text, includesMinutes, isPast)` at the clock
   * reading. The decoder is written over any readers; `Source` holds the
   * ones the source uses, and every property proved here holds for them.
   */
  datatype Readers = Readers(spanAt: SpanReader, windOf: string -> Option<Wind>,
                             stamp: (string, bool, bool, Now) -> Instant)

  /** The wind every new sub-group starts with. */
  const Placeholder := Wind(0, 0, 0, None)

  /** `text || "0100"`. */
  function Or0100(text: string): string {
    if text == [] then "0100" else text
  }

  /** `extractWxReportDateTime(text || "0100")`: a `ddhh` field read forward from the clock reading. */
  function DayHour(text: string, rd: Readers, now: Now): Instant {
    rd.stamp(Or0100(text), false, false, now)
  }

  // ---------------------------------------------------------------------
  // The readers of the source
  // ---------------------------------------------------------------------

  /** The keyword at `p` and its length. */
  function KeywordAt(s: string, p: nat): Option<(SubKind, nat)> {
    if p + 5 <= |s| && s[p..p + 5] == "TEMPO" then Some((Tempo, 5))
    else if p + 6 <= |s| && s[p..p + 4] == "PROB" && s[p + 5] == '0' && s[p + 4] == '3' then Some((Prob30, 6))
    else if p + 6 <= |s| && s[p..p + 4] == "PROB" && s[p + 5] == '0' && s[p + 4] == '4' then Some((Prob40, 6))
    else None
  }

  /** The span expression anchored at `p`. */
  function SpanAt(s: string, p: nat): (r: Option<Span>)
    ensures r.Some? ==> 15 <= r.value.len && p + r.value.len <= |s|
  {
    match KeywordAt(s, p)
    case None => None
    case Some((kind, n)) =>
      var q := p + n;
      if q + 10 <= |s| && IsSpace(s[q]) && AllDigits(s[q + 1..q + 5]) && s[q + 5] == '/' && AllDigits(s[q + 6..q + 10])
      then Some(Span(kind, s[q + 1..q + 5], s[q + 6..q + 10], n + 10))
      else None
  }

  /** `extractWxReportDateTime` at a valid clock reading. */
  function Stamp(text: string, includesMinutes: bool, isPast: bool, now: Now): Instant {
    WxReportDate.ExtractWxReportDateTime(text, includesMinutes, isPast, now)
  }

  /** `_extractWindFromTAF(window.trim())`: the wind of a window. */
  function WindowWind(window: string): Option<Wind> {
    ExtractWind(Trim(window))
  }

  const Source: Readers := Readers(SpanAt, WindowWind, Stamp)

  // ---------------------------------------------------------------------
  // The sub-groups of a group body
  // ---------------------------------------------------------------------

  /** The leftmost span at or after `p`: one `exec` of the global span expression from `lastIndex = p`. */
  function NextSpan(s: string, p: nat, spanAt: SpanReader): (r: Option<nat>)
    decreases |s| - p
    ensures r.Some? ==> p <= r.value < |s| && spanAt(s, r.value).Some?
    ensures r.Some? ==> forall q :: p <= q < r.value ==> spanAt(s, q).None?
    ensures r.None? ==> forall q :: p <= q < |s| ==> spanAt(s, q).None?
  {
    if p >= |s| then None
    else if spanAt(s, p).Some? then Some(p)
    else NextSpan(s, p + 1, spanAt)
  }

  /** The sub-group a span opens, with the placeholder wind. */
  function SpanGroup(sp: Span, rd: Readers, now: Now): SubGroup<Instant> {
    SubGroup(sp.kind, DayHour(sp.fromText, rd, now), DayHour(sp.toText, rd, now), Placeholder)
  }

  /** `s.slice(p, -1)`: from `p` to just before the last character. */
  function SliceDropLast(s: string, p: nat): string {
    Slice(s, p, if |s| == 0 then 0 else |s| - 1)
  }

  /** The sub-group owning a window, carrying the window's wind; nothing if the window has none. */
  function Keep(owner: SubGroup<Instant>, window: string, windOf: string -> Option<Wind>): (r: seq<SubGroup<Instant>>)
  {
    match windOf(window)
    case None => []
    case Some(w) => [owner.(wind := w)]
  }

  /**
   * The sub-groups of a body from position `p` on, where `owner` owns the
   * window that starts at `p`: each window runs up to the next span (the last
   * one up to the body's last character, excluded) and its wind, if any, goes
   * to its owner; each span owns the window after it.
   */
  function KeptFrom(s: string, p: nat, owner: SubGroup<Instant>, rd: Readers, now: Now): seq<SubGroup<Instant>>
    requires p <= |s|
    decreases |s| - p
  {
    match NextSpan(s, p, rd.spanAt)
    case None => Keep(owner, SliceDropLast(s, p), rd.windOf)
    case Some(q) =>
      var sp := rd.spanAt(s, q).value;
      Keep(owner, Slice(s, p, q), rd.windOf) + KeptFrom(s, q + sp.len, SpanGroup(sp, rd, now), rd, now)
  }

  /** The sub-groups of a group body: a leading `MAIN` for the group's own bounds, then one per span. */
  function Subgroups(body: string, dateFrom: Instant, dateTo: Instant, rd: Readers, now: Now): seq<SubGroup<Instant>> {
    KeptFrom(body, 0, SubGroup(Main, dateFrom, dateTo, Placeholder), rd, now)
  }

  /**
   * The sub-group loop of `extractWindFromTAF`: push `MAIN`, then for every
   * span push its sub-group and give the window before it to `groups[j]` or
   * splice `groups[j]` out; the last window ends one character early.
   */
  method BuildSubgroups(groupData: string, dateFrom: Instant, dateTo: Instant, rd: Readers, now: Now)
    returns (groups: seq<SubGroup<Instant>>)
    ensures groups == Subgroups(groupData, dateFrom, dateTo, rd, now)
  {
    groups := [SubGroup(Main, dateFrom, dateTo, Placeholder)];
    var j: nat := 0;
    var strIndex: nat := 0;
    var subMatch := NextSpan(groupData, strIndex, rd.spanAt);
    while subMatch.Some?
      invariant strIndex <= |groupData| && |groups| == j + 1
      invariant subMatch == NextSpan(groupData, strIndex, rd.spanAt)
      invariant groups[..j] + KeptFrom(groupData, strIndex, groups[j], rd, now) == Subgroups(groupData, dateFrom, dateTo, rd, now)
      decreases |groupData| - strIndex
    {
      groups, j, strIndex := SpanStep(groupData, groups, j, strIndex, subMatch.value, rd, now);
      subMatch := NextSpan(groupData, strIndex, rd.spanAt);
    }
    KeptFromLast(groupData, strIndex, groups[j], rd, now);
    groups, j := GiveWindow(groups, j, SliceDropLast(groupData, strIndex), rd.windOf);
  }

  /**
   * One pass of the sub-group loop, for the span found at `index`: its
   * sub-group is pushed, the window before it is given away, and the search
   * resumes after the span, with what is settled followed by the rest unchanged.
   */
  method SpanStep(groupData: string, groups: seq<SubGroup<Instant>>, j: nat, strIndex: nat, index: nat, rd: Readers, now: Now)
    returns (groups': seq<SubGroup<Instant>>, j': nat, strIndex': nat)
    requires strIndex <= |groupData| && |groups| == j + 1
    requires NextSpan(groupData, strIndex, rd.spanAt) == Some(index)
    ensures strIndex < strIndex' <= |groupData| && |groups'| == j' + 1
    ensures groups'[..j'] + KeptFrom(groupData, strIndex', groups'[j'], rd, now)
         == groups[..j] + KeptFrom(groupData, strIndex, groups[j], rd, now)
  {
    var sp := rd.spanAt(groupData, index).value;
    groups', j' := TakeSpan(groups, j, SpanGroup(sp, rd, now), Slice(groupData, strIndex, index), rd.windOf);
    strIndex' := index + sp.len;
    KeptFromNext(groupData, strIndex, index, strIndex', groups[j], rd, now, groups[..j], groups', j');
  }

  /** One span: push the sub-group it opens, then give the window before it to `groups[j]`. */
  method TakeSpan(groups: seq<SubGroup<Instant>>, j: nat, spanGroup: SubGroup<Instant>, window: string, windOf: string -> Option<Wind>)
    returns (groups': seq<SubGroup<Instant>>, j': nat)
    requires |groups| == j + 1
    ensures |groups'| == j' + 1 && groups'[j'] == spanGroup
    ensures groups'[..j'] == groups[..j] + Keep(groups[j], window, windOf)
  {
    groups' := groups + [spanGroup];
    assert groups'[..j] == groups[..j] && groups'[j] == groups[j] && groups'[j + 1..] == [spanGroup];
    groups', j' := GiveWindow(groups', j, window, windOf);
    assert groups'[j'] == groups'[j'..][0];
  }

  /**
   * Giving a window to `groups[j]`: `groups[j].wind = wind` and `j += 1` when
   * the window has a wind, `groups.splice(j, 1)` when it has none.
   */
  method GiveWindow(groups: seq<SubGroup<Instant>>, j: nat, window: string, windOf: string -> Option<Wind>)
    returns (groups': seq<SubGroup<Instant>>, j': nat)
    requires j < |groups|
    ensures j' == j + |Keep(groups[j], window, windOf)| && |groups'| == |groups| - 1 + |Keep(groups[j], window, windOf)|
    ensures groups'[..j'] == groups[..j] + Keep(groups[j], window, windOf)
    ensures groups'[j'..] == groups[j + 1..]
  {
    var wind := windOf(window);
    if wind.Some? {
      groups' := groups[j := groups[j].(wind := wind.value)];
      j' := j + 1;
    } else {
      groups' := groups[..j] + groups[j + 1..];
      j' := j;
    }
  }

  /** One window and the span after it: what the loop has settled, followed by the rest, is unchanged. */
  lemma KeptFromNext(s: string, p: nat, q: nat, p': nat, owner: SubGroup<Instant>, rd: Readers, now: Now,
                     done: seq<SubGroup<Instant>>, groups: seq<SubGroup<Instant>>, j: nat)
    requires p <= |s| && NextSpan(s, p, rd.spanAt) == Some(q) && p' == q + rd.spanAt(s, q).value.len
    requires j < |groups| && groups[j] == SpanGroup(rd.spanAt(s, q).value, rd, now)
    requires groups[..j] == done + Keep(owner, Slice(s, p, q), rd.windOf)
    ensures p < p' <= |s|
    ensures groups[..j] + KeptFrom(s, p', groups[j], rd, now) == done + KeptFrom(s, p, owner, rd, now)
  {
    var kept := Keep(owner, Slice(s, p, q), rd.windOf);
    var rest := KeptFrom(s, q + rd.spanAt(s, q).value.len, SpanGroup(rd.spanAt(s, q).value, rd, now), rd, now);
    assert KeptFrom(s, p, owner, rd, now) == kept + rest;
    assert done + (kept + rest) == (done + kept) + rest;
  }

  /** The last window, when no span follows. */
  lemma KeptFromLast(s: string, p: nat, owner: SubGroup<Instant>, rd: Readers, now: Now)
    requires p <= |s| && NextSpan(s, p, rd.spanAt).None?
    ensures KeptFrom(s, p, owner, rd, now) == Keep(owner, SliceDropLast(s, p), rd.windOf)
  {
  }

  /** The first window of a body: up to the first span, or (no span) up to the last character, excluded. */
  function FirstWindow(s: string, spanAt: SpanReader): string {
    match NextSpan(s, 0, spanAt)
    case None => SliceDropLast(s, 0)
    case Some(q) => Slice(s, 0, q)
  }

  /** The sub-groups the spans of a body contribute, in textual order. */
  function SpanSubgroups(s: string, rd: Readers, now: Now): seq<SubGroup<Instant>> {
    match NextSpan(s, 0, rd.spanAt)
    case None => []
    case Some(q) => KeptFrom(s, q + rd.spanAt(s, q).value.len, SpanGroup(rd.spanAt(s, q).value, rd, now), rd, now)
  }

  /** The `MAIN` sub-group with the group's own bounds, if its window has a wind. */
  function MainPart(wind: Option<Wind>, dateFrom: Instant, dateTo: Instant): seq<SubGroup<Instant>> {
    if wind.Some? then [SubGroup(Main, dateFrom, dateTo, wind.value)] else []
  }

  /** Only the `MAIN` sub-group depends on the group's bounds. */
  lemma SubgroupsSplit(s: string, dateFrom: Instant, dateTo: Instant, rd: Readers, now: Now)
    ensures Subgroups(s, dateFrom, dateTo, rd, now)
         == MainPart(rd.windOf(FirstWindow(s, rd.spanAt)), dateFrom, dateTo) + SpanSubgroups(s, rd, now)
  {
  }

  // ---------------------------------------------------------------------
  // Decoding one anchor match
  // ---------------------------------------------------------------------

  /** A group body, decoded: the wind of its first window and the span sub-groups. */
  datatype Body = Body(mainWind: Option<Wind>, spans: seq<SubGroup<Instant>>)

  /** `match[1].trim()` decoded as a group body. */
  function BodyOf(lead: string, rd: Readers, now: Now): Body {
    Body(rd.windOf(FirstWindow(Trim(lead), rd.spanAt)), SpanSubgroups(Trim(lead), rd, now))
  }

  /** The sub-groups a body gives a group with the given bounds. */
  function BodySubgroups(body: Body, dateFrom: Instant, dateTo: Instant): seq<SubGroup<Instant>> {
    MainPart(body.mainWind, dateFrom, dateTo) + body.spans
  }

  /**
   * A change anchor with its texts decoded: the group kind, whether it is the
   * aerodrome anchor, the report date its issue field gives (`None` when the
   * field is absent, so that reading it throws), and its two `ddhh` dates.
   */
  datatype Header = Header(kind: GroupKind<Instant>, isAerodrome: bool, issueDate: Option<Instant>,
                           dateFrom: Instant, secondDate: Instant)

  /** The group kind of an anchor code; `BECMG` carries the second date as its transition date. */
  function KindOf(code: Code, secondDate: Instant): GroupKind<Instant> {
    match code
    case AerodromeCode => MainGroup
    case Fm => FmGroup
    case Becmg => BecmgGroup(secondDate)
  }

  /** `match[4].trim().slice(0, 6)` read with minutes, as a past date. */
  function IssueDate(issue: string, rd: Readers, now: Now): Instant {
    rd.stamp(Slice(Trim(issue), 0, 6), true, true, now)
  }

  function HeaderOf(a: Anchor, rd: Readers, now: Now): Header
    requires a.Change?
  {
    var secondDate := DayHour(a.second.GetOr(""), rd, now);
    Header(KindOf(a.code, secondDate), a.code.AerodromeCode?,
           if a.issue.None? then None else Some(IssueDate(a.issue.value, rd, now)),
           DayHour(a.from, rd, now), secondDate)
  }

  /** One anchor match with its texts decoded. */
  datatype Decoded = DecodedRmk(body: Body) | DecodedChange(header: Header, body: Body)

  function Decode(c: Chunk, rd: Readers, now: Now): Decoded {
    if c.anchor.Rmk? then DecodedRmk(BodyOf(c.lead, rd, now))
    else DecodedChange(HeaderOf(c.anchor, rd, now), BodyOf(c.lead, rd, now))
  }

  /** Every match decoded. */
  function DecodeAll(chunks: seq<Chunk>, rd: Readers, now: Now): (ds: seq<Decoded>)
    ensures |ds| == |chunks|
  {
    if chunks == [] then [] else [Decode(chunks[0], rd, now)] + DecodeAll(chunks[1..], rd, now)
  }

  lemma {:induction false} DecodeAllAt(chunks: seq<Chunk>, rd: Readers, now: Now, i: nat)
    requires i < |chunks|
    ensures DecodeAll(chunks, rd, now)[i] == Decode(chunks[i], rd, now)
  {
    if i > 0 {
      DecodeAllAt(chunks[1..], rd, now, i - 1);
    }
  }

  // ---------------------------------------------------------------------
  // Assembling the groups
  // ---------------------------------------------------------------------

  /**
   * Settling group `n` with its body: it gets its sub-groups, or, having none,
   * is removed, and the group before it then ends at `closeDate`.
   */
  function SettleAt(groups: seq<ChangeGroup<Instant>>, n: nat, body: Body, closeDate: Instant): seq<ChangeGroup<Instant>>
    requires n < |groups|
  {
    var g := groups[n];
    var subs := BodySubgroups(body, g.dateFrom, g.dateTo);
    if subs != [] then groups[n := g.(groups := subs)]
    else
      var rest := groups[..n] + groups[n + 1..];
      if n > 0 then rest[n - 1 := rest[n - 1].(dateTo := closeDate)] else rest
  }

  /** What the scan knows after some matches; `closed` once `RMK` has settled the last group. */
  datatype Scan = Scan(groups: seq<ChangeGroup<Instant>>, date: Instant, endDate: Instant, closed: bool)

  /**
   * One match. The first gives the report date instead of settling a group; a
   * change anchor opens a group that ends at the end date, the last group
   * then ends where the new one starts and is settled; `RMK` settles the last
   * group. Any match after `RMK`, and an `RMK` or an issue-less anchor first,
   * throw.
   */
  function Step(st: Scan, d: Decoded, first: bool): Outcome<Scan> {
    if st.closed then Throws
    else match d
      case DecodedRmk(body) =>
        if first || st.groups == [] then Throws
        else Returns(st.(groups := SettleAt(st.groups, |st.groups| - 1, body, st.endDate), closed := true))
      case DecodedChange(h, body) =>
        var endDate := if h.isAerodrome then h.secondDate else st.endDate;
        var g := ChangeGroup(h.kind, h.dateFrom, endDate, []);
        if first then
          if h.issueDate.None? then Throws else Returns(Scan(st.groups + [g], h.issueDate.value, endDate, false))
        else if st.groups == [] then Throws
        else
          var n := |st.groups| - 1;
          var pushed := (st.groups + [g])[n := st.groups[n].(dateTo := h.dateFrom)];
          Returns(Scan(SettleAt(pushed, n, body, endDate), st.date, endDate, false))
  }

  /** The scan after the first `k` decoded matches, starting from `now` as both report date and end date. */
  function ScanUpTo(ds: seq<Decoded>, k: nat, now: Now): Outcome<Scan>
    requires k <= |ds|
  {
    if k == 0 then Returns(Scan([], Some(now), Some(now), false))
    else match ScanUpTo(ds, k - 1, now)
      case Throws => Throws
      case Returns(st) => Step(st, ds[k - 1], k == 1)
  }

  /** The summary the decoder returns, or the TypeError it throws. */
  function TafWinds(chunks: seq<Chunk>, rd: Readers, now: Now): Outcome<TafWindSummary<Instant>> {
    match ScanUpTo(DecodeAll(chunks, rd, now), |chunks|, now)
    case Throws => Throws
    case Returns(st) => Returns(TafWindSummary(st.date, st.groups))
  }

  /** A throw is final. */
  lemma {:induction false} ThrowsStays(ds: seq<Decoded>, k: nat, n: nat, now: Now)
    requires k <= n <= |ds| && ScanUpTo(ds, k, now).Throws?
    ensures ScanUpTo(ds, n, now).Throws?
    decreases n - k
  {
    if k < n {
      ThrowsStays(ds, k + 1, n, now);
    }
  }

  /**
   * Which groups have their sub-groups: every group but the last, and the
   * last exactly once `RMK` has closed the scan.
   */
  predicate Settled(st: Scan) {
    (forall j :: 0 <= j < |st.groups| - 1 ==> st.groups[j].groups != [])
    && (st.groups != [] ==> (st.groups[|st.groups| - 1].groups != [] <==> st.closed))
  }

  /**
   * Settling group `n` keeps every other group's sub-groups, gives group `n`
   * its own when it has some, and otherwise removes it.
   */
  lemma SettleAtGroups(groups: seq<ChangeGroup<Instant>>, n: nat, body: Body, closeDate: Instant)
    requires n < |groups|
    ensures var subs := BodySubgroups(body, groups[n].dateFrom, groups[n].dateTo);
      var r := SettleAt(groups, n, body, closeDate);
      |r| == (if subs != [] then |groups| else |groups| - 1)
      && (forall j :: 0 <= j < |r| ==> r[j].groups == if subs != [] && j == n then subs
                                                        else if j < n then groups[j].groups
                                                        else if subs != [] then groups[j].groups
                                                        else groups[j + 1].groups)
  {
  }

  /** One step keeps every settled group settled, and closes the scan exactly on `RMK`. */
  lemma StepSettled(st: Scan, d: Decoded, first: bool)
    requires Settled(st) && (first ==> st.groups == []) && Step(st, d, first).Returns?
    ensures Settled(Step(st, d, first).value)
    ensures Step(st, d, first).value.closed <==> d.DecodedRmk?
  {
    match d
    case DecodedRmk(body) =>
      RmkSettled(st, body);
    case DecodedChange(h, body) =>
      if !first {
        ChangeSettled(st, h, body);
      }
  }

  /** `RMK` settles the last group and closes the scan. */
  lemma RmkSettled(st: Scan, body: Body)
    requires Settled(st) && !st.closed && st.groups != []
    ensures Settled(st.(groups := SettleAt(st.groups, |st.groups| - 1, body, st.endDate), closed := true))
  {
    SettleAtGroups(st.groups, |st.groups| - 1, body, st.endDate);
  }

  /** A change anchor after the first match settles the last group and opens a new, open one. */
  lemma ChangeSettled(st: Scan, h: Header, body: Body)
    requires Settled(st) && !st.closed && st.groups != []
    ensures var n := |st.groups| - 1;
      var endDate := if h.isAerodrome then h.secondDate else st.endDate;
      var pushed := (st.groups + [ChangeGroup(h.kind, h.dateFrom, endDate, [])])[n := st.groups[n].(dateTo := h.dateFrom)];
      Settled(Scan(SettleAt(pushed, n, body, endDate), st.date, endDate, false))
  {
    var n := |st.groups| - 1;
    var endDate := if h.isAerodrome then h.secondDate else st.endDate;
    var pushed := (st.groups + [ChangeGroup(h.kind, h.dateFrom, endDate, [])])[n := st.groups[n].(dateTo := h.dateFrom)];
    assert forall j :: 0 <= j < n ==> pushed[j].groups == st.groups[j].groups;
    SettleAtGroups(pushed, n, body, endDate);
  }

  /** Every scan that has not thrown is settled, and closed exactly when its last match was `RMK`. */
  lemma {:induction false} ScanSettled(ds: seq<Decoded>, k: nat, now: Now)
    requires k <= |ds| && ScanUpTo(ds, k, now).Returns?
    ensures Settled(ScanUpTo(ds, k, now).value)
    ensures ScanUpTo(ds, k, now).value.closed <==> k > 0 && ds[k - 1].DecodedRmk?
  {
    if k > 0 {
      ScanSettled(ds, k - 1, now);
      StepSettled(ScanUpTo(ds, k - 1, now).value, ds[k - 1], k == 1);
    }
  }

  /**
   * In a decoded report every change group but the last has sub-groups; the
   * last has some exactly when the report ends with its `RMK` remark, since
   * only a following match settles a group.
   */
  lemma TafGroupsSettled(chunks: seq<Chunk>, rd: Readers, now: Now)
    requires TafWinds(chunks, rd, now).Returns?
    ensures var gs := TafWinds(chunks, rd, now).value.groups;
      (forall j :: 0 <= j < |gs| - 1 ==> gs[j].groups != [])
      && (gs != [] ==> |chunks| > 0 && (gs[|gs| - 1].groups != [] <==> chunks[|chunks| - 1].anchor.Rmk?))
  {
    var ds := DecodeAll(chunks, rd, now);
    TafWindsScan(chunks, rd, now);
    ScanSettled(ds, |chunks|, now);
    if |chunks| > 0 {
      DecodedLast(chunks, rd, now);
    }
  }

  lemma TafWindsScan(chunks: seq<Chunk>, rd: Readers, now: Now)
    requires TafWinds(chunks, rd, now).Returns?
    ensures var st := ScanUpTo(DecodeAll(chunks, rd, now), |chunks|, now);
      st.Returns? && TafWinds(chunks, rd, now).value.groups == st.value.groups
  {
  }

  /** A step after the first keeps the report date. */
  lemma StepKeepsDate(st: Scan, d: Decoded)
    requires Step(st, d, false).Returns?
    ensures Step(st, d, false).value.date == st.date
  {
  }

  /** Once the first match has set it, the report date stays through the scan. */
  lemma {:induction false} ScanKeepsDate(ds: seq<Decoded>, k: nat, now: Now)
    requires 1 <= k <= |ds| && ScanUpTo(ds, k, now).Returns?
    ensures ScanUpTo(ds, 1, now).Returns? && ScanUpTo(ds, k, now).value.date == ScanUpTo(ds, 1, now).value.date
  {
    if k > 1 {
      ScanPrev(ds, k, now);
      ScanKeepsDate(ds, k - 1, now);
      StepKeepsDate(ScanUpTo(ds, k - 1, now).value, ds[k - 1]);
    }
  }

  /** The first match returns only as a change anchor with an issue field, which gives the report date. */
  lemma FirstScanDate(ds: seq<Decoded>, now: Now)
    requires |ds| >= 1 && ScanUpTo(ds, 1, now).Returns?
    ensures ds[0].DecodedChange? && ds[0].header.issueDate.Some?
    ensures ScanUpTo(ds, 1, now).value.date == ds[0].header.issueDate.value
  {
  }

  /**
   * The report date is the first anchor's issue field (match 4), read with
   * minutes in past mode; with no match at all it is the clock reading.
   */
  lemma TafWindsDate(chunks: seq<Chunk>, rd: Readers, now: Now)
    requires TafWinds(chunks, rd, now).Returns?
    ensures chunks == [] ==> TafWinds(chunks, rd, now).value.date == Some(now)
    ensures chunks != [] ==> chunks[0].anchor.Change? && chunks[0].anchor.issue.Some?
    ensures chunks != [] ==>
      TafWinds(chunks, rd, now).value.date == IssueDate(chunks[0].anchor.issue.value, rd, now)
  {
    if chunks != [] {
      var ds := DecodeAll(chunks, rd, now);
      ScanKeepsDate(ds, |chunks|, now);
      FirstScanDate(ds, now);
      DecodeAllAt(chunks, rd, now, 0);
    }
  }

  /** A bare whitespace issue field gives the report date that the empty text reads as. */
  lemma BareIssueDate(rd: Readers, now: Now)
    ensures IssueDate(" ", rd, now) == rd.stamp("", true, true, now)
  {
    ExampleTrims();
  }

  lemma DecodedLast(chunks: seq<Chunk>, rd: Readers, now: Now)
    requires |chunks| > 0
    ensures DecodeAll(chunks, rd, now)[|chunks| - 1].DecodedRmk? <==> chunks[|chunks| - 1].anchor.Rmk?
  {
    DecodeAllAt(chunks, rd, now, |chunks| - 1);
  }

  // ---------------------------------------------------------------------
  // Group boundaries
  // ---------------------------------------------------------------------

  /** Each change group ends where the next one starts. */
  ghost predicate Contiguous(gs: seq<ChangeGroup<Instant>>) {
    forall i, j :: 0 <= i < j < |gs| && j == i + 1 ==> gs[i].dateTo == gs[j].dateFrom
  }

  /** The last group, if there is one, ends at `endDate`. */
  predicate EndsAt(gs: seq<ChangeGroup<Instant>>, endDate: Instant) {
    gs != [] ==> gs[|gs| - 1].dateTo == endDate
  }

  /** A body that gives its group at least one sub-group, so that settling keeps the group. */
  predicate Fills(body: Body) {
    body.mainWind.Some? || body.spans != []
  }

  /**
   * The end date after the first `k` matches: the second `ddhh` date of the
   * last aerodrome anchor among them, or the clock reading before there is one.
   */
  function EndDateAt(chunks: seq<Chunk>, k: nat, rd: Readers, now: Now): Instant
    requires k <= |chunks|
  {
    if k == 0 then Some(now)
    else
      var a := chunks[k - 1].anchor;
      if a.Change? && a.code.AerodromeCode? then DayHour(a.second.GetOr(""), rd, now)
      else EndDateAt(chunks, k - 1, rd, now)
  }

  /** Settling keeps the last group ending at the close date. */
  lemma SettleAtEnds(groups: seq<ChangeGroup<Instant>>, n: nat, body: Body, closeDate: Instant)
    requires n < |groups| && EndsAt(groups, closeDate)
    ensures EndsAt(SettleAt(groups, n, body, closeDate), closeDate)
  {
  }

  /** One step moves the end date to an aerodrome anchor's second date, and the last group ends there. */
  lemma StepEnds(st: Scan, d: Decoded, first: bool)
    requires EndsAt(st.groups, st.endDate) && Step(st, d, first).Returns?
    ensures var r := Step(st, d, first).value;
      r.endDate == (if d.DecodedChange? && d.header.isAerodrome then d.header.secondDate else st.endDate)
      && EndsAt(r.groups, r.endDate)
  {
    match d
    case DecodedRmk(body) =>
      SettleAtEnds(st.groups, |st.groups| - 1, body, st.endDate);
    case DecodedChange(h, body) =>
      if !first {
        var n := |st.groups| - 1;
        var endDate := if h.isAerodrome then h.secondDate else st.endDate;
        var pushed := (st.groups + [ChangeGroup(h.kind, h.dateFrom, endDate, [])])[n := st.groups[n].(dateTo := h.dateFrom)];
        SettleAtEnds(pushed, n, body, endDate);
      }
  }

  /** The end date after the first `k` decoded matches, as the scan tracks it. */
  function DecodedEndAt(ds: seq<Decoded>, k: nat, now: Now): Instant
    requires k <= |ds|
  {
    if k == 0 then Some(now)
    else if ds[k - 1].DecodedChange? && ds[k - 1].header.isAerodrome then ds[k - 1].header.secondDate
    else DecodedEndAt(ds, k - 1, now)
  }

  /** A scan that has not thrown has `endDate` as its end date, and its last group ends there. */
  ghost predicate EndsTracked(o: Outcome<Scan>, endDate: Instant) {
    o.Returns? ==> o.value.endDate == endDate && EndsAt(o.value.groups, endDate)
  }

  /** After `k` decoded matches the scan's end date is `DecodedEndAt`, and its last group ends there. */
  lemma ScanEndsDecoded(ds: seq<Decoded>, k: nat, now: Now)
    requires k <= |ds| && ScanUpTo(ds, k, now).Returns?
    ensures ScanUpTo(ds, k, now).value.endDate == DecodedEndAt(ds, k, now)
    ensures EndsAt(ScanUpTo(ds, k, now).value.groups, ScanUpTo(ds, k, now).value.endDate)
  {
    ScanEndsTracked(ds, k, now);
  }

  /** `ScanEndsDecoded` by induction on the number of matches. */
  lemma {:induction false} ScanEndsTracked(ds: seq<Decoded>, k: nat, now: Now)
    requires k <= |ds|
    ensures EndsTracked(ScanUpTo(ds, k, now), DecodedEndAt(ds, k, now))
  {
    if k > 0 {
      ScanEndsTracked(ds, k - 1, now);
      EndsNext(ds, k, now);
    }
  }

  /** One more decoded match keeps `EndsTracked`. */
  lemma EndsNext(ds: seq<Decoded>, k: nat, now: Now)
    requires 0 < k <= |ds| && EndsTracked(ScanUpTo(ds, k - 1, now), DecodedEndAt(ds, k - 1, now))
    ensures EndsTracked(ScanUpTo(ds, k, now), DecodedEndAt(ds, k, now))
  {
    if ScanUpTo(ds, k, now).Returns? {
      ScanPrev(ds, k, now);
      EndsStepFrom(ScanUpTo(ds, k - 1, now), ds[k - 1], k == 1, DecodedEndAt(ds, k - 1, now),
                   ScanUpTo(ds, k, now), DecodedEndAt(ds, k, now));
    }
  }

  /** One more decoded match keeps the scan's end date equal to the tracked one. */
  lemma EndsStepFrom(prev: Outcome<Scan>, d: Decoded, first: bool, e: Instant, next: Outcome<Scan>, e2: Instant)
    requires prev.Returns? && prev.value.endDate == e && EndsAt(prev.value.groups, e)
    requires next == Step(prev.value, d, first) && next.Returns?
    requires e2 == (if d.DecodedChange? && d.header.isAerodrome then d.header.secondDate else e)
    ensures next.value.endDate == e2 && EndsAt(next.value.groups, next.value.endDate)
  {
    StepEnds(prev.value, d, first);
  }

  /** Decoding carries each aerodrome anchor's second date over to the decoded end date. */
  lemma {:induction false} DecodedEndAgrees(chunks: seq<Chunk>, rd: Readers, now: Now, k: nat)
    requires k <= |chunks|
    ensures DecodedEndAt(DecodeAll(chunks, rd, now), k, now) == EndDateAt(chunks, k, rd, now)
  {
    if k > 0 {
      var ds := DecodeAll(chunks, rd, now);
      DecodedEndAgrees(chunks, rd, now, k - 1);
      DecodeAllAt(chunks, rd, now, k - 1);
      EndAgreesFrom(DecodedEndAt(ds, k - 1, now), EndDateAt(chunks, k - 1, rd, now), ds[k - 1], chunks[k - 1], rd, now,
                    DecodedEndAt(ds, k, now), EndDateAt(chunks, k, rd, now));
    }
  }

  /** One more match moves both end dates alike. */
  lemma EndAgreesFrom(a: Instant, b: Instant, d: Decoded, c: Chunk, rd: Readers, now: Now, x: Instant, y: Instant)
    requires a == b && d == Decode(c, rd, now)
    requires x == (if d.DecodedChange? && d.header.isAerodrome then d.header.secondDate else a)
    requires y == (if c.anchor.Change? && c.anchor.code.AerodromeCode? then DayHour(c.anchor.second.GetOr(""), rd, now) else b)
    ensures x == y
  {
    DecodedEnd(c, rd, now);
  }

  /**
   * The scan's end date is the second date of the last aerodrome anchor read
   * (the clock reading before one is read), and its last group ends there.
   */
  lemma ScanEnds(chunks: seq<Chunk>, rd: Readers, now: Now, k: nat)
    requires k <= |chunks| && ScanUpTo(DecodeAll(chunks, rd, now), k, now).Returns?
    ensures var st := ScanUpTo(DecodeAll(chunks, rd, now), k, now).value;
      st.endDate == EndDateAt(chunks, k, rd, now) && EndsAt(st.groups, st.endDate)
  {
    ScanEndsDecoded(DecodeAll(chunks, rd, now), k, now);
    DecodedEndAgrees(chunks, rd, now, k);
  }

  /** The scan after `k` matches is one step from the scan after `k - 1`. */
  lemma ScanPrev(ds: seq<Decoded>, k: nat, now: Now)
    requires 0 < k <= |ds| && ScanUpTo(ds, k, now).Returns?
    ensures ScanUpTo(ds, k - 1, now).Returns?
    ensures ScanUpTo(ds, k, now) == Step(ScanUpTo(ds, k - 1, now).value, ds[k - 1], k == 1)
  {
  }

  /** A decoded match moves the end date exactly when it is an aerodrome anchor, to that anchor's second date. */
  lemma DecodedEnd(c: Chunk, rd: Readers, now: Now)
    ensures var d := Decode(c, rd, now);
      (d.DecodedChange? && d.header.isAerodrome) == (c.anchor.Change? && c.anchor.code.AerodromeCode?)
      && (d.DecodedChange? ==> d.header.secondDate == DayHour(c.anchor.second.GetOr(""), rd, now))
  {
  }

  /**
   * The last group of a decoded report ends at the end date: the second date
   * of the last aerodrome anchor.
   */
  lemma TafWindsLastEnds(chunks: seq<Chunk>, rd: Readers, now: Now)
    requires TafWinds(chunks, rd, now).Returns?
    ensures EndsAt(TafWinds(chunks, rd, now).value.groups, EndDateAt(chunks, |chunks|, rd, now))
  {
    TafWindsScan(chunks, rd, now);
    ScanEnds(chunks, rd, now, |chunks|);
  }

  /** Pushing a group and ending the last one where it starts keeps the groups contiguous. */
  lemma PushedContiguous(groups: seq<ChangeGroup<Instant>>, g: ChangeGroup<Instant>)
    requires groups != [] && Contiguous(groups)
    ensures var n := |groups| - 1;
      Contiguous((groups + [g])[n := groups[n].(dateTo := g.dateFrom)])
  {
  }

  /**
   * Settling as the group bounds intend: when group `n` is removed, the group
   * before it is extended to where the following group starts, and to
   * `endDate` only when no group follows.
   */
  function SettleJoined(groups: seq<ChangeGroup<Instant>>, n: nat, body: Body, endDate: Instant): seq<ChangeGroup<Instant>>
    requires n < |groups|
  {
    SettleAt(groups, n, body, if n + 1 < |groups| then groups[n + 1].dateFrom else endDate)
  }

  /** The corrected settling keeps the groups contiguous and the last one ending at the end date. */
  lemma SettleJoinedBounds(groups: seq<ChangeGroup<Instant>>, n: nat, body: Body, endDate: Instant)
    requires n < |groups|
    ensures Contiguous(groups) ==> Contiguous(SettleJoined(groups, n, body, endDate))
    ensures EndsAt(groups, endDate) ==> EndsAt(SettleJoined(groups, n, body, endDate), endDate)
  {
    var close := if n + 1 < |groups| then groups[n + 1].dateFrom else endDate;
    var r := SettleJoined(groups, n, body, endDate);
    var g := groups[n];
    if BodySubgroups(body, g.dateFrom, g.dateTo) != [] {
      assert r == groups[n := g.(groups := BodySubgroups(body, g.dateFrom, g.dateTo))];
    } else {
      var rest := groups[..n] + groups[n + 1..];
      assert |rest| == |groups| - 1;
      assert forall j :: 0 <= j < |rest| ==> rest[j] == if j < n then groups[j] else groups[j + 1];
      if n > 0 {
        assert r == rest[n - 1 := rest[n - 1].(dateTo := close)];
        if Contiguous(groups) {
          forall i, j | 0 <= i < j < |r| && j == i + 1
            ensures r[i].dateTo == r[j].dateFrom
          {
            if i == n - 1 {
              assert r[j] == groups[n + 1];
            }
          }
        }
      } else {
        assert r == rest;
      }
    }
  }

  /** `Step`, settling with `SettleJoined` when a change anchor follows the group it settles. */
  function StepJoined(st: Scan, d: Decoded, first: bool): Outcome<Scan> {
    if !st.closed && d.DecodedChange? && !first && st.groups != [] then
      var h := d.header;
      var endDate := if h.isAerodrome then h.secondDate else st.endDate;
      var n := |st.groups| - 1;
      var pushed := (st.groups + [ChangeGroup(h.kind, h.dateFrom, endDate, [])])[n := st.groups[n].(dateTo := h.dateFrom)];
      Returns(Scan(SettleJoined(pushed, n, d.body, endDate), st.date, endDate, false))
    else Step(st, d, first)
  }

  /** `ScanUpTo` with `StepJoined`. */
  function ScanJoinedUpTo(ds: seq<Decoded>, k: nat, now: Now): Outcome<Scan>
    requires k <= |ds|
  {
    if k == 0 then Returns(Scan([], Some(now), Some(now), false))
    else match ScanJoinedUpTo(ds, k - 1, now)
      case Throws => Throws
      case Returns(st) => StepJoined(st, ds[k - 1], k == 1)
  }

  /** The decoder with group removal settled by `SettleJoined`. */
  function TafWindsJoined(chunks: seq<Chunk>, rd: Readers, now: Now): Outcome<TafWindSummary<Instant>> {
    match ScanJoinedUpTo(DecodeAll(chunks, rd, now), |chunks|, now)
    case Throws => Throws
    case Returns(st) => Returns(TafWindSummary(st.date, st.groups))
  }

  /** A joined step keeps the groups contiguous and the last one ending at the end date. */
  lemma StepJoinedBounds(st: Scan, d: Decoded, first: bool)
    requires Contiguous(st.groups) && EndsAt(st.groups, st.endDate) && (first ==> st.groups == [])
    requires StepJoined(st, d, first).Returns?
    ensures Contiguous(StepJoined(st, d, first).value.groups)
    ensures EndsAt(StepJoined(st, d, first).value.groups, StepJoined(st, d, first).value.endDate)
  {
    if !st.closed && d.DecodedChange? && !first && st.groups != [] {
      var h := d.header;
      var endDate := if h.isAerodrome then h.secondDate else st.endDate;
      var n := |st.groups| - 1;
      var g := ChangeGroup(h.kind, h.dateFrom, endDate, []);
      PushedContiguous(st.groups, g);
      SettleJoinedBounds((st.groups + [g])[n := st.groups[n].(dateTo := h.dateFrom)], n, d.body, endDate);
    } else if d.DecodedRmk? {
      var n := |st.groups| - 1;
      assert SettleAt(st.groups, n, d.body, st.endDate) == SettleJoined(st.groups, n, d.body, st.endDate);
      SettleJoinedBounds(st.groups, n, d.body, st.endDate);
    }
  }

  /** A scan that returned has contiguous groups, the last ending at its end date. */
  ghost predicate Bounded(o: Outcome<Scan>) {
    o.Returns? ==> Contiguous(o.value.groups) && EndsAt(o.value.groups, o.value.endDate)
  }

  /** Every joined scan that has not thrown has contiguous groups, the last ending at the end date. */
  lemma {:induction false} ScanJoinedBounds(ds: seq<Decoded>, k: nat, now: Now)
    requires k <= |ds|
    ensures Bounded(ScanJoinedUpTo(ds, k, now))
  {
    if k > 0 {
      ScanJoinedBounds(ds, k - 1, now);
      JoinedBoundsNext(ds, k, now);
    }
  }

  /** One more match of the corrected scan keeps `Bounded`. */
  lemma JoinedBoundsNext(ds: seq<Decoded>, k: nat, now: Now)
    requires 0 < k <= |ds| && Bounded(ScanJoinedUpTo(ds, k - 1, now))
    ensures Bounded(ScanJoinedUpTo(ds, k, now))
  {
    if ScanJoinedUpTo(ds, k, now).Returns? {
      ScanJoinedPrev(ds, k, now);
      JoinedStepFrom(ScanJoinedUpTo(ds, k - 1, now), ds[k - 1], k == 1, ScanJoinedUpTo(ds, k, now));
    }
  }

  /** `StepJoinedBounds`, for a scan step taken from a scan that returned. */
  lemma JoinedStepFrom(prev: Outcome<Scan>, d: Decoded, first: bool, next: Outcome<Scan>)
    requires prev.Returns? && Bounded(prev) && (first ==> prev.value.groups == [])
    requires next == StepJoined(prev.value, d, first)
    ensures Bounded(next)
  {
    if next.Returns? {
      StepJoinedBounds(prev.value, d, first);
    }
  }

  /** The joined scan after `k` matches is one joined step from the one after `k - 1`, which is empty when `k` is 1. */
  lemma ScanJoinedPrev(ds: seq<Decoded>, k: nat, now: Now)
    requires 0 < k <= |ds| && ScanJoinedUpTo(ds, k, now).Returns?
    ensures ScanJoinedUpTo(ds, k - 1, now).Returns?
    ensures ScanJoinedUpTo(ds, k, now) == StepJoined(ScanJoinedUpTo(ds, k - 1, now).value, ds[k - 1], k == 1)
    ensures k == 1 ==> ScanJoinedUpTo(ds, k - 1, now).value.groups == []
  {
  }

  /** With removal settled by `SettleJoined`, each change group ends where the next starts. */
  lemma TafWindsJoinedContiguous(chunks: seq<Chunk>, rd: Readers, now: Now)
    requires TafWindsJoined(chunks, rd, now).Returns?
    ensures Contiguous(TafWindsJoined(chunks, rd, now).value.groups)
  {
    ScanJoinedBounds(DecodeAll(chunks, rd, now), |chunks|, now);
  }

  /** A step that removes no group in mid-report is the same either way. */
  lemma StepJoinedAgrees(st: Scan, d: Decoded, first: bool)
    requires first || d.DecodedRmk? || Fills(d.body)
    ensures StepJoined(st, d, first) == Step(st, d, first)
  {
  }

  /** Scans in which no change anchor follows an empty body are the same either way. */
  lemma {:induction false} ScanJoinedAgrees(ds: seq<Decoded>, k: nat, now: Now)
    requires k <= |ds| && forall i :: 0 < i < k && ds[i].DecodedChange? ==> Fills(ds[i].body)
    ensures ScanJoinedUpTo(ds, k, now) == ScanUpTo(ds, k, now)
  {
    if k > 0 {
      ScanJoinedAgrees(ds, k - 1, now);
      JoinedAgreesFrom(ScanJoinedUpTo(ds, k - 1, now), ScanUpTo(ds, k - 1, now), ds[k - 1], k == 1,
                       ScanJoinedUpTo(ds, k, now), ScanUpTo(ds, k, now));
    }
  }

  /** `StepJoinedAgrees`, for the steps both scans take from the same outcome. */
  lemma JoinedAgreesFrom(p: Outcome<Scan>, q: Outcome<Scan>, d: Decoded, first: bool, r: Outcome<Scan>, s: Outcome<Scan>)
    requires p == q && (first || d.DecodedRmk? || Fills(d.body))
    requires r == (match p case Throws => Throws case Returns(st) => StepJoined(st, d, first))
    requires s == (match q case Throws => Throws case Returns(st) => Step(st, d, first))
    ensures r == s
  {
    if p.Returns? {
      StepJoinedAgrees(p.value, d, first);
    }
  }

  /**
   * When no change anchor after the first follows an empty body, so that no
   * group is removed in mid-report, each group of the decoded report ends
   * where the next one starts.
   */
  lemma TafWindsContiguous(chunks: seq<Chunk>, rd: Readers, now: Now)
    requires TafWinds(chunks, rd, now).Returns?
    requires forall i :: 0 < i < |chunks| && chunks[i].anchor.Change? ==> Fills(BodyOf(chunks[i].lead, rd, now))
    ensures Contiguous(TafWinds(chunks, rd, now).value.groups)
  {
    var ds := DecodeAll(chunks, rd, now);
    forall i | 0 < i < |chunks|
      ensures ds[i] == Decode(chunks[i], rd, now)
    {
      DecodeAllAt(chunks, rd, now, i);
    }
    ScanJoinedAgrees(ds, |chunks|, now);
    TafWindsScan(chunks, rd, now);
    ScanJoinedBounds(ds, |chunks|, now);
  }

  /**
   * Three change anchors, the second closing a body with sub-groups and the
   * third an empty body: the middle group is removed and the first then ends
   * at the aerodrome anchor's second date, as the last group does.
   */
  lemma MidRemovalScan(ds: seq<Decoded>, now: Now)
    requires |ds| == 3 && ds[0].DecodedChange? && ds[1].DecodedChange? && ds[2].DecodedChange?
    requires ds[0].header.issueDate.Some? && ds[0].header.isAerodrome
    requires !ds[1].header.isAerodrome && !ds[2].header.isAerodrome
    requires Fills(ds[1].body) && !Fills(ds[2].body)
    ensures var r := ScanUpTo(ds, 3, now);
      r.Returns? && |r.value.groups| == 2
      && r.value.groups[0].dateTo == ds[0].header.secondDate == r.value.groups[1].dateTo
      && r.value.groups[1].dateFrom == ds[2].header.dateFrom
  {
    assert ScanUpTo(ds, 1, now).Returns?;
    assert ScanUpTo(ds, 2, now).value.groups[0].groups != [];
    assert |ScanUpTo(ds, 2, now).value.groups| == 2;
  }

  /** The fields of a decoded change anchor. */
  lemma DecodedFields(c: Chunk, rd: Readers, now: Now)
    requires c.anchor.Change?
    ensures var d := Decode(c, rd, now);
      d.DecodedChange? && d.body == BodyOf(c.lead, rd, now)
      && d.header.isAerodrome == c.anchor.code.AerodromeCode?
      && d.header.issueDate.Some? == c.anchor.issue.Some?
      && d.header.dateFrom == DayHour(c.anchor.from, rd, now)
      && d.header.secondDate == DayHour(c.anchor.second.GetOr(""), rd, now)
  {
  }

  /** No span starts anywhere in the body `27010KTX`. */
  lemma NoSpanInWindBody()
    ensures NextSpan("27010KTX", 0, Source.spanAt).None?
  {
    var s := "27010KTX";
    forall q | 0 <= q < |s|
      ensures Source.spanAt(s, q).None?
    {
      if q + 5 <= |s| {
        assert s[q..q + 5][0] == s[q] && s[q..q + 4][0] == s[q];
      }
    }
  }

  /** The body `27010KTX` has no span, so its first window runs to its last character, excluded. */
  lemma WindBodyWindow()
    ensures FirstWindow("27010KTX", Source.spanAt) == "27010KT"
  {
    NoSpanInWindBody();
    assert "27010KTX"[0..7] == "27010KT";
  }

  /** The window `27010KT` reads as 10 knots from 270 degrees. */
  lemma WindowReads()
    ensures Source.windOf("27010KT") == Some(Wind(10, 270, 0, None))
  {
    var w := Wind(10, 270, 0, None);
    ExampleToken();
    WindRoundTrip(w);
  }

  /** `27010KT` is the token of 10 knots from 270 degrees, and it is its own trim. */
  lemma ExampleToken()
    ensures Writable(Wind(10, 270, 0, None)) && FormatWind(Wind(10, 270, 0, None)) == "27010KT"
    ensures Trim("27010KT") == "27010KT"
  {
    assert FormatWind(Wind(10, 270, 0, None)) == "27010KT";
    assert !IsSpace('2') && !IsSpace('T');
    TrimmedAlready("27010KT");
  }

  /** The lead ` 27010KTX ` gives its group a `MAIN` wind; a lone space gives none. */
  lemma ExampleBodies(now: Now)
    ensures Fills(BodyOf(" 27010KTX ", Source, now)) && !Fills(BodyOf(" ", Source, now))
  {
    ExampleTrims();
    WindBodyWindow();
    WindowReads();
  }

  /** Trimming the example leads. */
  lemma ExampleTrims()
    ensures Trim(" 27010KTX ") == "27010KTX" && Trim(" ") == ""
  {
    assert " 27010KTX "[1..] == "27010KTX ";
    assert TrimStart(" 27010KTX ") == "27010KTX ";
    assert "27010KTX "[..8] == "27010KTX";
    assert TrimEnd("27010KTX ") == "27010KTX";
    assert TrimStart(" ") == "";
  }

  /** `1212` reads as 12:00. */
  lemma NoonRead(now: Now)
    ensures DayHour("1212", Source, now).Some? && DayHour("1212", Source, now).value.hour == 12
  {
    WxReportDate.ReadsFixedPositionsNoMinutes(12, 12, false, now);
    assert Pad2(12) + Pad2(12) == "1212";
  }

  /** `1200` reads as 00:00. */
  lemma MidnightRead(now: Now)
    ensures DayHour("1200", Source, now).Some? && DayHour("1200", Source, now).value.hour == 0
  {
    WxReportDate.ReadsFixedPositionsNoMinutes(12, 0, false, now);
    assert Pad2(12) + Pad2(0) == "1200";
  }

  /**
   * Removing an empty group in mid-report extends the group before it to the
   * end date, over the group that follows: here `MAIN` keeps its wind up to
   * the 12th at 12:00 while `FM` starts on the 12th at 00:00.
   */
  lemma MidRemovalOverlaps(now: Now)
    ensures var chunks := [Chunk("TAF ", Change(AerodromeCode, Some(" 111140Z "), "1112", Some("1212"))),
                           Chunk(" 27010KTX ", Change(Fm, None, "1118", None)),
                           Chunk(" ", Change(Fm, None, "1200", None))];
      var r := TafWinds(chunks, Source, now);
      r.Returns? && |r.value.groups| == 2 && !Contiguous(r.value.groups)
      && r.value.groups[0].dateTo == r.value.groups[1].dateTo
  {
    var chunks := [Chunk("TAF ", Change(AerodromeCode, Some(" 111140Z "), "1112", Some("1212"))),
                   Chunk(" 27010KTX ", Change(Fm, None, "1118", None)),
                   Chunk(" ", Change(Fm, None, "1200", None))];
    var ds := DecodeAll(chunks, Source, now);
    DecodeAllAt(chunks, Source, now, 0);
    DecodeAllAt(chunks, Source, now, 1);
    DecodeAllAt(chunks, Source, now, 2);
    DecodedFields(chunks[0], Source, now);
    DecodedFields(chunks[1], Source, now);
    DecodedFields(chunks[2], Source, now);
    ExampleBodies(now);
    NoonRead(now);
    MidnightRead(now);
    assert |ds| == 3;
    assert ds[0].DecodedChange? && ds[1].DecodedChange? && ds[2].DecodedChange?;
    assert ds[0].header.issueDate.Some? && ds[0].header.isAerodrome;
    assert !ds[1].header.isAerodrome && !ds[2].header.isAerodrome;
    assert Fills(ds[1].body);
    assert !Fills(ds[2].body);
    MidRemovalScan(ds, now);
  }

  /**
   * The loop's variables hold what the scan knows: `i` counts one past the
   * last group once `RMK` has closed it, and until then the last group is
   * still unsettled.
   */
  ghost predicate Mirrors(st: Scan, changeGroups: seq<ChangeGroup<Instant>>, reportDate: Instant, endDate: Instant, i: int) {
    st.groups == changeGroups && st.date == reportDate && st.endDate == endDate
    && i == |changeGroups| + (if st.closed then 1 else 0)
    && (!st.closed && changeGroups != [] ==> changeGroups[|changeGroups| - 1].groups == [])
  }

  /** The group a change anchor opens at the given end date. */
  function Opened(h: Header, endDate: Instant): ChangeGroup<Instant> {
    ChangeGroup(h.kind, h.dateFrom, if h.isAerodrome then h.secondDate else endDate, [])
  }

  /**
   * Lines 56-77 of the loop: a change anchor pushes the group it opens (the
   * aerodrome anchor first moving the end date to its second date), and the
   * group before position `i` then ends where position `i` starts, which
   * throws when position `i` is empty.
   */
  method OpenGroup(changeGroups: seq<ChangeGroup<Instant>>, endDate: Instant, i: nat, a: Anchor, rd: Readers, now: Now)
    returns (r: Outcome<(seq<ChangeGroup<Instant>>, Instant)>)
    requires a.Change?
    ensures var g := Opened(HeaderOf(a, rd, now), endDate);
            var pushed := changeGroups + [g];
            r == if i == 0 then Returns((pushed, g.dateTo))
                 else if i >= |pushed| then Throws
                 else Returns((pushed[i - 1 := pushed[i - 1].(dateTo := pushed[i].dateFrom)], g.dateTo))
  {
    var dateFrom := DayHour(a.from, rd, now);
    var secondDate := DayHour(a.second.GetOr(""), rd, now);
    var endDate' := endDate;
    if a.code.AerodromeCode? {
      endDate' := secondDate;
    }
    var groups := changeGroups + [ChangeGroup(KindOf(a.code, secondDate), dateFrom, endDate', [])];
    if i > 0 {
      if i >= |groups| {
        return Throws;
      }
      groups := groups[i - 1 := groups[i - 1].(dateTo := groups[i].dateFrom)];
    }
    r := Returns((groups, endDate'));
  }

  /**
   * Lines 79-117 of the loop: group `i - 1` (throwing when there is none)
   * gets the sub-groups of the text before the anchor, or is removed when it
   * gets none, the group before it then ending at the end date; the
   * increment of `i` is 1, or 0 after a removal. The group's sub-group list
   * is empty when it is settled, so building the list apart and storing it
   * is the same as pushing into it.
   */
  method SettleGroup(changeGroups: seq<ChangeGroup<Instant>>, i: nat, endDate: Instant, lead: string, rd: Readers, now: Now)
    returns (r: Outcome<(seq<ChangeGroup<Instant>>, nat)>)
    requires i > 0
    requires i - 1 < |changeGroups| ==> changeGroups[i - 1].groups == []
    ensures r.Throws? <==> i - 1 >= |changeGroups|
    ensures r.Returns? ==>
              var g := changeGroups[i - 1];
              r.value.0 == SettleAt(changeGroups, i - 1, BodyOf(lead, rd, now), endDate)
              && r.value.1 == if BodySubgroups(BodyOf(lead, rd, now), g.dateFrom, g.dateTo) != [] then 1 else 0
  {
    if i - 1 >= |changeGroups| {
      return Throws;
    }
    var group := changeGroups[i - 1];
    var groupData := Trim(lead);
    var groups := BuildSubgroups(groupData, group.dateFrom, group.dateTo, rd, now);
    SubgroupsSplit(groupData, group.dateFrom, group.dateTo, rd, now);
    var result := changeGroups[i - 1 := group.(groups := groups)];
    var idxIncrement := 1;
    if |groups| == 0 {
      result := result[..i - 1] + result[i..];
      if i - 1 > 0 {
        result := result[i - 2 := result[i - 2].(dateTo := endDate)];
      }
      idxIncrement := 0;
    }
    r := Returns((result, idxIncrement));
  }

  /** The first match, a change anchor with an issue field, opens the first group and gives the report date. */
  lemma FirstMirrors(st: Scan, h: Header, body: Body)
    requires Mirrors(st, [], st.date, st.endDate, 0) && h.issueDate.Some?
    ensures Step(st, DecodedChange(h, body), true).Returns?
    ensures Mirrors(Step(st, DecodedChange(h, body), true).value, [Opened(h, st.endDate)], h.issueDate.value, Opened(h, st.endDate).dateTo, 1)
  {
    assert st.groups + [Opened(h, st.endDate)] == [Opened(h, st.endDate)];
  }

  /** A later change anchor: the loop's push, date update and settling are the scan's step. */
  lemma ChangeMirrors(st: Scan, h: Header, body: Body, changeGroups: seq<ChangeGroup<Instant>>, i: nat,
                      settled: seq<ChangeGroup<Instant>>, idxIncrement: nat)
    requires Mirrors(st, changeGroups, st.date, st.endDate, i) && i > 0 && !st.closed
    requires var pushed := changeGroups + [Opened(h, st.endDate)];
             var opened' := pushed[i - 1 := pushed[i - 1].(dateTo := pushed[i].dateFrom)];
             settled == SettleAt(opened', i - 1, body, Opened(h, st.endDate).dateTo)
             && idxIncrement == if BodySubgroups(body, opened'[i - 1].dateFrom, opened'[i - 1].dateTo) != [] then 1 else 0
    ensures Step(st, DecodedChange(h, body), false).Returns?
    ensures Mirrors(Step(st, DecodedChange(h, body), false).value, settled, st.date, Opened(h, st.endDate).dateTo, i + idxIncrement)
  {
    var n := |changeGroups| - 1;
    var pushed := changeGroups + [Opened(h, st.endDate)];
    var opened' := pushed[n := pushed[n].(dateTo := pushed[i].dateFrom)];
    assert |settled| >= |opened'| - 1;
    assert settled[|settled| - 1] == Opened(h, st.endDate);
  }

  /** `RMK` after the first match: the loop's settling is the scan's closing step. */
  lemma RmkMirrors(st: Scan, body: Body, changeGroups: seq<ChangeGroup<Instant>>, i: nat,
                   settled: seq<ChangeGroup<Instant>>, idxIncrement: nat)
    requires Mirrors(st, changeGroups, st.date, st.endDate, i) && i > 0 && !st.closed
    requires settled == SettleAt(changeGroups, i - 1, body, st.endDate)
    requires idxIncrement == if BodySubgroups(body, changeGroups[i - 1].dateFrom, changeGroups[i - 1].dateTo) != [] then 1 else 0
    ensures Step(st, DecodedRmk(body), false).Returns?
    ensures Mirrors(Step(st, DecodedRmk(body), false).value, settled, st.date, st.endDate, i + idxIncrement)
  {
  }

  /** The loop's variables. */
  datatype LoopState = LoopState(changeGroups: seq<ChangeGroup<Instant>>, reportDate: Instant, endDate: Instant,
                                 i: nat, idxIncrement: nat)

  /**
   * One pass of the loop body for one anchor match: the opening part for a
   * change anchor, then the settling part (or, on the first pass, the report
   * date), then `i += idxIncrement`. It does what one step of the scan does.
   */
  method Advance(v: LoopState, match_: Chunk, rd: Readers, now: Now, ghost st: Scan) returns (r: Outcome<LoopState>)
    requires Mirrors(st, v.changeGroups, v.reportDate, v.endDate, v.i) && (v.i == 0 ==> v.idxIncrement == 1)
    ensures r.Throws? <==> Step(st, Decode(match_, rd, now), v.i == 0).Throws?
    ensures r.Returns? ==> r.value.i > 0
                           && Mirrors(Step(st, Decode(match_, rd, now), v.i == 0).value, r.value.changeGroups,
                                      r.value.reportDate, r.value.endDate, r.value.i)
  {
    var changeGroups, reportDate, endDate, i, idxIncrement := v.changeGroups, v.reportDate, v.endDate, v.i, v.idxIncrement;
    ghost var body := BodyOf(match_.lead, rd, now);
    assert Decode(match_, rd, now) == if match_.anchor.Rmk? then DecodedRmk(body) else DecodedChange(HeaderOf(match_.anchor, rd, now), body);
    if match_.anchor.Change? {
      var opening := OpenGroup(changeGroups, endDate, i, match_.anchor, rd, now);
      if opening.Throws? {
        return Throws;
      }
      changeGroups, endDate := opening.value.0, opening.value.1;
    }
    if i > 0 {
      var settled := SettleGroup(changeGroups, i, endDate, match_.lead, rd, now);
      if settled.Throws? {
        return Throws;
      }
      if match_.anchor.Change? {
        ChangeMirrors(st, HeaderOf(match_.anchor, rd, now), body, v.changeGroups, i, settled.value.0, settled.value.1);
      } else {
        RmkMirrors(st, body, v.changeGroups, i, settled.value.0, settled.value.1);
      }
      changeGroups, idxIncrement := settled.value.0, settled.value.1;
    } else {
      if match_.anchor.Rmk? || match_.anchor.issue.None? {
        return Throws;
      }
      FirstMirrors(st, HeaderOf(match_.anchor, rd, now), body);
      reportDate := IssueDate(match_.anchor.issue.value, rd, now);
    }
    i := i + idxIncrement;
    r := Returns(LoopState(changeGroups, reportDate, endDate, i, idxIncrement));
  }

  /**
   * `extractWindFromTAF` over the anchor matches: the while loop with its
   * counters `i` and `idxIncrement`, the array pushes and splices, and the
   * reads of `changeGroups[i]`, `changeGroups[i - 1]` and `match[4]` that
   * throw when there is nothing there.
   */
  method ExtractWindFromTaf(chunks: seq<Chunk>, rd: Readers, now: Now) returns (r: Outcome<TafWindSummary<Instant>>)
    ensures r == TafWinds(chunks, rd, now)
  {
    ghost var ds := DecodeAll(chunks, rd, now);
    var scanned := ScanMatches(chunks, rd, now, ds);
    if scanned.Throws? {
      TafWindsThrows(chunks, rd, now, ds, |chunks|);
      return Throws;
    }
    TafWindsReturns(chunks, rd, now, ds, scanned.value);
    r := Returns(TafWindSummary(scanned.value.reportDate, scanned.value.changeGroups));
  }

  /** The while loop itself: it throws when the scan does, and otherwise ends in step with it. */
  method ScanMatches(chunks: seq<Chunk>, rd: Readers, now: Now, ghost ds: seq<Decoded>) returns (r: Outcome<LoopState>)
    requires ds == DecodeAll(chunks, rd, now)
    ensures r.Throws? ==> ScanUpTo(ds, |chunks|, now).Throws?
    ensures r.Returns? ==> Tracks(ScanUpTo(ds, |chunks|, now), |chunks|, r.value)
  {
    var v := LoopState([], Some(now), Some(now), 0, 1);
    TracksStart(ds, now);
    var k := 0;
    while k < |chunks|
      invariant k <= |chunks| && Tracks(ScanUpTo(ds, k, now), k, v)
    {
      var next := AdvanceAt(chunks, rd, now, ds, k, v);
      if next.Throws? {
        return Throws;
      }
      v := next.value;
      k := k + 1;
    }
    r := Returns(v);
  }

  /** The loop's variables after the first `k` matches mirror `scan`, the scan of those matches. */
  ghost predicate Tracks(scan: Outcome<Scan>, k: nat, v: LoopState) {
    scan.Returns? && Mirrors(scan.value, v.changeGroups, v.reportDate, v.endDate, v.i)
    && (k == 0) == (v.i == 0) && (k == 0 ==> v.idxIncrement == 1)
  }

  /** The pass of the loop for match `k`: it throws when the scan does, and otherwise keeps the loop in step with it. */
  method AdvanceAt(chunks: seq<Chunk>, rd: Readers, now: Now, ghost ds: seq<Decoded>, k: nat, v: LoopState) returns (next: Outcome<LoopState>)
    requires ds == DecodeAll(chunks, rd, now) && k < |chunks| && Tracks(ScanUpTo(ds, k, now), k, v)
    ensures next.Throws? ==> ScanUpTo(ds, |chunks|, now).Throws?
    ensures next.Returns? ==> Tracks(ScanUpTo(ds, k + 1, now), k + 1, next.value)
  {
    DecodeAllAt(chunks, rd, now, k);
    ghost var st := ScanUpTo(ds, k, now).value;
    ScanUpToNext(ds, k, now);
    next := Advance(v, chunks[k], rd, now, st);
    if next.Throws? {
      ThrowsStays(ds, k + 1, |chunks|, now);
    }
  }

  /** Before the first match the loop's variables mirror the empty scan. */
  lemma TracksStart(ds: seq<Decoded>, now: Now)
    ensures Tracks(ScanUpTo(ds, 0, now), 0, LoopState([], Some(now), Some(now), 0, 1))
  {
  }

  lemma ScanUpToNext(ds: seq<Decoded>, k: nat, now: Now)
    requires k < |ds| && ScanUpTo(ds, k, now).Returns?
    ensures ScanUpTo(ds, k + 1, now) == Step(ScanUpTo(ds, k, now).value, ds[k], k == 0)
  {
  }

  lemma TafWindsThrows(chunks: seq<Chunk>, rd: Readers, now: Now, ds: seq<Decoded>, k: nat)
    requires ds == DecodeAll(chunks, rd, now) && k <= |chunks| && ScanUpTo(ds, k, now).Throws?
    ensures TafWinds(chunks, rd, now).Throws?
  {
    ThrowsStays(ds, k, |chunks|, now);
  }

  lemma TafWindsReturns(chunks: seq<Chunk>, rd: Readers, now: Now, ds: seq<Decoded>, v: LoopState)
    requires ds == DecodeAll(chunks, rd, now) && Tracks(ScanUpTo(ds, |chunks|, now), |chunks|, v)
    ensures TafWinds(chunks, rd, now) == Returns(TafWindSummary(v.reportDate, v.changeGroups))
  {
  }
}
