# navbrix weather core, modelled in Dafny

This project models the weather core of the navbrix flight-planning API. That core is the code that turns scraped aviation weather into the figures the reports endpoint returns:

- **TAF interpreter** (`Interpreter.extractWindFromTAF`). It cuts a TAF into permanent change groups at the aerodrome code, `FM` and `BECMG`; `RMK` closes the forecast. Each group body is split into `TEMPO`/`PROB30`/`PROB40` sub-groups, and every sub-group gets the first wind token of its window (`_extractWindFromTAF`). Sub-groups without a wind are dropped, and so are groups left without sub-groups.
- **Cleaner**. It picks the TAF group that covers the flight time (`_selectTafGroup`) and ranks the aerodrome winds (`aerodromeWinds`). It filters and ranks METARs (`aerodromeMETAR`, `enrouteMETAR`). For each aerodrome it chooses one upper-wind forecast and reads it at the flight altitude by exact level or linear interpolation (`enrouteUpperWinds`, `_getWindAtAltitude`, `_getTemperatureAtAltitude`, `_findUpperWindIndicesByAltitude`).
- **Date codecs** for the bulletins' time stamps: `extractWxReportDateTime`, `extractGFADateTime`, `utcDateTime` and `extractSearchedPerformedDate`. Each JS `Date` is the record of fields that `Date.UTC` receives. An Invalid Date is `None`. The clock reading `new Date()` is a parameter.
- **Preprocessors** that build the scraper's query from a request (`Processor.preprocessReportsInput`, `Processor.preprocessBriefingInput` and their copies in `src/utils`). A JS `Set` is a sequence without repeats, in insertion order.
- **Request and response schemas** of the reports and briefing endpoints, written as predicates.
- **Pure parts of the reports route**: the set of aerodrome codes it checks, and the takeoff/landing response fields it reads from the top-ranked wind and METAR.

Some code is imperative: the TAF loop with its pushes and splices, the sorts of the caller's array, the `forEach` loops into a `Set`, the `findIndex` callback and the per-aerodrome loop. That code is written as methods with loops, and each method is proved equal to a specification function. The properties are then proved about those functions. A JS `TypeError`, such as reading a field of `undefined`, is the `Throws` case of `Common.Outcome`.

## Model

| member | source | states |
|---|---|---|
| TafWind.ExtractWind | src/scraper/interpreter.ts:142-154 | There is no wind exactly when no position of the text starts a wind token. Otherwise the wind is the token read at some position. |
| TafWind.FirstTokenWins | src/scraper/interpreter.ts:143-145 | The leftmost token is decoded: a token at `k` with none before it gives the result. |
| TafWind.TokenRead | src/scraper/interpreter.ts:143-151 | A token written from a bulletin wind decodes, wherever it stands, to that wind: bearing, `VRB` range, speed, optional gust. |
| TafWind.WindRoundTrip | src/scraper/interpreter.ts:143-151 | Round trip: formatting a bulletin wind as a token and decoding it gives the wind back. |
| TafWind.SurroundingTextIgnored | src/scraper/interpreter.ts:143-144 | Text before the token with no digit and no `V`, and any text after it, do not change the decoded wind. |
| TafWind.VariableWind | src/scraper/interpreter.ts:147-150 | `VRB05KT` decodes to 5 knots, bearing 0, range 360, no gust. |
| TafWind.BearingAbove360Accepted | src/scraper/interpreter.ts:143 | The direction field `[0-3]\d0` admits `370`: `37010KT` decodes to bearing 370. |
| TafWind.ThreeDigitSpeedIgnored | src/scraper/interpreter.ts:143 | The speed field is exactly two digits: `270105KT` decodes to no wind. |
| Interpreter.SpanAt | src/scraper/interpreter.ts:45 | A `TEMPO`/`PROB30`/`PROB40 ddhh/ddhh` span is at least 15 characters long and lies inside the body. |
| Interpreter.NextSpan | src/scraper/interpreter.ts:90 | One `exec` of the span expression finds the leftmost span at or after `lastIndex`. No result means no later position starts a span. |
| Interpreter.BuildSubgroups | src/scraper/interpreter.ts:80-111 | The sub-group loop builds `Subgroups(body)`: a leading `MAIN` and one sub-group per span. Each takes the wind of its window or is removed. The last window stops one character before the end. |
| Interpreter.TakeSpan | src/scraper/interpreter.ts:91-105 | Pushing a span's sub-group and then settling the window before it keeps the settled prefix in step with the specification. |
| Interpreter.GiveWindow | src/scraper/interpreter.ts:100-111 | With a wind, `groups[j]` takes it and `j` moves on. Without one, `groups[j]` is spliced out and the rest shifts left unchanged. |
| Interpreter.KeptFromNext | src/scraper/interpreter.ts:90-106 | One window plus the span after it leaves "settled prefix followed by the rest" unchanged, which is the loop invariant. |
| Interpreter.SubgroupsSplit | src/scraper/interpreter.ts:82-87 | Only the `MAIN` sub-group depends on the group's own bounds. The span sub-groups depend on the body alone. |
| Interpreter.OpenGroup | src/scraper/interpreter.ts:55-77 | A change anchor pushes its group, and the end date becomes that group's end. For `i > 0`, group `i - 1` then ends where group `i` starts, and the call throws when there is no group `i`. |
| Interpreter.SettleGroup | src/scraper/interpreter.ts:79-117 | It throws exactly when group `i - 1` does not exist. Otherwise group `i - 1` gets its sub-groups, or is removed with the previous group's end moved to the end date; the increment is 1 or 0 accordingly. |
| Interpreter.FirstMirrors | src/scraper/interpreter.ts:55-77 | The first match opens the first group, and its issue field gives the report date. |
| Interpreter.ChangeMirrors | src/scraper/interpreter.ts:55-117 | For a later change anchor, the loop's push, date update and settling are one step of the scan. |
| Interpreter.RmkMirrors | src/scraper/interpreter.ts:79-117 | `RMK` after the first match settles the last group and closes the scan. |
| Interpreter.Advance | src/scraper/interpreter.ts:54-121 | One pass of the loop body throws exactly when the scan's step throws. Otherwise it leaves the loop variables describing the step's result. |
| Interpreter.ExtractWindFromTaf | src/scraper/interpreter.ts:39-127 | The loop returns exactly `TafWinds(chunks)`, the fold of the scan over the anchor matches. Every throwing read (`changeGroups[i]`, `changeGroups[i - 1]`, `match[4]`) throws here too. |
| Interpreter.ThrowsStays | src/scraper/interpreter.ts:54-121 | A throw is final: once a prefix of the matches throws, the whole call throws. |
| Interpreter.SettleAtGroups | src/scraper/interpreter.ts:113-117 | Settling group `n` keeps every other group's sub-groups. It gives group `n` its own, or removes it when it has none. |
| Interpreter.StepSettled | src/scraper/interpreter.ts:54-121 | Each step keeps every group but the last settled, and closes the scan exactly on `RMK`. |
| Interpreter.ScanSettled | src/scraper/interpreter.ts:54-121 | Every scan that has not thrown is settled, and it is closed exactly when its last match was `RMK`. |
| Interpreter.TafGroupsSettled | src/scraper/interpreter.ts:39-127 | In a decoded report every group but the last has sub-groups. The last has sub-groups exactly when the report ends with `RMK`. |
| Interpreter.StepKeepsDate | src/scraper/interpreter.ts:79-119 | A step after the first match keeps the report date. |
| Interpreter.ScanKeepsDate | src/scraper/interpreter.ts:54-121 | The report date set by the first match stays through the rest of the scan. |
| Interpreter.FirstScanDate | src/scraper/interpreter.ts:119 | The first match returns only as a change anchor with an issue field, and that field gives the report date. |
| Interpreter.TafWindsDate | src/scraper/interpreter.ts:50-125 | A decoded report's date is the first anchor's issue field (` ddhhmmZ ` or a bare whitespace), read with minutes as a past date. With no match it is the clock reading. |
| Interpreter.BareIssueDate | src/scraper/interpreter.ts:42 | When the issue field is the bare whitespace alternative of match 4, the report date is what the empty text reads as. |
| Interpreter.SettleAtEnds | src/scraper/interpreter.ts:113-117 | Settling a group keeps the last group ending at the end date, whether the group is kept or removed. |
| Interpreter.StepEnds | src/scraper/interpreter.ts:55-117 | One step moves the end date to an aerodrome anchor's second date and otherwise keeps it. The last group ends at the end date before and after. |
| Interpreter.ScanEndsDecoded | src/scraper/interpreter.ts:54-121 | After any number of decoded matches, the end date is the second date of the last aerodrome anchor among them (the clock before one), and the last group ends there. |
| Interpreter.ScanEndsTracked | src/scraper/interpreter.ts:54-121 | By induction on the matches: in every decoded scan that has not thrown, the end date is the second date of the last aerodrome anchor read (`DecodedEndAt`), and the last group ends there. |
| Interpreter.DecodedEndAgrees | src/scraper/interpreter.ts:58-59 | Decoding keeps each aerodrome anchor's second `ddhh` date as the date the end date moves to. |
| Interpreter.ScanEnds | src/scraper/interpreter.ts:54-121 | The same, stated on the anchor matches themselves: the end date is the last aerodrome anchor's second date, and the last group ends there. |
| Interpreter.TafWindsLastEnds | src/scraper/interpreter.ts:59-77 | In a decoded report the last group's `dateTo` is the end date. |
| Interpreter.PushedContiguous | src/scraper/interpreter.ts:61-77 | Pushing a group and setting the previous group's `dateTo` to its `dateFrom` keeps every group ending where the next one starts. |
| Interpreter.SettleJoinedBounds | src/scraper/interpreter.ts:113-116 | Corrected removal (`SettleJoined`): the group before a removed one ends where the group after it starts, or at the end date when none follows. Contiguity and the last group's end are kept. |
| Interpreter.StepJoinedBounds | src/scraper/interpreter.ts:55-117 | With the corrected removal, each step keeps the groups contiguous and the last ending at the end date. |
| Interpreter.ScanJoinedBounds | src/scraper/interpreter.ts:54-121 | With the corrected removal, every scan that has not thrown has contiguous groups, the last ending at the end date. |
| Interpreter.TafWindsJoinedContiguous | src/scraper/interpreter.ts:77 | With the corrected removal, each group of a decoded report ends where the next one starts. |
| Interpreter.StepJoinedAgrees | src/scraper/interpreter.ts:113-117 | The corrected step is the written step whenever no group other than the last is removed. |
| Interpreter.ScanJoinedAgrees | src/scraper/interpreter.ts:54-121 | The corrected scan equals the written scan when the body closed by each later change anchor keeps a sub-group. That body is the previous group's text (`match[1]`). It keeps a sub-group when its first window, or one of its TEMPO/PROB windows, holds a wind token that survives the final `slice(strIndex, -1)`. The last group's body is not constrained. |
| Interpreter.TafWindsContiguous | src/scraper/interpreter.ts:77 | As written, the groups are contiguous when the body closed by each later change anchor keeps a sub-group, so that no group before the last is removed. The body is the text before that anchor (`match[1]`). It keeps a sub-group when its first window, or one of its TEMPO/PROB windows, holds a wind token that survives the final `slice(strIndex, -1)`. |
| Interpreter.MidRemovalScan | src/scraper/interpreter.ts:113-116 | As written, when the middle of three groups is removed, the first group's `dateTo` becomes the end date, the same as the last group's. |
| Interpreter.MidRemovalOverlaps | src/scraper/interpreter.ts:115 | A report with an empty `FM` group between two groups decodes to two groups that both end at the end date, so they are not contiguous. |
| TafSelect.FirstHolding | src/scraper/cleaner.ts:266-280 | `findIndex`: the first group whose period holds the instant. For `BECMG` that is its transition or `[transitionDate, dateTo)`. |
| TafSelect.FirstCovering | src/scraper/cleaner.ts:294-296 | The first non-`MAIN` sub-group whose closed period holds the instant, and no earlier one does. |
| TafSelect.SelectsFirstCovering | src/scraper/cleaner.ts:294-306 | Within the forecast, the first holding group and, in it, the first `TEMPO`/`PROB` sub-group holding the instant give the wind. |
| TafSelect.SelectsFirstSubgroup | src/scraper/cleaner.ts:297-306 | When no `TEMPO`/`PROB` sub-group holds the instant, the group's first sub-group gives the wind. |
| TafSelect.BecmgYieldsToStrongerPrevious | src/scraper/cleaner.ts:267-293 | A `BECMG` group in transition whose predecessor blows stronger (gust, else speed) yields the predecessor's first sub-group wind, from its start up to the transition date. |
| TafSelect.BecmgKeepsOwnWind | src/scraper/cleaner.ts:267-306 | A `BECMG` group in transition whose predecessor is not stronger keeps its own sub-groups. |
| TafSelect.FallsBackToBoundary | src/scraper/cleaner.ts:309-320 | Outside the forecast, or with no holding group, the wind is the first sub-group of the first group when the flight comes earlier, and otherwise the last sub-group of the last group. |
| TafSelect.SelectionReturns | src/scraper/cleaner.ts:263-322 | The selection does not throw when every group has sub-groups and the first group is not a `BECMG` in transition. |
| TafSelect.SelectedWindIsForecast | src/scraper/cleaner.ts:263-322 | The selected wind is the wind of a sub-group of the forecast. |
| Altitude.FirstAbove | src/scraper/cleaner.ts:249-253 | `findIndex` of the first level above the altitude, or -1 when every level is at or below it. |
| Altitude.LastBelow | src/scraper/cleaner.ts:250 | The callback's `lowerIndex`: the last level visited that lies below the altitude, or -1. |
| Altitude.LastAt | src/scraper/cleaner.ts:251 | The callback's `actualIndex`: the last level visited that lies at the altitude, or -1. |
| Altitude.FindUpperWindIndicesByAltitude | src/scraper/cleaner.ts:245-261 | The loop with its callback side effects returns `IndicesByAltitude`: the found indices, or the edge pair, or `(-1, 0, -1)` for fewer than two levels. |
| Altitude.IndicesInRange | src/scraper/cleaner.ts:245-261 | With two levels or more, every reported index is a level or -1, the exact index lies at the altitude, and a reported bracket is two different levels. |
| Altitude.ExactLevelFound | src/scraper/cleaner.ts:251-256 | On an ascending grid, a level at the altitude is reported as the exact one. |
| Altitude.BracketFound | src/scraper/cleaner.ts:250-256 | On an ascending grid, an altitude strictly between two neighbouring levels is bracketed by them. |
| Altitude.BelowGrid | src/scraper/cleaner.ts:260 | Below every level, the two lowest levels are reported. |
| Altitude.AboveGrid | src/scraper/cleaner.ts:258 | Above every level, the two highest levels are reported. |
| Altitude.InterpolateEndpoints | src/scraper/cleaner.ts:203-210 | The slope/intercept line passes through both of its levels. |
| Altitude.InterpolateBetween | src/scraper/cleaner.ts:235-238 | Between its two levels the line stays between their values. |
| Altitude.FilterKeepsOrder | src/scraper/cleaner.ts:180 | Filtering the levels keeps only input levels, in order, and keeps the grid ascending and its altitudes distinct. |
| Altitude.WindLevels | src/scraper/cleaner.ts:180 | Every kept level carries a wind, and the kept levels stay ascending. |
| Altitude.TemperatureLevels | src/scraper/cleaner.ts:219 | Every kept level carries a non-zero temperature, and the kept levels stay ascending. |
| Altitude.NoWindLevels | src/scraper/cleaner.ts:180-181 | A forecast without wind levels gives no wind. |
| Altitude.WindAtLevel | src/scraper/cleaner.ts:188-193 | At a level's altitude the wind is that level's wind, with each zero component read as 1. |
| Altitude.WindBetweenLevels | src/scraper/cleaner.ts:195-211 | Between two neighbouring wind levels the wind lies on the line through them. |
| Altitude.WindBelowLevels | src/scraper/cleaner.ts:195-211 | Below the lowest wind level, the line through the two lowest is extended. |
| Altitude.WindAboveLevels | src/scraper/cleaner.ts:195-211 | Above the highest wind level, the line through the two highest is extended. |
| Altitude.SingleWindLevel | src/scraper/cleaner.ts:182-185 | With a single wind level, its wind holds at every altitude. |
| Altitude.NoTemperatureLevels | src/scraper/cleaner.ts:219-220 | A forecast without non-zero temperature levels gives no temperature. |
| Altitude.SingleTemperatureLevel | src/scraper/cleaner.ts:221 | With a single temperature level, its temperature holds at every altitude. |
| Altitude.TemperatureAtLevel | src/scraper/cleaner.ts:223-225 | At a temperature level's altitude the temperature is that level's. |
| Altitude.TemperatureBetweenLevels | src/scraper/cleaner.ts:227-238 | Between two neighbouring temperature levels, the temperature lies on the line through them, which passes through both, so it lies between their temperatures. |
| Altitude.TemperatureBelowLevels | src/scraper/cleaner.ts:223-238 | Below the lowest temperature level, the line through the two lowest is extended. |
| Altitude.TemperatureAboveLevels | src/scraper/cleaner.ts:223-238 | Above the highest temperature level, the line through the two highest is extended. |
| Altitude.ZeroTemperatureIgnored | src/scraper/cleaner.ts:219-221 | A temperature of exactly 0 is falsy and is skipped: the one non-zero level's temperature holds everywhere. |
| Cleaner.AerodromeWinds | src/scraper/cleaner.ts:84-109 | It sorts the caller's array in place by the comparator. The result is the `map` over the sorted array, and it throws when any selection throws. |
| Cleaner.AerodromeWindsRanked | src/scraper/cleaner.ts:85-106 | The sorted array is a permutation with within-forecast items first and, among equal flags, nearer first. There is one record per item, in that order, numbered 1 to n. |
| Cleaner.GustFactorAddsUp | src/scraper/cleaner.ts:101-102 | Speed plus gust factor is the gust when it is truthy, and the speed otherwise. |
| Cleaner.MetarsRanked | src/scraper/cleaner.ts:112-127 | Filter, sort and number keep each passing record exactly as often as it occurs. They order the records nearer first, then newer first, and number them 1 to n. |
| Cleaner.AerodromeMetarKeeps | src/scraper/cleaner.ts:111-119 | `aerodromeMETAR` keeps exactly the records whose temperature and altimeter are present and non-zero. |
| Cleaner.EnrouteMetarKeeps | src/scraper/cleaner.ts:121-129 | `enrouteMETAR` keeps exactly the records whose altimeter is present and non-zero. |
| Cleaner.ZeroTemperatureDropped | src/scraper/cleaner.ts:112 | A temperature of exactly 0 is falsy, so such a record is dropped. |
| Cleaner.FirstWithin | src/scraper/cleaner.ts:151 | `find`: the first forecast within the flight time, and none before it. |
| Cleaner.Choose | src/scraper/cleaner.ts:151-159 | The chosen forecast is one of the aerodrome's forecasts. |
| Cleaner.ForecastsMembers | src/scraper/cleaner.ts:143-149 | An aerodrome's forecasts are exactly its records. |
| Cleaner.CodeHasForecasts | src/scraper/cleaner.ts:142-156 | Every aerodrome of the data has a forecast, so `aerodromeData[0]` exists. |
| Cleaner.ForecastsAscending | src/scraper/cleaner.ts:145-149 | An aerodrome's forecasts come earliest `dateFrom` first. |
| Cleaner.ChosenWithin | src/scraper/cleaner.ts:151-154 | When some forecast holds the flight, the chosen one holds it and starts first among those. |
| Cleaner.ChosenBefore | src/scraper/cleaner.ts:156-157 | When none holds it and the flight comes before the first forecast, the chosen forecast starts earliest. |
| Cleaner.ChosenAfter | src/scraper/cleaner.ts:158 | Otherwise the chosen forecast starts latest. |
| Cleaner.EntryFor | src/scraper/cleaner.ts:143-172 | An aerodrome's record carries its code and its `order`. |
| Cleaner.UpperWindsOf | src/scraper/cleaner.ts:140-176 | There is one record per distinct aerodrome code. Record `k` is the `k`-th code's record, numbered `k + 1`. |
| Cleaner.EnrouteUpperWinds | src/scraper/cleaner.ts:131-177 | It sorts the caller's array by distance in place, keeps every forecast usable, and returns `UpperWindsOf` of the sorted array. |
| Cleaner.CollectUpperWinds | src/scraper/cleaner.ts:140-176 | The `for … of` loop over the `Set` pushes, for each distinct code in first-seen order, its record with the running `order`. |
| Cleaner.UpperWindFor | src/scraper/cleaner.ts:143-172 | One pass of the loop: filter, sort, choose, and read at the altitude give the aerodrome's record. |
| Cleaner.UpperWindsPerAerodrome | src/scraper/cleaner.ts:133-176 | Each distinct aerodrome code gets exactly one record, no code twice, numbered 1 to k. |
| Cleaner.UpperWindsByDistance | src/scraper/cleaner.ts:133-137 | Nearest aerodrome first: an earlier record's aerodrome first appears no farther away than a later one's. |
| Processor.AddCodes | src/scraper/processor.ts:16 | `forEach(add)` into the `Set` inserts the mapped codes in order, each only if new. |
| Processor.AddLegCodes | src/scraper/processor.ts:22-25 | Per leg, the METAR codes, then the upper-wind codes, are inserted. |
| Processor.AddStopCodes | src/scraper/processor.ts:44-49 | Per stop, its aerodrome codes are inserted. |
| Processor.AddSection | src/scraper/processor.ts:13-18 | A takeoff or landing section adds `TAF` and `METAR` and inserts its TAF, then its METAR, codes. |
| Processor.AddEnroute | src/scraper/processor.ts:19-26 | The enroute section adds `TAF` and `Upper Wind` and inserts the legs' codes. |
| Processor.AddedInTurn | src/scraper/processor.ts:10-32 | Inserting three lists in turn into an empty `Set` is the distinct values of their concatenation. |
| Processor.PreprocessReportsInput | src/scraper/processor.ts:9-38 | It returns the space-joined distinct codes of takeoff, enroute and landing, and the report types in insertion order. |
| Processor.PreprocessBriefingInput | src/scraper/processor.ts:40-52 | It returns the space-joined distinct codes of departure, arrival, legs and diversions. |
| Processor.RequestedTypesByPresence | src/scraper/processor.ts:11-32 | `TAF` is requested iff any section is present, `METAR` iff takeoff or landing is, `Upper Wind` iff enroute is. Each type appears once. |
| Processor.EmptyReportsRequest | src/scraper/processor.ts:9-38 | A request without sections gives the empty code string and no report types. |
| Processor.LegsCodesValid | src/schemas/report.schema.ts:4-41 | Every code in the legs of a valid request passes the code rule. |
| Processor.SectionCodesValid | src/schemas/report.schema.ts:4-29 | Every code of a valid takeoff or landing section passes the code rule. |
| Processor.ReportCodesRoundTrip | src/scraper/processor.ts:34 | For a valid request, the code string splits back at spaces into the request's codes, each once, in first-seen order. |
| Processor.BriefingHead | src/scraper/processor.ts:41-43 | The briefing codes start with the departure, then the arrival unless it equals the departure. |
| Processor.BriefingCodesOnce | src/scraper/processor.ts:41-51 | Every briefing code appears exactly once, in first-seen order. |
| Processor.BriefingStartsWithDeparture | src/scraper/processor.ts:42-51 | The briefing string starts with the departure code, followed by a space or the end. |
| PreprocessUtils.PreprocessReportsInput | src/utils/preprocessReportsInput.ts:6-35 | The `src/utils` copy returns the same result as `Processor.preprocessReportsInput`. |
| PreprocessUtils.PreprocessBriefingInput | src/utils/preprocessBriefingInput.ts:4-16 | The `src/utils` copy returns the same string as `Processor.preprocessBriefingInput`. |
| OrderedSet.InsertAllMembers | src/scraper/processor.ts:10-32 | After inserts, the `Set` holds exactly what it held plus what was added. |
| OrderedSet.InsertAllNoDup | src/scraper/processor.ts:10-32 | A `Set` never holds a value twice. |
| OrderedSet.InsertAllAppend | src/scraper/processor.ts:16-17 | Adding one list and then another equals adding their concatenation. |
| OrderedSet.DistinctMembers | src/scraper/processor.ts:34 | `Array.from(set)` holds every added value exactly once. |
| OrderedSet.DistinctFirstSeenOrder | src/scraper/processor.ts:34 | `Array.from(set)` lists values in the order of their first insertion. |
| Text.ParseDigits | src/utils/extractWxReportDateTime.ts:3-5 | `parseInt` of a non-empty run of decimal digits is its decimal value. |
| Text.ParseHex | src/utils/extractGFADateTime.ts:4-6 | Without a radix, `parseInt` of `0x` or `0X` followed by hexadecimal digits is their hexadecimal value. |
| Text.HexPrefixRead | src/utils/extractWxReportDateTime.ts:3-5 | `0x1F` reads as 31, and `0x` with no digit after it is `NaN`. |
| Text.SplitJoin | src/scraper/processor.ts:34 | Splitting a join at the separator gives the pieces back when no piece contains it. |
| Text.JoinStartsWith | src/scraper/processor.ts:51 | A join starts with its first piece, followed by the separator or the end. |
| Lists.FilterMultiset | src/scraper/cleaner.ts:112 | `filter` keeps every passing element exactly as often as it occurs, and no other element. |
| Sorting.SortBySortsAndPermutes | src/scraper/cleaner.ts:85-91 | The stable sort returns a permutation of its input, ordered by the comparator's key. |
| Sorting.InsertSortedStable | src/scraper/cleaner.ts:85-91 | Inserting an element places it after every element whose key equals its own. |
| Sorting.SortByStable | src/scraper/cleaner.ts:85-91 | The sort is stable: the elements of any one key keep their input order. |
| Sorting.SortInPlace | src/scraper/cleaner.ts:133-137 | `data.sort(comparator)` on the caller's array leaves exactly the specified sort of the old contents. |
| ReportsRoute.AddSectionCodes | src/routes/reports.routes.ts:36-43 | A section's TAF codes, then its METAR codes, are inserted into `aerodromesSet`. |
| ReportsRoute.CollectAerodromes | src/routes/reports.routes.ts:35-49 | `aerodromesSet` is the distinct codes of takeoff, then landing, then enroute. |
| ReportsRoute.CheckedCodesAreRequested | src/routes/reports.routes.ts:35-49 | The route checks exactly the codes the preprocessor sends: same values, each once, equally many. |
| ReportsRoute.MagnitudeIsGustOrSpeed | src/routes/reports.routes.ts:98 | `wind_magnitude_knot` is the selected wind's gust when truthy, and its speed otherwise. The direction fields are the selected wind's. |
| ReportsRoute.DirectionCases | src/routes/reports.routes.ts:101-106 | The direction is absent iff calm, 0 iff variable and not calm, and 360 iff a steady bearing of 000 or 360. |
| ReportsRoute.DerivedWindValid | src/routes/reports.routes.ts:101-106 | A reportable wind gives wind fields that pass the response schema once 0 is allowed for a variable wind. |
| ReportsRoute.AsWrittenRejectsVariableWind | src/schemas/report.schema.ts:58-66 | Against the schema as written, a reportable wind's direction fails exactly when the wind is variable and not calm. |
| ReportsRoute.VariableWindResponseRejected | src/routes/reports.routes.ts:101-106 | `VRB05KT` is reported with direction 0, which the written schema rejects. |
| ReportsRoute.PhaseWeatherValid | src/routes/reports.routes.ts:97-107 | Reading `[0]` of an empty wind or METAR list throws. Otherwise a reportable top wind and an in-range top METAR give a valid response. |
| ReportsRoute.TopMetarHasReadings | src/routes/reports.routes.ts:89-100 | The top METAR the response reads is an input record whose temperature and altimeter are present and non-zero. |
| ReportsRoute.UnreadMetarsThrow | src/routes/reports.routes.ts:89-100 | With no temperature read, `aerodromeMETAR` is empty and building the phase's response throws. |
| Schemas.ValidCodeIsWord | src/schemas/report.schema.ts:5-14 | A valid code is non-empty and holds no space. |
| Schemas.CodeSamples | src/schemas/briefing.schema.ts:5-14 | 2 and 12 characters pass; 1 and 13 characters, a space and a dot fail. |
| Schemas.DirectionBounds | src/schemas/report.schema.ts:58-66 | The written direction rule is the corrected rule minus the value 0. |
| WxReportDate.ExtractWxReportDateTime | src/utils/extractWxReportDateTime.ts:2-33 | A valid result has month 0..11 and second 0, and minute 0 without minutes. A forward stamp falls in this month or the next; a past stamp falls in this month or the previous. |
| WxReportDate.RollStamp | src/utils/extractWxReportDateTime.ts:14-32 | It keeps day, hour and minute. The month moves forward exactly when the day is already past, or back exactly when it is still to come, and the year carries. |
| WxReportDate.DigitFields | src/utils/extractWxReportDateTime.ts:3-6 | On a run of digits, the day, hour and minute are characters 0-1, 2-3 and the rest. |
| WxReportDate.ReadsFixedPositions | src/utils/extractWxReportDateTime.ts:3-6 | `ddhhmm` is read back as that day, hour and minute. |
| WxReportDate.ReadsFixedPositionsNoMinutes | src/utils/extractWxReportDateTime.ts:3-5 | `ddhh` without minutes is read as that day and hour at minute 0. |
| DateCodec.MonthCarry | src/utils/extractWxReportDateTime.ts:19-22 | Month 12 of one year is January of the next, so the explicit rollover agrees with `Date.UTC`. |
| GfaDate.ExtractGfaDateTime | src/utils/extractGFADateTime.ts:2-22 | It throws exactly when the text has no space. A valid result rolls forward: this month, or the next when the day has passed. |
| GfaDate.DecodePieces | src/utils/extractGFADateTime.ts:4-21 | The day and `HHMM` pieces give a date whose month moves forward exactly when the day has passed. |
| GfaDate.SplitHasSpace | src/utils/extractGFADateTime.ts:3-4 | `split(' ')` gives a second piece exactly when there is a space. |
| GfaDate.FieldsParse | src/utils/extractGFADateTime.ts:4-6 | Each field of `dd HHMM` parses to its decimal value. |
| GfaDate.GfaDigits | src/utils/extractGFADateTime.ts:2-22 | `dd HHMM` gives the forward-rolled date of that day, hour and minute. |
| GfaDate.AgreesWithReportStamp | src/utils/extractGFADateTime.ts:14-21 | `dd HHMM` decodes to the same date as the forward report stamp `ddHHMM`. |
| UtcDate.UtcDateTime | src/utils/utcDateTime.ts:2-18 | It accepts exactly the strings matching the anchored `YYYY-MM-DD HH:MM` layout, reads their fields and sets second 0. |
| UtcDate.UtcRoundTrip | src/utils/utcDateTime.ts:3-15 | Fields written in the layout read back unchanged. |
| UtcDate.UtcFormatsBack | src/utils/utcDateTime.ts:3-15 | An accepted string is exactly the layout of the fields read from it. |
| UtcDate.UtcRejectsSeconds | src/utils/utcDateTime.ts:3 | A trailing seconds field is refused. |
| FullStamp.ReadFields | src/utils/utcDateTime.ts:5-13 | The split-and-parse of a stamp of the layout gives its fields, with the month stored as `MM - 1`. |
| FullStamp.ReadFormat | src/utils/extractSearchedPerformedDate.ts:7-16 | Reading a formatted date gives the date back. |
| FullStamp.FormatRead | src/utils/extractSearchedPerformedDate.ts:7-16 | Formatting what was read gives the stamp back. |
| SearchedDate.FindStamp | src/utils/extractSearchedPerformedDate.ts:5 | The unanchored match finds the leftmost position where a stamp with seconds starts. |
| SearchedDate.ExtractSearchedPerformedDate | src/utils/extractSearchedPerformedDate.ts:3-21 | `null` exactly when the trimmed text holds no stamp. Otherwise the fields of the first stamp. |
| SearchedDate.FirstStampAfter | src/utils/extractSearchedPerformedDate.ts:5 | A stamp with no digit before it is the one found. |
| SearchedDate.TrimAround | src/utils/extractSearchedPerformedDate.ts:4 | Trimming the text leaves an embedded stamp whole. |
| SearchedDate.SurroundingTextIgnored | src/utils/extractSearchedPerformedDate.ts:3-19 | Digit-free text before a stamp, and any text after it, give the stamp's own date. |

## Left out

- The lexing of a TAF into permanent change-group matches (the anchor regular expression) is left out. Its successive matches (`Interpreter.Chunk`) are the input; everything after them is modelled on strings.
- `Interpreter.extractAltimeterFromMETAR`, `extractTemperatureFromMETAR` and `readUpperWinds` have empty bodies in the source and return `undefined`. `ReportsRoute.UnreadMetarsThrow` states the consequence for the route.
- Numbers are integers or `real`. IEEE floating point, `NaN` arithmetic and `Infinity` are not modelled.
- In the date codecs and the TAF interpreter, a `Date` is the field record that `Date.UTC` receives. Normalisation of day, hour and minute overflow into the following units is only modelled as far as `DateCodec.UtcMillis` goes.
- The group selector (`TafSelect`) and the cleaner take their instants as integer milliseconds, that is, as valid dates already converted by `getTime()`. No lemma connects them to the decoders' field records. Comparisons with an Invalid Date, whose time is `NaN` and which compare false, are not modelled there.
- The clock is a parameter: `new Date()` is the `now` argument.
- Altitude.WindAtAltitude: the requires excludes every grid with a repeated altitude. The source divides by zero (`Infinity`/`NaN`, which `real` cannot express) only when the two levels it interpolates between share an altitude. A level below and a level above the altitude never share one, so only the two extrapolating returns of `_findUpperWindIndicesByAltitude` (src/scraper/cleaner.ts:258-260) can lead there. Grids with a repeated altitude that do not reach that division are left out as well.
- Altitude.TemperatureAtAltitude: the requires excludes every grid with a repeated altitude, as for `WindAtAltitude`. The source divides by zero only when the two temperature levels it interpolates between share an altitude.
- Cleaner.EnrouteUpperWinds: the requires excludes every forecast with a repeated altitude, because it reads the wind and temperature through `WindAtAltitude` and `TemperatureAtAltitude`. The source divides by zero only for the grids described there.
- ReportsRoute.DerivedWindValid: requires a bearing of at most 360, because the wind grammar admits 370 to 390 (`TafWind.BearingAbove360Accepted`) and the response would then fail the schema.
- The METAR comparator returns 0 instead of 1 when the first record is older. The model sorts with the consistent comparator (nearer first, then newer first). The order the engine would give to such pairs is not modelled.
- The JS sort is modelled as a stable insertion sort: it is ordered and a permutation (`Sorting.SortBySortsAndPermutes`), and it is stable (`Sorting.SortByStable`). Any stable sort gives the same result for a consistent comparator.
- The `.datetime()` check of the schemas is the `isDateTime` parameter, not a model of the ISO-8601 grammar.
- The route's database lookup of the codes (`getOfficialAerodromes`), its future-date check and the scraper run are I/O and are left out. The route is modelled only in its code collection and response fields.
- `Processor.postprocessScrapedRreport` is not part of this model (it is not in the source files modelled), and neither is the route's enroute section.
- `src/routes/briefings.routes.ts`, the services, middleware and startup code are not part of this model.

## Findings

| source | as written | input that shows it | evidently intended | confidence | as-written member | corrected member |
|---|---|---|---|---|---|---|
| src/schemas/report.schema.ts:63-65 | The response schema accepts a wind direction only in 1..360, but the route reports a variable wind as direction 0 (src/routes/reports.routes.ts:101-106). The route imports the schema (src/routes/reports.routes.ts:11) but never applies it to the response, so the mismatch stays silent. | A TAF wind `VRB05KT`: 5 knots with a 360° range gives `wind_direction: 0`, which fails `.min(1)`. | 0 marks a variable wind, since a bearing of 000 is already reported as 360, so the schema should accept 0..360. | not executed | ReportsRoute.VariableWindResponseRejected | ReportsRoute.DerivedWindValid |
| src/scraper/interpreter.ts:115 | When a group without any wind is removed, the group before it gets `dateTo = endDate`. If a group follows, the earlier group then overlaps it, and `_selectTafGroup` (src/scraper/cleaner.ts:266-280) picks the earlier group for instants in the later one. | For the aerodrome `CYXX`, the text `TAF CYXX 111140Z 1112/1212 27010KTX FM111800 FM120000`. The aerodrome group's body `27010KTX` keeps the wind `27010KT` after `slice(strIndex, -1)`. The `FM111800` group has the body ` ` and is removed. The aerodrome group then ends at 12 12:00, like the `FM120000` group that starts at 12 00:00. | The earlier group ends where the next group starts (line 77), or at the end date when none follows. | not executed | Interpreter.MidRemovalOverlaps | Interpreter.TafWindsJoinedContiguous |
