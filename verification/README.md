# Timing, queueing and routing of a rundown client, in Dafny

A model of the logic in Sofie Core that decides what a show operator sees and what a playout
client does: how long the show has left, when each part comes up, what is drawn where, in which order
methods reach the server, what time it is, and on which layers the timeline plays.

| file | models |
|---|---|
| `TimingModel.dfy`, `TimingTracks.dfy` | the data of a rundown playlist; what each part adds to each accumulator of `updateDurations`, and each accumulator as a recursion of its own |
| `TimingCalculator.dfy` | `RundownTimingCalculator`, a class whose maps are reused from call to call, proved equal to those functions |
| `TimingConservation.dfy`, `TimingEvolution.dfy`, `TimingWaits.dfy`, `TimingHistory.dfy`, `TimingBeforeAir.dfy`, `TimingReadout.dfy` | the laws of the timing engine, and the over/under readout |
| `TimingSelection.dfy`, `TimingLives.dfy`, `TimingTables.dfy` | which parts count, what a part is worth from waiting to handed over, and how parts stand to each other: pools, starts, anchors, budgets |
| `ShowBreaks.dfy` | the cached search for the next show break |
| `SegmentDurations.dfy`, `PieceCropping.dfy` | `getResolvedSegment`: display-duration pools, starts, and the cropping of pieces in place |
| `Decimal.dfy`, `Timecode.dfy` | `formatDiffToTimecode` and a reader for what it prints |
| `PartInstanceMerge.dfy` | parts and part instances of each segment |
| `MethodQueue.dfy` | `MeteorApply`, with its re-entrant warnings, as a state machine and as a class |
| `ClockSync.dfy` | `updateDiffTime`, `getCurrentTime` and `TimeJumpDetector` over arbitrary drifting clocks |
| `Routing.dfy` | active routes, routed mappings and the routed timeline |
| `StableSort.dfy`, `Adlibs.dfy` | sorting, and the canonical order of adlibs |
| `JsValues.dfy` | optional values, and `||` on numbers, for which 0 counts as absent |

Times are integers of milliseconds, except in `ClockSync.dfy`, where they are reals.

What the proofs found, where the code does not do quite what its comments or names suggest:

- **Clock quality.** `stdDev` plus assumed drift since the last sync does not bound the error of `diff`: the
  drift during the round trip comes on top. `WorstCase` gives the exact bound for every round trip,
  `NoConstantWillDo` a run that defeats any constant (the updates of the startup fail, and a later one is answered
  slowly), and `SyncIsSound` proves the bound that holds in every run.
- **Overlapping syncs.** A plain reply is judged by what was known when it was asked for. The first two updates of a
  client both ask while nothing is known, so the second reply can replace a better measurement by a worse one
  (`PlainReplyKeepsQuality`, an exact condition; `WorseReplyWins`, a run in which requests are answered in order).
  Without another reply in between it cannot (`UndisturbedReplyKeepsQuality`).
- **Warnings about warnings.** The flag that stops warnings is set only after the logger has been called, and the
  logger sends a method; so one warning can start two cool-down timers (`TwoCoolDowns`, an exact condition;
  `TwoCoolDownsHappen`, a run).
- **Timecode with hidden hours.** A carry folds the minutes modulo 60 and drops hours that are not shown
  (`TimecodeIsFaithful`, an exact condition; `HiddenHoursLoseAnHour`).
- **Show breaks.** The cache key holds the break flags, but neither the current rundown nor the rundowns
  themselves. `LastAnswerIsRight` says, for any sequence of calls, exactly when the cached answer is right;
  `CacheGoesStale` and `CacheMissesReplacement` are the two ways in which it is not.
- **Parts on air.** A part that is taken keeps all its values, but may be drawn at another width
  (`TakenPartMayBeRedrawn`, an exact condition): one shorter than the default shrinks to its own length. And a part
  whose stop is planned counts as having nothing left at once, whenever it is to stop, since the stopgap duration is
  start less stop (`StopIsPlanned`).
- **Route ids.** Distinct ids stay distinct exactly if no object already has an id that routing gives to another
  (`RoutedIdsAreDistinct`); the id `_1_x` beside an object `x` with two routes is such a case (`MarkedIdsCollide`).

## Model

| member | source | states |
|---|---|---|
| TimingCalculator.RundownTimingCalculator.constructor | meteor/client/lib/rundownTiming.ts:48-76 | a new calculator has empty part maps, no remembered next segment and no cached breaks |
| TimingCalculator.RundownTimingCalculator.UpdateDurations | meteor/client/lib/rundownTiming.ts:93-657 | the whole state after a call, and its context with the countdown record, are those of the walk specified part by part, for any state before it; without a playlist the part maps, next segment and breaks survive and all else is empty |
| TimingCalculator.RundownTimingCalculator.UpdateShow | meteor/client/lib/rundownTiming.ts:143-657 | the same for a call with a playlist, breaks included |
| TimingCalculator.RundownTimingCalculator.UpdateBreaks | meteor/client/lib/rundownTiming.ts:144-149 | breaks are only looked at, and their cache only touched, with a current rundown |
| TimingCalculator.RundownTimingCalculator.AnswerShow | meteor/client/lib/rundownTiming.ts:151-657 | all but the breaks: the fields and the context are those of the walk from what earlier calls left |
| TimingCalculator.RundownTimingCalculator.CollectBudgets | meteor/client/lib/rundownTiming.ts:155-165 | segment budgets are the sums specified by `Budgets` |
| TimingCalculator.RundownTimingCalculator.CollectSegmentStarts | meteor/client/lib/rundownTiming.ts:167-171 | the start of a segment is that of its last entry part with a reported start |
| TimingCalculator.RundownTimingCalculator.SelectPart | meteor/client/lib/rundownTiming.ts:191-198 | next is looked for before current, and a later match replaces an earlier one |
| TimingCalculator.RundownTimingCalculator.EnterSegment | meteor/client/lib/rundownTiming.ts:178-186 | a new segment waits out the rest of the budget before it and starts with its own |
| TimingCalculator.RundownTimingCalculator.JoinGroup | meteor/client/lib/rundownTiming.ts:236-272 | a part that is floated, untimed or alone does not pool; any other member gets its share of the pool it has added to |
| TimingCalculator.RundownTimingCalculator.TimePart | meteor/client/lib/rundownTiming.ts:274-339 | every variant of a part's duration, and what is left of the current part and of the budget, for parts on air, played and to come |
| TimingCalculator.RundownTimingCalculator.AddAsPlayed | meteor/client/lib/rundownTiming.ts:346-382 | as-played time goes to the total and the rundown, or, in a budget segment, only to the segment |
| TimingCalculator.RundownTimingCalculator.AddTo | meteor/client/lib/rundownTiming.ts:360-366 | a missing or zero entry is set, any other added to: either way it grows by the value |
| TimingCalculator.RundownTimingCalculator.AddAsDisplayed | meteor/client/lib/rundownTiming.ts:388-403 | as-displayed counts all parts |
| TimingCalculator.RundownTimingCalculator.AddRemaining | meteor/client/lib/rundownTiming.ts:459-485 | what remains: unplayed counting parts, and the rest of the part on air |
| TimingCalculator.RundownTimingCalculator.AddToSums | meteor/client/lib/rundownTiming.ts:218-220 | planned, remaining, as-played and as-displayed are each taken one part further |
| TimingCalculator.RundownTimingCalculator.LeaveGroup | meteor/client/lib/rundownTiming.ts:416-426 | a member that counts, was played or has a planned stop, and is not invalid, takes what it shows out of the pool |
| TimingCalculator.RundownTimingCalculator.RecordPart | meteor/client/lib/rundownTiming.ts:428-435 | all seven tables are set under the part's key, and the running starts advance by what was recorded |
| TimingCalculator.RundownTimingCalculator.PartCounts | meteor/client/lib/rundownTiming.ts:200-204 | the test on indices only depends on whether current or next has been found yet |
| TimingCalculator.RundownTimingCalculator.AddWait | meteor/client/lib/rundownTiming.ts:437-457 | the wait grows by the part's, but in a budget segment by no more than is left of the budget |
| TimingCalculator.RundownTimingCalculator.TimeAndRecord | meteor/client/lib/rundownTiming.ts:274-457 | timing, pool, tables and waits of one part together |
| TimingCalculator.RundownTimingCalculator.WalkPart | meteor/client/lib/rundownTiming.ts:173-494 | one round of the loop is one `Step` of all twelve accumulators |
| TimingCalculator.RundownTimingCalculator.WalkParts | meteor/client/lib/rundownTiming.ts:173-494 | the loop computes every accumulator's own recursion |
| TimingCalculator.RundownTimingCalculator.WalkOn | meteor/client/lib/rundownTiming.ts:173-494 | each round takes all of them one part further |
| TimingTracks.OrderShape | meteor/client/lib/rundownTiming.ts:191-198 | the indices found are those of the current and the next part, they differ, and the live segment is the current part's |
| TimingTracks.LinearEntry | meteor/client/lib/rundownTiming.ts:188-189 | each part is recorded with the wait before it |
| TimingTracks.WalkStep | meteor/client/lib/rundownTiming.ts:173-494 | twelve separate recursions advance together exactly as one round of the loop does |
| TimingCalculator.WalkIsShaped | meteor/client/lib/rundownTiming.ts:137-198 | the walk records every part in order with a wait, and indices stay inside the list |
| TimingCalculator.RundownTimingCalculator.Prepare | meteor/client/lib/rundownTiming.ts:112-494 | clearing and walking give the walk from what earlier calls left behind, and nothing else of theirs |
| TimingCalculator.RundownTimingCalculator.Clear | meteor/client/lib/rundownTiming.ts:130-135 | groups, budgets, starts, segment times, untimed segments and the list of parts are emptied; part maps are not |
| TimingCalculator.RundownTimingCalculator.CountDown | meteor/client/lib/rundownTiming.ts:496-543 | the countdowns from the next part on, nothing for parts before it unless looping, and the first anchor from the next part on |
| TimingCalculator.RundownTimingCalculator.LoopAround | meteor/client/lib/rundownTiming.ts:544-559 | in a looping playlist the parts before the next one come after the end, and only then are their anchors looked at |
| TimingCalculator.RundownTimingCalculator.CountAll | meteor/client/lib/rundownTiming.ts:496-559 | both passes leave exactly the countdowns specified, and the first anchor in playing order |
| TimingCalculator.LastEntryCounts | meteor/client/lib/rundownTiming.ts:640 | in the countdown record, the last part with an id counts |
| TimingCalculator.RundownTimingCalculator.AddSegmentBudgets | meteor/client/lib/rundownTiming.ts:561-600 | totals including every timed budget segment: live, still to come, or left |
| TimingCalculator.RundownTimingCalculator.CurrentPartReadout | meteor/client/lib/rundownTiming.ts:603-630 | time left of the current part, from the display table for group members without a duration, and whether it goes on by itself |
| TimingCalculator.RundownTimingCalculator.ReadOff | meteor/client/lib/rundownTiming.ts:496-657 | countdowns and context are those of the finished walk, and no other field changes |
| TimingCalculator.RundownTimingCalculator.GetRundownsBeforeNextBreak | meteor/client/lib/rundownTiming.ts:659-670 | the cached breaks are returned if the key is unchanged, new ones otherwise, and the key is kept |
| TimingCalculator.RundownTimingCalculator.RecalculateBreaks | meteor/client/lib/rundownTiming.ts:672-697 | the rundowns from the current one to the next break, none if there is no break or no current rundown |
| ShowBreaks.IndexOfRundown | meteor/client/lib/rundownTiming.ts:678-683 | the first rundown with the id, or -1 if there is none |
| ShowBreaks.NextBreak | meteor/client/lib/rundownTiming.ts:685-691 | the first rundown from the given one on that ends in a break, or -1 if none does |
| ShowBreaks.BreaksLeadToTheNext | meteor/client/lib/rundownTiming.ts:672-697 | the breaks are exactly the rundowns from the current one to the first that ends in a break, with whether it is the last of all, and none if there is no such break |
| ShowBreaks.BreakKeyIsInjective | meteor/client/lib/rundownTiming.ts:663-664 | the key, written without separators, tells apart any two lists of break flags |
| ShowBreaks.SameUpto | meteor/client/lib/rundownTiming.ts:693-696 | two lists have the same breaks exactly if the same rundowns lead to the next one, last in both lists or in neither, or none follows |
| ShowBreaks.CacheServes | meteor/client/lib/rundownTiming.ts:659-670 | what was cached for one list and current rundown is right for another exactly if neither current rundown is listed, none is followed by a break, or the same rundowns lead to it |
| ShowBreaks.CachedByFirst | meteor/client/lib/rundownTiming.ts:664-669 | after any calls the cache holds the breaks of the first call of those with the last key |
| ShowBreaks.LastAnswerIsRight | meteor/client/lib/rundownTiming.ts:659-670 | so the last answer is right exactly if that call's serves |
| ShowBreaks.ServesInOneList | meteor/client/lib/rundownTiming.ts:659-670 | in an unchanged list: exactly if the current rundown is the same, or no break follows the earlier one |
| ShowBreaks.CacheGoesStale | meteor/client/lib/rundownTiming.ts:663-669 | a show that has moved on past a break gets the old answer |
| ShowBreaks.CacheMissesReplacement | meteor/client/lib/rundownTiming.ts:663-669 | and so does one whose current rundown has been replaced by another with the same flag |
| TimingConservation.PartsConservation | meteor/client/lib/rundownTiming.ts:346-485 | at every point of the walk, as-played less remaining is the time spent on the parts so far |
| TimingConservation.SegmentsConservation | meteor/client/lib/rundownTiming.ts:561-600 | the pass over the budget segments adds to that difference exactly the time spent in them |
| TimingConservation.ConservationOfShowTime | meteor/client/lib/rundownTiming.ts:346-600 | as-played total less remaining total is exactly the time already spent, on parts and in budget segments |
| TimingEvolution.PoolsStandStill | meteor/client/lib/rundownTiming.ts:248-272 | up to the part on air, the pools do not depend on the time |
| TimingEvolution.LeftSegmentsStandStill | meteor/client/lib/rundownTiming.ts:368-381 | what a budget segment without a part on air has played does not depend on the time |
| TimingEvolution.PartEvolution | meteor/client/lib/rundownTiming.ts:346-485 | of one part: remaining never rises, as-played never falls, and together they change by the time passed if it is on air |
| TimingEvolution.NextPartEvolution | meteor/client/lib/rundownTiming.ts:346-485 | the same of one part where it stands, with the pools before it |
| TimingEvolution.PartsEvolution | meteor/client/lib/rundownTiming.ts:346-485 | the same of the sums over the parts |
| TimingEvolution.SegmentEvolution | meteor/client/lib/rundownTiming.ts:579-600 | the same of one budget segment |
| TimingEvolution.SegmentsEvolution | meteor/client/lib/rundownTiming.ts:561-600 | the same of the pass over the segments: time passes in the live one only, once |
| TimingEvolution.EvolutionOverTime | meteor/client/lib/rundownTiming.ts:346-600 | two calls on the same data at different times: the growth of as-played and the fall of remaining add up to the time between |
| TimingSelection.NothingSelectedYet | meteor/client/lib/rundownTiming.ts:137-198 | no index is found exactly as long as neither the current nor the next part has come |
| TimingSelection.CountsFromSelection | meteor/client/lib/rundownTiming.ts:200-204 | in an active playlist played in order, parts count exactly from the first of the current and the next part on; in any other, all do |
| TimingSelection.NothingRemainsOfSkipped | meteor/client/lib/rundownTiming.ts:459-485 | nothing remains of the parts before it, and they count as played only for what they have played |
| TimingSelection.SumsGain | meteor/client/lib/rundownTiming.ts:346-485 | at every point of the walk: what more time for a part that waits adds to the sums, and only from that part on |
| TimingSelection.ExpectedTimeCounts | meteor/client/lib/rundownTiming.ts:200-600 | more time for a part that waits is always planned; it remains exactly if the part counts and is not floated, and is played exactly if it counts, so the time of a skipped part changes neither total |
| TimingLives.FutureStartIsNoStart | meteor/client/lib/rundownTiming.ts:222-226 | a start still to come changes none of the values of a part |
| TimingLives.Waiting | meteor/client/lib/rundownTiming.ts:322-339 | every value of a part that waits on its own, from its expected time and the default |
| TimingLives.Taken | meteor/client/lib/rundownTiming.ts:274-321 | being taken changes none of them at that moment, but for how it is drawn |
| TimingLives.TakenPartMayBeRedrawn | meteor/client/lib/rundownTiming.ts:291-297 | exactly when a part that is taken is drawn as before |
| TimingLives.RunsOn | meteor/client/lib/rundownTiming.ts:274-485 | on air the clock uses up what a part is given, and then adds to every value; what is played grows with the clock, what remains falls with it to 0 |
| TimingLives.LeftRunsDown | meteor/client/lib/rundownTiming.ts:304-321 | what is left of a part or of its budget runs down with the clock to 0, and the time shown for the current part goes on below it |
| TimingLives.BudgetLeft | meteor/client/lib/rundownTiming.ts:299-311 | a budget starts to run when its segment did, or else when the part did |
| TimingLives.PlaysUntilStopped | meteor/client/lib/rundownTiming.ts:368-381 | in a budget segment a part plays on with the clock, until it is reported as stopped |
| TimingLives.HandedOver | meteor/client/lib/rundownTiming.ts:322-485 | once its time is recorded a part is worth that, whatever it was given, and later no more or less |
| TimingLives.ExpectationStands | meteor/client/lib/rundownTiming.ts:235-270 | its expected time stands whatever it has taken; without one, it is what it took, or before that its share of the pool |
| TimingLives.NeverPlays | meteor/client/lib/rundownTiming.ts:416-433 | an invalid part is drawn for the default duration and never plays |
| TimingLives.MemberWaiting | meteor/client/lib/rundownTiming.ts:256-265 | a member of a group is drawn for its display duration, or else takes the pool, but no less than the default, or next to nothing for a gap |
| TimingLives.MemberTaken | meteor/client/lib/rundownTiming.ts:312-321 | and has that left at the moment it is taken |
| TimingLives.MemberOnAir | meteor/client/lib/rundownTiming.ts:267-270 | a member without an expected time is given what is in the pool |
| TimingLives.MemberLeft | meteor/client/lib/rundownTiming.ts:603-628 | and is left with what its table entry shows it for |
| TimingLives.StopIsPlanned | meteor/client/lib/rundownTiming.ts:276-321 | a part on air whose stop is planned is given nothing beyond what it has played: nothing is left of it, whenever it is to stop |
| TimingLives.GoesOnByItself | meteor/client/lib/rundownTiming.ts:603-630 | the readout is that of the current part, which goes on by itself exactly if it is to and has a duration |
| TimingTables.PoolIsOpen | meteor/client/lib/rundownTiming.ts:248-252 | a pool is open exactly once a part has joined it |
| TimingTables.JoinsGroup | meteor/client/lib/rundownTiming.ts:246-257 | exactly which parts of a group pool: not floated, not untimed, and another member before or right after |
| TimingTables.PoolConservation | meteor/client/lib/rundownTiming.ts:416-426 | a pool holds what its members have brought, less what those that leave have taken |
| TimingTables.ShareIsPool | meteor/client/lib/rundownTiming.ts:258-270 | and a member sees all of it, with what it brings itself |
| TimingTables.StartsAreSums | meteor/client/lib/rundownTiming.ts:428-435 | each part starts, and is drawn, where those before it end |
| TimingTables.CurrentRemainingIsOfLast | meteor/client/lib/rundownTiming.ts:304-321 | what is left of the current part is of the last part that is on air, or is current and has not started |
| TimingTables.SegmentStartIsOfLast | meteor/client/lib/rundownTiming.ts:167-171 | a segment started when the last of its entry parts did that has |
| TimingTables.SegmentStartIsUnknown | meteor/client/lib/rundownTiming.ts:167-171 | and has no start if none of them has |
| TimingTables.UntimedIfAllPartsAre | meteor/client/lib/rundownTiming.ts:178-212 | where the parts of a segment stand together, it is untimed exactly if all of them are |
| TimingTables.NextSegmentIsOfNext | meteor/client/lib/rundownTiming.ts:151-194 | the segment remembered is that of the next part, once found; before that it is what earlier calls left, or none without a next part |
| TimingTables.RundownHasItsOwn | meteor/client/lib/rundownTiming.ts:359-599 | each rundown has played what its own parts and its own budget segments have, and no other's |
| TimingTables.RundownIsExpected | meteor/client/lib/rundownTiming.ts:487-493 | and it is expected to take what all its own parts are |
| TimingTables.AnchorMovesOn | meteor/client/lib/rundownTiming.ts:877-900 | a segment anchors at its expected start until that has come, then at its expected end |
| TimingTables.FirstAnchorIsFirst | meteor/client/lib/rundownTiming.ts:496-543 | the first part with an anchor decides |
| TimingTables.NextAnchorIsFirst | meteor/client/lib/rundownTiming.ts:496-559 | in playing order from the next part on, and round to those before it only when looping |
| TimingTables.NoWaitAfterOnAir | meteor/client/lib/rundownTiming.ts:304-457 | from the part on air on, a budget segment waits no longer |
| TimingTables.BudgetOnAir | meteor/client/lib/rundownTiming.ts:178-457 | so the segment after it waits exactly as long as the part on air |
| TimingReadout.GetPlaylistTimingDiff | meteor/client/lib/rundownTiming.ts:806-856 | over/under of all three kinds of timing, on air and played out |
| TimingReadout.BeforeTheStart | meteor/client/lib/rundownTiming.ts:813-829 | before its expected start a show is over by what remains beyond its planned end, whatever the clock says, and from then on by the delay as well |
| TimingReadout.WhileItRuns | meteor/client/lib/rundownTiming.ts:813-829 | on air the readout is the projected end less the planned one |
| TimingReadout.WithoutPlannedEnd | meteor/client/lib/rundownTiming.ts:814-829 | without a planned end it is the delay since the start, and what remains beyond the planned duration |
| TimingReadout.AnchoredReadout | meteor/client/lib/rundownTiming.ts:818-829 | an anchor takes the place of the planned end |
| TimingReadout.ReadByTheClock | meteor/client/lib/rundownTiming.ts:812 | a context without a time is read at the time of the clock |
| TimingReadout.BackTimed | meteor/client/lib/rundownTiming.ts:822-829 | a back-timed show is over exactly if more remains than fits before its end |
| TimingReadout.PlayedOutReadout | meteor/client/lib/rundownTiming.ts:834-853 | a show that is over is measured by what it has played since its start, whatever the clock, the remaining time and the anchors are |
| TimingReadout.WithoutTiming | meteor/client/lib/rundownTiming.ts:826-846 | without timing, the readout is the same on air and off |
| TimingReadout.GoingOffAir | meteor/client/lib/rundownTiming.ts:812-853 | exactly when the readout stands as a show goes off air |
| TimingReadout.NoTimesNoAnchor | meteor/client/lib/rundownTiming.ts:877-900 | without segment times there is no anchor |
| TimingReadout.ReadoutFromTotals | meteor/client/lib/rundownTiming.ts:812-829 | with a fixed end, the readout changes by the time passed less the fall of remaining |
| TimingReadout.ReadoutOverTime | meteor/client/lib/rundownTiming.ts:806-831 | on air the readout rises by exactly the growth of as-played, and stands still exactly while remaining counts down with the clock |
| TimingWaits.WaitsRise | meteor/client/lib/rundownTiming.ts:178-189 | recorded waits start at 0 and never fall |
| TimingWaits.WaitsRiseToEnd | meteor/client/lib/rundownTiming.ts:437-457 | no recorded wait is beyond the end of the show |
| TimingWaits.CurrentRemainingIsNonNegative | meteor/client/lib/rundownTiming.ts:304-321 | what is left of the current part is never negative |
| TimingWaits.CountdownsFromNext | meteor/client/lib/rundownTiming.ts:496-559 | the countdown at the next part is what is left of the current one, later ones differ by their waits, earlier ones are null unless looping |
| TimingWaits.CountdownsWithoutNext | meteor/client/lib/rundownTiming.ts:498-543 | a current part that is not before the next one keeps its wait, and with no next part all others are off by what is left of it beyond their waits |
| TimingWaits.LoopingCountdownsRise | meteor/client/lib/rundownTiming.ts:544-559 | looping countdowns never fall, all the way round from the next part |
| TimingWaits.InsideBudget | meteor/client/lib/rundownTiming.ts:452-457 | inside a budget segment the wait is the smaller of the budget and the waits so far |
| TimingWaits.BudgetIsExact | meteor/client/lib/rundownTiming.ts:178-186 | a budget segment with nothing on air takes exactly its budget, whatever its parts take |
| TimingWaits.NoBudgetIsTheSum | meteor/client/lib/rundownTiming.ts:455-457 | a segment without a budget takes the sum of its waits |
| TimingWaits.BudgetIsSumOfParts | meteor/client/lib/rundownTiming.ts:155-165 | a segment has a budget exactly if one of its parts has, and it is their sum |
| TimingHistory.TablesForget | meteor/client/lib/rundownTiming.ts:428-433 | whatever the tables held before, a part's key holds what this call recorded |
| TimingHistory.TablesKeep | meteor/client/lib/rundownTiming.ts:428-435 | parts with other keys leave alone what is held for a key |
| TimingHistory.TablesRecord | meteor/client/lib/rundownTiming.ts:428-435 | a part's key holds the values of the last part with that key |
| TimingHistory.NextSegmentForgets | meteor/client/lib/rundownTiming.ts:151-153 | the remembered next segment is replaced if the next part is unset or found |
| TimingHistory.TotalsForget | meteor/client/lib/rundownTiming.ts:561-600 | the totals do not read the tables |
| TimingHistory.PartsAsFresh | meteor/client/lib/rundownTiming.ts:54-64 | every present part has the values and the countdown that a new calculator gives it |
| TimingHistory.ContextAsFresh | meteor/client/lib/rundownTiming.ts:632-656 | with the next part unset or found, the context is that of a new calculator |
| TimingHistory.HistoryIndependence | meteor/client/lib/rundownTiming.ts:49-76 | both, after any sequence of earlier calls |
| TimingHistory.NextSegmentRemembered | meteor/client/lib/rundownTiming.ts:51-52 | while the next part cannot be found the remembered segment stays |
| TimingHistory.RemainingAhead | meteor/client/lib/rundownTiming.ts:589-595 | what a remembered segment adds to the remaining time of the first segments |
| TimingHistory.RememberedSegmentMatters | meteor/client/lib/rundownTiming.ts:561-595 | and then it decides how much remains: exactly the budgets from the remembered segment on, but for the live one, remain as well |
| TimingHistory.PutCall | meteor/client/lib/rundownTiming.ts:93-657 | one call on the object moves what is left behind, breaks included, as specified, and is answered from it |
| TimingHistory.Replay | meteor/client/lib/rundownTiming.ts:48-76 | an object put through any history leaves behind, and answers, what the functions above say |
| TimingHistory.BreaksAreCached | meteor/client/lib/rundownTiming.ts:659-670 | what any calls leave behind of breaks is what the cache holds after the lookups among them |
| TimingHistory.BreaksShown | meteor/client/lib/rundownTiming.ts:144-149 | so in any sequence of calls on the object, the breaks of a context are right exactly if those of the first call with its key serve |
| TimingBeforeAir.BeforeAirTotals | meteor/client/lib/rundownTiming.ts:346-600 | before air as-played is the plan, and remaining is the plan less the floated parts |
| TimingBeforeAir.NeitherOverNorUnder | meteor/client/lib/rundownTiming.ts:826-829 | so an untimed playlist without a duration of its own starts at 0 |
| TimingBeforeAir.DisplayedIsPlayedPlusSkipped | meteor/client/lib/rundownTiming.ts:384-403 | as-displayed exceeds as-played by exactly the planned time of skipped parts |
| TimingBeforeAir.TotalAfterAdding | meteor/client/lib/rundownTiming.ts:597-599 | adding to one entry of a record adds to its total |
| TimingBeforeAir.PartsPerRundown | meteor/client/lib/rundownTiming.ts:359-366 | over the parts, the rundowns' as-played times add up to the total |
| TimingBeforeAir.SegmentsPerRundown | meteor/client/lib/rundownTiming.ts:595-599 | and they still do after the budget segments |
| TimingBeforeAir.RundownsAddUp | meteor/client/lib/rundownTiming.ts:359-599 | in every call the rundowns' as-played times add up to the playlist's |
| TimingBeforeAir.RundownsExpectedAddUp | meteor/client/lib/rundownTiming.ts:487-493 | and their expected times to the expected durations of all parts |
| TimingBeforeAir.ContextAddsUp | meteor/client/lib/rundownTiming.ts:632-656 | so each of the times in a context is accounted for by the others: per rundown, remaining, as displayed, and planned |
| SegmentDurations.ResolvePart | meteor/client/lib/rundown.ts:566-593 | what one part is drawn for and what it leaves in the pool |
| SegmentDurations.ResolveParts | meteor/client/lib/rundown.ts:381-604 | every part's rendered duration and start, and the pools at the end |
| SegmentDurations.GroupsDoNotMix | meteor/client/lib/rundown.ts:566-593 | however groups are interleaved, each pool is that of its own members alone |
| SegmentDurations.DrawnInGroupIsOfMembers | meteor/client/lib/rundown.ts:580-584 | and so is what its members are drawn for |
| SegmentDurations.PoolKeepsTheRest | meteor/client/lib/rundown.ts:575-592 | of one group: the pool is not negative, and nothing is lost or made up while no member has played |
| SegmentDurations.PoolConservation | meteor/client/lib/rundown.ts:560-593 | drawn plus left is what is expected, for a group without played members; with played ones it is at least that |
| SegmentDurations.OpenedByNeighbours | meteor/client/lib/rundown.ts:566-574 | a part belongs to its group exactly if two parts of the group are neighbours, there or earlier |
| SegmentDurations.LonePartIsDrawnAsExpected | meteor/client/lib/rundown.ts:595-596 | a part outside all groups is drawn for its expected time, or the default, and leaves the pools alone |
| SegmentDurations.PlayedMemberIsDrawnAsPlayed | meteor/client/lib/rundown.ts:580-584 | a played member is drawn for exactly as long as it took |
| SegmentDurations.LeadInIsDrawnAsPlanned | meteor/client/lib/rundown.ts:580-592 | a lead-in is drawn for its display duration, but no more than it is expected to take, and leaves the rest in the pool |
| SegmentDurations.MemberTakesTheRest | meteor/client/lib/rundown.ts:580-592 | any other member takes all that is left, so that a group without played members is then drawn for exactly its expected time |
| SegmentDurations.RenderedIsPositive | meteor/client/lib/rundown.ts:595-596 | with a positive default every part has a width |
| SegmentDurations.StartsIncrease | meteor/client/lib/rundown.ts:598-600 | and starts strictly increase, each part after the end of those before it |
| PieceCropping.CropPair | meteor/client/lib/rundown.ts:656-686 | a piece is cropped by the next one, loses its infinity, and gets the gap as label width |
| PieceCropping.MarkOrigin | meteor/client/lib/rundown.ts:652-654 | pieces that begin in another part are marked |
| PieceCropping.CropLayer | meteor/client/lib/rundown.ts:630-692 | in place, each piece of the layer is what the one after it leaves of the original |
| PieceCropping.LayerIsTheirs | meteor/client/lib/rundown.ts:611-617 | a layer holds each of its pieces once, and no others |
| PieceCropping.SharesLayer | meteor/client/lib/rundown.ts:611-617 | pieces of one output share a layer exactly if they have the same exclusive group, where it is flattened, or source layer, where it is not |
| PieceCropping.SortedLayerIsInOrder | meteor/client/lib/rundown.ts:622-629 | sorting keeps each piece once, and puts in order in-points, and at one in-point priorities and ranks of source layers |
| PieceCropping.CropOneLayer | meteor/client/lib/rundown.ts:620-693 | sorts and crops one layer of the pieces, and draws those of other layers as before |
| PieceCropping.CropNextLayer | meteor/client/lib/rundown.ts:620-693 | one more layer is done, and all done before stay as they are |
| PieceCropping.CropPart | meteor/client/lib/rundown.ts:608-694 | after the loop over all layers each piece is drawn as its own layer has it, whatever the others are |
| PieceCropping.CroppedPiecesDoNotOverlap | meteor/client/lib/rundown.ts:672-683 | each duration is the smaller of the original and the gap, no piece reaches into a later one, and the last is left as it was |
| PieceCropping.OverlapsOnlyPastUnplaced | meteor/client/lib/rundown.ts:656-683 | a placed piece still reaches beyond a later one exactly if the piece after it has no in-point and it did before |
| PieceCropping.CroppedLayer | meteor/client/lib/rundown.ts:630-692 | of the objects of a layer: the smaller of duration and gap, the last as it was, and exactly when two still overlap |
| PieceCropping.CroppedPartIsRight | meteor/client/lib/rundown.ts:608-694 | the same of every layer of a part after `CropPart`, with the label widths and the marks of what was cropped |
| PieceCropping.OutrankedComesFirst | meteor/client/lib/rundown.ts:622-629 | of two pieces at one in-point, the one that the other outranks comes first |
| PieceCropping.OutrankedIsHidden | meteor/client/lib/rundown.ts:608-694 | so after cropping it is drawn for 0, if all pieces of the layer are placed |
| PartInstanceMerge.MergeSegment | meteor/client/lib/RundownResolver.ts:284-318 | what one segment shows, in all three cases |
| PartInstanceMerge.GetSegmentsWithPartInstances | meteor/client/lib/RundownResolver.ts:258-319 | and every segment, from its own instances and its own parts as the collection utility sorts them |
| PartInstanceMerge.MergePermutes | meteor/client/lib/RundownResolver.ts:301-311 | the instances, and one stand-in per part without any; nothing else, nothing twice |
| PartInstanceMerge.MergeIsExact | meteor/client/lib/RundownResolver.ts:301-308 | a part is stood in for as often as it occurs if no instance covers it, and never otherwise |
| PartInstanceMerge.EveryPartShows | meteor/client/lib/RundownResolver.ts:284-318 | every part of a segment shows |
| PartInstanceMerge.InstancesShowInTheirSegment | meteor/client/lib/RundownResolver.ts:281-286 | a real instance shows in its own segment and in no other |
| PartInstanceMerge.StandInsAreTheirOwn | meteor/lib/collections/PartInstances.ts:11-26 | a stand-in is temporary, has never been taken, and has an id of its own |
| PartInstanceMerge.PartNotAfterIsTotal | packages/corelib/src/playout/playlist.ts:41-49 | the order of parts is a total preorder if all their segments are listed but for one |
| PartInstanceMerge.SortedPartsAreTheSame | packages/corelib/src/playout/playlist.ts:32-50 | sorting parts loses none of any segment and adds none |
| PartInstanceMerge.SortedPartsAreByRank | packages/corelib/src/playout/playlist.ts:32-50 | and puts those of each segment in order of rank |
| PartInstanceMerge.SortedPartsAreBySegment | packages/corelib/src/playout/playlist.ts:36-48 | parts of different segments are in the order of the list, those of an unlisted one last |
| PartInstanceMerge.PartsOfKeepOrder | meteor/client/lib/RundownResolver.ts:281 | which grouping by segment keeps |
| PartInstanceMerge.NotAfterIsTotal | meteor/client/lib/RundownResolver.ts:297 | rank and take count order the instances if all have take counts, or none has |
| PartInstanceMerge.MergeIsInOrder | meteor/client/lib/RundownResolver.ts:288-311 | with or without instances: order of rank, and of take count where instances have one, so a stand-in then comes before taken instances of its rank |
| PartInstanceMerge.UncountedKeepTheirOrder | meteor/client/lib/RundownResolver.ts:309-311 | without take counts, instances of a rank stay in the order they came in, and a stand-in comes after them |
| PartInstanceMerge.SegmentsAreInOrder | meteor/client/lib/RundownResolver.ts:258-319 | so every segment is in that order, in whatever order its parts were stored |
| Timecode.CeilSeconds | meteor/client/lib/rundown.ts:127-142 | rounding up a rest carries into minutes and hours exactly if it makes a whole minute |
| Timecode.RoundRest | meteor/client/lib/rundown.ts:118-174 | the rest of the last minute for each way of rounding |
| Timecode.SplitTime | meteor/client/lib/rundown.ts:111-168 | hours, minutes and seconds are those of the whole seconds to print, but for minutes with the hours hidden |
| Timecode.FormatDiffToTimecode | meteor/client/lib/rundown.ts:95-191 | sign and digits of the whole seconds to print |
| Timecode.SecondsMean | meteor/client/lib/rundown.ts:118-168 | these are the next or the last whole second, or, with a hard floor, the floor of the signed time |
| Timecode.TimecodeIsFaithful | meteor/client/lib/rundown.ts:111-190 | the digits read back as that many seconds exactly if hours can be shown, or nothing is carried, or there is less than 59 minutes |
| Timecode.HiddenHoursLoseAnHour | meteor/client/lib/rundown.ts:134-142 | 75:59.5 with hidden hours is printed as 16:00 |
| Timecode.SignShows | meteor/client/lib/rundown.ts:168-184 | exactly which times get a minus, a plus, or the prefix of the caller |
| Timecode.SignedSeconds | meteor/client/lib/rundown.ts:118-184 | the signed seconds that are printed, for each way of rounding |
| Timecode.PrintedReadsBack | meteor/client/lib/rundown.ts:95-191 | all that is printed reads back, sign included, as those seconds, under exactly the condition above |
| Timecode.FieldsInRange | meteor/client/lib/rundown.ts:133-142 | with the hours shown, minutes and seconds are two digits below 60 |
| Decimal.PadZerosValue | meteor/client/lib/rundown.ts:47-50 | padding a number keeps its value |
| Decimal.DecimalIsInjective | meteor/lib/collections/Timeline.ts:31 | different numbers are written differently |
| MethodQueue.MeteorMethodQueue.MeteorApply | meteor/lib/MeteorApply.ts:19-41 | a call joins the queue, and the queue is checked at once |
| MethodQueue.MeteorMethodQueue.CheckMethodQueue | meteor/lib/MeteorApply.ts:44-84 | an idle head is marked as running, warned about if late, and then sent; otherwise nothing happens |
| MethodQueue.MeteorMethodQueue.OnReturned | meteor/lib/MeteorApply.ts:61-82 | the callback shifts the queue, asks for a check, warns if the method took long, and last settles the caller's promise with what it was given |
| MethodQueue.MeteorMethodQueue.Complete | meteor/lib/MeteorApply.ts:62-67 | the first part: shift, check to come, and the time of completion |
| MethodQueue.MeteorMethodQueue.WarnIfCompletedLate | meteor/lib/MeteorApply.ts:68-75 | a warning exactly if the method took longer than its limit |
| MethodQueue.MeteorMethodQueue.OnCheckTimer | meteor/lib/MeteorApply.ts:63-65 | the timer checks the queue |
| MethodQueue.MeteorMethodQueue.LogWarning | meteor/lib/MeteorApply.ts:86-120 | warnings are counted, logged, limited and skipped, through a logger that enters the queue again |
| MethodQueue.MeteorMethodQueue.LoggerWarn | meteor/lib/logging.ts:64-77 | on a client a warning is one more method |
| MethodQueue.MeteorMethodQueue.OnCoolDownTimer | meteor/lib/MeteorApply.ts:103-112 | the cool-down reports skipped warnings while the flag is still set, and then resets all three |
| MethodQueue.MeteorMethodQueue.OnHour | meteor/lib/MeteorApply.ts:121-126 | each hour the count is cleared, unless warnings are being skipped |
| MethodQueue.EnqueuedKeeps | meteor/lib/MeteorApply.ts:27-41 | a call keeps the order, even in the middle of sending another, and leaves a running head |
| MethodQueue.CheckedKeeps | meteor/lib/MeteorApply.ts:44-84 | so does a check, whatever warnings it leads to |
| MethodQueue.WarnedKeeps | meteor/lib/MeteorApply.ts:91-120 | and a warning, which sends nothing while a method is running |
| MethodQueue.WarnedOnce | meteor/lib/MeteorApply.ts:91-120 | while the head runs, one warning counts as one |
| MethodQueue.CheckedWarns | meteor/lib/MeteorApply.ts:51-59 | a check warns exactly once if it finds a late head to send, and else not at all |
| MethodQueue.WarnedCounts | meteor/lib/MeteorApply.ts:91-119 | the limit on counted warnings survives warnings within warnings |
| MethodQueue.TwoCoolDowns | meteor/lib/MeteorApply.ts:95-112 | one warning starts two timers exactly if it is the first beyond the limit and its own check finds a late method |
| MethodQueue.SlowReturn | meteor/lib/MeteorApply.ts:61-120 | when each method takes 2 seconds, each callback leads to two warnings, and at the limit to two timers |
| MethodQueue.TwoCoolDownsHappen | meteor/lib/MeteorApply.ts:95-112 | so there is a run of two calls and six callbacks, with their checks, whose last event starts two timers at once |
| MethodQueue.StepKeeps | meteor/lib/MeteorApply.ts:19-126 | every event keeps the invariant of the queue |
| MethodQueue.InvariantHolds | meteor/lib/MeteorApply.ts:19-126 | so it holds in every reachable state |
| MethodQueue.FirstInFirstOut | meteor/lib/MeteorApply.ts:15-41 | methods are sent, completed and settled in the order of the calls, each once, and only the head of the queue is ever in flight |
| MethodQueue.CallbackShiftsItsOwn | meteor/lib/MeteorApply.ts:61-82 | the method a callback shifts off the queue is the one that has completed, and its promise gets that outcome |
| MethodQueue.NeverStuck | meteor/lib/MeteorApply.ts:61-65 | a queue that is not empty waits for a callback or for a check that will send its head |
| MethodQueue.StepsNeverRise | meteor/lib/MeteorApply.ts:19-126 | no event takes a method further from completion; each callback, and each check that sends, takes it closer |
| MethodQueue.EveryMethodCompletes | meteor/lib/MeteorApply.ts:19-126 | in every run a method is completed and settled once the queue has advanced a bounded number of times, whatever calls, warnings and timers come in between |
| MethodQueue.WarningsResume | meteor/lib/MeteorApply.ts:86-126 | the count never passes the limit by more than two, and skipping always comes to an end |
| MethodQueue.CallIsKept | meteor/lib/MeteorApply.ts:27-55 | until it is completed, a method keeps the options it was called with and the time of the call |
| MethodQueue.LoneCallIsTimed | meteor/lib/MeteorApply.ts:51-61 | a call on an idle queue is sent with them, and warned about exactly if it is sent later than its limit, a second by default |
| MethodQueue.LateCallbackWarns | meteor/lib/MeteorApply.ts:67-75 | and a callback warns exactly if the method took longer than its other limit |
| MethodQueue.CoolDownReports | meteor/lib/MeteorApply.ts:103-112 | a cool-down ends with exactly one report if warnings were skipped, and none if not, and all counts at 0 |
| MethodQueue.EveryMethodIsAccountedFor | meteor/lib/MeteorApply.ts:19-126 | in every run the methods are the calls, one for each warning logged, and one for each cool-down with something to report |
| MethodQueue.TenWarningsGoThrough | meteor/lib/MeteorApply.ts:91-126 | after a cool-down or an hourly reset, ten warnings are let through before any is skipped |
| ClockSync.Client.constructor | meteor/lib/lib.ts:49-55 | the record before any sync |
| ClockSync.Client.UpdateDiffTime | meteor/lib/systemTime.ts:70-79 | a request is sent if the quality has degraded beyond the target, or by force, and remembers the degradation |
| ClockSync.Client.OnReply | meteor/lib/systemTime.ts:81-105 | the record after a reply, accepted or not |
| ClockSync.Client.GetCurrentTime | meteor/lib/lib.ts:61-63 | the wall clock less the difference |
| ClockSync.HalfRoundTrip | meteor/lib/systemTime.ts:85 | `stdDev` is half the round trip, to a quarter of a millisecond |
| ClockSync.ReplyIsClose | meteor/lib/systemTime.ts:81-102 | an accepted reply is within the bound, whenever the server read its clock, if the clocks keep time from then to the reply |
| ClockSync.StaysClose | meteor/lib/systemTime.ts:71-74 | and stays within it as it ages |
| ClockSync.MeasurementError | meteor/lib/systemTime.ts:84 | the error of a measurement lies strictly between the two extremes |
| ClockSync.EarlyErrorIsReached | meteor/lib/systemTime.ts:84 | clocks for which it comes as close as one likes to the upper one |
| ClockSync.LateErrorIsReached | meteor/lib/systemTime.ts:84 | and to the lower one |
| ClockSync.WorstCase | meteor/lib/systemTime.ts:84-85 | a bound holds for all clocks exactly if it is at least both extremes |
| ClockSync.ConstantGrowsWithRoundTrip | meteor/lib/systemTime.ts:85 | for round trips of an even number of milliseconds, the constant that has to be added to `stdDev` is the drift during the round trip and 1 |
| ClockSync.FailedStartup | meteor/lib/systemTime.ts:112-124 | the three updates of the first half minute ask, and if they fail the client knows nothing |
| ClockSync.NoConstantWillDo | meteor/lib/systemTime.ts:70-131 | for every constant there are clocks and a run without force, answered in turn, whose error exceeds `stdDev` and that constant |
| ClockSync.StepKeeps | meteor/lib/systemTime.ts:70-109 | every request, reply and failure keeps the record sound |
| ClockSync.InvariantHolds | meteor/lib/systemTime.ts:70-109 | so it is sound in every run, with any overlap of forced and plain requests |
| ClockSync.SyncIsSound | meteor/lib/systemTime.ts:70-109 | once set, `diff` is within the bound of the true difference, and the current time as close to the server's |
| ClockSync.WhenToAsk | meteor/lib/systemTime.ts:70-78 | an update asks exactly if it is forced, or `stdDev` and 5 seconds for each day since the last sync exceed 50 ms, and changes nothing else |
| ClockSync.ReplyRecovers | meteor/lib/systemTime.ts:81-103 | an accepted reply to a request made since the clocks have kept time is within the bound, whatever the record was |
| ClockSync.ForcedUpdateRecovers | meteor/lib/systemTime.ts:133-136 | so whatever clocks and record were before, a forced update made since then and answered leaves `diff` within the bound, and it stays so |
| ClockSync.TimeStampsAreSound | meteor/client/lib/lib.tsx:197-199 | event time stamps converted through `timeOriginDiff` are as close, but for drift since the sync |
| ClockSync.PlainReplyKeepsQuality | meteor/lib/systemTime.ts:73-88 | for any record it meets, a plain reply keeps the quality except exactly if it is worse than that record is by now and no worse than the one known when it was sent for |
| ClockSync.RequestsComeFrom | meteor/lib/systemTime.ts:77-78 | every pending request was sent by an earlier update and remembers the quality of that moment |
| ClockSync.RecordUnchanged | meteor/lib/systemTime.ts:88-103 | without an accepted reply the record stays |
| ClockSync.UndisturbedReplyKeepsQuality | meteor/lib/systemTime.ts:70-109 | so in every run a plain reply keeps the quality if no other was accepted since its request |
| ClockSync.WorseReplyWins | meteor/lib/systemTime.ts:112-119 | the first two requests of a client, answered in turn, can leave the worse measurement |
| ClockSync.PlainRunsStayPlain | meteor/lib/systemTime.ts:71-88 | without force, `stdDev` never exceeds the initial 9999 and the drift since |
| ClockSync.PlainSyncIsSound | meteor/lib/systemTime.ts:70-109 | so without force, the drift during the round trip is at most that of the initial 9999 and of the drift up to the sync, at any time |
| ClockSync.PlainSyncWithinConstant | meteor/lib/systemTime.ts:70-109 | and for a day 4 ms do for all of it |
| ClockSync.TimeJumpDetector.constructor | meteor/lib/systemTime.ts:18-22 | the baseline is where the clocks were |
| ClockSync.TimeJumpDetector.DetectTimeJump | meteor/lib/systemTime.ts:42-53 | reports the movement since the baseline if it is beyond the target, and then moves the baseline |
| ClockSync.ReportedJumpsAddUp | meteor/lib/systemTime.ts:42-53 | the jumps reported add up to the real movement, within the target |
| ClockSync.SteadyClockIsNotReported | meteor/lib/systemTime.ts:42-53 | a clock within the target is never reported |
| ClockSync.JumpIsReported | meteor/lib/systemTime.ts:42-53 | a clock beyond it is reported at the next check, with all it has moved by |
| Routing.AddRoute | meteor/lib/collections/Studios.ts:31-42 | a mapping is added to the routes of its layer or to those inserted |
| Routing.AddRouteSet | meteor/lib/collections/Studios.ts:29-44 | the usable mappings of a set are added in order |
| Routing.UseRouteSet | meteor/lib/collections/Studios.ts:20-28 | an active set is used exactly if no earlier active one is in its group |
| Routing.GetActiveRoutes | meteor/lib/collections/Studios.ts:12-49 | the routes of each layer are those of the usable mappings of used sets, in order, and no layer's list is empty |
| Routing.OneSetPerGroup | meteor/lib/collections/Studios.ts:22-28 | of an exclusivity group only the first active set is used |
| Routing.GroupIsServed | meteor/lib/collections/Studios.ts:20-28 | an active set without a group is used, and of each group with an active set one is |
| Routing.UsedSetsAreRouted | meteor/lib/collections/Studios.ts:19-45 | what is routed is exactly what the used sets have an output layer for |
| Routing.RoutesForDistribute | meteor/lib/collections/Studios.ts:32-42 | the routes of a layer are those of the mappings with that layer, in their order |
| Routing.MappingsLandOnce | meteor/lib/collections/Studios.ts:30-43 | every usable mapping lands exactly once |
| Routing.GetRoutedMappings | meteor/lib/collections/Studios.ts:50-98 | the mappings after all routes: the next five rows say which |
| Routing.RoutedMappingsKeys | meteor/lib/collections/Studios.ts:57-95 | exactly the layers that input mappings lead to, and the inserted ones that name a device |
| Routing.RoutedLayerHas | meteor/lib/collections/Studios.ts:57-77 | a routed layer has the mapping that the last route there makes of the last input mapping that leads there: device, id, lookahead and options of the remapping where present and of the input otherwise; or, if a remap route names a device, that device and nothing of the input |
| Routing.UnroutedLayerKeeps | meteor/lib/collections/Studios.ts:78-81 | a layer without routes keeps its mapping, if no later one is routed there |
| Routing.InsertedLayerHas | meteor/lib/collections/Studios.ts:84-95 | the last route inserted on a layer wins over all that was routed there, with the device, lookahead and options that it has or by default |
| Routing.InputMakesNoDifference | meteor/lib/collections/Studios.ts:61-75 | exactly when it makes no difference which mapping is routed: the route names a device, or the remapping has all in which the two differ |
| Routing.NamelessRoute | meteor/lib/collections/Studios.ts:61-86 | without a device type, or with an empty device id, a route only amends, and inserts nothing |
| Routing.RouteObj | meteor/lib/collections/Timeline.ts:19-39 | layer, lookahead layer, id and key frames of one routed object |
| Routing.RoutedObjMoves | meteor/lib/collections/Timeline.ts:19-39 | an ordinary object moves to the output layer, a lookahead object to its lookahead layer; it is otherwise the same object |
| Routing.GetRoutedTimeline | meteor/lib/collections/Timeline.ts:5-48 | one object per route, or the object itself, in input order |
| Routing.MarkedIdIsInjective | meteor/lib/collections/Timeline.ts:29-31 | number and id can be told from a marked id, whatever the ids are |
| Routing.OutputFollowsOrigins | meteor/lib/collections/Timeline.ts:11-46 | each output object is the routing of its origin, and origins are in order without repetition |
| Routing.NothingIsLost | meteor/lib/collections/Timeline.ts:17-45 | every route of every object has its place in the output |
| Routing.RoutedIdsAreDistinct | meteor/lib/collections/Timeline.ts:9-47 | with routes as built from route sets, distinct ids stay distinct exactly if no object has an id that routing gives to another |
| Routing.UnmarkedIdsStayDistinct | meteor/lib/collections/Timeline.ts:29-31 | in particular if none begins with `_` |
| Routing.MarkedIdsCollide | meteor/lib/collections/Timeline.ts:29-31 | and there are ids and routes for which they do not |
| Routing.RoutedFramesAreDistinct | meteor/lib/collections/Timeline.ts:33-38 | distinct key frame ids stay distinct exactly if none already is one that routing gives to another |
| Routing.NoObjectDisappears | meteor/lib/collections/Timeline.ts:17-45 | with routes as built from route sets, every object is in the output |
| Routing.RoutedObjectsAreMapped | meteor/lib/collections/Timeline.ts:11-46 | an object whose layer has a mapping is routed to layers that have one |
| Routing.TimelineAndMappingsAgree | meteor/lib/collections/Timeline.ts:9-47 | so the routed timeline only uses layers of the routed mappings, for ordinary and for lookahead objects |
| Routing.ActiveRoutesHaveOutput | meteor/lib/collections/Studios.ts:31 | routes as built from route sets all have an output layer |
| Adlibs.StringsOrdered | meteor/lib/adlibs.ts:5-13 | comparing texts by code units orders them, and only equal texts compare alike |
| Adlibs.CompareOrdered | meteor/lib/adlibs.ts:27-59 | the chain of six comparisons is antisymmetric and transitive |
| Adlibs.CompareIsZero | meteor/lib/adlibs.ts:27-59 | entries compare alike exactly if all six criteria are the same |
| Adlibs.StringsCompareAsTexts | meteor/lib/adlibs.ts:10-11 | a text comes first if it is the beginning of the other, or has the smaller code unit where they first differ |
| Adlibs.CompareIsLexicographic | meteor/lib/adlibs.ts:27-59 | one entry comes before another exactly by the ranks of rundown, segment and part, the smaller first and null last, then by the rank, label and id of the adlib |
| Adlibs.SortedInOrder | meteor/lib/adlibs.ts:16-62 | and no adlib comes out after one that it comes before |
| Adlibs.CompareAndSettle | meteor/lib/adlibs.ts:27-59 | the comparison overwrites null ranks as far as it gets, which changes no comparison |
| Adlibs.InsertInPlace | meteor/lib/adlibs.ts:27 | moves an entry to its place, settling ranks on the way |
| Adlibs.SortAdlibs | meteor/lib/adlibs.ts:16-62 | returns the adlibs of the sorted list, and leaves the list sorted, whatever ranks have been overwritten |
| Adlibs.OrderIsCanonical | meteor/lib/adlibs.ts:8-9 | with distinct ids there is only one order |
| Adlibs.SortAdlibsIsCanonical | meteor/lib/adlibs.ts:8-9 | what is returned is the same for every order of the same adlibs with distinct ids |
| Adlibs.CanonicalForTwo | meteor/lib/adlibs.ts:54-58 | for two adlibs, exactly if they are the same or differ in one of the criteria |
| Adlibs.NullRanksComeLast | meteor/lib/adlibs.ts:28-44 | a sorted permutation, with null ranks last at each level |
| StableSort.SortPermutes | meteor/client/lib/RundownResolver.ts:309 | sorting loses nothing and adds nothing |
| StableSort.SortSorts | meteor/client/lib/RundownResolver.ts:309 | sorting by a total preorder puts in order |
| StableSort.SortIsStable | meteor/client/lib/RundownResolver.ts:309 | elements that compare alike keep their order |
| StableSort.SortedIsUnique | meteor/lib/adlibs.ts:8-9 | elements that only compare alike if equal can be in order in one way only |
| StableSort.SortKeepsApart | meteor/client/lib/rundown.ts:624 | sorting keeps distinct elements distinct |

## Left out

- GetPlaylistTimingDiff: the kinds of timing are a datatype; the predicates of `PlaylistTiming` are not part of this model.
- UpdateDurations: the accumulators that the source keeps in local variables and fields travel in one value through the walk, and the fields are written back after it.
- UpdateDurations: the context does not repeat the part maps and segment maps. They are the calculator's own fields, which earlier contexts share, so a reader of an old context sees new values.
- TimePart: `segmentDisplayDuration` is never anything but 0 in the source and is not carried.
- TimePart: the planned stop of a part on air gives a negative stopgap "duration" (start less stop), as in the source; `StopIsPlanned` says what comes of it.
- BudgetIsExact: what is left of the budget of the last segment is never waited out, and a part on air uses its segment's budget up, so neither is claimed.
- EvolutionOverTime: asks that something that counts is on air; without that, nothing moves.
- HistoryIndependence: the breaks are an input, as they do depend on earlier calls; `BreaksShown` says when they are right.
- ReadoutOverTime: is about shows on air with a fixed end and no segment times.
- CropPart: says how pieces are drawn; their marks of an origin in another part are in `CropLayer`, and the change of `lifespan` along with the loss of infinity is not modelled. The in-points that reach it are numbers, so no piece is without one; the type allows it, and `CroppedLayer` says what would happen.
- SortAdlibs: an engine's sort is modelled as insertion sort, so which null ranks an engine overwrites is left open; the order and the result do not depend on it.
- CompareStrings: strings are compared as sequences of code units.
- MergeSegment: reading segments, parts and instances from collections is left out; sorting is on values, not in the array of the cache.
- SegmentsAreInOrder: asks that take counts have been read of all instances or of none, which one query does, and that the segments of all parts are listed but for one. Parts of unlisted segments are not shown, but the source compares any two such segments alike, which is not an order that a sort can rely on.
- PlainSyncWithinConstant: is stated for the first day; `PlainSyncIsSound` has no such limit, and its bound grows with time.
- SyncIsSound: covers more runs than the client has, as it lets requests be answered in any order. It takes a reply's handler as one moment, and assumes that no clock jumps and that client, server and monotonic clocks drift apart by no more than the assumed rate.
- ForcedUpdateRecovers: asks that requests are answered in turn: a reply to one made before the clocks kept time, if it came later and were accepted, would undo it. The clocks may have jumped before, but not since.
- ExpectedTimeCounts: is about parts that take their time for themselves; a member of a group changes what its pool has for others (`PoolConservation` of `TimingTables`), and in a budget segment it is the budget that counts.
- UntimedIfAllPartsAre: is about segments whose parts stand together, as those of a playlist in order do.
- OutrankedIsHidden: is about layers all of whose pieces are placed, and a duration that is not negative, as all that reach it are.
- OnReturned: results and errors are opaque; Meteor is taken to call back once and later.
- GetRoutedMappings: `Object.entries` is a sequence of pairs, and options are opaque.
- `calculatePartInstanceExpectedDurationWithTransition` is an opaque optional number that is not negative.
- `Object.values` and `Map` order are the orders of the sequences given.
- JavaScript numbers are integers or reals: no NaN, infinity or rounding of floating point; strings that are empty stand for absent ones where the source tests for truth.
- `computeSegmentDuration`, `formatTimeToTimecode` and the other formatters: each is a sum or a call of a library.
- The rest of `getResolvedSegment` (layers in use, flags of a segment, adlibs) and `getPieceInstancesForPartInstance` are not part of this model, nor are pruning and resolving of piece instances.
- Running the checks and syncs on timers and at startup, logging, and the user interface are left out.
