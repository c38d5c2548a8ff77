/** `RundownTimingCalculator`: one object, whose maps are reused from call to call. Every method is
    proved to leave its fields, and the numbers it returns, equal to the functions of `TimingModel`. */
module TimingCalculator {
  import opened JsValues
  import opened TimingModel
  import opened TimingTracks
  import opened ShowBreaks

  /** The per-part maps are not copied into the context: callers read them from the calculator,
      whose fields they share with every earlier context. The countdowns are copied. */
  datatype TimingContext = TimingContext(
    currentPartInstanceId: Option<Id>,
    totalPlaylistDuration: int,
    remainingPlaylistDuration: int,
    asDisplayedPlaylistDuration: int,
    asPlayedPlaylistDuration: int,
    rundownExpectedDurations: map<Id, int>,
    rundownAsPlayedDurations: map<Id, int>,
    partCountdown: map<Id, Option<int>>,
    currentTime: int,
    remainingTimeOnCurrentPart: Option<int>,
    currentPartWillAutoNext: bool,
    breaks: Option<BreakProps>,
    isLowResolution: bool,
    nextRundownAnchor: Option<int>)

  /** A temporary instance is only looked up by its part; a real one by itself, then by its part. */
  function GetPartInstanceTimingValue(values: map<Id, int>, p: PartInstance): Option<int> {
    if !p.isTemporary && p.id in values then Some(values[p.id])
    else if p.part.id in values then Some(values[p.part.id])
    else None
  }

  /** How long the current part still has to go; `shown` are the durations shown without playback. */
  function RemainingOnPart(p: PartInstance, now: int, shown: map<Id, int>): int {
    var planned := Or(p.timings.duration, Expected(p));
    var duration :=
      if p.part.displayDurationGroup != "" && !Truthy(p.part.expectedDuration)
      then GetPartInstanceTimingValue(shown, p).GetOr(planned) else planned;
    match p.timings.plannedStartedPlayback
    case Some(started) => Min(started, now) + duration - now
    case None => duration
  }

  function CurrentPart(s: Show, w: Progress): Option<PartInstance> {
    if 0 <= w.order.currentIndex < |s.parts| then Some(s.parts[w.order.currentIndex]) else None
  }

  /** `linearParts` when the countdowns have been worked out. */
  function Countdowns(s: Show, w: Progress): (linear: seq<(Id, Option<int>)>)
    ensures |linear| == |w.linear|
    ensures forall i :: 0 <= i < |linear| ==> linear[i] == (w.linear[i].0, Countdown(s, w, i))
  {
    seq(|w.linear|, i requires 0 <= i < |w.linear| => (w.linear[i].0, Countdown(s, w, i)))
  }

  /** `objectFromEntries`: of entries with the same key, the last one counts. */
  function ObjectFromEntries(entries: seq<(Id, Option<int>)>): map<Id, Option<int>> {
    if entries == [] then map[]
    else
      var (key, value) := entries[|entries|-1];
      ObjectFromEntries(entries[..|entries|-1])[key := value]
  }

  lemma {:induction false} LastEntryCounts(entries: seq<(Id, Option<int>)>, i: nat)
    requires i < |entries| && forall j :: i < j < |entries| ==> entries[j].0 != entries[i].0
    ensures entries[i].0 in ObjectFromEntries(entries) && ObjectFromEntries(entries)[entries[i].0] == entries[i].1
  {
    var n := |entries| - 1;
    if i < n {
      LastEntryCounts(entries[..n], i);
      assert entries[n].0 != entries[i].0;
    }
  }

  /** The context of a call with a playlist, given the finished walk. */
  function ContextOf(s: Show, now: int, w: Progress, breaks: Option<BreakProps>, isLowResolution: bool): TimingContext
    requires w.order.nextIndex <= |s.parts|
  {
    var current := CurrentPart(s, w);
    TimingContext(
      s.playlist.currentPartInstanceId,
      PlannedTotal(s, w, |s.segments|),
      RemainingTotal(s, now, w, |s.segments|),
      w.sums.asDisplayed,
      AsPlayedTotal(s, now, w, |s.segments|),
      w.rundownExpected,
      RundownAsPlayedTotal(s, now, w, |s.segments|),
      ObjectFromEntries(Countdowns(s, w)),
      now,
      if current.Some? then Some(RemainingOnPart(current.value, now, w.tables.noPlayback)) else None,
      current.Some? && current.value.part.autoNext && Truthy(current.value.part.expectedDuration),
      breaks,
      isLowResolution,
      NextAnchor(s, now, w.order.nextIndex))
  }

  function EmptyContext(now: int, isLowResolution: bool): TimingContext {
    TimingContext(None, 0, 0, 0, 0, map[], map[], map[], now, None, false, None, isLowResolution, None)
  }

  /** `linearParts` while the countdowns are being worked out: those before index `i` are done. */
  ghost predicate CountedDown(linearParts: seq<(Id, Option<int>)>, s: Show, w: Progress, i: nat) {
    && |linearParts| == |w.linear|
    && (forall j :: 0 <= j < |w.linear| ==> linearParts[j].0 == w.linear[j].0)
    && (forall j :: 0 <= j < i && j < |w.linear| ==> linearParts[j].1 == Countdown(s, w, j))
    && (forall j :: i <= j < |w.linear| ==> linearParts[j].1 == BeforeLoop(s, w, j))
  }

  /** The countdown of a part that a looping playlist will come back to is set by the second pass. */
  function BeforeLoop(s: Show, w: Progress, j: nat): Option<int>
    requires j < |w.linear|
  {
    if j < w.order.nextIndex && s.playlist.loop then w.linear[j].1 else Countdown(s, w, j)
  }

  /** What the walk records and selects refers to the parts walked so far. */
  ghost predicate WalkShaped(s: Show, w: Progress, i: nat)
    requires i <= |s.parts|
  {
    && |w.linear| == i && -1 <= w.order.nextIndex < i && -1 <= w.order.currentIndex < i
    && (w.order.nextIndex == -1 || w.order.nextIndex != w.order.currentIndex)
    && forall j :: 0 <= j < i ==> w.linear[j].0 == s.parts[j].part.id && w.linear[j].1.Some?
  }

  lemma WalkIsShaped(s: Show, now: int, remembered: Option<Id>, tables: Tables)
    ensures WalkShaped(s, WalkedAll(s, now, remembered, tables), |s.parts|)
  {
    OrderShape(s, |s.parts|);
    forall j | 0 <= j < |s.parts|
      ensures LinearAt(s, now, |s.parts|)[j] == (s.parts[j].part.id, Some(EnteredAt(s, now, j).wait))
    {
      LinearEntry(s, now, |s.parts|, j);
    }
  }

  /** The segment that the walk comes from when it reaches part `i`. */
  function LastSegment(s: Show, i: nat): Option<Id>
    requires i <= |s.parts|
  {
    if i == 0 then None else Some(s.parts[i-1].segmentId)
  }

  /** The pools once part `i` has added its own expected duration. */
  function Joined(s: Show, i: nat, pools: map<string, int>, share: Option<int>): map<string, int>
    requires i < |s.parts|
  {
    if share.Some? then pools[s.parts[i].part.displayDurationGroup := share.value] else pools
  }

  const NO_TABLES := Tables(map[], map[], map[], map[], map[], map[], map[])

  class RundownTimingCalculator {
    var linearParts: seq<(Id, Option<int>)>
    var nextSegmentId: Option<Id>
    var partDurations: map<Id, int>
    var partExpectedDurations: map<Id, int>
    var partPlayed: map<Id, int>
    var partStartsAt: map<Id, int>
    var partDisplayStartsAt: map<Id, int>
    var partDisplayDurations: map<Id, int>
    var partDisplayDurationsNoPlayback: map<Id, int>
    var displayDurationGroups: map<string, int>
    var segmentBudgetDurations: map<Id, int>
    var segmentStartedPlayback: map<Id, int>
    var segmentAsPlayedDurations: map<Id, int>
    var untimedSegments: set<Id>
    var breakProps: Option<BreakProps>
    var breakState: Option<string>

    constructor ()
      ensures PartMaps() == NO_TABLES && nextSegmentId == None
      ensures breakProps == None && breakState == None
    {
      linearParts, nextSegmentId := [], None;
      partDurations, partExpectedDurations, partPlayed := map[], map[], map[];
      partStartsAt, partDisplayStartsAt := map[], map[];
      partDisplayDurations, partDisplayDurationsNoPlayback := map[], map[];
      displayDurationGroups, segmentBudgetDurations, segmentStartedPlayback := map[], map[], map[];
      segmentAsPlayedDurations, untimedSegments := map[], {};
      breakProps, breakState := None, None;
    }

    function PartMaps(): Tables
      reads this
    {
      Tables(partDurations, partExpectedDurations, partPlayed, partStartsAt, partDisplayStartsAt,
             partDisplayDurations, partDisplayDurationsNoPlayback)
    }

    method UpdateDurations(now: int, isLowResolution: bool, show: Option<Show>) returns (context: TimingContext)
      modifies this
      ensures show.None? ==>
                && PartMaps() == old(PartMaps()) && nextSegmentId == old(nextSegmentId) && linearParts == []
                && breakProps == old(breakProps) && breakState == old(breakState)
                && context == EmptyContext(now, isLowResolution)
      ensures show.Some? ==>
                Updated(show.value, now, isLowResolution, old(nextSegmentId), old(PartMaps()), old(breakProps),
                        old(breakState), context)
    {
      if show.None? {
        Clear();
        return EmptyContext(now, isLowResolution);
      }
      context := UpdateShow(show.value, now, isLowResolution);
    }

    /** The fields and the context are what the finished walk gives. */
    ghost predicate Answered(s: Show, now: int, w: Progress, context: TimingContext, isLowResolution: bool)
      reads this
    {
      && WalkShaped(s, w, |s.parts|) && Holds(s, w) && CountedDown(linearParts, s, w, |s.parts|)
      && context == ContextOf(s, now, w, context.breaks, isLowResolution)
    }

    /** The state after a call with a playlist, and its result, given the state before it. */
    ghost predicate Updated(s: Show, now: int, isLowResolution: bool, remembered: Option<Id>, tables: Tables,
                            props: Option<BreakProps>, state: Option<string>, context: TimingContext)
      reads this
    {
      && Answered(s, now, WalkedAll(s, now, remembered, tables), context, isLowResolution)
      && BreaksUpdated(s, props, state, context.breaks)
    }

    /** Breaks are only looked at if there is a current rundown. */
    ghost predicate BreaksUpdated(s: Show, props: Option<BreakProps>, state: Option<string>, breaks: Option<BreakProps>)
      reads this`breakProps, this`breakState
    {
      if s.currentRundown.None? then breakProps == props && breakState == state && breaks == None
      else
        && breakProps == BreaksAfter(props, state, s.rundowns, s.currentRundown)
        && breakState == Some(BreakKey(s.rundowns)) && breaks == breakProps
    }

    method UpdateShow(s: Show, now: int, isLowResolution: bool) returns (context: TimingContext)
      modifies this
      ensures Updated(s, now, isLowResolution, old(nextSegmentId), old(PartMaps()), old(breakProps), old(breakState), context)
    {
      ghost var remembered, tables := nextSegmentId, PartMaps();
      var breaks := UpdateBreaks(s);
      assert PartMaps() == tables;
      context := AnswerShow(s, now, breaks, isLowResolution, remembered, tables);
      assert BreaksUpdated(s, old(breakProps), old(breakState), context.breaks);
    }

    method UpdateBreaks(s: Show) returns (breaks: Option<BreakProps>)
      modifies this`breakProps, this`breakState
      ensures BreaksUpdated(s, old(breakProps), old(breakState), breaks)
    {
      breaks := None;
      if s.currentRundown.Some? {
        breaks := GetRundownsBeforeNextBreak(s.rundowns, s.currentRundown);
      }
    }

    /** Walks the parts, and reads the context off the walk. */
    method AnswerShow(s: Show, now: int, breaks: Option<BreakProps>, isLowResolution: bool,
                      ghost remembered: Option<Id>, ghost tables: Tables)
      returns (context: TimingContext)
      requires remembered == nextSegmentId && tables == PartMaps()
      modifies this`linearParts, this`nextSegmentId, this`displayDurationGroups, this`segmentAsPlayedDurations,
               this`untimedSegments, this`segmentBudgetDurations, this`segmentStartedPlayback, this`partDurations,
               this`partExpectedDurations, this`partPlayed, this`partStartsAt, this`partDisplayStartsAt,
               this`partDisplayDurations, this`partDisplayDurationsNoPlayback
      ensures Answered(s, now, WalkedAll(s, now, remembered, tables), context, isLowResolution)
      ensures context.breaks == breaks
    {
      var w := Prepare(s, now);
      Keep(s, w);
      context := ReadOff(s, now, w, breaks, isLowResolution);
    }

    method CollectBudgets(s: Show)
      requires segmentBudgetDurations == map[]
      modifies this`segmentBudgetDurations
      ensures segmentBudgetDurations == AllBudgets(s)
    {
      for i := 0 to |s.parts|
        invariant segmentBudgetDurations == Budgets(s, i)
      {
        var origPart := s.parts[i].part;
        if origPart.budgetDuration.Some? {
          if origPart.segmentId in segmentBudgetDurations {
            segmentBudgetDurations := segmentBudgetDurations[origPart.segmentId :=
              segmentBudgetDurations[origPart.segmentId] + origPart.budgetDuration.value];
          } else {
            segmentBudgetDurations := segmentBudgetDurations[origPart.segmentId := origPart.budgetDuration.value];
          }
        }
      }
    }

    method CollectSegmentStarts(s: Show)
      requires segmentStartedPlayback == map[]
      modifies this`segmentStartedPlayback
      ensures segmentStartedPlayback == AllSegmentStarts(s)
    {
      for i := 0 to |s.segmentEntries|
        invariant segmentStartedPlayback == SegmentStarts(s.segmentEntries, i)
      {
        var p := s.segmentEntries[i];
        if p.timings.reportedStartedPlayback.Some? {
          segmentStartedPlayback := segmentStartedPlayback[p.segmentId := p.timings.reportedStartedPlayback.value];
        }
      }
    }

    // --------------------------------------------------------------- the walk over the parts

    /** Is this part the next one, or else the current one? */
    static method SelectPart(s: Show, i: nat, o: Order, nextBefore: Option<Id>)
      returns (order: Order, nextSegmentId: Option<Id>)
      requires i < |s.parts|
      ensures order == OrderAfter(s, i, o)
      ensures nextSegmentId == NextSegmentAfter(s, i, nextBefore)
    {
      var p := s.parts[i];
      order, nextSegmentId := o, nextBefore;
      if s.playlist.nextPartInstanceId == Some(p.id) {
        order := order.(nextIndex := i);
        nextSegmentId := Some(p.segmentId);
      } else if s.playlist.currentPartInstanceId == Some(p.id) {
        order := order.(currentIndex := i, live := Some(p.segmentId));
      }
    }

    /** A new segment waits out what is left of the budget of the previous one, and starts on its own. */
    static method EnterSegment(s: Show, budgets: map<Id, int>, i: nat, w: WaitState, untimedBefore: set<Id>,
                               lastSegmentId: Option<Id>)
      returns (waits: WaitState, untimedSegments: set<Id>)
      requires i < |s.parts|
      requires lastSegmentId == LastSegment(s, i)
      ensures waits == WaitEntered(s, budgets, i, w)
      ensures untimedSegments == UntimedAfter(s, i, untimedBefore)
    {
      var p := s.parts[i];
      waits, untimedSegments := w, untimedBefore;
      if lastSegmentId != Some(p.segmentId) {
        untimedSegments := untimedSegments + {p.segmentId};
        if waits.left > 0 {
          waits := waits.(wait := waits.wait + waits.left);
        }
        waits := waits.(left := Lookup(budgets, p.segmentId));
      }
      if !p.part.untimed {
        untimedSegments := untimedSegments - {p.segmentId};
      }
    }

    /** Lets a part pool its expected duration, if it is a member of a display duration group. */
    static method JoinGroup(s: Show, i: nat, pools: map<string, int>, ghost share: Option<int>)
      returns (memberOfGroup: bool, fromGroup: int, expected: int, joined: map<string, int>)
      requires i < |s.parts| && share == ShareOf(s, i, pools)
      ensures memberOfGroup == share.Some?
      ensures fromGroup == FromGroup(s.parts[i], share, s.defaultDuration)
      ensures expected == ExpectedOrShare(s.parts[i], share)
      ensures joined == Joined(s, i, pools, share)
    {
      var p := s.parts[i];
      var group := p.part.displayDurationGroup;
      memberOfGroup, fromGroup, joined := false, 0, pools;
      expected := OrNum(Expected(p), Or(p.timings.duration, 0));
      if && group != ""
         && (group in pools ||
             (i + 1 < |s.parts| && s.parts[i+1].part.displayDurationGroup == group))
         && !p.part.floated
         && !p.part.untimed
      {
        joined := pools[group := Lookup(pools, group) + Expected(p)];
        fromGroup := Or(p.part.displayDuration,
                        Max(0, Max(joined[group],
                                   if p.part.gap then MINIMAL_NONZERO_DURATION else s.defaultDuration)));
        expected := OrNum(expected, joined[group]);
        memberOfGroup := true;
      }
    }

    /** The variants of a part's duration, and what they leave of the current part and of the budget. */
    static method TimePart(s: Show, now: int, budgets: map<Id, int>, starts: map<Id, int>, p: PartInstance,
                           memberOfGroup: bool, fromGroup: int, remainingBefore: int, leftBefore: int,
                           ghost share: Option<int>)
      returns (partDuration: int, noPlayback: int, display: int, played: int, currentRemaining: int, budgetLeft: int)
      requires memberOfGroup == share.Some? && fromGroup == FromGroup(p, share, s.defaultDuration)
      ensures partDuration == PartDuration(p, now)
      ensures noPlayback == DisplayNoPlayback(p, now, share, s.defaultDuration)
      ensures display == ShownDuration(p, now, share, s.defaultDuration)
      ensures played == PlayedDuration(p, now)
      ensures currentRemaining ==
                CurrentRemainingAfter(s, now, p, share, budgets, starts, remainingBefore)
      ensures budgetLeft == LeftOnAir(p, now, p.segmentId in budgets, leftBefore)
    {
      var lastStartedPlayback := LastStarted(p, now);
      var playOffset := Or(p.timings.playOffset, 0);
      currentRemaining, budgetLeft := remainingBefore, leftBefore;
      if Truthy(lastStartedPlayback) && !Truthy(p.timings.duration) {
        var started := lastStartedPlayback.value;
        var duration := if Truthy(p.timings.plannedStoppedPlayback)
                        then Some(started - p.timings.plannedStoppedPlayback.value) else None;
        partDuration := Max(Or(duration, Expected(p)), now - started) - playOffset;
        noPlayback := Or(duration, OrNum(if memberOfGroup then fromGroup else Expected(p), s.defaultDuration));
        display := Max(noPlayback, now - started);
        played := now - started;
        var segmentStarted := OrNum(Lookup(starts, p.segmentId), started);
        if p.segmentId in budgets {
          // the source also subtracts segmentDisplayDuration here, which is never anything but 0
          currentRemaining := Max(0, budgets[p.segmentId] - (now - segmentStarted));
          budgetLeft := 0;
        } else {
          currentRemaining :=
            Max(0, Or(duration, OrNum(if memberOfGroup then fromGroup else Expected(p), 0)) - (now - started));
        }
      } else {
        partDuration := Or(p.timings.duration, Expected(p)) - playOffset;
        noPlayback :=
          Max(0, OrNum(if Truthy(p.timings.duration) then p.timings.duration.value + playOffset else 0,
                       OrNum(fromGroup, EnsureMinimumDefaultDurationIfNotAuto(p, p.expected, s.defaultDuration))));
        display := noPlayback;
        played := Or(p.timings.duration, 0) - playOffset;
      }
      // nothing of the current part has been used up before it starts
      if s.playlist.currentPartInstanceId == Some(p.id) && !Truthy(lastStartedPlayback) {
        currentRemaining := display;
      }
      if p.part.invalid && !p.part.gap {
        display, played := s.defaultDuration, 0;
      }
    }

    /** As-played time goes to the totals, or, in a budget segment, to the segment. */
    static method AddAsPlayed(p: PartInstance, now: int, segmentUsesBudget: bool, partExpectedDuration: int, partCounts: bool,
                              asPlayedBefore: int, rundownBefore: map<Id, int>, segmentsBefore: map<Id, int>,
                              ghost share: Option<int>)
      returns (asPlayed: int, rundownAsPlayed: map<Id, int>, segmentsAsPlayed: map<Id, int>)
      requires partExpectedDuration == ExpectedOrShare(p, share)
      ensures asPlayed == asPlayedBefore + if p.part.untimed || segmentUsesBudget then 0
                                           else AsPlayedOf(p, now, share, partCounts)
      ensures rundownAsPlayed == RundownAsPlayedAfter(p, now, share, partCounts, segmentUsesBudget, rundownBefore)
      ensures segmentsAsPlayed == SegmentsAsPlayedAfter(p, now, segmentUsesBudget, segmentsBefore)
    {
      var lastStartedPlayback := LastStarted(p, now);
      asPlayed, rundownAsPlayed, segmentsAsPlayed := asPlayedBefore, rundownBefore, segmentsBefore;
      if !p.part.untimed {
        var valToAdd := 0;
        if !segmentUsesBudget {
          if Truthy(lastStartedPlayback) && !Truthy(p.timings.duration) {
            valToAdd := Max(partExpectedDuration, now - lastStartedPlayback.value);
          } else if Truthy(p.timings.duration) {
            valToAdd := p.timings.duration.value;
          } else if partCounts {
            valToAdd := Expected(p);
          }
          asPlayed := asPlayed + valToAdd;
          rundownAsPlayed := AddTo(rundownAsPlayed, p.part.rundownId, valToAdd);
        } else {
          if Truthy(p.timings.duration) {
            valToAdd := p.timings.duration.value;
          } else if Truthy(lastStartedPlayback) {
            var stopped := if Truthy(p.timings.reportedStoppedPlayback)
                           then Min(p.timings.reportedStoppedPlayback.value, now) else now;
            valToAdd := stopped - lastStartedPlayback.value;
          }
          segmentsAsPlayed := segmentsAsPlayed[p.segmentId := Lookup(segmentsAsPlayed, p.segmentId) + valToAdd];
        }
      }
    }

    /** Sets an entry that is missing or 0, and adds to any other. */
    static method AddTo(before: map<Id, int>, key: Id, value: int) returns (after: map<Id, int>)
      ensures after == before[key := Lookup(before, key) + value]
    {
      if Lookup(before, key) == 0 {
        after := before[key := value];
      } else {
        after := before[key := before[key] + value];
      }
    }

    static method AddAsDisplayed(p: PartInstance, now: int, memberOfGroup: bool, partExpectedDuration: int, before: int,
                                 ghost share: Option<int>)
      returns (asDisplayed: int)
      requires memberOfGroup == share.Some? && partExpectedDuration == ExpectedOrShare(p, share)
      ensures asDisplayed == before + AsDisplayedOf(p, now, share)
    {
      var lastStartedPlayback := LastStarted(p, now);
      if Truthy(lastStartedPlayback) && !Truthy(p.timings.duration) {
        asDisplayed := before +
          Max(if memberOfGroup then Max(partExpectedDuration, Expected(p)) else Expected(p), now - lastStartedPlayback.value);
      } else {
        asDisplayed := before + Or(p.timings.duration, Expected(p));
      }
    }

    static method AddRemaining(p: PartInstance, now: int, partExpectedDuration: int, partCounts: bool, isCurrent: bool,
                               segmentUsesBudget: bool, before: int, ghost share: Option<int>)
      returns (remaining: int)
      requires partExpectedDuration == ExpectedOrShare(p, share)
      ensures remaining == before + if p.part.untimed || segmentUsesBudget then 0
                                    else RemainingOf(p, now, share, partCounts, isCurrent)
    {
      var lastStartedPlayback := LastStarted(p, now);
      remaining := before;
      if !segmentUsesBudget {
        if lastStartedPlayback.None? && !p.part.floated && partCounts && !p.part.untimed {
          remaining := remaining + Expected(p);
        } else if && Truthy(lastStartedPlayback)
                  && !Truthy(p.timings.duration)
                  && isCurrent
                  && lastStartedPlayback.value + partExpectedDuration > now
                  && !p.part.untimed
        {
          remaining := remaining + Max(0, partExpectedDuration - (now - lastStartedPlayback.value));
        }
      }
    }

    /** Adds a part to the totals, where they are sums over the parts. */
    static method AddToSums(p: PartInstance, now: int, segmentUsesBudget: bool, memberOfGroup: bool, partExpectedDuration: int,
                            partCounts: bool, isCurrent: bool, t: Sums, rundownBefore: map<Id, int>,
                            segmentsBefore: map<Id, int>, ghost share: Option<int>)
      returns (sums: Sums, rundownAsPlayed: map<Id, int>, segmentsAsPlayed: map<Id, int>)
      requires memberOfGroup == share.Some? && partExpectedDuration == ExpectedOrShare(p, share)
      ensures sums == SumsAfter(p, now, share, partCounts, isCurrent, segmentUsesBudget, t)
      ensures rundownAsPlayed == RundownAsPlayedAfter(p, now, share, partCounts, segmentUsesBudget, rundownBefore)
      ensures segmentsAsPlayed == SegmentsAsPlayedAfter(p, now, segmentUsesBudget, segmentsBefore)
    {
      var planned, asPlayed := t.planned, 0;
      if !segmentUsesBudget && !p.part.untimed {
        planned := planned + Expected(p);
      }
      asPlayed, rundownAsPlayed, segmentsAsPlayed :=
        AddAsPlayed(p, now, segmentUsesBudget, partExpectedDuration, partCounts, t.asPlayed, rundownBefore, segmentsBefore,
                    share);
      var asDisplayed := AddAsDisplayed(p, now, memberOfGroup, partExpectedDuration, t.asDisplayed, share);
      var remaining :=
        AddRemaining(p, now, partExpectedDuration, partCounts, isCurrent, segmentUsesBudget, t.remaining, share);
      sums := Sums(planned, remaining, asPlayed, asDisplayed);
    }

    /** The time a member shows for is taken out of the pool of its group. */
    static method LeaveGroup(s: Show, now: int, i: nat, memberOfGroup: bool, partCounts: bool, partDisplayDuration: int,
                             joined: map<string, int>, ghost share: Option<int>, ghost pools: map<string, int>)
      returns (groups: map<string, int>)
      requires i < |s.parts| && share == ShareOf(s, i, pools) && memberOfGroup == share.Some?
      requires partDisplayDuration == ShownDuration(s.parts[i], now, share, s.defaultDuration)
      requires joined == Joined(s, i, pools, share)
      ensures groups == PoolsAfter(s, now, i, partCounts, pools)
    {
      var p := s.parts[i];
      var group := p.part.displayDurationGroup;
      groups := joined;
      if && memberOfGroup && group != "" && !p.part.floated && !p.part.invalid && !p.part.untimed
         && (Truthy(p.timings.duration) || Truthy(p.timings.plannedStoppedPlayback) || partCounts)
      {
        groups := groups[group := groups[group] - partDisplayDuration];
      }
    }

    /** What the tables hold for a part, under the part's key. */
    static method RecordPart(p: PartInstance, now: int, default: int, partExpectedDuration: int, partDuration: int,
                             noPlayback: int, partDisplayDuration: int, played: int, t: Times, currentRemaining: int,
                             before: Tables, ghost share: Option<int>)
      returns (times: Times, tables: Tables)
      requires partExpectedDuration == ExpectedOrShare(p, share)
      requires partDuration == PartDuration(p, now) && played == PlayedDuration(p, now)
      requires noPlayback == DisplayNoPlayback(p, now, share, default)
      requires partDisplayDuration == ShownDuration(p, now, share, default)
      ensures tables == TablesAfter(p, now, share, default, t, before)
      ensures times == Times(currentRemaining, t.startsAt + partDuration, t.displayStartsAt + partDisplayDuration)
    {
      var key := TimingId(p);
      tables := Tables(before.durations[key := partDuration],
                       before.expected[key := partExpectedDuration],
                       before.played[key := played],
                       before.startsAt[key := t.startsAt],
                       before.displayStartsAt[key := t.displayStartsAt],
                       before.displayDurations[key := partDisplayDuration],
                       before.noPlayback[key := noPlayback]);
      times := Times(currentRemaining, t.startsAt + tables.durations[key], t.displayStartsAt + tables.displayDurations[key]);
    }

    static method PartCounts(s: Show, i: nat, order: Order) returns (partCounts: bool)
      requires -1 <= order.nextIndex <= i && -1 <= order.currentIndex <= i
      ensures partCounts == Counts(s, order)
    {
      partCounts :=
        || s.playlist.outOfOrderTiming
        || !s.playlist.active
        || (i >= order.currentIndex && order.currentIndex >= 0)
        || (i >= order.nextIndex && order.nextIndex >= 0 && order.currentIndex == -1);
    }

    /** Waits for a part; `left` is what its going on air has left of the budget. */
    static method AddWait(p: PartInstance, now: int, segmentUsesBudget: bool, memberOfGroup: bool, partDisplayDuration: int,
                          wait: int, left: int, ghost entered: WaitState, ghost share: Option<int>, ghost default: int)
      returns (waits: WaitState)
      requires memberOfGroup == share.Some? && partDisplayDuration == ShownDuration(p, now, share, default)
      requires wait == entered.wait && left == LeftOnAir(p, now, segmentUsesBudget, entered.left)
      ensures waits == WaitAfter(p, now, segmentUsesBudget, WaitDuration(p, now, share, default), entered)
    {
      var waitDuration := 0;
      if memberOfGroup {
        waitDuration := Or(p.timings.duration, OrNum(partDisplayDuration, Expected(p)));
      } else {
        waitDuration := Or(p.timings.duration, Expected(p));
      }
      if segmentUsesBudget {
        waits := WaitState(wait + Min(waitDuration, Max(left, 0)), left - waitDuration);
      } else {
        waits := WaitState(wait + waitDuration, left);
      }
    }

    /** Times a part, records it in the tables, and takes the time it shows for out of its group. */
    static method TimeAndRecord(s: Show, now: int, budgets: map<Id, int>, starts: map<Id, int>, i: nat, memberOfGroup: bool,
                                fromGroup: int, partExpectedDuration: int, partCounts: bool, joined: map<string, int>,
                                t: Times, entered: WaitState, before: Tables,
                                ghost share: Option<int>, ghost pools: map<string, int>)
      returns (groups: map<string, int>, times: Times, tables: Tables, waits: WaitState)
      requires i < |s.parts| && share == ShareOf(s, i, pools) && joined == Joined(s, i, pools, share)
      requires memberOfGroup == share.Some? && fromGroup == FromGroup(s.parts[i], share, s.defaultDuration)
      requires partExpectedDuration == ExpectedOrShare(s.parts[i], share)
      ensures groups == PoolsAfter(s, now, i, partCounts, pools)
      ensures times == TimesAfter(s, now, s.parts[i], share, budgets, starts, t)
      ensures tables == TablesAfter(s.parts[i], now, share, s.defaultDuration, t, before)
      ensures waits == WaitAfter(s.parts[i], now, s.parts[i].segmentId in budgets,
                                 WaitDuration(s.parts[i], now, share, s.defaultDuration), entered)
    {
      var p := s.parts[i];
      var partDuration, noPlayback, partDisplayDuration, played, currentRemaining, left :=
        TimePart(s, now, budgets, starts, p, memberOfGroup, fromGroup, t.currentRemaining, entered.left, share);
      groups := LeaveGroup(s, now, i, memberOfGroup, partCounts, partDisplayDuration, joined, share, pools);
      times, tables :=
        RecordPart(p, now, s.defaultDuration, partExpectedDuration, partDuration, noPlayback, partDisplayDuration, played,
                   t, currentRemaining, before, share);
      waits := AddWait(p, now, p.segmentId in budgets, memberOfGroup, partDisplayDuration, entered.wait, left, entered, share,
                       s.defaultDuration);
    }

    /** One round of the walk. The source keeps the accumulators in local variables and fields; here
        they travel in `w`, and `WalkParts` puts the fields back. */
    static method WalkPart(s: Show, now: int, budgets: map<Id, int>, starts: map<Id, int>, i: nat, w: Progress,
                           lastSegmentId: Option<Id>)
      returns (after: Progress)
      requires i < |s.parts|
      requires -1 <= w.order.nextIndex < i && -1 <= w.order.currentIndex < i
      requires lastSegmentId == LastSegment(s, i)
      ensures after == Step(s, now, budgets, starts, i, w)
    {
      var p := s.parts[i];
      var entered, untimedSegments := EnterSegment(s, budgets, i, w.waits, w.untimed, lastSegmentId);
      var order, nextSegmentId := SelectPart(s, i, w.order, w.nextSegment);
      var partCounts := PartCounts(s, i, order);
      var segmentUsesBudget := p.segmentId in budgets;
      ghost var share := ShareOf(s, i, w.pools);
      var memberOfGroup, fromGroup, partExpectedDuration, joined := JoinGroup(s, i, w.pools, share);
      var groups, times, tables, waits :=
        TimeAndRecord(s, now, budgets, starts, i, memberOfGroup, fromGroup, partExpectedDuration, partCounts, joined,
                      w.times, entered, w.tables, share, w.pools);
      var sums, rundownAsPlayed, segmentsAsPlayed :=
        AddToSums(p, now, segmentUsesBudget, memberOfGroup, partExpectedDuration, partCounts,
                  s.playlist.currentPartInstanceId == Some(p.id), w.sums, w.rundownAsPlayed, w.segmentsAsPlayed, share);
      var rundownExpected := AddTo(w.rundownExpected, p.part.rundownId, p.part.expectedDuration.GetOr(0));
      after := Progress(order, nextSegmentId, untimedSegments, waits, w.linear + [(p.part.id, Some(entered.wait))], groups,
                        times, sums, rundownExpected, rundownAsPlayed, segmentsAsPlayed, tables);
    }

    static method WalkParts(s: Show, now: int, budgets: map<Id, int>, starts: map<Id, int>, start: Progress,
                            ghost remembered: Option<Id>)
      returns (w: Progress)
      requires budgets == AllBudgets(s) && starts == AllSegmentStarts(s)
      requires start == Start(s, remembered, start.tables)
      ensures w == WalkedAll(s, now, remembered, start.tables)
    {
      WalkStart(s, now, remembered, start.tables);
      w := start;
      var lastSegmentId := None;
      for i := 0 to |s.parts|
        invariant w == Walked(s, now, remembered, start.tables, i)
        invariant lastSegmentId == LastSegment(s, i)
      {
        w := WalkOn(s, now, budgets, starts, i, w, lastSegmentId, remembered, start.tables);
        lastSegmentId := Some(s.parts[i].segmentId);
      }
    }

    static method WalkOn(s: Show, now: int, budgets: map<Id, int>, starts: map<Id, int>, i: nat, w: Progress,
                         lastSegmentId: Option<Id>, ghost remembered: Option<Id>, ghost tables: Tables)
      returns (after: Progress)
      requires i < |s.parts| && lastSegmentId == LastSegment(s, i)
      requires budgets == AllBudgets(s) && starts == AllSegmentStarts(s) && w == Walked(s, now, remembered, tables, i)
      ensures after == Walked(s, now, remembered, tables, i + 1)
    {
      after := WalkPart(s, now, budgets, starts, i, w, lastSegmentId);
      WalkStep(s, now, remembered, tables, i);
    }

    method KeepWalk(w: Progress)
      modifies this`linearParts, this`nextSegmentId, this`displayDurationGroups, this`segmentAsPlayedDurations,
               this`untimedSegments
      ensures linearParts == w.linear && nextSegmentId == w.nextSegment && displayDurationGroups == w.pools
      ensures segmentAsPlayedDurations == w.segmentsAsPlayed && untimedSegments == w.untimed
    {
      linearParts, nextSegmentId, untimedSegments := w.linear, w.nextSegment, w.untimed;
      displayDurationGroups, segmentAsPlayedDurations := w.pools, w.segmentsAsPlayed;
    }

    method KeepTables(t: Tables)
      modifies this`partDurations, this`partExpectedDurations, this`partPlayed, this`partStartsAt,
               this`partDisplayStartsAt, this`partDisplayDurations, this`partDisplayDurationsNoPlayback
      ensures PartMaps() == t
    {
      partDurations, partExpectedDurations, partPlayed := t.durations, t.expected, t.played;
      partStartsAt, partDisplayStartsAt := t.startsAt, t.displayStartsAt;
      partDisplayDurations, partDisplayDurationsNoPlayback := t.displayDurations, t.noPlayback;
    }

    method Keep(s: Show, w: Progress)
      requires segmentBudgetDurations == AllBudgets(s) && segmentStartedPlayback == AllSegmentStarts(s)
      modifies this`linearParts, this`nextSegmentId, this`displayDurationGroups, this`segmentAsPlayedDurations,
               this`untimedSegments, this`partDurations, this`partExpectedDurations, this`partPlayed, this`partStartsAt,
               this`partDisplayStartsAt, this`partDisplayDurations, this`partDisplayDurationsNoPlayback
      ensures Holds(s, w) && linearParts == w.linear
    {
      KeepWalk(w);
      KeepTables(w.tables);
    }

    /** Clears what must not survive from the previous call, and walks the parts. */
    method Prepare(s: Show, now: int) returns (w: Progress)
      modifies this`linearParts, this`nextSegmentId, this`displayDurationGroups, this`segmentAsPlayedDurations,
               this`untimedSegments, this`segmentBudgetDurations, this`segmentStartedPlayback
      ensures w == WalkedAll(s, now, old(nextSegmentId), old(PartMaps())) && WalkShaped(s, w, |s.parts|)
      ensures segmentBudgetDurations == AllBudgets(s) && segmentStartedPlayback == AllSegmentStarts(s)
    {
      var start := Begin(s);
      w := WalkParts(s, now, segmentBudgetDurations, segmentStartedPlayback, start, old(nextSegmentId));
      WalkIsShaped(s, now, old(nextSegmentId), old(PartMaps()));
    }

    method Begin(s: Show) returns (start: Progress)
      modifies this`linearParts, this`nextSegmentId, this`displayDurationGroups, this`segmentAsPlayedDurations,
               this`untimedSegments, this`segmentBudgetDurations, this`segmentStartedPlayback
      ensures start == Start(s, old(nextSegmentId), PartMaps())
      ensures segmentBudgetDurations == AllBudgets(s) && segmentStartedPlayback == AllSegmentStarts(s)
    {
      Clear();
      if s.playlist.nextPartInstanceId.None? {
        nextSegmentId := None;
      }
      CollectBudgets(s);
      CollectSegmentStarts(s);
      start := Progress(Order(-1, -1, None), nextSegmentId, untimedSegments, WaitState(0, 0), linearParts,
                        displayDurationGroups, Times(0, 0, 0), Sums(0, 0, 0, 0), map[], map[],
                        segmentAsPlayedDurations, PartMaps());
    }

    method Clear()
      modifies this`linearParts, this`displayDurationGroups, this`segmentAsPlayedDurations, this`untimedSegments,
               this`segmentBudgetDurations, this`segmentStartedPlayback
      ensures displayDurationGroups == segmentBudgetDurations == segmentStartedPlayback == segmentAsPlayedDurations == map[]
      ensures untimedSegments == {} && linearParts == []
    {
      displayDurationGroups, segmentBudgetDurations, segmentStartedPlayback := map[], map[], map[];
      segmentAsPlayedDurations, untimedSegments, linearParts := map[], {}, [];
    }

    /** The fields, but for `linearParts`, are what the walk found. */
    ghost predicate Holds(s: Show, w: Progress)
      reads this
    {
      && PartMaps() == w.tables && nextSegmentId == w.nextSegment
      && displayDurationGroups == w.pools && segmentAsPlayedDurations == w.segmentsAsPlayed && untimedSegments == w.untimed
      && segmentBudgetDurations == AllBudgets(s) && segmentStartedPlayback == AllSegmentStarts(s)
    }

    /** Everything that is read off the finished walk. */
    method ReadOff(s: Show, now: int, w: Progress, breaks: Option<BreakProps>, isLowResolution: bool)
      returns (context: TimingContext)
      requires WalkShaped(s, w, |s.parts|) && Holds(s, w) && linearParts == w.linear
      modifies this`linearParts
      ensures Answered(s, now, w, context, isLowResolution) && context.breaks == breaks
    {
      var anchor := CountAll(s, now, w);
      var sums, rundownAsPlayed := AddSegmentBudgets(s, now, w);
      var left, autoNext := CurrentPartReadout(s, now, w);
      context := TimingContext(s.playlist.currentPartInstanceId, sums.planned, sums.remaining, sums.asDisplayed,
                               sums.asPlayed, w.rundownExpected, rundownAsPlayed, ObjectFromEntries(linearParts), now,
                               left, autoNext, breaks, isLowResolution, anchor);
    }

    // ------------------------------------------------------------------------ the countdowns

    method CountAll(s: Show, now: int, w: Progress) returns (anchor: Option<int>)
      requires linearParts == w.linear && WalkShaped(s, w, |s.parts|)
      modifies this`linearParts
      ensures linearParts == Countdowns(s, w) && CountedDown(linearParts, s, w, |s.parts|)
      ensures anchor == NextAnchor(s, now, w.order.nextIndex)
    {
      var localAccum;
      localAccum, anchor := CountDown(s, now, w);
      anchor := LoopAround(s, now, w, localAccum, anchor);
    }

    method CountDown(s: Show, now: int, w: Progress) returns (localAccum: int, nextRundownAnchor: Option<int>)
      requires linearParts == w.linear && WalkShaped(s, w, |s.parts|)
      modifies this`linearParts
      ensures localAccum == WaitOfNext(w)
      ensures nextRundownAnchor == FirstAnchor(s, now, Max(w.order.nextIndex, 0), |s.parts|)
      ensures CountedDown(linearParts, s, w, 0)
    {
      var nextAIndex, currentAIndex := w.order.nextIndex, w.order.currentIndex;
      localAccum, nextRundownAnchor := 0, None;
      for i := 0 to |linearParts|
        invariant |linearParts| == |s.parts|
        invariant i > nextAIndex ==> localAccum == WaitOfNext(w)
        invariant FirstAnchor(s, now, Max(nextAIndex, 0), |s.parts|) ==
            if nextRundownAnchor.Some? then nextRundownAnchor
            else FirstAnchor(s, now, Max(i, Max(nextAIndex, 0)), |s.parts|)
        invariant forall j :: 0 <= j < i ==> linearParts[j] == (w.linear[j].0, BeforeLoop(s, w, j))
        invariant forall j :: i <= j < |s.parts| ==> linearParts[j] == w.linear[j]
      {
        var (partId, wait) := linearParts[i];
        if i < nextAIndex {
          localAccum := wait.GetOr(0);
          if !s.playlist.loop {
            linearParts := linearParts[i := (partId, None)];
          }
        } else {
          if i == currentAIndex {
          } else if i == nextAIndex {
            localAccum := wait.GetOr(0);
            linearParts := linearParts[i := (partId, Some(w.times.currentRemaining))];
          } else {
            linearParts := linearParts[i := (partId, Some(wait.GetOr(0) - localAccum + w.times.currentRemaining))];
          }
          if nextRundownAnchor.None? {
            nextRundownAnchor := Anchor(s, now, partId);
          }
        }
      }
    }

    /** In a looping playlist, the parts before the next one come after the last. */
    method LoopAround(s: Show, now: int, w: Progress, localAccum: int, anchor: Option<int>)
      returns (nextRundownAnchor: Option<int>)
      requires WalkShaped(s, w, |s.parts|) && localAccum == WaitOfNext(w)
      requires anchor == FirstAnchor(s, now, Max(w.order.nextIndex, 0), |s.parts|)
      requires CountedDown(linearParts, s, w, 0)
      modifies this`linearParts
      ensures nextRundownAnchor == NextAnchor(s, now, w.order.nextIndex)
      ensures CountedDown(linearParts, s, w, |s.parts|)
    {
      nextRundownAnchor := anchor;
      if s.playlist.loop {
        for i := 0 to Max(w.order.nextIndex, 0)
          invariant CountedDown(linearParts, s, w, i)
          invariant NextAnchor(s, now, w.order.nextIndex) ==
              if nextRundownAnchor.Some? then nextRundownAnchor else FirstAnchor(s, now, i, Max(w.order.nextIndex, 0))
        {
          var (partId, wait) := linearParts[i];
          linearParts :=
            linearParts[i := (partId, Some(wait.GetOr(0) + w.waits.wait - localAccum + w.times.currentRemaining))];
          if nextRundownAnchor.None? {
            nextRundownAnchor := Anchor(s, now, partId);
          }
        }
      }
    }

    // ------------------------------------------------------------------- after the countdowns

    method AddSegmentBudgets(s: Show, now: int, w: Progress) returns (after: Sums, rundownAsPlayed: map<Id, int>)
      requires nextSegmentId == w.nextSegment
      requires segmentBudgetDurations == AllBudgets(s) && segmentStartedPlayback == AllSegmentStarts(s)
      requires segmentAsPlayedDurations == w.segmentsAsPlayed && untimedSegments == w.untimed
      ensures after == Sums(PlannedTotal(s, w, |s.segments|), RemainingTotal(s, now, w, |s.segments|),
                            AsPlayedTotal(s, now, w, |s.segments|), w.sums.asDisplayed)
      ensures rundownAsPlayed == RundownAsPlayedTotal(s, now, w, |s.segments|)
    {
      var total, remaining, asPlayed := w.sums.planned, w.sums.remaining, w.sums.asPlayed;
      rundownAsPlayed := w.rundownAsPlayed;
      var nextSegmentIndex := -1;
      for k := 0 to |s.segments|
        invariant -1 <= nextSegmentIndex < k
        invariant nextSegmentIndex >= 0 <==> Reached(s, w.nextSegment, k)
        invariant total == PlannedTotal(s, w, k)
        invariant remaining == RemainingTotal(s, now, w, k)
        invariant asPlayed == AsPlayedTotal(s, now, w, k)
        invariant rundownAsPlayed == RundownAsPlayedTotal(s, now, w, k)
      {
        var segment := s.segments[k];
        if nextSegmentId == Some(segment.id) {
          nextSegmentIndex := k;
        }
        if segment.id in segmentBudgetDurations && segment.id !in untimedSegments {
          var budget := segmentBudgetDurations[segment.id];
          total := total + budget;
          var addToAsPlayed, addToRemaining := 0, 0;
          if w.order.live == Some(segment.id) {
            var startedPlayback := Lookup(segmentStartedPlayback, segment.id);
            var since := if startedPlayback != 0 then now - startedPlayback else 0;
            addToRemaining := Max(0, budget - since);
            addToAsPlayed := Max(since, budget);
          } else if !s.playlist.active || (nextSegmentIndex >= 0 && k >= nextSegmentIndex) {
            addToAsPlayed, addToRemaining := budget, budget;
          } else {
            addToAsPlayed := Lookup(segmentAsPlayedDurations, segment.id);
          }
          remaining := remaining + addToRemaining;
          asPlayed := asPlayed + addToAsPlayed;
          rundownAsPlayed := rundownAsPlayed[segment.rundownId := Lookup(rundownAsPlayed, segment.rundownId) + addToAsPlayed];
        }
      }
      after := Sums(total, remaining, asPlayed, w.sums.asDisplayed);
    }

    method CurrentPartReadout(s: Show, now: int, w: Progress) returns (left: Option<int>, autoNext: bool)
      requires WalkShaped(s, w, |s.parts|)
      requires partDisplayDurationsNoPlayback == w.tables.noPlayback
      ensures var current := CurrentPart(s, w);
              && left == (if current.Some? then Some(RemainingOnPart(current.value, now, w.tables.noPlayback)) else None)
              && autoNext == (current.Some? && current.value.part.autoNext && Truthy(current.value.part.expectedDuration))
    {
      left, autoNext := None, false;
      if w.order.currentIndex >= 0 {
        var p := s.parts[w.order.currentIndex];
        var onAirPartDuration := Or(p.timings.duration, Expected(p));
        if p.part.displayDurationGroup != "" && !Truthy(p.part.expectedDuration) {
          onAirPartDuration := GetPartInstanceTimingValue(partDisplayDurationsNoPlayback, p).GetOr(onAirPartDuration);
        }
        var started := p.timings.plannedStartedPlayback;
        left := Some(if started.Some? then Min(started.value, now) + onAirPartDuration - now else onAirPartDuration);
        autoNext := p.part.autoNext && Truthy(p.part.expectedDuration);
      }
    }

    // ------------------------------------------------------------------------------- breaks

    method GetRundownsBeforeNextBreak(orderedRundowns: seq<Rundown>, currentRundown: Option<Rundown>)
      returns (r: Option<BreakProps>)
      modifies this`breakProps, this`breakState
      ensures r == breakProps == BreaksAfter(old(breakProps), old(breakState), orderedRundowns, currentRundown)
      ensures breakState == Some(BreakKey(orderedRundowns))
    {
      var currentState := "";
      assert orderedRundowns[0..] == orderedRundowns;
      for i := 0 to |orderedRundowns|
        invariant BreakKey(orderedRundowns) == currentState + BreakKey(orderedRundowns[i..])
      {
        var flag := FlagText(orderedRundowns[i].endOfRundownIsShowBreak);
        assert orderedRundowns[i..][1..] == orderedRundowns[i + 1..];
        assert currentState + (flag + BreakKey(orderedRundowns[i + 1..]))
            == currentState + flag + BreakKey(orderedRundowns[i + 1..]);
        currentState := currentState + flag;
      }
      assert orderedRundowns[|orderedRundowns|..] == [];
      assert currentState + "" == currentState;
      if breakState != Some(currentState) {
        RecalculateBreaks(orderedRundowns, currentRundown);
      }
      breakState := Some(currentState);
      r := breakProps;
    }

    method RecalculateBreaks(orderedRundowns: seq<Rundown>, currentRundown: Option<Rundown>)
      modifies this`breakProps
      ensures breakProps == Breaks(orderedRundowns, currentRundown)
    {
      if currentRundown.None? {
        breakProps := None;
        return;
      }
      var currentRundownIndex := IndexOfRundown(orderedRundowns, currentRundown.value.id, 0);
      if currentRundownIndex == -1 {
        breakProps := None;
        return;
      }
      var nextBreakIndex := NextBreak(orderedRundowns, currentRundownIndex);
      var before := if nextBreakIndex == -1 then [] else orderedRundowns[currentRundownIndex..nextBreakIndex + 1];
      breakProps := Some(BreakProps(before, nextBreakIndex == |orderedRundowns| - 1));
    }
  }
}
