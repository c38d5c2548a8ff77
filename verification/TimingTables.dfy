/** How parts stand to each other: the pools of the display duration groups, the starts, the untimed segments,
    the anchors, and a budget segment on air. */
module TimingTables {
  import opened JsValues
  import opened TimingModel
  import opened TimingTracks
  import opened TimingWaits

  // ------------------------------------------------------------------- display duration groups

  /** Does part `i` pool its time with those of its group? */
  predicate JoinsAt(s: Show, now: int, i: nat)
    requires i < |s.parts|
  {
    Joins(s, i, PoolsAt(s, now, i))
  }

  predicate MemberOf(s: Show, now: int, group: string, i: nat)
    requires i < |s.parts|
  {
    JoinsAt(s, now, i) && s.parts[i].part.displayDurationGroup == group
  }

  /** A pool is open once a part has joined it. */
  lemma {:induction false} PoolIsOpen(s: Show, now: int, group: string, i: nat)
    requires i <= |s.parts|
    ensures group in PoolsAt(s, now, i) <==> exists j :: 0 <= j < i && MemberOf(s, now, group, j)
  {
    if i > 0 {
      PoolIsOpen(s, now, group, i - 1);
      assert group in PoolsAt(s, now, i) <==> group in PoolsAt(s, now, i - 1) || MemberOf(s, now, group, i - 1);
    }
  }

  /** A part of a group joins it if it is neither floated nor untimed, and another has joined before or the very
      next part is of the same group. */
  lemma JoinsGroup(s: Show, now: int, i: nat)
    requires i < |s.parts|
    ensures var part := s.parts[i].part;
            JoinsAt(s, now, i) <==>
              && part.displayDurationGroup != "" && !part.floated && !part.untimed
              && ((exists j :: 0 <= j < i && MemberOf(s, now, part.displayDurationGroup, j)) ||
                  (i + 1 < |s.parts| && s.parts[i+1].part.displayDurationGroup == part.displayDurationGroup))
  {
    PoolIsOpen(s, now, s.parts[i].part.displayDurationGroup, i);
  }

  /** Does the time it shows for come out of the pool? */
  predicate Leaves(s: Show, i: nat)
    requires i < |s.parts|
  {
    var p := s.parts[i];
    !p.part.invalid && (Recorded(p) || Truthy(p.timings.plannedStoppedPlayback) || CountsAt(s, i))
  }

  /** The expected times of the members of a group, and the times that those who leave show for. */
  function Brought(s: Show, now: int, group: string, i: nat): int
    requires i <= |s.parts|
  {
    if i == 0 then 0
    else Brought(s, now, group, i - 1) + if MemberOf(s, now, group, i - 1) then Expected(s.parts[i-1]) else 0
  }

  function Taken(s: Show, now: int, group: string, i: nat): int
    requires i <= |s.parts|
  {
    if i == 0 then 0
    else
      Taken(s, now, group, i - 1) +
      if MemberOf(s, now, group, i - 1) && Leaves(s, i - 1)
      then ShownDuration(s.parts[i-1], now, ShareAt(s, now, i - 1), s.defaultDuration) else 0
  }

  lemma PoolNext(s: Show, now: int, group: string, i: nat)
    requires i < |s.parts|
    ensures Lookup(PoolsAt(s, now, i + 1), group) == Lookup(PoolsAt(s, now, i), group) +
              (if !MemberOf(s, now, group, i) then 0
               else if Leaves(s, i)
               then Expected(s.parts[i]) - ShownDuration(s.parts[i], now, ShareAt(s, now, i), s.defaultDuration)
               else Expected(s.parts[i]))
  {
  }

  /** A pool holds what its members have brought less what they have taken. */
  lemma {:induction false} PoolConservation(s: Show, now: int, group: string, i: nat)
    requires i <= |s.parts|
    ensures Lookup(PoolsAt(s, now, i), group) == Brought(s, now, group, i) - Taken(s, now, group, i)
  {
    if i > 0 {
      PoolConservation(s, now, group, i - 1);
      PoolNext(s, now, group, i - 1);
    }
  }

  /** And a member sees in it all that the members have brought so far, itself included. */
  lemma ShareIsPool(s: Show, now: int, i: nat)
    requires i < |s.parts| && JoinsAt(s, now, i)
    ensures var group := s.parts[i].part.displayDurationGroup;
            ShareAt(s, now, i) == Some(Brought(s, now, group, i + 1) - Taken(s, now, group, i))
  {
    PoolConservation(s, now, s.parts[i].part.displayDurationGroup, i);
  }

  // --------------------------------------------------------------------------------- starts

  function DurationsOf(s: Show, now: int, i: nat): int
    requires i <= |s.parts|
  {
    if i == 0 then 0 else DurationsOf(s, now, i - 1) + PartDuration(s.parts[i-1], now)
  }

  function ShownOf(s: Show, now: int, i: nat): int
    requires i <= |s.parts|
  {
    if i == 0 then 0
    else ShownOf(s, now, i - 1) + ShownDuration(s.parts[i-1], now, ShareAt(s, now, i - 1), s.defaultDuration)
  }

  /** Each part starts, and is drawn, where those before it end. */
  lemma {:induction false} StartsAreSums(s: Show, now: int, i: nat)
    requires i <= |s.parts|
    ensures TimesAt(s, now, i).startsAt == DurationsOf(s, now, i) && TimesAt(s, now, i).displayStartsAt == ShownOf(s, now, i)
  {
    if i > 0 {
      StartsAreSums(s, now, i - 1);
    }
  }

  /** What is left of the current part is decided by the last part that is on air, or is the current one and has
      not started; parts that come after do not change it. */
  lemma {:induction false} CurrentRemainingIsOfLast(s: Show, now: int, c: nat, i: nat)
    requires c < i <= |s.parts| && IsCurrent(s, s.parts[c])
    requires forall j :: c < j < i ==> !OnAir(s.parts[j], now) && !(IsCurrent(s, s.parts[j]) && !Started(s.parts[j], now))
    ensures var p, share := s.parts[c], ShareAt(s, now, c);
            && (!Started(p, now) ==> TimesAt(s, now, i).currentRemaining == DisplayDuration(p, now, share, s.defaultDuration))
            && (OnAir(p, now) ==>
                  TimesAt(s, now, i).currentRemaining
                  == LeftWhenOnAir(p, now, share, s.defaultDuration, AllBudgets(s), AllSegmentStarts(s)))
  {
    if c < i - 1 {
      CurrentRemainingIsOfLast(s, now, c, i - 1);
    }
  }

  /** When a segment started: by the last of its entry parts that is known to have started. */
  lemma {:induction false} SegmentStartIsOfLast(entries: seq<PartInstance>, k: nat, i: nat)
    requires k < i <= |entries| && entries[k].timings.reportedStartedPlayback.Some?
    requires forall j :: k < j < i ==>
               entries[j].segmentId != entries[k].segmentId || entries[j].timings.reportedStartedPlayback.None?
    ensures Lookup(SegmentStarts(entries, i), entries[k].segmentId) == entries[k].timings.reportedStartedPlayback.value
  {
    if k < i - 1 {
      SegmentStartIsOfLast(entries, k, i - 1);
    }
  }

  lemma {:induction false} SegmentStartIsUnknown(entries: seq<PartInstance>, id: Id, i: nat)
    requires i <= |entries|
    requires forall j :: 0 <= j < i ==> entries[j].segmentId != id || entries[j].timings.reportedStartedPlayback.None?
    ensures id !in SegmentStarts(entries, i)
  {
    if i > 0 {
      SegmentStartIsUnknown(entries, id, i - 1);
    }
  }

  // ----------------------------------------------------------------------- untimed segments

  /** The parts of each segment stand together. */
  ghost predicate Contiguous(s: Show) {
    forall i, j, k :: 0 <= i <= j <= k < |s.parts| && s.parts[i].segmentId == s.parts[k].segmentId ==>
      s.parts[j].segmentId == s.parts[i].segmentId
  }

  /** Then a segment is untimed if all its parts are. */
  lemma {:induction false} UntimedIfAllPartsAre(s: Show, id: Id, i: nat)
    requires i <= |s.parts| && Contiguous(s)
    ensures id in UntimedAt(s, i) <==>
              && (exists j :: 0 <= j < i && s.parts[j].segmentId == id)
              && (forall j :: 0 <= j < i && s.parts[j].segmentId == id ==> s.parts[j].part.untimed)
  {
    if i > 0 {
      UntimedIfAllPartsAre(s, id, i - 1);
      var p := s.parts[i-1];
      if p.segmentId == id && EntersSegment(s, i - 1) {
        assert forall j :: 0 <= j < i - 1 && s.parts[j].segmentId == id ==> j <= i - 2 && s.parts[i-2].segmentId == id;
      } else if p.segmentId == id {
        assert s.parts[i-2].segmentId == id;
      }
    }
  }

  // ------------------------------------------------------------------- segments and rundowns

  /** The segment that is remembered is that of the next part, once that has been found. */
  lemma {:induction false} NextSegmentIsOfNext(s: Show, remembered: Option<Id>, i: nat)
    requires i <= |s.parts|
    ensures var n := Orders(s, i).nextIndex;
            NextSegmentAt(s, remembered, i) ==
              if n >= 0 then Some(s.parts[n].segmentId)
              else if s.playlist.nextPartInstanceId.None? then None else remembered
  {
    if i > 0 {
      NextSegmentIsOfNext(s, remembered, i - 1);
    }
  }

  /** What the parts of one rundown have played, outside the budget segments. */
  function PlayedIn(s: Show, now: int, rundownId: Id, i: nat): int
    requires i <= |s.parts|
  {
    if i == 0 then 0
    else
      var p := s.parts[i-1];
      PlayedIn(s, now, rundownId, i - 1) +
      if p.part.rundownId == rundownId && !p.part.untimed && !UsesBudget(s, p)
      then AsPlayedOf(p, now, ShareAt(s, now, i - 1), CountsAt(s, i - 1)) else 0
  }

  /** What its budget segments have. */
  function SegmentsPlayedIn(s: Show, now: int, w: Progress, rundownId: Id, k: nat): int
    requires k <= |s.segments|
  {
    if k == 0 then 0
    else SegmentsPlayedIn(s, now, w, rundownId, k - 1) +
         if s.segments[k-1].rundownId == rundownId then SegmentAsPlayed(s, now, w, k - 1) else 0
  }

  lemma {:induction false} RundownHasItsParts(s: Show, now: int, rundownId: Id, i: nat)
    requires i <= |s.parts|
    ensures Lookup(RundownsPlayedAt(s, now, i), rundownId) == PlayedIn(s, now, rundownId, i)
  {
    if i > 0 {
      RundownHasItsParts(s, now, rundownId, i - 1);
    }
  }

  /** Each rundown has played what its own parts and its own budget segments have, and no other's. */
  lemma {:induction false} RundownHasItsOwn(s: Show, now: int, w: Progress, rundownId: Id, k: nat)
    requires k <= |s.segments| && w.rundownAsPlayed == RundownsPlayedAt(s, now, |s.parts|)
    ensures Lookup(RundownAsPlayedTotal(s, now, w, k), rundownId)
            == PlayedIn(s, now, rundownId, |s.parts|) + SegmentsPlayedIn(s, now, w, rundownId, k)
  {
    if k == 0 {
      RundownHasItsParts(s, now, rundownId, |s.parts|);
    } else {
      RundownHasItsOwn(s, now, w, rundownId, k - 1);
    }
  }

  function ExpectedIn(s: Show, rundownId: Id, i: nat): int
    requires i <= |s.parts|
  {
    if i == 0 then 0
    else ExpectedIn(s, rundownId, i - 1) +
         if s.parts[i-1].part.rundownId == rundownId then s.parts[i-1].part.expectedDuration.GetOr(0) else 0
  }

  /** And it is expected to take what all its own parts are. */
  lemma {:induction false} RundownIsExpected(s: Show, rundownId: Id, i: nat)
    requires i <= |s.parts|
    ensures Lookup(RundownsExpectedAt(s, i), rundownId) == ExpectedIn(s, rundownId, i)
  {
    if i > 0 {
      RundownIsExpected(s, rundownId, i - 1);
    }
  }

  // -------------------------------------------------------------------------------- anchors

  /** The segment of a part, as the anchors look it up. */
  function SegmentOf(s: Show, partId: Id): Option<Segment> {
    if partId in s.partInstancesMap && s.partInstancesMap[partId].segmentId != ""
    then FindSegment(s.segments, s.partInstancesMap[partId].segmentId) else None
  }

  /** A segment anchors at its expected start until that time has come, and then at its expected end. */
  lemma AnchorMovesOn(s: Show, partId: Id, now: int, seg: Segment)
    requires SegmentOf(s, partId) == Some(seg)
    ensures Truthy(seg.expectedStart) && now < seg.expectedStart.value ==> Anchor(s, now, partId) == seg.expectedStart
    ensures !Truthy(seg.expectedStart) || seg.expectedStart.value <= now ==>
              Anchor(s, now, partId) == if Truthy(seg.expectedEnd) then seg.expectedEnd else None
  {
  }

  lemma NoSegmentNoAnchor(s: Show, partId: Id, now: int)
    requires SegmentOf(s, partId) == None
    ensures Anchor(s, now, partId) == None
  {
  }

  /** The first part with an anchor decides. */
  lemma {:induction false} FirstAnchorIsFirst(s: Show, now: int, i: nat, end: nat, k: nat)
    requires i <= k < end <= |s.parts|
    requires Anchor(s, now, s.parts[k].part.id).Some?
    requires forall j :: i <= j < k ==> Anchor(s, now, s.parts[j].part.id) == None
    ensures FirstAnchor(s, now, i, end) == Anchor(s, now, s.parts[k].part.id)
    decreases k - i
  {
    if i < k {
      FirstAnchorIsFirst(s, now, i + 1, end, k);
    }
  }

  lemma {:induction false} NoneHasAnchor(s: Show, now: int, i: nat, end: nat)
    requires i <= end <= |s.parts| && forall j :: i <= j < end ==> Anchor(s, now, s.parts[j].part.id) == None
    ensures FirstAnchor(s, now, i, end) == None
    decreases end - i
  {
    if i < end {
      NoneHasAnchor(s, now, i + 1, end);
    }
  }

  /** In playing order from the next part on: round to the parts before it only in a looping playlist. */
  lemma NextAnchorIsFirst(s: Show, now: int, n: nat, k: nat)
    requires n <= |s.parts| && k < |s.parts| && Anchor(s, now, s.parts[k].part.id).Some?
    requires if n <= k then forall j :: n <= j < k ==> Anchor(s, now, s.parts[j].part.id) == None
             else (forall j :: n <= j < |s.parts| ==> Anchor(s, now, s.parts[j].part.id) == None) &&
                  (forall j :: 0 <= j < k ==> Anchor(s, now, s.parts[j].part.id) == None)
    ensures NextAnchor(s, now, n) == if n <= k || s.playlist.loop then Anchor(s, now, s.parts[k].part.id) else None
  {
    if n <= k {
      FirstAnchorIsFirst(s, now, n, |s.parts|, k);
    } else {
      NoneHasAnchor(s, now, n, |s.parts|);
      FirstAnchorIsFirst(s, now, 0, n, k);
    }
  }

  // -------------------------------------------------------------------------- budgets on air

  /** From the part on air on, a budget segment waits no longer: the time that its budget has left is that of the
      part itself. */
  lemma {:induction false} NoWaitAfterOnAir(s: Show, now: int, a: nat, b: nat, c: nat, k: nat)
    requires IsRun(s, a, b) && NonNegative(s) && UsesBudget(s, s.parts[a])
    requires a <= c < k <= b && OnAir(s.parts[c], now)
    ensures WaitsAt(s, now, k).wait == RecordedWait(s, now, c) && WaitsAt(s, now, k).left <= 0
  {
    WaitIsNonNegative(s, now, k - 1);
    assert s.parts[k-1].segmentId == s.parts[a].segmentId;
    if c < k - 1 {
      NoWaitAfterOnAir(s, now, a, b, c, k - 1);
      assert s.parts[k-2].segmentId == s.parts[a].segmentId;
    }
  }

  /** So the wait of the segment after a budget segment on air is that of the part on air. */
  lemma BudgetOnAir(s: Show, now: int, a: nat, b: nat, c: nat)
    requires IsRun(s, a, b) && NonNegative(s) && UsesBudget(s, s.parts[a]) && a <= c < b && OnAir(s.parts[c], now)
    ensures RecordedWait(s, now, b) == RecordedWait(s, now, c)
  {
    NoWaitAfterOnAir(s, now, a, b, c, b);
    assert s.parts[b-1].segmentId == s.parts[a].segmentId;
  }
}
