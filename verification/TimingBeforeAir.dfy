/** What the totals are worth against each other and against the rundowns, and before the show is on air. */
module TimingBeforeAir {
  import opened JsValues
  import opened TimingModel
  import opened TimingTracks
  import opened TimingCalculator
  import opened TimingReadout
  import opened TimingConservation

  predicate Untouched(p: PartInstance) {
    && p.timings.plannedStartedPlayback == p.timings.reportedStartedPlayback == None
    && p.timings.duration == None
  }

  /** The playlist is not active, nothing has played, and no segment budget is negative. */
  ghost predicate BeforeAir(s: Show) {
    && !s.playlist.active
    && (forall i :: 0 <= i < |s.parts| ==> Untouched(s.parts[i]))
    && (forall i :: 0 <= i < |s.segmentEntries| ==> Untouched(s.segmentEntries[i]))
    && (forall id :: id in AllBudgets(s) ==> AllBudgets(s)[id] >= 0)
  }

  /** The expected durations of the floated parts that are timed and outside the budget segments. */
  function FloatedTime(s: Show, i: nat): int
    requires i <= |s.parts|
  {
    if i == 0 then 0
    else
      var p := s.parts[i-1];
      FloatedTime(s, i - 1) + if p.part.floated && !p.part.untimed && !UsesBudget(s, p) then Expected(p) else 0
  }

  lemma {:induction false} PartsBeforeAir(s: Show, now: int, i: nat)
    requires i <= |s.parts| && BeforeAir(s) && now >= 0
    ensures var t := SumsAt(s, now, i);
            t.asPlayed == t.planned && t.remaining == t.planned - FloatedTime(s, i)
  {
    if i > 0 {
      PartsBeforeAir(s, now, i - 1);
      assert Untouched(s.parts[i-1]);
    }
  }

  lemma {:induction false} NoSegmentStarts(entries: seq<PartInstance>, i: nat)
    requires i <= |entries| && forall j :: 0 <= j < |entries| ==> Untouched(entries[j])
    ensures SegmentStarts(entries, i) == map[]
  {
    if i > 0 {
      NoSegmentStarts(entries, i - 1);
    }
  }

  lemma {:induction false} SegmentsBeforeAir(s: Show, now: int, w: Progress, k: nat)
    requires k <= |s.segments| && BeforeAir(s)
    ensures PlannedTotal(s, w, k) - w.sums.planned == AsPlayedTotal(s, now, w, k) - w.sums.asPlayed
    ensures PlannedTotal(s, w, k) - w.sums.planned == RemainingTotal(s, now, w, k) - w.sums.remaining
  {
    if k > 0 {
      SegmentsBeforeAir(s, now, w, k - 1);
      NoSegmentStarts(s.segmentEntries, |s.segmentEntries|);
    }
  }

  /** Before air everything counts as played as planned, and all but the floated parts remains. */
  lemma BeforeAirTotals(s: Show, now: int, remembered: Option<Id>, tables: Tables)
    requires BeforeAir(s) && now >= 0
    ensures var w, n := WalkedAll(s, now, remembered, tables), |s.segments|;
            && AsPlayedTotal(s, now, w, n) == PlannedTotal(s, w, n)
            && RemainingTotal(s, now, w, n) == PlannedTotal(s, w, n) - FloatedTime(s, |s.parts|)
  {
    PartsBeforeAir(s, now, |s.parts|);
    SegmentsBeforeAir(s, now, WalkedAll(s, now, remembered, tables), |s.segments|);
  }

  /** So a playlist without timing or an explicit duration starts out neither over nor under. */
  lemma NeitherOverNorUnder(s: Show, now: int, remembered: Option<Id>, tables: Tables, c: TimingContext, clock: int)
    requires BeforeAir(s) && now >= 0 && s.playlist.timing == NoTiming(None)
    requires c == ContextOf(s, now, WalkedAll(s, now, remembered, tables), c.breaks, c.isLowResolution)
    ensures OverUnder(s.playlist, c, clock) == 0
  {
    BeforeAirTotals(s, now, remembered, tables);
  }

  // ---------------------------------------------------------------- as displayed, as played

  /** Skipped parts: they have not played and do not count. */
  function SkippedTime(s: Show, now: int, i: nat): int
    requires i <= |s.parts|
  {
    if i == 0 then 0
    else
      var p := s.parts[i-1];
      SkippedTime(s, now, i - 1) + if Started(p, now) || Recorded(p) || CountsAt(s, i - 1) then 0 else Expected(p)
  }

  lemma DisplayedPart(p: PartInstance, now: int, share: Option<int>, counts: bool)
    ensures AsDisplayedOf(p, now, share) ==
              AsPlayedOf(p, now, share, counts) + if Started(p, now) || Recorded(p) || counts then 0 else Expected(p)
  {
  }

  /** Where all parts are timed and outside the budget segments, as-displayed exceeds as-played by
      exactly the planned time of the skipped parts. */
  lemma {:induction false} DisplayedIsPlayedPlusSkipped(s: Show, now: int, i: nat)
    requires i <= |s.parts|
    requires forall j :: 0 <= j < i ==> !s.parts[j].part.untimed && !UsesBudget(s, s.parts[j])
    ensures SumsAt(s, now, i).asDisplayed == SumsAt(s, now, i).asPlayed + SkippedTime(s, now, i)
  {
    if i > 0 {
      DisplayedIsPlayedPlusSkipped(s, now, i - 1);
      DisplayedPart(s.parts[i-1], now, ShareAt(s, now, i - 1), CountsAt(s, i - 1));
    }
  }

  // -------------------------------------------------------------------------- per rundown

  /** The sum of the entries of a record. */
  ghost function Total(m: map<Id, int>): int {
    TotalOver(m, m.Keys)
  }

  ghost function TotalOver(m: map<Id, int>, keys: set<Id>): int
    requires keys <= m.Keys
  {
    if keys == {} then 0
    else
      var k :| k in keys;
      m[k] + TotalOver(m, keys - {k})
  }

  lemma {:induction false} TotalTakesOut(m: map<Id, int>, keys: set<Id>, k: Id)
    requires keys <= m.Keys && k in keys
    ensures TotalOver(m, keys) == m[k] + TotalOver(m, keys - {k})
    decreases keys
  {
    var j :| j in keys && TotalOver(m, keys) == m[j] + TotalOver(m, keys - {j});
    if j != k {
      TotalTakesOut(m, keys - {j}, k);
      TotalTakesOut(m, keys - {k}, j);
      assert keys - {j} - {k} == keys - {k} - {j};
    }
  }

  lemma {:induction false} TotalOverAgrees(m: map<Id, int>, n: map<Id, int>, keys: set<Id>)
    requires keys <= m.Keys && keys <= n.Keys && forall k :: k in keys ==> m[k] == n[k]
    ensures TotalOver(m, keys) == TotalOver(n, keys)
    decreases keys
  {
    if keys != {} {
      var k :| k in keys;
      TotalTakesOut(m, keys, k);
      TotalTakesOut(n, keys, k);
      TotalOverAgrees(m, n, keys - {k});
    }
  }

  lemma TotalAfterAdding(m: map<Id, int>, k: Id, v: int)
    ensures Total(m[k := Lookup(m, k) + v]) == Total(m) + v
  {
    var n := m[k := Lookup(m, k) + v];
    TotalTakesOut(n, n.Keys, k);
    if k in m {
      TotalTakesOut(m, m.Keys, k);
      assert n.Keys == m.Keys;
    } else {
      assert n.Keys - {k} == m.Keys;
    }
    TotalOverAgrees(m, n, m.Keys - {k});
    assert m.Keys - {k} == n.Keys - {k};
  }

  lemma {:induction false} PartsPerRundown(s: Show, now: int, i: nat)
    requires i <= |s.parts|
    ensures Total(RundownsPlayedAt(s, now, i)) == SumsAt(s, now, i).asPlayed
  {
    if i > 0 {
      PartsPerRundown(s, now, i - 1);
      var p, m := s.parts[i-1], RundownsPlayedAt(s, now, i - 1);
      TotalAfterAdding(m, p.part.rundownId, AsPlayedOf(p, now, ShareAt(s, now, i - 1), CountsAt(s, i - 1)));
    }
  }

  lemma {:induction false} SegmentsPerRundown(s: Show, now: int, w: Progress, k: nat)
    requires k <= |s.segments| && Total(w.rundownAsPlayed) == w.sums.asPlayed
    ensures Total(RundownAsPlayedTotal(s, now, w, k)) == AsPlayedTotal(s, now, w, k)
  {
    if k > 0 {
      SegmentsPerRundown(s, now, w, k - 1);
      TotalAfterAdding(RundownAsPlayedTotal(s, now, w, k - 1), s.segments[k-1].rundownId, SegmentAsPlayed(s, now, w, k - 1));
    }
  }

  /** The as-played times of the rundowns add up to that of the playlist. */
  lemma RundownsAddUp(s: Show, now: int, remembered: Option<Id>, tables: Tables)
    ensures var w := WalkedAll(s, now, remembered, tables);
            Total(RundownAsPlayedTotal(s, now, w, |s.segments|)) == AsPlayedTotal(s, now, w, |s.segments|)
  {
    PartsPerRundown(s, now, |s.parts|);
    SegmentsPerRundown(s, now, WalkedAll(s, now, remembered, tables), |s.segments|);
  }

  function ExpectedOf(s: Show, i: nat): int
    requires i <= |s.parts|
  {
    if i == 0 then 0 else ExpectedOf(s, i - 1) + s.parts[i-1].part.expectedDuration.GetOr(0)
  }

  /** The expected times of the rundowns add up to those of all parts. */
  lemma {:induction false} RundownsExpectedAddUp(s: Show, i: nat)
    requires i <= |s.parts|
    ensures Total(RundownsExpectedAt(s, i)) == ExpectedOf(s, i)
  {
    if i > 0 {
      RundownsExpectedAddUp(s, i - 1);
      TotalAfterAdding(RundownsExpectedAt(s, i - 1), s.parts[i-1].part.rundownId, s.parts[i-1].part.expectedDuration.GetOr(0));
    }
  }

  lemma {:induction false} NoBudgets(s: Show, now: int, w: Progress, k: nat)
    requires k <= |s.segments| && AllBudgets(s) == map[]
    ensures AsPlayedTotal(s, now, w, k) == w.sums.asPlayed
  {
    if k > 0 {
      NoBudgets(s, now, w, k - 1);
    }
  }

  /** What a caller sees of all this: of the times in one context, each is accounted for by the others. */
  lemma ContextAddsUp(s: Show, now: int, remembered: Option<Id>, tables: Tables, c: TimingContext)
    requires c == ContextOf(s, now, WalkedAll(s, now, remembered, tables), c.breaks, c.isLowResolution)
    ensures Total(c.rundownAsPlayedDurations) == c.asPlayedPlaylistDuration
    ensures Total(c.rundownExpectedDurations) == ExpectedOf(s, |s.parts|)
    ensures OneThingAtATime(s, now) ==>
              c.asPlayedPlaylistDuration - c.remainingPlaylistDuration ==
                SpentOnParts(s, now, |s.parts|) + SpentInSegments(s, now, WalkedAll(s, now, remembered, tables), |s.segments|)
    ensures AllBudgets(s) == map[] && (forall i :: 0 <= i < |s.parts| ==> !s.parts[i].part.untimed) ==>
              c.asDisplayedPlaylistDuration == c.asPlayedPlaylistDuration + SkippedTime(s, now, |s.parts|)
    ensures BeforeAir(s) && now >= 0 ==>
              c.totalPlaylistDuration == c.asPlayedPlaylistDuration
              == c.remainingPlaylistDuration + FloatedTime(s, |s.parts|)
  {
    RundownsAddUp(s, now, remembered, tables);
    RundownsExpectedAddUp(s, |s.parts|);
    if OneThingAtATime(s, now) {
      ConservationOfShowTime(s, now, remembered, tables);
    }
    if AllBudgets(s) == map[] && (forall i :: 0 <= i < |s.parts| ==> !s.parts[i].part.untimed) {
      DisplayedIsPlayedPlusSkipped(s, now, |s.parts|);
      NoBudgets(s, now, WalkedAll(s, now, remembered, tables), |s.segments|);
    }
    if BeforeAir(s) && now >= 0 {
      BeforeAirTotals(s, now, remembered, tables);
    }
  }
}
