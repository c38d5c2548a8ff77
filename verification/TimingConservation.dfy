/** Where the time of a show goes: what has been played, what remains, and what was planned. */
module TimingConservation {
  import opened JsValues
  import opened TimingModel
  import opened TimingTracks

  /** The current part is the only one that started and has no recorded duration; whatever has a
      recorded duration has started; and no start is the number 0, which the source takes for no start. */
  ghost predicate OneThingAtATime(s: Show, now: int) {
    forall i :: 0 <= i < |s.parts| ==>
      var p := s.parts[i];
      && (OnAir(p, now) ==> IsCurrent(s, p))
      && (Recorded(p) ==> Started(p, now))
      && p.timings.plannedStartedPlayback != Some(0)
  }

  /** The time spent on part `i`: its recorded duration, or its time on air so far. Floated parts that
      count take their expected time without ever playing. */
  function SpentOn(s: Show, now: int, i: nat): int
    requires i < |s.parts|
  {
    var p := s.parts[i];
    if p.part.untimed || UsesBudget(s, p) then 0
    else if Recorded(p) then p.timings.duration.value
    else if Started(p, now) then Elapsed(p, now)
    else if p.part.floated && CountsAt(s, i) then Expected(p)
    else 0
  }

  function SpentOnParts(s: Show, now: int, i: nat): int
    requires i <= |s.parts|
  {
    if i == 0 then 0 else SpentOnParts(s, now, i - 1) + SpentOn(s, now, i - 1)
  }

  /** The time spent in a budget segment: since it started if it is live, what was recorded if it has
      been left, nothing if it is still to come. */
  function SpentInSegment(s: Show, now: int, w: Progress, k: nat): int
    requires k < |s.segments|
  {
    var id := s.segments[k].id;
    if !BudgetCounts(s, w, k) then 0
    else if w.order.live == Some(id) then SinceSegmentStart(s, now, id)
    else if !s.playlist.active || Reached(s, w.nextSegment, k + 1) then 0
    else Lookup(w.segmentsAsPlayed, id)
  }

  function SpentInSegments(s: Show, now: int, w: Progress, k: nat): int
    requires k <= |s.segments|
  {
    if k == 0 then 0 else SpentInSegments(s, now, w, k - 1) + SpentInSegment(s, now, w, k - 1)
  }

  lemma {:induction false} PartsConservation(s: Show, now: int, i: nat)
    requires i <= |s.parts| && OneThingAtATime(s, now)
    ensures SumsAt(s, now, i).asPlayed - SumsAt(s, now, i).remaining == SpentOnParts(s, now, i)
  {
    if i > 0 {
      PartsConservation(s, now, i - 1);
    }
  }

  lemma {:induction false} SegmentsConservation(s: Show, now: int, w: Progress, k: nat)
    requires k <= |s.segments|
    ensures AsPlayedTotal(s, now, w, k) - RemainingTotal(s, now, w, k)
            == w.sums.asPlayed - w.sums.remaining + SpentInSegments(s, now, w, k)
  {
    if k > 0 {
      SegmentsConservation(s, now, w, k - 1);
    }
  }

  /** As-played minus remaining is exactly the time already spent. */
  lemma ConservationOfShowTime(s: Show, now: int, remembered: Option<Id>, tables: Tables)
    requires OneThingAtATime(s, now)
    ensures var w := WalkedAll(s, now, remembered, tables);
            AsPlayedTotal(s, now, w, |s.segments|) - RemainingTotal(s, now, w, |s.segments|)
            == SpentOnParts(s, now, |s.parts|) + SpentInSegments(s, now, w, |s.segments|)
  {
    PartsConservation(s, now, |s.parts|);
    SegmentsConservation(s, now, WalkedAll(s, now, remembered, tables), |s.segments|);
  }
}
