/** What changes between two updates of the same data at different times. */
module TimingEvolution {
  import opened JsValues
  import opened TimingModel
  import opened TimingTracks

  /** No planned start falls between the two times. */
  ghost predicate NothingStarts(s: Show, now: int, later: int) {
    forall i :: 0 <= i < |s.parts| ==> LastStarted(s.parts[i], now) == LastStarted(s.parts[i], later)
  }

  /** At most the current part is on air. */
  ghost predicate OnlyCurrentOnAir(s: Show, now: int) {
    forall i :: 0 <= i < |s.parts| && OnAir(s.parts[i], now) ==> i == FinalOrder(s).currentIndex
  }

  /** The segments are the values of a map, so their ids are distinct. */
  ghost predicate DistinctSegments(s: Show) {
    forall j, k :: 0 <= j < k < |s.segments| ==> s.segments[j].id != s.segments[k].id
  }

  /** Segment `k` is live and its budget is being used up. */
  predicate BudgetRuns(s: Show, w: Progress, k: nat)
    requires k < |s.segments|
  {
    BudgetCounts(s, w, k) && w.order.live == Some(s.segments[k].id) && Lookup(AllSegmentStarts(s), s.segments[k].id) != 0
  }

  /** Time on air counts: either a timed part outside the budget segments is on air, or else the live
      segment has a budget that counts and is known to have started. */
  ghost predicate ClockRuns(s: Show, now: int, w: Progress) {
    var c := FinalOrder(s).currentIndex;
    && 0 <= c < |s.parts|
    && if UsesBudget(s, s.parts[c]) then exists k :: 0 <= k < |s.segments| && BudgetRuns(s, w, k)
       else OnAir(s.parts[c], now) && !s.parts[c].part.untimed
  }

  // ------------------------------------------------------------ what does not depend on time

  /** Before the part on air, the pools of the display duration groups stand still. */
  lemma {:induction false} PoolsStandStill(s: Show, now: int, later: int, i: nat)
    requires i <= |s.parts| && NothingStarts(s, now, later)
    requires forall j :: 0 <= j < i ==> !OnAir(s.parts[j], now)
    ensures PoolsAt(s, now, i) == PoolsAt(s, later, i)
  {
    if i > 0 {
      PoolsStandStill(s, now, later, i - 1);
      assert LastStarted(s.parts[i-1], now) == LastStarted(s.parts[i-1], later);
    }
  }

  /** What budget segments other than the live one have played stands still. */
  lemma {:induction false} LeftSegmentsStandStill(s: Show, now: int, later: int, id: Id, i: nat)
    requires i <= |s.parts| && NothingStarts(s, now, later)
    requires forall j :: 0 <= j < |s.parts| && OnAir(s.parts[j], now) ==> s.parts[j].segmentId != id
    ensures Lookup(SegmentsPlayedAt(s, now, i), id) == Lookup(SegmentsPlayedAt(s, later, i), id)
  {
    if i > 0 {
      LeftSegmentsStandStill(s, now, later, id, i - 1);
      assert LastStarted(s.parts[i-1], now) == LastStarted(s.parts[i-1], later);
    }
  }

  // -------------------------------------------------------------------- the parts' own totals

  /** Is part `i` on air, and is its time added to the totals part by part? */
  predicate Running(s: Show, now: int, i: nat)
    requires i < |s.parts|
  {
    OnAir(s.parts[i], now) && !s.parts[i].part.untimed && !UsesBudget(s, s.parts[i])
  }

  lemma PartEvolution(p: PartInstance, now: int, later: int, share: Option<int>, laterShare: Option<int>,
                      counts: bool, isCurrent: bool)
    requires now <= later && LastStarted(p, now) == LastStarted(p, later)
    requires OnAir(p, now) ==> isCurrent && share == laterShare
    ensures var grown := AsPlayedOf(p, later, laterShare, counts) - AsPlayedOf(p, now, share, counts);
            var fallen := RemainingOf(p, now, share, counts, isCurrent) - RemainingOf(p, later, laterShare, counts, isCurrent);
            && grown >= 0 && fallen >= 0
            && grown + fallen == if OnAir(p, now) then later - now else 0
  {
  }

  /** What part `i` adds to the growth of as-played and to the fall of remaining. */
  lemma NextPartEvolution(s: Show, now: int, later: int, i: nat)
    requires i < |s.parts| && now <= later
    requires NothingStarts(s, now, later) && OnlyCurrentOnAir(s, now)
    ensures var grown := Grown(s, now, later, i + 1) - Grown(s, now, later, i);
            var fallen := Fallen(s, now, later, i + 1) - Fallen(s, now, later, i);
            && grown >= 0 && fallen >= 0
            && grown + fallen == if i == FinalOrder(s).currentIndex && Running(s, now, i) then later - now else 0
  {
    OrderShape(s, |s.parts|);
    var p := s.parts[i];
    assert LastStarted(p, now) == LastStarted(p, later);
    if OnAir(p, now) {
      PoolsStandStill(s, now, later, i);
    }
    PartEvolution(p, now, later, ShareAt(s, now, i), ShareAt(s, later, i), CountsAt(s, i), IsCurrent(s, p));
  }

  /** Over the first `i` parts, the growth of as-played and the fall of remaining. */
  function Grown(s: Show, now: int, later: int, i: nat): int
    requires i <= |s.parts|
  {
    SumsAt(s, later, i).asPlayed - SumsAt(s, now, i).asPlayed
  }

  function Fallen(s: Show, now: int, later: int, i: nat): int
    requires i <= |s.parts|
  {
    SumsAt(s, now, i).remaining - SumsAt(s, later, i).remaining
  }

  /** Two sums that only grow, and together grow by `d` at step `c` and not otherwise. */
  lemma {:induction false} GrowOnce(a: seq<int>, b: seq<int>, c: int, d: int, i: nat)
    requires i < |a| == |b| && a[0] == b[0] == 0
    requires forall l :: 0 <= l < i ==> a[l] <= a[l + 1]
    requires forall l :: 0 <= l < i ==> b[l] <= b[l + 1]
    requires forall l :: 0 <= l < i ==> (a[l + 1] - a[l]) + (b[l + 1] - b[l]) == if l == c then d else 0
    ensures a[i] >= 0 && b[i] >= 0 && a[i] + b[i] == if 0 <= c < i then d else 0
  {
    if i > 0 {
      GrowOnce(a, b, c, d, i - 1);
      assert a[i-1] <= a[i - 1 + 1] && b[i-1] <= b[i - 1 + 1];
    }
  }

  lemma {:induction false} PartsEvolution(s: Show, now: int, later: int, i: nat)
    requires i <= |s.parts| && now <= later
    requires NothingStarts(s, now, later) && OnlyCurrentOnAir(s, now)
    ensures Grown(s, now, later, i) >= 0 && Fallen(s, now, later, i) >= 0
    ensures var c := FinalOrder(s).currentIndex;
            Grown(s, now, later, i) + Fallen(s, now, later, i) == if 0 <= c < i && Running(s, now, c) then later - now else 0
  {
    var c := FinalOrder(s).currentIndex;
    var running := 0 <= c < |s.parts| && Running(s, now, c);
    var a := seq(i + 1, l requires 0 <= l <= i => Grown(s, now, later, l));
    var b := seq(i + 1, l requires 0 <= l <= i => Fallen(s, now, later, l));
    forall l | 0 <= l < i
      ensures a[l] <= a[l + 1] && b[l] <= b[l + 1]
      ensures (a[l + 1] - a[l]) + (b[l + 1] - b[l]) == if l == c then (if running then later - now else 0) else 0
    {
      NextPartEvolution(s, now, later, l);
    }
    GrowOnce(a, b, c, if running then later - now else 0, i);
  }

  // --------------------------------------------------------------------- the segment budgets

  /** Is a budget running in one of the first `k` segments? */
  ghost predicate RunsBefore(s: Show, w: Progress, k: nat)
    requires k <= |s.segments|
  {
    exists j :: 0 <= j < k && BudgetRuns(s, w, j)
  }

  lemma SegmentEvolution(s: Show, now: int, later: int, w: Progress, v: Progress, k: nat)
    requires k < |s.segments| && now <= later
    requires w.order == v.order && w.nextSegment == v.nextSegment && w.untimed == v.untimed
    requires w.order.live == Some(s.segments[k].id) ||
             Lookup(w.segmentsAsPlayed, s.segments[k].id) == Lookup(v.segmentsAsPlayed, s.segments[k].id)
    ensures var grown := SegmentAsPlayed(s, later, v, k) - SegmentAsPlayed(s, now, w, k);
            var fallen := SegmentRemaining(s, now, w, k) - SegmentRemaining(s, later, v, k);
            && grown >= 0 && fallen >= 0
            && grown + fallen == if BudgetRuns(s, w, k) then later - now else 0
  {
    assert BudgetCounts(s, w, k) == BudgetCounts(s, v, k);
  }

  lemma {:induction false} SegmentsEvolution(s: Show, now: int, later: int, w: Progress, v: Progress, k: nat)
    requires k <= |s.segments| && now <= later && DistinctSegments(s)
    requires w.order == v.order && w.nextSegment == v.nextSegment && w.untimed == v.untimed
    requires forall j :: 0 <= j < |s.segments| && w.order.live != Some(s.segments[j].id) ==>
               Lookup(w.segmentsAsPlayed, s.segments[j].id) == Lookup(v.segmentsAsPlayed, s.segments[j].id)
    ensures var grown := (AsPlayedTotal(s, later, v, k) - v.sums.asPlayed) - (AsPlayedTotal(s, now, w, k) - w.sums.asPlayed);
            var fallen := (RemainingTotal(s, now, w, k) - w.sums.remaining) - (RemainingTotal(s, later, v, k) - v.sums.remaining);
            && grown >= 0 && fallen >= 0
            && grown + fallen == if RunsBefore(s, w, k) then later - now else 0
  {
    if k > 0 {
      SegmentsEvolution(s, now, later, w, v, k - 1);
      SegmentEvolution(s, now, later, w, v, k - 1);
      assert RunsBefore(s, w, k) <==> RunsBefore(s, w, k - 1) || BudgetRuns(s, w, k - 1);
      assert !(RunsBefore(s, w, k - 1) && BudgetRuns(s, w, k - 1));
    }
  }

  /** While something is on air and nothing else starts, remaining never rises, as-played never falls,
      and what the one loses and the other gains adds up to the time that has passed. */
  lemma EvolutionOverTime(s: Show, now: int, later: int, remembered: Option<Id>, tables: Tables)
    requires now <= later && DistinctSegments(s)
    requires NothingStarts(s, now, later) && OnlyCurrentOnAir(s, now)
    requires ClockRuns(s, now, WalkedAll(s, now, remembered, tables))
    ensures var w, v := WalkedAll(s, now, remembered, tables), WalkedAll(s, later, remembered, tables);
            var n := |s.segments|;
            && RemainingTotal(s, later, v, n) <= RemainingTotal(s, now, w, n)
            && AsPlayedTotal(s, later, v, n) >= AsPlayedTotal(s, now, w, n)
            && (AsPlayedTotal(s, later, v, n) - AsPlayedTotal(s, now, w, n))
               + (RemainingTotal(s, now, w, n) - RemainingTotal(s, later, v, n)) == later - now
  {
    var w, v := WalkedAll(s, now, remembered, tables), WalkedAll(s, later, remembered, tables);
    var c, n := FinalOrder(s).currentIndex, |s.parts|;
    OrderShape(s, n);
    PartsEvolution(s, now, later, n);
    forall j | 0 <= j < |s.segments| && w.order.live != Some(s.segments[j].id)
      ensures Lookup(w.segmentsAsPlayed, s.segments[j].id) == Lookup(v.segmentsAsPlayed, s.segments[j].id)
    {
      LeftSegmentsStandStill(s, now, later, s.segments[j].id, n);
    }
    SegmentsEvolution(s, now, later, w, v, |s.segments|);
    assert RunsBefore(s, w, |s.segments|) ==> UsesBudget(s, s.parts[c]);
  }
}
