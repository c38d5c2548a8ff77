/** Which parts count towards the totals, and by how much. */
module TimingSelection {
  import opened JsValues
  import opened TimingModel
  import opened TimingTracks

  /** Is this the current or the next part? */
  predicate IsSelected(s: Show, p: PartInstance) {
    IsNext(s, p) || IsCurrent(s, p)
  }

  ghost predicate SelectedBefore(s: Show, i: nat)
    requires i <= |s.parts|
  {
    exists j :: 0 <= j < i && IsSelected(s, s.parts[j])
  }

  /** Before the current and the next part, neither has been found. */
  lemma {:induction false} NothingSelectedYet(s: Show, i: nat)
    requires i <= |s.parts|
    ensures Orders(s, i).nextIndex == Orders(s, i).currentIndex == -1 <==> !SelectedBefore(s, i)
    ensures !SelectedBefore(s, i) ==> Orders(s, i) == Order(-1, -1, None)
  {
    if i > 0 {
      NothingSelectedYet(s, i - 1);
      assert SelectedBefore(s, i) <==> SelectedBefore(s, i - 1) || IsSelected(s, s.parts[i-1]);
    }
  }

  /** In an active playlist that is played in order, parts count from the first of the current and the next
      part on; in any other, all parts do. */
  lemma CountsFromSelection(s: Show, i: nat)
    requires i < |s.parts|
    ensures CountsAt(s, i) <==> s.playlist.outOfOrderTiming || !s.playlist.active || SelectedBefore(s, i + 1)
  {
    NothingSelectedYet(s, i + 1);
  }

  // ---------------------------------------------------- what the expected time of a part adds

  /** The show, but that part `j` is expected to take another time. */
  function WithExpected(s: Show, j: nat, e: nat): Show
    requires j < |s.parts|
  {
    s.(parts := s.parts[j := s.parts[j].(expected := Some(e))])
  }

  /** It waits to be played, is timed, and takes its time for itself. */
  predicate WaitsOnItsOwn(s: Show, p: PartInstance, now: int) {
    && LastStarted(p, now).None? && !Recorded(p)
    && p.part.displayDurationGroup == "" && !p.part.untimed && !UsesBudget(s, p)
  }

  lemma {:induction false} SameBudgets(s: Show, j: nat, e: nat, i: nat)
    requires j < |s.parts| && i <= |s.parts|
    ensures Budgets(WithExpected(s, j, e), i) == Budgets(s, i)
  {
    if i > 0 {
      SameBudgets(s, j, e, i - 1);
    }
  }

  lemma {:induction false} SameSelection(s: Show, j: nat, e: nat, remembered: Option<Id>, i: nat)
    requires j < |s.parts| && i <= |s.parts|
    ensures var t := WithExpected(s, j, e);
            && Orders(t, i) == Orders(s, i) && UntimedAt(t, i) == UntimedAt(s, i)
            && NextSegmentAt(t, remembered, i) == NextSegmentAt(s, remembered, i)
  {
    if i > 0 {
      SameSelection(s, j, e, remembered, i - 1);
    }
  }

  lemma {:induction false} SamePools(s: Show, now: int, j: nat, e: nat, i: nat)
    requires j < |s.parts| && i <= |s.parts| && s.parts[j].part.displayDurationGroup == ""
    ensures PoolsAt(WithExpected(s, j, e), now, i) == PoolsAt(s, now, i)
  {
    if i > 0 {
      SamePools(s, now, j, e, i - 1);
      SameSelection(s, j, e, None, i);
    }
  }

  lemma {:induction false} SameSegmentsPlayed(s: Show, now: int, j: nat, e: nat, i: nat)
    requires j < |s.parts| && i <= |s.parts|
    ensures SegmentsPlayedAt(WithExpected(s, j, e), now, i) == SegmentsPlayedAt(s, now, i)
  {
    SameBudgets(s, j, e, |s.parts|);
    if i > 0 {
      SameSegmentsPlayed(s, now, j, e, i - 1);
    }
  }

  /** What the totals gain when the part that waits is expected to take `d` longer. */
  function Gain(s: Show, j: nat, d: int): Sums
    requires j < |s.parts|
  {
    Sums(d, if CountsAt(s, j) && !s.parts[j].part.floated then d else 0, if CountsAt(s, j) then d else 0, d)
  }

  function Plus(a: Sums, b: Sums): Sums {
    Sums(a.planned + b.planned, a.remaining + b.remaining, a.asPlayed + b.asPlayed, a.asDisplayed + b.asDisplayed)
  }

  lemma PartGains(s: Show, now: int, j: nat, e: nat, t: Sums)
    requires j < |s.parts| && WaitsOnItsOwn(s, s.parts[j], now)
    ensures var p, q := s.parts[j], s.parts[j].(expected := Some(e));
            var counts := CountsAt(s, j);
            SumsAfter(q, now, None, counts, IsCurrent(s, q), false, t)
            == Plus(SumsAfter(p, now, None, counts, IsCurrent(s, p), false, t), Gain(s, j, e - Expected(p)))
  {
  }

  lemma SumsAfterPlus(p: PartInstance, now: int, share: Option<int>, counts: bool, isCurrent: bool, usesBudget: bool, t: Sums, g: Sums)
    ensures SumsAfter(p, now, share, counts, isCurrent, usesBudget, Plus(t, g))
            == Plus(SumsAfter(p, now, share, counts, isCurrent, usesBudget, t), g)
  {
  }

  /** Parts stand as they did: only part `j` itself has changed. */
  lemma StandsAsBefore(s: Show, now: int, j: nat, e: nat, i: nat)
    requires j < |s.parts| && i < |s.parts| && s.parts[j].part.displayDurationGroup == ""
    ensures var t := WithExpected(s, j, e);
            && CountsAt(t, i) == CountsAt(s, i) && UsesBudget(t, t.parts[i]) == UsesBudget(s, s.parts[i])
            && IsCurrent(t, t.parts[i]) == IsCurrent(s, s.parts[i])
            && (i != j ==> ShareAt(t, now, i) == ShareAt(s, now, i)) && (i == j ==> ShareAt(t, now, i) == ShareAt(s, now, i) == None)
  {
    SameBudgets(s, j, e, |s.parts|);
    SameSelection(s, j, e, None, i + 1);
    SamePools(s, now, j, e, i);
  }

  lemma SumsNext(s: Show, now: int, i: nat)
    requires i < |s.parts|
    ensures var p := s.parts[i];
            SumsAt(s, now, i + 1) ==
              SumsAfter(p, now, ShareAt(s, now, i), CountsAt(s, i), IsCurrent(s, p), UsesBudget(s, p), SumsAt(s, now, i))
  {
  }

  lemma OwnSums(s: Show, now: int, j: nat, e: nat)
    requires j < |s.parts| && WaitsOnItsOwn(s, s.parts[j], now)
    requires SumsAt(WithExpected(s, j, e), now, j) == SumsAt(s, now, j)
    ensures SumsAt(WithExpected(s, j, e), now, j + 1) == Plus(SumsAt(s, now, j + 1), Gain(s, j, e - Expected(s.parts[j])))
  {
    StandsAsBefore(s, now, j, e, j);
    SumsNext(s, now, j);
    SumsNext(WithExpected(s, j, e), now, j);
    PartGains(s, now, j, e, SumsAt(s, now, j));
  }

  lemma OtherSums(s: Show, now: int, j: nat, e: nat, i: nat, g: Sums)
    requires j < |s.parts| && i < |s.parts| && i != j && s.parts[j].part.displayDurationGroup == ""
    requires SumsAt(WithExpected(s, j, e), now, i) == Plus(SumsAt(s, now, i), g)
    ensures SumsAt(WithExpected(s, j, e), now, i + 1) == Plus(SumsAt(s, now, i + 1), g)
  {
    var p := s.parts[i];
    StandsAsBefore(s, now, j, e, i);
    SumsNext(s, now, i);
    SumsNext(WithExpected(s, j, e), now, i);
    SumsAfterPlus(p, now, ShareAt(s, now, i), CountsAt(s, i), IsCurrent(s, p), UsesBudget(s, p), SumsAt(s, now, i), g);
  }

  const NO_GAIN := Sums(0, 0, 0, 0)

  /** After the first `i` parts, the sums have gained what part `j` gains, if it is among them. */
  ghost predicate Gained(s: Show, now: int, j: nat, e: nat, i: nat)
    requires j < |s.parts| && i <= |s.parts|
  {
    SumsAt(WithExpected(s, j, e), now, i) ==
      Plus(SumsAt(s, now, i), if i <= j then NO_GAIN else Gain(s, j, e - Expected(s.parts[j])))
  }

  lemma NextGained(s: Show, now: int, j: nat, e: nat, i: nat)
    requires j < |s.parts| && i < |s.parts| && WaitsOnItsOwn(s, s.parts[j], now) && Gained(s, now, j, e, i)
    ensures Gained(s, now, j, e, i + 1)
  {
    if i == j {
      OwnSums(s, now, j, e);
    } else {
      OtherSums(s, now, j, e, i, if i <= j then NO_GAIN else Gain(s, j, e - Expected(s.parts[j])));
    }
  }

  lemma {:induction false} NoSumsYet(s: Show, now: int)
    ensures SumsAt(s, now, 0) == NO_GAIN
  {
  }

  lemma {:induction false} NothingGainedYet(s: Show, now: int, j: nat, e: nat, i: nat)
    requires i == 0 && j < |s.parts|
    ensures Gained(s, now, j, e, i)
  {
    NoSumsYet(s, now);
    NoSumsYet(WithExpected(s, j, e), now);
  }

  lemma {:induction false} SumsGain(s: Show, now: int, j: nat, e: nat, i: nat)
    requires j < |s.parts| && i <= |s.parts| && WaitsOnItsOwn(s, s.parts[j], now)
    ensures Gained(s, now, j, e, i)
  {
    if i == 0 {
      NothingGainedYet(s, now, j, e, i);
    } else {
      SumsGain(s, now, j, e, i - 1);
      NextGained(s, now, j, e, i - 1);
    }
  }

  lemma {:induction false} TotalsGain(s: Show, t: Show, now: int, w: Progress, v: Progress, k: nat)
    requires k <= |s.segments| && t == s.(parts := t.parts) && AllBudgets(t) == AllBudgets(s)
    requires v == w.(sums := v.sums, waits := v.waits, linear := v.linear, times := v.times, tables := v.tables,
                     rundownAsPlayed := v.rundownAsPlayed, rundownExpected := v.rundownExpected)
    ensures PlannedTotal(t, v, k) - PlannedTotal(s, w, k) == v.sums.planned - w.sums.planned
    ensures RemainingTotal(t, now, v, k) - RemainingTotal(s, now, w, k) == v.sums.remaining - w.sums.remaining
    ensures AsPlayedTotal(t, now, v, k) - AsPlayedTotal(s, now, w, k) == v.sums.asPlayed - w.sums.asPlayed
  {
    if k > 0 {
      TotalsGain(s, t, now, w, v, k - 1);
      assert Reached(t, v.nextSegment, k) == Reached(s, w.nextSegment, k);
    }
  }

  /** The expected time of a part that waits is always planned. It remains exactly if the part counts and is
      not floated, and is counted as played exactly if the part counts: the time of a part that is skipped
      changes neither. */
  lemma ExpectedTimeCounts(s: Show, now: int, remembered: Option<Id>, tables: Tables, j: nat, e: nat)
    requires j < |s.parts| && WaitsOnItsOwn(s, s.parts[j], now)
    ensures var t, n, d := WithExpected(s, j, e), |s.segments|, e - Expected(s.parts[j]);
            var w, v := WalkedAll(s, now, remembered, tables), WalkedAll(t, now, remembered, tables);
            && PlannedTotal(t, v, n) - PlannedTotal(s, w, n) == d
            && RemainingTotal(t, now, v, n) - RemainingTotal(s, now, w, n)
               == (if CountsAt(s, j) && !s.parts[j].part.floated then d else 0)
            && AsPlayedTotal(t, now, v, n) - AsPlayedTotal(s, now, w, n) == (if CountsAt(s, j) then d else 0)
  {
    var t, i := WithExpected(s, j, e), |s.parts|;
    SumsGain(s, now, j, e, i);
    SameBudgets(s, j, e, i);
    SameSelection(s, j, e, remembered, i);
    SamePools(s, now, j, e, i);
    SameSegmentsPlayed(s, now, j, e, i);
    TotalsGain(s, t, now, WalkedAll(s, now, remembered, tables), WalkedAll(t, now, remembered, tables), |s.segments|);
  }

  // ---------------------------------------------------------- before anything has been selected

  /** In an active playlist played in order, nothing remains of the parts before the first selected one, and
      they count as played only for what they have played. */
  lemma {:induction false} NothingRemainsOfSkipped(s: Show, now: int, i: nat)
    requires i <= |s.parts| && s.playlist.active && !s.playlist.outOfOrderTiming && !SelectedBefore(s, i)
    ensures SumsAt(s, now, i).remaining == 0
    ensures (forall j :: 0 <= j < i ==> !Started(s.parts[j], now) && !Recorded(s.parts[j])) ==> SumsAt(s, now, i).asPlayed == 0
  {
    if i > 0 {
      NothingRemainsOfSkipped(s, now, i - 1);
      CountsFromSelection(s, i - 1);
      assert !IsSelected(s, s.parts[i-1]);
    }
  }
}
