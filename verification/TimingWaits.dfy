/** Waits and countdowns: how long until each part, and what a segment budget makes of that. */
module TimingWaits {
  import opened JsValues
  import opened TimingModel
  import opened TimingTracks

  /** Nothing lasts a negative time. */
  ghost predicate NonNegative(s: Show) {
    && s.defaultDuration >= 0
    && forall i :: 0 <= i < |s.parts| ==> s.parts[i].timings.duration.GetOr(0) >= 0
  }

  lemma WaitIsNonNegative(s: Show, now: int, i: nat)
    requires i < |s.parts| && NonNegative(s)
    ensures WaitOf(s, now, i) >= 0
  {
    assert s.parts[i].timings.duration.GetOr(0) >= 0;
  }

  /** The wait recorded for part `i`. */
  function RecordedWait(s: Show, now: int, i: nat): int
    requires i < |s.parts|
  {
    EnteredAt(s, now, i).wait
  }

  /** The recorded waits start at 0 and never fall, and the end of the show is not before the last part. */
  lemma {:induction false} WaitsRise(s: Show, now: int, i: nat, j: nat)
    requires i <= j < |s.parts| && NonNegative(s)
    ensures RecordedWait(s, now, 0) == 0
    ensures RecordedWait(s, now, i) <= RecordedWait(s, now, j) <= WaitsAt(s, now, j + 1).wait
  {
    WaitIsNonNegative(s, now, j);
    if i < j {
      WaitsRise(s, now, i, j - 1);
    }
  }

  lemma {:induction false} WaitsRiseToEnd(s: Show, now: int, i: nat, end: nat)
    requires i < end <= |s.parts| && NonNegative(s)
    ensures RecordedWait(s, now, i) <= WaitsAt(s, now, end).wait
  {
    WaitsRise(s, now, i, end - 1);
  }

  // ----------------------------------------------------------------------------- countdowns

  lemma {:induction false} CurrentRemainingIsNonNegative(s: Show, now: int, i: nat)
    requires i <= |s.parts|
    ensures TimesAt(s, now, i).currentRemaining >= 0
  {
    if i > 0 {
      CurrentRemainingIsNonNegative(s, now, i - 1);
    }
  }

  lemma CountdownFromLinear(s: Show, w: Progress, i: nat)
    requires i < |w.linear| && 0 <= w.order.nextIndex < |w.linear| && w.order.currentIndex < w.order.nextIndex
    ensures var n, left := w.order.nextIndex, w.times.currentRemaining;
            Countdown(s, w, i) ==
              if i >= n then Some(left + WaitAt(w, i) - WaitAt(w, n))
              else if s.playlist.loop then Some(left + WaitAt(w, i) + w.waits.wait - WaitAt(w, n))
              else None
  {
  }

  lemma WaitAtIsRecorded(s: Show, now: int, remembered: Option<Id>, tables: Tables, i: nat)
    requires i < |s.parts|
    ensures var w := WalkedAll(s, now, remembered, tables);
            && |w.linear| == |s.parts| && WaitAt(w, i) == RecordedWait(s, now, i) && w.order == FinalOrder(s)
            && w.waits == WaitsAt(s, now, |s.parts|) && w.times == TimesAt(s, now, |s.parts|)
  {
    LinearEntry(s, now, |s.parts|, i);
  }

  /** With the current part (if any) before the next one, the countdown to the next part is what is left
      of the current part; those after it are further off by the difference of their waits; and those
      before it are never reached, unless the playlist loops. */
  lemma CountdownsFromNext(s: Show, now: int, remembered: Option<Id>, tables: Tables, i: nat)
    requires i < |s.parts|
    requires 0 <= FinalOrder(s).nextIndex && FinalOrder(s).currentIndex < FinalOrder(s).nextIndex
    ensures var n := FinalOrder(s).nextIndex;
            var left := TimesAt(s, now, |s.parts|).currentRemaining;
            && left >= 0
            && Countdown(s, WalkedAll(s, now, remembered, tables), i) ==
                 if i >= n then Some(left + RecordedWait(s, now, i) - RecordedWait(s, now, n))
                 else if s.playlist.loop
                 then Some(left + RecordedWait(s, now, i) + WaitsAt(s, now, |s.parts|).wait - RecordedWait(s, now, n))
                 else None
  {
    CurrentRemainingIsNonNegative(s, now, |s.parts|);
    WaitAtIsRecorded(s, now, remembered, tables, i);
    WaitAtIsRecorded(s, now, remembered, tables, FinalOrder(s).nextIndex);
    CountdownFromLinear(s, WalkedAll(s, now, remembered, tables), i);
  }

  /** Unless it comes before the next one, the current part keeps its wait; and with no next part to be found, all
      others are off by what is left of it beyond their waits. */
  lemma CountdownsWithoutNext(s: Show, now: int, remembered: Option<Id>, tables: Tables, i: nat)
    requires i < |s.parts| && FinalOrder(s).nextIndex <= i
    requires i == FinalOrder(s).currentIndex || FinalOrder(s).nextIndex == -1
    ensures Countdown(s, WalkedAll(s, now, remembered, tables), i) ==
              Some(RecordedWait(s, now, i) +
                   if i == FinalOrder(s).currentIndex then 0 else TimesAt(s, now, |s.parts|).currentRemaining)
  {
    WaitAtIsRecorded(s, now, remembered, tables, i);
  }

  /** The `k`-th part to come in a looping playlist of `len` parts, counted from part `n`. */
  function ComingUp(n: nat, len: nat, k: nat): (i: nat)
    requires n < len && k < len
    ensures i < len
  {
    if n + k < len then n + k else n + k - len
  }

  /** In a looping playlist the countdowns never fall, all the way round from the next part. */
  lemma LoopingCountdownsRise(s: Show, now: int, remembered: Option<Id>, tables: Tables, k: nat, l: nat)
    requires NonNegative(s) && s.playlist.loop && k <= l < |s.parts|
    requires 0 <= FinalOrder(s).nextIndex && FinalOrder(s).currentIndex < FinalOrder(s).nextIndex < |s.parts|
    ensures var w := WalkedAll(s, now, remembered, tables);
            var n := FinalOrder(s).nextIndex;
            var a, b := Countdown(s, w, ComingUp(n, |s.parts|, k)), Countdown(s, w, ComingUp(n, |s.parts|, l));
            a.Some? && b.Some? && 0 <= a.value <= b.value
  {
    var n := FinalOrder(s).nextIndex;
    var i, j := ComingUp(n, |s.parts|, k), ComingUp(n, |s.parts|, l);
    CountdownsFromNext(s, now, remembered, tables, i);
    CountdownsFromNext(s, now, remembered, tables, j);
    WaitsRiseToEnd(s, now, n, |s.parts|);
    if i <= j {
      WaitsRise(s, now, i, j);
      if n <= i {
        WaitsRise(s, now, n, i);
      } else {
        WaitsRise(s, now, 0, i);
      }
    } else {
      WaitsRise(s, now, n, i);
      WaitsRise(s, now, 0, j);
      WaitsRiseToEnd(s, now, i, |s.parts|);
    }
  }

  // -------------------------------------------------------------------------------- budgets

  /** Parts `a` up to `b` are one run of a segment, and another segment follows it. */
  ghost predicate IsRun(s: Show, a: nat, b: nat) {
    && a < b < |s.parts|
    && EntersSegment(s, a)
    && (forall k :: a <= k < b ==> s.parts[k].segmentId == s.parts[a].segmentId)
    && s.parts[b].segmentId != s.parts[a].segmentId
  }

  /** The waits of parts `a` up to `k` together. */
  function WaitsOf(s: Show, now: int, a: nat, k: nat): int
    requires a <= k <= |s.parts|
  {
    if a == k then 0 else WaitsOf(s, now, a, k - 1) + WaitOf(s, now, k - 1)
  }

  lemma {:induction false} WaitsOfIsNonNegative(s: Show, now: int, a: nat, k: nat)
    requires a <= k <= |s.parts| && NonNegative(s)
    ensures WaitsOf(s, now, a, k) >= 0
  {
    if a < k {
      WaitsOfIsNonNegative(s, now, a, k - 1);
      WaitIsNonNegative(s, now, k - 1);
    }
  }

  /** While nothing in the segment is on air, its waits are taken out of its budget. */
  lemma {:induction false} InsideBudget(s: Show, now: int, a: nat, b: nat, k: nat)
    requires IsRun(s, a, b) && a <= k <= b && NonNegative(s)
    requires UsesBudget(s, s.parts[a]) && AllBudgets(s)[s.parts[a].segmentId] >= 0
    requires forall j :: a <= j < k ==> !OnAir(s.parts[j], now)
    ensures var budget := AllBudgets(s)[s.parts[a].segmentId];
            var before := if k == a then EnteredAt(s, now, a) else WaitsAt(s, now, k);
            && before.wait == RecordedWait(s, now, a) + Min(budget, WaitsOf(s, now, a, k))
            && before.left == budget - WaitsOf(s, now, a, k)
  {
    if k > a {
      InsideBudget(s, now, a, b, k - 1);
      WaitIsNonNegative(s, now, k - 1);
      WaitsOfIsNonNegative(s, now, a, k - 1);
      assert s.parts[k-1].segmentId == s.parts[a].segmentId;
      assert k - 1 > a ==> !EntersSegment(s, k - 1) by {
        if k - 1 > a {
          assert s.parts[k-2].segmentId == s.parts[a].segmentId;
        }
      }
    }
  }

  /** A segment with a budget and nothing on air takes exactly its budget, whatever its parts take. */
  lemma BudgetIsExact(s: Show, now: int, a: nat, b: nat)
    requires IsRun(s, a, b) && NonNegative(s)
    requires UsesBudget(s, s.parts[a]) && AllBudgets(s)[s.parts[a].segmentId] >= 0
    requires forall j :: a <= j < b ==> !OnAir(s.parts[j], now)
    ensures RecordedWait(s, now, b) - RecordedWait(s, now, a) == AllBudgets(s)[s.parts[a].segmentId]
  {
    InsideBudget(s, now, a, b, b);
    assert s.parts[b-1].segmentId == s.parts[a].segmentId;
  }

  lemma {:induction false} WithoutBudget(s: Show, now: int, a: nat, b: nat, k: nat)
    requires IsRun(s, a, b) && a < k <= b && !UsesBudget(s, s.parts[a])
    ensures WaitsAt(s, now, k) == WaitState(RecordedWait(s, now, a) + WaitsOf(s, now, a, k), 0)
  {
    assert s.parts[k-1].segmentId == s.parts[a].segmentId;
    if k - 1 > a {
      WithoutBudget(s, now, a, b, k - 1);
      assert s.parts[k-2].segmentId == s.parts[a].segmentId;
    }
  }

  /** A segment without a budget takes what its parts take. */
  lemma NoBudgetIsTheSum(s: Show, now: int, a: nat, b: nat)
    requires IsRun(s, a, b) && !UsesBudget(s, s.parts[a])
    ensures RecordedWait(s, now, b) - RecordedWait(s, now, a) == WaitsOf(s, now, a, b)
  {
    WithoutBudget(s, now, a, b, b);
    assert s.parts[b-1].segmentId == s.parts[a].segmentId;
  }

  // ----------------------------------------------------------- what the budget of a segment is

  predicate HasBudgetFor(part: Part, id: Id) {
    part.segmentId == id && part.budgetDuration.Some?
  }

  function BudgetOf(s: Show, id: Id, i: nat): int
    requires i <= |s.parts|
  {
    if i == 0 then 0
    else BudgetOf(s, id, i - 1) + if HasBudgetFor(s.parts[i-1].part, id) then s.parts[i-1].part.budgetDuration.value else 0
  }

  /** A segment has a budget exactly if one of its parts has, and it is the sum of theirs. */
  lemma {:induction false} BudgetIsSumOfParts(s: Show, id: Id, i: nat)
    requires i <= |s.parts|
    ensures id in Budgets(s, i) <==> exists j :: 0 <= j < i && HasBudgetFor(s.parts[j].part, id)
    ensures Lookup(Budgets(s, i), id) == BudgetOf(s, id, i)
  {
    if i > 0 {
      BudgetIsSumOfParts(s, id, i - 1);
    }
  }
}
