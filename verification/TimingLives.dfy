/** The life of a part: waiting, taken, running on, and handed over to the next. What it is worth does not jump
    from one stage to the next, but for what these laws say. */
module TimingLives {
  import opened JsValues
  import opened TimingModel
  import opened TimingCalculator

  function WithStart(p: PartInstance, start: Option<int>): PartInstance {
    p.(timings := p.timings.(plannedStartedPlayback := start))
  }

  function WithDuration(p: PartInstance, duration: int): PartInstance {
    p.(timings := p.timings.(duration := Some(duration)))
  }

  /** Planned, and nothing has been recorded of it yet. */
  predicate Waits(p: PartInstance) {
    && p.timings.plannedStartedPlayback == p.timings.plannedStoppedPlayback == p.timings.duration == None
    && p.timings.reportedStoppedPlayback == None
    && !Truthy(p.timings.playOffset)
  }

  /** Invalid parts that are not gaps are shown, but are never played. */
  predicate Plays(p: PartInstance) {
    !p.part.invalid || p.part.gap
  }

  /** A start that is still to come is no start. */
  lemma FutureStartIsNoStart(p: PartInstance, start: int, now: int, share: Option<int>, default: int, counts: bool,
                             isCurrent: bool, shown: map<Id, int>)
    requires start > now
    ensures var q, r := WithStart(p, Some(start)), WithStart(p, None);
            && PartDuration(q, now) == PartDuration(r, now) && PlayedDuration(q, now) == PlayedDuration(r, now)
            && DisplayNoPlayback(q, now, share, default) == DisplayNoPlayback(r, now, share, default)
            && ShownDuration(q, now, share, default) == ShownDuration(r, now, share, default)
            && WaitDuration(q, now, share, default) == WaitDuration(r, now, share, default)
            && AsPlayedOf(q, now, share, counts) == AsPlayedOf(r, now, share, counts)
            && BudgetPartPlayed(q, now) == BudgetPartPlayed(r, now)
            && AsDisplayedOf(q, now, share) == AsDisplayedOf(r, now, share)
            && RemainingOf(q, now, share, counts, isCurrent) == RemainingOf(r, now, share, counts, isCurrent)
            && RemainingOnPart(q, now, shown) == RemainingOnPart(r, now, shown)
  {
  }

  /** What a part on its own is worth while it waits. */
  lemma Waiting(p: PartInstance, now: int, default: nat, counts: bool, isCurrent: bool, shown: map<Id, int>)
    requires Waits(p) && Plays(p)
    ensures PartDuration(p, now) == AsDisplayedOf(p, now, None) == WaitDuration(p, now, None, default) == Expected(p)
    ensures PlayedDuration(p, now) == BudgetPartPlayed(p, now) == 0
    ensures AsPlayedOf(p, now, None, counts) == if counts then Expected(p) else 0
    ensures RemainingOf(p, now, None, counts, isCurrent) == if counts && !p.part.floated then Expected(p) else 0
    ensures ShownDuration(p, now, None, default) ==
              if p.part.autoNext && p.expected.Some? then Expected(p) else Max(Expected(p), default)
    ensures p.part.displayDurationGroup == "" ==> RemainingOnPart(p, now, shown) == Expected(p)
  {
  }

  /** Being taken changes nothing at that moment. */
  lemma Taken(p: PartInstance, now: int, default: nat, shown: map<Id, int>)
    requires Waits(p) && Plays(p) && now > 0
    ensures var q := WithStart(p, Some(now));
            && OnAir(q, now) && PlayedDuration(q, now) == BudgetPartPlayed(q, now) == 0
            && PartDuration(q, now) == PartDuration(p, now) && AsDisplayedOf(q, now, None) == AsDisplayedOf(p, now, None)
            && WaitDuration(q, now, None, default) == WaitDuration(p, now, None, default)
            && AsPlayedOf(q, now, None, true) == AsPlayedOf(p, now, None, true)
            && (!p.part.floated ==> RemainingOf(q, now, None, true, true) == RemainingOf(p, now, None, true, true))
            && RemainingOnPart(q, now, shown) == RemainingOnPart(p, now, shown)
            && LeftWhenOnAir(q, now, None, default, map[], map[]) == Expected(p)
  {
  }

  /** With one exception: a part shorter than the default duration is drawn at its own length once it is on air,
      and one that goes on by itself without a duration grows to the default. */
  lemma TakenPartMayBeRedrawn(p: PartInstance, now: int, default: nat)
    requires Waits(p) && Plays(p) && now > 0
    ensures ShownDuration(WithStart(p, Some(now)), now, None, default) == ShownDuration(p, now, None, default)
            <==> Expected(p) >= default || p.expected.None? ||
                 (if p.part.autoNext then Expected(p) > 0 else Expected(p) == 0)
  {
  }

  /** While it is on air, time passes: first within what it is given, then beyond. */
  lemma RunsOn(p: PartInstance, now: int, later: int, share: Option<int>, default: int, counts: bool)
    requires now <= later && OnAir(p, now) && LastStarted(p, now) == LastStarted(p, later) && Plays(p)
    ensures PlayedDuration(p, later) - PlayedDuration(p, now) == later - now
    ensures var e, offset := Elapsed(p, later), Or(p.timings.playOffset, 0);
            && PartDuration(p, later) == Max(PartDuration(p, now), e - offset)
            && ShownDuration(p, later, share, default) == Max(ShownDuration(p, now, share, default), e)
            && AsDisplayedOf(p, later, share) == Max(AsDisplayedOf(p, now, share), e)
            && AsPlayedOf(p, later, share, counts) == Max(AsPlayedOf(p, now, share, counts), e)
    ensures DisplayNoPlayback(p, later, share, default) == DisplayNoPlayback(p, now, share, default)
    ensures RemainingOf(p, later, share, counts, true) == Max(0, RemainingOf(p, now, share, counts, true) - (later - now))
    ensures RemainingOf(p, now, share, counts, false) == 0
  {
  }

  /** And what is left of it, or of the budget of its segment, runs down with the clock to 0. */
  lemma LeftRunsDown(p: PartInstance, now: int, later: int, share: Option<int>, default: int, budgets: map<Id, int>,
                     starts: map<Id, int>, shown: map<Id, int>)
    requires now <= later && OnAir(p, now) && LastStarted(p, now) == LastStarted(p, later)
    ensures LeftWhenOnAir(p, later, share, default, budgets, starts)
            == Max(0, LeftWhenOnAir(p, now, share, default, budgets, starts) - (later - now))
    ensures RemainingOnPart(p, later, shown) == RemainingOnPart(p, now, shown) - (later - now)
  {
  }

  /** A budget starts to run when its segment starts, which may have been before the part. */
  lemma BudgetLeft(p: PartInstance, now: int, share: Option<int>, default: int, budgets: map<Id, int>, starts: map<Id, int>)
    requires OnAir(p, now) && p.segmentId in budgets && budgets[p.segmentId] >= 0
    requires now == if Lookup(starts, p.segmentId) != 0 then Lookup(starts, p.segmentId) else p.timings.plannedStartedPlayback.value
    ensures LeftWhenOnAir(p, now, share, default, budgets, starts) == budgets[p.segmentId]
  {
  }

  /** In a budget segment it plays until it is reported as stopped. */
  lemma PlaysUntilStopped(p: PartInstance, now: int, later: int)
    requires now <= later && OnAir(p, now) && LastStarted(p, now) == LastStarted(p, later)
    ensures !Truthy(p.timings.reportedStoppedPlayback) ==>
              BudgetPartPlayed(p, now) == Elapsed(p, now) && BudgetPartPlayed(p, later) - BudgetPartPlayed(p, now) == later - now
    ensures Truthy(p.timings.reportedStoppedPlayback) && p.timings.reportedStoppedPlayback.value <= now ==>
              BudgetPartPlayed(p, later) == BudgetPartPlayed(p, now) == BudgetPartPlayed(p, p.timings.reportedStoppedPlayback.value)
              || p.timings.reportedStoppedPlayback.value < p.timings.plannedStartedPlayback.value
  {
  }

  /** What it is expected to take stands, whatever it did take; without that, it is what it took, and before it has
      played, its share of the pool of its group. */
  lemma ExpectationStands(p: PartInstance, duration: int, share: Option<int>)
    requires Waits(p) && duration != 0
    ensures Expected(p) > 0 ==>
              ExpectedOrShare(WithDuration(p, duration), share) == ExpectedOrShare(p, share) == Expected(p)
    ensures Expected(p) == 0 ==>
              ExpectedOrShare(WithDuration(p, duration), share) == duration && ExpectedOrShare(p, share) == share.GetOr(0)
  {
  }

  /** When its time on air is recorded, that is what it is worth from then on, whatever it was given. */
  lemma HandedOver(p: PartInstance, now: int, later: int, share: Option<int>, default: nat, counts: bool, isCurrent: bool)
    requires OnAir(p, now) && Elapsed(p, now) > 0 && now <= later && LastStarted(p, now) == LastStarted(p, later) && Plays(p)
    ensures var q, e, offset := WithDuration(p, Elapsed(p, now)), Elapsed(p, now), Or(p.timings.playOffset, 0);
            && PlayedDuration(q, later) == PlayedDuration(p, now) - offset
            && PartDuration(q, later) == e - offset <= PartDuration(p, now)
            && AsPlayedOf(q, later, share, counts) == AsDisplayedOf(q, later, share) == WaitDuration(q, later, share, default) == e
            && AsPlayedOf(q, later, share, counts) <= AsPlayedOf(p, now, share, counts)
            && BudgetPartPlayed(q, later) == e && RemainingOf(q, later, share, counts, isCurrent) == 0
            && (e + offset > 0 ==> ShownDuration(q, later, share, default) == e + offset)
  {
  }

  /** Invalid parts are drawn at the default duration, and never count as played. */
  lemma NeverPlays(p: PartInstance, now: int, share: Option<int>, default: int)
    requires !Plays(p)
    ensures ShownDuration(p, now, share, default) == default && PlayedDuration(p, now) == 0
  {
  }

  /** A waiting member of a group is drawn at its display duration, if it has one, and otherwise takes all of
      the pool, but never less than the default duration (or next to nothing, for a gap). */
  lemma MemberWaiting(p: PartInstance, now: int, pool: int, default: nat)
    requires Waits(p) && Plays(p) && default > 0 && p.part.displayDuration.GetOr(0) >= 0
    ensures var drawn := ShownDuration(p, now, Some(pool), default);
            && (Truthy(p.part.displayDuration) ==> drawn == p.part.displayDuration.value)
            && (!Truthy(p.part.displayDuration) && pool >= default ==> drawn == pool)
            && (!Truthy(p.part.displayDuration) && pool < default && !p.part.gap ==> drawn == default)
            && (!Truthy(p.part.displayDuration) && pool < 1 && p.part.gap ==> drawn == MINIMAL_NONZERO_DURATION)
    ensures WaitDuration(p, now, Some(pool), default) == ShownDuration(p, now, Some(pool), default)
  {
  }

  /** A part without an expected duration is expected to take what is left in the pool, once it is on air. */
  lemma MemberOnAir(p: PartInstance, now: int, pool: nat, counts: bool)
    requires OnAir(p, now) && !Truthy(p.timings.duration)
    ensures AsPlayedOf(p, now, Some(pool), counts) == Max(if Expected(p) > 0 then Expected(p) else pool, Elapsed(p, now))
    ensures AsDisplayedOf(p, now, Some(pool)) == AsPlayedOf(p, now, Some(pool), counts)
  {
  }

  /** The current part goes on by itself exactly if it is one that does, and has a duration after which to. */
  lemma GoesOnByItself(s: Show, now: int, w: Progress, low: bool)
    requires 0 <= w.order.currentIndex < |s.parts| && w.order.nextIndex <= |s.parts|
    ensures var p, c := s.parts[w.order.currentIndex], ContextOf(s, now, w, None, low);
            && c.remainingTimeOnCurrentPart == Some(RemainingOnPart(p, now, w.tables.noPlayback))
            && (c.currentPartWillAutoNext <==> p.part.autoNext && p.part.expectedDuration.GetOr(0) != 0)
  {
  }

  /** A member of a group without a duration of its own is left with what its table entry shows it for. */
  lemma MemberLeft(p: PartInstance, now: int, shown: map<Id, int>)
    requires OnAir(p, now) && p.part.displayDurationGroup != "" && p.part.expectedDuration.GetOr(0) == 0
    requires TimingId(p) in shown
    ensures RemainingOnPart(p, now, shown) == shown[TimingId(p)] - Elapsed(p, now)
  {
  }

  /** A member that is taken has left what it was drawn for. */
  lemma MemberTaken(p: PartInstance, now: int, pool: int, default: nat)
    requires Waits(p) && Plays(p) && now > 0 && default > 0 && p.part.displayDuration.GetOr(0) >= 0
    ensures var q, drawn := WithStart(p, Some(now)), ShownDuration(p, now, Some(pool), default);
            ShownDuration(q, now, Some(pool), default) == LeftWhenOnAir(q, now, Some(pool), default, map[], map[]) == drawn
  {
  }

  /** A part on air whose stop is already planned is given nothing beyond what it has played: it is drawn at
      that, and nothing is left of it, however long it was to be and whenever it is to stop. */
  lemma StopIsPlanned(p: PartInstance, now: int, share: Option<int>, default: int)
    requires OnAir(p, now) && Plays(p) && Truthy(p.timings.plannedStoppedPlayback)
    requires p.timings.plannedStoppedPlayback.value > p.timings.plannedStartedPlayback.value
    ensures ShownDuration(p, now, share, default) == Elapsed(p, now)
    ensures PartDuration(p, now) == Elapsed(p, now) - Or(p.timings.playOffset, 0)
    ensures LeftWhenOnAir(p, now, share, default, map[], map[]) == 0
  {
  }
}
