/** The over/under readout: `getPlaylistTimingDiff`. */
module TimingReadout {
  import opened JsValues
  import opened TimingModel
  import opened TimingTracks
  import opened TimingCalculator
  import opened TimingEvolution

  /** When the show started, or would start if it is not before its expected start. */
  function StartTime(playlist: Playlist, currentTime: int): int
    requires playlist.timing.ForwardTime?
  {
    playlist.startedPlayback.GetOr(Max(playlist.timing.expectedStart, currentTime))
  }

  predicate PlayedOut(playlist: Playlist) {
    !playlist.active && Truthy(playlist.startedPlayback)
  }

  /** How far over (or, if negative, under) the show is: when it ends, less when it should end. */
  function OverUnder(playlist: Playlist, context: TimingContext, clock: int): int {
    var time := OrNum(context.currentTime, clock);
    match playlist.timing
    case NoTiming(duration) =>
      context.asPlayedPlaylistDuration - duration.GetOr(context.totalPlaylistDuration)
    case ForwardTime(_, duration, end) =>
      if PlayedOut(playlist) then
        if Truthy(end) then playlist.startedPlayback.value + context.asPlayedPlaylistDuration - end.value
        else context.asPlayedPlaylistDuration - duration.GetOr(context.totalPlaylistDuration)
      else
        var planned := StartTime(playlist, time) + duration.GetOr(context.totalPlaylistDuration);
        Max(time, StartTime(playlist, time)) + context.remainingPlaylistDuration
        - context.nextRundownAnchor.GetOr(end.GetOr(planned))
    case BackTime(end) =>
      if PlayedOut(playlist) then playlist.startedPlayback.value + context.asPlayedPlaylistDuration - end
      else time + context.remainingPlaylistDuration - context.nextRundownAnchor.GetOr(end)
  }

  method GetPlaylistTimingDiff(playlist: Playlist, timingContext: TimingContext, clock: int) returns (diff: int)
    ensures diff == OverUnder(playlist, timingContext, clock)
  {
    var currentTime := OrNum(timingContext.currentTime, clock);
    var frontAnchor, backAnchor := currentTime, currentTime;
    match playlist.timing {
      case ForwardTime(expectedStart, expectedDuration, expectedEnd) =>
        var withoutBreaks :=
          if expectedEnd.Some? then expectedEnd.value
          else playlist.startedPlayback.GetOr(Max(expectedStart, currentTime))
               + expectedDuration.GetOr(timingContext.totalPlaylistDuration);
        backAnchor := timingContext.nextRundownAnchor.GetOr(withoutBreaks);
        frontAnchor := Max(currentTime, playlist.startedPlayback.GetOr(Max(expectedStart, currentTime)));
      case BackTime(expectedEnd) =>
        backAnchor := timingContext.nextRundownAnchor.GetOr(expectedEnd);
      case NoTiming(_) =>
    }
    if playlist.timing.NoTiming? {
      diff := timingContext.asPlayedPlaylistDuration
              - playlist.timing.expectedDuration.GetOr(timingContext.totalPlaylistDuration);
    } else {
      diff := frontAnchor + timingContext.remainingPlaylistDuration - backAnchor;
    }
    // a show that is over is measured by what it has played
    if !playlist.active && Truthy(playlist.startedPlayback) {
      var started := playlist.startedPlayback.value;
      match playlist.timing {
        case ForwardTime(_, expectedDuration, expectedEnd) =>
          diff := timingContext.asPlayedPlaylistDuration - expectedDuration.GetOr(timingContext.totalPlaylistDuration);
          if Truthy(expectedEnd) {
            diff := started + timingContext.asPlayedPlaylistDuration - expectedEnd.value;
          }
        case NoTiming(expectedDuration) =>
          diff := timingContext.asPlayedPlaylistDuration - expectedDuration.GetOr(timingContext.totalPlaylistDuration);
        case BackTime(expectedEnd) =>
          diff := started + timingContext.asPlayedPlaylistDuration - expectedEnd;
      }
    }
  }

  // ------------------------------------------------------------------- what the readout means

  /** Is this the time at which the context was made? */
  predicate ReadAt(c: TimingContext, time: int) {
    c.currentTime == time && time != 0
  }

  /** On time, and so neither over nor under: a show that has yet to start, and would end as planned if it starts
      as planned. Until then the readout does not depend on the clock, and after it, it rises with the clock. */
  lemma BeforeTheStart(playlist: Playlist, c: TimingContext, time: int, clock: int)
    requires ReadAt(c, time) && playlist.timing.ForwardTime? && playlist.startedPlayback.None?
    requires c.nextRundownAnchor.None? && playlist.timing.forwardEnd.Some?
    ensures var start, end := playlist.timing.expectedStart, playlist.timing.forwardEnd.value;
            && (time <= start ==> OverUnder(playlist, c, clock) == start + c.remainingPlaylistDuration - end)
            && (time <= start && end == start + c.remainingPlaylistDuration ==> OverUnder(playlist, c, clock) == 0)
            && (time >= start ==> OverUnder(playlist, c, clock) == (time - start) + (start + c.remainingPlaylistDuration - end))
  {
  }

  /** Once it has started, and until it is over: the projected end less the planned one. A show that was started
      ahead of the clock is projected from its start. */
  lemma WhileItRuns(playlist: Playlist, c: TimingContext, time: int, clock: int)
    requires ReadAt(c, time) && playlist.timing.ForwardTime? && playlist.active && playlist.startedPlayback.Some?
    requires c.nextRundownAnchor.None? && playlist.timing.forwardEnd.Some?
    ensures var started := playlist.startedPlayback.value;
            OverUnder(playlist, c, clock) + playlist.timing.forwardEnd.value
            == (if started <= time then time else started) + c.remainingPlaylistDuration
  {
  }

  /** Without a planned end, a show should last as long as it was given, or else as long as its content, counted
      from its start. So before the start it is over by what remains beyond that, at whatever time, and it drifts
      by what has been lost since. */
  lemma WithoutPlannedEnd(playlist: Playlist, c: TimingContext, time: int, clock: int)
    requires ReadAt(c, time) && playlist.timing.ForwardTime? && playlist.timing.forwardEnd.None? && c.nextRundownAnchor.None?
    requires !PlayedOut(playlist)
    ensures var planned, over := playlist.timing.expectedDuration.GetOr(c.totalPlaylistDuration), OverUnder(playlist, c, clock);
            && (playlist.startedPlayback.None? ==> over == c.remainingPlaylistDuration - planned)
            && (playlist.startedPlayback.Some? && playlist.startedPlayback.value <= time ==>
                  over == (time - playlist.startedPlayback.value) + c.remainingPlaylistDuration - planned)
  {
  }

  /** An anchor takes the place of the planned end, whatever that was. */
  lemma AnchoredReadout(playlist: Playlist, c: TimingContext, time: int, clock: int)
    requires ReadAt(c, time) && !playlist.timing.NoTiming? && !PlayedOut(playlist) && c.nextRundownAnchor.Some?
    ensures var starts := if playlist.timing.ForwardTime? then playlist.startedPlayback.GetOr(playlist.timing.expectedStart) else time;
            OverUnder(playlist, c, clock) == (if starts <= time then time else starts) + c.remainingPlaylistDuration
                                             - c.nextRundownAnchor.value
  {
  }

  /** A context without a time is read at the time of the clock. */
  lemma ReadByTheClock(playlist: Playlist, c: TimingContext, time: int, clock: int)
    requires ReadAt(c, time)
    ensures OverUnder(playlist, c.(currentTime := 0), time) == OverUnder(playlist, c, clock)
  {
  }

  /** A back-timed show is on time exactly if what remains fits between now and its end. */
  lemma BackTimed(playlist: Playlist, c: TimingContext, time: int, clock: int)
    requires ReadAt(c, time) && playlist.timing.BackTime? && !PlayedOut(playlist) && c.nextRundownAnchor.None?
    ensures OverUnder(playlist, c, clock) > 0 <==> c.remainingPlaylistDuration > playlist.timing.expectedEnd - time
    ensures OverUnder(playlist, c, clock) == 0 <==> c.remainingPlaylistDuration == playlist.timing.expectedEnd - time
    ensures OverUnder(playlist, c, clock) == c.remainingPlaylistDuration - (playlist.timing.expectedEnd - time)
  {
  }

  /** When a show is over, it is measured by what it has played since its start: neither the clock, nor what
      remains, nor an anchor matters. A planned end is the same as the duration up to it. */
  lemma PlayedOutReadout(playlist: Playlist, c: TimingContext, clock: int)
    requires PlayedOut(playlist)
    ensures var started, played := playlist.startedPlayback.value, c.asPlayedPlaylistDuration;
            var over := OverUnder(playlist, c, clock);
            match playlist.timing
            case NoTiming(duration) => over == played - duration.GetOr(c.totalPlaylistDuration)
            case ForwardTime(_, duration, end) =>
              (if Truthy(end) then over == played - (end.value - started)
               else over == played - duration.GetOr(c.totalPlaylistDuration))
            case BackTime(end) => over == played - (end - started)
    ensures forall time, remaining, anchor ::
              var d := c.(currentTime := time, remainingPlaylistDuration := remaining, nextRundownAnchor := anchor);
              OverUnder(playlist, d, clock) == OverUnder(playlist, c, clock)
  {
  }

  /** Without timing only what is played counts, now or later: the readout is the same on air and off. */
  lemma WithoutTiming(playlist: Playlist, c: TimingContext, clock: int)
    requires playlist.timing.NoTiming?
    ensures OverUnder(playlist.(active := true), c, clock) == OverUnder(playlist.(active := false), c, clock)
            == c.asPlayedPlaylistDuration - playlist.timing.expectedDuration.GetOr(c.totalPlaylistDuration)
  {
  }

  /** The moment a show with a planned end has played everything and is taken off air, the readout stands, if it
      has been on air without a gap since its start. */
  lemma GoingOffAir(playlist: Playlist, c: TimingContext, time: int, clock: int)
    requires ReadAt(c, time) && playlist.active && c.nextRundownAnchor.None? && c.remainingPlaylistDuration == 0
    requires playlist.startedPlayback.Some? && 0 < playlist.startedPlayback.value <= time
    requires match playlist.timing
             case NoTiming(_) => true
             case ForwardTime(_, _, end) => end.None? || Truthy(end)
             case BackTime(_) => true
    ensures OverUnder(playlist.(active := false), c, clock) == OverUnder(playlist, c, clock)
            <==> playlist.timing.NoTiming? || c.asPlayedPlaylistDuration == time - playlist.startedPlayback.value
  {
  }

  // ------------------------------------------------------------------ the readout over time

  /** The show is on, and has a fixed time at which it should end. */
  predicate EndsAtFixedTime(playlist: Playlist, now: int) {
    && playlist.active
    && match playlist.timing
       case NoTiming(_) => false
       case BackTime(_) => true
       case ForwardTime(_, _, end) => end.Some? && playlist.startedPlayback.Some? && playlist.startedPlayback.value <= now
  }

  predicate HasTimes(seg: Segment) {
    Truthy(seg.expectedStart) || Truthy(seg.expectedEnd)
  }

  lemma {:induction false} NoTimesNoAnchor(s: Show, now: int, i: nat, end: nat)
    requires i <= end <= |s.parts|
    requires forall k :: 0 <= k < |s.segments| ==> !HasTimes(s.segments[k])
    ensures FirstAnchor(s, now, i, end) == None
    decreases end - i
  {
    if i < end {
      NoTimesNoAnchor(s, now, i + 1, end);
    }
  }

  lemma ReadoutFromTotals(playlist: Playlist, c: TimingContext, d: TimingContext, clock: int)
    requires c.currentTime <= d.currentTime && c.currentTime != 0 && d.currentTime != 0
    requires EndsAtFixedTime(playlist, c.currentTime) && c.nextRundownAnchor == d.nextRundownAnchor
    ensures OverUnder(playlist, d, clock) - OverUnder(playlist, c, clock)
            == (d.currentTime - c.currentTime) - (c.remainingPlaylistDuration - d.remainingPlaylistDuration)
  {
  }

  /** While a show with a fixed end is on air and nothing else starts, the readout rises by exactly the
      growth of as-played: it stands still as long as remaining counts down with the clock. */
  lemma ReadoutOverTime(s: Show, now: int, later: int, remembered: Option<Id>, tables: Tables,
                        c: TimingContext, d: TimingContext, clock: int)
    requires 0 < now <= later && DistinctSegments(s)
    requires NothingStarts(s, now, later) && OnlyCurrentOnAir(s, now)
    requires ClockRuns(s, now, WalkedAll(s, now, remembered, tables))
    requires EndsAtFixedTime(s.playlist, now)
    requires forall k :: 0 <= k < |s.segments| ==> !HasTimes(s.segments[k])
    requires c == ContextOf(s, now, WalkedAll(s, now, remembered, tables), c.breaks, c.isLowResolution)
    requires d == ContextOf(s, later, WalkedAll(s, later, remembered, tables), d.breaks, d.isLowResolution)
    ensures OverUnder(s.playlist, d, clock) - OverUnder(s.playlist, c, clock)
            == d.asPlayedPlaylistDuration - c.asPlayedPlaylistDuration >= 0
    ensures OverUnder(s.playlist, d, clock) == OverUnder(s.playlist, c, clock)
            <==> c.remainingPlaylistDuration - d.remainingPlaylistDuration == later - now
  {
    EvolutionOverTime(s, now, later, remembered, tables);
    var n: nat := Max(FinalOrder(s).nextIndex, 0);
    NoTimesNoAnchor(s, now, n, |s.parts|);
    NoTimesNoAnchor(s, later, n, |s.parts|);
    NoTimesNoAnchor(s, now, 0, n);
    NoTimesNoAnchor(s, later, 0, n);
    assert c.nextRundownAnchor == d.nextRundownAnchor == None;
    ReadoutFromTotals(s.playlist, c, d, clock);
  }
}
