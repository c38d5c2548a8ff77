/** The calculator is reused from call to call; what a call returns does not depend on the calls before
    it, but for the next segment remembered while the next part cannot be found. */
module TimingHistory {
  import opened JsValues
  import opened TimingModel
  import opened TimingTracks
  import opened TimingCalculator
  import opened ShowBreaks
  import opened TimingEvolution

  datatype Call = Call(show: Option<Show>, now: int)

  /** What a calculator remembers from call to call: the next segment, the tables, and the breaks with their key. */
  datatype Left = Left(nextSegmentId: Option<Id>, tables: Tables, breakProps: Option<BreakProps>, breakState: Option<string>)

  /** What is left behind by one more call. */
  function LeftAfter(left: Left, call: Call): Left {
    match call.show
    case None => left
    case Some(s) =>
      var w := WalkedAll(s, call.now, left.nextSegmentId, left.tables);
      if s.currentRundown.None? then Left(w.nextSegment, w.tables, left.breakProps, left.breakState)
      else Left(w.nextSegment, w.tables, BreaksAfter(left.breakProps, left.breakState, s.rundowns, s.currentRundown),
                Some(BreakKey(s.rundowns)))
  }

  /** What a new calculator remembers after the given calls. */
  function LeftBehind(history: seq<Call>): Left {
    if history == [] then Left(None, NO_TABLES, None, None)
    else LeftAfter(LeftBehind(history[..|history| - 1]), history[|history| - 1])
  }

  /** The seven values that the tables hold for a key. */
  datatype Values = Values(
    duration: int, expected: int, played: int, startsAt: int, displayStartsAt: int, displayDuration: int, noPlayback: int)

  function ValuesAt(t: Tables, k: Id): Option<Values> {
    if k in t.durations && k in t.expected && k in t.played && k in t.startsAt && k in t.displayStartsAt &&
       k in t.displayDurations && k in t.noPlayback
    then Some(Values(t.durations[k], t.expected[k], t.played[k], t.startsAt[k], t.displayStartsAt[k],
                     t.displayDurations[k], t.noPlayback[k]))
    else None
  }

  /** Both tables hold the same seven values for the key. */
  predicate AgreeAt(t: Tables, u: Tables, k: Id) {
    ValuesAt(t, k).Some? && ValuesAt(t, k) == ValuesAt(u, k)
  }

  /** What a part records. */
  function ValuesOf(p: PartInstance, now: int, share: Option<int>, default: int, times: Times): Values {
    Values(PartDuration(p, now), ExpectedOrShare(p, share), PlayedDuration(p, now), times.startsAt, times.displayStartsAt,
           ShownDuration(p, now, share, default), DisplayNoPlayback(p, now, share, default))
  }

  lemma RecordingKeeps(p: PartInstance, now: int, share: Option<int>, default: int, times: Times, t: Tables, k: Id)
    ensures ValuesAt(TablesAfter(p, now, share, default, times, t), k) ==
              if k == TimingId(p) then Some(ValuesOf(p, now, share, default, times)) else ValuesAt(t, k)
  {
  }

  lemma RecordingForgets(p: PartInstance, now: int, share: Option<int>, default: int, times: Times,
                         t: Tables, u: Tables, k: Id)
    requires k == TimingId(p) || AgreeAt(t, u, k)
    ensures AgreeAt(TablesAfter(p, now, share, default, times, t), TablesAfter(p, now, share, default, times, u), k)
  {
    RecordingKeeps(p, now, share, default, times, t, k);
    RecordingKeeps(p, now, share, default, times, u, k);
  }

  lemma {:induction false} TablesForget(s: Show, now: int, t: Tables, u: Tables, i: nat, j: nat)
    requires j < i <= |s.parts|
    ensures AgreeAt(TablesAt(s, now, t, i), TablesAt(s, now, u, i), TimingId(s.parts[j]))
  {
    if j < i - 1 {
      TablesForget(s, now, t, u, i - 1, j);
    }
    RecordingForgets(s.parts[i-1], now, ShareAt(s, now, i - 1), s.defaultDuration, TimesAt(s, now, i - 1),
                     TablesAt(s, now, t, i - 1), TablesAt(s, now, u, i - 1), TimingId(s.parts[j]));
  }

  lemma NextPartRecords(s: Show, now: int, t: Tables, i: nat, k: Id)
    requires i < |s.parts|
    ensures ValuesAt(TablesAt(s, now, t, i + 1), k) ==
              if k == TimingId(s.parts[i])
              then Some(ValuesOf(s.parts[i], now, ShareAt(s, now, i), s.defaultDuration, TimesAt(s, now, i)))
              else ValuesAt(TablesAt(s, now, t, i), k)
  {
    RecordingKeeps(s.parts[i], now, ShareAt(s, now, i), s.defaultDuration, TimesAt(s, now, i), TablesAt(s, now, t, i), k);
  }

  /** What is held for a key after the first `i` parts. */
  function HeldAt(s: Show, now: int, t: Tables, i: nat, k: Id): Option<Values>
    requires i <= |s.parts|
  {
    ValuesAt(TablesAt(s, now, t, i), k)
  }

  lemma OtherPartKeeps(s: Show, now: int, t: Tables, i: nat, k: Id)
    requires i < |s.parts| && TimingId(s.parts[i]) != k
    ensures HeldAt(s, now, t, i + 1, k) == HeldAt(s, now, t, i, k)
  {
    NextPartRecords(s, now, t, i, k);
  }

  lemma {:induction false} StaysTheSame<T>(held: seq<T>, j: nat, i: nat)
    requires j <= i < |held| && forall l :: j <= l < i ==> held[l + 1] == held[l]
    ensures held[i] == held[j]
  {
    if j < i {
      StaysTheSame(held, j, i - 1);
      assert held[i - 1 + 1] == held[i - 1];
    }
  }

  /** Parts with other keys leave alone what is held for a key. */
  lemma {:induction false} TablesKeep(s: Show, now: int, t: Tables, i: nat, j: nat, k: Id)
    requires j <= i <= |s.parts|
    requires forall l :: j <= l < i ==> TimingId(s.parts[l]) != k
    ensures HeldAt(s, now, t, i, k) == HeldAt(s, now, t, j, k)
  {
    var held := seq(i + 1, l requires 0 <= l <= i => HeldAt(s, now, t, l, k));
    forall l | j <= l < i
      ensures held[l + 1] == held[l]
    {
      OtherPartKeeps(s, now, t, l, k);
    }
    StaysTheSame(held, j, i);
  }

  /** What stands under a part's key is what was recorded for the last part with that key. */
  lemma TablesRecord(s: Show, now: int, t: Tables, j: nat)
    requires j < |s.parts|
    requires forall k :: j < k < |s.parts| ==> TimingId(s.parts[k]) != TimingId(s.parts[j])
    ensures HeldAt(s, now, t, |s.parts|, TimingId(s.parts[j])) ==
              Some(ValuesOf(s.parts[j], now, ShareAt(s, now, j), s.defaultDuration, TimesAt(s, now, j)))
  {
    NextPartRecords(s, now, t, j, TimingId(s.parts[j]));
    TablesKeep(s, now, t, |s.parts|, j + 1, TimingId(s.parts[j]));
  }

  lemma {:induction false} NextSegmentForgets(s: Show, r: Option<Id>, q: Option<Id>, i: nat)
    requires i <= |s.parts|
    requires s.playlist.nextPartInstanceId.None? || Orders(s, i).nextIndex >= 0
    ensures NextSegmentAt(s, r, i) == NextSegmentAt(s, q, i)
  {
    if i > 0 && !IsNext(s, s.parts[i-1]) {
      NextSegmentForgets(s, r, q, i - 1);
    }
  }

  lemma {:induction false} TotalsForget(s: Show, now: int, w: Progress, v: Progress, k: nat)
    requires k <= |s.segments| && v == w.(tables := v.tables)
    ensures PlannedTotal(s, w, k) == PlannedTotal(s, v, k)
    ensures RemainingTotal(s, now, w, k) == RemainingTotal(s, now, v, k)
    ensures AsPlayedTotal(s, now, w, k) == AsPlayedTotal(s, now, v, k)
    ensures RundownAsPlayedTotal(s, now, w, k) == RundownAsPlayedTotal(s, now, v, k)
  {
    if k > 0 {
      TotalsForget(s, now, w, v, k - 1);
    }
  }

  lemma ReadoutForgets(p: PartInstance, now: int, t: map<Id, int>, u: map<Id, int>)
    requires TimingId(p) in t && TimingId(p) in u && t[TimingId(p)] == u[TimingId(p)]
    ensures RemainingOnPart(p, now, t) == RemainingOnPart(p, now, u)
  {
  }

  lemma ContextForgets(s: Show, now: int, w: Progress, v: Progress, breaks: Option<BreakProps>, low: bool)
    requires w.order.nextIndex <= |s.parts| && v == w.(tables := v.tables)
    requires 0 <= w.order.currentIndex < |s.parts| ==>
               AgreeAt(w.tables, v.tables, TimingId(s.parts[w.order.currentIndex]))
    ensures ContextOf(s, now, w, breaks, low) == ContextOf(s, now, v, breaks, low)
  {
    TotalsForget(s, now, w, v, |s.segments|);
    assert Countdowns(s, w) == Countdowns(s, v) by {
      forall j | 0 <= j < |w.linear|
        ensures Countdown(s, w, j) == Countdown(s, v, j)
      {
        CountdownForgets(s, w, v, j);
      }
    }
    if 0 <= w.order.currentIndex < |s.parts| {
      ReadoutForgets(s.parts[w.order.currentIndex], now, w.tables.noPlayback, v.tables.noPlayback);
    }
  }

  lemma WalkForgets(s: Show, now: int, r: Option<Id>, t: Tables, q: Option<Id>, u: Tables)
    ensures var w, v := WalkedAll(s, now, r, t), WalkedAll(s, now, q, u);
            && v == w.(tables := TablesAt(s, now, u, |s.parts|), nextSegment := NextSegmentAt(s, q, |s.parts|))
            && w.tables == TablesAt(s, now, t, |s.parts|) && w.nextSegment == NextSegmentAt(s, r, |s.parts|)
            && w.order == FinalOrder(s) && |w.linear| == |s.parts|
  {
  }

  lemma CountdownForgets(s: Show, w: Progress, v: Progress, j: nat)
    requires j < |w.linear| && v == w.(tables := v.tables, nextSegment := v.nextSegment)
    ensures Countdown(s, w, j) == Countdown(s, v, j)
  {
  }

  /** Every present part has the values and the countdown that a new calculator would give it. */
  lemma PartsAsFresh(s: Show, now: int, remembered: Option<Id>, tables: Tables, j: nat)
    requires j < |s.parts|
    ensures var w, v := WalkedAll(s, now, remembered, tables), WalkedAll(s, now, None, NO_TABLES);
            AgreeAt(w.tables, v.tables, TimingId(s.parts[j])) && Countdown(s, w, j) == Countdown(s, v, j)
  {
    var w, v := WalkedAll(s, now, remembered, tables), WalkedAll(s, now, None, NO_TABLES);
    WalkForgets(s, now, remembered, tables, None, NO_TABLES);
    assert AgreeAt(w.tables, v.tables, TimingId(s.parts[j])) by {
      TablesForget(s, now, tables, NO_TABLES, |s.parts|, j);
    }
    CountdownForgets(s, w, v, j);
  }

  lemma ContextAsFresh(s: Show, now: int, remembered: Option<Id>, tables: Tables, breaks: Option<BreakProps>, low: bool)
    requires s.playlist.nextPartInstanceId.None? || FinalOrder(s).nextIndex >= 0
    ensures ContextOf(s, now, WalkedAll(s, now, remembered, tables), breaks, low)
            == ContextOf(s, now, WalkedAll(s, now, None, NO_TABLES), breaks, low)
  {
    var w, v := WalkedAll(s, now, remembered, tables), WalkedAll(s, now, None, NO_TABLES);
    WalkForgets(s, now, remembered, tables, None, NO_TABLES);
    NextSegmentForgets(s, remembered, None, |s.parts|);
    if w.order.currentIndex >= 0 {
      PartsAsFresh(s, now, remembered, tables, w.order.currentIndex);
    }
    ContextForgets(s, now, w, v, breaks, low);
  }

  /** After any calls, a call gives every present part the values and the countdown that a new calculator
      would, and, if the next part is unset or present, the same context. */
  lemma HistoryIndependence(history: seq<Call>, s: Show, now: int, breaks: Option<BreakProps>, low: bool, j: nat)
    requires j < |s.parts|
    ensures var left := LeftBehind(history);
            var w, v := WalkedAll(s, now, left.nextSegmentId, left.tables), WalkedAll(s, now, None, NO_TABLES);
            && AgreeAt(w.tables, v.tables, TimingId(s.parts[j])) && Countdown(s, w, j) == Countdown(s, v, j)
            && (s.playlist.nextPartInstanceId.None? || FinalOrder(s).nextIndex >= 0 ==>
                  ContextOf(s, now, w, breaks, low) == ContextOf(s, now, v, breaks, low))
  {
    var remembered, tables := LeftBehind(history).nextSegmentId, LeftBehind(history).tables;
    PartsAsFresh(s, now, remembered, tables, j);
    if s.playlist.nextPartInstanceId.None? || FinalOrder(s).nextIndex >= 0 {
      ContextAsFresh(s, now, remembered, tables, breaks, low);
    }
  }

  lemma {:induction false} NextSegmentRemembered(s: Show, r: Option<Id>, i: nat)
    requires i <= |s.parts| && s.playlist.nextPartInstanceId.Some? && Orders(s, i).nextIndex == -1
    ensures NextSegmentAt(s, r, i) == r
  {
    if i > 0 {
      NextSegmentRemembered(s, r, i - 1);
    }
  }

  /** The budgets that count of the segments from the `k`-th up to the `n`-th, but for the live one. */
  function BudgetsAhead(s: Show, w: Progress, k: nat, n: nat): int
    requires n <= |s.segments|
  {
    if n <= k then 0
    else
      BudgetsAhead(s, w, k, n - 1) +
      if BudgetCounts(s, w, n - 1) && w.order.live != Some(s.segments[n-1].id) then AllBudgets(s)[s.segments[n-1].id] else 0
  }

  lemma {:induction false} RemainingAhead(s: Show, now: int, w: Progress, v: Progress, k: nat, n: nat)
    requires k < |s.segments| && n <= |s.segments| && s.playlist.active && DistinctSegments(s)
    requires v == w.(nextSegment := None) && w.nextSegment == Some(s.segments[k].id)
    ensures RemainingTotal(s, now, w, n) == RemainingTotal(s, now, v, n) + BudgetsAhead(s, w, k, n)
  {
    if n > 0 {
      RemainingAhead(s, now, w, v, k, n - 1);
      assert !Reached(s, v.nextSegment, n);
      assert Reached(s, w.nextSegment, n) <==> k < n;
      assert BudgetCounts(s, w, n - 1) == BudgetCounts(s, v, n - 1);
    }
  }

  /** While the next part of an active playlist cannot be found, what is remembered decides how much remains:
      with a segment remembered, the budgets from that one on remain as well, but for the live segment's. */
  lemma RememberedSegmentMatters(s: Show, now: int, tables: Tables, k: nat)
    requires k < |s.segments| && DistinctSegments(s)
    requires s.playlist.active && s.playlist.nextPartInstanceId.Some? && FinalOrder(s).nextIndex == -1
    ensures var w, v := WalkedAll(s, now, Some(s.segments[k].id), tables), WalkedAll(s, now, None, tables);
            RemainingTotal(s, now, w, |s.segments|)
            == RemainingTotal(s, now, v, |s.segments|) + BudgetsAhead(s, w, k, |s.segments|)
  {
    NextSegmentRemembered(s, Some(s.segments[k].id), |s.parts|);
    NextSegmentRemembered(s, None, |s.parts|);
    var w, v := WalkedAll(s, now, Some(s.segments[k].id), tables), WalkedAll(s, now, None, tables);
    WalkForgets(s, now, Some(s.segments[k].id), tables, None, tables);
    RemainingAhead(s, now, w, v, k, |s.segments|);
  }

  // ------------------------------------------------------------------------- on the object

  /** What a calculator holds of earlier calls. */
  ghost function LeftBy(calculator: RundownTimingCalculator): Left
    reads calculator
  {
    Left(calculator.nextSegmentId, calculator.PartMaps(), calculator.breakProps, calculator.breakState)
  }

  /** The breaks that a call shows: those cached by then, if there is a current rundown. */
  function BreaksIn(left: Left, s: Show, now: int): Option<BreakProps> {
    if s.currentRundown.None? then None else LeftAfter(left, Call(Some(s), now)).breakProps
  }

  /** The context answers a call from what earlier calls have left behind. */
  ghost predicate AnswersFrom(left: Left, call: Call, context: TimingContext, isLowResolution: bool) {
    match call.show
    case None => context == EmptyContext(call.now, isLowResolution)
    case Some(s) =>
      && context.breaks == BreaksIn(left, s, call.now)
      && context == ContextOf(s, call.now, WalkedAll(s, call.now, left.nextSegmentId, left.tables), context.breaks, isLowResolution)
  }

  method PutCall(calculator: RundownTimingCalculator, call: Call, isLowResolution: bool, ghost left: Left)
    returns (context: TimingContext)
    requires LeftBy(calculator) == left
    modifies calculator
    ensures LeftBy(calculator) == LeftAfter(left, call)
    ensures AnswersFrom(left, call, context, isLowResolution)
  {
    context := calculator.UpdateDurations(call.now, isLowResolution, call.show);
    if call.show.Some? {
      ghost var s := call.show.value;
      ghost var w := WalkedAll(s, call.now, left.nextSegmentId, left.tables);
      assert calculator.Answered(s, call.now, w, context, isLowResolution);
      assert calculator.BreaksUpdated(s, left.breakProps, left.breakState, context.breaks);
    }
  }

  /** Each call is answered from what those before it have left behind. */
  ghost predicate AllAnswered(history: seq<Call>, contexts: seq<TimingContext>, isLowResolution: bool)
  {
    && |contexts| == |history|
    && (history != [] ==>
          var n := |history| - 1;
          AllAnswered(history[..n], contexts[..n], isLowResolution)
          && AnswersFrom(LeftBehind(history[..n]), history[n], contexts[n], isLowResolution))
  }

  /** One more call, answered. */
  lemma Answer(history: seq<Call>, n: nat, contexts: seq<TimingContext>, context: TimingContext, isLowResolution: bool)
    requires n < |history| && AllAnswered(history[..n], contexts, isLowResolution)
    requires AnswersFrom(LeftBehind(history[..n]), history[n], context, isLowResolution)
    ensures AllAnswered(history[..n + 1], contexts + [context], isLowResolution)
    ensures LeftBehind(history[..n + 1]) == LeftAfter(LeftBehind(history[..n]), history[n])
  {
    assert history[..n + 1][..n] == history[..n] && (contexts + [context])[..n] == contexts;
  }

  /** Makes a calculator and puts all the calls to it. */
  method Replay(history: seq<Call>, isLowResolution: bool)
    returns (calculator: RundownTimingCalculator, contexts: seq<TimingContext>)
    ensures fresh(calculator)
    ensures LeftBy(calculator) == LeftBehind(history)
    ensures AllAnswered(history, contexts, isLowResolution)
  {
    calculator := new RundownTimingCalculator();
    contexts := [];
    assert history[..0] == [];
    ghost var left := LeftBehind([]);
    for n := 0 to |history|
      invariant fresh(calculator)
      invariant left == LeftBehind(history[..n]) == LeftBy(calculator)
      invariant AllAnswered(history[..n], contexts, isLowResolution)
    {
      var context := PutCall(calculator, history[n], isLowResolution, left);
      Answer(history, n, contexts, context, isLowResolution);
      left := LeftAfter(left, history[n]);
      contexts := contexts + [context];
    }
    assert history[..|history|] == history;
  }

  // ------------------------------------------------------------------------------ the breaks

  predicate LooksUpBreaks(call: Call) {
    call.show.Some? && call.show.value.currentRundown.Some?
  }

  /** The calls in which breaks are looked up, as the cache sees them. */
  function Lookups(history: seq<Call>): seq<Request> {
    if history == [] then []
    else
      var front, call := Lookups(history[..|history|-1]), history[|history|-1];
      if LooksUpBreaks(call) then front + [Request(call.show.value.rundowns, call.show.value.currentRundown)] else front
  }

  lemma NextIsCached(left: Left, s: Show, now: int, lookups: seq<Request>)
    requires s.currentRundown.Some? && (left.breakProps, left.breakState) == Cached(lookups)
    ensures var after := LeftAfter(left, Call(Some(s), now));
            (after.breakProps, after.breakState) == Cached(lookups + [Request(s.rundowns, s.currentRundown)])
  {
    var more := lookups + [Request(s.rundowns, s.currentRundown)];
    assert more[..|more|-1] == lookups;
  }

  lemma OtherCallsKeepCache(left: Left, call: Call)
    requires !LooksUpBreaks(call)
    ensures LeftAfter(left, call).breakProps == left.breakProps && LeftAfter(left, call).breakState == left.breakState
  {
  }

  lemma {:induction false} BreaksAreCached(history: seq<Call>)
    ensures (LeftBehind(history).breakProps, LeftBehind(history).breakState) == Cached(Lookups(history))
  {
    if history != [] {
      var front, call := history[..|history|-1], history[|history|-1];
      var left := LeftBehind(front);
      BreaksAreCached(front);
      assert LeftBehind(history) == LeftAfter(left, call);
      if LooksUpBreaks(call) {
        NextIsCached(left, call.show.value, call.now, Lookups(front));
      } else {
        OtherCallsKeepCache(left, call);
      }
    }
  }

  lemma AnsweredLast(history: seq<Call>, contexts: seq<TimingContext>, isLowResolution: bool)
    requires AllAnswered(history, contexts, isLowResolution) && history != []
    ensures var n := |history| - 1;
            && AllAnswered(history[..n], contexts[..n], isLowResolution)
            && (history[n].show.Some? ==>
                  contexts[n].breaks == BreaksIn(LeftBehind(history[..n]), history[n].show.value, history[n].now))
  {
    var n := |history| - 1;
    assert AnswersFrom(LeftBehind(history[..n]), history[n], contexts[n], isLowResolution);
  }

  lemma {:induction false} AnsweredAt(history: seq<Call>, contexts: seq<TimingContext>, isLowResolution: bool, n: nat)
    requires AllAnswered(history, contexts, isLowResolution) && n < |history| && history[n].show.Some?
    ensures |contexts| == |history|
    ensures contexts[n].breaks == BreaksIn(LeftBehind(history[..n]), history[n].show.value, history[n].now)
  {
    var last := |history| - 1;
    AnsweredLast(history, contexts, isLowResolution);
    if n < last {
      AnsweredAt(history[..last], contexts[..last], isLowResolution, n);
      assert history[..last][..n] == history[..n];
    }
  }

  /** What the context shows is what has been looked up so far. */
  lemma ShownIsCached(history: seq<Call>, n: nat)
    requires n < |history| && LooksUpBreaks(history[n])
    ensures var s, lookups := history[n].show.value, Lookups(history[..n + 1]);
            && lookups != [] && lookups[|lookups|-1] == Request(s.rundowns, s.currentRundown)
            && BreaksIn(LeftBehind(history[..n]), s, history[n].now) == Cached(lookups).0
  {
    var before, after, s := history[..n], history[..n + 1], history[n].show.value;
    assert after[..n] == before && after[n] == history[n];
    BreaksAreCached(before);
    NextIsCached(LeftBehind(before), s, history[n].now, Lookups(before));
    assert Lookups(after) == Lookups(before) + [Request(s.rundowns, s.currentRundown)];
  }

  /** After any calls to the object, the breaks of a context are right exactly if those of the first call with
      the same key serve. */
  lemma BreaksShown(history: seq<Call>, contexts: seq<TimingContext>, isLowResolution: bool, n: nat)
    requires AllAnswered(history, contexts, isLowResolution) && n < |history| && LooksUpBreaks(history[n])
    ensures |contexts| == |history|
    ensures var lookups := Lookups(history[..n + 1]);
            && lookups != []
            && var first, last := lookups[FirstWithKey(lookups)], lookups[|lookups|-1];
               && last == Request(history[n].show.value.rundowns, history[n].show.value.currentRundown)
               && (contexts[n].breaks == Breaks(last.rundowns, last.current) <==>
                     Serves(first.rundowns, first.current, last.rundowns, last.current))
  {
    AnsweredAt(history, contexts, isLowResolution, n);
    ShownIsCached(history, n);
    LastAnswerIsRight(Lookups(history[..n + 1]));
  }
}
