/** The data that `updateDurations` reads, and what each per-part expression of it denotes. */
module TimingModel {
  import opened JsValues

  /** Absent timings are timings whose fields are all `None`: the source only reads `timings?.x`. */
  datatype Timings = Timings(
    plannedStartedPlayback: Option<int>,
    plannedStoppedPlayback: Option<int>,
    reportedStartedPlayback: Option<int>,
    reportedStoppedPlayback: Option<int>,
    playOffset: Option<int>,
    duration: Option<int>)

  /** `displayDurationGroup` is "" when absent, which JavaScript cannot tell apart here. */
  datatype Part = Part(
    id: Id,
    segmentId: Id,
    rundownId: Id,
    expectedDuration: Option<int>,
    budgetDuration: Option<int>,
    displayDuration: Option<int>,
    displayDurationGroup: string,
    floated: bool,
    gap: bool,
    invalid: bool,
    untimed: bool,
    autoNext: bool)

  /** `expected` is the result of `calculatePartInstanceExpectedDurationWithTransition`. */
  datatype PartInstance = PartInstance(
    id: Id,
    isTemporary: bool,
    segmentId: Id,
    timings: Timings,
    part: Part,
    expected: Option<nat>)

  datatype Segment = Segment(id: Id, rundownId: Id, expectedStart: Option<int>, expectedEnd: Option<int>)

  datatype Rundown = Rundown(id: Id, endOfRundownIsShowBreak: Option<bool>)

  datatype PlaylistTiming =
    | NoTiming(expectedDuration: Option<int>)
    | ForwardTime(expectedStart: int, expectedDuration: Option<int>, forwardEnd: Option<int>)
    | BackTime(expectedEnd: int)

  datatype Playlist = Playlist(
    active: bool,
    nextPartInstanceId: Option<Id>,
    currentPartInstanceId: Option<Id>,
    outOfOrderTiming: bool,
    loop: bool,
    startedPlayback: Option<int>,
    timing: PlaylistTiming)

  /** Everything but the clock. `segments` are the values of `segmentsMap` in insertion order. */
  datatype Show = Show(
    playlist: Playlist,
    rundowns: seq<Rundown>,
    currentRundown: Option<Rundown>,
    parts: seq<PartInstance>,
    partInstancesMap: map<Id, PartInstance>,
    segments: seq<Segment>,
    defaultDuration: int,
    segmentEntries: seq<PartInstance>)

  const MINIMAL_NONZERO_DURATION := 1

  // ---------------------------------------------------------------- one part on its own

  function TimingId(p: PartInstance): Id {
    if !p.isTemporary then p.id else p.part.id
  }

  function Expected(p: PartInstance): nat {
    p.expected.GetOr(0)
  }

  /** A start that lies in the future has not happened yet. */
  function LastStarted(p: PartInstance, now: int): Option<int> {
    if p.timings.plannedStartedPlayback.GetOr(0) <= now then p.timings.plannedStartedPlayback else None
  }

  predicate Recorded(p: PartInstance) {
    Truthy(p.timings.duration)
  }

  predicate Started(p: PartInstance, now: int) {
    Truthy(LastStarted(p, now))
  }

  /** Started, and no duration recorded yet. */
  predicate OnAir(p: PartInstance, now: int) {
    Started(p, now) && !Recorded(p)
  }

  function Elapsed(p: PartInstance, now: int): (e: int)
    ensures OnAir(p, now) ==> e >= 0
  {
    now - LastStarted(p, now).GetOr(now)
  }

  /** The stopgap "duration" of a part on air whose planned stop is already known. */
  function StopgapDuration(p: PartInstance, now: int): Option<int> {
    if Truthy(p.timings.plannedStoppedPlayback)
    then Some(LastStarted(p, now).GetOr(0) - p.timings.plannedStoppedPlayback.value)
    else None
  }

  function EnsureMinimumDefaultDurationIfNotAuto(p: PartInstance, incoming: Option<nat>, default: int): int {
    if incoming.None? then default
    else if p.part.autoNext then incoming.value
    else Max(incoming.value, default)
  }

  // --------------------------------------- one part and its share of a display duration group

  /** What a group member may show. `share` is the pool of its group including its own expected
      duration, and `None` for a part that is in no group. */
  function FromGroup(p: PartInstance, share: Option<int>, default: int): int {
    match share
    case None => 0
    case Some(pool) =>
      Or(p.part.displayDuration, Max(0, Max(pool, if p.part.gap then MINIMAL_NONZERO_DURATION else default)))
  }

  function ExpectedOrShare(p: PartInstance, share: Option<int>): int {
    OrNum(OrNum(Expected(p), Or(p.timings.duration, 0)), share.GetOr(0))
  }

  function PartDuration(p: PartInstance, now: int): int {
    (if OnAir(p, now)
     then Max(Or(StopgapDuration(p, now), Expected(p)), Elapsed(p, now))
     else Or(p.timings.duration, Expected(p)))
    - Or(p.timings.playOffset, 0)
  }

  function GroupOrExpected(p: PartInstance, share: Option<int>, default: int): int {
    if share.Some? then FromGroup(p, share, default) else Expected(p)
  }

  function DisplayNoPlayback(p: PartInstance, now: int, share: Option<int>, default: int): int {
    if OnAir(p, now) then
      Or(StopgapDuration(p, now), OrNum(GroupOrExpected(p, share, default), default))
    else
      Max(0,
          OrNum(if Recorded(p) then p.timings.duration.value + Or(p.timings.playOffset, 0) else 0,
                OrNum(FromGroup(p, share, default),
                      EnsureMinimumDefaultDurationIfNotAuto(p, p.expected, default))))
  }

  function DisplayDuration(p: PartInstance, now: int, share: Option<int>, default: int): int {
    if OnAir(p, now) then Max(DisplayNoPlayback(p, now, share, default), Elapsed(p, now))
    else DisplayNoPlayback(p, now, share, default)
  }

  /** Invalid parts that are not gaps always show for the default duration. */
  function ShownDuration(p: PartInstance, now: int, share: Option<int>, default: int): int {
    if p.part.invalid && !p.part.gap then default else DisplayDuration(p, now, share, default)
  }

  function PlayedDuration(p: PartInstance, now: int): int {
    if p.part.invalid && !p.part.gap then 0
    else if OnAir(p, now) then Elapsed(p, now)
    else Or(p.timings.duration, 0) - Or(p.timings.playOffset, 0)
  }

  function WaitDuration(p: PartInstance, now: int, share: Option<int>, default: int): int {
    if share.Some? then Or(p.timings.duration, OrNum(ShownDuration(p, now, share, default), Expected(p)))
    else Or(p.timings.duration, Expected(p))
  }

  // -------------------------------------------- one part, given where it stands in the show

  predicate CountsOf(playlist: Playlist, nextIndex: int, currentIndex: int) {
    playlist.outOfOrderTiming || !playlist.active || currentIndex >= 0 || nextIndex >= 0
  }

  /** What a timed part outside the budget segments adds to the as-played time. */
  function AsPlayedOf(p: PartInstance, now: int, share: Option<int>, counts: bool): int {
    if OnAir(p, now) then Max(ExpectedOrShare(p, share), Elapsed(p, now))
    else if Recorded(p) then p.timings.duration.value
    else if counts then Expected(p)
    else 0
  }

  /** What a timed part of a budget segment adds to the as-played time of its segment. */
  function BudgetPartPlayed(p: PartInstance, now: int): int {
    if Recorded(p) then p.timings.duration.value
    else if OnAir(p, now) then
      (if Truthy(p.timings.reportedStoppedPlayback) then Min(p.timings.reportedStoppedPlayback.value, now) else now)
      - LastStarted(p, now).value
    else 0
  }

  function AsDisplayedOf(p: PartInstance, now: int, share: Option<int>): int {
    if OnAir(p, now) then
      Max(if share.Some? then Max(ExpectedOrShare(p, share), Expected(p)) else Expected(p), Elapsed(p, now))
    else Or(p.timings.duration, Expected(p))
  }

  /** What a timed part outside the budget segments adds to the remaining time. */
  function RemainingOf(p: PartInstance, now: int, share: Option<int>, counts: bool, isCurrent: bool): int {
    if LastStarted(p, now).None? && !p.part.floated && counts then Expected(p)
    else
      var expected := ExpectedOrShare(p, share);
      if OnAir(p, now) && isCurrent && LastStarted(p, now).value + expected > now
      then Max(0, expected - Elapsed(p, now))
      else 0
  }

  /** What is left of a part on air, or of its segment if that has a budget. */
  function LeftWhenOnAir(p: PartInstance, now: int, share: Option<int>, default: int,
                         budgets: map<Id, int>, starts: map<Id, int>): int {
    if p.segmentId in budgets then
      var started := OrNum(Lookup(starts, p.segmentId), LastStarted(p, now).GetOr(0));
      Max(0, budgets[p.segmentId] - (now - started))
    else
      Max(0, Or(StopgapDuration(p, now), GroupOrExpected(p, share, default)) - Elapsed(p, now))
  }

  /** What a member leaves behind of a pool that already includes its own expected duration. */
  function PoolAfter(p: PartInstance, now: int, pool: int, counts: bool, default: int): int {
    if !p.part.invalid && (Recorded(p) || Truthy(p.timings.plannedStoppedPlayback) || counts)
    then pool - ShownDuration(p, now, Some(pool), default)
    else pool
  }

  /** Going on air uses up the budget, as far as the parts that follow are concerned. */
  function LeftOnAir(p: PartInstance, now: int, usesBudget: bool, left: int): int {
    if OnAir(p, now) && usesBudget then 0 else left
  }

  // ------------------------------------------------------------------- selection and order

  predicate IsCurrent(s: Show, p: PartInstance) {
    s.playlist.currentPartInstanceId == Some(p.id)
  }

  predicate IsNext(s: Show, p: PartInstance) {
    s.playlist.nextPartInstanceId == Some(p.id)
  }

  predicate EntersSegment(s: Show, i: nat)
    requires i < |s.parts|
  {
    i == 0 || s.parts[i].segmentId != s.parts[i-1].segmentId
  }

  /** Does part `i` pool its expected duration, given the pools opened before it? */
  predicate Joins(s: Show, i: nat, pools: map<string, int>)
    requires i < |s.parts|
  {
    var part := s.parts[i].part;
    && part.displayDurationGroup != ""
    && (part.displayDurationGroup in pools ||
        (i + 1 < |s.parts| && s.parts[i+1].part.displayDurationGroup == part.displayDurationGroup))
    && !part.floated
    && !part.untimed
  }

  function ShareOf(s: Show, i: nat, pools: map<string, int>): Option<int>
    requires i < |s.parts|
  {
    if Joins(s, i, pools) then Some(Lookup(pools, s.parts[i].part.displayDurationGroup) + Expected(s.parts[i]))
    else None
  }

  // -------------------------------------------------------------------------- budgets

  /** Segment budgets: the sums of the budgets of the first `i` parts, by the part's own segment. */
  function Budgets(s: Show, i: nat): map<Id, int>
    requires i <= |s.parts|
  {
    if i == 0 then map[]
    else
      var m := Budgets(s, i - 1);
      var part := s.parts[i-1].part;
      if part.budgetDuration.Some? then m[part.segmentId := Lookup(m, part.segmentId) + part.budgetDuration.value]
      else m
  }

  function AllBudgets(s: Show): map<Id, int> {
    Budgets(s, |s.parts|)
  }

  predicate UsesBudget(s: Show, p: PartInstance) {
    p.segmentId in AllBudgets(s)
  }

  /** When the current (and perhaps the previous) segment started playing. */
  function SegmentStarts(entries: seq<PartInstance>, i: nat): map<Id, int>
    requires i <= |entries|
  {
    if i == 0 then map[]
    else
      var m := SegmentStarts(entries, i - 1);
      var p := entries[i-1];
      if p.timings.reportedStartedPlayback.Some?
      then m[p.segmentId := p.timings.reportedStartedPlayback.value]
      else m
  }

  function AllSegmentStarts(s: Show): map<Id, int> {
    SegmentStarts(s.segmentEntries, |s.segmentEntries|)
  }

  // ---------------------------------------------------------------- the walk over the parts

  /** Where the next and the current part are, and the segment that is live. */
  datatype Order = Order(nextIndex: int, currentIndex: int, live: Option<Id>)

  function OrderAfter(s: Show, i: nat, o: Order): Order
    requires i < |s.parts|
  {
    var p := s.parts[i];
    if IsNext(s, p) then Order(i, o.currentIndex, o.live)
    else if IsCurrent(s, p) then Order(o.nextIndex, i, Some(p.segmentId))
    else o
  }

  function Counts(s: Show, o: Order): bool {
    CountsOf(s.playlist, o.nextIndex, o.currentIndex)
  }

  function NextSegmentAfter(s: Show, i: nat, nextSegment: Option<Id>): Option<Id>
    requires i < |s.parts|
  {
    if IsNext(s, s.parts[i]) then Some(s.parts[i].segmentId) else nextSegment
  }

  function UntimedAfter(s: Show, i: nat, untimed: set<Id>): set<Id>
    requires i < |s.parts|
  {
    var p := s.parts[i];
    var entered := if EntersSegment(s, i) then untimed + {p.segmentId} else untimed;
    if p.part.untimed then entered else entered - {p.segmentId}
  }

  /** The wait so far, and what is left of the budget of the segment being walked (0 without one). */
  datatype WaitState = WaitState(wait: int, left: int)

  /** A new segment waits out what is left of the budget of the previous one, and starts on its own. */
  function WaitEntered(s: Show, budgets: map<Id, int>, i: nat, w: WaitState): WaitState
    requires i < |s.parts|
  {
    if EntersSegment(s, i)
    then WaitState(if w.left > 0 then w.wait + w.left else w.wait, Lookup(budgets, s.parts[i].segmentId))
    else w
  }

  function WaitAfter(p: PartInstance, now: int, usesBudget: bool, waitDuration: int, w: WaitState): WaitState {
    if !usesBudget then WaitState(w.wait + waitDuration, w.left)
    else
      var left := LeftOnAir(p, now, usesBudget, w.left);
      WaitState(w.wait + Min(waitDuration, Max(left, 0)), left - waitDuration)
  }

  function PoolsAfter(s: Show, now: int, i: nat, counts: bool, pools: map<string, int>): map<string, int>
    requires i < |s.parts|
  {
    var share := ShareOf(s, i, pools);
    if share.None? then pools
    else pools[s.parts[i].part.displayDurationGroup :=
                 PoolAfter(s.parts[i], now, share.value, counts, s.defaultDuration)]
  }

  datatype Times = Times(currentRemaining: int, startsAt: int, displayStartsAt: int)

  function CurrentRemainingAfter(s: Show, now: int, p: PartInstance, share: Option<int>, budgets: map<Id, int>,
                                 starts: map<Id, int>, before: int): int {
    if IsCurrent(s, p) && !Started(p, now) then DisplayDuration(p, now, share, s.defaultDuration)
    else if OnAir(p, now) then LeftWhenOnAir(p, now, share, s.defaultDuration, budgets, starts)
    else before
  }

  function TimesAfter(s: Show, now: int, p: PartInstance, share: Option<int>, budgets: map<Id, int>,
                      starts: map<Id, int>, t: Times): Times {
    Times(CurrentRemainingAfter(s, now, p, share, budgets, starts, t.currentRemaining),
          t.startsAt + PartDuration(p, now),
          t.displayStartsAt + ShownDuration(p, now, share, s.defaultDuration))
  }

  datatype Sums = Sums(planned: int, remaining: int, asPlayed: int, asDisplayed: int)

  function SumsAfter(p: PartInstance, now: int, share: Option<int>, counts: bool, isCurrent: bool,
                     usesBudget: bool, t: Sums): Sums {
    var asDisplayed := t.asDisplayed + AsDisplayedOf(p, now, share);
    if p.part.untimed || usesBudget then Sums(t.planned, t.remaining, t.asPlayed, asDisplayed)
    else Sums(t.planned + Expected(p),
              t.remaining + RemainingOf(p, now, share, counts, isCurrent),
              t.asPlayed + AsPlayedOf(p, now, share, counts),
              asDisplayed)
  }

  function RundownExpectedAfter(p: PartInstance, m: map<Id, int>): map<Id, int> {
    m[p.part.rundownId := Lookup(m, p.part.rundownId) + p.part.expectedDuration.GetOr(0)]
  }

  function RundownAsPlayedAfter(p: PartInstance, now: int, share: Option<int>, counts: bool, usesBudget: bool,
                                m: map<Id, int>): map<Id, int> {
    if p.part.untimed || usesBudget then m
    else m[p.part.rundownId := Lookup(m, p.part.rundownId) + AsPlayedOf(p, now, share, counts)]
  }

  function SegmentsAsPlayedAfter(p: PartInstance, now: int, usesBudget: bool, m: map<Id, int>): map<Id, int> {
    if p.part.untimed || !usesBudget then m
    else m[p.segmentId := Lookup(m, p.segmentId) + BudgetPartPlayed(p, now)]
  }

  datatype Tables = Tables(
    durations: map<Id, int>,
    expected: map<Id, int>,
    played: map<Id, int>,
    startsAt: map<Id, int>,
    displayStartsAt: map<Id, int>,
    displayDurations: map<Id, int>,
    noPlayback: map<Id, int>)

  function TablesAfter(p: PartInstance, now: int, share: Option<int>, default: int, times: Times, t: Tables): Tables {
    var k := TimingId(p);
    Tables(t.durations[k := PartDuration(p, now)],
           t.expected[k := ExpectedOrShare(p, share)],
           t.played[k := PlayedDuration(p, now)],
           t.startsAt[k := times.startsAt],
           t.displayStartsAt[k := times.displayStartsAt],
           t.displayDurations[k := ShownDuration(p, now, share, default)],
           t.noPlayback[k := DisplayNoPlayback(p, now, share, default)])
  }

  /** Everything the walk over the parts accumulates; `linear` pairs each part with the wait before it. */
  datatype Progress = Progress(
    order: Order,
    nextSegment: Option<Id>,
    untimed: set<Id>,
    waits: WaitState,
    linear: seq<(Id, Option<int>)>,
    pools: map<string, int>,
    times: Times,
    sums: Sums,
    rundownExpected: map<Id, int>,
    rundownAsPlayed: map<Id, int>,
    segmentsAsPlayed: map<Id, int>,
    tables: Tables)

  /** One round of the walk. */
  function Step(s: Show, now: int, budgets: map<Id, int>, starts: map<Id, int>, i: nat, w: Progress): Progress
    requires i < |s.parts|
  {
    var p := s.parts[i];
    var usesBudget := p.segmentId in budgets;
    var order := OrderAfter(s, i, w.order);
    var counts := Counts(s, order);
    var share := ShareOf(s, i, w.pools);
    var entered := WaitEntered(s, budgets, i, w.waits);
    Progress(
      order,
      NextSegmentAfter(s, i, w.nextSegment),
      UntimedAfter(s, i, w.untimed),
      WaitAfter(p, now, usesBudget, WaitDuration(p, now, share, s.defaultDuration), entered),
      w.linear + [(p.part.id, Some(entered.wait))],
      PoolsAfter(s, now, i, counts, w.pools),
      TimesAfter(s, now, p, share, budgets, starts, w.times),
      SumsAfter(p, now, share, counts, IsCurrent(s, p), usesBudget, w.sums),
      RundownExpectedAfter(p, w.rundownExpected),
      RundownAsPlayedAfter(p, now, share, counts, usesBudget, w.rundownAsPlayed),
      SegmentsAsPlayedAfter(p, now, usesBudget, w.segmentsAsPlayed),
      TablesAfter(p, now, share, s.defaultDuration, w.times, w.tables))
  }

  // ----------------------------------------------------------------------- countdowns

  /** The wait recorded for part `i`. */
  function WaitAt(w: Progress, i: nat): int
    requires i < |w.linear|
  {
    w.linear[i].1.GetOr(0)
  }

  /** The wait of the next part, which is where the countdowns are counted from. */
  function WaitOfNext(w: Progress): int {
    if 0 <= w.order.nextIndex < |w.linear| then WaitAt(w, w.order.nextIndex) else 0
  }

  function Countdown(s: Show, w: Progress, i: nat): Option<int>
    requires i < |w.linear|
  {
    if i < w.order.nextIndex then
      if s.playlist.loop then Some(WaitAt(w, i) + w.waits.wait - WaitOfNext(w) + w.times.currentRemaining) else None
    else if i == w.order.currentIndex then Some(WaitAt(w, i))
    else Some(WaitAt(w, i) - WaitOfNext(w) + w.times.currentRemaining)
  }

  // -------------------------------------------------------------------------- anchors

  function FindSegment(segments: seq<Segment>, id: Id): (r: Option<Segment>)
    ensures r.Some? ==> r.value in segments && r.value.id == id
  {
    if segments == [] then None
    else if segments[0].id == id then Some(segments[0])
    else FindSegment(segments[1..], id)
  }

  function SegmentAnchor(seg: Segment, now: int): Option<int> {
    if Truthy(seg.expectedStart) && seg.expectedStart.value > now then seg.expectedStart
    else if Truthy(seg.expectedEnd) then seg.expectedEnd
    else None
  }

  function Anchor(s: Show, now: int, partId: Id): Option<int> {
    if partId !in s.partInstancesMap || s.partInstancesMap[partId].segmentId == "" then None
    else
      match FindSegment(s.segments, s.partInstancesMap[partId].segmentId)
      case None => None
      case Some(seg) => SegmentAnchor(seg, now)
  }

  /** The first anchor among the parts from index `i` up to `end`. */
  function FirstAnchor(s: Show, now: int, i: nat, end: nat): Option<int>
    requires i <= end <= |s.parts|
    decreases end - i
  {
    if i == end then None
    else
      var a := Anchor(s, now, s.parts[i].part.id);
      if a.Some? then a else FirstAnchor(s, now, i + 1, end)
  }

  /** Parts from the next one on are looked at first, then, in a looping playlist, the ones before it. */
  function NextAnchor(s: Show, now: int, nextIndex: int): Option<int>
    requires nextIndex <= |s.parts|
  {
    var n: nat := Max(nextIndex, 0);
    var a := FirstAnchor(s, now, n, |s.parts|);
    if a.None? && s.playlist.loop then FirstAnchor(s, now, 0, n) else a
  }

  // -------------------------------------------------------------------- segment budgets

  /** Has the walk over the segments reached the segment remembered as next? */
  predicate Reached(s: Show, next: Option<Id>, k: nat)
    requires k <= |s.segments|
  {
    exists j :: 0 <= j < k && next == Some(s.segments[j].id)
  }

  /** Segments all of whose parts are untimed are left out of all totals. */
  predicate BudgetCounts(s: Show, w: Progress, k: nat)
    requires k < |s.segments|
  {
    s.segments[k].id in AllBudgets(s) && s.segments[k].id !in w.untimed
  }

  function SinceSegmentStart(s: Show, now: int, id: Id): int {
    var started := Lookup(AllSegmentStarts(s), id);
    if started != 0 then now - started else 0
  }

  function SegmentPlanned(s: Show, w: Progress, k: nat): int
    requires k < |s.segments|
  {
    if BudgetCounts(s, w, k) then AllBudgets(s)[s.segments[k].id] else 0
  }

  function SegmentRemaining(s: Show, now: int, w: Progress, k: nat): int
    requires k < |s.segments|
  {
    if !BudgetCounts(s, w, k) then 0
    else
      var id := s.segments[k].id;
      var budget := AllBudgets(s)[id];
      if w.order.live == Some(id) then Max(0, budget - SinceSegmentStart(s, now, id))
      else if !s.playlist.active || Reached(s, w.nextSegment, k + 1) then budget
      else 0
  }

  function SegmentAsPlayed(s: Show, now: int, w: Progress, k: nat): int
    requires k < |s.segments|
  {
    if !BudgetCounts(s, w, k) then 0
    else
      var id := s.segments[k].id;
      var budget := AllBudgets(s)[id];
      if w.order.live == Some(id) then Max(SinceSegmentStart(s, now, id), budget)
      else if !s.playlist.active || Reached(s, w.nextSegment, k + 1) then budget
      else Lookup(w.segmentsAsPlayed, id)
  }

  function PlannedTotal(s: Show, w: Progress, k: nat): int
    requires k <= |s.segments|
  {
    if k == 0 then w.sums.planned else PlannedTotal(s, w, k - 1) + SegmentPlanned(s, w, k - 1)
  }

  function RemainingTotal(s: Show, now: int, w: Progress, k: nat): int
    requires k <= |s.segments|
  {
    if k == 0 then w.sums.remaining else RemainingTotal(s, now, w, k - 1) + SegmentRemaining(s, now, w, k - 1)
  }

  function AsPlayedTotal(s: Show, now: int, w: Progress, k: nat): int
    requires k <= |s.segments|
  {
    if k == 0 then w.sums.asPlayed else AsPlayedTotal(s, now, w, k - 1) + SegmentAsPlayed(s, now, w, k - 1)
  }

  function RundownAsPlayedTotal(s: Show, now: int, w: Progress, k: nat): map<Id, int>
    requires k <= |s.segments|
  {
    if k == 0 then w.rundownAsPlayed
    else
      var m := RundownAsPlayedTotal(s, now, w, k - 1);
      var r := s.segments[k-1].rundownId;
      if BudgetCounts(s, w, k - 1) then m[r := Lookup(m, r) + SegmentAsPlayed(s, now, w, k - 1)] else m
  }
}
