/** The accumulators of the walk one at a time: each is a recursion of its own, and the walk computes
    them all. */
module TimingTracks {
  import opened JsValues
  import opened TimingModel

  /** The next and current part among the first `i` parts: in each case the last one that matches. */
  function Orders(s: Show, i: nat): (o: Order)
    requires i <= |s.parts|
    ensures -1 <= o.nextIndex < i && -1 <= o.currentIndex < i
  {
    if i == 0 then Order(-1, -1, None) else OrderAfter(s, i - 1, Orders(s, i - 1))
  }

  function FinalOrder(s: Show): Order {
    Orders(s, |s.parts|)
  }

  predicate CountsAt(s: Show, i: nat)
    requires i < |s.parts|
  {
    Counts(s, Orders(s, i + 1))
  }

  function NextSegmentAt(s: Show, remembered: Option<Id>, i: nat): Option<Id>
    requires i <= |s.parts|
  {
    if i == 0 then (if s.playlist.nextPartInstanceId.None? then None else remembered)
    else NextSegmentAfter(s, i - 1, NextSegmentAt(s, remembered, i - 1))
  }

  function UntimedAt(s: Show, i: nat): set<Id>
    requires i <= |s.parts|
  {
    if i == 0 then {} else UntimedAfter(s, i - 1, UntimedAt(s, i - 1))
  }

  function PoolsAt(s: Show, now: int, i: nat): map<string, int>
    requires i <= |s.parts|
  {
    if i == 0 then map[] else PoolsAfter(s, now, i - 1, CountsAt(s, i - 1), PoolsAt(s, now, i - 1))
  }

  function ShareAt(s: Show, now: int, i: nat): Option<int>
    requires i < |s.parts|
  {
    ShareOf(s, i, PoolsAt(s, now, i))
  }

  function SumsAt(s: Show, now: int, i: nat): Sums
    requires i <= |s.parts|
  {
    if i == 0 then Sums(0, 0, 0, 0)
    else
      var p := s.parts[i-1];
      SumsAfter(p, now, ShareAt(s, now, i - 1), CountsAt(s, i - 1), IsCurrent(s, p), UsesBudget(s, p), SumsAt(s, now, i - 1))
  }

  function SegmentsPlayedAt(s: Show, now: int, i: nat): map<Id, int>
    requires i <= |s.parts|
  {
    if i == 0 then map[]
    else SegmentsAsPlayedAfter(s.parts[i-1], now, UsesBudget(s, s.parts[i-1]), SegmentsPlayedAt(s, now, i - 1))
  }

  function RundownsPlayedAt(s: Show, now: int, i: nat): map<Id, int>
    requires i <= |s.parts|
  {
    if i == 0 then map[]
    else RundownAsPlayedAfter(s.parts[i-1], now, ShareAt(s, now, i - 1), CountsAt(s, i - 1), UsesBudget(s, s.parts[i-1]),
                              RundownsPlayedAt(s, now, i - 1))
  }

  function RundownsExpectedAt(s: Show, i: nat): map<Id, int>
    requires i <= |s.parts|
  {
    if i == 0 then map[] else RundownExpectedAfter(s.parts[i-1], RundownsExpectedAt(s, i - 1))
  }

  function WaitOf(s: Show, now: int, i: nat): int
    requires i < |s.parts|
  {
    WaitDuration(s.parts[i], now, ShareAt(s, now, i), s.defaultDuration)
  }

  function WaitsAt(s: Show, now: int, i: nat): WaitState
    requires i <= |s.parts|
  {
    if i == 0 then WaitState(0, 0)
    else
      var entered := WaitEntered(s, AllBudgets(s), i - 1, WaitsAt(s, now, i - 1));
      WaitAfter(s.parts[i-1], now, UsesBudget(s, s.parts[i-1]), WaitOf(s, now, i - 1), entered)
  }

  /** The wait and the budget on reaching part `i`; its wait is the one recorded for the part. */
  function EnteredAt(s: Show, now: int, i: nat): WaitState
    requires i < |s.parts|
  {
    WaitEntered(s, AllBudgets(s), i, WaitsAt(s, now, i))
  }

  function TimesAt(s: Show, now: int, i: nat): Times
    requires i <= |s.parts|
  {
    if i == 0 then Times(0, 0, 0)
    else TimesAfter(s, now, s.parts[i-1], ShareAt(s, now, i - 1), AllBudgets(s), AllSegmentStarts(s), TimesAt(s, now, i - 1))
  }

  function LinearAt(s: Show, now: int, i: nat): (linear: seq<(Id, Option<int>)>)
    requires i <= |s.parts|
    ensures |linear| == i
  {
    if i == 0 then [] else LinearAt(s, now, i - 1) + [(s.parts[i-1].part.id, Some(EnteredAt(s, now, i - 1).wait))]
  }

  function TablesAt(s: Show, now: int, tables: Tables, i: nat): Tables
    requires i <= |s.parts|
  {
    if i == 0 then tables
    else TablesAfter(s.parts[i-1], now, ShareAt(s, now, i - 1), s.defaultDuration, TimesAt(s, now, i - 1),
                     TablesAt(s, now, tables, i - 1))
  }

  // ------------------------------------------------------------------ the walk computes them

  /** The walk when it has passed `i` parts. Earlier calls leave behind the remembered next segment
      and the tables. */
  function Walked(s: Show, now: int, remembered: Option<Id>, tables: Tables, i: nat): Progress
    requires i <= |s.parts|
  {
    Progress(Orders(s, i), NextSegmentAt(s, remembered, i), UntimedAt(s, i), WaitsAt(s, now, i), LinearAt(s, now, i),
             PoolsAt(s, now, i), TimesAt(s, now, i), SumsAt(s, now, i), RundownsExpectedAt(s, i),
             RundownsPlayedAt(s, now, i), SegmentsPlayedAt(s, now, i), TablesAt(s, now, tables, i))
  }

  function WalkedAll(s: Show, now: int, remembered: Option<Id>, tables: Tables): Progress {
    Walked(s, now, remembered, tables, |s.parts|)
  }

  /** A walk starts with what earlier calls left behind. */
  function Start(s: Show, remembered: Option<Id>, tables: Tables): Progress {
    Progress(Order(-1, -1, None), if s.playlist.nextPartInstanceId.None? then None else remembered, {},
             WaitState(0, 0), [], map[], Times(0, 0, 0), Sums(0, 0, 0, 0), map[], map[], map[], tables)
  }

  lemma WalkStart(s: Show, now: int, remembered: Option<Id>, tables: Tables)
    ensures Walked(s, now, remembered, tables, 0) == Start(s, remembered, tables)
  {
  }

  /** Each round of the walk takes every accumulator one part further. */
  lemma WalkStep(s: Show, now: int, remembered: Option<Id>, tables: Tables, i: nat)
    requires i < |s.parts|
    ensures Step(s, now, AllBudgets(s), AllSegmentStarts(s), i, Walked(s, now, remembered, tables, i))
            == Walked(s, now, remembered, tables, i + 1)
  {
  }

  // ------------------------------------------------------------------------- small facts

  lemma {:induction false} OrderShape(s: Show, i: nat)
    requires i <= |s.parts|
    ensures var o := Orders(s, i);
            && (o.currentIndex >= 0 ==> IsCurrent(s, s.parts[o.currentIndex]) && !IsNext(s, s.parts[o.currentIndex]))
            && (o.nextIndex >= 0 ==> IsNext(s, s.parts[o.nextIndex]))
            && (o.nextIndex >= 0 ==> o.nextIndex != o.currentIndex)
            && o.live == if o.currentIndex >= 0 then Some(s.parts[o.currentIndex].segmentId) else None
  {
    if i > 0 {
      OrderShape(s, i - 1);
    }
  }

  lemma {:induction false} LinearEntry(s: Show, now: int, i: nat, j: nat)
    requires j < i <= |s.parts|
    ensures LinearAt(s, now, i)[j] == (s.parts[j].part.id, Some(EnteredAt(s, now, j).wait))
  {
    if j < i - 1 {
      LinearEntry(s, now, i - 1, j);
    }
  }
}
