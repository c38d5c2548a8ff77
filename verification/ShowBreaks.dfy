/** The cached search for the next show break: `getRundownsBeforeNextBreak` and `recalculateBreaks`. */
module ShowBreaks {
  import opened JsValues
  import opened TimingModel

  datatype BreakProps = BreakProps(rundownsBeforeNextBreak: seq<Rundown>, breakIsLastRundown: bool)

  /** `findIndex` on rundown ids, from index `i` on. */
  function IndexOfRundown(rundowns: seq<Rundown>, id: Id, i: nat): (r: int)
    requires i <= |rundowns|
    ensures r == -1 || (i <= r < |rundowns| && rundowns[r].id == id)
    ensures forall j :: i <= j < (if r == -1 then |rundowns| else r) ==> rundowns[j].id != id
    decreases |rundowns| - i
  {
    if i == |rundowns| then -1
    else if rundowns[i].id == id then i
    else IndexOfRundown(rundowns, id, i + 1)
  }

  /** The first rundown from index `i` on that ends in a break, or -1. */
  function NextBreak(rundowns: seq<Rundown>, i: nat): (r: int)
    requires i <= |rundowns|
    ensures r == -1 || (i <= r < |rundowns| && rundowns[r].endOfRundownIsShowBreak == Some(true))
    ensures forall j :: i <= j < (if r == -1 then |rundowns| else r) ==>
              rundowns[j].endOfRundownIsShowBreak != Some(true)
    decreases |rundowns| - i
  {
    if i == |rundowns| then -1
    else if rundowns[i].endOfRundownIsShowBreak == Some(true) then i
    else NextBreak(rundowns, i + 1)
  }

  /** The rundowns from the current one, at `c`, to the one that ends in the next break, at `b`. */
  function Upto(rundowns: seq<Rundown>, c: nat, b: int): BreakProps
    requires b == -1 || c <= b < |rundowns|
  {
    BreakProps(if b == -1 then [] else rundowns[c..b + 1], b == |rundowns| - 1)
  }

  function Breaks(rundowns: seq<Rundown>, current: Option<Rundown>): Option<BreakProps> {
    if current.None? then None
    else
      var c := IndexOfRundown(rundowns, current.value.id, 0);
      if c == -1 then None
      else
        var b := NextBreak(rundowns, c);
        Some(Upto(rundowns, c, b))
  }

  function FlagText(flag: Option<bool>): string {
    match flag
    case None => "_"
    case Some(b) => if b then "true" else "false"
  }

  /** The cache key: the break flags written one after the other. */
  function BreakKey(rundowns: seq<Rundown>): string {
    if rundowns == [] then "" else FlagText(rundowns[0].endOfRundownIsShowBreak) + BreakKey(rundowns[1..])
  }

  function BreaksAfter(props: Option<BreakProps>, state: Option<string>, rundowns: seq<Rundown>,
                       current: Option<Rundown>): Option<BreakProps> {
    if state == Some(BreakKey(rundowns)) then props else Breaks(rundowns, current)
  }

  /** `i` is the first of these rundowns, from `from` on, that ends in a break. */
  ghost predicate FirstBreak(rundowns: seq<Rundown>, from: nat, i: nat) {
    && from <= i < |rundowns| && rundowns[i].endOfRundownIsShowBreak == Some(true)
    && forall j :: from <= j < i ==> rundowns[j].endOfRundownIsShowBreak != Some(true)
  }

  /** What is shown of breaks, with a current rundown that is listed, at `c`: exactly the rundowns from there to the
      first that ends in a break, and whether that is the last of all; and nothing if there is no such break. */
  lemma BreaksLeadToTheNext(rundowns: seq<Rundown>, c: nat, b: nat)
    requires c < |rundowns| && forall i :: 0 <= i < c ==> rundowns[i].id != rundowns[c].id
    ensures var shown := Breaks(rundowns, Some(rundowns[c]));
            && shown.Some?
            && (FirstBreak(rundowns, c, b) ==>
                  && |shown.value.rundownsBeforeNextBreak| == b + 1 - c
                  && (forall i :: c <= i <= b ==> shown.value.rundownsBeforeNextBreak[i - c] == rundowns[i])
                  && (shown.value.breakIsLastRundown <==> b + 1 == |rundowns|))
            && ((forall i :: c <= i < |rundowns| ==> rundowns[i].endOfRundownIsShowBreak != Some(true)) ==>
                  shown.value == BreakProps([], false))
  {
    assert IndexOfRundown(rundowns, rundowns[c].id, 0) == c;
    assert FirstBreak(rundowns, c, b) ==> NextBreak(rundowns, c) == b;
  }

  // --------------------------------------------------------------- when the cache is right

  function Flags(rundowns: seq<Rundown>): (flags: seq<Option<bool>>)
    ensures |flags| == |rundowns| && forall i :: 0 <= i < |flags| ==> flags[i] == rundowns[i].endOfRundownIsShowBreak
  {
    if rundowns == [] then [] else [rundowns[0].endOfRundownIsShowBreak] + Flags(rundowns[1..])
  }

  /** The flag texts begin with different letters, so no text needs to be marked off from what follows. */
  lemma FlagTextEnds(a: Option<bool>, b: Option<bool>, x: string, y: string)
    requires FlagText(a) + x == FlagText(b) + y
    ensures a == b && x == y
  {
    assert FlagText(a)[0] == (FlagText(a) + x)[0] == FlagText(b)[0];
    assert x == (FlagText(a) + x)[|FlagText(a)|..];
    assert y == (FlagText(b) + y)[|FlagText(b)|..];
  }

  /** The key tells apart any two lists of flags, although it is written without separators. */
  lemma {:induction false} BreakKeyIsInjective(r: seq<Rundown>, q: seq<Rundown>)
    requires BreakKey(r) == BreakKey(q)
    ensures Flags(r) == Flags(q)
  {
    if r != [] && q != [] {
      FlagTextEnds(r[0].endOfRundownIsShowBreak, q[0].endOfRundownIsShowBreak, BreakKey(r[1..]), BreakKey(q[1..]));
      BreakKeyIsInjective(r[1..], q[1..]);
    }
  }

  /** Where the current rundown is in the list, or -1. */
  function Position(rundowns: seq<Rundown>, current: Option<Rundown>): (i: int)
    ensures -1 <= i < |rundowns|
  {
    if current.None? then -1 else IndexOfRundown(rundowns, current.value.id, 0)
  }

  /** The same rundowns lead from `r[i]` and from `q[j]` to their next breaks, `r[b]` and `q[e]`. */
  ghost predicate SameWay(r: seq<Rundown>, i: nat, b: nat, q: seq<Rundown>, j: nat, e: nat)
    requires i <= b < |r| && j <= e < |q|
  {
    && b - i == e - j
    && forall k :: i <= k <= b ==> r[k] == q[k - i + j]
  }

  lemma SameWayIsSameSlice(r: seq<Rundown>, i: nat, b: nat, q: seq<Rundown>, j: nat, e: nat)
    requires i <= b < |r| && j <= e < |q|
    ensures r[i..b + 1] == q[j..e + 1] <==> SameWay(r, i, b, q, j, e)
  {
    var x, y := r[i..b + 1], q[j..e + 1];
    if x == y {
      assert |x| == |y|;
      forall k | i <= k <= b
        ensures r[k] == q[k - i + j]
      {
        assert x[k - i] == y[k - i];
      }
    }
    if SameWay(r, i, b, q, j, e) {
      assert |x| == |y|;
      assert forall k :: 0 <= k < |x| ==> x[k] == r[k + i] == y[k];
      assert x == y;
    }
  }

  /** When two lists have the same breaks, given where their current rundowns and their next breaks are. */
  ghost predicate SameBreaks(r: seq<Rundown>, i: nat, b: int, q: seq<Rundown>, j: nat, e: int)
    requires (b == -1 || i <= b < |r|) && (e == -1 || j <= e < |q|)
  {
    if b == -1 || e == -1 then b == e
    else SameWay(r, i, b, q, j, e) && (b == |r| - 1 <==> e == |q| - 1)
  }

  lemma SameUpto(r: seq<Rundown>, i: nat, b: int, q: seq<Rundown>, j: nat, e: int)
    requires i < |r| && j < |q| && (b == -1 || i <= b < |r|) && (e == -1 || j <= e < |q|)
    ensures Upto(r, i, b) == Upto(q, j, e) <==> SameBreaks(r, i, b, q, j, e)
  {
    if b != -1 && e != -1 {
      SameWayIsSameSlice(r, i, b, q, j, e);
    } else if b != -1 {
      assert |r[i..b + 1]| > 0;
    } else if e != -1 {
      assert |q[j..e + 1]| > 0;
    }
  }

  /** Does what was worked out for `r` with current rundown `c` hold for `q` with current rundown `d`?
      Neither current rundown is listed, or neither is followed by a break, or the same rundowns lead from
      both to the next break, which is the last rundown of both lists or of neither. */
  ghost predicate Serves(r: seq<Rundown>, c: Option<Rundown>, q: seq<Rundown>, d: Option<Rundown>) {
    var i, j := Position(r, c), Position(q, d);
    if i == -1 || j == -1 then i == j else SameBreaks(r, i, NextBreak(r, i), q, j, NextBreak(q, j))
  }

  /** A list with the same key gets the cached breaks, and these are right exactly if they serve. */
  lemma CacheServes(r: seq<Rundown>, c: Option<Rundown>, q: seq<Rundown>, d: Option<Rundown>)
    requires BreakKey(r) == BreakKey(q)
    ensures BreaksAfter(Breaks(r, c), Some(BreakKey(r)), q, d) == Breaks(q, d) <==> Serves(r, c, q, d)
  {
    var i, j := Position(r, c), Position(q, d);
    if i != -1 && j != -1 {
      SameUpto(r, i, NextBreak(r, i), q, j, NextBreak(q, j));
    }
  }

  // ---------------------------------------------------------------- over a sequence of calls

  datatype Request = Request(rundowns: seq<Rundown>, current: Option<Rundown>)

  /** The cached breaks and key after these calls, starting from an empty cache. */
  function Cached(calls: seq<Request>): (Option<BreakProps>, Option<string>) {
    if calls == [] then (None, None)
    else
      var (props, state) := Cached(calls[..|calls|-1]);
      var call := calls[|calls|-1];
      (BreaksAfter(props, state, call.rundowns, call.current), Some(BreakKey(call.rundowns)))
  }

  /** The first of the last calls that all had the same key. */
  function FirstWithKey(calls: seq<Request>): (k: nat)
    requires calls != []
    ensures k < |calls|
  {
    var n := |calls| - 1;
    if n > 0 && BreakKey(calls[n-1].rundowns) == BreakKey(calls[n].rundowns) then FirstWithKey(calls[..n]) else n
  }

  lemma {:induction false} CachedByFirst(calls: seq<Request>)
    requires calls != []
    ensures var first, last := calls[FirstWithKey(calls)], calls[|calls|-1];
            && BreakKey(first.rundowns) == BreakKey(last.rundowns)
            && Cached(calls) == (Breaks(first.rundowns, first.current), Some(BreakKey(last.rundowns)))
  {
    var n := |calls| - 1;
    if n > 0 {
      CachedByFirst(calls[..n]);
      assert calls[..n][n-1] == calls[n-1];
    }
  }

  /** After any calls, the last answer is right exactly if that of the first call with its key serves. */
  lemma {:induction false} LastAnswerIsRight(calls: seq<Request>)
    requires calls != []
    ensures var first, last := calls[FirstWithKey(calls)], calls[|calls|-1];
            Cached(calls).0 == Breaks(last.rundowns, last.current)
            <==> Serves(first.rundowns, first.current, last.rundowns, last.current)
  {
    var first, last := calls[FirstWithKey(calls)], calls[|calls|-1];
    CachedByFirst(calls);
    CacheServes(first.rundowns, first.current, last.rundowns, last.current);
  }

  // ----------------------------------------------------------------------------- in one list

  /** The list is read from a collection, so no two rundowns have the same id. */
  ghost predicate DistinctRundowns(rundowns: seq<Rundown>) {
    forall i, j :: 0 <= i < j < |rundowns| ==> rundowns[i].id != rundowns[j].id
  }

  lemma PositionInDistinct(rundowns: seq<Rundown>, i: nat)
    requires i < |rundowns| && DistinctRundowns(rundowns)
    ensures Position(rundowns, Some(rundowns[i])) == i
  {
  }

  /** While the list stays the same: exactly if the current rundown does as well, or there is no break from
      the earlier of the two current rundowns on. */
  lemma ServesInOneList(rundowns: seq<Rundown>, i: nat, j: nat)
    requires i < |rundowns| && j < |rundowns| && DistinctRundowns(rundowns)
    ensures Serves(rundowns, Some(rundowns[i]), rundowns, Some(rundowns[j])) <==>
              i == j || NextBreak(rundowns, Min(i, j)) == -1
  {
    PositionInDistinct(rundowns, i);
    PositionInDistinct(rundowns, j);
    var b, e := NextBreak(rundowns, i), NextBreak(rundowns, j);
    NextBreakFromLater(rundowns, Min(i, j), Max(i, j));
    if i != j && b != -1 && e != -1 {
      assert rundowns[i] != rundowns[j];
      assert !SameWay(rundowns, i, b, rundowns, j, e);
    }
  }

  lemma NextBreakFromLater(rundowns: seq<Rundown>, i: nat, j: nat)
    requires i <= j <= |rundowns|
    ensures NextBreak(rundowns, i) == -1 ==> NextBreak(rundowns, j) == -1
    ensures NextBreak(rundowns, i) >= j ==> NextBreak(rundowns, j) == NextBreak(rundowns, i)
  {
  }

  /** One step of the show on, past a break: the flags have not changed, and the cached breaks are stale. */
  lemma CacheGoesStale() returns (rundowns: seq<Rundown>)
    ensures |rundowns| == 2 && DistinctRundowns(rundowns)
    ensures Cached([Request(rundowns, Some(rundowns[0])), Request(rundowns, Some(rundowns[1]))]).0
            != Breaks(rundowns, Some(rundowns[1]))
  {
    rundowns := [Rundown("a", Some(true)), Rundown("b", Some(true))];
    var calls := [Request(rundowns, Some(rundowns[0])), Request(rundowns, Some(rundowns[1]))];
    assert NextBreak(rundowns, 0) == 0;
    assert FirstWithKey(calls) == 0 by {
      assert calls[..1] == [calls[0]];
    }
    ServesInOneList(rundowns, 0, 1);
    LastAnswerIsRight(calls);
  }

  /** Nor is the current rundown all: a rundown that takes the place of another with the same flag is not seen. */
  lemma CacheMissesReplacement() returns (r: seq<Rundown>, q: seq<Rundown>)
    ensures |r| == |q| == 2 && DistinctRundowns(r) && DistinctRundowns(q)
    ensures Cached([Request(r, Some(r[0])), Request(q, Some(q[0]))]).0 != Breaks(q, Some(q[0]))
  {
    r, q := [Rundown("a", Some(true)), Rundown("b", None)], [Rundown("c", Some(true)), Rundown("b", None)];
    var calls := [Request(r, Some(r[0])), Request(q, Some(q[0]))];
    assert r[1..] == q[1..];
    assert FirstWithKey(calls) == 0 by {
      assert calls[..1] == [calls[0]];
    }
    assert NextBreak(r, 0) == NextBreak(q, 0) == 0;
    assert r[0] != q[0];
    assert !SameWay(r, 0, 0, q, 0, 0);
    LastAnswerIsRight(calls);
  }
}
