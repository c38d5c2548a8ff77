/** The canonical order of adlibs, which limit and pick rely on: `sortAdlibs` and `compareLabels`. */
module Adlibs {
  import opened StableSort

  /** A rank, or the infinity that stands for a null rank once it has been compared. */
  datatype Rank = Null | Finite(n: int) | Infinity

  datatype Label = Plain(text: string) | Translatable(key: string, args: seq<string>)

  datatype Entry<T> = Entry(
    adlib: T,
    title: Label,
    adlibRank: int,
    adlibId: string,
    partRank: Rank,
    segmentRank: Rank,
    rundownRank: Rank)

  // ------------------------------------------------------------------------- comparisons

  function CompareInts(a: int, b: int): int {
    if a > b then 1 else if a < b then -1 else 0
  }

  /** Strings compare by their code units, whatever the locale. */
  function CompareStrings(a: string, b: string): int {
    if a == [] then (if b == [] then 0 else -1)
    else if b == [] then 1
    else if a[0] != b[0] then CompareInts(a[0] as int, b[0] as int)
    else CompareStrings(a[1..], b[1..])
  }

  function Settled(r: Rank): Rank {
    if r.Null? then Infinity else r
  }

  function CompareRanks(a: Rank, b: Rank): int {
    match (Settled(a), Settled(b))
    case (Finite(m), Finite(n)) => CompareInts(m, n)
    case (Finite(_), _) => -1
    case (_, Finite(_)) => 1
    case _ => 0
  }

  function LabelText(l: Label): string {
    match l
    case Plain(text) => text
    case Translatable(key, _) => key
  }

  function CompareLabels(a: Label, b: Label): int {
    CompareStrings(LabelText(a), LabelText(b))
  }

  function Then(first: int, second: int): int {
    if first != 0 then first else second
  }

  function Compare<T>(a: Entry<T>, b: Entry<T>): int {
    Then(CompareRanks(a.rundownRank, b.rundownRank),
         Then(CompareRanks(a.segmentRank, b.segmentRank),
              Then(CompareRanks(a.partRank, b.partRank),
                   Then(CompareInts(a.adlibRank, b.adlibRank),
                        Then(CompareLabels(a.title, b.title), CompareStrings(a.adlibId, b.adlibId))))))
  }

  predicate NotAfter<T>(a: Entry<T>, b: Entry<T>) {
    Compare(a, b) <= 0
  }

  /** What one comparison function has to be for the chain of them to order anything. */
  ghost predicate Ordered(xy: int, yx: int, yz: int, xz: int) {
    xy == -yx && (xy <= 0 && yz <= 0 ==> xz <= 0 && (xz == 0 ==> xy == 0 && yz == 0))
  }

  lemma {:induction false} StringsOrdered(x: string, y: string, z: string)
    ensures Ordered(CompareStrings(x, y), CompareStrings(y, x), CompareStrings(y, z), CompareStrings(x, z))
    ensures CompareStrings(x, y) == 0 <==> x == y
  {
    if x != [] && y != [] {
      StringsOrdered(x[1..], y[1..], if z == [] then [] else z[1..]);
      assert x == [x[0]] + x[1..] && y == [y[0]] + y[1..];
    }
  }

  lemma RanksOrdered(x: Rank, y: Rank, z: Rank)
    ensures Ordered(CompareRanks(x, y), CompareRanks(y, x), CompareRanks(y, z), CompareRanks(x, z))
    ensures CompareRanks(x, y) == 0 <==> Settled(x) == Settled(y)
  {
  }

  lemma CompareOrdered<T>(x: Entry<T>, y: Entry<T>, z: Entry<T>)
    ensures Ordered(Compare(x, y), Compare(y, x), Compare(y, z), Compare(x, z))
  {
    StringsOrdered(x.adlibId, y.adlibId, z.adlibId);
    StringsOrdered(LabelText(x.title), LabelText(y.title), LabelText(z.title));
    RanksOrdered(x.partRank, y.partRank, z.partRank);
    RanksOrdered(x.segmentRank, y.segmentRank, z.segmentRank);
    RanksOrdered(x.rundownRank, y.rundownRank, z.rundownRank);
    var ids := (CompareStrings(x.adlibId, y.adlibId), CompareStrings(y.adlibId, x.adlibId),
                CompareStrings(y.adlibId, z.adlibId), CompareStrings(x.adlibId, z.adlibId));
    var labels := (CompareLabels(x.title, y.title), CompareLabels(y.title, x.title),
                   CompareLabels(y.title, z.title), CompareLabels(x.title, z.title));
    var ranks := (CompareInts(x.adlibRank, y.adlibRank), CompareInts(y.adlibRank, x.adlibRank),
                  CompareInts(y.adlibRank, z.adlibRank), CompareInts(x.adlibRank, z.adlibRank));
    var parts := (CompareRanks(x.partRank, y.partRank), CompareRanks(y.partRank, x.partRank),
                  CompareRanks(y.partRank, z.partRank), CompareRanks(x.partRank, z.partRank));
    var segments := (CompareRanks(x.segmentRank, y.segmentRank), CompareRanks(y.segmentRank, x.segmentRank),
                     CompareRanks(y.segmentRank, z.segmentRank), CompareRanks(x.segmentRank, z.segmentRank));
    var rundowns := (CompareRanks(x.rundownRank, y.rundownRank), CompareRanks(y.rundownRank, x.rundownRank),
                     CompareRanks(y.rundownRank, z.rundownRank), CompareRanks(x.rundownRank, z.rundownRank));
    var one := Combined(labels, ids);
    var two := Combined(ranks, one);
    var three := Combined(parts, two);
    var four := Combined(segments, three);
    var five := Combined(rundowns, four);
  }

  lemma Combined(a: (int, int, int, int), b: (int, int, int, int)) returns (c: (int, int, int, int))
    requires Ordered(a.0, a.1, a.2, a.3) && Ordered(b.0, b.1, b.2, b.3)
    ensures c == (Then(a.0, b.0), Then(a.1, b.1), Then(a.2, b.2), Then(a.3, b.3)) && Ordered(c.0, c.1, c.2, c.3)
  {
    c := (Then(a.0, b.0), Then(a.1, b.1), Then(a.2, b.2), Then(a.3, b.3));
  }

  /** Entries compare alike exactly if everything the comparison looks at is the same. */
  lemma CompareIsZero<T>(x: Entry<T>, y: Entry<T>)
    ensures Compare(x, y) == 0 <==>
              && Settled(x.rundownRank) == Settled(y.rundownRank) && Settled(x.segmentRank) == Settled(y.segmentRank)
              && Settled(x.partRank) == Settled(y.partRank) && x.adlibRank == y.adlibRank
              && LabelText(x.title) == LabelText(y.title) && x.adlibId == y.adlibId
  {
    StringsOrdered(x.adlibId, y.adlibId, []);
    StringsOrdered(LabelText(x.title), LabelText(y.title), []);
  }

  // ------------------------------------------------------------------ what comes before what

  /** One text comes before another if it is the beginning of it, or has the smaller code unit where they first
      differ. */
  ghost predicate TextBefore(a: string, b: string) {
    exists k :: 0 <= k <= |a| && FirstDifferAt(a, b, k)
  }

  ghost predicate FirstDifferAt(a: string, b: string, k: nat)
    requires k <= |a|
  {
    k < |b| && a[..k] == b[..k] && (k == |a| || a[k] < b[k])
  }

  lemma {:induction false} StringsCompareAsTexts(a: string, b: string)
    ensures CompareStrings(a, b) < 0 <==> TextBefore(a, b)
  {
    if a == [] || b == [] || a[0] != b[0] {
      assert b != [] && (a == [] || a[0] < b[0]) ==> FirstDifferAt(a, b, 0);
      assert forall k :: 0 < k <= |a| && k < |b| ==> a[..k][0] == a[0] && b[..k][0] == b[0];
    } else {
      StringsCompareAsTexts(a[1..], b[1..]);
      forall k | 0 <= k < |a|
        ensures FirstDifferAt(a[1..], b[1..], k) <==> FirstDifferAt(a, b, k + 1)
      {
        if k < |b| - 1 {
          assert a[..k + 1] == [a[0]] + a[1..][..k] && b[..k + 1] == [b[0]] + b[1..][..k];
          assert a[1..][..k] == a[..k + 1][1..] && b[1..][..k] == b[..k + 1][1..];
        }
      }
      if TextBefore(a[1..], b[1..]) {
        var k :| 0 <= k <= |a[1..]| && FirstDifferAt(a[1..], b[1..], k);
        assert FirstDifferAt(a, b, k + 1);
      }
      if TextBefore(a, b) {
        var k :| 0 <= k <= |a| && FirstDifferAt(a, b, k);
        assert FirstDifferAt(a[1..], b[1..], k - 1);
      }
    }
  }

  /** Smaller ranks come first, and null ranks last. */
  ghost predicate RankBefore(a: Rank, b: Rank) {
    a.Finite? && (b.Finite? ==> a.n < b.n)
  }

  ghost predicate SameRank(a: Rank, b: Rank) {
    if a.Finite? then a == b else !b.Finite?
  }

  /** By rank of the rundown, of the segment and of the part, then by the adlib's own rank, its label and its id. */
  ghost predicate ComesBefore<T>(x: Entry<T>, y: Entry<T>) {
    || RankBefore(x.rundownRank, y.rundownRank)
    || (SameRank(x.rundownRank, y.rundownRank) &&
          (|| RankBefore(x.segmentRank, y.segmentRank)
           || (SameRank(x.segmentRank, y.segmentRank) &&
                 (|| RankBefore(x.partRank, y.partRank)
                  || (SameRank(x.partRank, y.partRank) && ComesBeforeInPart(x, y))))))
  }

  ghost predicate ComesBeforeInPart<T>(x: Entry<T>, y: Entry<T>) {
    var a, b := LabelText(x.title), LabelText(y.title);
    || x.adlibRank < y.adlibRank
    || (x.adlibRank == y.adlibRank && (TextBefore(a, b) || (a == b && TextBefore(x.adlibId, y.adlibId))))
  }

  /** The comparison puts one entry before another exactly if it comes before it in this sense. */
  lemma CompareIsLexicographic<T>(x: Entry<T>, y: Entry<T>)
    ensures Compare(x, y) < 0 <==> ComesBefore(x, y)
  {
    StringsCompareAsTexts(LabelText(x.title), LabelText(y.title));
    StringsCompareAsTexts(x.adlibId, y.adlibId);
    StringsOrdered(LabelText(x.title), LabelText(y.title), []);
  }

  /** A translatable label sorts by its key, whatever it is translated to and with. */
  lemma LabelsSortByKey<T>(x: Entry<T>, y: Entry<T>, key: string, args: seq<string>)
    ensures Compare(x.(title := Translatable(key, args)), y) == Compare(x.(title := Plain(key)), y)
    ensures Compare(x, y.(title := Translatable(key, args))) == Compare(x, y.(title := Plain(key)))
  {
  }

  /** So no adlib comes out after one that it comes before. */
  lemma SortedInOrder<T>(s: seq<Entry<T>>, i: nat, j: nat)
    requires i < j < |s|
    ensures !ComesBefore(Sort(NotAfter, s)[j], Sort(NotAfter, s)[i])
  {
    var a, b := Sort(NotAfter, s)[i], Sort(NotAfter, s)[j];
    NotAfterIsTotal(Elements(s));
    SortSorts(NotAfter, s);
    assert NotAfter(a, b);
    CompareOrdered(a, b, a);
    CompareIsLexicographic(b, a);
  }

  // ------------------------------------------------------------------------------ sorting

  /** Comparing an entry overwrites its null ranks, but not what they stand for. */
  function Settle<T>(e: Entry<T>): Entry<T> {
    e.(rundownRank := Settled(e.rundownRank), segmentRank := Settled(e.segmentRank), partRank := Settled(e.partRank))
  }

  function SettleAll<T>(s: seq<Entry<T>>): (r: seq<Entry<T>>)
    ensures |r| == |s| && forall i :: 0 <= i < |s| ==> r[i] == Settle(s[i])
  {
    seq(|s|, i requires 0 <= i < |s| => Settle(s[i]))
  }

  /** `s` is `t`, but that some null ranks may not have been settled yet. */
  ghost predicate SettlesTo<T>(s: seq<Entry<T>>, t: seq<Entry<T>>) {
    |s| == |t| && forall i :: 0 <= i < |s| ==> Settle(s[i]) == t[i]
  }

  function Payloads<T>(s: seq<Entry<T>>): (r: seq<T>)
    ensures |r| == |s| && forall i :: 0 <= i < |s| ==> r[i] == s[i].adlib
  {
    seq(|s|, i requires 0 <= i < |s| => s[i].adlib)
  }

  /** Compares two entries, settling no more of their ranks than it takes. */
  method CompareAndSettle<T>(x: Entry<T>, y: Entry<T>) returns (c: int, a: Entry<T>, b: Entry<T>)
    ensures c == Compare(x, y) && Settle(a) == Settle(x) && Settle(b) == Settle(y)
  {
    a, b := x.(rundownRank := Settled(x.rundownRank)), y.(rundownRank := Settled(y.rundownRank));
    c := CompareRanks(a.rundownRank, b.rundownRank);
    if c != 0 { return; }
    a, b := a.(segmentRank := Settled(a.segmentRank)), b.(segmentRank := Settled(b.segmentRank));
    c := CompareRanks(a.segmentRank, b.segmentRank);
    if c != 0 { return; }
    a, b := a.(partRank := Settled(a.partRank)), b.(partRank := Settled(b.partRank));
    c := CompareRanks(a.partRank, b.partRank);
    if c != 0 { return; }
    c := CompareInts(a.adlibRank, b.adlibRank);
    if c != 0 { return; }
    c := CompareLabels(a.title, b.title);
    if c != 0 { return; }
    c := CompareStrings(a.adlibId, b.adlibId);
  }

  lemma CompareSettled<T>(a: Entry<T>, b: Entry<T>)
    ensures Compare(Settle(a), Settle(b)) == Compare(a, b)
  {
  }

  lemma InsertGoesOn<T>(p: seq<Entry<T>>, x: Entry<T>, j: nat)
    requires 0 < j <= |p| && !NotAfter(p[j-1], x)
    ensures Insert(NotAfter, p[..j], x) + p[j..] == Insert(NotAfter, p[..j-1], x) + p[j-1..]
  {
    assert p[..j][..j-1] == p[..j-1];
    assert [p[j-1]] + p[j..] == p[j-1..];
  }

  lemma InsertStops<T>(p: seq<Entry<T>>, x: Entry<T>, j: nat)
    requires j <= |p| && (j == 0 || NotAfter(p[j-1], x))
    ensures Insert(NotAfter, p[..j], x) == p[..j] + [x]
  {
  }

  /** The list while `x` is being moved down among `p`, and has come to index `j`. */
  function Moving<T>(p: seq<T>, x: T, j: nat, rest: seq<T>): (r: seq<T>)
    requires j <= |p|
    ensures |r| == |p| + 1 + |rest| && r[j] == x && (j > 0 ==> r[j-1] == p[j-1])
  {
    p[..j] + [x] + p[j..] + rest
  }

  lemma MovesOn<T>(p: seq<T>, x: T, j: nat, rest: seq<T>)
    requires 0 < j <= |p|
    ensures Moving(p, x, j, rest)[j-1 := x][j := p[j-1]] == Moving(p, x, j - 1, rest)
  {
  }

  /** Swaps two neighbours that are out of order. */
  method SwapIfAfter<T>(a: array<Entry<T>>, j: nat, ghost now: seq<Entry<T>>) returns (swapped: bool)
    requires 0 < j < a.Length && SettlesTo(a[..], now)
    modifies a
    ensures swapped <==> !NotAfter(now[j-1], now[j])
    ensures SettlesTo(a[..], if swapped then now[j-1 := now[j]][j := now[j-1]] else now)
  {
    assert Settle(a[..][j-1]) == now[j-1] && Settle(a[..][j]) == now[j];
    CompareSettled(a[j-1], a[j]);
    var c, before, after := CompareAndSettle(a[j-1], a[j]);
    swapped := c > 0;
    if swapped {
      a[j-1], a[j] := after, before;
    } else {
      a[j-1], a[j] := before, after;
    }
  }

  /** Moves element `i` down to its place among those before it, which are in order. */
  method InsertInPlace<T>(a: array<Entry<T>>, i: nat, ghost p: seq<Entry<T>>, ghost x: Entry<T>, ghost rest: seq<Entry<T>>)
    requires i < a.Length && |p| == i && SettlesTo(a[..], Moving(p, x, i, rest))
    modifies a
    ensures SettlesTo(a[..], Insert(NotAfter, p, x) + rest)
  {
    var j := i;
    assert p[..i] == p && p[i..] == [];
    while j > 0
      invariant 0 <= j <= i && SettlesTo(a[..], Moving(p, x, j, rest))
      invariant Insert(NotAfter, p, x) == Insert(NotAfter, p[..j], x) + p[j..]
    {
      var swapped := SwapIfAfter(a, j, Moving(p, x, j, rest));
      if !swapped {
        break;
      }
      MovesOn(p, x, j, rest);
      InsertGoesOn(p, x, j);
      j := j - 1;
    }
    InsertStops(p, x, j);
    assert Moving(p, x, j, rest) == Insert(NotAfter, p, x) + rest;
  }

  /** The list when its first `i` elements have been sorted. */
  ghost function SortedTo<T>(s: seq<Entry<T>>, i: nat): seq<Entry<T>>
    requires i <= |s|
  {
    Sort(NotAfter, s[..i]) + s[i..]
  }

  lemma SortedToMoves<T>(s: seq<Entry<T>>, i: nat)
    requires i < |s|
    ensures SortedTo(s, i) == Moving(Sort(NotAfter, s[..i]), s[i], i, s[i + 1..])
    ensures Insert(NotAfter, Sort(NotAfter, s[..i]), s[i]) + s[i + 1..] == SortedTo(s, i + 1)
  {
    assert s[i..] == [s[i]] + s[i + 1..];
    assert s[..i + 1][..i] == s[..i];
  }

  lemma SortedToEnds<T>(s: seq<Entry<T>>)
    ensures SortedTo(s, 0) == s && SortedTo(s, |s|) == Sort(NotAfter, s)
  {
    assert s[..|s|] == s;
  }

  /** `Array.prototype.sort` is a stable sort of the engine's choice; here it is insertion sort. */
  method SortAdlibs<T>(adlibs: array<Entry<T>>) returns (r: seq<T>)
    modifies adlibs
    ensures SettlesTo(adlibs[..], Sort(NotAfter, SettleAll(old(adlibs[..]))))
    ensures r == Payloads(Sort(NotAfter, SettleAll(old(adlibs[..]))))
  {
    ghost var s := SettleAll(adlibs[..]);
    SortedToEnds(s);
    for i := 0 to adlibs.Length
      invariant SettlesTo(adlibs[..], SortedTo(s, i))
    {
      SortedToMoves(s, i);
      InsertInPlace(adlibs, i, Sort(NotAfter, s[..i]), s[i], s[i + 1..]);
    }
    r := Payloads(adlibs[..]);
  }

  // ------------------------------------------------------------------------------- the order

  lemma NotAfterIsTotal<T>(dom: set<Entry<T>>)
    ensures TotalPreorder<Entry<T>>(NotAfter, dom)
  {
    forall x, y | x in dom && y in dom
      ensures NotAfter(x, y) || NotAfter(y, x)
    {
      CompareOrdered(x, y, x);
    }
    forall x, y, z | x in dom && y in dom && z in dom && NotAfter(x, y) && NotAfter(y, z)
      ensures NotAfter(x, z)
    {
      CompareOrdered(x, y, z);
    }
  }

  ghost predicate DistinctIds<T>(s: seq<Entry<T>>) {
    forall x, y :: x in s && y in s && x.adlibId == y.adlibId ==> x == y
  }

  /** With distinct ids, the same adlibs come out in the same order in whatever order they come in. */
  lemma OrderIsCanonical<T>(s: seq<Entry<T>>, t: seq<Entry<T>>)
    requires multiset(s) == multiset(t) && DistinctIds(s)
    ensures Sort(NotAfter, s) == Sort(NotAfter, t)
  {
    NotAfterIsTotal(Elements(s));
    forall x, y | x in s && y in s && NotAfter(x, y) && NotAfter(y, x)
      ensures x == y
    {
      CompareOrdered(x, y, x);
      CompareIsZero(x, y);
    }
    SortIsCanonical(NotAfter, s, t);
  }

  function Without<T>(s: seq<T>, k: nat): seq<T>
    requires k < |s|
  {
    s[..k] + s[k + 1..]
  }

  lemma WithoutOne<T>(s: seq<T>, k: nat)
    requires k < |s|
    ensures multiset(s) == multiset(Without(s, k)) + multiset{s[k]}
  {
    assert s == s[..k] + [s[k]] + s[k + 1..];
  }

  lemma SettleAllWithout<T>(s: seq<Entry<T>>, k: nat)
    requires k < |s|
    ensures SettleAll(Without(s, k)) == Without(SettleAll(s), k)
  {
  }

  lemma {:induction false} SettleAllPermutes<T>(s: seq<Entry<T>>, t: seq<Entry<T>>)
    requires multiset(s) == multiset(t)
    ensures multiset(SettleAll(s)) == multiset(SettleAll(t))
    decreases |s|
  {
    SameElements(s, t);
    if s != [] {
      assert s[0] in Elements(t);
      var k :| 0 <= k < |t| && t[k] == s[0];
      WithoutOne(s, 0);
      WithoutOne(t, k);
      assert multiset(Without(s, 0)) == multiset(s) - multiset{s[0]} == multiset(Without(t, k));
      SettleAllPermutes(Without(s, 0), Without(t, k));
      SettleAllWithout(s, 0);
      SettleAllWithout(t, k);
      WithoutOne(SettleAll(s), 0);
      WithoutOne(SettleAll(t), k);
    }
  }

  /** What `SortAdlibs` returns is the same for every order of the same adlibs with distinct ids. */
  lemma SortAdlibsIsCanonical<T>(s: seq<Entry<T>>, t: seq<Entry<T>>)
    requires multiset(s) == multiset(t) && DistinctIds(s)
    ensures Payloads(Sort(NotAfter, SettleAll(s))) == Payloads(Sort(NotAfter, SettleAll(t)))
  {
    SettleAllPermutes(s, t);
    forall x, y | x in SettleAll(s) && y in SettleAll(s) && x.adlibId == y.adlibId
      ensures x == y
    {
      var i, j :| 0 <= i < |s| && 0 <= j < |s| && SettleAll(s)[i] == x && SettleAll(s)[j] == y;
      assert s[i] in s && s[j] in s && s[i].adlibId == s[j].adlibId;
    }
    OrderIsCanonical(SettleAll(s), SettleAll(t));
  }

  /** Two adlibs come out in the same order either way round exactly if they are equal or differ in
      something that the comparison looks at. */
  lemma CanonicalForTwo<T>(x: Entry<T>, y: Entry<T>)
    ensures Sort(NotAfter, [x, y]) == Sort(NotAfter, [y, x]) <==> x == y || Compare(x, y) != 0
  {
    CompareOrdered(x, y, x);
    SortTwo(x, y);
    SortTwo(y, x);
  }

  lemma SortTwo<T>(x: Entry<T>, y: Entry<T>)
    ensures Sort(NotAfter, [x, y]) == if NotAfter(x, y) then [x, y] else [y, x]
  {
    assert [x, y][..1] == [x] && [x][..0] == [];
    assert Sort(NotAfter, [x]) == [x];
    assert Insert(NotAfter, [x], y) == if NotAfter(x, y) then [x, y] else [y, x];
  }

  /** The result is in order, and null ranks come last: null rundown ranks after all others, and within a
      rundown or segment rank the null segment or part ranks. */
  lemma NullRanksComeLast<T>(s: seq<Entry<T>>, i: nat, j: nat)
    requires i < j < |s|
    ensures multiset(Sort(NotAfter, s)) == multiset(s)
    ensures var a, b := Sort(NotAfter, s)[i], Sort(NotAfter, s)[j];
            && Compare(a, b) <= 0
            && (Settled(a.rundownRank).Infinity? ==> Settled(b.rundownRank).Infinity?)
            && (Settled(a.rundownRank) == Settled(b.rundownRank) ==>
                  && (Settled(a.segmentRank).Infinity? ==> Settled(b.segmentRank).Infinity?)
                  && (Settled(a.segmentRank) == Settled(b.segmentRank) && Settled(a.partRank).Infinity? ==>
                        Settled(b.partRank).Infinity?))
  {
    NotAfterIsTotal(Elements(s));
    SortSorts(NotAfter, s);
    SortPermutes(NotAfter, s);
    assert NotAfter(Sort(NotAfter, s)[i], Sort(NotAfter, s)[j]);
  }
}
