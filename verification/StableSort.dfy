/** What `Array.prototype.sort` promises: a stable sort by a comparison. */
module StableSort {

  /** A comparison that can order the elements of `dom`. */
  ghost predicate TotalPreorder<T>(leq: (T, T) -> bool, dom: set<T>) {
    && (forall x, y :: x in dom && y in dom ==> leq(x, y) || leq(y, x))
    && (forall x, y, z :: x in dom && y in dom && z in dom && leq(x, y) && leq(y, z) ==> leq(x, z))
  }

  ghost function Elements<T>(s: seq<T>): (dom: set<T>)
    ensures (forall x :: x in dom ==> x in s) && (forall x :: x in s ==> x in dom)
  {
    set x | x in s
  }

  ghost predicate Sorted<T>(leq: (T, T) -> bool, s: seq<T>) {
    forall i, j :: 0 <= i < j < |s| ==> leq(s[i], s[j])
  }

  /** Puts `x` behind the last element that is not after it. */
  function Insert<T>(leq: (T, T) -> bool, s: seq<T>, x: T): (r: seq<T>)
    ensures |r| == |s| + 1
  {
    if s == [] || leq(s[|s|-1], x) then s + [x]
    else Insert(leq, s[..|s|-1], x) + [s[|s|-1]]
  }

  function Sort<T>(leq: (T, T) -> bool, s: seq<T>): (r: seq<T>)
    ensures |r| == |s|
  {
    if s == [] then [] else Insert(leq, Sort(leq, s[..|s|-1]), s[|s|-1])
  }

  lemma {:induction false} InsertPermutes<T>(leq: (T, T) -> bool, s: seq<T>, x: T)
    ensures multiset(Insert(leq, s, x)) == multiset(s) + multiset{x}
  {
    if s != [] && !leq(s[|s|-1], x) {
      InsertPermutes(leq, s[..|s|-1], x);
      assert s == s[..|s|-1] + [s[|s|-1]];
    }
  }

  lemma {:induction false} SortPermutes<T>(leq: (T, T) -> bool, s: seq<T>)
    ensures multiset(Sort(leq, s)) == multiset(s)
  {
    if s != [] {
      SortPermutes(leq, s[..|s|-1]);
      InsertPermutes(leq, Sort(leq, s[..|s|-1]), s[|s|-1]);
      assert s == s[..|s|-1] + [s[|s|-1]];
    }
  }

  lemma {:induction false} InsertSorts<T>(leq: (T, T) -> bool, s: seq<T>, x: T, dom: set<T>)
    requires TotalPreorder(leq, dom) && x in dom && Elements(s) <= dom && Sorted(leq, s)
    ensures Sorted(leq, Insert(leq, s, x))
  {
    if s != [] && !leq(s[|s|-1], x) {
      var front, last := s[..|s|-1], s[|s|-1];
      InsertSorts(leq, front, x, dom);
      InsertPermutes(leq, front, x);
      var r := Insert(leq, front, x);
      forall i | 0 <= i < |r|
        ensures leq(r[i], last)
      {
        assert r[i] in multiset(front) + multiset{x};
      }
    } else if s != [] {
      forall i | 0 <= i < |s|
        ensures leq(s[i], x)
      {
        assert leq(s[i], s[|s|-1]);
      }
    }
  }

  lemma {:induction false} SortSorts<T>(leq: (T, T) -> bool, s: seq<T>)
    requires TotalPreorder(leq, Elements(s))
    ensures Sorted(leq, Sort(leq, s))
  {
    if s != [] {
      var front := s[..|s|-1];
      SortSorts(leq, front);
      SortPermutes(leq, front);
      SameElements(Sort(leq, front), front);
      assert Elements(Sort(leq, front)) == Elements(front) <= Elements(s);
      InsertSorts(leq, Sort(leq, front), s[|s|-1], Elements(s));
    }
  }

  ghost predicate NoDuplicates<T>(s: seq<T>) {
    forall i, j :: 0 <= i < j < |s| ==> s[i] != s[j]
  }

  lemma {:induction false} InsertKeepsApart<T>(leq: (T, T) -> bool, s: seq<T>, x: T)
    requires NoDuplicates(s) && x !in s
    ensures NoDuplicates(Insert(leq, s, x)) && Elements(Insert(leq, s, x)) == Elements(s) + {x}
  {
    if s != [] && !leq(s[|s|-1], x) {
      var front, last := s[..|s|-1], s[|s|-1];
      InsertKeepsApart(leq, front, x);
      assert Elements(s) == Elements(front) + {last};
      assert last !in Elements(Insert(leq, front, x));
    }
  }

  lemma {:induction false} SortKeepsApart<T>(leq: (T, T) -> bool, s: seq<T>)
    requires NoDuplicates(s)
    ensures NoDuplicates(Sort(leq, s)) && Elements(Sort(leq, s)) == Elements(s)
  {
    if s != [] {
      var front, last := s[..|s|-1], s[|s|-1];
      SortKeepsApart(leq, front);
      assert Elements(s) == Elements(front) + {last};
      assert last !in Elements(Sort(leq, front));
      InsertKeepsApart(leq, Sort(leq, front), last);
    }
  }

  lemma FirstIsLeast<T>(leq: (T, T) -> bool, s: seq<T>, x: T)
    requires TotalPreorder(leq, Elements(s)) && Sorted(leq, s) && x in s
    ensures leq(s[0], x)
  {
    var i :| 0 <= i < |s| && s[i] == x;
    assert leq(x, x) || leq(x, x);
    assert i == 0 || leq(s[0], s[i]);
  }

  lemma SameElements<T>(s: seq<T>, t: seq<T>)
    requires multiset(s) == multiset(t)
    ensures |s| == |t| && Elements(s) == Elements(t)
  {
    assert |s| == |multiset(s)| && |t| == |multiset(t)|;
    assert forall x :: x in Elements(s) ==> x in multiset(t);
    assert forall x :: x in Elements(t) ==> x in multiset(s);
  }

  lemma RestHasSameElements<T>(s: seq<T>, t: seq<T>)
    requires s != [] && t != [] && s[0] == t[0] && multiset(s) == multiset(t)
    ensures multiset(s[1..]) == multiset(t[1..])
  {
    assert s == [s[0]] + s[1..] && t == [t[0]] + t[1..];
    assert multiset(s[1..]) == multiset(s) - multiset{s[0]};
    assert multiset(t[1..]) == multiset(t) - multiset{t[0]};
  }

  /** Elements that only compare alike if they are equal can only be put in order in one way. */
  lemma {:induction false} SortedIsUnique<T>(leq: (T, T) -> bool, s: seq<T>, t: seq<T>)
    requires TotalPreorder(leq, Elements(s)) && Sorted(leq, s) && Sorted(leq, t)
    requires multiset(s) == multiset(t)
    requires forall x, y :: x in s && y in s && leq(x, y) && leq(y, x) ==> x == y
    ensures s == t
  {
    SameElements(s, t);
    if s != [] {
      assert s[0] in Elements(t) && t[0] in Elements(s);
      FirstIsLeast(leq, s, t[0]);
      FirstIsLeast(leq, t, s[0]);
      RestHasSameElements(s, t);
      SortedIsUnique(leq, s[1..], t[1..]);
    }
  }

  /** So for such elements the order before sorting does not matter. */
  lemma SortIsCanonical<T>(leq: (T, T) -> bool, s: seq<T>, t: seq<T>)
    requires TotalPreorder(leq, Elements(s)) && multiset(s) == multiset(t)
    requires forall x, y :: x in s && y in s && leq(x, y) && leq(y, x) ==> x == y
    ensures Sort(leq, s) == Sort(leq, t)
  {
    SameElements(s, t);
    SortSorts(leq, s);
    SortSorts(leq, t);
    SortPermutes(leq, s);
    SortPermutes(leq, t);
    SameElements(Sort(leq, s), s);
    SortedIsUnique(leq, Sort(leq, s), Sort(leq, t));
  }

  // ------------------------------------------------------------------------------ stability

  /** The elements that satisfy `p`, in order. */
  function Filter<T>(p: T -> bool, s: seq<T>): seq<T> {
    if s == [] then [] else Filter(p, s[..|s|-1]) + if p(s[|s|-1]) then [s[|s|-1]] else []
  }

  lemma FilterGrows<T>(p: T -> bool, s: seq<T>, x: T)
    ensures Filter(p, s + [x]) == Filter(p, s) + if p(x) then [x] else []
  {
    assert (s + [x])[..|s|] == s;
  }

  lemma {:induction false} FilterDistributes<T>(p: T -> bool, s: seq<T>, t: seq<T>)
    ensures Filter(p, s + t) == Filter(p, s) + Filter(p, t)
  {
    if t == [] {
      assert s + t == s;
    } else {
      FilterDistributes(p, s, t[..|t|-1]);
      assert s + t == s + t[..|t|-1] + [t[|t|-1]];
      FilterGrows(p, s + t[..|t|-1], t[|t|-1]);
    }
  }

  lemma {:induction false} InsertIsStable<T>(leq: (T, T) -> bool, p: T -> bool, s: seq<T>, x: T)
    requires p(x) ==> forall i :: 0 <= i < |s| && p(s[i]) ==> leq(s[i], x)
    ensures Filter(p, Insert(leq, s, x)) == Filter(p, s) + if p(x) then [x] else []
  {
    if s == [] || leq(s[|s|-1], x) {
      FilterGrows(p, s, x);
    } else {
      var front, last := s[..|s|-1], s[|s|-1];
      assert p(x) ==> forall i :: 0 <= i < |front| && p(front[i]) ==> leq(front[i], x) by {
        assert forall i :: 0 <= i < |front| ==> front[i] == s[i];
      }
      InsertIsStable(leq, p, front, x);
      FilterGrows(p, Insert(leq, front, x), last);
    }
  }

  /** Elements that compare alike keep their order. */
  lemma {:induction false} SortIsStable<T>(leq: (T, T) -> bool, p: T -> bool, s: seq<T>)
    requires forall x, y :: x in s && y in s && p(x) && p(y) ==> leq(x, y)
    ensures Filter(p, Sort(leq, s)) == Filter(p, s)
  {
    if s != [] {
      var front, last := s[..|s|-1], s[|s|-1];
      SortIsStable(leq, p, front);
      var sorted := Sort(leq, front);
      SortPermutes(leq, front);
      SameElements(sorted, front);
      forall i | 0 <= i < |sorted| && p(sorted[i]) && p(last)
        ensures leq(sorted[i], last)
      {
        assert sorted[i] in Elements(front);
      }
      InsertIsStable(leq, p, sorted, last);
    }
  }
}
