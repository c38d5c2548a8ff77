/** The parts of each segment together with their part instances: `getSegmentsWithPartInstances`, and the order
    in which it gets the parts. */
module PartInstanceMerge {
  import opened JsValues
  import opened StableSort

  datatype RankedPart = RankedPart(id: Id, segmentId: Id, rank: int)

  /** `takeCount` is `None` where the query has left that field out. */
  datatype RankedInstance =
    RankedInstance(id: Id, isTemporary: bool, segmentId: Id, takeCount: Option<int>, part: RankedPart)

  /** `wrapPartToTemporaryInstance` */
  function Wrap(p: RankedPart): RankedInstance {
    RankedInstance(p.id + "_tmp_instance", true, p.segmentId, Some(-1), p)
  }

  function WrapAll(parts: seq<RankedPart>): (r: seq<RankedInstance>)
    ensures |r| == |parts| && forall i :: 0 <= i < |r| ==> r[i] == Wrap(parts[i])
  {
    seq(|parts|, i requires 0 <= i < |parts| => Wrap(parts[i]))
  }

  function PartsOf(parts: seq<RankedPart>, segmentId: Id): seq<RankedPart> {
    if parts == [] then []
    else PartsOf(parts[..|parts|-1], segmentId) +
         if parts[|parts|-1].segmentId == segmentId then [parts[|parts|-1]] else []
  }

  function InstancesOf(instances: seq<RankedInstance>, segmentId: Id): seq<RankedInstance> {
    if instances == [] then []
    else InstancesOf(instances[..|instances|-1], segmentId) +
         if instances[|instances|-1].segmentId == segmentId then [instances[|instances|-1]] else []
  }

  function CoveredBy(instances: seq<RankedInstance>): set<Id> {
    set i | 0 <= i < |instances| :: instances[i].part.id
  }

  function Uncovered(parts: seq<RankedPart>, covered: set<Id>): seq<RankedPart> {
    if parts == [] then []
    else Uncovered(parts[..|parts|-1], covered) + if parts[|parts|-1].id in covered then [] else [parts[|parts|-1]]
  }

  /** By rank, then by take count. Without one of the take counts, their difference is no number, and a sort
      takes the two for alike. */
  predicate NotAfter(a: RankedInstance, b: RankedInstance) {
    if a.part.rank != b.part.rank then a.part.rank < b.part.rank
    else a.takeCount.Some? && b.takeCount.Some? ==> a.takeCount.value <= b.takeCount.value
  }

  /** The instances and stand-ins that are sorted. */
  function Unsorted(parts: seq<RankedPart>, instances: seq<RankedInstance>): seq<RankedInstance> {
    instances + WrapAll(Uncovered(parts, CoveredBy(instances)))
  }

  /** What a segment shows: parts without any instance stand in for themselves, and are only put in order
      if there are instances to order them with. */
  function Merged(parts: seq<RankedPart>, instances: seq<RankedInstance>): seq<RankedInstance> {
    if instances == [] then WrapAll(parts)
    else Sort(NotAfter, Unsorted(parts, instances))
  }

  method MergeSegment(segmentParts: seq<RankedPart>, segmentInstances: seq<RankedInstance>) returns (r: seq<RankedInstance>)
    ensures r == Merged(segmentParts, segmentInstances)
  {
    if |segmentInstances| == 0 {
      return WrapAll(segmentParts);
    }
    if |segmentParts| == 0 {
      assert segmentInstances + WrapAll([]) == segmentInstances;
      return Sort(NotAfter, segmentInstances);
    }
    var partIds: set<Id> := {};
    for i := 0 to |segmentInstances|
      invariant partIds == CoveredBy(segmentInstances[..i])
    {
      partIds := partIds + {segmentInstances[i].part.id};
      CoveredGrows(segmentInstances, i);
    }
    assert segmentInstances[..|segmentInstances|] == segmentInstances;
    var all := segmentInstances;
    assert segmentParts[..0] == [];
    for i := 0 to |segmentParts|
      invariant all == segmentInstances + WrapAll(Uncovered(segmentParts[..i], partIds))
    {
      var part := segmentParts[i];
      assert segmentParts[..i + 1][..i] == segmentParts[..i];
      if part.id !in partIds {
        all := all + [Wrap(part)];
      } else {
        assert Uncovered(segmentParts[..i + 1], partIds) == Uncovered(segmentParts[..i], partIds);
      }
    }
    assert segmentParts[..|segmentParts|] == segmentParts;
    r := Sort(NotAfter, all);
  }

  lemma CoveredGrows(instances: seq<RankedInstance>, i: nat)
    requires i < |instances|
    ensures CoveredBy(instances[..i + 1]) == CoveredBy(instances[..i]) + {instances[i].part.id}
  {
    var a, b := instances[..i], instances[..i + 1];
    forall id | id in CoveredBy(b)
      ensures id in CoveredBy(a) + {instances[i].part.id}
    {
      var j :| 0 <= j < |b| && b[j].part.id == id;
      assert j < i ==> a[j].part.id == id;
    }
    forall id | id in CoveredBy(a)
      ensures id in CoveredBy(b)
    {
      var j :| 0 <= j < |a| && a[j].part.id == id;
      assert b[j].part.id == id;
    }
    assert b[i].part.id == instances[i].part.id;
  }

  /** `segmentRanks.get(id)`: the last place of a segment in the list, or none. */
  function SegmentRank(segments: seq<Id>, id: Id): (r: Option<nat>)
    ensures r.Some? <==> id in segments
    ensures r.Some? ==> r.value < |segments| && segments[r.value] == id
  {
    if segments == [] then None
    else if segments[|segments|-1] == id then Some(|segments| - 1)
    else SegmentRank(segments[..|segments|-1], id)
  }

  /** By rank within a segment, and by segment otherwise. Segments that are not listed come last, and compare
      alike: infinity less infinity is no number. */
  predicate PartNotAfter(segments: seq<Id>, a: RankedPart, b: RankedPart) {
    if a.segmentId == b.segmentId then a.rank <= b.rank
    else
      match (SegmentRank(segments, a.segmentId), SegmentRank(segments, b.segmentId))
      case (Some(m), Some(n)) => m <= n
      case (None, Some(_)) => false
      case _ => true
  }

  /** `sortPartsInSortedSegments` */
  function SortParts(parts: seq<RankedPart>, segments: seq<Id>): seq<RankedPart> {
    Sort((a, b) => PartNotAfter(segments, a, b), parts)
  }

  method GetSegmentsWithPartInstances(segments: seq<Id>, parts: seq<RankedPart>, rawInstances: seq<RankedInstance>)
    returns (r: seq<seq<RankedInstance>>)
    ensures |r| == |segments|
    ensures forall k :: 0 <= k < |segments| ==>
              r[k] == Merged(PartsOf(SortParts(parts, segments), segments[k]), InstancesOf(rawInstances, segments[k]))
  {
    r := [];
    var rawParts := SortParts(parts, segments);
    for k := 0 to |segments|
      invariant |r| == k
      invariant forall l :: 0 <= l < k ==>
          r[l] == Merged(PartsOf(rawParts, segments[l]), InstancesOf(rawInstances, segments[l]))
    {
      var merged := MergeSegment(PartsOf(rawParts, segments[k]), InstancesOf(rawInstances, segments[k]));
      r := r + [merged];
    }
  }

  // ------------------------------------------------------------------- nothing lost, nothing twice

  lemma {:induction false} UncoveredAre(parts: seq<RankedPart>, covered: set<Id>, p: RankedPart)
    ensures multiset(Uncovered(parts, covered))[p] == if p.id in covered then 0 else multiset(parts)[p]
  {
    if parts != [] {
      UncoveredAre(parts[..|parts|-1], covered, p);
      assert parts == parts[..|parts|-1] + [parts[|parts|-1]];
    }
  }

  lemma MergePermutes(parts: seq<RankedPart>, instances: seq<RankedInstance>)
    ensures multiset(Merged(parts, instances)) ==
              multiset(instances) + multiset(WrapAll(Uncovered(parts, CoveredBy(instances))))
  {
    var stands := WrapAll(Uncovered(parts, CoveredBy(instances)));
    if instances == [] {
      NothingCovered(parts);
      assert CoveredBy(instances) == {};
    } else {
      SortPermutes(NotAfter, instances + stands);
      assert multiset(instances + stands) == multiset(instances) + multiset(stands);
    }
  }

  /** The instances of a segment are its real ones and one stand-in for each part that none of them covers. */
  lemma MergeIsExact(parts: seq<RankedPart>, instances: seq<RankedInstance>, p: RankedPart)
    ensures multiset(Merged(parts, instances)) ==
              multiset(instances) + multiset(WrapAll(Uncovered(parts, CoveredBy(instances))))
    ensures multiset(Uncovered(parts, CoveredBy(instances)))[p] ==
              if exists i :: 0 <= i < |instances| && instances[i].part.id == p.id then 0 else multiset(parts)[p]
  {
    UncoveredAre(parts, CoveredBy(instances), p);
    MergePermutes(parts, instances);
  }

  lemma {:induction false} NothingCovered(parts: seq<RankedPart>)
    ensures Uncovered(parts, {}) == parts
  {
    if parts != [] {
      NothingCovered(parts[..|parts|-1]);
      assert parts == parts[..|parts|-1] + [parts[|parts|-1]];
    }
  }

  /** Every part of a segment shows: as itself or as one of its instances. */
  lemma EveryPartShows(parts: seq<RankedPart>, instances: seq<RankedInstance>, k: nat)
    requires k < |parts|
    ensures exists x :: x in Merged(parts, instances) && x.part.id == parts[k].id
  {
    var p := parts[k];
    var covered := CoveredBy(instances);
    MergeIsExact(parts, instances, p);
    var r := Merged(parts, instances);
    if p.id in covered {
      var i :| 0 <= i < |instances| && instances[i].part.id == p.id;
      assert instances[i] in multiset(instances);
      assert instances[i] in multiset(r);
    } else {
      UncoveredAre(parts, covered, p);
      assert p in multiset(parts);
      assert p in multiset(Uncovered(parts, covered));
      var u := Uncovered(parts, covered);
      var i :| 0 <= i < |u| && u[i] == p;
      assert WrapAll(u)[i] == Wrap(p);
      assert Wrap(p) in multiset(WrapAll(u));
      assert Wrap(p) in multiset(r);
    }
  }

  lemma {:induction false} PartsOfAre(parts: seq<RankedPart>, segmentId: Id, p: RankedPart)
    ensures multiset(PartsOf(parts, segmentId))[p] == if p.segmentId == segmentId then multiset(parts)[p] else 0
  {
    if parts != [] {
      PartsOfAre(parts[..|parts|-1], segmentId, p);
      assert parts == parts[..|parts|-1] + [parts[|parts|-1]];
    }
  }

  lemma {:induction false} InstancesOfAre(instances: seq<RankedInstance>, segmentId: Id, x: RankedInstance)
    ensures multiset(InstancesOf(instances, segmentId))[x] == if x.segmentId == segmentId then multiset(instances)[x] else 0
  {
    if instances != [] {
      InstancesOfAre(instances[..|instances|-1], segmentId, x);
      assert instances == instances[..|instances|-1] + [instances[|instances|-1]];
    }
  }

  /** A real instance shows in its own segment as often as there are such instances, and in no other. */
  lemma InstancesShowInTheirSegment(parts: seq<RankedPart>, instances: seq<RankedInstance>, segmentId: Id, x: RankedInstance)
    requires !x.isTemporary
    ensures multiset(Merged(PartsOf(parts, segmentId), InstancesOf(instances, segmentId)))[x]
            == if x.segmentId == segmentId then multiset(instances)[x] else 0
  {
    var own := InstancesOf(instances, segmentId);
    MergeIsExact(PartsOf(parts, segmentId), own, x.part);
    InstancesOfAre(instances, segmentId, x);
    var stand := WrapAll(Uncovered(PartsOf(parts, segmentId), CoveredBy(own)));
    assert x !in stand;
  }

  /** A stand-in can be told from the part it stands for, and from the stand-ins of other parts; it is timed as the
      part itself, and has never been taken. */
  lemma StandInsAreTheirOwn(p: RankedPart, q: RankedPart)
    ensures Wrap(p).id != p.id && Wrap(p).isTemporary && Wrap(p).part == p && Wrap(p).segmentId == p.segmentId
    ensures Wrap(p).id == Wrap(q).id <==> p.id == q.id
    ensures Wrap(p).takeCount.Some? && Wrap(p).takeCount.value < 0
  {
    assert Wrap(p).id[..|p.id|] == p.id && Wrap(q).id[..|q.id|] == q.id;
    assert |Wrap(p).id| == |p.id| + |"_tmp_instance"|;
  }

  // ------------------------------------------------------------------------------ the order

  ghost predicate AllCounted(instances: seq<RankedInstance>) {
    forall i :: 0 <= i < |instances| ==> instances[i].takeCount.Some?
  }

  ghost predicate NoneCounted(instances: seq<RankedInstance>) {
    forall i :: 0 <= i < |instances| ==> instances[i].takeCount.None?
  }

  /** Either all elements have take counts, or none but stand-ins have. */
  lemma NotAfterIsTotal(dom: set<RankedInstance>)
    requires (forall x :: x in dom ==> x.takeCount.Some?) || (forall x :: x in dom ==> x.takeCount.GetOr(-1) == -1)
    ensures TotalPreorder(NotAfter, dom)
  {
  }

  lemma UnsortedAreTotal(parts: seq<RankedPart>, instances: seq<RankedInstance>)
    requires AllCounted(instances) || NoneCounted(instances)
    ensures TotalPreorder(NotAfter, Elements(Unsorted(parts, instances)))
  {
    var all := Unsorted(parts, instances);
    forall x | x in Elements(all)
      ensures AllCounted(instances) ==> x.takeCount.Some?
      ensures NoneCounted(instances) ==> x.takeCount.GetOr(-1) == -1
    {
      var i :| 0 <= i < |all| && all[i] == x;
      assert i < |instances| ==> all[i] == instances[i];
    }
    NotAfterIsTotal(Elements(all));
  }

  /** The parts of one segment, in the order in which they come, are in order of rank. */
  ghost predicate ByRank(parts: seq<RankedPart>) {
    forall i, j :: 0 <= i < j < |parts| ==> parts[i].rank <= parts[j].rank
  }

  ghost predicate ByRankInSegments(parts: seq<RankedPart>) {
    forall i, j :: 0 <= i < j < |parts| && parts[i].segmentId == parts[j].segmentId ==> parts[i].rank <= parts[j].rank
  }

  /** The segments of all parts are listed, but for one at most. */
  ghost predicate Listed(segments: seq<Id>, dom: set<RankedPart>) {
    forall p, q :: p in dom && q in dom && p.segmentId !in segments && q.segmentId !in segments ==> p.segmentId == q.segmentId
  }

  /** Then the order of the parts is one that a sort can rely on. */
  lemma PartNotAfterIsTotal(segments: seq<Id>, dom: set<RankedPart>)
    requires Listed(segments, dom)
    ensures TotalPreorder((a, b) => PartNotAfter(segments, a, b), dom)
  {
  }

  lemma SortedPartsAreInOrder(parts: seq<RankedPart>, segments: seq<Id>, i: nat, j: nat)
    requires Listed(segments, Elements(parts)) && i < j < |parts|
    ensures PartNotAfter(segments, SortParts(parts, segments)[i], SortParts(parts, segments)[j])
  {
    var leq := (a, b) => PartNotAfter(segments, a, b);
    PartNotAfterIsTotal(segments, Elements(parts));
    SortSorts(leq, parts);
    assert leq(SortParts(parts, segments)[i], SortParts(parts, segments)[j]);
  }

  lemma SortedPartsAreByRank(parts: seq<RankedPart>, segments: seq<Id>)
    requires Listed(segments, Elements(parts))
    ensures ByRankInSegments(SortParts(parts, segments))
  {
    var sorted := SortParts(parts, segments);
    forall i, j | 0 <= i < j < |sorted| && sorted[i].segmentId == sorted[j].segmentId
      ensures sorted[i].rank <= sorted[j].rank
    {
      SortedPartsAreInOrder(parts, segments, i, j);
    }
  }

  lemma {:induction false} LastPlace(segments: seq<Id>, k: nat)
    requires k < |segments| && forall l :: k < l < |segments| ==> segments[l] != segments[k]
    ensures SegmentRank(segments, segments[k]) == Some(k)
  {
    if k < |segments| - 1 {
      LastPlace(segments[..|segments|-1], k);
    }
  }

  /** Parts of different segments are in the order of the list, and those of a segment that is not listed come
      last. */
  lemma SortedPartsAreBySegment(parts: seq<RankedPart>, segments: seq<Id>, i: nat, j: nat)
    requires NoDuplicates(segments) && Listed(segments, Elements(parts)) && i < j < |parts|
    ensures var a, b := SortParts(parts, segments)[i].segmentId, SortParts(parts, segments)[j].segmentId;
            && (forall k, l :: 0 <= k < |segments| && 0 <= l < |segments| && a == segments[k] && b == segments[l] ==> k <= l)
            && (a !in segments && a != b ==> b !in segments)
  {
    var a, b := SortParts(parts, segments)[i].segmentId, SortParts(parts, segments)[j].segmentId;
    SortedPartsAreInOrder(parts, segments, i, j);
    forall k, l | 0 <= k < |segments| && 0 <= l < |segments| && a == segments[k] && b == segments[l]
      ensures k <= l
    {
      LastPlace(segments, k);
      LastPlace(segments, l);
    }
  }

  /** Sorting loses no part of any segment and adds none. */
  lemma SortedPartsAreTheSame(parts: seq<RankedPart>, segments: seq<Id>, segmentId: Id, p: RankedPart)
    ensures multiset(PartsOf(SortParts(parts, segments), segmentId))[p]
            == if p.segmentId == segmentId then multiset(parts)[p] else 0
  {
    SortPermutes((a, b) => PartNotAfter(segments, a, b), parts);
    PartsOfAre(SortParts(parts, segments), segmentId, p);
  }

  /** Where the parts of a segment come from: all from the list, in its order. */
  lemma {:induction false} PartsOfFollow(parts: seq<RankedPart>, segmentId: Id) returns (from: seq<nat>)
    ensures |from| == |PartsOf(parts, segmentId)|
    ensures forall i :: 0 <= i < |from| ==>
              from[i] < |parts| && parts[from[i]] == PartsOf(parts, segmentId)[i] && parts[from[i]].segmentId == segmentId
    ensures forall i, j :: 0 <= i < j < |from| ==> from[i] < from[j]
  {
    if parts == [] {
      from := [];
    } else {
      var n := |parts| - 1;
      from := PartsOfFollow(parts[..n], segmentId);
      if parts[n].segmentId == segmentId {
        from := from + [n];
      }
    }
  }

  lemma PartsOfKeepOrder(parts: seq<RankedPart>, segmentId: Id)
    requires ByRankInSegments(parts)
    ensures ByRank(PartsOf(parts, segmentId))
  {
    var from := PartsOfFollow(parts, segmentId);
    var own := PartsOf(parts, segmentId);
    forall i, j | 0 <= i < j < |own|
      ensures own[i].rank <= own[j].rank
    {
      assert parts[from[i]].segmentId == parts[from[j]].segmentId;
    }
  }

  /** With or without instances, the list is in order of rank, and of take count where instances have one; a
      stand-in then comes before the instances of the same rank that have been taken. */
  lemma MergeIsInOrder(parts: seq<RankedPart>, instances: seq<RankedInstance>, i: nat, j: nat)
    requires AllCounted(instances) || NoneCounted(instances)
    requires (instances == [] ==> ByRank(parts)) && i < j < |Merged(parts, instances)|
    ensures var a, b := Merged(parts, instances)[i], Merged(parts, instances)[j];
            && a.part.rank <= b.part.rank
            && (AllCounted(instances) && a.part.rank == b.part.rank ==>
                  && a.takeCount.Some? && b.takeCount.Some? && a.takeCount.value <= b.takeCount.value
                  && (a.takeCount.value >= 0 ==> b != Wrap(b.part)))
  {
    if instances != [] {
      var all := Unsorted(parts, instances);
      UnsortedAreTotal(parts, instances);
      SortSorts(NotAfter, all);
      assert NotAfter(Merged(parts, instances)[i], Merged(parts, instances)[j]);
      if AllCounted(instances) {
        MergedAreCounted(parts, instances, i);
        MergedAreCounted(parts, instances, j);
      }
    }
  }

  lemma MergedAreCounted(parts: seq<RankedPart>, instances: seq<RankedInstance>, i: nat)
    requires instances != [] && AllCounted(instances) && i < |Merged(parts, instances)|
    ensures Merged(parts, instances)[i].takeCount.Some?
  {
    var all := Unsorted(parts, instances);
    SortPermutes(NotAfter, all);
    SameElements(Sort(NotAfter, all), all);
    assert Merged(parts, instances)[i] in Elements(all);
  }

  /** Without take counts, the instances of a rank stay in the order they came in, and a stand-in comes after
      them. */
  lemma UncountedKeepTheirOrder(parts: seq<RankedPart>, instances: seq<RankedInstance>, rank: int)
    requires instances != [] && NoneCounted(instances)
    ensures var ofRank := (x: RankedInstance) => x.part.rank == rank;
            Filter(ofRank, Merged(parts, instances))
            == Filter(ofRank, instances) + Filter(ofRank, WrapAll(Uncovered(parts, CoveredBy(instances))))
  {
    var ofRank := (x: RankedInstance) => x.part.rank == rank;
    var all := Unsorted(parts, instances);
    forall x, y | x in all && y in all && ofRank(x) && ofRank(y)
      ensures NotAfter(x, y)
    {
      var i, j :| 0 <= i < |all| && 0 <= j < |all| && all[i] == x && all[j] == y;
      assert i < |instances| ==> all[i] == instances[i];
      assert j < |instances| ==> all[j] == instances[j];
    }
    SortIsStable(NotAfter, ofRank, all);
    FilterDistributes(ofRank, instances, WrapAll(Uncovered(parts, CoveredBy(instances))));
  }

  lemma {:induction false} InstancesOfAreCounted(instances: seq<RankedInstance>, segmentId: Id)
    ensures AllCounted(instances) ==> AllCounted(InstancesOf(instances, segmentId))
    ensures NoneCounted(instances) ==> NoneCounted(InstancesOf(instances, segmentId))
  {
    if instances != [] {
      InstancesOfAreCounted(instances[..|instances|-1], segmentId);
    }
  }

  /** So every segment is in that order, in whatever order the parts come from their collection. */
  lemma SegmentsAreInOrder(segments: seq<Id>, parts: seq<RankedPart>, rawInstances: seq<RankedInstance>, segmentId: Id,
                           i: nat, j: nat)
    requires AllCounted(rawInstances) || NoneCounted(rawInstances)
    requires Listed(segments, Elements(parts))
    requires i < j < |Merged(PartsOf(SortParts(parts, segments), segmentId), InstancesOf(rawInstances, segmentId))|
    ensures var r := Merged(PartsOf(SortParts(parts, segments), segmentId), InstancesOf(rawInstances, segmentId));
            && r[i].part.rank <= r[j].part.rank
            && (AllCounted(rawInstances) && r[i].part.rank == r[j].part.rank ==>
                  r[i].takeCount.Some? && r[j].takeCount.Some? && r[i].takeCount.value <= r[j].takeCount.value)
  {
    SortedPartsAreByRank(parts, segments);
    PartsOfKeepOrder(SortParts(parts, segments), segmentId);
    InstancesOfAreCounted(rawInstances, segmentId);
    MergeIsInOrder(PartsOf(SortParts(parts, segments), segmentId), InstancesOf(rawInstances, segmentId), i, j);
  }
}
