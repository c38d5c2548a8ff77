/** The pieces of a part, layer by layer: each is cropped where the next one on its layer begins. */
module PieceCropping {
  import opened JsValues
  import opened StableSort

  /** What cropping changes of a piece. */
  datatype Drawing = Drawing(duration: Option<int>, infinite: bool, cropped: bool, maxLabelWidth: Option<int>)

  /** A piece as it is drawn. `renderedDuration` is `None` for a piece without end. */
  class Piece {
    const outputLayerId: string
    const sourceLayerId: string
    /** Present if the source layer is; rank and exclusive group are those of the layer. */
    const flattenedGroup: Option<string>
    const startPartId: Id
    const renderedInPoint: Option<int>
    const priority: int
    const layerRank: int
    var renderedDuration: Option<int>
    var infinite: bool
    var cropped: bool
    var hasOriginInPreceedingPart: bool
    var maxLabelWidth: Option<int>

    constructor (outputLayerId: string, sourceLayerId: string, flattenedGroup: Option<string>, startPartId: Id,
                 renderedInPoint: Option<int>, renderedDuration: Option<int>, priority: int, layerRank: int, infinite: bool)
      ensures this.renderedInPoint == renderedInPoint && this.renderedDuration == renderedDuration
      ensures this.infinite == infinite && !cropped && maxLabelWidth == None
    {
      this.outputLayerId, this.sourceLayerId, this.flattenedGroup := outputLayerId, sourceLayerId, flattenedGroup;
      this.startPartId, this.renderedInPoint, this.renderedDuration := startPartId, renderedInPoint, renderedDuration;
      this.priority, this.layerRank, this.infinite := priority, layerRank, infinite;
      cropped, hasOriginInPreceedingPart, maxLabelWidth := false, false, None;
    }

    /** Pieces on a flattened output layer share a layer with those of the same exclusive group. */
    function LayerKey(): string {
      outputLayerId + "_" + flattenedGroup.GetOr(sourceLayerId)
    }

    function SortPoint(): int {
      Or(renderedInPoint, 0)
    }

    function Drawn(): Drawing
      reads this
    {
      Drawing(renderedDuration, infinite, cropped, maxLabelWidth)
    }
  }

  /** By in-point, then priority, then rank of the layer. */
  function NotAfter(a: Piece, b: Piece): bool {
    OrNum(a.SortPoint() - b.SortPoint(), OrNum(a.priority - b.priority, a.layerRank - b.layerRank)) <= 0
  }

  // ------------------------------------------------------------------ cropping, on values

  /** Do both pieces have an in-point? */
  predicate BothPlaced(a: Option<int>, b: Option<int>) {
    a.Some? && b.Some?
  }

  function Gap(a: Option<int>, b: Option<int>): int
    requires BothPlaced(a, b)
  {
    b.value - a.value
  }

  predicate Overruns(duration: Option<int>, gap: int) {
    duration.None? || duration.value > gap
  }

  /** What is left of a duration when the next piece begins at in-point `next`. */
  function Cropped(a: Option<int>, next: Option<int>, duration: Option<int>): Option<int> {
    if BothPlaced(a, next) && Overruns(duration, Gap(a, next)) then Some(Gap(a, next)) else duration
  }

  /** The in-points of the pieces of a layer are in order. */
  ghost predicate InOrder(ins: seq<Option<int>>) {
    && (forall i :: 0 <= i < |ins| ==> ins[i].Some?)
    && (forall i, j :: 0 <= i < j < |ins| ==> ins[i].value <= ins[j].value)
  }

  /** A piece at in-point `a` is drawn like this once the next piece on its layer is at in-point `next`. */
  function Crop(a: Option<int>, next: Option<int>, d: Drawing): Drawing {
    if !BothPlaced(a, next) then d
    else Drawing(Cropped(a, next, d.duration), false, d.cropped || Overruns(d.duration, Gap(a, next)), Some(Gap(a, next)))
  }

  function CroppedAt(ins: seq<Option<int>>, drawings: seq<Drawing>, i: nat): Drawing
    requires i < |ins| == |drawings|
  {
    if i + 1 < |ins| then Crop(ins[i], ins[i+1], drawings[i]) else drawings[i]
  }

  /** After cropping, no piece reaches beyond the beginning of a later one, none has become longer, and
      only the last can be without end. */
  lemma CroppedPiecesDoNotOverlap(ins: seq<Option<int>>, drawings: seq<Drawing>, i: nat, j: nat)
    requires i < j < |ins| == |drawings| && InOrder(ins)
    ensures var c, before := CroppedAt(ins, drawings, i).duration, drawings[i].duration;
            var gap := ins[i+1].value - ins[i].value;
            && c == Some(if before.Some? then Min(before.value, gap) else gap)
            && ins[i].value + c.value <= ins[j].value
            && (before.Some? && before.value >= 0 ==> 0 <= c.value)
    ensures CroppedAt(ins, drawings, |ins| - 1) == drawings[|ins| - 1]
  {
    assert ins[i+1].value <= ins[j].value;
  }

  /** Exactly when a placed piece still reaches beyond the beginning of a later placed one: the piece right
      after it has no in-point, and it reached that far before. Layers are in order of in-points, where a
      missing one counts as 0. */
  lemma OverlapsOnlyPastUnplaced(a: Option<int>, next: Option<int>, b: Option<int>, d: Drawing)
    requires BothPlaced(a, b) && Or(next, 0) <= Or(b, 0)
    ensures Overruns(Crop(a, next, d).duration, Gap(a, b)) <==> next.None? && Overruns(d.duration, Gap(a, b))
  {
    assert next.Some? ==> Gap(a, next) <= Gap(a, b);
  }

  // ------------------------------------------------------------------ cropping, in place

  function InPoints(items: seq<Piece>): (ins: seq<Option<int>>)
    ensures |ins| == |items| && forall i :: 0 <= i < |items| ==> ins[i] == items[i].renderedInPoint
  {
    seq(|items|, i requires 0 <= i < |items| => items[i].renderedInPoint)
  }

  ghost function Drawings(items: seq<Piece>): (drawings: seq<Drawing>)
    reads items
    ensures |drawings| == |items| && forall i :: 0 <= i < |items| ==> drawings[i] == items[i].Drawn()
  {
    seq(|items|, i requires 0 <= i < |items| reads items => items[i].Drawn())
  }

  method CropPair(previousItem: Piece, currentItem: Piece)
    modifies previousItem`renderedDuration, previousItem`infinite, previousItem`cropped, previousItem`maxLabelWidth
    ensures previousItem.Drawn() ==
              Crop(previousItem.renderedInPoint, currentItem.renderedInPoint, old(previousItem.Drawn()))
  {
    if previousItem.renderedInPoint.Some? && currentItem.renderedInPoint.Some? {
      var gap := currentItem.renderedInPoint.value - previousItem.renderedInPoint.value;
      previousItem.infinite := false;
      if || (previousItem.renderedDuration.Some? &&
             previousItem.renderedInPoint.value + previousItem.renderedDuration.value > currentItem.renderedInPoint.value)
         || previousItem.renderedDuration.None?
      {
        previousItem.renderedDuration := Some(gap);
        previousItem.cropped := true;
      }
      previousItem.maxLabelWidth := Some(gap);
    }
  }

  method MarkOrigin(item: Piece, partId: Id)
    modifies item`hasOriginInPreceedingPart
    ensures item.hasOriginInPreceedingPart == (old(item.hasOriginInPreceedingPart) || item.startPartId != partId)
    ensures item.Drawn() == old(item.Drawn())
  {
    if item.startPartId != partId {
      item.hasOriginInPreceedingPart := true;
    }
  }

  /** Crops the pieces of one layer, which come in the order of their in-points. */
  method CropLayer(items: seq<Piece>, partId: Id)
    requires NoDuplicates(items)
    modifies items
    ensures forall i :: 0 <= i < |items| ==> items[i].Drawn() == CroppedAt(InPoints(items), old(Drawings(items)), i)
    ensures forall i :: 0 <= i < |items| ==>
              items[i].hasOriginInPreceedingPart ==
                (old(items[i].hasOriginInPreceedingPart) || items[i].startPartId != partId)
  {
    for i := 0 to |items|
      invariant forall j :: 0 <= j < i - 1 ==>
          items[j].Drawn() == Crop(items[j].renderedInPoint, items[j+1].renderedInPoint, old(items[j].Drawn()))
      invariant forall j :: Max(0, i - 1) <= j < |items| ==> items[j].Drawn() == old(items[j].Drawn())
      invariant forall j :: 0 <= j < |items| ==>
          items[j].hasOriginInPreceedingPart ==
            (old(items[j].hasOriginInPreceedingPart) || (j < i && items[j].startPartId != partId))
    {
      MarkOrigin(items[i], partId);
      if i > 0 {
        CropPair(items[i-1], items[i]);
      }
    }
  }

  // ------------------------------------------------------------------- all layers of a part

  /** The pieces of one layer, in the order of the part. */
  function Layer(pieces: seq<Piece>, key: string): seq<Piece> {
    if pieces == [] then []
    else
      var front, last := Layer(pieces[..|pieces|-1], key), pieces[|pieces|-1];
      if last.LayerKey() == key then front + [last] else front
  }

  lemma {:induction false} LayerIsTheirs(pieces: seq<Piece>, key: string)
    requires NoDuplicates(pieces)
    ensures NoDuplicates(Layer(pieces, key))
    ensures Elements(Layer(pieces, key)) == set p | p in pieces && p.LayerKey() == key
  {
    if pieces != [] {
      var front, last := pieces[..|pieces|-1], pieces[|pieces|-1];
      LayerIsTheirs(front, key);
      assert pieces == front + [last];
      assert last !in Elements(Layer(front, key));
    }
  }

  /** The pieces of a layer, by in-point. */
  function SortedLayer(pieces: seq<Piece>, key: string): seq<Piece> {
    Sort(NotAfter, Layer(pieces, key))
  }

  lemma NotAfterIsTotal(dom: set<Piece>)
    ensures TotalPreorder(NotAfter, dom)
  {
  }

  /** Pieces of one output layer share a layer exactly if they have the same group, where the output is
      flattened, or the same source layer, where it is not. */
  lemma SharesLayer(a: Piece, b: Piece)
    requires a.outputLayerId == b.outputLayerId
    ensures a.LayerKey() == b.LayerKey() <==> a.flattenedGroup.GetOr(a.sourceLayerId) == b.flattenedGroup.GetOr(b.sourceLayerId)
  {
    var n := |a.outputLayerId| + 1;
    assert a.LayerKey()[n..] == a.flattenedGroup.GetOr(a.sourceLayerId);
    assert b.LayerKey()[n..] == b.flattenedGroup.GetOr(b.sourceLayerId);
  }

  /** Of pieces at the same in-point, which one is drawn on top? */
  predicate Outranks(b: Piece, a: Piece) {
    a.priority < b.priority || (a.priority == b.priority && a.layerRank < b.layerRank)
  }

  /** Sorting a layer keeps each of its pieces once, and puts their in-points in order, and pieces at the same
      in-point in order of priority and of the rank of their source layer. */
  lemma SortedLayerIsInOrder(pieces: seq<Piece>, key: string)
    requires NoDuplicates(pieces)
    ensures var layer := SortedLayer(pieces, key);
            && NoDuplicates(layer)
            && Elements(layer) == (set p | p in pieces && p.LayerKey() == key)
            && (forall i :: 0 <= i < |layer| ==> layer[i] in pieces && layer[i].LayerKey() == key)
            && (forall i, j :: 0 <= i < j < |layer| ==> layer[i].SortPoint() <= layer[j].SortPoint())
            && (forall i, j :: 0 <= i < j < |layer| && layer[i].SortPoint() == layer[j].SortPoint() ==>
                  !Outranks(layer[i], layer[j]))
  {
    var layer, sorted := Layer(pieces, key), SortedLayer(pieces, key);
    LayerIsTheirs(pieces, key);
    SortKeepsApart(NotAfter, layer);
    forall i | 0 <= i < |sorted|
      ensures sorted[i] in pieces && sorted[i].LayerKey() == key
    {
      assert sorted[i] in Elements(sorted);
    }
    NotAfterIsTotal(Elements(layer));
    SortSorts(NotAfter, layer);
    forall i, j | 0 <= i < j < |sorted|
      ensures sorted[i].SortPoint() <= sorted[j].SortPoint()
      ensures sorted[i].SortPoint() == sorted[j].SortPoint() ==> !Outranks(sorted[i], sorted[j])
    {
      assert NotAfter(sorted[i], sorted[j]);
    }
  }

  /** How piece `i` of a layer is drawn once the layer has been cropped: as before, but for the next one. */
  ghost function CroppedIn(layer: seq<Piece>, before: map<Piece, Drawing>, i: nat): Drawing
    requires i < |layer| && layer[i] in before
  {
    if i + 1 < |layer| then Crop(layer[i].renderedInPoint, layer[i+1].renderedInPoint, before[layer[i]])
    else before[layer[i]]
  }

  ghost predicate CroppedFrom(layer: seq<Piece>, before: map<Piece, Drawing>)
    reads layer
  {
    forall i :: 0 <= i < |layer| ==> layer[i] in before && layer[i].Drawn() == CroppedIn(layer, before, i)
  }

  method CropOneLayer(pieces: seq<Piece>, partId: Id, key: string, ghost before: map<Piece, Drawing>)
    requires NoDuplicates(pieces)
    requires forall p :: p in pieces && p.LayerKey() == key ==> p in before && before[p] == p.Drawn()
    modifies pieces
    ensures CroppedFrom(SortedLayer(pieces, key), before)
    ensures forall p :: p in pieces && p.LayerKey() != key ==> p.Drawn() == old(p.Drawn())
  {
    var layer := SortedLayer(pieces, key);
    SortedLayerIsInOrder(pieces, key);
    CropLayer(layer, partId);
    forall i | 0 <= i < |layer|
      ensures layer[i] in before && layer[i].Drawn() == CroppedIn(layer, before, i)
    {
      assert layer[i].Drawn() == CroppedAt(InPoints(layer), old(Drawings(layer)), i);
    }
  }

  /** What cropping makes of piece `a`, followed by `next` on its layer, with respect to a later piece `b`:
      it has the smaller of its duration and the gap to the next one, and overlaps `b` exactly if the next
      one has no in-point and it overlapped `b` before. It ends there, its label has the gap for itself, and
      it is marked as cropped exactly if it was before or has lost something. */
  ghost predicate CroppedRight(a: Piece, next: Piece, b: Piece, d: Drawing)
    reads a
  {
    var was := d.duration;
    && (if BothPlaced(a.renderedInPoint, next.renderedInPoint) then
          var gap := Gap(a.renderedInPoint, next.renderedInPoint);
          && a.renderedDuration == Some(if was.Some? then Min(was.value, gap) else gap)
          && !a.infinite && a.maxLabelWidth == Some(gap) && a.cropped == (d.cropped || a.renderedDuration != was)
        else a.Drawn() == d)
    && (BothPlaced(a.renderedInPoint, b.renderedInPoint) ==>
          var gap := Gap(a.renderedInPoint, b.renderedInPoint);
          Overruns(a.renderedDuration, gap) <==> next.renderedInPoint.None? && Overruns(was, gap))
  }

  lemma CroppedPieceIsRight(a: Piece, next: Piece, b: Piece, d: Drawing)
    requires next.SortPoint() <= b.SortPoint() && a.Drawn() == Crop(a.renderedInPoint, next.renderedInPoint, d)
    ensures CroppedRight(a, next, b, d)
  {
    var r := Crop(a.renderedInPoint, next.renderedInPoint, d);
    assert a.Drawn() == r && a.renderedDuration == r.duration && a.infinite == r.infinite && a.cropped == r.cropped
           && a.maxLabelWidth == r.maxLabelWidth;
    if BothPlaced(a.renderedInPoint, b.renderedInPoint) {
      OverlapsOnlyPastUnplaced(a.renderedInPoint, next.renderedInPoint, b.renderedInPoint, d);
    }
  }

  /** So once a layer has been cropped, its last piece is as long as it was, and all others are right. */
  lemma CroppedLayer(layer: seq<Piece>, before: map<Piece, Drawing>, i: nat, j: nat)
    requires i < j < |layer| && CroppedFrom(layer, before)
    requires forall k, l :: 0 <= k < l < |layer| ==> layer[k].SortPoint() <= layer[l].SortPoint()
    ensures layer[i] in before && CroppedRight(layer[i], layer[i+1], layer[j], before[layer[i]])
    ensures layer[|layer|-1] in before && layer[|layer|-1].Drawn() == before[layer[|layer|-1]]
  {
    var last := |layer| - 1;
    assert layer[last].Drawn() == CroppedIn(layer, before, last);
    assert layer[i].Drawn() == CroppedIn(layer, before, i);
    assert i + 1 < j ==> layer[i+1].SortPoint() <= layer[j].SortPoint();
    CroppedPieceIsRight(layer[i], layer[i+1], layer[j], before[layer[i]]);
  }

  /** The layers of a part are in that order, so `CroppedLayer` holds of each of them after `CropPart`. */
  lemma CroppedPartIsRight(pieces: seq<Piece>, key: string, before: map<Piece, Drawing>, i: nat, j: nat)
    requires NoDuplicates(pieces) && i < j < |SortedLayer(pieces, key)|
    requires AllCropped(pieces, before, Elements(Keys(pieces)))
    ensures var layer := SortedLayer(pieces, key);
            layer[i] in before && CroppedRight(layer[i], layer[i+1], layer[j], before[layer[i]])
  {
    var layer := SortedLayer(pieces, key);
    SortedLayerIsInOrder(pieces, key);
    forall k | 0 <= k < |layer|
      ensures layer[k] in before && layer[k].Drawn() == CroppedIn(layer, before, k)
    {
      assert layer[k] in pieces && layer[k].LayerKey() == key;
      CroppedOnAt(layer, before, k);
    }
    CroppedLayer(layer, before, i, j);
  }

  // ---------------------------------------------------------------------- the whole of a part

  /** The keys of the layers, in the order in which they first occur. */
  function Keys(pieces: seq<Piece>): (keys: seq<string>)
    ensures forall p :: p in pieces ==> p.LayerKey() in keys
    ensures forall m, n :: 0 <= m < n < |keys| ==> keys[m] != keys[n]
  {
    if pieces == [] then []
    else
      var front, key := Keys(pieces[..|pieces|-1]), pieces[|pieces|-1].LayerKey();
      assert pieces == pieces[..|pieces|-1] + [pieces[|pieces|-1]];
      if key in front then front else front + [key]
  }

  /** How a piece is drawn once its layer has been cropped. */
  ghost function CroppedOn(layer: seq<Piece>, before: map<Piece, Drawing>, p: Piece): Drawing
    requires p in layer && p in before
  {
    var i :| 0 <= i < |layer| && layer[i] == p;
    CroppedIn(layer, before, i)
  }

  lemma CroppedOnAt(layer: seq<Piece>, before: map<Piece, Drawing>, i: nat)
    requires NoDuplicates(layer) && i < |layer| && layer[i] in before
    ensures CroppedOn(layer, before, layer[i]) == CroppedIn(layer, before, i)
  {
    var p := layer[i];
    var k :| 0 <= k < |layer| && layer[k] == p && CroppedOn(layer, before, p) == CroppedIn(layer, before, k);
  }

  lemma PieceOnLayer(pieces: seq<Piece>, p: Piece)
    requires NoDuplicates(pieces) && p in pieces
    ensures p in SortedLayer(pieces, p.LayerKey())
  {
    SortedLayerIsInOrder(pieces, p.LayerKey());
    assert p in Elements(SortedLayer(pieces, p.LayerKey()));
  }

  /** The pieces of the layers in `done` have been cropped, all others are drawn as before. */
  ghost predicate AllCropped(pieces: seq<Piece>, before: map<Piece, Drawing>, done: set<string>)
    reads pieces
  {
    forall p :: p in pieces ==>
      && p in before && p in SortedLayer(pieces, p.LayerKey())
      && p.Drawn() == if p.LayerKey() in done then CroppedOn(SortedLayer(pieces, p.LayerKey()), before, p) else before[p]
  }

  lemma NothingCropped(pieces: seq<Piece>, before: map<Piece, Drawing>)
    requires NoDuplicates(pieces)
    requires forall p :: p in pieces ==> p in before && before[p] == p.Drawn()
    ensures AllCropped(pieces, before, {})
  {
    forall p | p in pieces
      ensures p in SortedLayer(pieces, p.LayerKey())
    {
      PieceOnLayer(pieces, p);
    }
  }

  method CropNextLayer(pieces: seq<Piece>, partId: Id, key: string,
                       ghost before: map<Piece, Drawing>, ghost done: set<string>)
    requires NoDuplicates(pieces) && key !in done && AllCropped(pieces, before, done)
    modifies pieces
    ensures AllCropped(pieces, before, done + {key})
  {
    CropOneLayer(pieces, partId, key, before);
    ghost var layer := SortedLayer(pieces, key);
    forall p | p in pieces && p.LayerKey() == key
      ensures p.Drawn() == CroppedOn(layer, before, p)
    {
      var i :| 0 <= i < |layer| && layer[i] == p && CroppedOn(layer, before, p) == CroppedIn(layer, before, i);
      assert layer[i].Drawn() == CroppedIn(layer, before, i);
    }
  }

  /** Crops all layers of a part: each piece comes out as its own layer has it, whatever the others are. */
  method CropPart(pieces: seq<Piece>, partId: Id, ghost before: map<Piece, Drawing>)
    requires NoDuplicates(pieces)
    requires forall p :: p in pieces ==> p in before && before[p] == p.Drawn()
    modifies pieces
    ensures AllCropped(pieces, before, Elements(Keys(pieces)))
  {
    var keys := Keys(pieces);
    NothingCropped(pieces, before);
    for n := 0 to |keys|
      invariant AllCropped(pieces, before, Elements(keys[..n]))
    {
      assert keys[..n + 1] == keys[..n] + [keys[n]];
      assert Elements(keys[..n + 1]) == Elements(keys[..n]) + {keys[n]};
      CropNextLayer(pieces, partId, keys[n], before, Elements(keys[..n]));
    }
    assert keys[..|keys|] == keys;
  }

  /** A piece that another one at the same in-point outranks comes before it on their layer. */
  lemma OutrankedComesFirst(pieces: seq<Piece>, a: Piece, b: Piece) returns (i: nat, j: nat)
    requires NoDuplicates(pieces) && a in pieces && b in pieces && a.LayerKey() == b.LayerKey()
    requires a.SortPoint() == b.SortPoint() && Outranks(b, a)
    ensures var layer := SortedLayer(pieces, a.LayerKey()); i < j < |layer| && layer[i] == a && layer[j] == b
  {
    var layer := SortedLayer(pieces, a.LayerKey());
    PieceOnLayer(pieces, a);
    PieceOnLayer(pieces, b);
    i :| 0 <= i < |layer| && layer[i] == a;
    j :| 0 <= j < |layer| && layer[j] == b;
    SortedLayerIsInOrder(pieces, a.LayerKey());
  }

  /** Between two pieces at the same in-point there are only pieces at that in-point. */
  lemma NextAtSamePoint(pieces: seq<Piece>, key: string, i: nat, j: nat)
    requires NoDuplicates(pieces) && i < j < |SortedLayer(pieces, key)|
    requires SortedLayer(pieces, key)[i].SortPoint() == SortedLayer(pieces, key)[j].SortPoint()
    ensures var next := SortedLayer(pieces, key)[i+1];
            && next in pieces && next.LayerKey() == key && next.SortPoint() == SortedLayer(pieces, key)[i].SortPoint()
  {
    SortedLayerIsInOrder(pieces, key);
    var layer := SortedLayer(pieces, key);
    assert layer[i].SortPoint() <= layer[i+1].SortPoint();
    assert i + 1 < j ==> layer[i+1].SortPoint() <= layer[j].SortPoint();
  }

  /** So of two pieces at the same in-point on a layer, the one that the other outranks is not drawn at all. */
  lemma OutrankedIsHidden(pieces: seq<Piece>, before: map<Piece, Drawing>, a: Piece, b: Piece)
    requires NoDuplicates(pieces) && a in pieces && b in pieces && a.LayerKey() == b.LayerKey()
    requires AllCropped(pieces, before, Elements(Keys(pieces)))
    requires forall p :: p in pieces && p.LayerKey() == a.LayerKey() ==> p.renderedInPoint.Some?
    requires a.renderedInPoint == b.renderedInPoint && Outranks(b, a)
    requires before[a].duration.None? || before[a].duration.value >= 0
    ensures a.renderedDuration == Some(0)
  {
    var i, j := OutrankedComesFirst(pieces, a, b);
    NextAtSamePoint(pieces, a.LayerKey(), i, j);
    CroppedPartIsRight(pieces, a.LayerKey(), before, i, j);
  }
}
