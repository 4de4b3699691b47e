/** `SCALE_approximate_toroidal_pipe`: a hollow toroidal pipe approximated
    by two concentric rings of N cylinders (the bore and the outer wall
    surface), moved to the origin `(X, Y, Z)`. Each wedge of the ring holds
    an inside region and a wall region. */
module ToroidalPipe {
  import opened Deck

  /** The generator's arguments, in the order it takes them. */
  datatype PipeParams = PipeParams(
    idStart: int,              // shape ids start after this one
    idBoundary: int,           // id of the bounding cuboid
    mixtureInside: int,        // material inside the pipe
    mixtureWall: int,          // material of the pipe wall
    majorRadius: real,
    minorRadiusInside: real,
    minorRadiusOutside: real,
    numCylinders: int,
    x: real, y: real, z: real) // offset of the global origin

  /** One chord length for both rings, taken from the inner radius. */
  function CylinderHeight(p: PipeParams, t: Trig): real
    requires p.numCylinders != 0
  {
    ChordLength(t, p.majorRadius, p.minorRadiusInside, p.numCylinders)
  }

  /** Inner cylinder `i`: id `idStart + i + 1`, radius `minorRadiusInside`. */
  function InnerCylinder(p: PipeParams, t: Trig, i: int): Stmt
    requires p.numCylinders != 0
  {
    RingCylinder(t, p.numCylinders, i, p.idStart + i + 1, p.minorRadiusInside, CylinderHeight(p, t),
                 p.majorRadius, p.x, p.y, p.z)
  }

  /** Outer cylinder `i`: id `idStart + N + i + 1`, radius `minorRadiusOutside`. */
  function OuterCylinder(p: PipeParams, t: Trig, i: int): Stmt
    requires p.numCylinders != 0
  {
    RingCylinder(t, p.numCylinders, i, p.idStart + p.numCylinders + i + 1, p.minorRadiusOutside,
                 CylinderHeight(p, t), p.majorRadius, p.x, p.y, p.z)
  }

  /** The inner ring: N cylinders with ids `idStart + 1 .. idStart + N`. */
  function InnerRing(p: PipeParams, t: Trig): seq<Stmt>
    requires p.numCylinders > 0
  {
    Ring(t, p.numCylinders, p.numCylinders, p.idStart, p.minorRadiusInside, CylinderHeight(p, t),
         p.majorRadius, p.x, p.y, p.z)
  }

  /** The outer ring: N cylinders with ids `idStart + N + 1 .. idStart + 2N`. */
  function OuterRing(p: PipeParams, t: Trig): seq<Stmt>
    requires p.numCylinders > 0
  {
    Ring(t, p.numCylinders, p.numCylinders, p.idStart + p.numCylinders, p.minorRadiusOutside,
         CylinderHeight(p, t), p.majorRadius, p.x, p.y, p.z)
  }

  function BoundingBox(p: PipeParams): Stmt
  {
    Cuboid(p.idBoundary, p.majorRadius + 2.0 * p.minorRadiusOutside, 3.0 * p.minorRadiusOutside)
  }

  /** Inside region `i`: inside `inner[i]`, outside `shiftedInner[i]` and
      `shiftedOuter[i]`. */
  function InnerWedges(mixture: int, inner: seq<int>, shiftedInner: seq<int>, shiftedOuter: seq<int>): seq<Stmt>
    requires |inner| == |shiftedInner| == |shiftedOuter|
  {
    seq(|inner|, i requires 0 <= i < |inner| => Media(mixture, BiasId, inner[i], [shiftedInner[i], shiftedOuter[i]]))
  }

  /** Wall region `i`: inside `outer[i]`, outside `shiftedOuter[i]` and
      `inner[i]`. */
  function WallWedges(mixture: int, outer: seq<int>, shiftedOuter: seq<int>, inner: seq<int>): seq<Stmt>
    requires |outer| == |shiftedOuter| == |inner|
  {
    seq(|outer|, i requires 0 <= i < |outer| => Media(mixture, BiasId, outer[i], [shiftedOuter[i], inner[i]]))
  }

  /** One more loop iteration appends inside region `i`. */
  lemma InnerWedgesSnoc(mixture: int, inner: seq<int>, shiftedInner: seq<int>, shiftedOuter: seq<int>, i: int)
    requires |inner| == |shiftedInner| == |shiftedOuter| && 0 <= i < |inner|
    ensures InnerWedges(mixture, inner[..i + 1], shiftedInner[..i + 1], shiftedOuter[..i + 1])
         == InnerWedges(mixture, inner[..i], shiftedInner[..i], shiftedOuter[..i])
            + [Media(mixture, BiasId, inner[i], [shiftedInner[i], shiftedOuter[i]])]
  {
  }

  /** One more loop iteration appends wall region `i`. */
  lemma WallWedgesSnoc(mixture: int, outer: seq<int>, shiftedOuter: seq<int>, inner: seq<int>, i: int)
    requires |outer| == |shiftedOuter| == |inner| && 0 <= i < |outer|
    ensures WallWedges(mixture, outer[..i + 1], shiftedOuter[..i + 1], inner[..i + 1])
         == WallWedges(mixture, outer[..i], shiftedOuter[..i], inner[..i])
            + [Media(mixture, BiasId, outer[i], [shiftedOuter[i], inner[i]])]
  {
  }

  /** The loop over the inside regions. */
  method AppendInnerWedges(deck: seq<Stmt>, mixture: int, inner: seq<int>, shiftedInner: seq<int>,
                           shiftedOuter: seq<int>)
    returns (out: seq<Stmt>)
    requires |inner| == |shiftedInner| == |shiftedOuter|
    ensures out == deck + InnerWedges(mixture, inner, shiftedInner, shiftedOuter)
  {
    out := deck;
    var i := 0;
    while i < |inner|
      invariant 0 <= i <= |inner|
      invariant out == deck + InnerWedges(mixture, inner[..i], shiftedInner[..i], shiftedOuter[..i])
    {
      out := out + [Media(mixture, BiasId, inner[i], [shiftedInner[i], shiftedOuter[i]])];
      InnerWedgesSnoc(mixture, inner, shiftedInner, shiftedOuter, i);
      i := i + 1;
    }
    assert inner[..i] == inner && shiftedInner[..i] == shiftedInner && shiftedOuter[..i] == shiftedOuter;
  }

  /** The loop over the wall regions. */
  method AppendWallWedges(deck: seq<Stmt>, mixture: int, outer: seq<int>, shiftedOuter: seq<int>,
                          inner: seq<int>)
    returns (out: seq<Stmt>)
    requires |outer| == |shiftedOuter| == |inner|
    ensures out == deck + WallWedges(mixture, outer, shiftedOuter, inner)
  {
    out := deck;
    var i := 0;
    while i < |outer|
      invariant 0 <= i <= |outer|
      invariant out == deck + WallWedges(mixture, outer[..i], shiftedOuter[..i], inner[..i])
    {
      out := out + [Media(mixture, BiasId, outer[i], [shiftedOuter[i], inner[i]])];
      WallWedgesSnoc(mixture, outer, shiftedOuter, inner, i);
      i := i + 1;
    }
    assert outer[..i] == outer && shiftedOuter[..i] == shiftedOuter && inner[..i] == inner;
  }

  /** The shape statements: both rings, then the bounding cuboid. */
  function PipeShapes(p: PipeParams, t: Trig): (s: seq<Stmt>)
    requires p.numCylinders > 0
    ensures |s| == 2 * p.numCylinders + 1
  {
    InnerRing(p, t) + OuterRing(p, t) + [BoundingBox(p)]
  }

  /** The region statements: the inside regions, the wall regions, the void
      region, then the boundary. */
  function PipeRegions(p: PipeParams): (r: seq<Stmt>)
    requires p.numCylinders > 0
    ensures |r| == 2 * p.numCylinders + 2
  {
    var n := p.numCylinders;
    var inner, outer := CylIds(p.idStart, n), CylIds(p.idStart + n, n);
    InnerWedges(p.mixtureInside, inner, RotateRight(inner), RotateRight(outer))
      + WallWedges(p.mixtureWall, outer, RotateRight(outer), inner)
      + [Media(0, BiasId, p.idBoundary, inner + outer), Boundary(p.idBoundary)]
  }

  /** The deck the generator returns for a positive cylinder count. */
  function PipeDeck(p: PipeParams, t: Trig): seq<Stmt>
    requires p.numCylinders > 0
  {
    PipeShapes(p, t) + PipeRegions(p)
  }

  /** The generator itself. A zero count fails at `math.pi / num_cylinders`;
      a negative count runs both cylinder loops zero times and fails at
      `cyl_ids_inside[-1]` on the empty id list. */
  method ApproximateToroidalPipe(p: PipeParams, t: Trig) returns (res: Result<seq<Stmt>>)
    ensures p.numCylinders == 0 ==> res == Err(ZeroDivisionError)
    ensures p.numCylinders < 0 ==> res == Err(IndexError)
    ensures p.numCylinders > 0 ==> res == Ok(PipeDeck(p, t))
  {
    var n := p.numCylinders;
    if n == 0 {
      return Err(ZeroDivisionError);
    }
    var cylinderHeight := 2.0 * (p.majorRadius + p.minorRadiusInside) * t.sin(t.pi / n as real);
    // inside
    var deck, cylIdsInside := AppendRing([], t, n, p.idStart, p.minorRadiusInside, cylinderHeight,
                                         p.majorRadius, p.x, p.y, p.z);
    // outside
    var cylIdsOutside;
    deck, cylIdsOutside := AppendRing(deck, t, n, p.idStart + n, p.minorRadiusOutside, cylinderHeight,
                                      p.majorRadius, p.x, p.y, p.z);

    // bounding box
    deck := deck + [Cuboid(p.idBoundary, p.majorRadius + 2.0 * p.minorRadiusOutside, 3.0 * p.minorRadiusOutside)];

    if |cylIdsInside| == 0 {
      return Err(IndexError);
    }
    var shiftedCylIdsInside := RotateRight(cylIdsInside);
    var shiftedCylIdsOutside := RotateRight(cylIdsOutside);
    assert cylinderHeight == CylinderHeight(p, t);
    assert deck == PipeShapes(p, t);

    // mixtures inside
    deck := AppendInnerWedges(deck, p.mixtureInside, cylIdsInside, shiftedCylIdsInside, shiftedCylIdsOutside);
    // mixtures outside
    deck := AppendWallWedges(deck, p.mixtureWall, cylIdsOutside, shiftedCylIdsOutside, cylIdsInside);

    deck := deck + [Media(0, BiasId, p.idBoundary, cylIdsInside + cylIdsOutside)];
    deck := deck + [Boundary(p.idBoundary)];
    assert deck == PipeShapes(p, t) + PipeRegions(p);
    return Ok(deck);
  }

  /** Statement `k` of the shape statements. */
  lemma PipeShapesAt(p: PipeParams, t: Trig, k: int)
    requires p.numCylinders > 0 && 0 <= k <= 2 * p.numCylinders
    ensures var s, n := PipeShapes(p, t), p.numCylinders;
      (k < n ==> s[k] == InnerCylinder(p, t, k)) &&
      (n <= k < 2 * n ==> s[k] == OuterCylinder(p, t, k - n)) &&
      (k == 2 * n ==> s[k] == BoundingBox(p))
  {
  }

  /** Statement `k` of the region statements. */
  lemma PipeRegionsAt(p: PipeParams, k: int)
    requires p.numCylinders > 0 && 0 <= k <= 2 * p.numCylinders + 1
    ensures var r, n := PipeRegions(p), p.numCylinders;
      var inner, outer := CylIds(p.idStart, n), CylIds(p.idStart + n, n);
      (k < n ==> r[k] == InnerWedges(p.mixtureInside, inner, RotateRight(inner), RotateRight(outer))[k]) &&
      (n <= k < 2 * n ==> r[k] == WallWedges(p.mixtureWall, outer, RotateRight(outer), inner)[k - n]) &&
      (k == 2 * n ==> r[k] == Media(0, BiasId, p.idBoundary, inner + outer)) &&
      (k == 2 * n + 1 ==> r[k] == Boundary(p.idBoundary))
  {
  }

  /** The deck is the shape statements followed by the region statements. */
  lemma PipeDeckAt(p: PipeParams, t: Trig, j: int)
    requires p.numCylinders > 0
    requires 0 <= j < 4 * p.numCylinders + 3
    ensures var d, n := PipeDeck(p, t), p.numCylinders;
      |d| == 4 * n + 3 &&
      (j <= 2 * n ==> d[j] == PipeShapes(p, t)[j]) &&
      (2 * n < j ==> d[j] == PipeRegions(p)[j - 2 * n - 1])
  {
  }

  /** Statement `k < 2N` is the cylinder with id `idStart + k + 1`. */
  lemma PipeCylinderAt(p: PipeParams, t: Trig, k: int)
    requires p.numCylinders > 0 && 0 <= k < 2 * p.numCylinders
    ensures |PipeDeck(p, t)| == 4 * p.numCylinders + 3
    ensures PipeDeck(p, t)[k].Cyl? && PipeDeck(p, t)[k].id == p.idStart + k + 1
  {
    PipeDeckAt(p, t, k);
    PipeShapesAt(p, t, k);
  }

  /** The deck holds 4N + 3 statements: N inner cylinders, N outer
      cylinders, the cuboid, N inside regions, N wall regions, the void
      region and the boundary, in that order. */
  lemma PipeStatementOrder(p: PipeParams, t: Trig)
    requires p.numCylinders > 0
    ensures var d, n := PipeDeck(p, t), p.numCylinders;
      |d| == 4 * n + 3 &&
      (forall j :: 0 <= j < |d| ==> (d[j].Cyl? <==> j < 2 * n)) &&
      (forall j :: 0 <= j < |d| ==> (d[j].Cuboid? <==> j == 2 * n)) &&
      (forall j :: 0 <= j < |d| ==> (d[j].Media? <==> 2 * n < j <= 4 * n + 1)) &&
      (forall j :: 0 <= j < |d| ==> (d[j].Boundary? <==> j == 4 * n + 2))
  {
    var d, n := PipeDeck(p, t), p.numCylinders;
    PipeDeckAt(p, t, 0);
    forall j | 0 <= j < |d|
      ensures (d[j].Cyl? <==> j < 2 * n) && (d[j].Cuboid? <==> j == 2 * n)
      ensures (d[j].Media? <==> 2 * n < j <= 4 * n + 1) && (d[j].Boundary? <==> j == 4 * n + 2)
    {
      PipeDeckAt(p, t, j);
      if j <= 2 * n {
        PipeShapesAt(p, t, j);
      } else {
        PipeRegionsAt(p, j - 2 * n - 1);
      }
    }
  }

  /** Inner cylinder `i` has id `idStart + i + 1` and outer cylinder `i`
      (statement `N + i`) id `idStart + N + i + 1`; the 2N ids, inner ring
      first, are the list `idStart + 1 .. idStart + 2N`, strictly
      increasing, so they are pairwise distinct and the two rings share no
      id. */
  lemma PipeCylinderIds(p: PipeParams, t: Trig)
    requires p.numCylinders > 0
    ensures var d, n := PipeDeck(p, t), p.numCylinders;
      |d| == 4 * n + 3 &&
      (forall k :: 0 <= k < 2 * n ==> d[k].Cyl? && d[k].id == p.idStart + k + 1) &&
      CylIds(p.idStart, n) + CylIds(p.idStart + n, n) == CylIds(p.idStart, 2 * n) &&
      (forall j, k :: 0 <= j < k < 2 * n ==> d[j].id < d[k].id) &&
      (forall j, k :: 0 <= j < n <= k < 2 * n ==> d[j].id != d[k].id)
  {
    var d, n := PipeDeck(p, t), p.numCylinders;
    PipeDeckAt(p, t, 0);
    forall k | 0 <= k < 2 * n
      ensures d[k].Cyl? && d[k].id == p.idStart + k + 1
    {
      PipeCylinderAt(p, t, k);
    }
    CylIdsAppend(p.idStart, n, n);
  }

  /** Inner and outer cylinder `i` differ only in id and radius: both use
      the one `cylinder_height`, computed from `minorRadiusInside`, for
      `right` and `left = -right`, and share origin and rotation. */
  lemma PipeRingsAligned(p: PipeParams, t: Trig)
    requires p.numCylinders > 0
    ensures var d, n := PipeDeck(p, t), p.numCylinders;
      |d| == 4 * n + 3 &&
      var inner, outer := d[..n], d[n .. 2 * n];
      forall i :: 0 <= i < n ==>
        inner[i].Cyl? && inner[i].r == p.minorRadiusInside &&
        inner[i].right == ChordLength(t, p.majorRadius, p.minorRadiusInside, n) / 2.0 &&
        inner[i].left == -inner[i].right &&
        outer[i] == inner[i].(id := p.idStart + n + i + 1, r := p.minorRadiusOutside)
  {
    var d, n := PipeDeck(p, t), p.numCylinders;
    PipeDeckAt(p, t, 0);
    forall i | 0 <= i < n
      ensures d[..n][i] == InnerCylinder(p, t, i) && d[n .. 2 * n][i] == OuterCylinder(p, t, i)
    {
      PipeDeckAt(p, t, i);
      PipeShapesAt(p, t, i);
      PipeDeckAt(p, t, n + i);
      PipeShapesAt(p, t, n + i);
    }
  }

  /** `c` is a cylinder at the ring position of slot `i`, shifted by
      `(X, Y, Z)`, and turned by `degrees(angle) - 90`. */
  predicate AtSlot(c: Stmt, p: PipeParams, t: Trig, i: int)
    requires p.numCylinders != 0
  {
    var angle := Angle(t, p.numCylinders, i);
    c.Cyl? &&
    c.ox == p.majorRadius * t.cos(angle) + p.x &&
    c.oy == p.majorRadius * t.sin(angle) + p.y &&
    c.oz == p.z &&
    c.rot == t.degrees(angle) - 90.0
  }

  /** Every origin of both rings is the ring position shifted by the same
      `(X, Y, Z)`: inner and outer cylinder `i` both sit at slot `i`. */
  lemma PipeOriginOffset(p: PipeParams, t: Trig)
    requires p.numCylinders > 0
    ensures var d, n := PipeDeck(p, t), p.numCylinders;
      |d| == 4 * n + 3 &&
      forall i :: 0 <= i < n ==> AtSlot(d[..n][i], p, t, i) && AtSlot(d[n .. 2 * n][i], p, t, i)
  {
    var d, n := PipeDeck(p, t), p.numCylinders;
    PipeDeckAt(p, t, 0);
    forall i | 0 <= i < n
      ensures AtSlot(d[..n][i], p, t, i) && AtSlot(d[n .. 2 * n][i], p, t, i)
    {
      PipeOriginAt(p, t, i);
      PipeOriginAt(p, t, n + i);
    }
  }

  lemma PipeOriginAt(p: PipeParams, t: Trig, k: int)
    requires p.numCylinders > 0 && 0 <= k < 2 * p.numCylinders
    ensures var d, n := PipeDeck(p, t), p.numCylinders;
      |d| == 4 * n + 3 && AtSlot(d[k], p, t, if k < n then k else k - n)
  {
    PipeDeckAt(p, t, k);
    PipeShapesAt(p, t, k);
  }

  /** Inside region `i` is mixture `mixtureInside`, inside inner cylinder
      `i`, and outside inner and outer cylinder `(i - 1) mod N`. */
  lemma PipeInnerWedges(p: PipeParams, t: Trig)
    requires p.numCylinders > 0
    ensures var d, n := PipeDeck(p, t), p.numCylinders;
      var inner, outer := CylIds(p.idStart, n), CylIds(p.idStart + n, n);
      |d| == 4 * n + 3 &&
      forall i :: 0 <= i < n ==>
        d[2 * n + 1 + i] == Media(p.mixtureInside, BiasId, inner[i], [inner[Pred(i, n)], outer[Pred(i, n)]])
  {
  }

  lemma PipeInnerWedgeAt(p: PipeParams, t: Trig, i: int)
    requires p.numCylinders > 0 && 0 <= i < p.numCylinders
    ensures var d, n := PipeDeck(p, t), p.numCylinders;
      var inner, outer := CylIds(p.idStart, n), CylIds(p.idStart + n, n);
      |d| == 4 * n + 3 &&
      d[2 * n + 1 + i] == Media(p.mixtureInside, BiasId, inner[i], [inner[Pred(i, n)], outer[Pred(i, n)]])
  {
  }

  /** Wall region `i` is mixture `mixtureWall`, inside outer cylinder `i`,
      and outside outer cylinder `(i - 1) mod N` and inner cylinder `i`. */
  lemma PipeWallWedges(p: PipeParams, t: Trig)
    requires p.numCylinders > 0
    ensures var d, n := PipeDeck(p, t), p.numCylinders;
      var inner, outer := CylIds(p.idStart, n), CylIds(p.idStart + n, n);
      |d| == 4 * n + 3 &&
      forall i :: 0 <= i < n ==>
        d[3 * n + 1 + i] == Media(p.mixtureWall, BiasId, outer[i], [outer[Pred(i, n)], inner[i]])
  {
    var d, n := PipeDeck(p, t), p.numCylinders;
    var inner, outer := CylIds(p.idStart, n), CylIds(p.idStart + n, n);
    PipeDeckAt(p, t, 0);
    forall i | 0 <= i < n
      ensures d[3 * n + 1 + i] == Media(p.mixtureWall, BiasId, outer[i], [outer[Pred(i, n)], inner[i]])
    {
      PipeWallWedgeAt(p, t, i);
    }
  }

  lemma PipeWallWedgeAt(p: PipeParams, t: Trig, i: int)
    requires p.numCylinders > 0 && 0 <= i < p.numCylinders
    ensures var d, n := PipeDeck(p, t), p.numCylinders;
      var inner, outer := CylIds(p.idStart, n), CylIds(p.idStart + n, n);
      |d| == 4 * n + 3 &&
      d[3 * n + 1 + i] == Media(p.mixtureWall, BiasId, outer[i], [outer[Pred(i, n)], inner[i]])
  {
  }

  /** Inside region `i` excludes inner cylinder `j` exactly when `j` is the
      cyclic predecessor of `i`, and likewise outer cylinder `j`. */
  lemma PipeInnerExclusions(mixture: int, idStart: int, n: nat)
    requires n > 0
    ensures var inner, outer := CylIds(idStart, n), CylIds(idStart + n, n);
      var w := InnerWedges(mixture, inner, RotateRight(inner), RotateRight(outer));
      (forall i, j :: 0 <= i < n && 0 <= j < n ==> (inner[j] in w[i].negs <==> j == Pred(i, n))) &&
      (forall i, j :: 0 <= i < n && 0 <= j < n ==> (outer[j] in w[i].negs <==> j == Pred(i, n)))
  {
  }

  /** Wall region `i` excludes outer cylinder `j` exactly when `j` is the
      cyclic predecessor of `i`, and inner cylinder `j` exactly when `j = i`.
      So it excludes inner cylinder `(i - 1) mod N` only when N = 1, that is
      when that cylinder is inner cylinder `i` itself. */
  lemma PipeWallExclusions(mixture: int, idStart: int, n: nat)
    requires n > 0
    ensures var inner, outer := CylIds(idStart, n), CylIds(idStart + n, n);
      var w := WallWedges(mixture, outer, RotateRight(outer), inner);
      (forall i, j :: 0 <= i < n && 0 <= j < n ==> (outer[j] in w[i].negs <==> j == Pred(i, n))) &&
      (forall i, j :: 0 <= i < n && 0 <= j < n ==> (inner[j] in w[i].negs <==> j == i)) &&
      (forall i :: 0 <= i < n ==> (inner[Pred(i, n)] in w[i].negs <==> n == 1))
  {
  }

  /** The cuboid has id `idBoundary` and is sized from `majorRadius` and
      `minorRadiusOutside` alone; the void region is mixture 0 inside it and
      outside every cylinder, inner ring first, in index order; the last
      statement is `boundary idBoundary`. */
  lemma PipeVoidAndBoundary(p: PipeParams, t: Trig)
    requires p.numCylinders > 0
    ensures var d, n := PipeDeck(p, t), p.numCylinders;
      |d| == 4 * n + 3 &&
      d[2 * n] == Cuboid(p.idBoundary, p.majorRadius + 2.0 * p.minorRadiusOutside, 3.0 * p.minorRadiusOutside) &&
      d[4 * n + 1].Media? && d[4 * n + 1].mix == 0 && d[4 * n + 1].pos == p.idBoundary &&
      |d[4 * n + 1].negs| == 2 * n &&
      (forall k :: 0 <= k < 2 * n ==> d[k].Cyl? && d[4 * n + 1].negs[k] == d[k].id) &&
      d[4 * n + 2] == Boundary(p.idBoundary) && d[|d| - 1] == d[4 * n + 2]
  {
    var d, n := PipeDeck(p, t), p.numCylinders;
    PipeDeckAt(p, t, 2 * n);
    PipeShapesAt(p, t, 2 * n);
    PipeDeckAt(p, t, 4 * n + 1);
    PipeRegionsAt(p, 2 * n);
    PipeDeckAt(p, t, 4 * n + 2);
    PipeRegionsAt(p, 2 * n + 1);
    PipeCylinderIds(p, t);
  }

  /** Every shape id a region or the boundary statement mentions is declared
      by an earlier cylinder or cuboid statement. */
  lemma PipeDeclaredBeforeUse(p: PipeParams, t: Trig)
    requires p.numCylinders > 0
    ensures DeclaredBeforeUse(PipeDeck(p, t))
  {
    var d, n := PipeDeck(p, t), p.numCylinders;
    PipeStatementOrder(p, t);
    forall j, id | 0 <= j < |d| && References(d[j], id)
      ensures exists k :: 0 <= k < j && Declares(d[k], id)
    {
      PipeDeclaredBeforeUseAt(p, t, j, id);
    }
  }

  lemma PipeDeclaredBeforeUseAt(p: PipeParams, t: Trig, j: int, id: int)
    requires p.numCylinders > 0
    requires 2 * p.numCylinders < j < 4 * p.numCylinders + 3
    requires References(PipeDeck(p, t)[j], id)
    ensures exists k :: 0 <= k < j && Declares(PipeDeck(p, t)[k], id)
  {
    var d, n := PipeDeck(p, t), p.numCylinders;
    if j <= 3 * n {
      InnerRegionDeclaredBefore(p, t, j - 2 * n - 1, id);
    } else if j <= 4 * n {
      WallRegionDeclaredBefore(p, t, j - 3 * n - 1, id);
    } else {
      PipeDeckAt(p, t, j);
      PipeRegionsAt(p, j - 2 * n - 1);
      PipeDeckAt(p, t, 2 * n);
      PipeShapesAt(p, t, 2 * n);
      if j == 4 * n + 1 && id != p.idBoundary {
        CylIdsAppend(p.idStart, n, n);
        CylIdsLayout(p.idStart, 2 * n);
        PipeCylinderAt(p, t, id - p.idStart - 1);
        assert Declares(d[id - p.idStart - 1], id);
      } else {
        assert Declares(d[2 * n], id);
      }
    }
  }

  /** Inside region `i` mentions inner cylinders `i` and `(i - 1) mod N`
      and outer cylinder `(i - 1) mod N`, all declared before it. */
  lemma InnerRegionDeclaredBefore(p: PipeParams, t: Trig, i: int, id: int)
    requires p.numCylinders > 0 && 0 <= i < p.numCylinders
    requires References(PipeDeck(p, t)[2 * p.numCylinders + 1 + i], id)
    ensures exists k :: 0 <= k < 2 * p.numCylinders + 1 + i && Declares(PipeDeck(p, t)[k], id)
  {
    var d, n := PipeDeck(p, t), p.numCylinders;
    PipeInnerWedgeAt(p, t, i);
    CylIdsAt(p.idStart, n, i);
    CylIdsAt(p.idStart, n, Pred(i, n));
    CylIdsAt(p.idStart + n, n, Pred(i, n));
    if id == p.idStart + i + 1 {
      PipeCylinderAt(p, t, i);
      assert Declares(d[i], id);
    } else if id == p.idStart + Pred(i, n) + 1 {
      PipeCylinderAt(p, t, Pred(i, n));
      assert Declares(d[Pred(i, n)], id);
    } else {
      PipeCylinderAt(p, t, n + Pred(i, n));
      assert Declares(d[n + Pred(i, n)], id);
    }
  }

  /** Wall region `i` mentions outer cylinders `i` and `(i - 1) mod N` and
      inner cylinder `i`, all declared before it. */
  lemma WallRegionDeclaredBefore(p: PipeParams, t: Trig, i: int, id: int)
    requires p.numCylinders > 0 && 0 <= i < p.numCylinders
    requires References(PipeDeck(p, t)[3 * p.numCylinders + 1 + i], id)
    ensures exists k :: 0 <= k < 3 * p.numCylinders + 1 + i && Declares(PipeDeck(p, t)[k], id)
  {
    var d, n := PipeDeck(p, t), p.numCylinders;
    PipeWallWedgeAt(p, t, i);
    CylIdsAt(p.idStart, n, i);
    CylIdsAt(p.idStart + n, n, i);
    CylIdsAt(p.idStart + n, n, Pred(i, n));
    if id == p.idStart + n + i + 1 {
      PipeCylinderAt(p, t, n + i);
      assert Declares(d[n + i], id);
    } else if id == p.idStart + n + Pred(i, n) + 1 {
      PipeCylinderAt(p, t, n + Pred(i, n));
      assert Declares(d[n + Pred(i, n)], id);
    } else {
      PipeCylinderAt(p, t, i);
      assert Declares(d[i], id);
    }
  }

  /** The declared shape ids are pairwise distinct exactly when `idBoundary`
      lies outside `idStart + 1 .. idStart + 2N`; the generator does not
      check this. */
  lemma PipeShapeIdsDistinct(p: PipeParams, t: Trig)
    requires p.numCylinders > 0
    ensures ShapeIdsDistinct(PipeDeck(p, t)) <==>
            !(p.idStart < p.idBoundary <= p.idStart + 2 * p.numCylinders)
  {
    var d, n := PipeDeck(p, t), p.numCylinders;
    PipeStatementOrder(p, t);
    PipeCylinderIds(p, t);
    PipeDeckAt(p, t, 2 * n);
    PipeShapesAt(p, t, 2 * n);
    if p.idStart < p.idBoundary <= p.idStart + 2 * n {
      var j := p.idBoundary - p.idStart - 1;
      assert d[j].id == d[2 * n].id;
    }
  }
}
