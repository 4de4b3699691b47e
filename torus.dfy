/** `SCALE_approximate_torus`: a torus approximated by a ring of N
    cylinders, each wedge of the ring one material region. */
module Torus {
  import opened Deck

  /** The generator's arguments, in the order it takes them. */
  datatype TorusParams = TorusParams(
    idCyl0: int,        // shape ids start after this one
    idBoundary: int,    // id of the bounding cuboid
    mixture: int,       // material of every wedge
    majorRadius: real,
    minorRadius: real,
    numCylinders: int)

  function CylinderHeight(p: TorusParams, t: Trig): real
    requires p.numCylinders != 0
  {
    ChordLength(t, p.majorRadius, p.minorRadius, p.numCylinders)
  }

  /** Cylinder `i`: id `idCyl0 + i + 1`, radius `minorRadius`, centred on the
      ring of radius `majorRadius` in the plane z = 0. */
  function TorusCylinder(p: TorusParams, t: Trig, i: int): Stmt
    requires p.numCylinders != 0
  {
    RingCylinder(t, p.numCylinders, i, p.idCyl0 + i + 1, p.minorRadius, CylinderHeight(p, t),
                 p.majorRadius, 0.0, 0.0, 0.0)
  }

  function Cylinders(p: TorusParams, t: Trig): seq<Stmt>
    requires p.numCylinders > 0
  {
    Ring(t, p.numCylinders, p.numCylinders, p.idCyl0, p.minorRadius, CylinderHeight(p, t),
         p.majorRadius, 0.0, 0.0, 0.0)
  }

  function BoundingBox(p: TorusParams): Stmt
  {
    Cuboid(p.idBoundary, p.majorRadius + 2.0 * p.minorRadius, 3.0 * p.minorRadius)
  }

  /** Wedge `i` lies inside `ids[i]` and outside `shifted[i]`. */
  function Wedges(mixture: int, ids: seq<int>, shifted: seq<int>): seq<Stmt>
    requires |ids| == |shifted|
  {
    seq(|ids|, i requires 0 <= i < |ids| => Media(mixture, BiasId, ids[i], [shifted[i]]))
  }

  /** One more loop iteration appends wedge `i`. */
  lemma WedgesSnoc(mixture: int, ids: seq<int>, shifted: seq<int>, i: int)
    requires |ids| == |shifted| && 0 <= i < |ids|
    ensures Wedges(mixture, ids[..i + 1], shifted[..i + 1])
         == Wedges(mixture, ids[..i], shifted[..i]) + [Media(mixture, BiasId, ids[i], [shifted[i]])]
  {
  }

  /** The wedge loop: region `i` is inside `ids[i]` and outside `shifted[i]`. */
  method AppendWedges(deck: seq<Stmt>, mixture: int, ids: seq<int>, shifted: seq<int>)
    returns (out: seq<Stmt>)
    requires |ids| == |shifted|
    ensures out == deck + Wedges(mixture, ids, shifted)
  {
    out := deck;
    var i := 0;
    while i < |ids|
      invariant 0 <= i <= |ids|
      invariant out == deck + Wedges(mixture, ids[..i], shifted[..i])
    {
      out := out + [Media(mixture, BiasId, ids[i], [shifted[i]])];
      WedgesSnoc(mixture, ids, shifted, i);
      i := i + 1;
    }
    assert ids[..i] == ids && shifted[..i] == shifted;
  }

  /** The deck the generator returns for a positive cylinder count. */
  function TorusDeck(p: TorusParams, t: Trig): seq<Stmt>
    requires p.numCylinders > 0
  {
    var ids := CylIds(p.idCyl0, p.numCylinders);
    Cylinders(p, t) + [BoundingBox(p)] + Wedges(p.mixture, ids, RotateRight(ids))
      + [Media(0, BiasId, p.idBoundary, ids), Boundary(p.idBoundary)]
  }

  /** The generator itself. A zero count fails at `math.pi / num_cylinders`;
      a negative count runs the cylinder loop zero times and fails at
      `cyl_ids[-1]` on the empty id list. */
  method ApproximateTorus(p: TorusParams, t: Trig) returns (res: Result<seq<Stmt>>)
    ensures p.numCylinders == 0 ==> res == Err(ZeroDivisionError)
    ensures p.numCylinders < 0 ==> res == Err(IndexError)
    ensures p.numCylinders > 0 ==> res == Ok(TorusDeck(p, t))
  {
    var n := p.numCylinders;
    if n == 0 {
      return Err(ZeroDivisionError);
    }
    // side of the outer polygon
    var cylinderHeight := 2.0 * (p.majorRadius + p.minorRadius) * t.sin(t.pi / n as real);
    var deck, cylIds := AppendRing([], t, n, p.idCyl0, p.minorRadius, cylinderHeight,
                                   p.majorRadius, 0.0, 0.0, 0.0);

    // bounding box
    deck := deck + [Cuboid(p.idBoundary, p.majorRadius + 2.0 * p.minorRadius, 3.0 * p.minorRadius)];

    // mixtures
    if |cylIds| == 0 {
      return Err(IndexError);
    }
    var shiftedCylIds := RotateRight(cylIds);
    deck := AppendWedges(deck, p.mixture, cylIds, shiftedCylIds);

    deck := deck + [Media(0, BiasId, p.idBoundary, cylIds)];
    deck := deck + [Boundary(p.idBoundary)];
    assert cylinderHeight == CylinderHeight(p, t);
    assert cylIds == CylIds(p.idCyl0, n);
    assert deck == Cylinders(p, t) + [BoundingBox(p)] + Wedges(p.mixture, cylIds, shiftedCylIds)
                 + [Media(0, BiasId, p.idBoundary, cylIds), Boundary(p.idBoundary)];
    return Ok(deck);
  }

  /** The deck holds 2N + 3 statements: N cylinders, the cuboid, N wedge
      regions, the void region and the boundary, in that order. */
  lemma TorusStatementOrder(p: TorusParams, t: Trig)
    requires p.numCylinders > 0
    ensures var d, n := TorusDeck(p, t), p.numCylinders;
      |d| == 2 * n + 3 &&
      (forall j :: 0 <= j < |d| ==> (d[j].Cyl? <==> j < n)) &&
      (forall j :: 0 <= j < |d| ==> (d[j].Cuboid? <==> j == n)) &&
      (forall j :: 0 <= j < |d| ==> (d[j].Media? <==> n < j <= 2 * n + 1)) &&
      (forall j :: 0 <= j < |d| ==> (d[j].Boundary? <==> j == 2 * n + 2))
  {
    var d, n := TorusDeck(p, t), p.numCylinders;
    forall j | 0 <= j < |d|
      ensures (d[j].Cyl? <==> j < n) && (d[j].Cuboid? <==> j == n)
      ensures (d[j].Media? <==> n < j <= 2 * n + 1) && (d[j].Boundary? <==> j == 2 * n + 2)
    {
      DeckAt(p, t, j);
    }
  }

  /** Where each statement of the deck comes from, by position. */
  lemma DeckAt(p: TorusParams, t: Trig, j: int)
    requires p.numCylinders > 0
    requires 0 <= j < 2 * p.numCylinders + 3
    ensures var d, n, ids := TorusDeck(p, t), p.numCylinders, CylIds(p.idCyl0, p.numCylinders);
      |d| == 2 * n + 3 &&
      (j < n ==> d[j] == TorusCylinder(p, t, j)) &&
      (j == n ==> d[j] == BoundingBox(p)) &&
      (n < j <= 2 * n ==> d[j] == Media(p.mixture, BiasId, ids[j - n - 1], [RotateRight(ids)[j - n - 1]])) &&
      (j == 2 * n + 1 ==> d[j] == Media(0, BiasId, p.idBoundary, ids)) &&
      (j == 2 * n + 2 ==> d[j] == Boundary(p.idBoundary))
  {
  }

  /** Cylinder `i` carries shape id `idCyl0 + i + 1`; the cylinder ids are
      strictly increasing and so pairwise distinct. */
  lemma TorusCylinderIds(p: TorusParams, t: Trig)
    requires p.numCylinders > 0
    ensures var d := TorusDeck(p, t);
      (forall i :: 0 <= i < p.numCylinders ==> d[i].Cyl? && d[i].id == p.idCyl0 + i + 1) &&
      (forall i, j :: 0 <= i < j < p.numCylinders ==> d[i].id < d[j].id)
  {
    var d := TorusDeck(p, t);
    forall i | 0 <= i < p.numCylinders
      ensures d[i].Cyl? && d[i].id == p.idCyl0 + i + 1
    {
      DeckAt(p, t, i);
    }
  }

  /** Every cylinder has radius `minorRadius`, the same half-length
      `cylinder_height / 2` on both sides (`left == -right`), lies in the
      plane z = 0 on the ring of radius `majorRadius`, and is turned by
      `degrees(angle) - 90`. */
  lemma TorusCylinderShape(p: TorusParams, t: Trig)
    requires p.numCylinders > 0
    ensures var d, n := TorusDeck(p, t), p.numCylinders;
      forall i :: 0 <= i < n ==>
        d[i].Cyl? && d[i].r == p.minorRadius &&
        d[i].right == ChordLength(t, p.majorRadius, p.minorRadius, n) / 2.0 &&
        d[i].left == -d[i].right &&
        d[i].ox == p.majorRadius * t.cos(Angle(t, n, i)) &&
        d[i].oy == p.majorRadius * t.sin(Angle(t, n, i)) &&
        d[i].oz == 0.0 &&
        d[i].rot == t.degrees(Angle(t, n, i)) - 90.0
  {
    var d, n := TorusDeck(p, t), p.numCylinders;
    forall i | 0 <= i < n
      ensures d[i] == TorusCylinder(p, t, i)
    {
      DeckAt(p, t, i);
    }
  }

  /** Wedge `i` is mixture `mixture` inside cylinder `i` and outside its
      cyclic predecessor `(i - 1) mod N`. */
  lemma TorusWedges(p: TorusParams, t: Trig)
    requires p.numCylinders > 0
    ensures var d, n, ids := TorusDeck(p, t), p.numCylinders, CylIds(p.idCyl0, p.numCylinders);
      d[n + 1 .. 2 * n + 1] == Wedges(p.mixture, ids, RotateRight(ids)) &&
      forall i :: 0 <= i < n ==>
        d[n + 1 + i] == Media(p.mixture, BiasId, ids[i], [ids[Pred(i, n)]]) &&
        ids[Pred(i, n)] == p.idCyl0 + Pred(i, n) + 1
  {
  }

  /** Wedge `i` excludes cylinder `j` exactly when `j` is its cyclic
      predecessor. So a wedge excludes itself only when N = 1, and its
      cyclic successor only when N <= 2. */
  lemma TorusWedgeExclusions(mixture: int, idCyl0: int, n: nat)
    requires n > 0
    ensures var ids := CylIds(idCyl0, n); var w := Wedges(mixture, ids, RotateRight(ids));
      (forall i, j :: 0 <= i < n && 0 <= j < n ==> (ids[j] in w[i].negs <==> j == Pred(i, n))) &&
      (forall i :: 0 <= i < n ==> (ids[i] in w[i].negs <==> n == 1)) &&
      (forall i :: 0 <= i < n ==> (ids[Succ(i, n)] in w[i].negs <==> n <= 2))
  {
  }

  /** The void region is mixture 0 inside the cuboid and outside all N
      cylinders, listed in index order; the cuboid and the final boundary
      statement both use `idBoundary`. */
  lemma TorusVoidAndBoundary(p: TorusParams, t: Trig)
    requires p.numCylinders > 0
    ensures var d, n := TorusDeck(p, t), p.numCylinders;
      d[n] == Cuboid(p.idBoundary, p.majorRadius + 2.0 * p.minorRadius, 3.0 * p.minorRadius) &&
      d[2 * n + 1].Media? && d[2 * n + 1].mix == 0 && d[2 * n + 1].pos == p.idBoundary &&
      |d[2 * n + 1].negs| == n &&
      (forall i :: 0 <= i < n ==> d[i].Cyl? && d[2 * n + 1].negs[i] == d[i].id) &&
      d[2 * n + 2] == Boundary(p.idBoundary) && d[|d| - 1] == d[2 * n + 2]
  {
    var d, n := TorusDeck(p, t), p.numCylinders;
    DeckAt(p, t, n);
    DeckAt(p, t, 2 * n + 1);
    DeckAt(p, t, 2 * n + 2);
    TorusCylinderIds(p, t);
    CylIdsLayout(p.idCyl0, n);
  }

  /** Every shape id a region or the boundary statement mentions is declared
      by an earlier cylinder or cuboid statement. */
  lemma TorusDeclaredBeforeUse(p: TorusParams, t: Trig)
    requires p.numCylinders > 0
    ensures DeclaredBeforeUse(TorusDeck(p, t))
  {
    var d, n, ids := TorusDeck(p, t), p.numCylinders, CylIds(p.idCyl0, p.numCylinders);
    TorusStatementOrder(p, t);
    TorusCylinderIds(p, t);
    TorusWedges(p, t);
    TorusVoidAndBoundary(p, t);
    CylIdsLayout(p.idCyl0, n);
    forall j, id | 0 <= j < |d| && References(d[j], id)
      ensures exists k :: 0 <= k < j && Declares(d[k], id)
    {
      if d[j].Boundary? {
        assert Declares(d[n], id);
      } else if j == 2 * n + 1 {
        if id == p.idBoundary {
          assert Declares(d[n], id);
        } else {
          var m :| 0 <= m < n && d[j].negs[m] == id;
          assert Declares(d[m], id);
        }
      } else {
        var i := j - n - 1;
        if id == d[j].pos {
          assert Declares(d[i], id);
        } else {
          assert Declares(d[Pred(i, n)], id);
        }
      }
    }
  }

  /** The declared shape ids are pairwise distinct exactly when `idBoundary`
      lies outside `idCyl0 + 1 .. idCyl0 + N`; the generator does not check
      this. */
  lemma TorusShapeIdsDistinct(p: TorusParams, t: Trig)
    requires p.numCylinders > 0
    ensures ShapeIdsDistinct(TorusDeck(p, t)) <==>
            !(p.idCyl0 < p.idBoundary <= p.idCyl0 + p.numCylinders)
  {
    var d, n := TorusDeck(p, t), p.numCylinders;
    TorusStatementOrder(p, t);
    TorusCylinderIds(p, t);
    DeckAt(p, t, n);
    if p.idCyl0 < p.idBoundary <= p.idCyl0 + n {
      var j := p.idBoundary - p.idCyl0 - 1;
      assert d[j].id == d[n].id;
    }
  }
}
