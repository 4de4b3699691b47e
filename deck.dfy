/** Statements of a SCALE (CSAS6 / KENO-VI) geometry block, as both ring
    generators emit them, together with the pieces the two generators share:
    the list of consecutive shape ids, its cyclic right rotation, the cyclic
    predecessor of an index, and one ring cylinder. */
module Deck {

  /** The bias number that every generated `media` statement carries. */
  const BiasId: int := 1

  /** One geometry statement.
      - `Cyl`: `xcylinder id r right left origin x= y= z= rotate a1=rot`
      - `Cuboid`: `cuboid id 4p<halfW> 2p<halfH>`
      - `Media`: `media mix bias pos -negs[0] -negs[1] ...`; `negs` holds the
        ids of the shapes the region lies outside of (the `-` is their sign
        in the text form)
      - `Boundary`: `boundary id` */
  datatype Stmt =
    | Cyl(id: int, r: real, right: real, left: real, ox: real, oy: real, oz: real, rot: real)
    | Cuboid(id: int, halfW: real, halfH: real)
    | Media(mix: int, bias: int, pos: int, negs: seq<int>)
    | Boundary(id: int)

  /** The Python exceptions a generator can raise on a bad cylinder count. */
  datatype Failure = ZeroDivisionError | IndexError

  datatype Result<T> = Ok(value: T) | Err(failure: Failure)

  /** The values of `math.pi`, `math.sin`, `math.cos` and `math.degrees`.
      They are inputs of the model: nothing is assumed about them. */
  datatype Trig = Trig(pi: real, sin: real -> real, cos: real -> real, degrees: real -> real)

  /** Polar angle of slot `i` of `n`: `i * (2 pi / n)`. */
  function Angle(t: Trig, n: int, i: int): real
    requires n != 0
  {
    i as real * (2.0 * t.pi / n as real)
  }

  /** The chord of the circle of radius `major + minor` that subtends
      `2 pi / n`: `2 (major + minor) sin(pi / n)`. */
  function ChordLength(t: Trig, major: real, minor: real, n: int): real
    requires n != 0
  {
    2.0 * (major + minor) * t.sin(t.pi / n as real)
  }

  /** Cylinder `i` of a ring of `n`: axis tangent to the ring, half-length
      `height / 2` on both sides, centred on the ring of radius `major`
      shifted by `(x, y, z)`. */
  function RingCylinder(t: Trig, n: int, i: int, id: int, radius: real, height: real,
                        major: real, x: real, y: real, z: real): Stmt
    requires n != 0
  {
    var angle := Angle(t, n, i);
    Cyl(id, radius, height / 2.0, -height / 2.0,
        major * t.cos(angle) + x, major * t.sin(angle) + y, z, t.degrees(angle) - 90.0)
  }

  /** The first `count` cylinders of a ring, cylinder `i` with id
      `idBase + i + 1`. */
  function Ring(t: Trig, n: int, count: nat, idBase: int, radius: real, height: real,
                major: real, x: real, y: real, z: real): seq<Stmt>
    requires n != 0
  {
    seq(count, i => RingCylinder(t, n, i, idBase + i + 1, radius, height, major, x, y, z))
  }

  /** A generator's cylinder loop: `for i in range(n)` append cylinder `i` of
      the ring to the deck and its id `idBase + i + 1` to the id list. The
      range is empty when `n` is negative. */
  method AppendRing(deck: seq<Stmt>, t: Trig, n: int, idBase: int, radius: real, height: real,
                    major: real, x: real, y: real, z: real)
    returns (out: seq<Stmt>, ids: seq<int>)
    requires n != 0
    ensures var count := if n < 0 then 0 else n;
      ids == CylIds(idBase, count) &&
      out == deck + Ring(t, n, count, idBase, radius, height, major, x, y, z)
  {
    var count: nat := if n < 0 then 0 else n;
    out, ids := deck, [];
    var i := 0;
    while i < count
      invariant 0 <= i <= count
      invariant ids == CylIds(idBase, i)
      invariant out == deck + Ring(t, n, i, idBase, radius, height, major, x, y, z)
    {
      var angle := i as real * (2.0 * t.pi / n as real);
      var left := -height / 2.0;
      var right := height / 2.0;
      var originX := major * t.cos(angle) + x;
      var originY := major * t.sin(angle) + y;
      var originZ := z;
      var angleDeg := t.degrees(angle) - 90.0;
      var shapeId := idBase + i + 1;
      RingCylinderUnfold(t, n, i, shapeId, radius, height, major, x, y, z, angle);
      RingSnoc(t, n, i, idBase, radius, height, major, x, y, z);
      CylIdsSnoc(idBase, i);
      out := out + [Cyl(shapeId, radius, right, left, originX, originY, originZ, angleDeg)];
      ids := ids + [shapeId];
      i := i + 1;
    }
  }

  lemma RingSnoc(t: Trig, n: int, count: nat, idBase: int, radius: real, height: real,
                 major: real, x: real, y: real, z: real)
    requires n != 0
    ensures Ring(t, n, count + 1, idBase, radius, height, major, x, y, z)
         == Ring(t, n, count, idBase, radius, height, major, x, y, z)
            + [RingCylinder(t, n, count, idBase + count + 1, radius, height, major, x, y, z)]
  {
  }

  /** Not a property: this unfolds the definition of `RingCylinder` into the
      form in which the cylinder loop computes it, so that the proof of
      `AppendRing` stays small. */
  lemma RingCylinderUnfold(t: Trig, n: int, i: int, id: int, radius: real, height: real,
                           major: real, x: real, y: real, z: real, angle: real)
    requires n != 0 && angle == i as real * (2.0 * t.pi / n as real)
    ensures RingCylinder(t, n, i, id, radius, height, major, x, y, z) ==
      Cyl(id, radius, height / 2.0, -height / 2.0,
          major * t.cos(angle) + x, major * t.sin(angle) + y, z, t.degrees(angle) - 90.0)
  {
    assert Angle(t, n, i) == angle;
    var c := RingCylinder(t, n, i, id, radius, height, major, x, y, z);
    assert c.ox == major * t.cos(angle) + x;
    assert c.oy == major * t.sin(angle) + y;
    assert c.rot == t.degrees(angle) - 90.0;
  }

  /** The ids `start + 1 .. start + n`, entry `i` being `start + i + 1`. */
  function CylIds(start: int, n: nat): (ids: seq<int>)
    ensures |ids| == n
  {
    seq(n, i => start + i + 1)
  }

  lemma CylIdsAt(start: int, n: nat, i: int)
    requires 0 <= i < n
    ensures CylIds(start, n)[i] == start + i + 1
  {
  }

  /** One more iteration of a generator's cylinder loop appends the next id. */
  lemma CylIdsSnoc(start: int, n: nat)
    ensures CylIds(start, n + 1) == CylIds(start, n) + [start + n + 1]
  {
  }

  /** The ids are strictly increasing, hence pairwise distinct, and they
      are exactly the integers in `start + 1 .. start + n`. */
  lemma CylIdsLayout(start: int, n: nat)
    ensures forall i, j :: 0 <= i < j < n ==> CylIds(start, n)[i] < CylIds(start, n)[j]
    ensures forall id :: id in CylIds(start, n) <==> start < id <= start + n
  {
    forall id | start < id <= start + n
      ensures id in CylIds(start, n)
    {
      assert CylIds(start, n)[id - start - 1] == id;
    }
  }

  /** The ids of a first ring of `a` followed by those of a second ring
      numbered on from `start + a` are the ids of one list of `a + b`. */
  lemma CylIdsAppend(start: int, a: nat, b: nat)
    ensures CylIds(start, a) + CylIds(start + a, b) == CylIds(start, a + b)
  {
  }

  /** Cyclic predecessor of slot `i` among `n`. */
  function Pred(i: int, n: int): (k: int)
    requires 0 <= i < n
    ensures 0 <= k < n
  {
    if i == 0 then n - 1 else i - 1
  }

  /** Cyclic successor of slot `i` among `n`. */
  function Succ(i: int, n: int): (k: int)
    requires 0 <= i < n
    ensures 0 <= k < n && Pred(k, n) == i
  {
    if i == n - 1 then 0 else i + 1
  }

  /** The index-level reason for the special cases in the wedge exclusion
      lemmas (`Torus.TorusWedgeExclusions`, `ToroidalPipe.PipeWallExclusions`).
      A slot is its own predecessor only in a ring of one, and its
      predecessor is also its successor only in a ring of at most two. */
  lemma PredSuccCoincide(i: int, n: int)
    requires 0 <= i < n
    ensures Pred(i, n) == i <==> n == 1
    ensures Succ(i, n) == Pred(i, n) <==> n <= 2
  {
  }

  /** `[s[-1]] + s[:-1]`: the last element moved to the front. */
  function RotateRight<T>(s: seq<T>): (r: seq<T>)
    requires |s| > 0
    ensures |r| == |s|
  {
    [s[|s| - 1]] + s[..|s| - 1]
  }

  /** Slot `i` of the rotated list holds the cyclic predecessor's entry. */
  lemma RotateRightAt<T>(s: seq<T>, i: int)
    requires 0 <= i < |s|
    ensures RotateRight(s)[i] == s[Pred(i, |s|)]
  {
  }

  /** The rotated list is a permutation of the original. */
  lemma RotateRightPermutation<T>(s: seq<T>)
    requires |s| > 0
    ensures multiset(RotateRight(s)) == multiset(s)
  {
    var k := |s| - 1;
    assert s == s[..k] + [s[k]];
    calc {
      multiset(RotateRight(s));
      multiset([s[k]]) + multiset(s[..k]);
      multiset(s[..k] + [s[k]]);
    }
  }

  /** `s` introduces shape `id` (a cylinder or the bounding cuboid). */
  predicate Declares(s: Stmt, id: int)
  {
    (s.Cyl? || s.Cuboid?) && s.id == id
  }

  /** `s` mentions shape `id` without introducing it. */
  predicate References(s: Stmt, id: int)
  {
    (s.Media? && (id == s.pos || id in s.negs)) || (s.Boundary? && s.id == id)
  }

  /** Every shape a statement refers to was declared by an earlier statement. */
  ghost predicate DeclaredBeforeUse(d: seq<Stmt>)
  {
    forall j, id :: 0 <= j < |d| && References(d[j], id) ==>
      exists k :: 0 <= k < j && Declares(d[k], id)
  }

  /** No two declaring statements use the same shape id. */
  predicate ShapeIdsDistinct(d: seq<Stmt>)
  {
    forall j, k :: 0 <= j < k < |d| && (d[j].Cyl? || d[j].Cuboid?) && (d[k].Cyl? || d[k].Cuboid?) ==>
      d[j].id != d[k].id
  }
}
