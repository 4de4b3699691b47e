# SCALE torus and toroidal-pipe deck generators, modelled in Dafny

The repository has two Python generators. Each writes the geometry block of a
SCALE (CSAS6 / KENO-VI) input deck and approximates a torus by a ring of N
`xcylinder` shapes:

- `SCALE_approximate_torus` emits these statements, in order:
  - N cylinders with consecutive shape ids;
  - a bounding `cuboid`;
  - N `media` wedges. Wedge i is inside cylinder i and outside its cyclic
    predecessor, which is found through a right-rotated copy of the id list;
  - a void `media` inside the cuboid and outside every cylinder;
  - `boundary`.
- `SCALE_approximate_toroidal_pipe` does the same with two rings, an inner
  bore and an outer wall, moved to an origin `(X, Y, Z)`.
  - Both rings use the one chord length, computed from the inner radius.
  - Each wedge holds an inside region and a wall region.

The model keeps the statements as values of the datatype `Deck.Stmt`: `Cyl`,
`Cuboid`, `Media` and `Boundary`. A `Media` holds:

- the mixture;
- the bias number `1`;
- the shape it lies inside;
- the list of shapes it lies outside of. The `-` sign of the text form is not
  stored.

The model has three modules:

- `Deck`: the statement datatype and the parts both generators share:
  - the cylinder loop (`AppendRing`), proved against `Ring`;
  - the id list `CylIds`;
  - the cyclic shift `RotateRight`, which stands for `[ids[-1]] + ids[:-1]`;
  - the cyclic predecessor `Pred`;
  - the predicates "declared before use" and "shape ids distinct".
- `Torus` and `ToroidalPipe`, one per generator. Each generator is a
  straight-line method that calls one helper method per Python loop. The
  torus calls `AppendRing` once and then `AppendWedges`. The pipe calls
  `AppendRing` once per ring, then `AppendInnerWedges` and
  `AppendWallWedges`. Each helper's `while` loop appends to `seq`s and is
  proved against a specification function. Then:
  - the generator's `ensures` says its result is `Ok(TorusDeck(p, t))` or
    `Ok(PipeDeck(p, t))`;
  - the lemmas state the layout of that deck.

Each generator's error paths follow Python's behaviour:

- A cylinder count of 0 raises `ZeroDivisionError` at `math.pi / num_cylinders`.
- For a negative count, `range` is empty, so the cylinder loops run zero
  times (one loop in the torus, two in the pipe). The cuboid is appended,
  and then indexing `[-1]` of the empty id list raises `IndexError`, before
  any region loop is reached.
- Counts 1 and 2 produce a deck.

The model takes the values of `math.pi`, `math.sin`, `math.cos` and
`math.degrees` as an input (`Deck.Trig`) and assumes nothing about them.

The model follows the code, not the intended input range:

- The intended range is N ≥ 3, with no failures. The code fails for N ≤ 0,
  as above, and accepts N = 1 and N = 2.
- It is tempting to say that wedge 0 never excludes wedge 1. At N = 2 it
  does, because wedge 1 is then its predecessor.
  `Torus.TorusWedgeExclusions` proves the exact condition: a wedge excludes
  its successor iff N ≤ 2, and excludes itself iff N = 1.

## Model

| member | source | states |
|---|---|---|
| Deck.AppendRing | torus_in_SCALE.py:24-36 | The cylinder loop, as both generators run it: for `i` in `range(n)` it appends cylinder `i` of the ring and its id `idBase + i + 1`. The range is empty for negative `n`. The result is the input deck followed by `Ring(...)`, and the ids are `CylIds(idBase, count)`. |
| Deck.CylIdsLayout | torus_in_SCALE.py:33-36 | The ids are strictly increasing, hence pairwise distinct. An integer is among them iff it lies in `start + 1 .. start + n`. |
| Deck.CylIdsAppend | toroidial_pipe_in_SCALE.py:37-55 | The inner ids followed by the outer ids, numbered on from `start + n`, form the single list `start + 1 .. start + 2n`. |
| Deck.RotateRightAt | torus_in_SCALE.py:43 | Slot `i` of `[s[-1]] + s[:-1]` holds `s[Pred(i)]`: slot 0 holds `s[n-1]`, and slot `i ≥ 1` holds `s[i-1]`. |
| Deck.RotateRightPermutation | torus_in_SCALE.py:43 | The shifted list is a permutation of the id list. |
| Deck.PredSuccCoincide | torus_in_SCALE.py:43-45 | A slot is its own cyclic predecessor iff n = 1. Its predecessor is also its successor iff n ≤ 2. |
| Torus.AppendWedges | torus_in_SCALE.py:44-45 | The wedge loop appends exactly the wedges `Media(mixture, 1, ids[i], [shifted[i]])`, in index order. |
| Torus.ApproximateTorus | torus_in_SCALE.py:9-51 | N = 0 gives `ZeroDivisionError`. N < 0 gives `IndexError`. N > 0 returns the deck `TorusDeck`. |
| Torus.TorusStatementOrder | torus_in_SCALE.py:24-49 | The deck has 2N + 3 statements. Positions 0..N-1 are cylinders, N is the cuboid, N+1..2N+1 are media (the wedges, then the void) and 2N+2 is the boundary. Each kind occurs exactly there. |
| Torus.TorusCylinderIds | torus_in_SCALE.py:33-36 | Cylinder `i` has id `id_cyl0 + i + 1`. The cylinder ids are strictly increasing. |
| Torus.TorusCylinderShape | torus_in_SCALE.py:22-34 | Every cylinder has radius `minor_radius`, `right = cylinder_height / 2` and `left = -right`. It lies in the plane z = 0 at `(R cos a, R sin a)` and is rotated `degrees(a) - 90`, where `a` is the slot's angle. |
| Torus.TorusWedges | torus_in_SCALE.py:43-45 | Wedge `i` is `Media(mixture, 1, ids[i], [ids[(i-1) mod N]])`. |
| Torus.TorusWedgeExclusions | torus_in_SCALE.py:43-45 | Wedge `i` excludes cylinder `j` iff `j` is the cyclic predecessor of `i`. It excludes itself iff N = 1 and its successor iff N ≤ 2. |
| Torus.TorusVoidAndBoundary | torus_in_SCALE.py:39-49 | The cuboid has id `id_boundary` and half-sizes `R + 2r` and `3r`. The void is mixture 0 inside `id_boundary` and outside all N cylinder ids, in index order. The last statement is `boundary id_boundary`. |
| Torus.TorusDeclaredBeforeUse | torus_in_SCALE.py:24-49 | Every id a `media` or `boundary` statement mentions is declared by an earlier cylinder or cuboid. |
| Torus.TorusShapeIdsDistinct | torus_in_SCALE.py:33-40 | The declared ids are pairwise distinct iff `id_boundary` lies outside `id_cyl0 + 1 .. id_cyl0 + N`. |
| ToroidalPipe.AppendInnerWedges | toroidial_pipe_in_SCALE.py:65-66 | The inside-region loop appends exactly `Media(mixture_inside, 1, inner[i], [shiftedInner[i], shiftedOuter[i]])`, in index order. |
| ToroidalPipe.AppendWallWedges | toroidial_pipe_in_SCALE.py:69-70 | The wall-region loop appends exactly `Media(mixture_wall, 1, outer[i], [shiftedOuter[i], inner[i]])`, in index order. |
| ToroidalPipe.ApproximateToroidalPipe | toroidial_pipe_in_SCALE.py:9-78 | N = 0 gives `ZeroDivisionError`. N < 0 gives `IndexError`. N > 0 returns the deck `PipeDeck`. |
| ToroidalPipe.PipeStatementOrder | toroidial_pipe_in_SCALE.py:28-76 | The deck has 4N + 3 statements. Positions 0..2N-1 are cylinders (inner ring, then outer ring), 2N is the cuboid, 2N+1..4N+1 are media (inside, wall, void) and 4N+2 is the boundary. |
| ToroidalPipe.PipeCylinderIds | toroidial_pipe_in_SCALE.py:37-55 | Statement `k < 2N` is a cylinder with id `id_start + k + 1`. Inner `i` therefore has `id_start + i + 1` and outer `i` has `id_start + N + i + 1`. The 2N ids are strictly increasing, and no inner id equals an outer id. |
| ToroidalPipe.PipeRingsAligned | toroidial_pipe_in_SCALE.py:26-53 | Inner cylinder `i` has radius `minor_radius_inside`, `right = chord(R, r_inside) / 2` and `left = -right`. Outer cylinder `i` is inner cylinder `i` with only its id and radius (`minor_radius_outside`) changed. |
| ToroidalPipe.PipeOriginOffset | toroidial_pipe_in_SCALE.py:32-49 | Inner and outer cylinder `i` are both centred at `(R cos a + X, R sin a + Y, Z)` and rotated `degrees(a) - 90`, where `a` is slot `i`'s angle. |
| ToroidalPipe.PipeInnerWedges | toroidial_pipe_in_SCALE.py:62-66 | Inside region `i` is `Media(mixture_inside, 1, inner[i], [inner[pred i], outer[pred i]])`. |
| ToroidalPipe.PipeInnerExclusions | toroidial_pipe_in_SCALE.py:62-66 | Inside region `i` excludes inner cylinder `j` iff `j = pred i`, and outer cylinder `j` iff `j = pred i`. |
| ToroidalPipe.PipeWallWedges | toroidial_pipe_in_SCALE.py:69-70 | Wall region `i` is `Media(mixture_wall, 1, outer[i], [outer[pred i], inner[i]])`. |
| ToroidalPipe.PipeWallExclusions | toroidial_pipe_in_SCALE.py:69-71 | Wall region `i` excludes outer cylinder `j` iff `j = pred i`, and inner cylinder `j` iff `j = i`. It therefore excludes `inner[pred i]` only when N = 1. |
| ToroidalPipe.PipeVoidAndBoundary | toroidial_pipe_in_SCALE.py:58-76 | The cuboid has id `id_boundary` and half-sizes `R + 2 r_outside` and `3 r_outside`. The void is mixture 0 inside it and outside all inner ids, then all outer ids, each group in index order. The last statement is `boundary id_boundary`. |
| ToroidalPipe.PipeDeclaredBeforeUse | toroidial_pipe_in_SCALE.py:28-76 | Every id that a region or the boundary mentions is declared by an earlier cylinder or cuboid. |
| ToroidalPipe.PipeShapeIdsDistinct | toroidial_pipe_in_SCALE.py:37-59 | The declared ids are pairwise distinct iff `id_boundary` lies outside `id_start + 1 .. id_start + 2N`. |

## Left out

- Text rendering: the f-strings and `" ".join` are not modelled.
  - Statements are structured values.
  - The bias number is kept as `BiasId = 1`.
  - The `-` before each excluded id is implied, not stored. A negative id would
    print as `--k` in the source.
  - The spacing differences between the two void lines are not modelled.
  - Python's float formatting is not modelled.
- Floating point: all numbers are exact reals.
  - `major_radius * math.cos(angle)` in the torus is written as
    `major * cos(angle) + 0.0`. These are equal on reals, but on floats the
    shared form would turn a `-0.0` into `0.0`.
  - Rounding in the angle and chord computations is not modelled.
- Trigonometry: `math.pi`, `sin`, `cos` and `degrees` are opaque inputs. The
  following are not claimed:
  - geometric correctness of the approximation (no gaps, no overlaps, error
    size);
  - that `cylinder_height` is positive;
  - that the rotation equals `i * 360 / N - 90`.
- The example drivers, the header and footer templates and the `print` loops
  (torus_in_SCALE.py:54-86, toroidial_pipe_in_SCALE.py:80-120) are input and
  output of fixed text.
- Torus.TorusShapeIdsDistinct and ToroidalPipe.PipeShapeIdsDistinct: the code
  does not keep `id_boundary` away from the cylinder ids. So distinctness is
  stated as an iff on `id_boundary`, not as a guarantee.
- Python's own exceptions are modelled only on the `ZeroDivisionError` and
  `IndexError` paths above. Two other failures are not modelled:
  - `OverflowError` when an int argument is too large for a float. For
    example, `num_cylinders = 10**400` fails at `math.pi / num_cylinders`
    (torus_in_SCALE.py:22, toroidial_pipe_in_SCALE.py:26), and so does a
    radius of that size at `2.0 * (major_radius + ...)` on the same lines.
    For such arguments the model returns `Ok(...)`, or `Err(IndexError)`
    when N is negative, or `Err(ZeroDivisionError)` when N is 0. A huge int
    radius with N = 0 overflows first, because Python evaluates
    `2.0 * (major_radius + ...)` before `math.pi / num_cylinders`.
  - running out of memory for a huge N.
- The shipped wall region (toroidial_pipe_in_SCALE.py:70) is modelled. The
  commented-out alternative on line 71 is not; it would also exclude
  `inner[pred i]`.
