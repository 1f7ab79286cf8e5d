# Chaos game, modelled in Dafny

`chaosgame.py` plays the chaos game. A current point starts at the origin.
Each step:

1. picks one of `num_targets` vertices on the unit circle;
2. picks a `Transformation` (a scale, a rotation and a selection weight);
3. moves the current point toward the vertex by that transformation.

Every point it reaches is then coloured by blending four corner colours by
position.

There are four game classes:

- `ChaosGame` picks the vertex uniformly at random and the transformation by
  weight.
- `ChaosGameHistExc` forbids vertices at listed offsets from the latest
  vertex. The offsets are packed into a bit mask, rotated with `lcyc`.
- `ChaosGameHistExc2` applies that mask only after the same vertex was chosen
  twice in a row.
- `ChaosGameTargetTransform` uses, for each vertex, the transformation of the
  same index.

The model has one module per concern:

- `Bits`: Python's `|`, `&`, `<<`, `>>` and `2**i` on non-negative integers,
  with their bit-level laws.
- `Exclusion`:
  - `lcyc`, proved to be a rotation of an N-bit word;
  - the exclusion mask, an arithmetic sum of powers of two, compared with the
    set mask (the OR);
  - the list of available vertices, exactly the clear bits in ascending
    order.
- `Geometry`: points, `Transformation` and `transform`, with its contraction
  properties.
- `Coloring`: the corner blend of `generate_points`, its bound and its value
  at the corners and at the origin.
- `Selection`: `choose_vertex` of every class and both kinds of
  `choose_transform`, as functions of the history and of the step's random
  draw, and the two subclass constructors, which turn an offset list into a
  mask (`HistExcOf`, `HistExc2Of`).
- `Game`:
  - the class `ChaosGame`, whose fields `points`, `colors` and `verts` are
    updated in place by `generate_points` and its loops;
  - the trace predicates that say what a batch computed.

The four Python classes are one Dafny class whose `variant` field says which
`choose_vertex` and `choose_transform` apply (`Selection.Variant`).

### Draws and failures

Randomness is a parameter. Each pass of the point loop receives:

- a vertex draw `u` in [0, 1), turned into `randint(0, m - 1)` as floor(u·m);
- a transformation draw `p`, the value `random()` would return.

Python raises an exception when a choice is impossible:

- `randint(0, -1)` raises `ValueError` when no vertex is available;
- with non-negative weights, the weighted walk falls off the end when the
  weights sum to at most `p`, and `None.transform` raises `AttributeError`
  (a negative weight can let it return earlier, as line 67 tests each
  running remainder);
- in the model of `ChaosGameTargetTransform`, the lookup by vertex index fails
  when there is no transformation for the vertex, where a list index raises
  `IndexError`. As written, line 83 passes the vertex's coordinate tuple and
  line 140 raises `TypeError` on every step; see `Selection.SelectTransform`
  under "## Left out".

The model returns an `Outcome` instead. It leaves the state as the exception
leaves it: the points appended so far are kept, the history holds the slides
already done, and the colour list stays empty.

`GeneratePoints` is proved against the trace predicates of `Game`. Its
guarantees:

- the batch keeps only the last point of the previous batch, as its first
  point;
- a completed batch of n passes has n + 1 points and one colour per point;
- each vertex is the selector's answer to its draw, given the vertices chosen
  before it in the batch;
- each transformation is the answer of `choose_transform` for its draw and
  its vertex;
- each point is the previous point transformed toward the chosen vertex;
- the history is the last three chosen vertices, padded with the initial
  zeros;
- a failed batch records the choice that failed.

### Where the code and its documentation differ

The code is followed in each case.

- The history `verts` restarts at `[0, 0, 0]` in every call of
  `generate_points` (line 78); it is not carried over from the previous batch.
- Per the comment at line 151, `coloring` lists top-left, top-right,
  bottom-left, bottom-right. The formula at lines 89-90 gives entry 0 at
  (1, -1), entry 1 at (1, 1), entry 2 at (-1, -1) and entry 3 at (-1, 1).
  `Coloring.CornerColors` states the formula's placement.
- `hist_len` is described as the length of history to consider. The loop at
  lines 112-113 ORs the same rotation once per history entry, so every
  `hist_len` that leaves the slice non-empty gives the same mask
  (`Selection.HistLenNoEffect`).

## Model

| member | source | states |
|---|---|---|
| Bits.Or | chaosgame.py:14 | Python's bitwise or on non-negative integers: at least each operand and at most their sum; its bits are given by `Bits.BitOr` |
| Bits.And | chaosgame.py:14 | Python's bitwise and: at most each operand; its bits are given by `Bits.BitAnd` |
| Bits.Shl | chaosgame.py:14 | Python `n << k` is n · 2^k |
| Bits.Shr | chaosgame.py:14 | Python `n >> k` is the floor of n / 2^k |
| Exclusion.Lcyc | chaosgame.py:13-14 | `lcyc` always returns an N-bit word, whatever the width of n; `LcycBit` and `LcycRotates` give its bits |
| Exclusion.LcycBit | chaosgame.py:13-14 | for any n and k <= N, bit j of `lcyc(N, n, k)` is set iff j < N and bit j + N - k of n is set, or k <= j and bit j - k is set |
| Exclusion.LcycRotates | chaosgame.py:13-14 | on an N-bit word and k < N, `lcyc` returns an N-bit word in which bit (i + k) mod N equals bit i of the input: a left rotation |
| Exclusion.LcycOne | chaosgame.py:13-14 | rotating the single bit 0 by v < N gives exactly 2^v |
| Exclusion.ExclusionMask | chaosgame.py:107 | `sum(2**i for i in excluded)` is never below the OR mask of the same list |
| Exclusion.SetMaskBits | chaosgame.py:107 | the reference OR mask of an offset list has bit i set iff i is in the list |
| Exclusion.ExclusionMaskDistinct | chaosgame.py:107 | for a list without repeated offsets, the sum mask equals the OR mask, and its set bits are exactly the listed offsets |
| Exclusion.ExclusionMaskRepeated | chaosgame.py:107 | a list with a repeated offset gives a sum strictly above its OR mask |
| Exclusion.ExclusionMaskIsSetMask | chaosgame.py:107 | the sum mask equals the OR mask if and only if no offset is repeated |
| Exclusion.ExclusionMaskWidth | chaosgame.py:107 | distinct offsets below N give a mask below 2^N |
| Exclusion.DefaultMask | chaosgame.py:104-107 | the default `excluded=[0,0,0,0,0,0]` sums to 6 (bits 1 and 2), while its OR mask is 1: duplicates are counted, not merged |
| Exclusion.ExclusionMask2 | chaosgame.py:124 | the `ChaosGameHistExc2` mask is the same sum, and an empty list gives 0 |
| Exclusion.Avail | chaosgame.py:115 | the comprehension lists only vertex indices below N; `AvailSpec` gives exactly which |
| Exclusion.AvailSpec | chaosgame.py:115 | `verts_avail` holds exactly the indices below N whose mask bit is clear, in strictly ascending order |
| Exclusion.AvailAfter | chaosgame.py:110-117 | after vertex v, with distinct offsets below N, the vertex i places on, (i + v) mod N, is available iff i is not a listed offset |
| Exclusion.ExclusionExcludes | chaosgame.py:110-117 | after vertex v, no vertex (v + o) mod N for a listed offset o is available |
| Exclusion.ExclusionAdmits | chaosgame.py:110-117 | after vertex v, every vertex that is no listed offset away from v is available |
| Exclusion.RepeatScenario | chaosgame.py:126-130 | six vertices, `excluded=[0]`, previous vertex 2: the available list is [0, 1, 3, 4, 5] |
| Selection.HistExcOf | chaosgame.py:104-108 | the `ChaosGameHistExc` constructor keeps `hist_len` and a mask that equals the OR mask of the offsets iff none is repeated |
| Selection.HistExc2Of | chaosgame.py:121-124 | the `ChaosGameHistExc2` constructor's mask equals the OR mask iff no offset is repeated, and is 0 for the empty list |
| Selection.DefaultVariants | chaosgame.py:104-124 | the defaults give `ChaosGameHistExc` with `hist_len` 1 and mask 6 and `ChaosGameHistExc2` with mask 0; the script's `excluded=[1, 3, 5]` gives mask 42 |
| Selection.RandInt | chaosgame.py:72 | `randint(0, m - 1)` fails iff m = 0; otherwise it picks an index below m |
| Selection.RandIntOnto | chaosgame.py:72 | every index below m is the result of some draw in [0, 1) |
| Selection.SliceStart | chaosgame.py:112 | Python's slice start: a non-negative start is kept up to the length, a negative start counts from the end, and the result is clamped to [0, len] |
| Selection.HistExcMask | chaosgame.py:111-113 | the accumulated mask is an N-bit word; `HistLenNoEffect` says which |
| Selection.HistLenNoEffect | chaosgame.py:111-113 | when `hist_len > -3` the accumulated mask is the single rotation by the latest vertex; otherwise the slice is empty and the mask is 0 |
| Selection.PickFrom | chaosgame.py:117 | `verts_avail[randint(...)]` fails iff the list is empty, and otherwise returns a member of it |
| Selection.SelectVertex | chaosgame.py:126-132 | `choose_vertex` of each class (also lines 71-72 and 110-117) returns, when it succeeds, a vertex index below N |
| Selection.SelectVertexExcludes | chaosgame.py:115-117 | the chosen vertex is never masked, and the choice fails iff every vertex below N is masked; `ChaosGameHistExc2` masks only when the last two history entries are equal |
| Selection.SelectVertexReachable | chaosgame.py:126-132 | every unmasked vertex is chosen by some draw, so the possible choices are exactly the unmasked vertices |
| Selection.FirstCovering | chaosgame.py:64-69 | the weighted walk returns an index whose prefix sum of weights exceeds p, and every earlier prefix sum is at most p |
| Selection.FirstCoveringStable | chaosgame.py:66-68 | once the walk has found an index, further transformations do not change the answer |
| Selection.WeightedChoiceNone | chaosgame.py:64-69 | with non-negative weights and p >= 0, the walk finds nothing iff p is at least the total weight |
| Selection.WeightedChoiceTotal | chaosgame.py:148 | non-negative weights summing to 1 always give a transformation for p in [0, 1) |
| Selection.SelectTransform | chaosgame.py:139-140 | for `ChaosGameTargetTransform` the transformation is the chosen vertex's own index, and it fails iff that index is past the list; the result is always a valid index |
| Selection.Window | chaosgame.py:78-81 | the history after a batch's choices has three entries, the last being the latest vertex |
| Selection.WindowIsTail | chaosgame.py:78-81 | that history is the last three entries of `[0, 0, 0]` followed by the choices |
| Selection.WindowSlide | chaosgame.py:81 | one more choice drops the oldest history entry and appends the new vertex |
| Selection.FirstChoiceOfBatch | chaosgame.py:126-130 | the reset history makes the first `ChaosGameHistExc2` choice of a batch apply the mask rotated to vertex 0 |
| Geometry.Transform | chaosgame.py:22-31 | a point transformed toward itself stays put; `TransformWithoutRotation` and `TransformDistance` give the contraction |
| Geometry.TransformWithoutRotation | chaosgame.py:22-31 | with rotation 0, `transform` moves p1 the fraction `scale` of the way to p2, and its squared distance to p2 shrinks by (1 - scale)^2 |
| Geometry.TransformDistance | chaosgame.py:22-31 | for any rotation, the new point lies at `scale` times the distance p1–p2 from p1 |
| Geometry.TransformScenario | chaosgame.py:17-31 | scale 0.5 without rotation takes (0, 0) toward (1, 0) to (0.5, 0) |
| Coloring.Channel | chaosgame.py:88-91 | one channel of the blend: four equal corner values give that value divided by 256 at every point; `ChannelBound` gives its range |
| Coloring.PointColor | chaosgame.py:86-93 | four equal corners colour every point with that corner divided by 256; `ColorBound`, `CornerColors` and `OriginColor` give the rest |
| Coloring.ColorBound | chaosgame.py:86-92 | for a point in [-1, 1]^2 and byte-valued corners, every channel lies in [0, 255/256] |
| Coloring.CornerColors | chaosgame.py:86-92 | at the four corners of the square, the colour is one corner entry divided by 256 (placement as in the formula) |
| Coloring.OriginColor | chaosgame.py:86-92 | the origin with the default corners gets (127.5, 127.5, 63.75) / 256 |
| Game.Slide | chaosgame.py:81 | `verts[1:] + [vert]` keeps the last two history entries and appends the new vertex |
| Game.StepState | chaosgame.py:81-84 | one pass keeps the earlier points, adds one point exactly when it completes, and records a vertex exactly when one was found |
| Game.ShapedStep | chaosgame.py:80-84 | one pass keeps the batch's shape: one vertex and transformation per completed pass, one more point than transformations, history = window of the choices |
| Game.VerticesStep | chaosgame.py:81 | one pass keeps every recorded vertex the selector's answer to its draw, and records the draw that found no vertex |
| Game.TransformsStep | chaosgame.py:83 | one pass keeps every recorded transformation the answer of `choose_transform` for its draw and vertex, and records the failing one |
| Game.WalkStep | chaosgame.py:82-84 | one pass keeps every point the transform of its predecessor toward its vertex |
| Game.ChaosGame.constructor | chaosgame.py:61-62 | a new game holds the single point (0, 0) and no colours |
| Game.ChaosGame.HistoryExclusion | chaosgame.py:111-113 | the OR loop over `verts[-hist_len:]` yields the rotation by the latest vertex for any positive `hist_len` |
| Game.ChaosGame.ChooseVertex | chaosgame.py:110-117 | agrees with `Selection.SelectVertex` for the game's class and history |
| Game.ChaosGame.ChooseTransform | chaosgame.py:64-69 | the loop subtracting weights from p agrees with the first-covering index (or the vertex's own index for `ChaosGameTargetTransform`) |
| Game.ChaosGame.Step | chaosgame.py:81-84 | one pass updates points and history exactly as the step function says, including the partial update of a failed choice |
| Game.ChaosGame.RunSteps | chaosgame.py:80-84 | the point loop leaves a shaped batch in which vertices, transformations and points are the recorded choices and walk |
| Game.ChaosGame.ColorPoints | chaosgame.py:86-95 | one colour per point, in order, each the corner blend of its point |
| Game.ChaosGame.GeneratePoints | chaosgame.py:74-95 | keeps the last point as the first point, restarts the history, takes n passes as above, and colours every point iff the batch completed |

## Left out

- Drawing with matplotlib (figure, scatter, `draw`, `pause`) and the `draw` flag: output only.
- The interactive `input()` loop and the module-level script (lines 143-167): I/O.
- `quality` and `point_size`: they only size the plotted dots.
- Placing the vertices with `cos`/`sin` (line 59): the vertices are a constructor parameter and `num_targets` is their count, because the reals have no trigonometry.
- `Transformation.rotation`: a transformation holds its cosine and sine in place of the angle, for the same reason.
- The random number generator: each pass receives its draws as parameters. `randint` is floor(u·m) of a draw u in [0, 1), and `random()` is the draw p itself.
- Floating point: coordinates, weights and colours are exact reals, so rounding is not modelled.
- Coloring.Corners: holds exactly four corners; Python indexes entries 0-3 of any longer list. The bound lemma assumes integer byte values, though Python would accept floats.
- Exclusion.ExclusionMask: offsets are non-negative; a negative offset would make Python's `2**i` a float.
- Selection.SelectTransform: for `ChaosGameTargetTransform` it looks the transformation up by the chosen vertex's index. This is a deliberate deviation: line 83 passes the vertex's coordinate tuple, and indexing a list with a tuple raises `TypeError`, so the class as written fails on its first step.
- Game.ChaosGame.constructor: also sets the history to `[0, 0, 0]`, which Python's `__init__` leaves unset until line 78; every read of the history follows that line.
- Game.ChaosGame.ChooseTransform: returns the index of the chosen transformation rather than the object, so that the trace can name it.
