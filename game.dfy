/** The game object: `ChaosGame` and its three subclasses, with the point and
    colour lists and the vertex history as fields updated in place. */
module Game {
  import opened Wrappers
  import opened Bits
  import opened Exclusion
  import opened Geometry
  import opened Coloring
  import opened Selection

  /** How a batch ended: all steps done, or the step whose choice failed. */
  datatype Outcome = Completed | NoVertexAvailable | NoTransformation

  /** The state of a batch after some steps: how it stands, the point list,
      the history and the vertex and transformation indices chosen. */
  datatype BatchState = BatchState(outcome: Outcome, points: seq<Point>, verts: seq<nat>,
                                   vs: seq<nat>, ts: seq<nat>)

  /** Every vertex draw is in [0, 1). */
  predicate Draws(us: seq<real>)
  {
    forall j :: 0 <= j < |us| ==> 0.0 <= us[j] < 1.0
  }

  /** `verts[1:] + [vert]`. */
  function Slide(verts: seq<nat>, v: nat): (r: seq<nat>)
    requires |verts| == 3
    ensures r == [verts[1], verts[2], v]
  {
    verts[1..] + [v]
  }

  /** One pass of the point loop on a batch that has not failed: choose a
      vertex for the draw u, slide the history, choose a transformation for
      the draw p, append the transformed point. A failed choice ends the
      batch with the state it has reached: the earlier points are kept, one
      point is added exactly when the pass completes, and a vertex is
      recorded exactly when one was found. */
  function StepState(variant: Variant, vertices: seq<Point>, trans: seq<Transformation>,
                     s: BatchState, u: real, p: real): (r: BatchState)
    requires HistoryOk(|vertices|, s.verts) && |s.points| >= 1 && 0.0 <= u < 1.0
    ensures s.points <= r.points
    ensures |r.points| == |s.points| + (if r.outcome == Completed then 1 else 0)
    ensures |r.vs| == |s.vs| + (if r.outcome == NoVertexAvailable then 0 else 1)
  {
    match SelectVertex(variant, |vertices|, s.verts, u)
    case None => s.(outcome := NoVertexAvailable)
    case Some(v) =>
      match SelectTransform(variant, trans, p, v)
      case None => s.(outcome := NoTransformation, verts := Slide(s.verts, v), vs := s.vs + [v])
      case Some(t) =>
        BatchState(Completed, s.points + [Transform(trans[t], s.points[|s.points| - 1], vertices[v])],
                   Slide(s.verts, v), s.vs + [v], s.ts + [t])
  }

  /** The shape of a batch state after k passes: one vertex and one
      transformation per completed pass, one point more than transformations,
      the history is the window of the vertices chosen and the first point is
      the carried-over one. */
  predicate Shaped(start: Point, k: nat, b: BatchState)
  {
    && (b.outcome == Completed ==> |b.vs| == k && |b.ts| == k)
    && (b.outcome == NoVertexAvailable ==> |b.vs| == |b.ts| < k)
    && (b.outcome == NoTransformation ==> |b.vs| == |b.ts| + 1 <= k)
    && |b.points| == |b.ts| + 1
    && b.verts == Window(b.vs)
    && b.points[0] == start
  }

  /** A failed batch keeps its shape for the passes it did not take. */
  lemma ShapedLater(start: Point, k: nat, m: nat, b: BatchState)
    requires k <= m && b.outcome != Completed && Shaped(start, k, b)
    ensures Shaped(start, m, b)
  {
  }

  /** Vertex j is `choose_vertex`'s answer to the draw us[j] after the
      vertices before it; a batch that found no vertex got that answer for
      the draw after its last vertex. */
  predicate VerticesRecorded(variant: Variant, N: nat, us: seq<real>, b: BatchState)
  {
    && ChoicesRecorded(variant, N, us, b.vs)
    && (b.outcome == NoVertexAvailable ==>
          |b.vs| < |us| && ChoiceAfter(variant, N, b.vs, us[|b.vs|], None))
  }

  /** Vertex j of vs is `choose_vertex`'s answer to the draw us[j] after the
      vertices before it. */
  predicate ChoicesRecorded(variant: Variant, N: nat, us: seq<real>, vs: seq<nat>)
  {
    |vs| <= |us| && forall j :: 0 <= j < |vs| ==> ChoiceAfter(variant, N, vs[..j], us[j], Some(vs[j]))
  }

  /** Transformation j is `choose_transform`'s answer to the draw ps[j] for
      vertex j; a batch that found no transformation got that answer for its
      last vertex. */
  predicate TransformsRecorded(variant: Variant, trans: seq<Transformation>, ps: seq<real>, b: BatchState)
  {
    && TransformChoices(variant, trans, ps, b.vs, b.ts)
    && (b.outcome == NoTransformation ==>
          |b.ts| < |b.vs| && |b.ts| < |ps| && SelectTransform(variant, trans, ps[|b.ts|], b.vs[|b.ts|]) == None)
  }

  /** Transformation j of ts is `choose_transform`'s answer to the draw ps[j]
      for vertex j of vs. */
  predicate TransformChoices(variant: Variant, trans: seq<Transformation>, ps: seq<real>, vs: seq<nat>, ts: seq<nat>)
  {
    |ts| <= |vs| && |ts| <= |ps| &&
    forall j :: 0 <= j < |ts| ==> SelectTransform(variant, trans, ps[j], vs[j]) == Some(ts[j])
  }

  /** Point j + 1 is point j transformed toward vertex j by transformation j. */
  predicate WalkRecorded(vertices: seq<Point>, trans: seq<Transformation>, b: BatchState)
  {
    PointsWalk(vertices, trans, b.points, b.vs, b.ts)
  }

  /** Point j + 1 of points is point j transformed toward vertex j of vs by
      transformation j of ts. */
  predicate PointsWalk(vertices: seq<Point>, trans: seq<Transformation>, points: seq<Point>, vs: seq<nat>, ts: seq<nat>)
  {
    && |points| == |ts| + 1 && |ts| <= |vs|
    && forall j :: 0 <= j < |ts| ==>
         ts[j] < |trans| && vs[j] < |vertices| &&
         points[j + 1] == Transform(trans[ts[j]], points[j], vertices[vs[j]])
  }

  /** A vertex chosen after vs extends the list of the selector's answers. */
  lemma ChoicesAppend(variant: Variant, N: nat, us: seq<real>, vs: seq<nat>, v: nat)
    requires |vs| < |us| && ChoicesRecorded(variant, N, us, vs)
    requires ChoiceAfter(variant, N, vs, us[|vs|], Some(v))
    ensures ChoicesRecorded(variant, N, us, vs + [v])
  {
    forall j | 0 <= j < |vs| + 1
      ensures ChoiceAfter(variant, N, (vs + [v])[..j], us[j], Some((vs + [v])[j]))
    {
      if j < |vs| {
        assert (vs + [v])[..j] == vs[..j];
      } else {
        assert (vs + [v])[..j] == vs;
      }
    }
  }

  /** A vertex chosen after vs keeps the transformations chosen so far. */
  lemma TransformChoicesExtend(variant: Variant, trans: seq<Transformation>, ps: seq<real>,
                               vs: seq<nat>, ts: seq<nat>, v: nat)
    requires TransformChoices(variant, trans, ps, vs, ts)
    ensures TransformChoices(variant, trans, ps, vs + [v], ts)
  {
    assert forall j :: 0 <= j < |ts| ==> (vs + [v])[j] == vs[j];
  }

  /** A transformation chosen for vertex v extends the transformation choices. */
  lemma TransformChoicesAppend(variant: Variant, trans: seq<Transformation>, ps: seq<real>,
                               vs: seq<nat>, ts: seq<nat>, v: nat, t: nat)
    requires TransformChoices(variant, trans, ps, vs, ts) && |ts| == |vs| < |ps|
    requires SelectTransform(variant, trans, ps[|ts|], v) == Some(t)
    ensures TransformChoices(variant, trans, ps, vs + [v], ts + [t])
  {
    assert forall j :: 0 <= j < |ts| ==> (vs + [v])[j] == vs[j] && (ts + [t])[j] == ts[j];
  }

  /** A vertex chosen after vs keeps the walk so far. */
  lemma PointsWalkExtend(vertices: seq<Point>, trans: seq<Transformation>, points: seq<Point>,
                         vs: seq<nat>, ts: seq<nat>, v: nat)
    requires PointsWalk(vertices, trans, points, vs, ts)
    ensures PointsWalk(vertices, trans, points, vs + [v], ts)
  {
    assert forall j :: 0 <= j < |ts| ==> (vs + [v])[j] == vs[j];
  }

  /** The point transformed toward vertex v by transformation t extends the walk. */
  lemma PointsWalkAppend(vertices: seq<Point>, trans: seq<Transformation>, points: seq<Point>,
                         vs: seq<nat>, ts: seq<nat>, v: nat, t: nat)
    requires PointsWalk(vertices, trans, points, vs, ts) && |ts| == |vs|
    requires t < |trans| && v < |vertices|
    ensures PointsWalk(vertices, trans, points + [Transform(trans[t], points[|points| - 1], vertices[v])],
                       vs + [v], ts + [t])
  {
    var next := Transform(trans[t], points[|points| - 1], vertices[v]);
    assert forall j :: 0 <= j < |ts| ==> (vs + [v])[j] == vs[j] && (ts + [t])[j] == ts[j];
    assert forall j :: 0 <= j < |points| ==> (points + [next])[j] == points[j];
  }

  lemma ShapedStep(variant: Variant, vertices: seq<Point>, trans: seq<Transformation>, start: Point, us: seq<real>, ps: seq<real>, k: nat, s: BatchState)
    requires 0 < k <= |us| && k <= |ps| && 0.0 <= us[k - 1] < 1.0
    requires s.outcome == Completed && HistoryOk(|vertices|, s.verts) && |s.points| >= 1
    requires Shaped(start, k - 1, s)
    ensures Shaped(start, k, StepState(variant, vertices, trans, s, us[k - 1], ps[k - 1]))
  {
    match SelectVertex(variant, |vertices|, s.verts, us[k - 1])
    case None =>
    case Some(v) => WindowSlide(s.vs, v);
  }

  lemma VerticesStep(variant: Variant, vertices: seq<Point>, trans: seq<Transformation>, start: Point, us: seq<real>, ps: seq<real>, k: nat, s: BatchState)
    requires 0 < k <= |us| && k <= |ps| && 0.0 <= us[k - 1] < 1.0
    requires s.outcome == Completed && HistoryOk(|vertices|, s.verts) && |s.points| >= 1
    requires Shaped(start, k - 1, s) && VerticesRecorded(variant, |vertices|, us, s)
    ensures VerticesRecorded(variant, |vertices|, us, StepState(variant, vertices, trans, s, us[k - 1], ps[k - 1]))
  {
    var r := StepState(variant, vertices, trans, s, us[k - 1], ps[k - 1]);
    match SelectVertex(variant, |vertices|, s.verts, us[k - 1])
    case None =>
      assert r.vs == s.vs && r.outcome == NoVertexAvailable;
    case Some(v) =>
      assert r.vs == s.vs + [v] && r.outcome != NoVertexAvailable;
      ChoicesAppend(variant, |vertices|, us, s.vs, v);
  }

  lemma TransformsStep(variant: Variant, vertices: seq<Point>, trans: seq<Transformation>, start: Point, us: seq<real>, ps: seq<real>, k: nat, s: BatchState)
    requires 0 < k <= |us| && k <= |ps| && 0.0 <= us[k - 1] < 1.0
    requires s.outcome == Completed && HistoryOk(|vertices|, s.verts) && |s.points| >= 1
    requires Shaped(start, k - 1, s) && TransformsRecorded(variant, trans, ps, s)
    ensures TransformsRecorded(variant, trans, ps, StepState(variant, vertices, trans, s, us[k - 1], ps[k - 1]))
  {
    var r := StepState(variant, vertices, trans, s, us[k - 1], ps[k - 1]);
    match SelectVertex(variant, |vertices|, s.verts, us[k - 1])
    case None =>
      assert r == s.(outcome := NoVertexAvailable);
    case Some(v) =>
      match SelectTransform(variant, trans, ps[k - 1], v)
      case None =>
        assert r.vs == s.vs + [v] && r.ts == s.ts && r.outcome == NoTransformation;
        TransformChoicesExtend(variant, trans, ps, s.vs, s.ts, v);
      case Some(t) =>
        assert r.vs == s.vs + [v] && r.ts == s.ts + [t] && r.outcome == Completed;
        TransformChoicesAppend(variant, trans, ps, s.vs, s.ts, v, t);
  }

  lemma WalkStep(variant: Variant, vertices: seq<Point>, trans: seq<Transformation>, start: Point, us: seq<real>, ps: seq<real>, k: nat, s: BatchState)
    requires 0 < k <= |us| && k <= |ps| && 0.0 <= us[k - 1] < 1.0
    requires s.outcome == Completed && HistoryOk(|vertices|, s.verts) && |s.points| >= 1
    requires Shaped(start, k - 1, s) && WalkRecorded(vertices, trans, s)
    ensures WalkRecorded(vertices, trans, StepState(variant, vertices, trans, s, us[k - 1], ps[k - 1]))
  {
    var r := StepState(variant, vertices, trans, s, us[k - 1], ps[k - 1]);
    match SelectVertex(variant, |vertices|, s.verts, us[k - 1])
    case None =>
      assert r == s.(outcome := NoVertexAvailable);
    case Some(v) =>
      match SelectTransform(variant, trans, ps[k - 1], v)
      case None =>
        assert r.points == s.points && r.vs == s.vs + [v] && r.ts == s.ts;
        PointsWalkExtend(vertices, trans, s.points, s.vs, s.ts, v);
      case Some(t) =>
        assert r.points == s.points + [Transform(trans[t], s.points[|s.points| - 1], vertices[v])];
        assert r.vs == s.vs + [v] && r.ts == s.ts + [t];
        PointsWalkAppend(vertices, trans, s.points, s.vs, s.ts, v, t);
  }

  class ChaosGame {
    const variant: Variant
    const numTargets: nat
    const vertices: seq<Point>
    const transformations: seq<Transformation>
    const coloring: Corners
    var points: seq<Point>
    var colors: seq<Rgb>
    var verts: seq<nat>

    ghost predicate Valid()
      reads this
    {
      |vertices| == numTargets && |points| >= 1 && HistoryOk(numTargets, verts)
    }

    /** A new game: the vertices are given, the point list holds the origin. */
    constructor (variant: Variant, vertices: seq<Point>, transformations: seq<Transformation>, coloring: Corners)
      ensures Valid()
      ensures this.variant == variant && this.vertices == vertices && numTargets == |vertices|
      ensures this.transformations == transformations && this.coloring == coloring
      ensures points == [Origin] && colors == [] && verts == [0, 0, 0]
    {
      this.variant := variant;
      this.vertices := vertices;
      numTargets := |vertices|;
      this.transformations := transformations;
      this.coloring := coloring;
      points := [Origin];
      colors := [];
      verts := [0, 0, 0];
    }

    /** The loop of `ChaosGameHistExc.choose_vertex` over `verts[-hist_len:]`:
        it ORs the rotation by the latest vertex once per entry, so the result
        is that single rotation for every positive `hist_len`. */
    method HistoryExclusion() returns (exc: nat)
      requires Valid() && variant.HistExc?
      ensures exc == HistExcMask(numTargets, variant.histLen, variant.excluded, verts)
      ensures 1 <= variant.histLen ==> exc == Lcyc(numTargets, variant.excluded, verts[2])
    {
      var rotated := Lcyc(numTargets, variant.excluded, verts[|verts| - 1]);
      exc := 0;
      var window := verts[SliceStart(|verts|, -variant.histLen)..];
      for i := 0 to |window|
        invariant exc == if i == 0 then 0 else rotated
      {
        OrZero(rotated);
        OrSelf(rotated);
        exc := Or(exc, rotated);
      }
    }

    /** `choose_vertex` of the game's class, for the draw u. */
    method ChooseVertex(u: real) returns (r: Option<nat>)
      requires Valid() && 0.0 <= u < 1.0
      ensures r == SelectVertex(variant, numTargets, verts, u)
    {
      match variant
      case HistExc(_, _) =>
        var exc := HistoryExclusion();
        r := PickFrom(Avail(numTargets, exc), u);
      case HistExc2(m) =>
        if verts[2] == verts[1] {
          r := PickFrom(Avail(numTargets, Lcyc(numTargets, m, verts[2])), u);
        } else {
          r := RandInt(numTargets, u);
        }
      case _ =>
        r := RandInt(numTargets, u);
    }

    /** `choose_transform` of the game's class: the walk that subtracts each
        weight from the draw p, or the chosen vertex's own transformation. */
    method ChooseTransform(p: real, v: nat) returns (r: Option<nat>)
      ensures r == SelectTransform(variant, transformations, p, v)
    {
      if variant.TargetTransform? {
        r := if v < |transformations| then Some(v) else None;
        return;
      }
      var q := p;
      var i := 0;
      while i < |transformations|
        invariant 0 <= i <= |transformations|
        invariant q == p - PrefixSum(transformations, i)
        invariant FirstCovering(transformations, p, i).None?
      {
        if q < transformations[i].prob {
          FirstCoveringStable(transformations, p, i + 1, |transformations|);
          r := Some(i);
          return;
        }
        q := q - transformations[i].prob;
        i := i + 1;
      }
      r := None;
    }

    /** One pass of the loop of `generate_points`: choose a vertex, slide the
        history, choose a transformation and append the transformed point.
        The ghost arguments are the indices chosen so far in the batch, the
        ghost results the indices chosen after this pass. */
    method Step(u: real, p: real, ghost vs: seq<nat>, ghost ts: seq<nat>)
      returns (outcome: Outcome, ghost vsAfter: seq<nat>, ghost tsAfter: seq<nat>)
      requires Valid() && 0.0 <= u < 1.0
      modifies this`points, this`verts
      ensures Valid()
      ensures BatchState(outcome, points, verts, vsAfter, tsAfter) ==
                StepState(variant, vertices, transformations, BatchState(Completed, old(points), old(verts), vs, ts), u, p)
    {
      vsAfter, tsAfter := vs, ts;
      var vertex := ChooseVertex(u);
      if vertex.None? {
        outcome := NoVertexAvailable;
        return;
      }
      var v := vertex.value;
      verts := verts[1..] + [v];
      vsAfter := vs + [v];
      var lastVert := vertices[v];
      var trans := ChooseTransform(p, v);
      if trans.None? {
        outcome := NoTransformation;
        return;
      }
      var t := trans.value;
      points := points + [Transform(transformations[t], points[|points| - 1], lastVert)];
      tsAfter := ts + [t];
      outcome := Completed;
    }

    /** `generate_points(n)`: keep only the last point, clear the colours,
        restart the history at `[0, 0, 0]`, take n passes, then colour every
        point. The draws of pass j are us[j] (vertex) and ps[j] (transform).
        A failed choice ends the batch as Python's exception does: the points
        so far are kept and the colours stay empty. The ghost results vs and
        ts are the vertex and transformation indices chosen. */
    method GeneratePoints(n: nat, us: seq<real>, ps: seq<real>)
      returns (outcome: Outcome, ghost vs: seq<nat>, ghost ts: seq<nat>)
      requires Valid()
      requires |us| == n && |ps| == n && Draws(us)
      modifies this
      ensures Valid()
      ensures var b := BatchState(outcome, points, verts, vs, ts);
        && Shaped(old(points[|points| - 1]), n, b)
        && VerticesRecorded(variant, numTargets, us, b)
        && TransformsRecorded(variant, transformations, ps, b)
        && WalkRecorded(vertices, transformations, b)
      ensures outcome == Completed ==>
                |colors| == |points| && forall k :: 0 <= k < |points| ==> colors[k] == PointColor(coloring, points[k])
      ensures outcome != Completed ==> colors == []
    {
      points := points[|points| - 1..];
      colors := [];
      verts := [0, 0, 0];
      outcome, vs, ts := RunSteps(n, us, ps);
      if outcome == Completed {
        ColorPoints();
      }
    }

    /** The point loop of `generate_points`, from a freshly reset history and
        a single carried-over point. */
    method RunSteps(n: nat, us: seq<real>, ps: seq<real>)
      returns (outcome: Outcome, ghost vs: seq<nat>, ghost ts: seq<nat>)
      requires Valid() && |points| == 1 && verts == [0, 0, 0]
      requires |us| == n && |ps| == n && Draws(us)
      modifies this`points, this`verts
      ensures Valid()
      ensures var b := BatchState(outcome, points, verts, vs, ts);
        && Shaped(old(points[0]), n, b)
        && VerticesRecorded(variant, numTargets, us, b)
        && TransformsRecorded(variant, transformations, ps, b)
        && WalkRecorded(vertices, transformations, b)
    {
      ghost var start := points[0];
      outcome, vs, ts := Completed, [], [];
      var j := 0;
      while j < n
        invariant 0 <= j <= n && Valid() && outcome == Completed
        invariant Shaped(start, j, BatchState(outcome, points, verts, vs, ts))
        invariant VerticesRecorded(variant, numTargets, us, BatchState(outcome, points, verts, vs, ts))
        invariant TransformsRecorded(variant, transformations, ps, BatchState(outcome, points, verts, vs, ts))
        invariant WalkRecorded(vertices, transformations, BatchState(outcome, points, verts, vs, ts))
      {
        ghost var s := BatchState(outcome, points, verts, vs, ts);
        ShapedStep(variant, vertices, transformations, start, us, ps, j + 1, s);
        VerticesStep(variant, vertices, transformations, start, us, ps, j + 1, s);
        TransformsStep(variant, vertices, transformations, start, us, ps, j + 1, s);
        WalkStep(variant, vertices, transformations, start, us, ps, j + 1, s);
        outcome, vs, ts := Step(us[j], ps[j], vs, ts);
        j := j + 1;
        if outcome != Completed {
          ShapedLater(start, j, n, BatchState(outcome, points, verts, vs, ts));
          return;
        }
      }
    }

    /** The colouring loop of `generate_points`: one colour per point, in order. */
    method ColorPoints()
      modifies this`colors
      ensures |colors| == |points|
      ensures forall k :: 0 <= k < |points| ==> colors[k] == PointColor(coloring, points[k])
    {
      colors := [];
      for k := 0 to |points|
        invariant |colors| == k
        invariant forall i :: 0 <= i < k ==> colors[i] == PointColor(coloring, points[i])
      {
        colors := colors + [PointColor(coloring, points[k])];
      }
    }
  }
}
