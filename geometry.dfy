/** Points of the plane and `Transformation.transform`, the contraction step. */
module Geometry {

  datatype Point = Point(x: real, y: real)

  const Origin := Point(0.0, 0.0)

  /** A `Transformation`: its scale, its rotation given by the pair
      (cos rotation, sin rotation), and its selection weight `prob`. */
  datatype Transformation = Transformation(scale: real, cos: real, sin: real, prob: real)

  /** `Transformation.transform(p1, p2)`: take p2 relative to p1, scale it,
      rotate it, and translate it back to p1. A point transformed toward
      itself does not move, whatever the transformation. */
  function Transform(t: Transformation, p1: Point, p2: Point): (r: Point)
    ensures p2 == p1 ==> r == p1
  {
    var d := Point(p2.x - p1.x, p2.y - p1.y);
    var s := Point(t.scale * d.x, t.scale * d.y);
    var r := Point(s.x * t.cos - s.y * t.sin, s.x * t.sin + s.y * t.cos);
    Point(r.x + p1.x, r.y + p1.y)
  }

  function SqDist(p: Point, q: Point): real
  {
    (p.x - q.x) * (p.x - q.x) + (p.y - q.y) * (p.y - q.y)
  }

  /** Without rotation the step moves p1 the fraction `scale` of the way to p2. */
  lemma TransformWithoutRotation(t: Transformation, p1: Point, p2: Point)
    requires t.cos == 1.0 && t.sin == 0.0
    ensures Transform(t, p1, p2) == Point(p1.x + t.scale * (p2.x - p1.x), p1.y + t.scale * (p2.y - p1.y))
    ensures SqDist(Transform(t, p1, p2), p2) == (1.0 - t.scale) * (1.0 - t.scale) * SqDist(p1, p2)
  {
    var q := Transform(t, p1, p2);
    assert q.x - p2.x == (1.0 - t.scale) * (p1.x - p2.x);
    assert q.y - p2.y == (1.0 - t.scale) * (p1.y - p2.y);
  }

  /** With any proper rotation (cos^2 + sin^2 = 1) the new point lies at
      `scale` times the old distance from p1. */
  lemma TransformDistance(t: Transformation, p1: Point, p2: Point)
    requires t.cos * t.cos + t.sin * t.sin == 1.0
    ensures SqDist(Transform(t, p1, p2), p1) == t.scale * t.scale * SqDist(p2, p1)
  {
    var a, b := t.scale * (p2.x - p1.x), t.scale * (p2.y - p1.y);
    var c, s := t.cos, t.sin;
    var q := Transform(t, p1, p2);
    assert q.x - p1.x == a * c - b * s;
    assert q.y - p1.y == a * s + b * c;
  }

  /** `Transformation(scale=0.5, rotation=0)` takes the origin half way to (1, 0). */
  lemma TransformScenario()
    ensures Transform(Transformation(0.5, 1.0, 0.0, 1.0), Origin, Point(1.0, 0.0)) == Point(0.5, 0.0)
  {
  }
}
