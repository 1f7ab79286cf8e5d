/** The corner-blend colouring of `ChaosGame.generate_points`. */
module Coloring {
  import opened Geometry

  /** A corner colour: three byte values. */
  datatype Corner = Corner(red: int, green: int, blue: int)

  /** The four entries of `coloring`, in list order. */
  datatype Corners = Corners(c0: Corner, c1: Corner, c2: Corner, c3: Corner)

  /** A computed colour, one real per channel. */
  datatype Rgb = Rgb(red: real, green: real, blue: real)

  /** `coloring=[(255, 0, 0), (0, 255, 0), (0, 0, 255), (255, 255, 0)]`. */
  const DefaultColoring := Corners(Corner(255, 0, 0), Corner(0, 255, 0), Corner(0, 0, 255), Corner(255, 255, 0))

  /** One channel of the blend at the normalised position (x, y): a weighted
      mean of the four corner values, so four equal values give that value
      divided by 256 everywhere. */
  function Channel(a0: int, a1: int, a2: int, a3: int, x: real, y: real): (r: real)
    ensures a0 == a1 == a2 == a3 ==> r == a0 as real / 256.0
  {
    ((a0 as real * (1.0 - y) + a1 as real * y) * x
     + (a2 as real * (1.0 - y) + a3 as real * y) * (1.0 - x)) / 256.0
  }

  /** The colour of a point: normalise each coordinate with (c + 1) / 2 and
      blend each channel of the four corners. Four equal corners colour
      every point alike. */
  function PointColor(c: Corners, p: Point): (r: Rgb)
    ensures c.c0 == c.c1 == c.c2 == c.c3 ==> r == Scaled(c.c0)
  {
    var x, y := (p.x + 1.0) / 2.0, (p.y + 1.0) / 2.0;
    Rgb(Channel(c.c0.red, c.c1.red, c.c2.red, c.c3.red, x, y),
        Channel(c.c0.green, c.c1.green, c.c2.green, c.c3.green, x, y),
        Channel(c.c0.blue, c.c1.blue, c.c2.blue, c.c3.blue, x, y))
  }

  predicate IsByte(v: int) { 0 <= v <= 255 }

  predicate ByteCorner(c: Corner) { IsByte(c.red) && IsByte(c.green) && IsByte(c.blue) }

  predicate ByteCorners(c: Corners)
  {
    ByteCorner(c.c0) && ByteCorner(c.c1) && ByteCorner(c.c2) && ByteCorner(c.c3)
  }

  lemma MulNonneg(x: real, y: real)
    requires 0.0 <= x && 0.0 <= y
    ensures 0.0 <= x * y
  {
  }

  /** A weighted mean a (1 - t) + b t with t in [0, 1] stays within [lo, hi]. */
  lemma MixBound(a: real, b: real, t: real, lo: real, hi: real)
    requires lo <= a <= hi && lo <= b <= hi && 0.0 <= t <= 1.0
    ensures lo <= a * (1.0 - t) + b * t <= hi
  {
    var u := 1.0 - t;
    MulNonneg(a - lo, u);
    MulNonneg(b - lo, t);
    MulNonneg(hi - a, u);
    MulNonneg(hi - b, t);
    assert a * u + b * t - lo == (a - lo) * u + (b - lo) * t;
    assert hi - (a * u + b * t) == (hi - a) * u + (hi - b) * t;
  }

  lemma ChannelBound(a0: int, a1: int, a2: int, a3: int, x: real, y: real)
    requires IsByte(a0) && IsByte(a1) && IsByte(a2) && IsByte(a3)
    requires 0.0 <= x <= 1.0 && 0.0 <= y <= 1.0
    ensures 0.0 <= Channel(a0, a1, a2, a3, x, y) <= 255.0 / 256.0
  {
    var top := a0 as real * (1.0 - y) + a1 as real * y;
    var bottom := a2 as real * (1.0 - y) + a3 as real * y;
    MixBound(a0 as real, a1 as real, y, 0.0, 255.0);
    MixBound(a2 as real, a3 as real, y, 0.0, 255.0);
    MixBound(bottom, top, x, 0.0, 255.0);
    assert top * x + bottom * (1.0 - x) == bottom * (1.0 - x) + top * x;
  }

  /** For a point in [-1, 1] x [-1, 1] and byte corners every channel lies
      in [0, 255/256]. */
  lemma ColorBound(c: Corners, p: Point)
    requires ByteCorners(c)
    requires -1.0 <= p.x <= 1.0 && -1.0 <= p.y <= 1.0
    ensures var col := PointColor(c, p);
      0.0 <= col.red <= 255.0 / 256.0 && 0.0 <= col.green <= 255.0 / 256.0 && 0.0 <= col.blue <= 255.0 / 256.0
  {
    var x, y := (p.x + 1.0) / 2.0, (p.y + 1.0) / 2.0;
    ChannelBound(c.c0.red, c.c1.red, c.c2.red, c.c3.red, x, y);
    ChannelBound(c.c0.green, c.c1.green, c.c2.green, c.c3.green, x, y);
    ChannelBound(c.c0.blue, c.c1.blue, c.c2.blue, c.c3.blue, x, y);
  }

  function Scaled(c: Corner): Rgb
  {
    Rgb(c.red as real / 256.0, c.green as real / 256.0, c.blue as real / 256.0)
  }

  /** At the four corners of the square the colour is one corner entry divided
      by 256: entry 0 at (1, -1), entry 1 at (1, 1), entry 2 at (-1, -1) and
      entry 3 at (-1, 1). */
  lemma CornerColors(c: Corners)
    ensures PointColor(c, Point(1.0, -1.0)) == Scaled(c.c0)
    ensures PointColor(c, Point(1.0, 1.0)) == Scaled(c.c1)
    ensures PointColor(c, Point(-1.0, -1.0)) == Scaled(c.c2)
    ensures PointColor(c, Point(-1.0, 1.0)) == Scaled(c.c3)
  {
  }

  /** The origin with the default corners has red channel 127.5 / 256. */
  lemma OriginColor()
    ensures PointColor(DefaultColoring, Origin).red == 127.5 / 256.0
    ensures PointColor(DefaultColoring, Origin) == Rgb(127.5 / 256.0, 127.5 / 256.0, 63.75 / 256.0)
  {
  }
}
