/**
  Plane points (the QPointF values of the editor), the flat float buffers
  the renderer consumes, and the pixel-to-viewport coordinate map.
  All arithmetic is over the reals: single-precision rounding is not modelled.
*/
module Geometry {

  /** A point or a vector of the plane. */
  datatype Point = Point(x: real, y: real) {
    function Add(q: Point): Point { Point(x + q.x, y + q.y) }
    function Sub(q: Point): Point { Point(x - q.x, y - q.y) }
    function Scale(k: real): Point { Point(k * x, k * y) }
    function Neg(): Point { Point(-x, -y) }
  }

  const Origin: Point := Point(0.0, 0.0)

  /**
    Stand-in for the cosine and sine calls of the handle outline:
    trig(n, i) is (cos a, sin a) for the angle a of step i of an outline
    with n segments. The values are outside the model.
  */
  type Trig = (nat, nat) -> Point

  /**
    The drawing surface a curve or a patch talks to: its size in pixels and
    the bounds of its orthographic view volume.
  */
  datatype Canvas = Canvas(
    width: real, height: real,
    viewLeft: real, viewRight: real, viewBottom: real, viewTop: real)

  /** Point i of a buffer that stores points as consecutive (x, y) pairs. */
  function PointAt(b: seq<real>, i: nat): Point
    requires 2 * i + 1 < |b|
  {
    Point(b[2 * i], b[2 * i + 1])
  }

  /** Appending to a buffer keeps its points. */
  lemma PointAtPrefix(x: seq<real>, y: seq<real>, i: nat)
    requires 2 * i + 1 < |x|
    ensures PointAt(x + y, i) == PointAt(x, i)
  {
  }

  /** Pushes the points one after another, x before y. */
  function Flatten(ps: seq<Point>): (r: seq<real>)
    ensures |r| == 2 * |ps|
    ensures forall i :: 0 <= i < |ps| ==> PointAt(r, i) == ps[i]
  {
    if ps == [] then []
    else
      var rest := Flatten(ps[1..]);
      var r := [ps[0].x, ps[0].y] + rest;
      assert forall i :: 1 <= i < |ps| ==> PointAt(r, i) == PointAt(rest, i - 1);
      r
  }

  /** A buffer holding the points as pairs, and nothing else, is their flattening. */
  lemma {:induction false} FlattenUnique(b: seq<real>, ps: seq<Point>)
    requires |b| == 2 * |ps|
    requires forall i :: 0 <= i < |ps| ==> PointAt(b, i) == ps[i]
    ensures b == Flatten(ps)
  {
    if ps != [] {
      var tail := b[2..];
      forall i | 0 <= i < |ps| - 1
        ensures PointAt(tail, i) == ps[1..][i]
      {
        assert PointAt(tail, i) == PointAt(b, i + 1);
      }
      FlattenUnique(tail, ps[1..]);
      assert b == [ps[0].x, ps[0].y] + tail;
    }
  }

  /** A flattened buffer followed by any floats keeps its points, and the floats follow them. */
  lemma FlattenThen(ps: seq<Point>, o: seq<real>)
    ensures var r := Flatten(ps) + o;
      && |r| == 2 * |ps| + |o|
      && (forall i :: 0 <= i < |ps| ==> PointAt(r, i) == ps[i])
      && r[2 * |ps|..] == o
  {
    var f := Flatten(ps);
    forall i | 0 <= i < |ps|
      ensures PointAt(f + o, i) == ps[i]
    {
      PointAtPrefix(f, o, i);
    }
  }

  /** Four points pushed one after another. */
  lemma FlattenFour(a: Point, b: Point, c: Point, d: Point)
    ensures Flatten([a, b, c, d]) == [a.x, a.y, b.x, b.y, c.x, c.y, d.x, d.y]
  {
    var f := Flatten([a, b, c, d]);
    assert PointAt(f, 0) == a && PointAt(f, 1) == b && PointAt(f, 2) == c && PointAt(f, 3) == d;
  }

  /**
    Pixel position on the canvas to normalised viewport coordinates:
    x grows to the right from -1 to 1, y grows upwards from -1 to 1.
  */
  function ToViewportCoordSystem(screen: Point, c: Canvas): Point
    requires c.width != 0.0 && c.height != 0.0
  {
    Point(2.0 * screen.x / c.width - 1.0, 1.0 - 2.0 * screen.y / c.height)
  }

  /** The top-left pixel is the corner (-1, 1), the bottom-right one (1, -1), the middle one the origin. */
  lemma ViewportCorners(c: Canvas)
    requires c.width != 0.0 && c.height != 0.0
    ensures ToViewportCoordSystem(Origin, c) == Point(-1.0, 1.0)
    ensures ToViewportCoordSystem(Point(c.width, c.height), c) == Point(1.0, -1.0)
    ensures ToViewportCoordSystem(Point(c.width / 2.0, c.height / 2.0), c) == Origin
  {
    assert 2.0 * c.width / c.width == 2.0;
    assert 2.0 * c.height / c.height == 2.0;
  }

  /** Moving by the difference of two points lands on the second one. */
  lemma AddSub(p: Point, q: Point)
    ensures p.Add(q.Sub(p)) == q
  {
  }
}
