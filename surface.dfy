/**
  The surface of a Ferguson patch as a value: the bicubic point s(u, v)
  blended from the end points and tangents of four boundary curves, and the
  probe geometry (two cross-section lines and a marker) sampled from it.
*/
module PatchSurface {
  import opened Geometry
  import opened Handles
  import opened Hermite

  // ---------------------------------------------------------------------------
  // The patch basis: the cubic Hermite polynomials in the patch's own order

  function PB0(u: real): real { 2.0 * u * u * u - 3.0 * u * u + 1.0 }
  function PB1(u: real): real { u * u * u - 2.0 * u * u + u }
  function PB2(u: real): real { u * u * u - u * u }
  function PB3(u: real): real { -2.0 * u * u * u + 3.0 * u * u }

  /** The patch basis is the curve basis reordered: positions first and last, tangents in between. */
  lemma PatchBasisPermutesCurveBasis(u: real)
    ensures PB0(u) == B0(u) && PB1(u) == B2(u) && PB2(u) == B3(u) && PB3(u) == B1(u)
  {
  }

  /** The two position weights of the patch basis sum to one. */
  lemma PatchBasisPartition(u: real)
    ensures PB0(u) + PB3(u) == 1.0
  {
  }

  /** a, b, c, d weighted by the patch basis at u; a and d are the position terms. */
  function Blend(a: Point, b: Point, c: Point, d: Point, u: real): Point {
    a.Scale(PB0(u)).Add(b.Scale(PB1(u))).Add(c.Scale(PB2(u))).Add(d.Scale(PB3(u)))
  }

  /** The two-term blend of the middle rows of s: a and d weighted as the two positions, no tangent terms. */
  function Blend2(a: Point, d: Point, u: real): Point {
    a.Scale(PB0(u)).Add(d.Scale(PB3(u)))
  }

  /** A blend starts at its first point and ends at its last one. */
  lemma BlendEnds(a: Point, b: Point, c: Point, d: Point)
    ensures Blend(a, b, c, d, 0.0) == a
    ensures Blend(a, b, c, d, 1.0) == d
  {
    assert PB0(0.0) == 1.0 && PB1(0.0) == 0.0 && PB2(0.0) == 0.0 && PB3(0.0) == 0.0;
    assert a.Scale(1.0) == a && b.Scale(0.0) == Origin && c.Scale(0.0) == Origin && d.Scale(0.0) == Origin;
    assert PB0(1.0) == 0.0 && PB1(1.0) == 0.0 && PB2(1.0) == 0.0 && PB3(1.0) == 1.0;
    assert a.Scale(0.0) == Origin && d.Scale(1.0) == d;
  }

  /** So does a two-term blend. */
  lemma Blend2Ends(a: Point, d: Point)
    ensures Blend2(a, d, 0.0) == a
    ensures Blend2(a, d, 1.0) == d
  {
    assert PB0(0.0) == 1.0 && PB3(0.0) == 0.0 && PB0(1.0) == 0.0 && PB3(1.0) == 1.0;
  }

  /** A blend is the unit-scale Hermite curve from a to d with tangents b and c. */
  lemma BlendIsCurve(a: Point, b: Point, c: Point, d: Point, u: real)
    ensures Blend(a, b, c, d, u) == Shape(a, b, d, c, 1.0).At(u)
  {
    PatchBasisPermutesCurveBasis(u);
  }

  /**
    The surface point s(u, v). Corners are h0.p0, h0.p1, h2.p0, h2.p1; each
    curve contributes its start tangent and its negated end tangent, both
    multiplied by the curve's tangent scale. The rows are blended along u,
    the results along v; the two middle rows have only their position terms.
  */
  function Surface(h0: Shape, h1: Shape, h2: Shape, h3: Shape, u: real, v: real): Point {
    var p0, p1, p2, p3 := h0.p0, h0.p1, h2.p0, h2.p1;
    var t01, t10, t13, t31 := h0.St0(), h0.St1().Neg(), h1.St0(), h1.St1().Neg();
    var t23, t32, t02, t20 := h2.St0(), h2.St1().Neg(), h3.St0(), h3.St1().Neg();
    Blend(
      Blend(p0, t02, t20, p2, u),
      Blend2(t01, t23, u),
      Blend2(t10, t32, u),
      Blend(p1, t13, t31, p3, u),
      v)
  }

  /** s interpolates the corners: u picks the h0 or h2 side, v runs along it. */
  lemma SurfaceCorners(h0: Shape, h1: Shape, h2: Shape, h3: Shape)
    ensures Surface(h0, h1, h2, h3, 0.0, 0.0) == h0.p0
    ensures Surface(h0, h1, h2, h3, 0.0, 1.0) == h0.p1
    ensures Surface(h0, h1, h2, h3, 1.0, 0.0) == h2.p0
    ensures Surface(h0, h1, h2, h3, 1.0, 1.0) == h2.p1
  {
    var p0, p1, p2, p3 := h0.p0, h0.p1, h2.p0, h2.p1;
    var t01, t10, t13, t31 := h0.St0(), h0.St1().Neg(), h1.St0(), h1.St1().Neg();
    var t23, t32, t02, t20 := h2.St0(), h2.St1().Neg(), h3.St0(), h3.St1().Neg();
    BlendEnds(p0, t02, t20, p2);
    Blend2Ends(t01, t23);
    Blend2Ends(t10, t32);
    BlendEnds(p1, t13, t31, p3);
    BlendEnds(p0, t01, t10, p1);
    BlendEnds(p2, t23, t32, p3);
  }

  /**
    The four edges of the patch are unit-scale Hermite curves between the
    corners whose end tangent is the NEGATED scaled end tangent of a
    boundary curve; so an edge is not the boundary curve drawn for it.
  */
  lemma SurfaceEdges(h0: Shape, h1: Shape, h2: Shape, h3: Shape, w: real)
    ensures Surface(h0, h1, h2, h3, 0.0, w) == Shape(h0.p0, h0.St0(), h0.p1, h0.St1().Neg(), 1.0).At(w)
    ensures Surface(h0, h1, h2, h3, 1.0, w) == Shape(h2.p0, h2.St0(), h2.p1, h2.St1().Neg(), 1.0).At(w)
    ensures Surface(h0, h1, h2, h3, w, 0.0) == Shape(h0.p0, h3.St0(), h2.p0, h3.St1().Neg(), 1.0).At(w)
    ensures Surface(h0, h1, h2, h3, w, 1.0) == Shape(h0.p1, h1.St0(), h2.p1, h1.St1().Neg(), 1.0).At(w)
  {
    var p0, p1, p2, p3 := h0.p0, h0.p1, h2.p0, h2.p1;
    var t01, t10, t13, t31 := h0.St0(), h0.St1().Neg(), h1.St0(), h1.St1().Neg();
    var t23, t32, t02, t20 := h2.St0(), h2.St1().Neg(), h3.St0(), h3.St1().Neg();
    BlendEnds(p0, t02, t20, p2);
    Blend2Ends(t01, t23);
    Blend2Ends(t10, t32);
    BlendEnds(p1, t13, t31, p3);
    BlendIsCurve(p0, t01, t10, p1, w);
    BlendIsCurve(p2, t23, t32, p3, w);
    var a0 := Blend(p0, t02, t20, p2, w);
    var a3 := Blend(p1, t13, t31, p3, w);
    BlendEnds(a0, Blend2(t01, t23, w), Blend2(t10, t32, w), a3);
    BlendIsCurve(p0, t02, t20, p2, w);
    BlendIsCurve(p1, t13, t31, p3, w);
  }

  /** Halfway along, the unit-scale curve with the scaled tangents and the end tangent flipped is off the curve. */
  lemma FlippedEndTangentMovesMidpoint(c: Shape)
    requires c.St1() != Origin
    ensures Shape(c.p0, c.St0(), c.p1, c.St1().Neg(), 1.0).At(0.5) != c.At(0.5)
  {
    var edge := Shape(c.p0, c.St0(), c.p1, c.St1().Neg(), 1.0);
    assert B0(0.5) == 0.5 && B1(0.5) == 0.5 && B2(0.5) == 0.125 && B3(0.5) == -0.125;
    Weighted(edge, 0.5, 0.5, 0.5, 0.125, -0.125);
    Weighted(c, 0.5, 0.5, 0.5, 0.125, -0.125);
    assert edge.St0() == c.St0() && edge.St1() == c.St1().Neg();
    HalfwayWeightsDiffer(c.p0, c.p1, c.St0(), c.St1());
  }

  /** Halfway weights: flipping a non-zero end tangent moves the point. */
  lemma HalfwayWeightsDiffer(p: Point, q: Point, s: Point, t: Point)
    requires t != Origin
    ensures p.Scale(0.5).Add(q.Scale(0.5)).Add(s.Scale(0.125)).Add(t.Neg().Scale(-0.125))
         != p.Scale(0.5).Add(q.Scale(0.5)).Add(s.Scale(0.125)).Add(t.Scale(-0.125))
  {
  }

  /** A curve whose two tangents are zero. */
  predicate Flat(h: Shape) {
    h.t0 == Origin && h.t1 == Origin
  }

  /** Zero tangents contribute zero tangent terms, whatever the scale. */
  lemma FlatTangentTerms(h: Shape)
    requires Flat(h)
    ensures h.St0() == Origin && h.St1().Neg() == Origin
  {
    assert h.tangentScale * 0.0 == 0.0;
  }

  /** A blend whose two tangent terms are zero is the two-term blend of its positions. */
  lemma BlendWithoutTangents(a: Point, d: Point, u: real)
    ensures Blend(a, Origin, Origin, d, u) == Blend2(a, d, u)
  {
    assert Origin.Scale(PB1(u)) == Origin && Origin.Scale(PB2(u)) == Origin;
  }

  /**
    With all eight tangents zero only the corner terms of s remain: s blends
    the two position rows, each of which blends two corners.
  */
  lemma SurfaceFlat(h0: Shape, h1: Shape, h2: Shape, h3: Shape, u: real, v: real)
    requires Flat(h0) && Flat(h1) && Flat(h2) && Flat(h3)
    ensures Surface(h0, h1, h2, h3, u, v) == Blend2(Blend2(h0.p0, h2.p0, u), Blend2(h0.p1, h2.p1, u), v)
  {
    FlatTangentTerms(h0);
    FlatTangentTerms(h1);
    FlatTangentTerms(h2);
    FlatTangentTerms(h3);
    BlendWithoutTangents(h0.p0, h2.p0, u);
    BlendWithoutTangents(h0.p1, h2.p1, u);
    assert Blend2(Origin, Origin, u) == Origin;
    BlendWithoutTangents(Blend2(h0.p0, h2.p0, u), Blend2(h0.p1, h2.p1, u), v);
  }

  function Mid(a: Point, d: Point): Point {
    Point((a.x + d.x) / 2.0, (a.y + d.y) / 2.0)
  }

  lemma MidOfMids(a: Point, b: Point, c: Point, d: Point)
    ensures Mid(Mid(a, b), Mid(c, d)) == Point((a.x + c.x + b.x + d.x) / 4.0, (a.y + c.y + b.y + d.y) / 4.0)
  {
  }

  /** The patch basis at one half: the positions weigh one half each, the tangents 1/8 and -1/8. */
  lemma HalfBasis()
    ensures PB0(0.5) == 0.5 && PB1(0.5) == 0.125 && PB2(0.5) == -0.125 && PB3(0.5) == 0.5
  {
  }

  /** Halfway along a two-term blend lies the midpoint. */
  lemma Blend2Half(a: Point, d: Point)
    ensures Blend2(a, d, 0.5) == Mid(a, d)
  {
    HalfBasis();
  }

  // ---------------------------------------------------------------------------
  // The probe geometry

  const ProbeRadius: real := 0.02
  const ProbeSegments: nat := 10

  /** The marker circle drawn at the probed surface point. */
  function ProbeMarker(h0: Shape, h1: Shape, h2: Shape, h3: Shape, u: real, v: real): Disc {
    Disc(Surface(h0, h1, h2, h3, u, v), ProbeRadius, ProbeSegments, false)
  }

  /** Point i of the line s(u, .): the surface at u and at the i-th of n evenly spaced values of v. */
  function AlongV(h0: Shape, h1: Shape, h2: Shape, h3: Shape, n: nat, u: real): nat -> Point
    requires n != 1
  {
    (i: nat) => Surface(h0, h1, h2, h3, u, Param(n, i))
  }

  /** Point i of the line s(., v): the surface at the i-th of n evenly spaced values of u and at v. */
  function AlongU(h0: Shape, h1: Shape, h2: Shape, h3: Shape, n: nat, v: real): nat -> Point
    requires n != 1
  {
    (i: nat) => Surface(h0, h1, h2, h3, Param(n, i), v)
  }

  /** The line s(u, .) at n evenly spaced values of v. */
  function LineV(h0: Shape, h1: Shape, h2: Shape, h3: Shape, n: nat, u: real): (r: seq<Point>)
    requires n != 1
    ensures |r| == n
  {
    seq(n, i requires 0 <= i => AlongV(h0, h1, h2, h3, n, u)(i))
  }

  /** The line s(., v) at n evenly spaced values of u. */
  function LineU(h0: Shape, h1: Shape, h2: Shape, h3: Shape, n: nat, v: real): (r: seq<Point>)
    requires n != 1
    ensures |r| == n
  {
    seq(n, i requires 0 <= i => AlongU(h0, h1, h2, h3, n, v)(i))
  }

  /**
    The probe buffer: the two cross-section lines through s(u, v) as (x, y)
    pairs in one array, the line along v first, then the marker outline.
  */
  function ProbeBuffer(h0: Shape, h1: Shape, h2: Shape, h3: Shape, n: nat, u: real, v: real, trig: Trig): seq<real>
    requires n != 1
  {
    Flatten(LineV(h0, h1, h2, h3, n, u) + LineU(h0, h1, h2, h3, n, v))
    + Outline(ProbeMarker(h0, h1, h2, h3, u, v), trig)
  }

  /**
    The probe buffer holds 4n + 22 floats: the n points of the line along v,
    the n points of the line along u, and the marker outline.
  */
  lemma ProbeLayout(h0: Shape, h1: Shape, h2: Shape, h3: Shape, n: nat, u: real, v: real, trig: Trig)
    requires n != 1
    ensures var b := ProbeBuffer(h0, h1, h2, h3, n, u, v, trig);
      && |b| == 4 * n + 2 * ProbeSegments + 2
      && (forall i :: 0 <= i < n ==> PointAt(b, i) == LineV(h0, h1, h2, h3, n, u)[i])
      && (forall i :: 0 <= i < n ==> PointAt(b, n + i) == LineU(h0, h1, h2, h3, n, v)[i])
      && b[4 * n ..] == Outline(ProbeMarker(h0, h1, h2, h3, u, v), trig)
  {
    TwoLines(LineV(h0, h1, h2, h3, n, u), LineU(h0, h1, h2, h3, n, v), Outline(ProbeMarker(h0, h1, h2, h3, u, v), trig));
  }

  /** The line along v runs from s(u, 0) to s(u, 1), the line along u from s(0, v) to s(1, v). */
  lemma LineEnds(h0: Shape, h1: Shape, h2: Shape, h3: Shape, n: nat, u: real, v: real)
    requires n >= 2
    ensures LineV(h0, h1, h2, h3, n, u)[0] == Surface(h0, h1, h2, h3, u, 0.0)
    ensures LineV(h0, h1, h2, h3, n, u)[n - 1] == Surface(h0, h1, h2, h3, u, 1.0)
    ensures LineU(h0, h1, h2, h3, n, v)[0] == Surface(h0, h1, h2, h3, 0.0, v)
    ensures LineU(h0, h1, h2, h3, n, v)[n - 1] == Surface(h0, h1, h2, h3, 1.0, v)
  {
    ParamRange(n, 0);
    assert LineV(h0, h1, h2, h3, n, u)[0] == AlongV(h0, h1, h2, h3, n, u)(0);
    assert LineV(h0, h1, h2, h3, n, u)[n - 1] == AlongV(h0, h1, h2, h3, n, u)(n - 1);
    assert LineU(h0, h1, h2, h3, n, v)[0] == AlongU(h0, h1, h2, h3, n, v)(0);
    assert LineU(h0, h1, h2, h3, n, v)[n - 1] == AlongU(h0, h1, h2, h3, n, v)(n - 1);
  }

  /** Point by point, two lines flattened together and followed by any floats. */
  lemma TwoLines(a: seq<Point>, b: seq<Point>, o: seq<real>)
    ensures var r := Flatten(a + b) + o;
      && |r| == 2 * |a| + 2 * |b| + |o|
      && (forall i :: 0 <= i < |a| ==> PointAt(r, i) == a[i])
      && (forall i :: 0 <= i < |b| ==> PointAt(r, |a| + i) == b[i])
      && r[2 * |a| + 2 * |b| ..] == o
  {
    FlattenThen(a + b, o);
    var r := Flatten(a + b) + o;
    forall i | 0 <= i < |b|
      ensures PointAt(r, |a| + i) == b[i]
    {
      assert (a + b)[|a| + i] == b[i];
    }
  }
}

/**
  What the surface of a Ferguson patch looks like at particular points:
  facts about s(u, v) proved from the blending steps above.
*/
module SurfaceFacts {
  import opened Geometry
  import opened Hermite
  import opened PatchSurface

  /**
    The u = 0 edge differs from the boundary curve h0 itself at its midpoint
    whenever h0's scaled end tangent is not zero.
  */
  lemma EdgeIsNotBoundaryCurve(h0: Shape, h1: Shape, h2: Shape, h3: Shape)
    requires h0.St1() != Origin
    ensures Surface(h0, h1, h2, h3, 0.0, 0.5) != h0.At(0.5)
  {
    SurfaceEdges(h0, h1, h2, h3, 0.5);
    FlippedEndTangentMovesMidpoint(h0);
  }

  /**
    With all eight tangents zero the centre of the patch is the midpoint of
    the midpoints of its two u-sides, i.e. the average of its four corners
    (MidOfMids).
  */
  lemma SurfaceCentreFlat(h0: Shape, h1: Shape, h2: Shape, h3: Shape)
    requires Flat(h0) && Flat(h1) && Flat(h2) && Flat(h3)
    ensures Surface(h0, h1, h2, h3, 0.5, 0.5) == Mid(Mid(h0.p0, h2.p0), Mid(h0.p1, h2.p1))
  {
    SurfaceFlat(h0, h1, h2, h3, 0.5, 0.5);
    Blend2Half(h0.p0, h2.p0);
    Blend2Half(h0.p1, h2.p1);
    Blend2Half(Mid(h0.p0, h2.p0), Mid(h0.p1, h2.p1));
  }
}
