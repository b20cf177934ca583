/**
  One boundary curve of the patch (class HermiteCurveComputer): a cubic
  Hermite curve given by two end points and two tangents, sampled into the
  renderer's float buffer, and edited by dragging four handles.
*/
module Hermite {
  import opened Geometry
  import opened Handles

  // ---------------------------------------------------------------------------
  // Cubic Hermite basis, in the curve's own ordering

  function B0(u: real): real { 2.0 * u * u * u - 3.0 * u * u + 1.0 }
  function B1(u: real): real { -2.0 * u * u * u + 3.0 * u * u }
  function B2(u: real): real { u * u * u - 2.0 * u * u + u }
  function B3(u: real): real { u * u * u - u * u }

  /** The two position weights always sum to one. */
  lemma BasisPartition(u: real)
    ensures B0(u) + B1(u) == 1.0
  {
  }

  /** At u = 0 only the start weight is on, at u = 1 only the end weight. */
  lemma BasisAtEnds()
    ensures B0(0.0) == 1.0 && B1(0.0) == 0.0 && B2(0.0) == 0.0 && B3(0.0) == 0.0
    ensures B0(1.0) == 0.0 && B1(1.0) == 1.0 && B2(1.0) == 0.0 && B3(1.0) == 0.0
  {
  }

  // ---------------------------------------------------------------------------
  // The curve as a value

  /**
    End points p0, p1 and tangents t0, t1 of a curve. The evaluated curve uses
    the tangents multiplied by tangentScale; the drawn tangent lines and the
    handles use them as they are.
  */
  datatype Shape = Shape(p0: Point, t0: Point, p1: Point, t1: Point, tangentScale: real) {
    function St0(): Point { t0.Scale(tangentScale) }
    function St1(): Point { t1.Scale(tangentScale) }

    /** The curve point at parameter u. */
    function At(u: real): Point {
      p0.Scale(B0(u)).Add(p1.Scale(B1(u))).Add(St0().Scale(B2(u))).Add(St1().Scale(B3(u)))
    }
  }

  /** The curve starts at p0 and ends at p1 whatever its tangents and their scale. */
  lemma CurveEnds(c: Shape)
    ensures c.At(0.0) == c.p0
    ensures c.At(1.0) == c.p1
  {
    CurveStart(c);
    CurveStop(c);
  }

  lemma CurveStart(c: Shape)
    ensures c.At(0.0) == c.p0
  {
    assert B0(0.0) == 1.0 && B1(0.0) == 0.0 && B2(0.0) == 0.0 && B3(0.0) == 0.0;
    Weighted(c, 0.0, 1.0, 0.0, 0.0, 0.0);
    OnlyOneWeight(c.p0, c.p1, c.St0(), c.St1());
  }

  lemma CurveStop(c: Shape)
    ensures c.At(1.0) == c.p1
  {
    assert B0(1.0) == 0.0 && B1(1.0) == 1.0 && B2(1.0) == 0.0 && B3(1.0) == 0.0;
    Weighted(c, 1.0, 0.0, 1.0, 0.0, 0.0);
    OnlyOneWeight(c.p1, c.p0, c.St0(), c.St1());
  }

  /** The curve point for given values of the four weights. */
  lemma Weighted(c: Shape, u: real, a: real, b: real, d: real, e: real)
    requires B0(u) == a && B1(u) == b && B2(u) == d && B3(u) == e
    ensures c.At(u) == c.p0.Scale(a).Add(c.p1.Scale(b)).Add(c.St0().Scale(d)).Add(c.St1().Scale(e))
  {
  }

  /** A weighted sum whose only non-zero weight is one on a. */
  lemma OnlyOneWeight(a: Point, b: Point, d: Point, e: Point)
    ensures a.Scale(1.0).Add(b.Scale(0.0)).Add(d.Scale(0.0)).Add(e.Scale(0.0)) == a
    ensures b.Scale(0.0).Add(a.Scale(1.0)).Add(d.Scale(0.0)).Add(e.Scale(0.0)) == a
  {
  }

  /** With a unit scale the curve weights the tangents as they are. */
  lemma UnitScaleCurve(c: Shape, u: real)
    requires c.tangentScale == 1.0
    ensures c.At(u) == c.p0.Scale(B0(u)).Add(c.p1.Scale(B1(u))).Add(c.t0.Scale(B2(u))).Add(c.t1.Scale(B3(u)))
  {
  }

  // ---------------------------------------------------------------------------
  // Sampling and the per-curve buffer layout

  /**
    Distance between consecutive sample parameters of an n-sample curve:
    1 / (n - 1), where n - 1 is unsigned, so that zero samples divide by
    the wrapped-around 2^32 - 1. One sample divides by zero and is excluded.
  */
  function StepSize(n: nat): real
    requires n != 1
  {
    if n == 0 then 1.0 / 4294967295.0 else 1.0 / ((n - 1) as real)
  }

  /** Parameter of sample i. */
  function Param(n: nat, i: nat): real
    requires n != 1
  {
    StepSize(n) * (i as real)
  }

  /** The sample parameters run from 0 to 1 and stay inside [0, 1]. */
  lemma ParamRange(n: nat, i: nat)
    requires n >= 2 && i < n
    ensures Param(n, 0) == 0.0
    ensures Param(n, n - 1) == 1.0
    ensures 0.0 <= Param(n, i) <= 1.0
  {
    var d := (n - 1) as real;
    assert StepSize(n) * d == 1.0;
    assert (i as real) <= d;
    assert StepSize(n) > 0.0;
    assert StepSize(n) * (i as real) <= StepSize(n) * d;
  }

  /** The curve at the n evenly spaced sample parameters. */
  function SamplePoints(c: Shape, n: nat): (r: seq<Point>)
    requires n != 1
    ensures |r| == n
  {
    seq(n, i requires 0 <= i => c.At(Param(n, i)))
  }

  /** The 2n floats of the n curve samples. */
  function Samples(c: Shape, n: nat): (r: seq<real>)
    requires n != 1
    ensures |r| == 2 * n
  {
    Flatten(SamplePoints(c, n))
  }

  /** Sample i is the curve at i/(n-1); the first sample is p0 and the last one p1. */
  lemma SampleEndpoints(c: Shape, n: nat)
    requires n >= 2
    ensures forall i :: 0 <= i < n ==> PointAt(Samples(c, n), i) == c.At(Param(n, i))
    ensures PointAt(Samples(c, n), 0) == c.p0
    ensures PointAt(Samples(c, n), n - 1) == c.p1
  {
    ParamRange(n, 0);
    CurveEnds(c);
  }

  /** Evaluates the curve at its n sample parameters, the 2n floats of a curve's buffer. */
  method ComputeSamples(c: Shape, n: nat) returns (r: seq<real>)
    requires n != 1
    ensures r == Samples(c, n)
  {
    var vertices := new real[n * 2];
    var sampleAt: nat -> Point := (i: nat) => c.At(Param(n, i));
    ghost var pts := SamplePoints(c, n);
    assert forall i :: 0 <= i < n ==> sampleAt(i) == pts[i];
    FillPairs(vertices, 0, n, sampleAt);
    r := vertices[..];
    forall i | 0 <= i < n
      ensures PointAt(r, i) == pts[i]
    {
      assert 2 * i == 2 * (0 + i);
    }
    FlattenUnique(r, pts);
  }

  /**
    A curve's buffer: the samples, the two tangent lines (p0, p0 + t0) and
    (p1, p1 + t1) with the tangents unscaled, then four handle outlines.
  */
  function CurveBuffer(c: Shape, n: nat, o0: seq<real>, o1: seq<real>, o2: seq<real>, o3: seq<real>): seq<real>
    requires n != 1
  {
    Samples(c, n) + Flatten([c.p0, c.p0.Add(c.t0), c.p1, c.p1.Add(c.t1)]) + o0 + o1 + o2 + o3
  }

  /** A curve buffer with its tangent lines written out float by float. */
  lemma CurveBufferParts(c: Shape, n: nat, o0: seq<real>, o1: seq<real>, o2: seq<real>, o3: seq<real>)
    requires n != 1
    ensures CurveBuffer(c, n, o0, o1, o2, o3)
      == Samples(c, n)
         + [c.p0.x, c.p0.y, c.p0.x + c.t0.x, c.p0.y + c.t0.y, c.p1.x, c.p1.y, c.p1.x + c.t1.x, c.p1.y + c.t1.y]
         + o0 + o1 + o2 + o3
  {
    FlattenFour(c.p0, c.p0.Add(c.t0), c.p1, c.p1.Add(c.t1));
  }

  /**
    Offsets of a curve buffer whose handle outlines have m segments each:
    n + 4 + 4(m + 1) points in all, the tangent lines at point n, and outline j
    from point n + 4 + (m + 1) j on.
  */
  lemma CurveBufferLayout(c: Shape, n: nat, m: nat, o0: seq<real>, o1: seq<real>, o2: seq<real>, o3: seq<real>)
    requires n != 1
    requires |o0| == |o1| == |o2| == |o3| == 2 * m + 2
    ensures var b := CurveBuffer(c, n, o0, o1, o2, o3);
      && |b| == 2 * (n + 4 + 4 * (m + 1))
      && b[..2 * n] == Samples(c, n)
      && PointAt(b, n) == c.p0 && PointAt(b, n + 1) == c.p0.Add(c.t0)
      && PointAt(b, n + 2) == c.p1 && PointAt(b, n + 3) == c.p1.Add(c.t1)
      && b[2 * (n + 4) .. 2 * (n + 4 + (m + 1))] == o0
      && b[2 * (n + 4 + (m + 1)) .. 2 * (n + 4 + 2 * (m + 1))] == o1
      && b[2 * (n + 4 + 2 * (m + 1)) .. 2 * (n + 4 + 3 * (m + 1))] == o2
      && b[2 * (n + 4 + 3 * (m + 1)) .. 2 * (n + 4 + 4 * (m + 1))] == o3
  {
    CurveBufferParts(c, n, o0, o1, o2, o3);
    PartsLayout(Samples(c, n), n, c, m, o0, o1, o2, o3);
  }

  /** The layout of a curve buffer, for any samples. */
  lemma PartsLayout(s: seq<real>, n: nat, c: Shape, m: nat, o0: seq<real>, o1: seq<real>, o2: seq<real>, o3: seq<real>)
    requires |s| == 2 * n
    requires |o0| == |o1| == |o2| == |o3| == 2 * m + 2
    ensures var b := s + [c.p0.x, c.p0.y, c.p0.x + c.t0.x, c.p0.y + c.t0.y, c.p1.x, c.p1.y, c.p1.x + c.t1.x, c.p1.y + c.t1.y]
                       + o0 + o1 + o2 + o3;
      && |b| == 2 * (n + 4 + 4 * (m + 1))
      && b[..2 * n] == s
      && PointAt(b, n) == c.p0 && PointAt(b, n + 1) == c.p0.Add(c.t0)
      && PointAt(b, n + 2) == c.p1 && PointAt(b, n + 3) == c.p1.Add(c.t1)
      && b[2 * (n + 4) .. 2 * (n + 4 + (m + 1))] == o0
      && b[2 * (n + 4 + (m + 1)) .. 2 * (n + 4 + 2 * (m + 1))] == o1
      && b[2 * (n + 4 + 2 * (m + 1)) .. 2 * (n + 4 + 3 * (m + 1))] == o2
      && b[2 * (n + 4 + 3 * (m + 1)) .. 2 * (n + 4 + 4 * (m + 1))] == o3
  {
    var tl := [c.p0.x, c.p0.y, c.p0.x + c.t0.x, c.p0.y + c.t0.y, c.p1.x, c.p1.y, c.p1.x + c.t1.x, c.p1.y + c.t1.y];
    var b := s + tl + o0 + o1 + o2 + o3;
    ConcatSix(s, tl, o0, o1, o2, o3, 2 * m + 2);
    assert b[2 * n .. 2 * n + 8] == tl;
    assert b[2 * n] == tl[0] && b[2 * n + 1] == tl[1] && b[2 * n + 2] == tl[2] && b[2 * n + 3] == tl[3];
    assert b[2 * n + 4] == tl[4] && b[2 * n + 5] == tl[5] && b[2 * n + 6] == tl[6] && b[2 * n + 7] == tl[7];
  }

  /** Where the six parts of a buffer laid end to end start and stop. */
  lemma ConcatSix(s: seq<real>, tl: seq<real>, o0: seq<real>, o1: seq<real>, o2: seq<real>, o3: seq<real>, k: nat)
    requires |tl| == 8
    requires |o0| == |o1| == |o2| == |o3| == k
    ensures var b := s + tl + o0 + o1 + o2 + o3;
      && |b| == |s| + 8 + 4 * k
      && b[..|s|] == s
      && b[|s| .. |s| + 8] == tl
      && b[|s| + 8 .. |s| + 8 + k] == o0
      && b[|s| + 8 + k .. |s| + 8 + 2 * k] == o1
      && b[|s| + 8 + 2 * k .. |s| + 8 + 3 * k] == o2
      && b[|s| + 8 + 3 * k .. |s| + 8 + 4 * k] == o3
  {
    var b := s + tl + o0 + o1 + o2 + o3;
    assert b[..|s|] == s;
    assert b[|s| ..] == tl + o0 + o1 + o2 + o3;
    assert b[|s| + 8 ..] == o0 + o1 + o2 + o3;
    assert b[|s| + 8 + k ..] == o1 + o2 + o3;
    assert b[|s| + 8 + 2 * k ..] == o2 + o3;
  }

  // ---------------------------------------------------------------------------
  // The drag state machine on values

  /** Everything of a curve that the mouse handlers read or write. */
  datatype CurveState = CurveState(shape: Shape, cp0: Disc, ct0: Disc, cp1: Disc, ct1: Disc) {
    /** The handle centres sit on p0, p0 + t0, p1 and p1 + t1. */
    predicate Synced() {
      && cp0.centre == shape.p0
      && ct0.centre == shape.p0.Add(shape.t0)
      && cp1.centre == shape.p1
      && ct1.centre == shape.p1.Add(shape.t1)
    }

    predicate AnySelected() {
      cp0.selected || ct0.selected || cp1.selected || ct1.selected
    }

    function SelectedCount(): nat {
      (if cp0.selected then 1 else 0) + (if ct0.selected then 1 else 0)
      + (if cp1.selected then 1 else 0) + (if ct1.selected then 1 else 0)
    }

    /** Some selected handle contains w. */
    predicate GrabbedAt(w: Point) {
      || (cp0.selected && cp0.Contains(w)) || (ct0.selected && ct0.Contains(w))
      || (cp1.selected && cp1.Contains(w)) || (ct1.selected && ct1.Contains(w))
    }

    /** The two states agree on everything but the selection flags. */
    predicate SameButSelection(other: CurveState) {
      && shape == other.shape
      && cp0.(selected := false) == other.cp0.(selected := false)
      && ct0.(selected := false) == other.ct0.(selected := false)
      && cp1.(selected := false) == other.cp1.(selected := false)
      && ct1.(selected := false) == other.ct1.(selected := false)
    }

    /** The two states agree on the selection flags and the handle sizes. */
    predicate SameSelection(other: CurveState) {
      && cp0.selected == other.cp0.selected && cp0.radius == other.cp0.radius && cp0.resolution == other.cp0.resolution
      && ct0.selected == other.ct0.selected && ct0.radius == other.ct0.radius && ct0.resolution == other.ct0.resolution
      && cp1.selected == other.cp1.selected && cp1.radius == other.cp1.radius && cp1.resolution == other.cp1.resolution
      && ct1.selected == other.ct1.selected && ct1.radius == other.ct1.radius && ct1.resolution == other.ct1.resolution
    }
  }

  /** Press at world point w: select the first handle, in the order cp0, ct0, cp1, ct1, that contains w. */
  function Press(q: CurveState, w: Point): (r: CurveState)
    ensures r.SameButSelection(q)
    ensures q.AnySelected() ==> r.AnySelected()
  {
    if q.cp0.Contains(w) then q.(cp0 := q.cp0.(selected := true))
    else if q.ct0.Contains(w) then q.(ct0 := q.ct0.(selected := true))
    else if q.cp1.Contains(w) then q.(cp1 := q.cp1.(selected := true))
    else if q.ct1.Contains(w) then q.(ct1 := q.ct1.(selected := true))
    else q
  }

  /**
    Move to world point w with the first selected handle, in the order
    cp0, cp1, ct0, ct1: an end point handle moves the end point and carries
    its tangent handle along; a tangent handle sets the tangent to w minus
    the end point.
  */
  function Drag(q: CurveState, w: Point): (r: CurveState)
    ensures r.SameSelection(q)
    ensures !q.AnySelected() ==> r == q
  {
    if q.cp0.selected then
      q.(shape := q.shape.(p0 := w), cp0 := q.cp0.(centre := w), ct0 := q.ct0.(centre := w.Add(q.shape.t0)))
    else if q.cp1.selected then
      q.(shape := q.shape.(p1 := w), cp1 := q.cp1.(centre := w), ct1 := q.ct1.(centre := w.Add(q.shape.t1)))
    else if q.ct0.selected then
      q.(shape := q.shape.(t0 := w.Sub(q.shape.p0)), ct0 := q.ct0.(centre := w))
    else if q.ct1.selected then
      q.(shape := q.shape.(t1 := w.Sub(q.shape.p1)), ct1 := q.ct1.(centre := w))
    else q
  }

  /** Release: every handle unselected. */
  function Release(q: CurveState): (r: CurveState)
    ensures !r.AnySelected()
    ensures r.SameButSelection(q)
  {
    q.(cp0 := q.cp0.(selected := false), ct0 := q.ct0.(selected := false),
       cp1 := q.cp1.(selected := false), ct1 := q.ct1.(selected := false))
  }

  /**
    A press only sets selection flags: the first handle that contains w is
    selected, the flags before it stay as they were, and nothing changes
    when no handle contains w.
  */
  lemma PressSelectsFirstHit(q: CurveState, w: Point)
    ensures var r := Press(q, w);
      && r.SameButSelection(q)
      && r.cp0.selected == (q.cp0.selected || q.cp0.Contains(w))
      && r.ct0.selected == (q.ct0.selected || (!q.cp0.Contains(w) && q.ct0.Contains(w)))
      && r.cp1.selected == (q.cp1.selected || (!q.cp0.Contains(w) && !q.ct0.Contains(w) && q.cp1.Contains(w)))
      && r.ct1.selected == (q.ct1.selected
           || (!q.cp0.Contains(w) && !q.ct0.Contains(w) && !q.cp1.Contains(w) && q.ct1.Contains(w)))
    ensures !q.cp0.Contains(w) && !q.ct0.Contains(w) && !q.cp1.Contains(w) && !q.ct1.Contains(w)
            ==> Press(q, w) == q
    ensures q.Synced() ==> Press(q, w).Synced()
  {
  }

  /** From an idle curve a press selects exactly one handle if one is hit, and none otherwise. */
  lemma PressFromIdle(q: CurveState, w: Point)
    requires !q.AnySelected()
    ensures Press(q, w).SelectedCount() <= 1
    ensures Press(q, w).AnySelected() <==>
      (q.cp0.Contains(w) || q.ct0.Contains(w) || q.cp1.Contains(w) || q.ct1.Contains(w))
    ensures Press(q, w).AnySelected() ==> Press(q, w).GrabbedAt(w)
  {
    var r := Press(q, w);
    if q.cp0.Contains(w) {
      HitIgnoresSelection(q.cp0, true, w);
      assert r.cp0.selected && !r.ct0.selected && !r.cp1.selected && !r.ct1.selected;
    } else if q.ct0.Contains(w) {
      HitIgnoresSelection(q.ct0, true, w);
      assert !r.cp0.selected && r.ct0.selected && !r.cp1.selected && !r.ct1.selected;
    } else if q.cp1.Contains(w) {
      HitIgnoresSelection(q.cp1, true, w);
      assert !r.cp0.selected && !r.ct0.selected && r.cp1.selected && !r.ct1.selected;
    } else if q.ct1.Contains(w) {
      HitIgnoresSelection(q.ct1, true, w);
      assert !r.cp0.selected && !r.ct0.selected && !r.cp1.selected && r.ct1.selected;
    } else {
      assert r == q;
    }
  }

  /**
    Selection is per curve: two curves that share their start point (h0 and
    h3 of a patch) both select their start handle on one press there, so the
    patch as a whole can hold two selected handles.
  */
  lemma SharedCornerSelectsBoth(a: CurveState, b: CurveState, w: Point)
    requires a.Synced() && b.Synced()
    requires a.shape.p0 == w && b.shape.p0 == w
    ensures Press(a, w).cp0.selected && Press(b, w).cp0.selected
  {
    assert a.cp0.Contains(w) && b.cp0.Contains(w);
  }

  /**
    A press on a curve's end point selects its end point handle as long as
    the handles tried before it (cp0 and ct0) miss the point.
  */
  lemma PressAtEndSelectsEnd(q: CurveState, w: Point)
    requires q.Synced() && q.shape.p1 == w
    requires !q.cp0.Contains(w) && !q.ct0.Contains(w)
    ensures Press(q, w).cp1.selected
  {
    assert q.cp1.Contains(w);
  }

  /** So two curves that share their end point both select it when those earlier handles miss in both. */
  lemma SharedEndSelectsBoth(a: CurveState, b: CurveState, w: Point)
    requires a.Synced() && b.Synced()
    requires a.shape.p1 == w && b.shape.p1 == w
    requires !a.cp0.Contains(w) && !a.ct0.Contains(w) && !b.cp0.Contains(w) && !b.ct0.Contains(w)
    ensures Press(a, w).cp1.selected && Press(b, w).cp1.selected
  {
    PressAtEndSelectsEnd(a, w);
    PressAtEndSelectsEnd(b, w);
  }

  /** A drag keeps the handles on their points and never touches the selection or the handle sizes. */
  lemma DragPreservesSync(q: CurveState, w: Point)
    ensures q.Synced() ==> Drag(q, w).Synced()
    ensures Drag(q, w).SameSelection(q)
    ensures Drag(q, w).shape.tangentScale == q.shape.tangentScale
  {
    if q.Synced() {
      AddSub(q.shape.p0, w);
      AddSub(q.shape.p1, w);
    }
  }

  /**
    What a drag does to the curve: an end point drag sets that end point to w
    and keeps its tangent, a tangent drag sets that tangent to w minus its end
    point, everything else stays, and with nothing selected nothing changes.
  */
  lemma DragEffect(q: CurveState, w: Point)
    ensures var r := Drag(q, w).shape;
      && (q.cp0.selected ==> r == q.shape.(p0 := w))
      && (!q.cp0.selected && q.cp1.selected ==> r == q.shape.(p1 := w))
      && (!q.cp0.selected && !q.cp1.selected && q.ct0.selected ==> r == q.shape.(t0 := w.Sub(q.shape.p0)))
      && ((!q.cp0.selected && !q.cp1.selected && !q.ct0.selected && q.ct1.selected)
            ==> r == q.shape.(t1 := w.Sub(q.shape.p1)))
    ensures !q.AnySelected() ==> Drag(q, w) == q
  {
  }

  /** While something is selected the pointer stays on a selected handle after every move. */
  lemma DragFollowsPointer(q: CurveState, w: Point)
    requires q.AnySelected()
    ensures Drag(q, w).GrabbedAt(w)
  {
    var r := Drag(q, w);
    if q.cp0.selected { assert r.cp0.centre == w; }
    else if q.cp1.selected { assert r.cp1.centre == w; }
    else if q.ct0.selected { assert r.ct0.centre == w; }
    else { assert r.ct1.centre == w; }
  }

  /** Dragging the start point handle by delta moves p0 and its tangent handle by delta. */
  lemma DragEndpointBy(q: CurveState, delta: Point)
    requires q.Synced() && q.cp0.selected
    ensures var r := Drag(q, q.cp0.centre.Add(delta));
      r.shape.p0 == q.shape.p0.Add(delta) && r.shape.t0 == q.shape.t0
      && r.ct0.centre == q.ct0.centre.Add(delta) && r.Synced()
  {
    DragPreservesSync(q, q.cp0.centre.Add(delta));
  }

  /** Dragging the start tangent handle (alone selected) by delta adds delta to the tangent vector. */
  lemma DragTangentBy(q: CurveState, delta: Point)
    requires q.Synced() && q.ct0.selected && !q.cp0.selected && !q.cp1.selected
    ensures var r := Drag(q, q.ct0.centre.Add(delta));
      r.shape.t0 == q.shape.t0.Add(delta) && r.shape.p0 == q.shape.p0 && r.Synced()
  {
    DragPreservesSync(q, q.ct0.centre.Add(delta));
  }

  /** Release leaves nothing selected, changes nothing else, and a second release changes nothing. */
  lemma ReleaseClears(q: CurveState)
    ensures !Release(q).AnySelected()
    ensures Release(q).SameButSelection(q)
    ensures Release(Release(q)) == Release(q)
    ensures q.Synced() ==> Release(q).Synced()
  {
  }

  // ---------------------------------------------------------------------------
  // Screen to world

  /**
    Maps viewport coordinates into the view volume of the canvas, mirrored
    horizontally: x = -1 lands on the right bound, x = 1 on the left one.
  */
  function ToWorldCoordinate(screen: Point, c: Canvas): Point {
    var rl := (c.viewRight - c.viewLeft) / 2.0;
    var bt := (c.viewTop - c.viewBottom) / 2.0;
    var hmid := c.viewLeft + rl;
    var vmid := c.viewBottom + bt;
    Point(hmid + rl * -screen.x, vmid + bt * screen.y)
  }

  /** The viewport centre maps to the centre of the view volume, its edges to the bounds (x mirrored). */
  lemma WorldCoordinateBounds(c: Canvas, x: real, y: real)
    ensures ToWorldCoordinate(Origin, c)
      == Point((c.viewLeft + c.viewRight) / 2.0, (c.viewBottom + c.viewTop) / 2.0)
    ensures ToWorldCoordinate(Point(-1.0, y), c).x == c.viewRight
    ensures ToWorldCoordinate(Point(1.0, y), c).x == c.viewLeft
    ensures ToWorldCoordinate(Point(x, 1.0), c).y == c.viewTop
    ensures ToWorldCoordinate(Point(x, -1.0), c).y == c.viewBottom
  {
  }

  // ---------------------------------------------------------------------------
  // The buffer of a curve in a given state

  /** The samples, the tangent lines, and the outlines of cp0, ct0, cp1 and ct1, in that order. */
  function StateBuffer(q: CurveState, n: nat, trig: Trig): seq<real>
    requires n != 1
  {
    CurveBuffer(q.shape, n, Outline(q.cp0, trig), Outline(q.ct0, trig), Outline(q.cp1, trig), Outline(q.ct1, trig))
  }

  /**
    With the stock handles a curve buffer holds n + 4 + 44 points: the n
    samples, the tangent lines from point n on, and the 11-point fan of
    handle j (cp0, ct0, cp1, ct1) from point n + 4 + 11 j on.
  */
  lemma StockBufferLayout(q: CurveState, n: nat, trig: Trig)
    requires n != 1 && StockHandles(q)
    ensures var b := StateBuffer(q, n, trig);
      && |b| == 2 * (n + 4 + 44)
      && b[..2 * n] == Samples(q.shape, n)
      && PointAt(b, n) == q.shape.p0 && PointAt(b, n + 1) == q.shape.p0.Add(q.shape.t0)
      && PointAt(b, n + 2) == q.shape.p1 && PointAt(b, n + 3) == q.shape.p1.Add(q.shape.t1)
      && b[2 * (n + 4 + 11 * 0) .. 2 * (n + 4 + 11 * 1)] == Outline(q.cp0, trig)
      && b[2 * (n + 4 + 11 * 1) .. 2 * (n + 4 + 11 * 2)] == Outline(q.ct0, trig)
      && b[2 * (n + 4 + 11 * 2) .. 2 * (n + 4 + 11 * 3)] == Outline(q.cp1, trig)
      && b[2 * (n + 4 + 11 * 3) .. 2 * (n + 4 + 11 * 4)] == Outline(q.ct1, trig)
  {
    CurveBufferLayout(q.shape, n, HandleSegments,
      Outline(q.cp0, trig), Outline(q.ct0, trig), Outline(q.cp1, trig), Outline(q.ct1, trig));
  }

  /** With the stock handles a curve buffer holds n + 4 + 44 points. */
  lemma StockBufferLength(q: CurveState, n: nat, trig: Trig)
    requires n != 1 && StockHandles(q)
    ensures |StateBuffer(q, n, trig)| == 2 * (n + 4 + 44)
  {
  }

  // ---------------------------------------------------------------------------
  // The curve object

  const HandleRadius: real := 0.2
  const HandleSegments: nat := 10

  /**
    A curve whose four handles have the stock radius and segment count.
    The handles are private to the curve and only the mouse handlers change
    them, so a curve keeps this for its whole life.
  */
  predicate StockHandles(q: CurveState) {
    && q.cp0.radius == HandleRadius && q.cp0.resolution == HandleSegments
    && q.ct0.radius == HandleRadius && q.ct0.resolution == HandleSegments
    && q.cp1.radius == HandleRadius && q.cp1.resolution == HandleSegments
    && q.ct1.radius == HandleRadius && q.ct1.resolution == HandleSegments
  }

  /** Press, move and release keep the stock handles. */
  lemma HandlersKeepStockHandles(q: CurveState, w: Point)
    requires StockHandles(q)
    ensures StockHandles(Press(q, w))
    ensures StockHandles(Drag(q, w))
    ensures StockHandles(Release(q))
  {
    PressSelectsFirstHit(q, w);
    DragPreservesSync(q, w);
  }

  class HermiteCurveComputer {
    var p0: Point
    var t0: Point
    var p1: Point
    var t1: Point
    var resolution: nat
    var startIndex: nat
    var startTangentIndex: nat
    const tangentScale: real
    const canvas: Canvas
    var cp0: Disc
    var ct0: Disc
    var cp1: Disc
    var ct1: Disc

    function Curve(): Shape
      reads this
    {
      Shape(p0, t0, p1, t1, tangentScale)
    }

    function State(): CurveState
      reads this
    {
      CurveState(Curve(), cp0, ct0, cp1, ct1)
    }

    /** The handles have their stock size. */
    ghost predicate Valid()
      reads this
    {
      StockHandles(State())
    }

    /** The same state and configuration as another curve. */
    ghost predicate Mirrors(other: HermiteCurveComputer)
      reads this, other
    {
      && State() == other.State()
      && resolution == other.resolution && startIndex == other.startIndex
      && startTangentIndex == other.startTangentIndex
      && tangentScale == other.tangentScale && canvas == other.canvas
    }

    /**
      The handles start unselected on p0, p0 + t0, p1 and p1 + t1. The start
      tangent index is computed from the resolution before that member is
      initialised, so its value is left open.
    */
    constructor (p0: Point, t0: Point, p1: Point, t1: Point, resolution: nat, startIndex: nat,
                 canvas: Canvas, tangentScale: real)
      ensures Valid()
      ensures State() == CurveState(Shape(p0, t0, p1, t1, tangentScale),
        Disc(p0, HandleRadius, HandleSegments, false), Disc(p0.Add(t0), HandleRadius, HandleSegments, false),
        Disc(p1, HandleRadius, HandleSegments, false), Disc(p1.Add(t1), HandleRadius, HandleSegments, false))
      ensures State().Synced() && !State().AnySelected()
      ensures this.resolution == resolution && this.startIndex == startIndex
      ensures this.canvas == canvas && this.tangentScale == tangentScale
    {
      this.p0, this.t0, this.p1, this.t1 := p0, t0, p1, t1;
      this.resolution := resolution;
      this.startIndex := startIndex;
      var indeterminate: nat :| true;
      this.startTangentIndex := indeterminate;
      this.canvas := canvas;
      this.tangentScale := tangentScale;
      this.cp0 := Disc(p0, HandleRadius, HandleSegments, false);
      this.ct0 := Disc(p0.Add(t0), HandleRadius, HandleSegments, false);
      this.cp1 := Disc(p1, HandleRadius, HandleSegments, false);
      this.ct1 := Disc(p1.Add(t1), HandleRadius, HandleSegments, false);
    }

    /** The default arguments: a horizontal curve from (0.25, 0) to (0.75, 0), 10 samples, buffer offset 0. */
    constructor Default(canvas: Canvas, tangentScale: real)
      ensures Valid()
      ensures Curve() == Shape(Point(0.25, 0.0), Point(0.1, 0.0), Point(0.75, 0.0), Point(-0.1, 0.0), tangentScale)
      ensures State().Synced() && !State().AnySelected()
      ensures resolution == 10 && startIndex == 0 && this.canvas == canvas
    {
      var p0, t0, p1, t1 := Point(0.25, 0.0), Point(0.1, 0.0), Point(0.75, 0.0), Point(-0.1, 0.0);
      this.p0, this.t0, this.p1, this.t1 := p0, t0, p1, t1;
      this.resolution := 10;
      this.startIndex := 0;
      var indeterminate: nat :| true;
      this.startTangentIndex := indeterminate;
      this.canvas := canvas;
      this.tangentScale := tangentScale;
      this.cp0 := Disc(p0, HandleRadius, HandleSegments, false);
      this.ct0 := Disc(p0.Add(t0), HandleRadius, HandleSegments, false);
      this.cp1 := Disc(p1, HandleRadius, HandleSegments, false);
      this.ct1 := Disc(p1.Add(t1), HandleRadius, HandleSegments, false);
    }

    /** Copy construction: curves are passed to the patch by value. */
    constructor Copy(other: HermiteCurveComputer)
      ensures Mirrors(other)
    {
      this.p0, this.t0, this.p1, this.t1 := other.p0, other.t0, other.p1, other.t1;
      this.resolution := other.resolution;
      this.startIndex := other.startIndex;
      this.startTangentIndex := other.startTangentIndex;
      this.canvas := other.canvas;
      this.tangentScale := other.tangentScale;
      this.cp0, this.ct0, this.cp1, this.ct1 := other.cp0, other.ct0, other.cp1, other.ct1;
    }

    method SetStartIndex(val: nat)
      modifies this`startIndex
      ensures startIndex == val
    {
      startIndex := val;
    }

    method SetStartTangentIndex(val: nat)
      modifies this`startTangentIndex
      ensures startTangentIndex == val
    {
      startTangentIndex := val;
    }

    method SetResolution(val: nat)
      modifies this`resolution
      ensures resolution == val
    {
      resolution := val;
    }

    /** Overwrites p0 alone; the handles are not re-centred, so a new value breaks the handle invariant. */
    method SetP0(val: Point)
      modifies this`p0
      ensures State() == old(State()).(shape := old(Curve()).(p0 := val))
      ensures old(State().Synced()) && val != old(p0) ==> !State().Synced()
    {
      p0 := val;
    }

    /** Overwrites t0 alone, without re-centring its handle. */
    method SetT0(val: Point)
      modifies this`t0
      ensures State() == old(State()).(shape := old(Curve()).(t0 := val))
      ensures old(State().Synced()) && val != old(t0) ==> !State().Synced()
    {
      t0 := val;
    }

    /** Overwrites p1 alone, without re-centring its handles. */
    method SetP1(val: Point)
      modifies this`p1
      ensures State() == old(State()).(shape := old(Curve()).(p1 := val))
      ensures old(State().Synced()) && val != old(p1) ==> !State().Synced()
    {
      p1 := val;
    }

    /** Overwrites t1 alone, without re-centring its handle. */
    method SetT1(val: Point)
      modifies this`t1
      ensures State() == old(State()).(shape := old(Curve()).(t1 := val))
      ensures old(State().Synced()) && val != old(t1) ==> !State().Synced()
    {
      t1 := val;
    }

    /** Some handle is selected. */
    predicate HasControlPointSelected()
      reads this
      ensures HasControlPointSelected() <==> State().AnySelected()
    {
      cp0.selected || ct0.selected || cp1.selected || ct1.selected
    }

    /** The buffer this curve contributes to the patch's vertex buffer. */
    function Buffer(trig: Trig): seq<real>
      reads this
      requires resolution != 1
    {
      StateBuffer(State(), resolution, trig)
    }

    /** Samples the curve and appends the tangent lines and the handle outlines cp0, ct0, cp1, ct1. */
    method ComputePoints(trig: Trig) returns (r: seq<real>)
      requires resolution != 1
      ensures r == Buffer(trig)
    {
      var c := Curve();
      var samples := ComputeSamples(c, resolution);
      var tangents := [c.p0.x, c.p0.y, c.p0.x + c.t0.x, c.p0.y + c.t0.y, c.p1.x, c.p1.y, c.p1.x + c.t1.x, c.p1.y + c.t1.y];
      var o0 := ComputeOutline(cp0, trig);
      var o1 := ComputeOutline(ct0, trig);
      var o2 := ComputeOutline(cp1, trig);
      var o3 := ComputeOutline(ct1, trig);
      r := samples + tangents + o0 + o1 + o2 + o3;
      CurveBufferParts(c, resolution, o0, o1, o2, o3);
    }

    /** Selects the first handle, in the order cp0, ct0, cp1, ct1, that contains the pressed point. */
    method MousePress(pos: Point)
      modifies this`cp0, this`ct0, this`cp1, this`ct1
      ensures State() == Press(old(State()), ToWorldCoordinate(pos, canvas))
      ensures old(Valid()) ==> Valid()
      ensures old(State().Synced()) ==> State().Synced()
    {
      var w := ToWorldCoordinate(pos, canvas);
      if Valid() {
        HandlersKeepStockHandles(State(), w);
      }
      PressSelectsFirstHit(State(), w);
      if cp0.Contains(w) {
        cp0 := cp0.(selected := true);
      } else if ct0.Contains(w) {
        ct0 := ct0.(selected := true);
      } else if cp1.Contains(w) {
        cp1 := cp1.(selected := true);
      } else if ct1.Contains(w) {
        ct1 := ct1.(selected := true);
      }
    }

    /** Moves the selected end point or tangent to the pointer and re-centres the affected handles. */
    method MouseMove(pos: Point)
      modifies this`p0, this`t0, this`p1, this`t1, this`cp0, this`ct0, this`cp1, this`ct1
      ensures State() == Drag(old(State()), ToWorldCoordinate(pos, canvas))
      ensures old(Valid()) ==> Valid()
      ensures old(State().Synced()) ==> State().Synced()
    {
      var w := ToWorldCoordinate(pos, canvas);
      if Valid() {
        HandlersKeepStockHandles(State(), w);
      }
      DragPreservesSync(State(), w);
      if cp0.selected {
        p0 := w;
        cp0 := cp0.(centre := w);
        ct0 := ct0.(centre := p0.Add(t0));
      } else if cp1.selected {
        p1 := w;
        cp1 := cp1.(centre := w);
        ct1 := ct1.(centre := p1.Add(t1));
      } else if ct0.selected {
        t0 := w.Sub(p0);
        ct0 := ct0.(centre := w);
      } else if ct1.selected {
        t1 := w.Sub(p1);
        ct1 := ct1.(centre := w);
      }
    }

    /** Unselects all four handles; the pointer position is not used. */
    method MouseRelease(pos: Point)
      modifies this`cp0, this`ct0, this`cp1, this`ct1
      ensures State() == Release(old(State()))
      ensures !HasControlPointSelected()
      ensures old(Valid()) ==> Valid()
      ensures old(State().Synced()) ==> State().Synced()
    {
      if Valid() {
        HandlersKeepStockHandles(State(), pos);
      }
      ReleaseClears(State());
      cp0 := cp0.(selected := false);
      ct0 := ct0.(selected := false);
      cp1 := cp1.(selected := false);
      ct1 := ct1.(selected := false);
    }
  }
}
