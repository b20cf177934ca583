/**
  The Ferguson patch object (class FergusonPatch): four boundary curves
  h0..h3 held by value, the probe parameters and display flags, the vertex
  buffers it produces, and the dispatch of mouse events to the curves.
*/
module Patch {
  import opened Geometry
  import opened Handles
  import opened Hermite
  import opened PatchSurface

  /** Points per curve block in the shared vertex buffer: samples, 4 tangent-line points, 4 fans of 11. */
  function Stride(n: nat): nat {
    n + 4 + 44
  }

  /** Where four blocks of length k laid end to end start and stop. */
  lemma FourBlocks(b0: seq<real>, b1: seq<real>, b2: seq<real>, b3: seq<real>, k: nat)
    requires |b0| == |b1| == |b2| == |b3| == k
    ensures var all := b0 + b1 + b2 + b3;
      && |all| == 4 * k
      && all[..k] == b0 && all[k .. 2 * k] == b1 && all[2 * k .. 3 * k] == b2 && all[3 * k ..] == b3
  {
    var all := b0 + b1 + b2 + b3;
    assert all[k ..] == b1 + b2 + b3;
    assert all[2 * k ..] == b2 + b3;
  }

  /** The points a fill wrote from point k on, read back from a buffer that holds them. */
  lemma FilledPoints(a: seq<Point>, f: nat -> Point, k: nat, r: seq<real>)
    requires 2 * (k + |a|) <= |r|
    requires forall j :: 0 <= j < |a| ==> f(j) == a[j]
    requires forall j :: 0 <= j < |a| ==> r[2 * (k + j)] == f(j).x && r[2 * (k + j) + 1] == f(j).y
    ensures forall j :: 0 <= j < |a| ==> PointAt(r, k + j) == a[j]
  {
    forall j | 0 <= j < |a|
      ensures PointAt(r, k + j) == a[j]
    {
      assert r[2 * (k + j)] == f(j).x && r[2 * (k + j) + 1] == f(j).y;
    }
  }

  /** The points of a first fill from point 0 on, in a buffer that a second fill past them left alone. */
  lemma KeptPoints(a: seq<Point>, f: nat -> Point, mid: seq<real>, r: seq<real>)
    requires |mid| == |r| == 4 * |a|
    requires forall j :: 0 <= j < |a| ==> f(j) == a[j]
    requires forall j :: 0 <= j < |a| ==> mid[2 * (0 + j)] == f(j).x && mid[2 * (0 + j) + 1] == f(j).y
    requires forall i :: 0 <= i < |r| && !(2 * |a| <= i < 2 * (|a| + |a|)) ==> r[i] == mid[i]
    ensures forall i :: 0 <= i < |a| ==> PointAt(r, i) == a[i]
  {
    forall i | 0 <= i < |a|
      ensures PointAt(r, i) == a[i]
    {
      assert mid[2 * (0 + i)] == f(i).x && mid[2 * (0 + i) + 1] == f(i).y;
      assert r[2 * i] == mid[2 * i] && r[2 * i + 1] == mid[2 * i + 1];
    }
  }

  /** A buffer holding the points of a and then those of b, and nothing else, is their flattening. */
  lemma TwoLinesUnique(a: seq<Point>, b: seq<Point>, r: seq<real>)
    requires |r| == 2 * |a| + 2 * |b|
    requires forall i :: 0 <= i < |a| ==> PointAt(r, i) == a[i]
    requires forall j :: 0 <= j < |b| ==> PointAt(r, |a| + j) == b[j]
    ensures r == Flatten(a + b)
  {
    forall i | 0 <= i < |a| + |b|
      ensures PointAt(r, i) == (a + b)[i]
    {
      if i >= |a| {
        assert PointAt(r, |a| + (i - |a|)) == b[i - |a|];
      }
    }
    FlattenUnique(r, a + b);
  }

  /** The probe buffer, from the two fills of the line array and the marker outline. */
  lemma ProbeFromFills(c0: Shape, c1: Shape, c2: Shape, c3: Shape, n: nat, u: real, v: real, trig: Trig,
                       mid: seq<real>, r: seq<real>, o: seq<real>)
    requires n != 1 && |mid| == |r| == 4 * n
    requires forall j :: 0 <= j < n ==>
      mid[2 * (0 + j)] == AlongV(c0, c1, c2, c3, n, u)(j).x && mid[2 * (0 + j) + 1] == AlongV(c0, c1, c2, c3, n, u)(j).y
    requires forall j :: 0 <= j < n ==>
      r[2 * (n + j)] == AlongU(c0, c1, c2, c3, n, v)(j).x && r[2 * (n + j) + 1] == AlongU(c0, c1, c2, c3, n, v)(j).y
    requires forall i :: 0 <= i < |r| && !(2 * n <= i < 2 * (n + n)) ==> r[i] == mid[i]
    requires o == Outline(ProbeMarker(c0, c1, c2, c3, u, v), trig)
    ensures r + o == ProbeBuffer(c0, c1, c2, c3, n, u, v, trig)
  {
    var lineV, lineU := LineV(c0, c1, c2, c3, n, u), LineU(c0, c1, c2, c3, n, v);
    KeptPoints(lineV, AlongV(c0, c1, c2, c3, n, u), mid, r);
    FilledPoints(lineU, AlongU(c0, c1, c2, c3, n, v), n, r);
    TwoLinesUnique(lineV, lineU, r);
  }

  class FergusonPatch {
    var resolution: nat
    var lastu: real
    var lastv: real
    const h0: HermiteCurveComputer
    const h1: HermiteCurveComputer
    const h2: HermiteCurveComputer
    const h3: HermiteCurveComputer
    const canvas: Canvas
    var shouldShowInterpolateLines: bool
    var shouldShowHandlers: bool

    /** Four distinct curve objects, each with its stock handles. */
    ghost predicate Valid()
      reads h0, h1, h2, h3
    {
      && h0 != h1 && h0 != h2 && h0 != h3 && h1 != h2 && h1 != h3 && h2 != h3
      && h0.Valid() && h1.Valid() && h2.Valid() && h3.Valid()
    }

    /** Where each curve sits in the vertex buffer; the mouse handlers never change it. */
    ghost function Placement(): seq<(nat, nat, nat)>
      reads h0, h1, h2, h3
    {
      [(h0.resolution, h0.startIndex, h0.startTangentIndex), (h1.resolution, h1.startIndex, h1.startTangentIndex),
       (h2.resolution, h2.startIndex, h2.startTangentIndex), (h3.resolution, h3.startIndex, h3.startTangentIndex)]
    }

    /** The configuration the application builds: one resolution throughout, curve k at point k (n + 48). */
    ghost predicate ApplicationLayout()
      reads this, h0, h1, h2, h3
    {
      && resolution != 1
      && h0.resolution == resolution && h1.resolution == resolution
      && h2.resolution == resolution && h3.resolution == resolution
      && h0.startIndex == 0 * Stride(resolution) && h1.startIndex == 1 * Stride(resolution)
      && h2.startIndex == 2 * Stride(resolution) && h3.startIndex == 3 * Stride(resolution)
    }

    /** The curves are copied in; the probe starts at the centre, hidden, with the handles shown. */
    constructor (a0: HermiteCurveComputer, a1: HermiteCurveComputer, a2: HermiteCurveComputer,
                 a3: HermiteCurveComputer, resolution: nat, canvas: Canvas)
      requires a0.Valid() && a1.Valid() && a2.Valid() && a3.Valid()
      ensures Valid()
      ensures fresh(h0) && fresh(h1) && fresh(h2) && fresh(h3)
      ensures h0.Mirrors(a0) && h1.Mirrors(a1) && h2.Mirrors(a2) && h3.Mirrors(a3)
      ensures this.resolution == resolution && this.canvas == canvas
      ensures lastu == 0.5 && lastv == 0.5
      ensures !shouldShowInterpolateLines && shouldShowHandlers
    {
      h0 := new HermiteCurveComputer.Copy(a0);
      h1 := new HermiteCurveComputer.Copy(a1);
      h2 := new HermiteCurveComputer.Copy(a2);
      h3 := new HermiteCurveComputer.Copy(a3);
      this.resolution := resolution;
      this.canvas := canvas;
      shouldShowInterpolateLines := false;
      lastu := 0.5;
      lastv := 0.5;
      shouldShowHandlers := true;
    }

    method SetResolution(val: nat)
      modifies this`resolution
      ensures resolution == val
    {
      resolution := val;
    }

    /** The surface point s(u, v) of the curves as they are now; it passes through the four corners. */
    function S(u: real, v: real): (r: Point)
      reads h0, h1, h2, h3
      ensures u == 0.0 && v == 0.0 ==> r == h0.p0
      ensures u == 0.0 && v == 1.0 ==> r == h0.p1
      ensures u == 1.0 && v == 0.0 ==> r == h2.p0
      ensures u == 1.0 && v == 1.0 ==> r == h2.p1
    {
      SurfaceCorners(h0.Curve(), h1.Curve(), h2.Curve(), h3.Curve());
      Surface(h0.Curve(), h1.Curve(), h2.Curve(), h3.Curve(), u, v)
    }

    /** The vertex buffer of the patch: the buffers of h0, h1, h2 and h3, in that order. */
    function Buffer(trig: Trig): seq<real>
      reads h0, h1, h2, h3
      requires h0.resolution != 1 && h1.resolution != 1 && h2.resolution != 1 && h3.resolution != 1
    {
      h0.Buffer(trig) + h1.Buffer(trig) + h2.Buffer(trig) + h3.Buffer(trig)
    }

    method ComputePoints(trig: Trig) returns (r: seq<real>)
      requires h0.resolution != 1 && h1.resolution != 1 && h2.resolution != 1 && h3.resolution != 1
      ensures r == Buffer(trig)
    {
      r := h0.ComputePoints(trig);
      var vCurve := h1.ComputePoints(trig);
      r := r + vCurve;
      vCurve := h2.ComputePoints(trig);
      r := r + vCurve;
      vCurve := h3.ComputePoints(trig);
      r := r + vCurve;
    }

    /** Records the probed parameters; the upload of the probe geometry is not modelled. */
    method InterpolateInnerPoint(u: real, v: real)
      modifies this`lastu, this`lastv
      ensures lastu == u && lastv == v
    {
      lastu := u;
      lastv := v;
    }

    /**
      Samples the line s(u, .) into points 0..n-1 and the line s(., v) into
      points n..2n-1 of one array, then appends the outline of a marker
      circle of radius 0.02 with 10 segments centred on s(u, v).
    */
    method ComputePointsForInterpolatingLines(u: real, v: real, trig: Trig) returns (r: seq<real>)
      requires resolution != 1
      ensures r == ProbeBuffer(h0.Curve(), h1.Curve(), h2.Curve(), h3.Curve(), resolution, u, v, trig)
    {
      var c0, c1, c2, c3 := h0.Curve(), h1.Curve(), h2.Curve(), h3.Curve();
      var n := resolution;
      var vertices := new real[2 * n * 2];
      var alongV, alongU := AlongV(c0, c1, c2, c3, n, u), AlongU(c0, c1, c2, c3, n, v);
      FillPairs(vertices, 0, n, alongV);
      ghost var mid := vertices[..];
      FillPairs(vertices, n, n, alongU);
      var circle := new Circle(S(u, v), ProbeRadius, ProbeSegments);
      var circleVertices := circle.ComputePoints(trig);
      r := vertices[..] + circleVertices;
      ProbeFromFills(c0, c1, c2, c3, n, u, v, trig, mid, vertices[..], circleVertices);
    }

    method ShowInterpolateLines()
      modifies this`shouldShowInterpolateLines
      ensures shouldShowInterpolateLines
    {
      shouldShowInterpolateLines := true;
    }

    method HideInterpolateLines()
      modifies this`shouldShowInterpolateLines
      ensures !shouldShowInterpolateLines
    {
      shouldShowInterpolateLines := false;
    }

    method ShowHandlers()
      modifies this`shouldShowHandlers
      ensures shouldShowHandlers
    {
      shouldShowHandlers := true;
    }

    method HideHandlers()
      modifies this`shouldShowHandlers
      ensures !shouldShowHandlers
    {
      shouldShowHandlers := false;
    }

    /**
      With the handles shown, forwards the press, in viewport coordinates, to
      all four curves; each curve selects its own first hit, so a press on a
      shared corner selects it in both curves. With the handles hidden nothing
      happens.
    */
    method MousePress(localPos: Point)
      requires Valid()
      requires shouldShowHandlers ==> canvas.width != 0.0 && canvas.height != 0.0
      modifies h0, h1, h2, h3
      ensures Valid() && Placement() == old(Placement())
      ensures !shouldShowHandlers ==>
        && h0.State() == old(h0.State()) && h1.State() == old(h1.State())
        && h2.State() == old(h2.State()) && h3.State() == old(h3.State())
      ensures shouldShowHandlers ==>
        var p := ToViewportCoordSystem(localPos, canvas);
        && h0.State() == Press(old(h0.State()), ToWorldCoordinate(p, h0.canvas))
        && h1.State() == Press(old(h1.State()), ToWorldCoordinate(p, h1.canvas))
        && h2.State() == Press(old(h2.State()), ToWorldCoordinate(p, h2.canvas))
        && h3.State() == Press(old(h3.State()), ToWorldCoordinate(p, h3.canvas))
    {
      if shouldShowHandlers {
        var p := ToViewportCoordSystem(localPos, canvas);
        h0.MousePress(p);
        h1.MousePress(p);
        h2.MousePress(p);
        h3.MousePress(p);
      }
    }

    /**
      Moves every curve that has a selected handle; a curve without one is
      not called, which leaves it as a drag would. The probe is recomputed at
      the same (u, v).
    */
    method MouseMove(localPos: Point)
      requires Valid()
      requires canvas.width != 0.0 && canvas.height != 0.0
      modifies this`lastu, this`lastv, h0, h1, h2, h3
      ensures Valid() && Placement() == old(Placement())
      ensures lastu == old(lastu) && lastv == old(lastv)
      ensures var p := ToViewportCoordSystem(localPos, canvas);
        && h0.State() == Drag(old(h0.State()), ToWorldCoordinate(p, h0.canvas))
        && h1.State() == Drag(old(h1.State()), ToWorldCoordinate(p, h1.canvas))
        && h2.State() == Drag(old(h2.State()), ToWorldCoordinate(p, h2.canvas))
        && h3.State() == Drag(old(h3.State()), ToWorldCoordinate(p, h3.canvas))
    {
      var p := ToViewportCoordSystem(localPos, canvas);
      MoveIfSelected(h0, p);
      MoveIfSelected(h1, p);
      MoveIfSelected(h2, p);
      MoveIfSelected(h3, p);
    }

    /**
      One step of mouseMove: a curve with a selected handle is moved and the
      probe is recomputed at the same (u, v); a curve without one is left as
      it is, which is what a drag would do to it.
    */
    method MoveIfSelected(h: HermiteCurveComputer, p: Point)
      modifies this`lastu, this`lastv, h`p0, h`t0, h`p1, h`t1, h`cp0, h`ct0, h`cp1, h`ct1
      ensures old(h.Valid()) ==> h.Valid()
      ensures h.State() == Drag(old(h.State()), ToWorldCoordinate(p, h.canvas))
      ensures lastu == old(lastu) && lastv == old(lastv)
    {
      if h.HasControlPointSelected() {
        h.MouseMove(p);
        InterpolateInnerPoint(lastu, lastv);
      } else {
        DragEffect(h.State(), ToWorldCoordinate(p, h.canvas));
      }
    }

    /** Releases every handle of every curve; the pointer position plays no part. */
    method MouseRelease(localPos: Point)
      requires Valid()
      requires canvas.width != 0.0 && canvas.height != 0.0
      modifies h0, h1, h2, h3
      ensures Valid() && Placement() == old(Placement())
      ensures h0.State() == Release(old(h0.State())) && h1.State() == Release(old(h1.State()))
      ensures h2.State() == Release(old(h2.State())) && h3.State() == Release(old(h3.State()))
      ensures !h0.HasControlPointSelected() && !h1.HasControlPointSelected()
      ensures !h2.HasControlPointSelected() && !h3.HasControlPointSelected()
    {
      var p := ToViewportCoordSystem(localPos, canvas);
      h0.MouseRelease(p);
      h1.MouseRelease(p);
      h2.MouseRelease(p);
      h3.MouseRelease(p);
    }
  }

  /**
    Under the application's layout the buffer of curve k sits exactly at its
    start index (so rewriting one curve there replaces that curve and nothing
    else), and the probe block starts right after the four curves.
  */
  lemma BufferOffsets(patch: FergusonPatch, trig: Trig)
    requires patch.Valid() && patch.ApplicationLayout()
    ensures var all, m := patch.Buffer(trig), Stride(patch.resolution);
      && |all| == 2 * ((patch.resolution + 4 + 44) * 4)
      && all[2 * patch.h0.startIndex .. 2 * patch.h0.startIndex + 2 * m] == patch.h0.Buffer(trig)
      && all[2 * patch.h1.startIndex .. 2 * patch.h1.startIndex + 2 * m] == patch.h1.Buffer(trig)
      && all[2 * patch.h2.startIndex .. 2 * patch.h2.startIndex + 2 * m] == patch.h2.Buffer(trig)
      && all[2 * patch.h3.startIndex .. 2 * patch.h3.startIndex + 2 * m] == patch.h3.Buffer(trig)
      && patch.h3.startIndex + patch.h3.resolution + 4 + 11 * 4 == (patch.resolution + 4 + 44) * 4
  {
    var n := patch.resolution;
    StockBufferLength(patch.h0.State(), n, trig);
    StockBufferLength(patch.h1.State(), n, trig);
    StockBufferLength(patch.h2.State(), n, trig);
    StockBufferLength(patch.h3.State(), n, trig);
    FourBlocks(patch.h0.Buffer(trig), patch.h1.Buffer(trig), patch.h2.Buffer(trig), patch.h3.Buffer(trig), 2 * Stride(n));
  }
}
