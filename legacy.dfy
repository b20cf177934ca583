/**
  The stand-alone editor curve (class HermiteCurve): the earlier,
  single-curve form of a boundary curve. It keeps its end points and
  tangents in viewport coordinates, weights the tangents as they are, tests
  its handles in the order cp0, cp1, cd0, cd1, and lays out their outlines
  in that order too.

  Its state is a Hermite.CurveState in which the start tangent handle cd0
  takes the place of ct0 and the end tangent handle cd1 that of ct1.
*/
module Legacy {
  import opened Geometry
  import opened Handles
  import opened Hermite

  const LegacyHandleRadius: real := 0.015
  const LegacyHandleSegments: nat := 15
  const LegacyResolution: nat := 30

  /** The handles have the radius and segment count this curve gives them. */
  predicate LegacyHandles(q: CurveState) {
    && q.cp0.radius == LegacyHandleRadius && q.cp0.resolution == LegacyHandleSegments
    && q.ct0.radius == LegacyHandleRadius && q.ct0.resolution == LegacyHandleSegments
    && q.cp1.radius == LegacyHandleRadius && q.cp1.resolution == LegacyHandleSegments
    && q.ct1.radius == LegacyHandleRadius && q.ct1.resolution == LegacyHandleSegments
  }

  /**
    The state right after construction, for given values of the four
    selection flags: the curve from (-0.5, 0) to (0.5, 0) with tangents
    (0.5, 0.5) and (-0.5, 0.5), and its handles on p0, p0 + d0, p1, p1 + d1.
  */
  function InitialState(s0: bool, s1: bool, s2: bool, s3: bool): (q: CurveState)
    ensures q.Synced() && LegacyHandles(q)
    ensures q.shape.p0 == Point(-0.5, 0.0) && q.shape.p1 == Point(0.5, 0.0)
    ensures q.cp0.selected == s0 && q.ct0.selected == s1 && q.cp1.selected == s2 && q.ct1.selected == s3
  {
    var p0, d0, p1, d1 := Point(-0.5, 0.0), Point(0.5, 0.5), Point(0.5, 0.0), Point(-0.5, 0.5);
    CurveState(Shape(p0, d0, p1, d1, 1.0),
      Disc(p0, LegacyHandleRadius, LegacyHandleSegments, s0),
      Disc(p0.Add(d0), LegacyHandleRadius, LegacyHandleSegments, s1),
      Disc(p1, LegacyHandleRadius, LegacyHandleSegments, s2),
      Disc(p1.Add(d1), LegacyHandleRadius, LegacyHandleSegments, s3))
  }

  /** Press at p: select the first handle, in the order cp0, cp1, cd0, cd1, that contains p. */
  function LegacyPress(q: CurveState, p: Point): (r: CurveState)
    ensures r.SameButSelection(q)
    ensures q.AnySelected() ==> r.AnySelected()
  {
    if q.cp0.Contains(p) then q.(cp0 := q.cp0.(selected := true))
    else if q.cp1.Contains(p) then q.(cp1 := q.cp1.(selected := true))
    else if q.ct0.Contains(p) then q.(ct0 := q.ct0.(selected := true))
    else if q.ct1.Contains(p) then q.(ct1 := q.ct1.(selected := true))
    else q
  }

  /**
    A press only sets selection flags: the first handle hit in the order
    cp0, cp1, cd0, cd1 is selected, the others keep their flags, and a press
    that hits nothing changes nothing. The handles stay on their points.
  */
  lemma LegacyPressSelectsFirstHit(q: CurveState, p: Point)
    ensures var r := LegacyPress(q, p);
      && r.SameButSelection(q)
      && r.cp0.selected == (q.cp0.selected || q.cp0.Contains(p))
      && r.cp1.selected == (q.cp1.selected || (!q.cp0.Contains(p) && q.cp1.Contains(p)))
      && r.ct0.selected == (q.ct0.selected || (!q.cp0.Contains(p) && !q.cp1.Contains(p) && q.ct0.Contains(p)))
      && r.ct1.selected == (q.ct1.selected
           || (!q.cp0.Contains(p) && !q.cp1.Contains(p) && !q.ct0.Contains(p) && q.ct1.Contains(p)))
    ensures !q.cp0.Contains(p) && !q.ct0.Contains(p) && !q.cp1.Contains(p) && !q.ct1.Contains(p)
            ==> LegacyPress(q, p) == q
    ensures q.Synced() ==> LegacyPress(q, p).Synced()
    ensures LegacyHandles(q) ==> LegacyHandles(LegacyPress(q, p))
  {
  }

  /**
    The two press orders agree except on a press that misses cp0 and hits
    both the start tangent handle and the end point handle.
  */
  lemma PressOrdersAgree(q: CurveState, p: Point)
    requires q.cp0.Contains(p) || !q.ct0.Contains(p) || !q.cp1.Contains(p)
    ensures LegacyPress(q, p) == Press(q, p)
  {
  }

  /** On such a press the curve computer takes the tangent handle, this curve the end point handle. */
  lemma PressOrdersDiffer(q: CurveState, p: Point)
    requires !q.cp0.Contains(p) && q.ct0.Contains(p) && q.cp1.Contains(p)
    requires !q.ct0.selected && !q.cp1.selected
    ensures Press(q, p).ct0.selected && !Press(q, p).cp1.selected
    ensures LegacyPress(q, p).cp1.selected && !LegacyPress(q, p).ct0.selected
  {
  }

  /**
    The buffer of this curve for n samples: the samples, the two tangent
    lines, then the outlines of cp0, cp1, cd0 and cd1, in that order.
  */
  function LegacyBuffer(q: CurveState, n: nat, trig: Trig): seq<real>
    requires n != 1
  {
    CurveBuffer(q.shape, n, Outline(q.cp0, trig), Outline(q.cp1, trig), Outline(q.ct0, trig), Outline(q.ct1, trig))
  }

  /**
    With its own handles the buffer holds n + 4 + 64 points: the samples, the
    tangent lines from point n on, and the 16-point fan of handle j (cp0, cp1,
    cd0, cd1) from point n + 4 + 16 j on.
  */
  lemma LegacyBufferLayout(q: CurveState, n: nat, trig: Trig)
    requires n != 1 && LegacyHandles(q)
    ensures var b := LegacyBuffer(q, n, trig);
      && |b| == 2 * (n + 4 + 64)
      && b[..2 * n] == Samples(q.shape, n)
      && PointAt(b, n) == q.shape.p0 && PointAt(b, n + 1) == q.shape.p0.Add(q.shape.t0)
      && PointAt(b, n + 2) == q.shape.p1 && PointAt(b, n + 3) == q.shape.p1.Add(q.shape.t1)
      && b[2 * (n + 4 + 16 * 0) .. 2 * (n + 4 + 16 * 1)] == Outline(q.cp0, trig)
      && b[2 * (n + 4 + 16 * 1) .. 2 * (n + 4 + 16 * 2)] == Outline(q.cp1, trig)
      && b[2 * (n + 4 + 16 * 2) .. 2 * (n + 4 + 16 * 3)] == Outline(q.ct0, trig)
      && b[2 * (n + 4 + 16 * 3) .. 2 * (n + 4 + 16 * 4)] == Outline(q.ct1, trig)
  {
    CurveBufferLayout(q.shape, n, LegacyHandleSegments,
      Outline(q.cp0, trig), Outline(q.cp1, trig), Outline(q.ct0, trig), Outline(q.ct1, trig));
  }

  /** The buffer is that of a curve computer whose two middle handles trade places. */
  lemma LegacyBufferSwapsMiddleFans(q: CurveState, n: nat, trig: Trig)
    requires n != 1
    ensures LegacyBuffer(q, n, trig) == StateBuffer(q.(ct0 := q.cp1, cp1 := q.ct0), n, trig)
  {
  }

  /**
    Finding, as written: the handles come out of construction with their
    selection flags uninitialised. Should the start point flag read as set,
    the first move, with no press before it, drags p0 to the pointer.
  */
  lemma StrayFlagMovesCurve(s1: bool, s2: bool, s3: bool, p: Point)
    requires p != Point(-0.5, 0.0)
    ensures var q := InitialState(true, s1, s2, s3);
      Drag(q, p).shape.p0 == p && Drag(q, p).shape != q.shape
  {
  }

  /** Corrected: with every flag cleared at construction, moves before a press change nothing. */
  lemma FreshCurveIgnoresMoves(p: Point)
    ensures !InitialState(false, false, false, false).AnySelected()
    ensures Drag(InitialState(false, false, false, false), p) == InitialState(false, false, false, false)
  {
  }

  class HermiteCurve {
    var p0: Point
    var d0: Point
    var p1: Point
    var d1: Point
    var cp0: Disc
    var cp1: Disc
    var cd0: Disc
    var cd1: Disc
    var resolution: nat
    const canvas: Canvas

    /** The curve, with the tangents weighted as they are. */
    function Curve(): Shape
      reads this
    {
      Shape(p0, d0, p1, d1, 1.0)
    }

    /** The state the mouse handlers work on, cd0 and cd1 in the tangent handle places. */
    function State(): CurveState
      reads this
    {
      CurveState(Curve(), cp0, cd0, cp1, cd1)
    }

    /**
      As written: the default curve, 30 samples, handles of radius 0.015 with
      15 segments on its points; the selection flags are never set, so they
      hold whatever they hold.
    */
    constructor (canvas: Canvas)
      ensures State() == InitialState(cp0.selected, cd0.selected, cp1.selected, cd1.selected)
      ensures resolution == LegacyResolution && this.canvas == canvas
    {
      var s0: bool :| true;
      var s1: bool :| true;
      var s2: bool :| true;
      var s3: bool :| true;
      var p0, d0, p1, d1 := Point(-0.5, 0.0), Point(0.5, 0.5), Point(0.5, 0.0), Point(-0.5, 0.5);
      this.p0, this.d0, this.p1, this.d1 := p0, d0, p1, d1;
      cp0 := Disc(p0, LegacyHandleRadius, LegacyHandleSegments, s0);
      cp1 := Disc(p1, LegacyHandleRadius, LegacyHandleSegments, s2);
      cd0 := Disc(p0.Add(d0), LegacyHandleRadius, LegacyHandleSegments, s1);
      cd1 := Disc(p1.Add(d1), LegacyHandleRadius, LegacyHandleSegments, s3);
      resolution := LegacyResolution;
      this.canvas := canvas;
    }

    /** Corrected construction: the same curve with every handle unselected. */
    constructor Initialised(canvas: Canvas)
      ensures State() == InitialState(false, false, false, false)
      ensures resolution == LegacyResolution && this.canvas == canvas
    {
      var p0, d0, p1, d1 := Point(-0.5, 0.0), Point(0.5, 0.5), Point(0.5, 0.0), Point(-0.5, 0.5);
      this.p0, this.d0, this.p1, this.d1 := p0, d0, p1, d1;
      cp0 := Disc(p0, LegacyHandleRadius, LegacyHandleSegments, false);
      cp1 := Disc(p1, LegacyHandleRadius, LegacyHandleSegments, false);
      cd0 := Disc(p0.Add(d0), LegacyHandleRadius, LegacyHandleSegments, false);
      cd1 := Disc(p1.Add(d1), LegacyHandleRadius, LegacyHandleSegments, false);
      resolution := LegacyResolution;
      this.canvas := canvas;
    }

    /** Overwrites the start point alone; its handles stay where they are. */
    method SetP0(val: Point)
      modifies this`p0
      ensures State() == old(State()).(shape := old(Curve()).(p0 := val))
      ensures old(State().Synced()) && val != old(p0) ==> !State().Synced()
    {
      p0 := val;
    }

    /** Overwrites the start tangent alone. */
    method SetD0(val: Point)
      modifies this`d0
      ensures State() == old(State()).(shape := old(Curve()).(t0 := val))
      ensures old(State().Synced()) && val != old(d0) ==> !State().Synced()
    {
      d0 := val;
    }

    /** The end point is published under the name p2. */
    method SetP2(val: Point)
      modifies this`p1
      ensures State() == old(State()).(shape := old(Curve()).(p1 := val))
      ensures old(State().Synced()) && val != old(p1) ==> !State().Synced()
    {
      p1 := val;
    }

    /** The end tangent is published under the name d2. */
    method SetD2(val: Point)
      modifies this`d1
      ensures State() == old(State()).(shape := old(Curve()).(t1 := val))
      ensures old(State().Synced()) && val != old(d1) ==> !State().Synced()
    {
      d1 := val;
    }

    /** Samples the curve, then appends the tangent lines and the outlines of cp0, cp1, cd0, cd1. */
    method ComputePoints(numPoints: nat, trig: Trig) returns (r: seq<real>)
      requires numPoints != 1
      ensures r == LegacyBuffer(State(), numPoints, trig)
    {
      var c := Curve();
      var samples := ComputeSamples(c, numPoints);
      var tangents := [p0.x, p0.y, p0.x + d0.x, p0.y + d0.y, p1.x, p1.y, p1.x + d1.x, p1.y + d1.y];
      var o0 := ComputeOutline(cp0, trig);
      var o1 := ComputeOutline(cp1, trig);
      var o2 := ComputeOutline(cd0, trig);
      var o3 := ComputeOutline(cd1, trig);
      r := samples + tangents + o0 + o1 + o2 + o3;
      CurveBufferParts(c, numPoints, o0, o1, o2, o3);
    }

    /** Selects the first handle, in the order cp0, cp1, cd0, cd1, that contains the pressed viewport point. */
    method MousePress(localPos: Point)
      requires canvas.width != 0.0 && canvas.height != 0.0
      modifies this`cp0, this`cp1, this`cd0, this`cd1
      ensures State() == LegacyPress(old(State()), ToViewportCoordSystem(localPos, canvas))
      ensures old(State().Synced()) ==> State().Synced()
    {
      var pos := ToViewportCoordSystem(localPos, canvas);
      LegacyPressSelectsFirstHit(State(), pos);
      if cp0.Contains(pos) {
        cp0 := cp0.(selected := true);
      } else if cp1.Contains(pos) {
        cp1 := cp1.(selected := true);
      } else if cd0.Contains(pos) {
        cd0 := cd0.(selected := true);
      } else if cd1.Contains(pos) {
        cd1 := cd1.(selected := true);
      }
    }

    /**
      Moves the first selected handle, in the order cp0, cp1, cd0, cd1, to the
      viewport point under the pointer: an end point carries its tangent
      handle along, a tangent becomes the pointer minus its end point.
    */
    method MouseMove(localPos: Point)
      requires canvas.width != 0.0 && canvas.height != 0.0
      modifies this`p0, this`d0, this`p1, this`d1, this`cp0, this`cp1, this`cd0, this`cd1
      ensures State() == Drag(old(State()), ToViewportCoordSystem(localPos, canvas))
      ensures old(State().Synced()) ==> State().Synced()
    {
      var pos := ToViewportCoordSystem(localPos, canvas);
      DragPreservesSync(State(), pos);
      if cp0.selected {
        p0 := pos;
        cd0 := cd0.(centre := p0.Add(d0));
        cp0 := cp0.(centre := pos);
      } else if cp1.selected {
        p1 := pos;
        cd1 := cd1.(centre := p1.Add(d1));
        cp1 := cp1.(centre := pos);
      } else if cd0.selected {
        d0 := pos.Sub(p0);
        cd0 := cd0.(centre := pos);
      } else if cd1.selected {
        d1 := pos.Sub(p1);
        cd1 := cd1.(centre := pos);
      }
    }

    /** Unselects the four handles. */
    method MouseRelease(localPos: Point)
      modifies this`cp0, this`cp1, this`cd0, this`cd1
      ensures State() == Release(old(State()))
      ensures !State().AnySelected()
      ensures old(State().Synced()) ==> State().Synced()
    {
      cp0 := cp0.(selected := false);
      cp1 := cp1.(selected := false);
      cd0 := cd0.(selected := false);
      cd1 := cd1.(selected := false);
    }
  }
}
