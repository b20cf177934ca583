/**
  The round handle markers (class Circle): a hit target that can be
  selected, re-centred, and sampled into a triangle-fan outline.
*/
module Handles {
  import opened Geometry

  /** The value of a handle: what a Circle object holds at one moment. */
  datatype Disc = Disc(centre: Point, radius: real, resolution: nat, selected: bool) {
    /** Hit test on squared distances; a point on the rim is inside. */
    predicate Contains(p: Point) {
      var dx := p.x - centre.x;
      var dy := p.y - centre.y;
      dx * dx + dy * dy <= radius * radius
    }
  }

  /** The centre is always a hit, and so is every point of the rim. */
  lemma ContainsCentreAndRim(d: Disc, p: Point)
    requires (p.x - d.centre.x) * (p.x - d.centre.x) + (p.y - d.centre.y) * (p.y - d.centre.y)
             == d.radius * d.radius
    ensures d.Contains(d.centre)
    ensures d.Contains(p)
  {
  }

  /** The hit test looks only at the centre and the radius. */
  lemma HitIgnoresSelection(d: Disc, b: bool, p: Point)
    ensures d.(selected := b).Contains(p) == d.Contains(p)
  {
  }

  /** A unit handle at the origin: (0.99, 0) is a hit, (1.01, 0) is not. */
  lemma UnitDiscScenario()
    ensures Disc(Origin, 1.0, 10, false).Contains(Point(0.99, 0.0))
    ensures !Disc(Origin, 1.0, 10, false).Contains(Point(1.01, 0.0))
  {
  }

  /** Rim point of step i: the centre moved by radius times (cos a, sin a). */
  function RimPoint(d: Disc, trig: Trig, i: nat): Point {
    d.centre.Add(trig(d.resolution, i).Scale(d.radius))
  }

  /**
    The resolution + 1 points of the outline of a handle: the rim point of
    every step, then a last point that stays at zero. The centre written
    first is overwritten by step 0, so it survives only in an outline of
    zero segments.
  */
  function OutlineVertices(d: Disc, trig: Trig): (r: seq<Point>)
    ensures |r| == d.resolution + 1
  {
    seq(d.resolution + 1, i requires 0 <= i =>
      if i < d.resolution then RimPoint(d, trig, i)
      else if d.resolution == 0 then d.centre
      else Origin)
  }

  /** The float buffer Circle::computePoints returns: the outline points as (x, y) pairs. */
  function Outline(d: Disc, trig: Trig): (r: seq<real>)
    ensures |r| == 2 * d.resolution + 2
  {
    Flatten(OutlineVertices(d, trig))
  }

  /** What the outline holds, point by point. */
  lemma OutlinePoints(d: Disc, trig: Trig)
    ensures forall i :: 0 <= i < d.resolution ==> PointAt(Outline(d, trig), i) == RimPoint(d, trig, i)
    ensures d.resolution > 0 ==> PointAt(Outline(d, trig), d.resolution) == Origin
    ensures d.resolution == 0 ==> PointAt(Outline(d, trig), 0) == d.centre
  {
  }

  /** A buffer holding the rim points and then the last pair of an outline is that outline. */
  lemma OutlineFromPairs(d: Disc, trig: Trig, r: seq<real>)
    requires |r| == 2 * d.resolution + 2
    requires forall j :: 0 <= j < d.resolution ==> PointAt(r, j) == RimPoint(d, trig, j)
    requires d.resolution == 0 ==> PointAt(r, 0) == d.centre
    requires d.resolution > 0 ==> PointAt(r, d.resolution) == Origin
    ensures r == Outline(d, trig)
  {
    var pts := OutlineVertices(d, trig);
    forall j | 0 <= j < |pts|
      ensures PointAt(r, j) == pts[j]
    {
    }
    FlattenUnique(r, pts);
  }

  /** The outline array after its centre is written and the rim steps are filled in. */
  lemma OutlineFromFill(d: Disc, trig: Trig, rim: nat -> Point, start: seq<real>, r: seq<real>)
    requires |start| == |r| == 2 * d.resolution + 2
    requires start[0] == d.centre.x && start[1] == d.centre.y
    requires d.resolution > 0 ==> start[2 * d.resolution] == 0.0 && start[2 * d.resolution + 1] == 0.0
    requires forall j :: 0 <= j < d.resolution ==> rim(j) == RimPoint(d, trig, j)
    requires forall j :: 0 <= j < d.resolution ==> r[2 * (0 + j)] == rim(j).x && r[2 * (0 + j) + 1] == rim(j).y
    requires forall i :: 0 <= i < |r| && !(2 * 0 <= i < 2 * (0 + d.resolution)) ==> r[i] == start[i]
    ensures r == Outline(d, trig)
  {
    var n := d.resolution;
    forall j | 0 <= j < n
      ensures PointAt(r, j) == RimPoint(d, trig, j)
    {
      assert r[2 * (0 + j)] == rim(j).x && r[2 * (0 + j) + 1] == rim(j).y;
    }
    if n == 0 {
      assert r[0] == start[0] && r[1] == start[1];
    } else {
      assert r[2 * n] == start[2 * n] && r[2 * n + 1] == start[2 * n + 1];
    }
    OutlineFromPairs(d, trig, r);
  }

  /** Writes point f(j) into point slot k + j of a (floats 2(k + j) and 2(k + j) + 1) for every j < n, and nothing else. */
  method FillPairs(a: array<real>, k: nat, n: nat, f: nat -> Point)
    requires 2 * (k + n) <= a.Length
    modifies a
    ensures forall j :: 0 <= j < n ==> a[2 * (k + j)] == f(j).x && a[2 * (k + j) + 1] == f(j).y
    ensures forall i :: 0 <= i < a.Length && !(2 * k <= i < 2 * (k + n)) ==> a[i] == old(a[i])
  {
    var j := 0;
    while j < n
      invariant 0 <= j <= n
      invariant forall l :: 0 <= l < j ==> a[2 * (k + l)] == f(l).x && a[2 * (k + l) + 1] == f(l).y
      invariant forall i :: 0 <= i < a.Length && !(2 * k <= i < 2 * (k + j)) ==> a[i] == old(a[i])
    {
      var p := f(j);
      a[2 * (k + j)] := p.x;
      a[2 * (k + j) + 1] := p.y;
      j := j + 1;
    }
  }

  /**
    Samples the outline of a handle for drawing as a triangle fan: the
    centre is written first, then point i of the rim for every step i.
  */
  method ComputeOutline(d: Disc, trig: Trig) returns (r: seq<real>)
    ensures r == Outline(d, trig)
  {
    var n := d.resolution;
    var vertices := new real[2 * n + 2](_ => 0.0);
    vertices[0] := d.centre.x;
    vertices[1] := d.centre.y;
    ghost var start := vertices[..];
    assert n > 0 ==> start[2 * n] == 0.0 && start[2 * n + 1] == 0.0;
    var rim: nat -> Point := (j: nat) => RimPoint(d, trig, j);
    FillPairs(vertices, 0, n, rim);
    r := vertices[..];
    OutlineFromFill(d, trig, rim, start, r);
  }

  /**
    A standalone handle marker whose fields change in place. The curves
    embed their handles by value and hold them as Disc values.
  */
  class Circle {
    var centre: Point
    var radius: real
    var resolution: nat
    var selected: bool

    /** The handle as a value. */
    function View(): Disc
      reads this
    {
      Disc(centre, radius, resolution, selected)
    }

    /** A new handle starts unselected. */
    constructor (centre: Point, radius: real, resolution: nat)
      ensures View() == Disc(centre, radius, resolution, false)
    {
      this.centre := centre;
      this.radius := radius;
      this.resolution := resolution;
      this.selected := false;
    }

    predicate Contains(p: Point)
      reads this
      ensures p == centre ==> Contains(p)
    {
      View().Contains(p)
    }

    predicate IsSelected()
      reads this
    {
      selected
    }

    method Select()
      modifies this`selected
      ensures IsSelected()
      ensures View() == old(View()).(selected := true)
    {
      selected := true;
    }

    method Unselect()
      modifies this`selected
      ensures !IsSelected()
      ensures View() == old(View()).(selected := false)
    {
      selected := false;
    }

    /** Re-centres the handle; radius, segment count and selection stay. */
    method SetCentre(val: Point)
      modifies this`centre
      ensures View() == old(View()).(centre := val)
    {
      centre := val;
    }

    method SetRadius(val: real)
      modifies this`radius
      ensures View() == old(View()).(radius := val)
    {
      radius := val;
    }

    method SetResolution(val: nat)
      modifies this`resolution
      ensures View() == old(View()).(resolution := val)
    {
      resolution := val;
    }

    /** The outline of the handle as it is now. */
    method ComputePoints(trig: Trig) returns (r: seq<real>)
      ensures r == Outline(View(), trig)
    {
      r := ComputeOutline(View(), trig);
    }
  }
}
