/**
 * Pixel-space vocabulary shared by every control-point editor: points, the
 * numeric values a text field can produce, the hit test, clamping to the
 * canvas, and the "last hit wins" rule of the press scan.
 */
module Geometry {
  import opened Wrappers

  /** Every editor's canvas is declared 400 pixels wide and 300 high. */
  const Width: int := 400
  const Height: int := 300

  /** Default radius, in pixels, within which a press grabs a control point. */
  const Radius: int := 5

  /** A control point (or an offset between two of them) in canvas pixels. */
  datatype Point = Point(x: int, y: int)

  /** The coordinate a numeric field edits: 0 is x, 1 is y. */
  datatype Axis = X | Y {
    function Other(): Axis {
      if X? then Y else X
    }
  }

  /** A number produced by parsing a text field: an integer, or NaN when parsing fails. */
  datatype Num = NaN | Finite(v: int)

  /** A control point of an editor whose numeric entry can store NaN. */
  datatype NumPoint = NumPoint(x: Num, y: Num)

  /** The two canvases of the two-curve editors. */
  datatype CurveKind = Quad | Cubic

  /** Which curve and which of its points the pointer is dragging. */
  datatype Selection = Selection(curve: CurveKind, index: nat)

  /** Number of control points of each curve kind. */
  function CurveLength(c: CurveKind): nat {
    if c == Quad then 3 else 4
  }

  function Add(p: Point, d: Point): Point {
    Point(p.x + d.x, p.y + d.y)
  }

  /** The offset that carries q onto p. */
  function Sub(p: Point, q: Point): (d: Point)
    ensures Add(q, d) == p
  {
    Point(p.x - q.x, p.y - q.y)
  }

  function Coord(p: Point, axis: Axis): int {
    if axis == X then p.x else p.y
  }

  /** The point p with one coordinate replaced. */
  function WithCoord(p: Point, axis: Axis, v: int): (r: Point)
    ensures Coord(r, axis) == v
    ensures Coord(r, axis.Other()) == Coord(p, axis.Other())
  {
    if axis == X then p.(x := v) else p.(y := v)
  }

  function NumCoord(p: NumPoint, axis: Axis): Num {
    if axis == X then p.x else p.y
  }

  /** The point p with one coordinate replaced, NaN included. */
  function WithNumCoord(p: NumPoint, axis: Axis, v: Num): (r: NumPoint)
    ensures NumCoord(r, axis) == v
    ensures NumCoord(r, axis.Other()) == NumCoord(p, axis.Other())
  {
    if axis == X then p.(x := v) else p.(y := v)
  }

  /** A pointer position stored into an editor whose points may hold NaN. */
  function Lift(p: Point): NumPoint {
    NumPoint(Finite(p.x), Finite(p.y))
  }

  /** A coordinate difference beyond the radius alone already exceeds the squared radius. */
  lemma SquareBeyondRadius(d: int)
    ensures d * d >= 0
    ensures d > Radius || d < -Radius ==> d * d > Radius * Radius
  {
    var a := if d < 0 then -d else d;
    assert d * d == a * a;
    if a > Radius {
      assert a * a >= (Radius + 1) * a >= (Radius + 1) * (Radius + 1);
    }
  }

  /**
   * The hit test: the press is at Euclidean distance at most Radius from the
   * point. Comparing squared distances avoids the square root of Math.hypot.
   * A press on the point itself hits, and a hit lies in the 11 by 11 pixel
   * box around the point.
   */
  predicate Hit(mouse: Point, p: Point): (b: bool)
    ensures mouse == p ==> b
    ensures b ==> -Radius <= mouse.x - p.x <= Radius && -Radius <= mouse.y - p.y <= Radius
  {
    var dx, dy := mouse.x - p.x, mouse.y - p.y;
    SquareBeyondRadius(dx);
    SquareBeyondRadius(dy);
    dx * dx + dy * dy <= Radius * Radius
  }

  /**
   * Math.hypot with a NaN argument is NaN, and NaN <= 5 is false: a point
   * with a NaN coordinate is never hit, and a numeric point is hit exactly
   * as the plain hit test says.
   */
  predicate HitNum(mouse: Point, p: NumPoint): (b: bool)
    ensures p.x.NaN? || p.y.NaN? ==> !b
    ensures forall q :: p == Lift(q) ==> (b <==> Hit(mouse, q))
  {
    p.x.Finite? && p.y.Finite? && Hit(mouse, Point(p.x.v, p.y.v))
  }

  /** The radius is inclusive: a press exactly Radius pixels away (a 3-4-5 triangle) still hits. */
  lemma HitBoundaryInclusive(p: Point)
    ensures Hit(Add(p, Point(3, 4)), p)
    ensures !Hit(Add(p, Point(4, 4)), p)
  {
  }

  /** Math.min(Math.max(v, lo), hi). */
  function Clamp(v: int, lo: int, hi: int): (r: int)
    ensures r <= hi
    ensures lo <= hi ==> lo <= r
    ensures lo <= v <= hi ==> r == v
    ensures v < lo <= hi ==> r == lo
    ensures hi < v ==> r == hi
  {
    var atLeast := if v < lo then lo else v;
    if atLeast > hi then hi else atLeast
  }

  predicate InCanvas(p: Point) {
    0 <= p.x <= Width && 0 <= p.y <= Height
  }

  /**
   * The position a drag writes: the pointer itself, or, when bounds are
   * enforced, the pointer clamped to [0, Width] x [0, Height].
   */
  function Bound(p: Point, enforce: bool): (r: Point)
    ensures enforce ==> InCanvas(r)
    ensures !enforce || InCanvas(p) ==> r == p
    ensures enforce && p.x < 0 ==> r.x == 0
    ensures enforce && p.x > Width ==> r.x == Width
    ensures enforce && p.y < 0 ==> r.y == 0
    ensures enforce && p.y > Height ==> r.y == Height
    ensures enforce && 0 <= p.x <= Width ==> r.x == p.x
    ensures enforce && 0 <= p.y <= Height ==> r.y == p.y
  {
    if enforce then Point(Clamp(p.x, 0, Width), Clamp(p.y, 0, Height)) else p
  }

  /**
   * The index a forEach leaves behind when it records every index whose flag
   * is set: the last one, or None when no flag is set.
   */
  function LastTrue(flags: seq<bool>): (r: Option<nat>)
    ensures r.Some? ==> r.value < |flags| && flags[r.value]
    ensures r.Some? ==> forall j :: r.value < j < |flags| ==> !flags[j]
    ensures r.None? <==> forall j :: 0 <= j < |flags| ==> !flags[j]
  {
    if |flags| == 0 then None
    else if flags[|flags| - 1] then Some(|flags| - 1)
    else LastTrue(flags[..|flags| - 1])
  }

  /** Extending the scanned prefix by one flag: the forEach's step. */
  lemma LastTrueStep(flags: seq<bool>, i: nat)
    requires i < |flags|
    ensures LastTrue(flags[..i + 1]) == if flags[i] then Some(i) else LastTrue(flags[..i])
  {
    assert flags[..i + 1][..i] == flags[..i];
  }

  /** Which of the points a press at mouse hits. */
  function HitMask(ps: seq<Point>, mouse: Point): (r: seq<bool>)
    ensures |r| == |ps|
    ensures forall i :: 0 <= i < |ps| ==> r[i] == Hit(mouse, ps[i])
  {
    seq(|ps|, i requires 0 <= i < |ps| => Hit(mouse, ps[i]))
  }

  /** Which of the possibly-NaN points a press at mouse hits. */
  function HitMaskNum(ps: seq<NumPoint>, mouse: Point): (r: seq<bool>)
    ensures |r| == |ps|
    ensures forall i :: 0 <= i < |ps| ==> r[i] == HitNum(mouse, ps[i])
  {
    seq(|ps|, i requires 0 <= i < |ps| => HitNum(mouse, ps[i]))
  }

  /**
   * The selection after a press scan: the highest hit index, or the previous
   * selection when nothing is hit.
   */
  function Pressed(ps: seq<Point>, mouse: Point, current: Option<nat>): (r: Option<nat>)
    ensures (exists i :: 0 <= i < |ps| && Hit(mouse, ps[i])) ==>
      r.Some? && r.value < |ps| && Hit(mouse, ps[r.value]) &&
      forall j :: r.value < j < |ps| ==> !Hit(mouse, ps[j])
    ensures (forall i :: 0 <= i < |ps| ==> !Hit(mouse, ps[i])) ==> r == current
  {
    var last := LastTrue(HitMask(ps, mouse));
    if last.Some? then last else current
  }

  /** Pressed, for points that may hold NaN. */
  function PressedNum(ps: seq<NumPoint>, mouse: Point, current: Option<nat>): (r: Option<nat>)
    ensures (exists i :: 0 <= i < |ps| && HitNum(mouse, ps[i])) ==>
      r.Some? && r.value < |ps| && HitNum(mouse, ps[r.value]) &&
      forall j :: r.value < j < |ps| ==> !HitNum(mouse, ps[j])
    ensures (forall i :: 0 <= i < |ps| ==> !HitNum(mouse, ps[i])) ==> r == current
  {
    var last := LastTrue(HitMaskNum(ps, mouse));
    if last.Some? then last else current
  }

  /**
   * The press scan: visit the points in order and record every index the
   * press hits, so that the last hit wins.
   */
  method ScanPress(points: array<Point>, mouse: Point, current: Option<nat>) returns (selected: Option<nat>)
    ensures selected == Pressed(points[..], mouse, current)
  {
    ghost var hits := HitMask(points[..], mouse);
    selected := current;
    for i := 0 to points.Length
      invariant selected == (var last := LastTrue(hits[..i]); if last.Some? then last else current)
    {
      LastTrueStep(hits, i);
      if Hit(mouse, points[i]) {
        selected := Some(i);
      }
    }
    assert hits[..points.Length] == hits;
  }

  /** The press scan over points that may hold NaN. */
  method ScanPressNum(points: array<NumPoint>, mouse: Point, current: Option<nat>) returns (selected: Option<nat>)
    ensures selected == PressedNum(points[..], mouse, current)
  {
    ghost var hits := HitMaskNum(points[..], mouse);
    selected := current;
    for i := 0 to points.Length
      invariant selected == (var last := LastTrue(hits[..i]); if last.Some? then last else current)
    {
      LastTrueStep(hits, i);
      if HitNum(mouse, points[i]) {
        selected := Some(i);
      }
    }
    assert hits[..points.Length] == hits;
  }
}
