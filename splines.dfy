/**
 * The Splines page: a quadratic and a cubic curve on two canvases, sharing
 * one drag selection tagged with the curve it belongs to, numeric fields
 * that store whatever the parse produced (NaN included), and a
 * relative-mode linker that works on its own four points, not on the cubic
 * curve.
 */
module Splines {
  import opened Wrappers
  import opened Geometry
  import RelativeLinker

  datatype SplinesState = SplinesState(
    quad: seq<NumPoint>,
    cubic: seq<NumPoint>,
    dragging: Option<Selection>,
    enforceBounds: bool,
    link: RelativeLinker.LinkState)

  /** The points of one curve. */
  function PointsOf(s: SplinesState, c: CurveKind): seq<NumPoint> {
    if c == Quad then s.quad else s.cubic
  }

  /** Three quadratic points, four cubic ones, and a selection that names one of its curve's points. */
  predicate Wf(s: SplinesState) {
    |s.quad| == 3 && |s.cubic| == 4 &&
    (s.dragging.Some? ==> s.dragging.value.index < CurveLength(s.dragging.value.curve))
  }

  /** The page as mounted: both default curves, nothing selected, the linker's initial state. */
  function Initial(enforceBounds: bool): (s: SplinesState)
    ensures Wf(s) && s.dragging.None? && s.enforceBounds == enforceBounds
    ensures s.quad == [Lift(Point(50, 150)), Lift(Point(200, 50)), Lift(Point(350, 150))]
    ensures s.cubic == [Lift(Point(50, 150)), Lift(Point(150, 50)), Lift(Point(250, 250)), Lift(Point(350, 150))]
    ensures s.link == RelativeLinker.Initial()
  {
    SplinesState([Lift(Point(50, 150)), Lift(Point(200, 50)), Lift(Point(350, 150))],
                 [Lift(Point(50, 150)), Lift(Point(150, 50)), Lift(Point(250, 250)), Lift(Point(350, 150))],
                 None, enforceBounds, RelativeLinker.Initial())
  }

  /**
   * Mouse-down on one curve's canvas: the highest index of that curve within
   * the radius is selected, tagged with the curve; a miss keeps the selection.
   */
  function Press(s: SplinesState, curve: CurveKind, mouse: Point): (r: SplinesState)
    requires Wf(s)
    ensures Wf(r) && r == s.(dragging := r.dragging)
    ensures var ps := PointsOf(s, curve);
      (exists i :: 0 <= i < |ps| && HitNum(mouse, ps[i])) ==>
        r.dragging.Some? && r.dragging.value.curve == curve &&
        HitNum(mouse, ps[r.dragging.value.index]) &&
        forall j :: r.dragging.value.index < j < |ps| ==> !HitNum(mouse, ps[j])
    ensures var ps := PointsOf(s, curve);
      (forall i :: 0 <= i < |ps| ==> !HitNum(mouse, ps[i])) ==> r.dragging == s.dragging
  {
    match PressedNum(PointsOf(s, curve), mouse, None)
    case Some(i) => s.(dragging := Some(Selection(curve, i)))
    case None => s
  }

  /**
   * Mouse-move on the page: only the selected curve's selected point moves,
   * to the (possibly clamped) pointer; the other curve is untouched.
   */
  function Move(s: SplinesState, mouse: Point): (r: SplinesState)
    requires Wf(s)
    ensures Wf(r) && r == s.(quad := r.quad, cubic := r.cubic)
    ensures s.dragging.None? ==> r == s
    ensures s.dragging.Some? ==>
      var c, i := s.dragging.value.curve, s.dragging.value.index;
      PointsOf(r, c)[i] == Lift(Bound(mouse, s.enforceBounds)) &&
      (forall j :: 0 <= j < |PointsOf(s, c)| && j != i ==> PointsOf(r, c)[j] == PointsOf(s, c)[j]) &&
      (c == Quad ==> r.cubic == s.cubic) && (c == Cubic ==> r.quad == s.quad)
    ensures s.dragging.Some? && s.enforceBounds ==>
      exists p :: InCanvas(p) && PointsOf(r, s.dragging.value.curve)[s.dragging.value.index] == Lift(p)
  {
    match s.dragging
    case None => s
    case Some(Selection(c, i)) =>
      var pos := Lift(Bound(mouse, s.enforceBounds));
      if c == Quad then s.(quad := s.quad[i := pos]) else s.(cubic := s.cubic[i := pos])
  }

  /** Mouse-up on the page: the selection is cleared, whatever it was. */
  function Release(s: SplinesState): (r: SplinesState)
    requires Wf(s)
    ensures Wf(r) && r.dragging.None? && r == s.(dragging := None)
  {
    s.(dragging := None)
  }

  /**
   * Numeric entry on one curve's fields: the parsed value, NaN included,
   * replaces one coordinate of one point of that curve and nothing else.
   */
  function Input(s: SplinesState, curve: CurveKind, index: nat, axis: Axis, value: Num): (r: SplinesState)
    requires Wf(s) && index < CurveLength(curve)
    ensures Wf(r) && r == s.(quad := r.quad, cubic := r.cubic)
    ensures NumCoord(PointsOf(r, curve)[index], axis) == value
    ensures NumCoord(PointsOf(r, curve)[index], axis.Other()) == NumCoord(PointsOf(s, curve)[index], axis.Other())
    ensures forall j :: 0 <= j < CurveLength(curve) && j != index ==> PointsOf(r, curve)[j] == PointsOf(s, curve)[j]
    ensures curve == Quad ==> r.cubic == s.cubic
    ensures curve == Cubic ==> r.quad == s.quad
  {
    var ps := PointsOf(s, curve);
    var updated := ps[index := WithNumCoord(ps[index], axis, value)];
    if curve == Quad then s.(quad := updated) else s.(cubic := updated)
  }

  /** The mode button drives only the linker: neither curve nor the selection changes. */
  function Toggle(s: SplinesState): (r: SplinesState)
    requires Wf(s)
    ensures Wf(r) && r == s.(link := r.link)
    ensures r.link.isRelative == !s.link.isRelative
    ensures r.link.p0 == s.link.p0 && r.link.p1 == s.link.p1 && r.link.p2 == s.link.p2 && r.link.p3 == s.link.p3
    ensures r.link.isRelative ==> RelativeLinker.Linked(r.link)
  {
    s.(link := RelativeLinker.Toggle(s.link))
  }

  /** The linker's effect: in relative mode its points become linked; neither curve changes. */
  function Relink(s: SplinesState): (r: SplinesState)
    requires Wf(s)
    ensures Wf(r) && r == s.(link := r.link)
    ensures r.link == s.link.(p1 := r.link.p1, p2 := r.link.p2)
    ensures s.link.isRelative ==> RelativeLinker.Linked(r.link)
    ensures !s.link.isRelative ==> r == s
  {
    s.(link := RelativeLinker.Relink(s.link))
  }

  /**
   * A press never newly selects a point whose coordinate was typed in as
   * NaN: after the press that point is selected only if it already was.
   */
  lemma NaNPointNeverGrabbed(s: SplinesState, curve: CurveKind, index: nat, axis: Axis, mouse: Point)
    requires Wf(s) && index < CurveLength(curve)
    ensures var t := Input(s, curve, index, axis, NaN);
      Press(t, curve, mouse).dragging == Some(Selection(curve, index)) ==>
        s.dragging == Some(Selection(curve, index))
  {
    var t := Input(s, curve, index, axis, NaN);
    var p := PointsOf(t, curve)[index];
    assert NumCoord(p, axis).NaN?;
    assert !HitNum(mouse, p);
  }

  /** The page component: curve arrays updated in place, and the linker object it owns. */
  class Editor {
    const quadPoints: array<NumPoint>
    const cubicPoints: array<NumPoint>
    var dragging: Option<Selection>
    const enforceBounds: bool
    const linker: RelativeLinker.Linker

    ghost function Snapshot(): SplinesState
      reads this, quadPoints, cubicPoints, linker
    {
      SplinesState(quadPoints[..], cubicPoints[..], dragging, enforceBounds, linker.State())
    }

    ghost predicate Valid()
      reads this, quadPoints, cubicPoints, linker
    {
      Wf(Snapshot())
    }

    constructor (enforceBounds: bool)
      ensures Valid() && fresh(quadPoints) && fresh(cubicPoints) && fresh(linker)
      ensures Snapshot() == Initial(enforceBounds)
    {
      var q := new NumPoint[3];
      q[0], q[1], q[2] := Lift(Point(50, 150)), Lift(Point(200, 50)), Lift(Point(350, 150));
      var c := new NumPoint[4];
      c[0], c[1], c[2], c[3] := Lift(Point(50, 150)), Lift(Point(150, 50)), Lift(Point(250, 250)), Lift(Point(350, 150));
      quadPoints, cubicPoints := q, c;
      dragging := None;
      this.enforceBounds := enforceBounds;
      linker := new RelativeLinker.Linker();
      new;
      assert quadPoints[..] == [q[0], q[1], q[2]];
      assert cubicPoints[..] == [c[0], c[1], c[2], c[3]];
    }

    method MouseDown(curve: CurveKind, mouse: Point)
      requires Valid()
      modifies this
      ensures Valid() && Snapshot() == Press(old(Snapshot()), curve, mouse)
    {
      var points := if curve == Quad then quadPoints else cubicPoints;
      var hit := ScanPressNum(points, mouse, None);
      if hit.Some? {
        dragging := Some(Selection(curve, hit.value));
      }
    }

    method MouseMove(mouse: Point)
      requires Valid()
      modifies quadPoints, cubicPoints
      ensures Valid() && Snapshot() == Move(old(Snapshot()), mouse)
    {
      if dragging.None? {
        return;
      }
      var pos := Lift(Bound(mouse, enforceBounds));
      var index := dragging.value.index;
      if dragging.value.curve == Quad {
        quadPoints[index] := pos;
      } else {
        cubicPoints[index] := pos;
      }
    }

    method MouseUp()
      requires Valid()
      modifies this
      ensures Valid() && Snapshot() == Release(old(Snapshot()))
    {
      dragging := None;
    }

    method InputChange(curve: CurveKind, index: nat, axis: Axis, value: Num)
      requires Valid() && index < CurveLength(curve)
      modifies quadPoints, cubicPoints
      ensures Valid() && Snapshot() == Input(old(Snapshot()), curve, index, axis, value)
    {
      var points := if curve == Quad then quadPoints else cubicPoints;
      points[index] := WithNumCoord(points[index], axis, value);
    }

    method ToggleRelative()
      requires Valid()
      modifies linker
      ensures Valid() && Snapshot() == Toggle(old(Snapshot()))
    {
      linker.ToggleRelative();
    }

    method ApplyRelativeEffect()
      requires Valid()
      modifies linker
      ensures Valid() && Snapshot() == Relink(old(Snapshot()))
    {
      linker.ApplyRelativeEffect();
    }
  }
}
