/**
 * The quadratic Bezier editor: three control points edited by dragging them
 * on the canvas or by typing into their numeric fields. Numeric entry is not
 * validated, so a field that fails to parse stores NaN.
 */
module CurveQuadratic {
  import opened Wrappers
  import opened Geometry

  datatype QuadState = QuadState(points: seq<NumPoint>, dragging: Option<nat>, enforceBounds: bool)

  /** Three points, and a selected index (if any) that names one of them. */
  predicate Wf(s: QuadState) {
    |s.points| == 3 && (s.dragging.Some? ==> s.dragging.value < 3)
  }

  /** The editor as mounted: P0 = (50, 150), P1 = (200, 50), P2 = (350, 150), nothing selected. */
  function Initial(enforceBounds: bool): (s: QuadState)
    ensures Wf(s) && s.dragging.None? && s.enforceBounds == enforceBounds
    ensures s.points == [Lift(Point(50, 150)), Lift(Point(200, 50)), Lift(Point(350, 150))]
  {
    QuadState([Lift(Point(50, 150)), Lift(Point(200, 50)), Lift(Point(350, 150))], None, enforceBounds)
  }

  /** Mouse-down: the highest index within the radius is selected; a miss keeps the selection. */
  function Press(s: QuadState, mouse: Point): (r: QuadState)
    requires Wf(s)
    ensures Wf(r) && r == s.(dragging := r.dragging)
    ensures (exists i :: 0 <= i < 3 && HitNum(mouse, s.points[i])) ==>
      r.dragging.Some? && HitNum(mouse, s.points[r.dragging.value]) &&
      forall j :: r.dragging.value < j < 3 ==> !HitNum(mouse, s.points[j])
    ensures (forall i :: 0 <= i < 3 ==> !HitNum(mouse, s.points[i])) ==> r.dragging == s.dragging
  {
    s.(dragging := PressedNum(s.points, mouse, s.dragging))
  }

  /** Mouse-move: the selected point, and no other, moves to the (possibly clamped) pointer. */
  function Move(s: QuadState, mouse: Point): (r: QuadState)
    requires Wf(s)
    ensures Wf(r) && r == s.(points := r.points)
    ensures s.dragging.None? ==> r == s
    ensures s.dragging.Some? ==> r.points[s.dragging.value] == Lift(Bound(mouse, s.enforceBounds))
    ensures s.dragging.Some? ==>
      forall j :: 0 <= j < 3 && j != s.dragging.value ==> r.points[j] == s.points[j]
    ensures s.dragging.Some? && s.enforceBounds ==>
      exists p :: InCanvas(p) && r.points[s.dragging.value] == Lift(p)
  {
    match s.dragging
    case None => s
    case Some(i) => s.(points := s.points[i := Lift(Bound(mouse, s.enforceBounds))])
  }

  /** Mouse-up: the selection is cleared, whatever it was. */
  function Release(s: QuadState): (r: QuadState)
    requires Wf(s)
    ensures Wf(r) && r.dragging.None? && r == s.(dragging := None)
  {
    s.(dragging := None)
  }

  /**
   * Numeric entry: the parsed value, NaN included, replaces one coordinate of
   * one point and nothing else; a point given a NaN coordinate can no longer
   * be hit by any press.
   */
  function Input(s: QuadState, index: nat, axis: Axis, value: Num): (r: QuadState)
    requires Wf(s) && index < 3
    ensures Wf(r) && r == s.(points := r.points)
    ensures NumCoord(r.points[index], axis) == value
    ensures NumCoord(r.points[index], axis.Other()) == NumCoord(s.points[index], axis.Other())
    ensures forall j :: 0 <= j < 3 && j != index ==> r.points[j] == s.points[j]
    ensures value.NaN? ==> forall mouse :: !HitNum(mouse, r.points[index])
  {
    s.(points := s.points[index := WithNumCoord(s.points[index], axis, value)])
  }

  /**
   * A press never newly selects a point whose coordinate was typed in as
   * NaN: after the press that point is selected only if it already was.
   */
  lemma NaNPointNeverGrabbed(s: QuadState, index: nat, axis: Axis, mouse: Point)
    requires Wf(s) && index < 3
    ensures var t := Input(s, index, axis, NaN);
      Press(t, mouse).dragging == Some(index) ==> s.dragging == Some(index)
  {
    var t := Input(s, index, axis, NaN);
    assert !HitNum(mouse, t.points[index]);
  }

  /**
   * Scenario: pressing on P1 of the initial curve grabs it, and dragging it
   * to (210, 60) with bounds off gives exactly [[50, 150], [210, 60], [350, 150]].
   */
  lemma DragP1Scenario()
    ensures var s := Press(Initial(false), Point(200, 50));
      s.dragging == Some(1) &&
      Move(s, Point(210, 60)).points == [Lift(Point(50, 150)), Lift(Point(210, 60)), Lift(Point(350, 150))]
  {
    var s0 := Initial(false);
    assert HitNum(Point(200, 50), s0.points[1]);
    assert !HitNum(Point(200, 50), s0.points[2]);
  }

  /** What can happen to the editor from the canvas. */
  datatype PointerEvent = Down(mouse: Point) | MoveTo(mouse: Point) | Up

  /**
   * One canvas event: only a drag step with a point selected moves a point,
   * and it puts the selected point at the (clamped) pointer; a release
   * leaves nothing selected.
   */
  function Step(s: QuadState, e: PointerEvent): (r: QuadState)
    requires Wf(s)
    ensures Wf(r) && r.enforceBounds == s.enforceBounds
    ensures !(e.MoveTo? && s.dragging.Some?) ==> r.points == s.points
    ensures e.MoveTo? && s.dragging.Some? ==> r.points[s.dragging.value] == Lift(Bound(e.mouse, s.enforceBounds))
    ensures e.Up? ==> r.dragging.None?
  {
    match e
    case Down(mouse) => Press(s, mouse)
    case MoveTo(mouse) => Move(s, mouse)
    case Up => Release(s)
  }

  /**
   * A sequence of canvas events, applied in order; presses and releases
   * alone never move a point.
   */
  function Run(s: QuadState, events: seq<PointerEvent>): (r: QuadState)
    requires Wf(s)
    ensures Wf(r) && r.enforceBounds == s.enforceBounds
    ensures (forall k :: 0 <= k < |events| ==> !events[k].MoveTo?) ==> r.points == s.points
    decreases |events|
  {
    if events == [] then s
    else
      var r := Run(Step(s, events[0]), events[1..]);
      assert forall k :: 0 <= k < |events[1..]| ==> events[1..][k] == events[k + 1];
      r
  }

  /** A point with two numeric coordinates inside the 400 x 300 canvas. */
  predicate OnCanvas(p: NumPoint) {
    p.x.Finite? && p.y.Finite? && InCanvas(Point(p.x.v, p.y.v))
  }

  /** All three points are on the canvas. */
  predicate AllOnCanvas(s: QuadState)
    requires Wf(s)
  {
    forall i :: 0 <= i < 3 ==> OnCanvas(s.points[i])
  }

  /** The initial points lie on the canvas. */
  lemma InitialOnCanvas(enforceBounds: bool)
    ensures AllOnCanvas(Initial(enforceBounds))
  {
    var s := Initial(enforceBounds);
    assert OnCanvas(s.points[0]) && OnCanvas(s.points[1]) && OnCanvas(s.points[2]);
  }

  /** With bounds enforced, one canvas event keeps every point on the canvas. */
  lemma StepStaysOnCanvas(s: QuadState, e: PointerEvent)
    requires Wf(s) && s.enforceBounds && AllOnCanvas(s)
    ensures AllOnCanvas(Step(s, e))
  {
    match e
    case Down(mouse) =>
    case MoveTo(mouse) =>
      if s.dragging.Some? {
        var r := Move(s, mouse);
        var i := s.dragging.value;
        assert OnCanvas(r.points[i]);
        assert forall j :: 0 <= j < 3 && j != i ==> OnCanvas(r.points[j]);
      }
    case Up =>
  }

  /**
   * With bounds enforced, no sequence of presses, drags and releases takes a
   * point off the canvas, however far outside it the pointer goes.
   */
  lemma {:induction false} RunStaysOnCanvas(s: QuadState, events: seq<PointerEvent>)
    requires Wf(s) && s.enforceBounds && AllOnCanvas(s)
    ensures AllOnCanvas(Run(s, events))
    decreases |events|
  {
    if events != [] {
      StepStaysOnCanvas(s, events[0]);
      RunStaysOnCanvas(Step(s, events[0]), events[1..]);
    }
  }

  /** The editor component, with its state updated in place by its handlers. */
  class Editor {
    const points: array<NumPoint>
    var dragging: Option<nat>
    const enforceBounds: bool

    ghost function Snapshot(): QuadState
      reads this, points
    {
      QuadState(points[..], dragging, enforceBounds)
    }

    ghost predicate Valid()
      reads this, points
    {
      Wf(Snapshot())
    }

    constructor (enforceBounds: bool)
      ensures Valid() && fresh(points)
      ensures Snapshot() == Initial(enforceBounds)
    {
      var a := new NumPoint[3];
      a[0], a[1], a[2] := Lift(Point(50, 150)), Lift(Point(200, 50)), Lift(Point(350, 150));
      points := a;
      dragging := None;
      this.enforceBounds := enforceBounds;
      new;
      assert points[..] == [a[0], a[1], a[2]];
    }

    method MouseDown(mouse: Point)
      requires Valid()
      modifies this
      ensures Valid() && Snapshot() == Press(old(Snapshot()), mouse)
    {
      dragging := ScanPressNum(points, mouse, dragging);
    }

    method MouseMove(mouse: Point)
      requires Valid()
      modifies points
      ensures Valid() && Snapshot() == Move(old(Snapshot()), mouse)
    {
      if dragging.None? {
        return;
      }
      var pos := Bound(mouse, enforceBounds);
      points[dragging.value] := Lift(pos);
    }

    method MouseUp()
      requires Valid()
      modifies this
      ensures Valid() && Snapshot() == Release(old(Snapshot()))
    {
      dragging := None;
    }

    method InputChange(index: nat, axis: Axis, value: Num)
      requires Valid() && index < 3
      modifies points
      ensures Valid() && Snapshot() == Input(old(Snapshot()), index, axis, value)
    {
      points[index] := WithNumCoord(points[index], axis, value);
    }
  }
}
