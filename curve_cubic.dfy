/**
 * The cubic Bezier editor: four control points edited by dragging them on
 * the canvas, by typing into their numeric fields, or by dragging a numeric
 * field vertically, with an optional relative mode that ties P1 to P0 and P2
 * to P3 by offsets.
 *
 * The functions below give each event handler's effect on a snapshot of the
 * editor's state; class Editor performs the same updates in place and proves
 * that it agrees with them.
 */
module CurveCubic {
  import opened Wrappers
  import opened Geometry

  /** A vertical drag on a numeric field: the field's value and the pointer's Y at the press. */
  datatype FieldDrag = FieldDrag(initialValue: int, initialY: int)

  datatype CubicState = CubicState(
    points: seq<Point>,
    dragging: Option<nat>,
    isRelative: bool,
    p1Offset: Point,
    p2Offset: Point,
    fieldDrag: Option<FieldDrag>,
    enforceBounds: bool)

  /** Four points, and a selected index (if any) that names one of them. */
  predicate Wf(s: CubicState) {
    |s.points| == 4 && (s.dragging.Some? ==> s.dragging.value < 4)
  }

  /** P1 sits at P0 plus p1Offset, and P2 at P3 plus p2Offset. */
  predicate Linked(s: CubicState)
    requires |s.points| == 4
  {
    s.points[1] == Add(s.points[0], s.p1Offset) && s.points[2] == Add(s.points[3], s.p2Offset)
  }

  /** The editor as mounted: absolute mode, nothing selected, offsets taken from the initial points. */
  function Initial(enforceBounds: bool): (s: CubicState)
    ensures Wf(s) && Linked(s)
    ensures s.points == [Point(50, 150), Point(150, 50), Point(250, 250), Point(350, 150)]
    ensures s.dragging.None? && s.fieldDrag.None? && !s.isRelative && s.enforceBounds == enforceBounds
  {
    CubicState([Point(50, 150), Point(150, 50), Point(250, 250), Point(350, 150)],
               None, false, Point(100, -100), Point(-100, 100), None, enforceBounds)
  }

  /** Mouse-down on the canvas: the highest index within the radius is selected; a miss keeps the selection. */
  function Press(s: CubicState, mouse: Point): (r: CubicState)
    requires Wf(s)
    ensures Wf(r) && r == s.(dragging := r.dragging)
    ensures (exists i :: 0 <= i < 4 && Hit(mouse, s.points[i])) ==>
      r.dragging.Some? && Hit(mouse, s.points[r.dragging.value]) &&
      forall j :: r.dragging.value < j < 4 ==> !Hit(mouse, s.points[j])
    ensures (forall i :: 0 <= i < 4 ==> !Hit(mouse, s.points[i])) ==> r.dragging == s.dragging
  {
    s.(dragging := Pressed(s.points, mouse, s.dragging))
  }

  /**
   * Mouse-move on the canvas: the selected point, and no other, moves to the
   * (possibly clamped) pointer; in relative mode dragging P1 or P2 re-derives
   * that point's offset from its anchor.
   */
  function Move(s: CubicState, mouse: Point): (r: CubicState)
    requires Wf(s)
    ensures Wf(r) && r.dragging == s.dragging && r.isRelative == s.isRelative
    ensures r.fieldDrag == s.fieldDrag && r.enforceBounds == s.enforceBounds
    ensures s.dragging.None? ==> r == s
    ensures s.dragging.Some? ==> r.points[s.dragging.value] == Bound(mouse, s.enforceBounds)
    ensures s.dragging.Some? ==>
      forall j :: 0 <= j < 4 && j != s.dragging.value ==> r.points[j] == s.points[j]
    ensures s.dragging.Some? && s.enforceBounds ==> InCanvas(r.points[s.dragging.value])
    ensures r.p1Offset == if s.isRelative && s.dragging == Some(1) then Sub(r.points[1], r.points[0]) else s.p1Offset
    ensures r.p2Offset == if s.isRelative && s.dragging == Some(2) then Sub(r.points[2], r.points[3]) else s.p2Offset
  {
    match s.dragging
    case None => s
    case Some(i) =>
      var pos := Bound(mouse, s.enforceBounds);
      var p1Offset := if s.isRelative && i == 1 then Sub(pos, s.points[0]) else s.p1Offset;
      var p2Offset := if s.isRelative && i == 2 then Sub(pos, s.points[3]) else s.p2Offset;
      s.(points := s.points[i := pos], p1Offset := p1Offset, p2Offset := p2Offset)
  }

  /** Mouse-up on the canvas: the selection is cleared, whatever it was. */
  function Release(s: CubicState): (r: CubicState)
    requires Wf(s)
    ensures Wf(r) && r.dragging.None? && r == s.(dragging := None)
  {
    s.(dragging := None)
  }

  /**
   * The mode button: the mode flips and the points stay; switching on takes
   * the offsets from the current points, switching off keeps the old offsets.
   */
  function Toggle(s: CubicState): (r: CubicState)
    requires Wf(s)
    ensures Wf(r) && r.isRelative == !s.isRelative
    ensures r == s.(isRelative := r.isRelative, p1Offset := r.p1Offset, p2Offset := r.p2Offset)
    ensures r.isRelative ==> Linked(r)
    ensures !r.isRelative ==> r.p1Offset == s.p1Offset && r.p2Offset == s.p2Offset
  {
    if s.isRelative then s.(isRelative := false)
    else s.(isRelative := true, p1Offset := Sub(s.points[1], s.points[0]), p2Offset := Sub(s.points[2], s.points[3]))
  }

  /** The relative-mode effect re-derives P1 unless something other than P0 is being dragged. */
  predicate RelinksP1(s: CubicState) {
    s.isRelative && (s.dragging.None? || s.dragging == Some(0))
  }

  /** The relative-mode effect re-derives P2 unless something other than P3 is being dragged. */
  predicate RelinksP2(s: CubicState) {
    s.isRelative && (s.dragging.None? || s.dragging == Some(3))
  }

  /**
   * The relative-mode effect: anchors never move; an interior point whose
   * anchor is idle or being dragged is put back at anchor plus offset, and an
   * interior point being dragged itself is left where the pointer put it.
   */
  function Relink(s: CubicState): (r: CubicState)
    requires Wf(s)
    ensures Wf(r) && r == s.(points := r.points)
    ensures r.points[0] == s.points[0] && r.points[3] == s.points[3]
    ensures !s.isRelative ==> r.points == s.points
    ensures r.points[1] == if RelinksP1(s) then Add(s.points[0], s.p1Offset) else s.points[1]
    ensures r.points[2] == if RelinksP2(s) then Add(s.points[3], s.p2Offset) else s.points[2]
    ensures s.isRelative && s.dragging.None? ==> Linked(r)
  {
    var p1 := if RelinksP1(s) then Add(s.points[0], s.p1Offset) else s.points[1];
    var p2 := if RelinksP2(s) then Add(s.points[3], s.p2Offset) else s.points[2];
    s.(points := s.points[1 := p1][2 := p2])
  }

  /**
   * Numeric entry: NaN is ignored; a number replaces one coordinate of one
   * point and nothing else.
   */
  function Input(s: CubicState, index: nat, axis: Axis, value: Num): (r: CubicState)
    requires Wf(s) && index < 4
    ensures Wf(r) && r == s.(points := r.points)
    ensures value.NaN? ==> r == s
    ensures value.Finite? ==> Coord(r.points[index], axis) == value.v
    ensures Coord(r.points[index], axis.Other()) == Coord(s.points[index], axis.Other())
    ensures forall j :: 0 <= j < 4 && j != index ==> r.points[j] == s.points[j]
  {
    match value
    case NaN => s
    case Finite(v) => s.(points := s.points[index := WithCoord(s.points[index], axis, v)])
  }

  /** Press on a numeric field: remember that field's value and the pointer's Y. */
  function DragStart(s: CubicState, index: nat, axis: Axis, clientY: int): (r: CubicState)
    requires Wf(s) && index < 4
    ensures Wf(r) && r == s.(fieldDrag := r.fieldDrag)
    ensures r.fieldDrag == Some(FieldDrag(Coord(s.points[index], axis), clientY))
  {
    s.(fieldDrag := Some(FieldDrag(Coord(s.points[index], axis), clientY)))
  }

  /**
   * A field drag step: without a drag in progress nothing happens; otherwise
   * the addressed coordinate becomes the captured value plus the upward
   * displacement of the pointer, and nothing else changes.
   */
  function DragTo(s: CubicState, index: nat, axis: Axis, clientY: int): (r: CubicState)
    requires Wf(s) && index < 4
    ensures Wf(r) && r == s.(points := r.points)
    ensures s.fieldDrag.None? ==> r == s
    ensures s.fieldDrag.Some? ==>
      Coord(r.points[index], axis) == s.fieldDrag.value.initialValue + (s.fieldDrag.value.initialY - clientY)
    ensures Coord(r.points[index], axis.Other()) == Coord(s.points[index], axis.Other())
    ensures forall j :: 0 <= j < 4 && j != index ==> r.points[j] == s.points[j]
  {
    match s.fieldDrag
    case None => s
    case Some(d) =>
      s.(points := s.points[index := WithCoord(s.points[index], axis, d.initialValue + (d.initialY - clientY))])
  }

  /** Mouse-up on the container ends the field drag. */
  function DragEnd(s: CubicState): (r: CubicState)
    requires Wf(s)
    ensures Wf(r) && r.fieldDrag.None? && r == s.(fieldDrag := None)
  {
    s.(fieldDrag := None)
  }

  /** Mouse-move on the container, wired to drag step index 0, axis 0. */
  function ContainerMove(s: CubicState, clientY: int): (r: CubicState)
    requires Wf(s)
    ensures Wf(r) && r == s.(points := r.points)
    ensures r.points[1..] == s.points[1..] && r.points[0].y == s.points[0].y
  {
    DragTo(s, 0, X, clientY)
  }

  /**
   * As wired, a field drag started on any field writes P0.x: the captured
   * value of the field that was pressed, plus the pointer's upward travel.
   */
  lemma FieldDragWritesP0X(s: CubicState, index: nat, axis: Axis, startY: int, clientY: int)
    requires Wf(s) && index < 4
    ensures var r := ContainerMove(DragStart(s, index, axis, startY), clientY);
      r.points == s.points[0 := Point(Coord(s.points[index], axis) + (startY - clientY), s.points[0].y)]
  {
    var t := DragStart(s, index, axis, startY);
    var r := ContainerMove(t, clientY);
    assert r.points[0] == Point(Coord(s.points[index], axis) + (startY - clientY), s.points[0].y);
    assert forall j :: 1 <= j < 4 ==> r.points[j] == r.points[1..][j - 1] == s.points[1..][j - 1] == s.points[j];
  }

  /** Toggling relative mode on and letting the effect run leaves every point where it was. */
  lemma ToggleOnKeepsPoints(s: CubicState)
    requires Wf(s) && !s.isRelative
    ensures Relink(Toggle(s)).points == s.points
  {
    var t := Toggle(s);
    assert Linked(t);
  }

  /** Running the effect twice is the same as running it once. */
  lemma RelinkIdempotent(s: CubicState)
    requires Wf(s)
    ensures Relink(Relink(s)) == Relink(s)
  {
  }

  /**
   * In relative mode, dragging an anchor of a linked curve carries its
   * interior point by the same displacement and leaves the other one alone.
   */
  lemma AnchorDragCarriesInterior(s: CubicState, mouse: Point)
    requires Wf(s) && s.isRelative && Linked(s)
    requires s.dragging == Some(0) || s.dragging == Some(3)
    ensures var r := Relink(Move(s, mouse)); var pos := Bound(mouse, s.enforceBounds);
      if s.dragging == Some(0) then
        r.points == [pos, Add(s.points[1], Sub(pos, s.points[0])), s.points[2], s.points[3]]
      else
        r.points == [s.points[0], s.points[1], Add(s.points[2], Sub(pos, s.points[3])), pos]
  {
    var m := Move(s, mouse);
    var r := Relink(m);
    var pos := Bound(mouse, s.enforceBounds);
    if s.dragging == Some(0) {
      assert r.points[1] == Add(pos, s.p1Offset);
    } else {
      assert r.points[2] == Add(pos, s.p2Offset);
    }
  }

  /**
   * In relative mode, a point dragged directly stays where the pointer left
   * it: the drag step, its effect, the release and the effect after the
   * release do not pull it back.
   */
  lemma InteriorDragSticks(s: CubicState, mouse: Point)
    requires Wf(s) && s.isRelative && (s.dragging == Some(1) || s.dragging == Some(2))
    ensures var r := Relink(Release(Relink(Move(s, mouse))));
      r.points[s.dragging.value] == Bound(mouse, s.enforceBounds) &&
      r.points[0] == s.points[0] && r.points[3] == s.points[3] && Linked(r)
  {
    var pos := Bound(mouse, s.enforceBounds);
    var m := Move(s, mouse);
    var e := Relink(m);
    assert e.points == m.points;
    var u := Release(e);
    var r := Relink(u);
    if s.dragging == Some(1) {
      assert r.points[1] == Add(s.points[0], Sub(pos, s.points[0]));
    } else {
      assert r.points[2] == Add(s.points[3], Sub(pos, s.points[3]));
    }
  }

  /**
   * Scenario: relative mode on over the initial points, P0
   * grabbed at its centre and dragged to (60, 140); P1 follows to (160, 40)
   * and P2 stays.
   */
  lemma AnchorDragScenario()
    ensures var s := Relink(Toggle(Initial(false)));
      var r := Relink(Move(Press(s, Point(50, 150)), Point(60, 140)));
      r.points == [Point(60, 140), Point(160, 40), Point(250, 250), Point(350, 150)]
  {
    var s := Relink(Toggle(Initial(false)));
    assert s.points == Initial(false).points;
    assert Hit(Point(50, 150), s.points[0]);
    assert forall j :: 0 < j < 4 ==> !Hit(Point(50, 150), s.points[j]);
    var p := Press(s, Point(50, 150));
    assert p.dragging == Some(0);
  }

  /** What can happen to the editor from the canvas and the mode button. */
  datatype CanvasEvent = Down(mouse: Point) | MoveTo(mouse: Point) | Up | ModeButton

  /**
   * The canvas sits inside the container, so a canvas mouse-up also reaches
   * handleDragEnd and a canvas mouse-move also reaches the container's drag
   * step. While no field drag is in progress both change nothing.
   */
  lemma BubbledHandlersIdle(s: CubicState, clientY: int)
    requires Wf(s) && s.fieldDrag.None?
    ensures DragEnd(s) == s && ContainerMove(s, clientY) == s
  {
  }

  /**
   * One event, while no field drag is in progress, followed by the
   * relative-mode effect; the container handlers the event bubbles to do
   * nothing then (BubbledHandlersIdle). The state before the event is one
   * the effect has settled (Relink(s) == s), and so is the state after it.
   * Where the event changes one of the effect's dependencies (the mode, the
   * selection, an offset or an anchor) React re-runs the effect; where it
   * changes none (a missed press, a release with nothing selected, a drag of
   * P1 or P2 in absolute mode) running Relink changes nothing, because the
   * state is already settled or absolute mode is on.
   *
   * Only a drag step moves an anchor, only the mode button changes the mode,
   * a release leaves nothing selected, and after a drag step the dragged
   * point sits at the (clamped) pointer, since the effect never pulls back
   * the point being dragged.
   */
  function Step(s: CubicState, e: CanvasEvent): (r: CubicState)
    requires Wf(s) && s.fieldDrag.None? && Relink(s) == s
    ensures Wf(r) && r.enforceBounds == s.enforceBounds && r.fieldDrag.None? && Relink(r) == r
    ensures !e.MoveTo? ==> r.points[0] == s.points[0] && r.points[3] == s.points[3]
    ensures r.isRelative == (if e.ModeButton? then !s.isRelative else s.isRelative)
    ensures e.Up? ==> r.dragging.None?
    ensures e.MoveTo? && s.dragging.Some? ==> r.points[s.dragging.value] == Bound(e.mouse, s.enforceBounds)
  {
    Relink(match e
      case Down(mouse) => Press(s, mouse)
      case MoveTo(mouse) => Move(s, mouse)
      case Up => Release(s)
      case ModeButton => Toggle(s))
  }

  /**
   * A sequence of canvas events, each followed by the effect, from a settled
   * state; no canvas event starts a field drag. Without a drag step the anchors P0 and P3 end where
   * they started, and without a press of the mode button the mode is
   * unchanged.
   */
  function Run(s: CubicState, events: seq<CanvasEvent>): (r: CubicState)
    requires Wf(s) && s.fieldDrag.None? && Relink(s) == s
    ensures Wf(r) && r.enforceBounds == s.enforceBounds && r.fieldDrag.None? && Relink(r) == r
    ensures (forall k :: 0 <= k < |events| ==> !events[k].MoveTo?) ==>
      r.points[0] == s.points[0] && r.points[3] == s.points[3]
    ensures (forall k :: 0 <= k < |events| ==> !events[k].ModeButton?) ==> r.isRelative == s.isRelative
    decreases |events|
  {
    if events == [] then s
    else
      var r := Run(Step(s, events[0]), events[1..]);
      assert forall k :: 0 <= k < |events[1..]| ==> events[1..][k] == events[k + 1];
      r
  }

  /** One canvas event and its effect keep P1 and P2 tied to their anchors while relative mode is on. */
  lemma StepKeepsLinked(s: CubicState, e: CanvasEvent)
    requires Wf(s) && s.fieldDrag.None? && (s.isRelative ==> Linked(s))
    ensures var r := Step(s, e); r.isRelative ==> Linked(r)
  {
    match e
    case Down(mouse) =>
    case MoveTo(mouse) =>
      var m := Move(s, mouse);
      if s.isRelative && s.dragging.Some? {
        var i := s.dragging.value;
        if i == 1 {
          assert m.points[1] == Add(m.points[0], m.p1Offset);
        } else if i == 2 {
          assert m.points[2] == Add(m.points[3], m.p2Offset);
        }
      }
    case Up =>
    case ModeButton =>
  }

  /**
   * However the user drags points and switches the mode on the canvas, with
   * no field drag in progress, P1 and P2 sit at their anchors plus their
   * offsets whenever relative mode is on.
   */
  lemma {:induction false} RunKeepsLinked(s: CubicState, events: seq<CanvasEvent>)
    requires Wf(s) && s.fieldDrag.None? && (s.isRelative ==> Linked(s))
    ensures var r := Run(s, events); r.isRelative ==> Linked(r)
    decreases |events|
  {
    if events != [] {
      StepKeepsLinked(s, events[0]);
      RunKeepsLinked(Step(s, events[0]), events[1..]);
    }
  }

  /**
   * With a field drag in progress the link does not survive a canvas drag:
   * the canvas handler moves P1 and takes its offset from the old P0, then
   * the container's drag step writes P0.x, and the effect leaves the selected
   * P1 where it is.
   */
  lemma FieldDragBreaksLink()
    ensures var s := Initial(false).(isRelative := true, dragging := Some(1), fieldDrag := Some(FieldDrag(50, 500)));
      var r := Relink(ContainerMove(Move(s, Point(160, 60)), 490));
      Linked(s) && r.isRelative && r.points[0] == Point(60, 150) && r.points[1] == Point(160, 60) &&
      r.p1Offset == Point(110, -90) && !Linked(r)
  {
    var s := Initial(false).(isRelative := true, dragging := Some(1), fieldDrag := Some(FieldDrag(50, 500)));
    var m := Move(s, Point(160, 60));
    assert m.points[1] == Point(160, 60) && m.p1Offset == Point(110, -90);
    var c := ContainerMove(m, 490);
    assert c.points[0] == Point(60, 150);
  }

  /**
   * Bounds are enforced only on the point under the pointer: in relative
   * mode with bounds on, dragging P0 of the initial curve to the canvas
   * corner (0, 0) carries P1 to (100, -100), above the canvas.
   */
  lemma RelativeEffectIgnoresBounds()
    ensures var s := Run(Initial(true), [ModeButton, Down(Point(50, 150)), MoveTo(Point(0, 0))]);
      s.points[0] == Point(0, 0) && s.points[1] == Point(100, -100) && !InCanvas(s.points[1])
  {
    var s0 := Initial(true);
    var s1 := Step(s0, ModeButton);
    assert s1.points == s0.points;
    assert Hit(Point(50, 150), s1.points[0]);
    assert forall j :: 0 < j < 4 ==> !Hit(Point(50, 150), s1.points[j]);
    var s2 := Step(s1, Down(Point(50, 150)));
    assert s2.dragging == Some(0);
    var s3 := Step(s2, MoveTo(Point(0, 0)));
    assert Run(s0, [ModeButton, Down(Point(50, 150)), MoveTo(Point(0, 0))]) == s3 by {
      var evs := [ModeButton, Down(Point(50, 150)), MoveTo(Point(0, 0))];
      assert evs[1..] == [Down(Point(50, 150)), MoveTo(Point(0, 0))];
      assert evs[1..][1..] == [MoveTo(Point(0, 0))];
      assert evs[1..][1..][1..] == [];
    }
  }

  /** The editor component, with its state updated in place by its handlers. */
  class Editor {
    const points: array<Point>
    var dragging: Option<nat>
    var isRelative: bool
    var p1Offset: Point
    var p2Offset: Point
    var fieldDrag: Option<FieldDrag>
    const enforceBounds: bool

    ghost function Snapshot(): CubicState
      reads this, points
    {
      CubicState(points[..], dragging, isRelative, p1Offset, p2Offset, fieldDrag, enforceBounds)
    }

    ghost predicate Valid()
      reads this, points
    {
      Wf(Snapshot())
    }

    constructor (enforceBounds: bool)
      ensures Valid() && fresh(points)
      ensures Snapshot() == Initial(enforceBounds)
    {
      var a := new Point[4];
      a[0], a[1], a[2], a[3] := Point(50, 150), Point(150, 50), Point(250, 250), Point(350, 150);
      points := a;
      dragging, isRelative, fieldDrag := None, false, None;
      p1Offset := Sub(a[1], a[0]);
      p2Offset := Sub(a[2], a[3]);
      this.enforceBounds := enforceBounds;
      new;
      assert points[..] == [a[0], a[1], a[2], a[3]];
    }

    method ToggleRelative()
      requires Valid()
      modifies this
      ensures Valid() && Snapshot() == Toggle(old(Snapshot()))
    {
      var wasRelative := isRelative;
      isRelative := !wasRelative;
      if !wasRelative {
        p1Offset := Sub(points[1], points[0]);
        p2Offset := Sub(points[2], points[3]);
      }
    }

    /** The relative-mode effect, run after a handler has changed what it depends on. */
    method ApplyRelativeEffect()
      requires Valid()
      modifies points
      ensures Valid() && Snapshot() == Relink(old(Snapshot()))
    {
      if isRelative {
        var p0, p3 := points[0], points[3];
        if dragging.None? || dragging == Some(0) {
          points[1] := Add(p0, p1Offset);
        }
        if dragging.None? || dragging == Some(3) {
          points[2] := Add(p3, p2Offset);
        }
      }
    }

    method MouseDown(mouse: Point)
      requires Valid()
      modifies this
      ensures Valid() && Snapshot() == Press(old(Snapshot()), mouse)
    {
      dragging := ScanPress(points, mouse, dragging);
    }

    method MouseMove(mouse: Point)
      requires Valid()
      modifies this, points
      ensures Valid() && Snapshot() == Move(old(Snapshot()), mouse)
    {
      if dragging.Some? {
        var index := dragging.value;
        var pos := Bound(mouse, enforceBounds);
        var prev0, prev3 := points[0], points[3];
        points[index] := pos;
        if isRelative {
          if index == 1 {
            p1Offset := Sub(pos, prev0);
          } else if index == 2 {
            p2Offset := Sub(pos, prev3);
          }
        }
      }
    }

    method MouseUp()
      requires Valid()
      modifies this
      ensures Valid() && Snapshot() == Release(old(Snapshot()))
    {
      dragging := None;
    }

    method HandleDragStart(index: nat, axis: Axis, clientY: int)
      requires Valid() && index < 4
      modifies this
      ensures Valid() && Snapshot() == DragStart(old(Snapshot()), index, axis, clientY)
    {
      fieldDrag := Some(FieldDrag(Coord(points[index], axis), clientY));
    }

    method HandleDrag(index: nat, axis: Axis, clientY: int)
      requires Valid() && index < 4
      modifies points
      ensures Valid() && Snapshot() == DragTo(old(Snapshot()), index, axis, clientY)
    {
      if fieldDrag.Some? {
        var delta := fieldDrag.value.initialY - clientY;
        var newValue := fieldDrag.value.initialValue + delta;
        points[index] := WithCoord(points[index], axis, newValue);
      }
    }

    method HandleDragEnd()
      requires Valid()
      modifies this
      ensures Valid() && Snapshot() == DragEnd(old(Snapshot()))
    {
      if fieldDrag.Some? {
        fieldDrag := None;
      }
    }

    /** The container's mouse-move: a drag step on index 0, axis 0, while a field drag is active. */
    method ContainerMouseMove(clientY: int)
      requires Valid()
      modifies points
      ensures Valid() && Snapshot() == ContainerMove(old(Snapshot()), clientY)
    {
      if fieldDrag.Some? {
        HandleDrag(0, X, clientY);
      }
    }

    method InputChange(index: nat, axis: Axis, value: Num)
      requires Valid() && index < 4
      modifies points
      ensures Valid() && Snapshot() == Input(old(Snapshot()), index, axis, value)
    {
      if value.NaN? {
        return;
      }
      points[index] := WithCoord(points[index], axis, value.v);
    }
  }
}
