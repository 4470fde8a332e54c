/**
 * The point-notation variant of the two-curve page: the mode button rewrites
 * the cubic curve's interior points between absolute coordinates and
 * offsets from their anchors (P1 from P0, P2 from P3), and pointer dragging
 * works on both curves with optional clamping to the canvas.
 */
module PointNotation {
  import opened Wrappers
  import opened Geometry

  datatype NotationState = NotationState(
    quad: seq<Point>,
    cubic: seq<Point>,
    dragging: Option<Selection>,
    isRelative: bool,
    enforceBounds: bool)

  /** The points of one curve. */
  function PointsOf(s: NotationState, c: CurveKind): seq<Point> {
    if c == Quad then s.quad else s.cubic
  }

  /** Three quadratic points, four cubic ones, and a selection that names one of its curve's points. */
  predicate Wf(s: NotationState) {
    |s.quad| == 3 && |s.cubic| == 4 &&
    (s.dragging.Some? ==> s.dragging.value.index < CurveLength(s.dragging.value.curve))
  }

  /** The page as mounted: both default curves in absolute notation, nothing selected. */
  function Initial(enforceBounds: bool): (s: NotationState)
    ensures Wf(s) && s.dragging.None? && !s.isRelative && s.enforceBounds == enforceBounds
    ensures s.quad == [Point(50, 150), Point(200, 50), Point(350, 150)]
    ensures s.cubic == [Point(50, 150), Point(150, 50), Point(250, 250), Point(350, 150)]
  {
    NotationState([Point(50, 150), Point(200, 50), Point(350, 150)],
                  [Point(50, 150), Point(150, 50), Point(250, 250), Point(350, 150)],
                  None, false, enforceBounds)
  }

  /**
   * Absolute to relative notation: the anchors stay, and each interior point
   * becomes the offset that carries its anchor onto it.
   */
  function ToRelative(ps: seq<Point>): (r: seq<Point>)
    requires |ps| == 4
    ensures |r| == 4 && r[0] == ps[0] && r[3] == ps[3]
    ensures Add(ps[0], r[1]) == ps[1] && Add(ps[3], r[2]) == ps[2]
  {
    [ps[0], Sub(ps[1], ps[0]), Sub(ps[2], ps[3]), ps[3]]
  }

  /**
   * Relative to absolute notation: the anchors stay, and each interior
   * offset is added to its anchor.
   */
  function ToAbsolute(ps: seq<Point>): (r: seq<Point>)
    requires |ps| == 4
    ensures |r| == 4 && r[0] == ps[0] && r[3] == ps[3]
    ensures Sub(r[1], ps[0]) == ps[1] && Sub(r[2], ps[3]) == ps[2]
  {
    [ps[0], Add(ps[0], ps[1]), Add(ps[3], ps[2]), ps[3]]
  }

  /** Converting to relative notation and back restores the points exactly. */
  lemma AbsoluteRoundTrip(ps: seq<Point>)
    requires |ps| == 4
    ensures ToAbsolute(ToRelative(ps)) == ps
  {
    var r := ToAbsolute(ToRelative(ps));
    assert forall k :: 0 <= k < 4 ==> r[k] == ps[k];
  }

  /** Converting to absolute notation and back restores the offsets exactly. */
  lemma RelativeRoundTrip(ps: seq<Point>)
    requires |ps| == 4
    ensures ToRelative(ToAbsolute(ps)) == ps
  {
    var r := ToRelative(ToAbsolute(ps));
    assert forall k :: 0 <= k < 4 ==> r[k] == ps[k];
  }

  /**
   * The mode button: the mode flips, the cubic curve is rewritten into the
   * other notation, and the quadratic curve and the selection stay.
   */
  function Toggle(s: NotationState): (r: NotationState)
    requires Wf(s)
    ensures Wf(r) && r == s.(isRelative := r.isRelative, cubic := r.cubic)
    ensures r.isRelative == !s.isRelative
    ensures r.cubic[0] == s.cubic[0] && r.cubic[3] == s.cubic[3]
    ensures s.isRelative ==> ToRelative(r.cubic) == s.cubic
    ensures !s.isRelative ==> ToAbsolute(r.cubic) == s.cubic
  {
    if s.isRelative then
      RelativeRoundTrip(s.cubic);
      s.(isRelative := false, cubic := ToAbsolute(s.cubic))
    else
      AbsoluteRoundTrip(s.cubic);
      s.(isRelative := true, cubic := ToRelative(s.cubic))
  }

  /** Pressing the mode button twice restores the whole page state. */
  lemma ToggleTwiceRestores(s: NotationState)
    requires Wf(s)
    ensures Toggle(Toggle(s)) == s
  {
    if s.isRelative {
      RelativeRoundTrip(s.cubic);
    } else {
      AbsoluteRoundTrip(s.cubic);
    }
  }

  /**
   * Mouse-down on one curve's canvas: the highest index of that curve within
   * the radius is selected, tagged with the curve; a miss keeps the selection.
   */
  function Press(s: NotationState, curve: CurveKind, mouse: Point): (r: NotationState)
    requires Wf(s)
    ensures Wf(r) && r == s.(dragging := r.dragging)
    ensures var ps := PointsOf(s, curve);
      (exists i :: 0 <= i < |ps| && Hit(mouse, ps[i])) ==>
        r.dragging.Some? && r.dragging.value.curve == curve &&
        Hit(mouse, ps[r.dragging.value.index]) &&
        forall j :: r.dragging.value.index < j < |ps| ==> !Hit(mouse, ps[j])
    ensures var ps := PointsOf(s, curve);
      (forall i :: 0 <= i < |ps| ==> !Hit(mouse, ps[i])) ==> r.dragging == s.dragging
  {
    match Pressed(PointsOf(s, curve), mouse, None)
    case Some(i) => s.(dragging := Some(Selection(curve, i)))
    case None => s
  }

  /**
   * Mouse-move on the page: only the selected curve's selected point moves,
   * to the (possibly clamped) pointer; the other curve is untouched.
   */
  function Move(s: NotationState, mouse: Point): (r: NotationState)
    requires Wf(s)
    ensures Wf(r) && r == s.(quad := r.quad, cubic := r.cubic)
    ensures s.dragging.None? ==> r == s
    ensures s.dragging.Some? ==>
      var c, i := s.dragging.value.curve, s.dragging.value.index;
      PointsOf(r, c)[i] == Bound(mouse, s.enforceBounds) &&
      (forall j :: 0 <= j < |PointsOf(s, c)| && j != i ==> PointsOf(r, c)[j] == PointsOf(s, c)[j]) &&
      (c == Quad ==> r.cubic == s.cubic) && (c == Cubic ==> r.quad == s.quad)
    ensures s.dragging.Some? && s.enforceBounds ==>
      InCanvas(PointsOf(r, s.dragging.value.curve)[s.dragging.value.index])
  {
    match s.dragging
    case None => s
    case Some(Selection(c, i)) =>
      var pos := Bound(mouse, s.enforceBounds);
      if c == Quad then s.(quad := s.quad[i := pos]) else s.(cubic := s.cubic[i := pos])
  }

  /** Mouse-up on the page: the selection is cleared, whatever it was. */
  function Release(s: NotationState): (r: NotationState)
    requires Wf(s)
    ensures Wf(r) && r.dragging.None? && r == s.(dragging := None)
  {
    s.(dragging := None)
  }

  /** The page component, with its curve arrays updated in place. */
  class Editor {
    const quadPoints: array<Point>
    const cubicPoints: array<Point>
    var dragging: Option<Selection>
    var isRelative: bool
    const enforceBounds: bool

    ghost function Snapshot(): NotationState
      reads this, quadPoints, cubicPoints
    {
      NotationState(quadPoints[..], cubicPoints[..], dragging, isRelative, enforceBounds)
    }

    ghost predicate Valid()
      reads this, quadPoints, cubicPoints
    {
      Wf(Snapshot())
    }

    constructor (enforceBounds: bool)
      ensures Valid() && fresh(quadPoints) && fresh(cubicPoints)
      ensures Snapshot() == Initial(enforceBounds)
    {
      var q := new Point[3];
      q[0], q[1], q[2] := Point(50, 150), Point(200, 50), Point(350, 150);
      var c := new Point[4];
      c[0], c[1], c[2], c[3] := Point(50, 150), Point(150, 50), Point(250, 250), Point(350, 150);
      quadPoints, cubicPoints := q, c;
      dragging, isRelative := None, false;
      this.enforceBounds := enforceBounds;
      new;
      assert quadPoints[..] == [q[0], q[1], q[2]];
      assert cubicPoints[..] == [c[0], c[1], c[2], c[3]];
    }

    method ToggleRelative()
      requires Valid()
      modifies this, cubicPoints
      ensures Valid() && Snapshot() == Toggle(old(Snapshot()))
    {
      var p0, p1, p2, p3 := cubicPoints[0], cubicPoints[1], cubicPoints[2], cubicPoints[3];
      if isRelative {
        cubicPoints[1] := Add(p0, p1);
        cubicPoints[2] := Add(p3, p2);
      } else {
        cubicPoints[1] := Sub(p1, p0);
        cubicPoints[2] := Sub(p2, p3);
      }
      isRelative := !isRelative;
      assert cubicPoints[..] == [cubicPoints[0], cubicPoints[1], cubicPoints[2], cubicPoints[3]];
    }

    method MouseDown(curve: CurveKind, mouse: Point)
      requires Valid()
      modifies this
      ensures Valid() && Snapshot() == Press(old(Snapshot()), curve, mouse)
    {
      var points := if curve == Quad then quadPoints else cubicPoints;
      var hit := ScanPress(points, mouse, None);
      if hit.Some? {
        dragging := Some(Selection(curve, hit.value));
      }
    }

    method MouseMove(mouse: Point)
      requires Valid()
      modifies quadPoints, cubicPoints
      ensures Valid() && Snapshot() == Move(old(Snapshot()), mouse)
    {
      if dragging.None? {
        return;
      }
      var pos := Bound(mouse, enforceBounds);
      var index := dragging.value.index;
      if dragging.value.curve == Quad {
        quadPoints[index] := pos;
      } else {
        cubicPoints[index] := pos;
      }
    }

    method MouseUp()
      requires Valid()
      modifies this
      ensures Valid() && Snapshot() == Release(old(Snapshot()))
    {
      dragging := None;
    }
  }
}
