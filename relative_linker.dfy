/**
 * The relative-mode linker over four separately stored points p0..p3: when
 * relative mode is switched on the offsets p1 - p0 and p2 - p3 are captured,
 * and while it is on an effect keeps p1 at p0 plus its offset and p2 at p3
 * plus its offset. The Splines page embeds the same linker.
 */
module RelativeLinker {
  import opened Geometry

  datatype LinkState = LinkState(
    isRelative: bool,
    p0: Point, p1: Point, p2: Point, p3: Point,
    p1Offset: Point, p2Offset: Point)

  /** p1 sits at p0 plus p1Offset, and p2 at p3 plus p2Offset. */
  predicate Linked(s: LinkState) {
    s.p1 == Add(s.p0, s.p1Offset) && s.p2 == Add(s.p3, s.p2Offset)
  }

  /** The points as mounted, with the offsets computed from them; absolute mode. */
  function Initial(): (s: LinkState)
    ensures !s.isRelative && Linked(s)
    ensures s.p0 == Point(10, 10) && s.p1 == Point(15, 20) && s.p2 == Point(30, 40) && s.p3 == Point(50, 60)
    ensures s.p1Offset == Point(5, 10) && s.p2Offset == Point(-20, -20)
  {
    var p0, p1, p2, p3 := Point(10, 10), Point(15, 20), Point(30, 40), Point(50, 60);
    LinkState(false, p0, p1, p2, p3, Sub(p1, p0), Sub(p2, p3))
  }

  /**
   * The mode button: the mode flips and no point moves; switching on
   * captures offsets that link the current points, switching off keeps the
   * offsets.
   */
  function Toggle(s: LinkState): (r: LinkState)
    ensures r.isRelative == !s.isRelative
    ensures r.p0 == s.p0 && r.p1 == s.p1 && r.p2 == s.p2 && r.p3 == s.p3
    ensures r.isRelative ==> Linked(r)
    ensures !r.isRelative ==> r.p1Offset == s.p1Offset && r.p2Offset == s.p2Offset
  {
    if s.isRelative then s.(isRelative := false)
    else s.(isRelative := true, p1Offset := Sub(s.p1, s.p0), p2Offset := Sub(s.p2, s.p3))
  }

  /**
   * The effect: in relative mode p1 and p2 are put at their anchors plus
   * their offsets; the anchors, the offsets and the mode never change, and in
   * absolute mode nothing changes.
   */
  function Relink(s: LinkState): (r: LinkState)
    ensures r == s.(p1 := r.p1, p2 := r.p2)
    ensures s.isRelative ==> Linked(r)
    ensures !s.isRelative ==> r == s
  {
    if s.isRelative then s.(p1 := Add(s.p0, s.p1Offset), p2 := Add(s.p3, s.p2Offset)) else s
  }

  /** Switching relative mode on, with the effect that follows, moves no point. */
  lemma ToggleOnKeepsPoints(s: LinkState)
    requires !s.isRelative
    ensures Relink(Toggle(s)) == Toggle(s)
  {
    assert Linked(Toggle(s));
  }

  /**
   * Switching relative mode on, off and on again without moving a point,
   * with the effect after every switch, leaves all four points where they
   * were and ends with the same offsets as the first switch captured.
   */
  lemma ToggleOnOffOnKeepsPoints(s: LinkState)
    requires !s.isRelative
    ensures var on := Relink(Toggle(s));
      var r := Relink(Toggle(Relink(Toggle(on))));
      r.p0 == s.p0 && r.p1 == s.p1 && r.p2 == s.p2 && r.p3 == s.p3 &&
      r.isRelative && r.p1Offset == on.p1Offset && r.p2Offset == on.p2Offset
  {
    ToggleOnKeepsPoints(s);
    var on := Relink(Toggle(s));
    var off := Relink(Toggle(on));
    assert off == Toggle(on);
    ToggleOnKeepsPoints(off);
  }

  /**
   * While linked in relative mode, moving an anchor by d and letting the
   * effect run moves its interior point by the same d and leaves the other
   * pair alone.
   */
  lemma AnchorMoveCarriesInterior(s: LinkState, d: Point)
    requires s.isRelative && Linked(s)
    ensures var r := Relink(s.(p0 := Add(s.p0, d)));
      r.p0 == Add(s.p0, d) && r.p1 == Add(s.p1, d) && r.p2 == s.p2 && r.p3 == s.p3
    ensures var r := Relink(s.(p3 := Add(s.p3, d)));
      r.p3 == Add(s.p3, d) && r.p2 == Add(s.p2, d) && r.p1 == s.p1 && r.p0 == s.p0
  {
    var r0 := Relink(s.(p0 := Add(s.p0, d)));
    assert r0.p1 == Add(Add(s.p0, d), s.p1Offset);
    var r3 := Relink(s.(p3 := Add(s.p3, d)));
    assert r3.p2 == Add(Add(s.p3, d), s.p2Offset);
  }

  /** The linker component, with its state fields set in place. */
  class Linker {
    var isRelative: bool
    var p0: Point
    var p1: Point
    var p2: Point
    var p3: Point
    var p1Offset: Point
    var p2Offset: Point

    ghost function State(): LinkState
      reads this
    {
      LinkState(isRelative, p0, p1, p2, p3, p1Offset, p2Offset)
    }

    constructor ()
      ensures State() == Initial()
    {
      var a0, a1, a2, a3 := Point(10, 10), Point(15, 20), Point(30, 40), Point(50, 60);
      isRelative := false;
      p0, p1, p2, p3 := a0, a1, a2, a3;
      p1Offset := Sub(a1, a0);
      p2Offset := Sub(a2, a3);
    }

    method ToggleRelative()
      modifies this
      ensures State() == Toggle(old(State()))
    {
      var wasRelative := isRelative;
      isRelative := !wasRelative;
      if !wasRelative {
        p1Offset := Sub(p1, p0);
        p2Offset := Sub(p2, p3);
      }
    }

    /** The effect that runs when the mode, an anchor or an offset has changed. */
    method ApplyRelativeEffect()
      modifies this
      ensures State() == Relink(old(State()))
    {
      if isRelative {
        p1 := Add(p0, p1Offset);
        p2 := Add(p3, p2Offset);
      }
    }
  }
}
