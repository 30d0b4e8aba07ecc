/**
 * Frame resolution of the current revision of DAExpandAnimation: the collapsed
 * frame the presented view grows from, the expanded frame it grows to, the two
 * strips the background view is cut into and the distances they slide.
 * All rectangles are in the background view's coordinates, except the expanded
 * frame, which is in the window's.
 */
module Frames {
  import opened Geometry

  /** Everything `animateTransition` derives before it touches a view. */
  datatype Layout = Layout(
    collapsed: Rect,
    expanded: Rect,
    topStrip: Rect,
    bottomStrip: Rect,
    topDistance: real,
    bottomDistance: real)

  /** The collapsed frame lies between the background's top and bottom edges. */
  predicate InsideVertically(c: Rect, bg: Rect) {
    bg.y <= c.y && c.MaxY() <= bg.MaxY()
  }

  /** With no provider, the view expands from a zero-height line across the middle of the background. */
  function DefaultCollapsedFrame(bg: Rect): (c: Rect)
    ensures c.x == bg.x && c.width == bg.Width() && c.height == 0.0
    ensures c.MaxY() == c.y
    ensures bg.height >= 0.0 ==> InsideVertically(c, bg) && c.y - bg.y == bg.MaxY() - c.MaxY()
  {
    Rect(bg.x, bg.MidY(), bg.Width(), 0.0)
  }

  /**
   * The two sequential clamps: a frame wholly above the background is pulled
   * down until its bottom edge meets the background's top edge, one wholly
   * below is pulled up until its top edge meets the background's bottom edge.
   */
  function ClampCollapsedFrame(c: Rect, bg: Rect): (r: Rect)
    ensures r.x == c.x && r.width == c.width && r.height == c.height
    ensures r.y <= bg.MaxY()
    ensures c.height >= 0.0 ==> r.MaxY() >= bg.y
    ensures c.MaxY() >= bg.y && c.y <= bg.MaxY() ==> r == c
    ensures c.MaxY() < bg.y && c.height >= 0.0 ==> r.MaxY() == bg.y
    ensures c.y > bg.MaxY() ==> r.y == bg.MaxY()
  {
    var pulledDown := if c.MaxY() < bg.y then c.(y := bg.y - c.Height()) else c;
    if pulledDown.y > bg.MaxY() then pulledDown.(y := bg.MaxY()) else pulledDown
  }

  /** At most one clamp changes the frame: whichever fires, the other leaves its result alone. */
  lemma ClampsAreExclusive(c: Rect, bg: Rect)
    ensures c.MaxY() < bg.y ==> ClampCollapsedFrame(c, bg) == c.(y := bg.y - c.Height())
    ensures c.y > bg.MaxY() ==> ClampCollapsedFrame(c, bg) == c.(y := bg.MaxY())
  {
  }

  /** A clamped frame is left alone by a second clamp. */
  lemma ClampIsIdempotent(c: Rect, bg: Rect)
    ensures ClampCollapsedFrame(ClampCollapsedFrame(c, bg), bg) == ClampCollapsedFrame(c, bg)
  {
  }

  /** The strip of the background above the collapsed frame, as the code builds it. */
  function TopStripFrame(bg: Rect, c: Rect): (r: Rect)
    ensures r.x == bg.x && r.y == bg.y && r.width == bg.Width()
    ensures bg.y >= 0.0 ==> r.height >= 0.0
    ensures bg.y == 0.0 ==> r.MaxY() == Max(c.y, bg.y)
  {
    Rect(bg.x, bg.y, bg.Width(), Max(c.y, bg.y))
  }

  /**
   * The top strip as its height was evidently meant: from the background's top
   * edge down to the collapsed frame's top edge, or empty when the collapsed
   * frame starts above the background.
   */
  function IntendedTopStripFrame(bg: Rect, c: Rect): (r: Rect)
    ensures r.x == bg.x && r.y == bg.y && r.width == bg.Width()
    ensures r.height >= 0.0
    ensures r.MaxY() == Max(c.y, bg.y)
    ensures c.y >= bg.y ==> r.height == c.y - bg.y
  {
    Rect(bg.x, bg.y, bg.Width(), Max(c.y - bg.y, 0.0))
  }

  /** For a background whose bounds start at y = 0 the code's top strip is the intended one. */
  lemma TopStripIsIntendedAtZeroOrigin(bg: Rect, c: Rect)
    requires bg.y == 0.0
    ensures TopStripFrame(bg, c) == IntendedTopStripFrame(bg, c)
  {
  }

  /**
   * A scrolled table view (bounds starting at y = 100) with a row at y = 300:
   * the code's top strip reaches down to y = 400 and covers the whole row,
   * where the intended strip stops at the row's top edge.
   */
  lemma TopStripOverlapsCardWhenScrolled()
    ensures var bg := Rect(0.0, 100.0, 320.0, 480.0);
            var l := Resolve(bg, bg, Some(Rect(0.0, 300.0, 320.0, 44.0)), None);
            l.collapsed.y == 300.0 && l.collapsed.MaxY() == 344.0
            && l.topStrip.MaxY() == 400.0
            && IntendedResolve(bg, bg, Some(Rect(0.0, 300.0, 320.0, 44.0)), None).topStrip.MaxY() == 300.0
  {
  }

  /** The strip of the background below the collapsed frame, down to the background's bottom edge. */
  function BottomStripFrame(bg: Rect, c: Rect): (r: Rect)
    ensures r.x == bg.x && r.width == bg.Width()
    ensures r.height >= 0.0 && r.MaxY() == bg.MaxY()
    ensures c.MaxY() <= bg.MaxY() ==> r.y == c.MaxY()
    ensures c.MaxY() > bg.MaxY() ==> r.height == 0.0
  {
    var originY := Min(c.MaxY(), bg.MaxY());
    Rect(bg.x, originY, bg.Width(), bg.MaxY() - originY)
  }

  /**
   * The frame resolution of `animateTransition`, from the background's bounds,
   * the container's bounds and the two configured frames (the collapsed-frame
   * closure's result, read once for the run).
   */
  function Resolve(bg: Rect, container: Rect, provided: Option<Rect>, expandedViewFrame: Option<Rect>): (l: Layout)
    // The collapsed frame: the default line, or the provided frame moved vertically only.
    ensures provided.None? && bg.height >= 0.0 ==> l.collapsed == Rect(bg.x, bg.MidY(), bg.Width(), 0.0)
    ensures provided.Some? ==>
      l.collapsed.x == provided.value.x && l.collapsed.width == provided.value.width
      && l.collapsed.height == provided.value.height
    ensures provided.Some? && InsideVertically(provided.value, bg) ==> l.collapsed == provided.value
    ensures l.collapsed.y <= bg.MaxY()
    ensures l.collapsed.height >= 0.0 ==> l.collapsed.MaxY() >= bg.y
    // The expanded frame: the configured one, else the container's bounds.
    ensures expandedViewFrame.Some? ==> l.expanded == expandedViewFrame.value
    ensures expandedViewFrame.None? ==> l.expanded == container
    // The strips.
    // The strips, as the code builds them; for bounds starting at y = 0 the top one is the intended one.
    ensures l.topStrip == TopStripFrame(bg, l.collapsed)
    ensures bg.y == 0.0 ==> l.topStrip == IntendedTopStripFrame(bg, l.collapsed)
    ensures l.bottomStrip == BottomStripFrame(bg, l.collapsed)
    // The distances: each strip travels the gap between its background edge and the collapsed frame.
    ensures l.topDistance == l.collapsed.y - bg.y
    ensures l.bottomDistance == bg.MaxY() - l.collapsed.MaxY()
    ensures l.collapsed.height >= 0.0 && bg.height >= 0.0 ==>
      l.topDistance + l.bottomDistance + l.collapsed.Height() == bg.Height()
    ensures InsideVertically(l.collapsed, bg) ==> l.topDistance >= 0.0 && l.bottomDistance >= 0.0
    // The bottom strip is as tall as the distance it slides, or empty when that distance is
    // negative; the top strip is too when bounds start at y = 0.
    ensures bg.y == 0.0 ==> l.topStrip.height == Max(l.topDistance, 0.0)
    ensures l.bottomStrip.height == Max(l.bottomDistance, 0.0)
  {
    var unclamped := if provided.Some? then provided.value else DefaultCollapsedFrame(bg);
    var collapsed := ClampCollapsedFrame(unclamped, bg);
    var expanded := if expandedViewFrame.Some? then expandedViewFrame.value else container;
    Layout(
      collapsed,
      expanded,
      TopStripFrame(bg, collapsed),
      BottomStripFrame(bg, collapsed),
      collapsed.y - bg.y,
      bg.MaxY() - collapsed.MaxY())
  }

  /**
   * Frame resolution with the top strip as it was evidently meant: everything
   * as `Resolve` computes it, except that the top strip ends at the collapsed
   * frame's top edge whatever the bounds' origin, so that each strip is as
   * tall as the distance it slides.
   */
  function IntendedResolve(bg: Rect, container: Rect, provided: Option<Rect>, expandedViewFrame: Option<Rect>): (l: Layout)
    ensures l.topStrip == IntendedTopStripFrame(bg, l.collapsed)
    ensures l.topStrip.MaxY() == Max(l.collapsed.y, bg.y)
    ensures l.topStrip.height == Max(l.topDistance, 0.0)
    ensures l.bottomStrip.height == Max(l.bottomDistance, 0.0)
    ensures l == Resolve(bg, container, provided, expandedViewFrame).(topStrip := l.topStrip)
    ensures bg.y == 0.0 ==> l == Resolve(bg, container, provided, expandedViewFrame)
  {
    var code := Resolve(bg, container, provided, expandedViewFrame);
    code.(topStrip := IntendedTopStripFrame(bg, code.collapsed))
  }

  /** A 320 x 480 background with no provider: the view grows from y = 240 and each strip slides 240. */
  lemma DefaultCardScenario()
    ensures var l := Resolve(Rect(0.0, 0.0, 320.0, 480.0), Rect(0.0, 0.0, 320.0, 480.0), None, None);
            l.collapsed == Rect(0.0, 240.0, 320.0, 0.0)
            && l.topDistance == 240.0 && l.bottomDistance == 240.0
            && l.expanded == Rect(0.0, 0.0, 320.0, 480.0)
  {
  }

  /**
   * A card overhanging the background's bottom edge: the bottom strip is empty,
   * sits on the bottom edge, and its sliding distance is 480 - 500 = -20, so it
   * moves up, not down, by 20 (see Choreography.EmptyBottomStripMovesUp).
   */
  lemma CardNearBottomScenario()
    ensures var l := Resolve(Rect(0.0, 0.0, 320.0, 480.0), Rect(0.0, 0.0, 320.0, 480.0),
                             Some(Rect(0.0, 460.0, 320.0, 40.0)), None);
            l.bottomStrip == Rect(0.0, 480.0, 320.0, 0.0) && l.bottomDistance == -20.0
  {
  }
}
