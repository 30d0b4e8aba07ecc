/**
 * Frame resolution of the older revision of DAExpandAnimation (the copy in the
 * demo application). The collapsed frame, its two clamps, the expanded frame
 * and the sliding distances are computed exactly as in the current revision;
 * the strips are not: the top strip is as tall as the collapsed frame's origin
 * y and the bottom strip starts at its bottom edge, with no `max`/`min` guard.
 */
module XpandrFrames {
  import opened Geometry
  import Frames

  /** The top strip, as tall as the collapsed frame's origin y. */
  function TopStripFrame(bg: Rect, c: Rect): (r: Rect)
    ensures r.x == bg.x && r.y == bg.y && r.width == bg.Width()
    ensures r.height >= 0.0 <==> c.y >= 0.0
    ensures bg.y == 0.0 && c.y >= 0.0 ==> r.MaxY() == c.y
  {
    Rect(bg.x, bg.y, bg.Width(), c.y)
  }

  /** The bottom strip, from the collapsed frame's bottom edge to the background's bottom edge. */
  function BottomStripFrame(bg: Rect, c: Rect): (r: Rect)
    ensures r.x == bg.x && r.y == c.MaxY() && r.width == bg.Width()
    ensures r.height >= 0.0 <==> c.MaxY() <= bg.MaxY()
    ensures r.height >= 0.0 ==> r.MaxY() == bg.MaxY()
  {
    var originY := c.MaxY();
    Rect(bg.x, originY, bg.Width(), bg.MaxY() - originY)
  }

  /** The frame resolution of the older `animateTransition`. */
  function Resolve(bg: Rect, container: Rect, provided: Option<Rect>, expandedViewFrame: Option<Rect>): (l: Frames.Layout)
    ensures provided.None? && bg.height >= 0.0 ==> l.collapsed == Rect(bg.x, bg.MidY(), bg.Width(), 0.0)
    ensures provided.Some? ==>
      l.collapsed.x == provided.value.x && l.collapsed.width == provided.value.width
      && l.collapsed.height == provided.value.height
    ensures l.collapsed.y <= bg.MaxY()
    ensures l.collapsed.height >= 0.0 ==> l.collapsed.MaxY() >= bg.y
    ensures expandedViewFrame.Some? ==> l.expanded == expandedViewFrame.value
    ensures expandedViewFrame.None? ==> l.expanded == container
    ensures l.topStrip == TopStripFrame(bg, l.collapsed)
    ensures l.bottomStrip == BottomStripFrame(bg, l.collapsed)
    ensures l.topDistance == l.collapsed.y - bg.y
    ensures l.collapsed.height >= 0.0 && bg.height >= 0.0 ==>
      l.topDistance + l.bottomDistance + l.collapsed.Height() == bg.Height()
    // Without the guard the bottom strip is exactly as tall as the distance it slides.
    ensures l.bottomStrip.height == l.bottomDistance
  {
    var unclamped := if provided.Some? then provided.value else Frames.DefaultCollapsedFrame(bg);
    var collapsed := Frames.ClampCollapsedFrame(unclamped, bg);
    var expanded := if expandedViewFrame.Some? then expandedViewFrame.value else container;
    Frames.Layout(
      collapsed,
      expanded,
      TopStripFrame(bg, collapsed),
      BottomStripFrame(bg, collapsed),
      collapsed.y - bg.y,
      bg.MaxY() - collapsed.MaxY())
  }

  /**
   * The two revisions agree whenever the resolved collapsed frame lies inside
   * the background: the guards added later change only the strips of a frame
   * that overhangs an edge.
   */
  lemma RevisionsAgreeInside(bg: Rect, container: Rect, provided: Option<Rect>, expandedViewFrame: Option<Rect>)
    requires Frames.InsideVertically(Frames.Resolve(bg, container, provided, expandedViewFrame).collapsed, bg)
    ensures Resolve(bg, container, provided, expandedViewFrame) == Frames.Resolve(bg, container, provided, expandedViewFrame)
  {
  }

  /**
   * A card overhanging the background's top edge: the clamp leaves it alone
   * (its bottom edge is below y = 0), and the older top strip gets height -20
   * where the current revision's has height 0.
   */
  lemma TopStripNegativeNearTop()
    ensures var bg := Rect(0.0, 0.0, 320.0, 480.0);
            var card := Some(Rect(0.0, -20.0, 320.0, 40.0));
            Resolve(bg, bg, card, None).topStrip.height == -20.0
            && Frames.Resolve(bg, bg, card, None).topStrip.height == 0.0
  {
  }

  /**
   * A card overhanging the background's bottom edge: the older bottom strip
   * gets height -20 where the current revision's has height 0.
   */
  lemma BottomStripNegativeNearBottom()
    ensures var bg := Rect(0.0, 0.0, 320.0, 480.0);
            var card := Some(Rect(0.0, 460.0, 320.0, 40.0));
            Resolve(bg, bg, card, None).bottomStrip.height == -20.0
            && Frames.Resolve(bg, bg, card, None).bottomStrip.height == 0.0
  {
  }
}
