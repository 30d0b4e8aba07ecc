/**
 * The part of UIKit the transition drives: the transition container's subview
 * list, the frames of the front view and of the two strip snapshots, and a
 * record of every call the transition makes on them and on its adapters.
 */
module Scene {
  import opened Geometry

  /** The views that can be subviews of the transition container. */
  datatype ViewId = TopStrip | BottomStrip | FrontView | Other(tag: nat)

  /** One observable call made during a run. */
  datatype Event =
    | SubviewAdded(view: ViewId)          // inView.addSubview(view)
    | SubviewRemoved(view: ViewId)        // view.removeFromSuperview()
    | Prepare(expanding: bool)            // presentedViewAdapter?.prepare(expanding:|collapsing:)
    | AnimationsWillBegin(presenting: bool)
    | Animate(expanding: bool)            // presentedViewAdapter?.animate(expanding:|collapsing:)
    | CompleteTransition(didComplete: bool)
    | AnimationsDidEnd(presenting: bool)
    | Cleanup(expanding: bool)            // presentedViewAdapter?.cleanup(expanding:|collapsing:)

  /** A view is a subview at most once. */
  ghost predicate NoDuplicates(s: seq<ViewId>) {
    forall i, j :: 0 <= i < j < |s| ==> s[i] != s[j]
  }

  /** The subview list after `v.removeFromSuperview()`. */
  function Without(s: seq<ViewId>, v: ViewId): (r: seq<ViewId>)
    ensures forall u :: u in r <==> u in s && u != v
    ensures v !in s ==> r == s
    ensures NoDuplicates(s) ==> NoDuplicates(r)
    decreases |s|
  {
    if s == [] then []
    else if s[0] == v then Without(s[1..], v)
    else
      var rest := Without(s[1..], v);
      NoDuplicatesSplit(s);
      NoDuplicatesCons(s[0], rest);
      [s[0]] + rest
  }

  /** A list without duplicates is its head followed by a tail that neither holds the head nor repeats. */
  lemma NoDuplicatesSplit(s: seq<ViewId>)
    requires |s| > 0
    ensures NoDuplicates(s) ==> s[0] !in s[1..] && NoDuplicates(s[1..])
  {
    if NoDuplicates(s) {
      forall k | 0 <= k < |s| - 1
        ensures s[1..][k] != s[0]
      {
        assert s[1..][k] == s[k + 1];
      }
    }
  }

  lemma NoDuplicatesCons(x: ViewId, s: seq<ViewId>)
    ensures x !in s && NoDuplicates(s) ==> NoDuplicates([x] + s)
  {
    if x !in s && NoDuplicates(s) {
      forall i, j | 0 <= i < j < |s| + 1
        ensures ([x] + s)[i] != ([x] + s)[j]
      {
        assert ([x] + s)[j] == s[j - 1];
        if i > 0 {
          assert ([x] + s)[i] == s[i - 1];
        }
      }
    }
  }

  /** The subview list after `addSubview(v)`: `v` ends up frontmost, moved there if it was already a subview. */
  function WithSubview(s: seq<ViewId>, v: ViewId): (r: seq<ViewId>)
    ensures |r| > 0 && r[|r| - 1] == v
    ensures forall u :: u in r <==> u in s || u == v
    ensures v !in s ==> r == s + [v]
    ensures NoDuplicates(s) ==> NoDuplicates(r)
  {
    Without(s, v) + [v]
  }

  /** Removal distributes over concatenation. */
  lemma {:induction false} WithoutAppend(x: seq<ViewId>, y: seq<ViewId>, v: ViewId)
    ensures Without(x + y, v) == Without(x, v) + Without(y, v)
    decreases |x|
  {
    if x == [] {
      assert x + y == y;
    } else {
      assert (x + y)[0] == x[0];
      assert (x + y)[1..] == x[1..] + y;
      WithoutAppend(x[1..], y, v);
    }
  }

  /** Removing a view that is in the list once takes out just that entry. */
  lemma {:induction false} WithoutSingle(x: seq<ViewId>, v: ViewId, y: seq<ViewId>)
    requires v !in x && v !in y
    ensures Without(x + [v] + y, v) == x + y
    decreases |x|
  {
    var s := x + [v] + y;
    if x == [] {
      assert s[0] == v && s[1..] == y;
    } else {
      assert s[0] == x[0] && s[1..] == x[1..] + [v] + y;
      WithoutSingle(x[1..], v, y);
      assert x + y == [x[0]] + (x[1..] + y);
    }
  }

  /** Adding a view and then removing it leaves the list as removing it alone would. */
  lemma WithoutWithSubview(s: seq<ViewId>, v: ViewId)
    ensures Without(WithSubview(s, v), v) == Without(s, v)
  {
    WithoutAppend(Without(s, v), [v], v);
    assert Without([v], v) == Without([], v);
  }

  /**
   * The transition context as the transition sees it: the background's bounds,
   * the container's bounds, where the background sits in the container, and
   * the state the transition changes.
   */
  class TransitionScene {
    /** backgroundView.bounds, after layoutIfNeeded() */
    const background: Rect
    /** inView.bounds */
    const containerBounds: Rect
    /** convert(_:to: inView) from the background view: a translation by (dx, dy). */
    const dx: real
    const dy: real

    /** inView.subviews, back to front */
    var subviews: seq<ViewId>
    /** frontView.frame */
    var frontFrame: Rect
    /** The frames of this run's strip snapshots; None when a snapshot could not be taken. */
    var topStripFrame: Option<Rect>
    var bottomStripFrame: Option<Rect>

    /** The state the animation block starts from. */
    ghost var subviewsWhileAnimating: seq<ViewId>
    ghost var topStripAtStart: Option<Rect>
    ghost var bottomStripAtStart: Option<Rect>
    ghost var frontFrameAtStart: Rect
    /** Every call made so far, in order. */
    ghost var trace: seq<Event>

    /** Between runs no snapshot is in the container, and no view is in it twice. */
    ghost predicate Valid()
      reads this
    {
      NoDuplicates(subviews) && TopStrip !in subviews && BottomStrip !in subviews
    }

    /** A frame in background coordinates, converted to container coordinates. */
    function Convert(r: Rect): Rect {
      r.Translated(dx, dy)
    }

    constructor (background: Rect, containerBounds: Rect, dx: real, dy: real, subviews: seq<ViewId>, frontFrame: Rect)
      requires NoDuplicates(subviews) && TopStrip !in subviews && BottomStrip !in subviews
      ensures Valid()
      ensures this.background == background && this.containerBounds == containerBounds
      ensures this.dx == dx && this.dy == dy
      ensures this.subviews == subviews && this.frontFrame == frontFrame
      ensures topStripFrame == None && bottomStripFrame == None
      ensures trace == []
    {
      this.background := background;
      this.containerBounds := containerBounds;
      this.dx := dx;
      this.dy := dy;
      this.subviews := subviews;
      this.frontFrame := frontFrame;
      topStripFrame := None;
      bottomStripFrame := None;
      subviewsWhileAnimating := subviews;
      topStripAtStart := None;
      bottomStripAtStart := None;
      frontFrameAtStart := frontFrame;
      trace := [];
    }

    /** inView.addSubview(v) */
    method AddSubview(v: ViewId)
      modifies this`subviews, this`trace
      ensures subviews == WithSubview(old(subviews), v)
      ensures trace == old(trace) + [SubviewAdded(v)]
    {
      subviews := WithSubview(subviews, v);
      trace := trace + [SubviewAdded(v)];
    }

    /** v.removeFromSuperview(), for a view whose superview is the container or none */
    method RemoveFromSuperview(v: ViewId)
      modifies this`subviews, this`trace
      ensures subviews == Without(old(subviews), v)
      ensures trace == old(trace) + [SubviewRemoved(v)]
    {
      subviews := Without(subviews, v);
      trace := trace + [SubviewRemoved(v)];
    }
  }
}
