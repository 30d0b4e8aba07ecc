/**
 * The choreography `animateTransition` runs once its frames are resolved; both
 * revisions share it line for line. The snapshots are framed, pre-offset on
 * dismissal, converted to container coordinates and inserted; the front view
 * is inserted and prepared; the animation block's end state is applied; and
 * the completion block tears the scene down and reports.
 */
module Choreography {
  import opened Geometry
  import opened Scene
  import opened Frames
  import opened Adapters
  import opened Trace

  /** `view?.center.y += dy`: moves a view that exists, and does nothing otherwise. */
  function MoveCenterY(view: Option<Rect>, dy: real): (r: Option<Rect>)
    ensures r.Some? <==> view.Some?
    ensures view.Some? ==> r.value.x == view.value.x && r.value.y == view.value.y + dy
    ensures view.Some? ==> r.value.width == view.value.width && r.value.height == view.value.height
  {
    if view.Some? then Some(view.value.ShiftedY(dy)) else None
  }

  /** `view?.frame = convert(view!.frame, to: inView)`: the right-hand side is not evaluated for a missing view. */
  function ConvertView(scene: TransitionScene, view: Option<Rect>): (r: Option<Rect>)
    ensures r.Some? <==> view.Some?
    ensures view.Some? ==> r.value == scene.Convert(view.value)
  {
    if view.Some? then Some(scene.Convert(view.value)) else None
  }

  /**
   * Pre-offsetting a snapshot before converting it to container coordinates
   * puts it where offsetting it after the conversion would: the dismissal's
   * pre-offset and the conversion can be taken in either order.
   */
  lemma MoveCommutesWithConvert(scene: TransitionScene, view: Option<Rect>, dy: real)
    ensures ConvertView(scene, MoveCenterY(view, dy)) == MoveCenterY(ConvertView(scene, view), dy)
  {
  }

  /** Moving a view by `dy` and then by `-dy` leaves it where it was; a missing view stays missing. */
  lemma MoveThereAndBack(view: Option<Rect>, dy: real)
    ensures MoveCenterY(MoveCenterY(view, dy), -dy) == view
  {
  }

  /**
   * Where a strip snapshot cut from `frame` sits, in container coordinates,
   * before the animation block runs: at its frame when presenting, already
   * slid by `slide` when dismissing, and nowhere when it could not be taken.
   */
  function StripAtStart(scene: TransitionScene, taken: bool, frame: Rect, isPresentation: bool, slide: real): (r: Option<Rect>)
    ensures r.Some? <==> taken
    ensures taken && isPresentation ==> r.value == scene.Convert(frame)
    ensures taken && !isPresentation ==> r.value == scene.Convert(frame).ShiftedY(slide)
  {
    if !taken then None
    else if isPresentation then Some(scene.Convert(frame))
    else Some(scene.Convert(frame).ShiftedY(slide))
  }

  /** Where a strip snapshot sits, in container coordinates, once the animation block has run. */
  function StripAtEnd(scene: TransitionScene, taken: bool, frame: Rect, isPresentation: bool, slide: real): (r: Option<Rect>)
    ensures r.Some? <==> taken
    ensures taken && isPresentation ==> r.value == scene.Convert(frame).ShiftedY(slide)
    ensures taken && !isPresentation ==> r.value == scene.Convert(frame)
  {
    if !taken then None
    else if isPresentation then Some(scene.Convert(frame).ShiftedY(slide))
    else Some(scene.Convert(frame))
  }

  /**
   * A presentation's strips end where the dismissal with the same layout
   * starts them, and the dismissal's strips end where the presentation
   * started them: the two directions are each other's reverse.
   */
  lemma StripsRetraceTheirPath(scene: TransitionScene, taken: bool, frame: Rect, slide: real)
    ensures StripAtEnd(scene, taken, frame, true, slide) == StripAtStart(scene, taken, frame, false, slide)
    ensures StripAtEnd(scene, taken, frame, false, slide) == StripAtStart(scene, taken, frame, true, slide)
  {
  }

  /**
   * The animation block slides a strip from its start to its end position:
   * by `slide` when presenting, back by `-slide` when dismissing.
   */
  lemma SlideReachesEnd(scene: TransitionScene, taken: bool, frame: Rect, isPresentation: bool, slide: real)
    ensures MoveCenterY(StripAtStart(scene, taken, frame, isPresentation, slide), if isPresentation then slide else -slide)
            == StripAtEnd(scene, taken, frame, isPresentation, slide)
  {
  }

  /** The container's subviews while the animation block runs: the strips, then the front view, above the rest. */
  function SubviewsWhileAnimating(s: seq<ViewId>, inserted: bool): (r: seq<ViewId>)
    ensures |r| > 0 && r[|r| - 1] == FrontView
    ensures inserted ==> |r| >= 3 && r[|r| - 3] == TopStrip && r[|r| - 2] == BottomStrip
    ensures forall v :: v in r <==> v in s || v == FrontView || (inserted && (v == TopStrip || v == BottomStrip))
  {
    Without(s, FrontView) + (if inserted then [TopStrip, BottomStrip] else []) + [FrontView]
  }

  /**
   * What one run leaves behind, given the scene's subviews, front frame and
   * trace before it. Positions are in container coordinates.
   */
  ghost predicate PlayedOut(scene: TransitionScene, l: Layout, p: Run,
                            subviews0: seq<ViewId>, frontFrame0: Rect, trace0: seq<Event>)
    reads scene
  {
    var collapsed := scene.Convert(l.collapsed);
    // Presentation slides the strips apart from their resolved frames (top up by
    // topDistance, bottom down by bottomDistance); dismissal starts them there
    // and slides them back.
    && scene.topStripAtStart == StripAtStart(scene, p.topSnapshot, l.topStrip, p.isPresentation, -l.topDistance)
    && scene.topStripFrame == StripAtEnd(scene, p.topSnapshot, l.topStrip, p.isPresentation, -l.topDistance)
    && scene.bottomStripAtStart == StripAtStart(scene, p.bottomSnapshot, l.bottomStrip, p.isPresentation, l.bottomDistance)
    && scene.bottomStripFrame == StripAtEnd(scene, p.bottomSnapshot, l.bottomStrip, p.isPresentation, l.bottomDistance)
    // The front view grows from the collapsed frame to the expanded one, or
    // shrinks from wherever it is to the collapsed frame.
    && scene.frontFrameAtStart == (if p.isPresentation then collapsed else frontFrame0)
    && scene.frontFrame == (if p.isPresentation then l.expanded else collapsed)
    // While animating, the strips lie above every earlier subview and the
    // front view lies above them; afterwards the strips are gone, and so is
    // the front view after a dismissal.
    && scene.subviewsWhileAnimating == SubviewsWhileAnimating(subviews0, StripsInserted(p))
    && scene.subviews
       == (if p.isPresentation then WithSubview(subviews0, FrontView) else Without(subviews0, FrontView))
    && scene.trace == trace0 + TransitionTrace(p)
  }

  /**
   * Frames the two snapshots, pre-offsets them on dismissal, converts them to
   * container coordinates and inserts them when the presenter slides apart
   * and both exist.
   */
  method InsertStrips(scene: TransitionScene, l: Layout, p: Run)
    requires TopStrip !in scene.subviews && BottomStrip !in scene.subviews
    modifies scene`topStripFrame, scene`bottomStripFrame, scene`subviews, scene`trace
    ensures scene.topStripFrame == StripAtStart(scene, p.topSnapshot, l.topStrip, p.isPresentation, -l.topDistance)
    ensures scene.bottomStripFrame == StripAtStart(scene, p.bottomSnapshot, l.bottomStrip, p.isPresentation, l.bottomDistance)
    ensures scene.subviews == old(scene.subviews) + (if StripsInserted(p) then [TopStrip, BottomStrip] else [])
    ensures scene.trace == old(scene.trace) + CallsUpTo(2, p)
  {
    ghost var t0 := scene.trace;
    var top: Option<Rect> := if p.topSnapshot then Some(l.topStrip) else None;
    var bottom: Option<Rect> := if p.bottomSnapshot then Some(l.bottomStrip) else None;
    if !p.isPresentation {
      top := MoveCenterY(top, -l.topDistance);
      bottom := MoveCenterY(bottom, l.bottomDistance);
    }
    top := ConvertView(scene, top);
    bottom := ConvertView(scene, bottom);
    scene.topStripFrame, scene.bottomStripFrame := top, bottom;
    assert scene.trace == t0 + CallsUpTo(0, p);
    if SlidesApart(p.presenting) && top.Some? && bottom.Some? {
      RecordCall(t0, scene.trace, 0, p, SubviewAdded(TopStrip));
      scene.AddSubview(TopStrip);
      RecordCall(t0, scene.trace, 1, p, SubviewAdded(BottomStrip));
      scene.AddSubview(BottomStrip);
    } else {
      SkipCall(t0, scene.trace, 0, p);
      SkipCall(t0, scene.trace, 1, p);
    }
  }

  /**
   * Adds the front view above everything, places it at the collapsed frame
   * when presenting, and calls the `prepare` and `animationsWillBegin` hooks.
   */
  method InsertFrontView(scene: TransitionScene, l: Layout, p: Run, ghost t0: seq<Event>)
    requires scene.trace == t0 + CallsUpTo(2, p)
    modifies scene`frontFrame, scene`subviews, scene`trace
    ensures scene.frontFrame == (if p.isPresentation then scene.Convert(l.collapsed) else old(scene.frontFrame))
    ensures scene.subviews == WithSubview(old(scene.subviews), FrontView)
    ensures scene.trace == t0 + CallsUpTo(5, p)
  {
    RecordCall(t0, scene.trace, 2, p, SubviewAdded(FrontView));
    scene.AddSubview(FrontView);
    var collapsed := scene.Convert(l.collapsed);
    if p.isPresentation {
      scene.frontFrame := collapsed;
      if p.presented.Some? {
        RecordCall(t0, scene.trace, 3, p, Prepare(true));
        scene.trace := scene.trace + [Prepare(true)];
      } else {
        SkipCall(t0, scene.trace, 3, p);
      }
    } else {
      if p.presented.Some? {
        RecordCall(t0, scene.trace, 3, p, Prepare(false));
        scene.trace := scene.trace + [Prepare(false)];
      } else {
        SkipCall(t0, scene.trace, 3, p);
      }
    }
    if p.presenting.Some? {
      RecordCall(t0, scene.trace, 4, p, AnimationsWillBegin(p.isPresentation));
      scene.trace := scene.trace + [AnimationsWillBegin(p.isPresentation)];
    } else {
      SkipCall(t0, scene.trace, 4, p);
    }
  }

  /**
   * The animation block, from its start state (recorded in the scene's ghost
   * fields) to its end state: the strips slide by their distances (apart when
   * presenting, back together when dismissing) and the front view takes its
   * final frame.
   */
  method RunAnimations(scene: TransitionScene, l: Layout, p: Run, ghost t0: seq<Event>)
    requires scene.topStripFrame == StripAtStart(scene, p.topSnapshot, l.topStrip, p.isPresentation, -l.topDistance)
    requires scene.bottomStripFrame == StripAtStart(scene, p.bottomSnapshot, l.bottomStrip, p.isPresentation, l.bottomDistance)
    requires scene.trace == t0 + CallsUpTo(5, p)
    modifies scene`topStripFrame, scene`bottomStripFrame, scene`frontFrame, scene`trace
    modifies scene`subviewsWhileAnimating, scene`topStripAtStart, scene`bottomStripAtStart, scene`frontFrameAtStart
    ensures scene.subviewsWhileAnimating == scene.subviews
    ensures scene.topStripAtStart == old(scene.topStripFrame) && scene.bottomStripAtStart == old(scene.bottomStripFrame)
    ensures scene.frontFrameAtStart == old(scene.frontFrame)
    ensures scene.topStripFrame == StripAtEnd(scene, p.topSnapshot, l.topStrip, p.isPresentation, -l.topDistance)
    ensures scene.bottomStripFrame == StripAtEnd(scene, p.bottomSnapshot, l.bottomStrip, p.isPresentation, l.bottomDistance)
    ensures scene.frontFrame == (if p.isPresentation then l.expanded else scene.Convert(l.collapsed))
    ensures scene.trace == t0 + CallsUpTo(6, p)
  {
    scene.subviewsWhileAnimating := scene.subviews;
    scene.topStripAtStart, scene.bottomStripAtStart := scene.topStripFrame, scene.bottomStripFrame;
    scene.frontFrameAtStart := scene.frontFrame;
    SlideReachesEnd(scene, p.topSnapshot, l.topStrip, p.isPresentation, -l.topDistance);
    SlideReachesEnd(scene, p.bottomSnapshot, l.bottomStrip, p.isPresentation, l.bottomDistance);
    if p.isPresentation {
      scene.topStripFrame := MoveCenterY(scene.topStripFrame, -l.topDistance);
      scene.bottomStripFrame := MoveCenterY(scene.bottomStripFrame, l.bottomDistance);
      scene.frontFrame := l.expanded;
      if p.presented.Some? {
        RecordCall(t0, scene.trace, 5, p, Animate(true));
        scene.trace := scene.trace + [Animate(true)];
      } else {
        SkipCall(t0, scene.trace, 5, p);
      }
    } else {
      scene.topStripFrame := MoveCenterY(scene.topStripFrame, l.topDistance);
      scene.bottomStripFrame := MoveCenterY(scene.bottomStripFrame, -l.bottomDistance);
      scene.frontFrame := scene.Convert(l.collapsed);
      if p.presented.Some? {
        RecordCall(t0, scene.trace, 5, p, Animate(false));
        scene.trace := scene.trace + [Animate(false)];
      } else {
        SkipCall(t0, scene.trace, 5, p);
      }
    }
  }

  /**
   * The first half of the completion block: removes the strip snapshots that
   * exist, and the front view after a dismissal.
   */
  method RemoveViews(scene: TransitionScene, p: Run, ghost t0: seq<Event>)
    requires scene.topStripFrame.Some? <==> p.topSnapshot
    requires scene.bottomStripFrame.Some? <==> p.bottomSnapshot
    requires scene.trace == t0 + CallsUpTo(6, p)
    modifies scene`subviews, scene`trace
    ensures scene.subviews
            == var noTop := if p.topSnapshot then Without(old(scene.subviews), TopStrip) else old(scene.subviews);
               var noStrips := if p.bottomSnapshot then Without(noTop, BottomStrip) else noTop;
               if p.isPresentation then noStrips else Without(noStrips, FrontView)
    ensures scene.trace == t0 + CallsUpTo(9, p)
  {
    if scene.topStripFrame.Some? {
      RecordCall(t0, scene.trace, 6, p, SubviewRemoved(TopStrip));
      scene.RemoveFromSuperview(TopStrip);
    } else {
      SkipCall(t0, scene.trace, 6, p);
    }
    if scene.bottomStripFrame.Some? {
      RecordCall(t0, scene.trace, 7, p, SubviewRemoved(BottomStrip));
      scene.RemoveFromSuperview(BottomStrip);
    } else {
      SkipCall(t0, scene.trace, 7, p);
    }
    if !p.isPresentation {
      RecordCall(t0, scene.trace, 8, p, SubviewRemoved(FrontView));
      scene.RemoveFromSuperview(FrontView);
    } else {
      SkipCall(t0, scene.trace, 8, p);
    }
  }

  /**
   * The second half of the completion block: reports completion, as a
   * success, and calls `animationsDidEnd` and `cleanup`.
   */
  method Report(scene: TransitionScene, p: Run, ghost t0: seq<Event>)
    requires scene.trace == t0 + CallsUpTo(9, p)
    modifies scene`trace
    ensures scene.trace == t0 + TransitionTrace(p)
  {
    RecordCall(t0, scene.trace, 9, p, CompleteTransition(true));
    scene.trace := scene.trace + [CompleteTransition(true)];
    if p.presenting.Some? {
      RecordCall(t0, scene.trace, 10, p, AnimationsDidEnd(p.isPresentation));
      scene.trace := scene.trace + [AnimationsDidEnd(p.isPresentation)];
    } else {
      SkipCall(t0, scene.trace, 10, p);
    }
    if p.presented.Some? {
      RecordCall(t0, scene.trace, 11, p, Cleanup(p.isPresentation));
      scene.trace := scene.trace + [Cleanup(p.isPresentation)];
    } else {
      SkipCall(t0, scene.trace, 11, p);
    }
  }

  /** With the strips above the rest, adding the front view puts it above them. */
  lemma {:induction false} FrontViewAboveStrips(s: seq<ViewId>, inserted: bool)
    ensures WithSubview(s + (if inserted then [TopStrip, BottomStrip] else []), FrontView)
            == SubviewsWhileAnimating(s, inserted)
  {
    var strips: seq<ViewId> := if inserted then [TopStrip, BottomStrip] else [];
    WithoutAppend(s, strips, FrontView);
    assert Without(strips, FrontView) == strips;
  }

  /** Removing the strips from above the rest leaves the rest with the front view on top. */
  lemma {:induction false} StripsRemoved(s: seq<ViewId>, inserted: bool)
    requires TopStrip !in s && BottomStrip !in s
    ensures Without(Without(SubviewsWhileAnimating(s, inserted), TopStrip), BottomStrip) == WithSubview(s, FrontView)
  {
    var base := Without(s, FrontView);
    assert TopStrip !in base + [FrontView] && BottomStrip !in base + [FrontView];
    if inserted {
      assert SubviewsWhileAnimating(s, inserted) == base + [TopStrip] + [BottomStrip, FrontView];
      WithoutSingle(base, TopStrip, [BottomStrip, FrontView]);
      assert base + [BottomStrip, FrontView] == base + [BottomStrip] + [FrontView];
      WithoutSingle(base, BottomStrip, [FrontView]);
    }
  }

  /** A view that was not in the container is gone again after it is added and removed. */
  lemma ContainerRoundTrip(s: seq<ViewId>)
    requires FrontView !in s
    ensures Without(WithSubview(s, FrontView), FrontView) == s
  {
    WithoutWithSubview(s, FrontView);
  }

  /**
   * What the completion block's removals leave in the container: removing
   * only the snapshots that exist, and the front view only on dismissal, the
   * container ends with the front view on top after a presentation, and as it
   * was before the run, less the front view, after a dismissal.
   */
  lemma SubviewsAfterCompletion(s: seq<ViewId>, p: Run)
    requires TopStrip !in s && BottomStrip !in s
    ensures var peak := SubviewsWhileAnimating(s, StripsInserted(p));
            var noTop := if p.topSnapshot then Without(peak, TopStrip) else peak;
            var noStrips := if p.bottomSnapshot then Without(noTop, BottomStrip) else noTop;
            (if p.isPresentation then noStrips else Without(noStrips, FrontView))
            == (if p.isPresentation then WithSubview(s, FrontView) else Without(s, FrontView))
  {
    var peak := SubviewsWhileAnimating(s, StripsInserted(p));
    StripsRemoved(s, StripsInserted(p));
    WithoutWithSubview(s, FrontView);
    if !p.topSnapshot {
      assert TopStrip !in peak;
      assert Without(peak, TopStrip) == peak;
    }
    if !p.bottomSnapshot {
      var noTop := if p.topSnapshot then Without(peak, TopStrip) else peak;
      assert BottomStrip !in noTop;
      assert Without(noTop, BottomStrip) == noTop;
    }
  }

  /**
   * Everything before the animation block: the strips and then the front
   * view go into the container, which leaves the strips above every earlier
   * subview and the front view above them.
   */
  method SetUpScene(scene: TransitionScene, l: Layout, p: Run)
    requires scene.Valid()
    modifies scene`topStripFrame, scene`bottomStripFrame, scene`frontFrame, scene`subviews, scene`trace
    ensures scene.topStripFrame == StripAtStart(scene, p.topSnapshot, l.topStrip, p.isPresentation, -l.topDistance)
    ensures scene.bottomStripFrame == StripAtStart(scene, p.bottomSnapshot, l.bottomStrip, p.isPresentation, l.bottomDistance)
    ensures scene.frontFrame == (if p.isPresentation then scene.Convert(l.collapsed) else old(scene.frontFrame))
    ensures scene.subviews == SubviewsWhileAnimating(old(scene.subviews), StripsInserted(p))
    ensures scene.trace == old(scene.trace) + CallsUpTo(5, p)
  {
    ghost var subviews0 := scene.subviews;
    ghost var t0 := scene.trace;
    InsertStrips(scene, l, p);
    InsertFrontView(scene, l, p, t0);
    FrontViewAboveStrips(subviews0, StripsInserted(p));
  }

  /**
   * The completion block as a whole: the strips are gone again and so is the
   * front view after a dismissal, and the run's calls are complete.
   */
  method Complete(scene: TransitionScene, p: Run, ghost subviews0: seq<ViewId>, ghost t0: seq<Event>)
    requires TopStrip !in subviews0 && BottomStrip !in subviews0
    requires scene.subviews == SubviewsWhileAnimating(subviews0, StripsInserted(p))
    requires scene.topStripFrame.Some? <==> p.topSnapshot
    requires scene.bottomStripFrame.Some? <==> p.bottomSnapshot
    requires scene.trace == t0 + CallsUpTo(6, p)
    modifies scene`subviews, scene`trace
    ensures scene.subviews
            == (if p.isPresentation then WithSubview(subviews0, FrontView) else Without(subviews0, FrontView))
    ensures scene.trace == t0 + TransitionTrace(p)
  {
    RemoveViews(scene, p, t0);
    SubviewsAfterCompletion(subviews0, p);
    Report(scene, p, t0);
  }

  /**
   * The run after frame resolution. `UIView.animate` is modelled as applying
   * the animation block's end state and then running the completion block.
   */
  method Play(scene: TransitionScene, l: Layout, p: Run)
    requires scene.Valid()
    modifies scene
    ensures scene.Valid()
    ensures PlayedOut(scene, l, p, old(scene.subviews), old(scene.frontFrame), old(scene.trace))
  {
    ghost var subviews0 := scene.subviews;
    ghost var t0 := scene.trace;
    SetUpScene(scene, l, p);
    RunAnimations(scene, l, p, t0);
    Complete(scene, p, subviews0, t0);
  }

  /**
   * The card overhanging the bottom edge (Frames.CardNearBottomScenario): its
   * empty bottom strip has a sliding distance of -20, so a presentation moves
   * it up by 20 rather than leaving it in place.
   */
  lemma EmptyBottomStripMovesUp(scene: TransitionScene)
    requires scene.background == Rect(0.0, 0.0, 320.0, 480.0)
    ensures var l := Resolve(scene.background, scene.background, Some(Rect(0.0, 460.0, 320.0, 40.0)), None);
            var start := StripAtStart(scene, true, l.bottomStrip, true, l.bottomDistance);
            var end := StripAtEnd(scene, true, l.bottomStrip, true, l.bottomDistance);
            l.bottomStrip.height == 0.0 && end.value.y == start.value.y - 20.0
  {
  }
}
