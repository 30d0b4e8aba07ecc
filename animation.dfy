/**
 * The current revision's transition animator: its configuration, the
 * duration it reports, and `animateTransition`, which resolves the frames and
 * plays the choreography.
 */
module Animation {
  import opened Geometry
  import opened Scene
  import opened Frames
  import opened Adapters
  import opened Trace
  import opened Choreography

  /** The animation duration a new animator starts with, in seconds. */
  const DefaultAnimationDuration: real := 0.24

  class DAExpandAnimation {
    /** Both adapters are weak references: None once the adopter is gone. */
    var presentingViewAdapter: Option<PresentingAdapter>
    var presentedViewAdapter: Option<PresentedAdapter>
    /** What the collapsed-frame provider returns when the transition asks for it; None when there is no provider. */
    var collapsedViewFrame: Option<Rect>
    var expandedViewFrame: Option<Rect>
    var animationDuration: real

    /** A new animator: no adapters, no frames configured, the default duration. */
    constructor ()
      ensures presentingViewAdapter == None && presentedViewAdapter == None
      ensures collapsedViewFrame == None && expandedViewFrame == None
      ensures animationDuration == DefaultAnimationDuration
    {
      presentingViewAdapter := None;
      presentedViewAdapter := None;
      collapsedViewFrame := None;
      expandedViewFrame := None;
      animationDuration := DefaultAnimationDuration;
    }

    /** `transitionDuration(using:)`: whatever duration is configured, whatever the context. */
    function TransitionDuration(): (d: real)
      reads this
      ensures d == animationDuration
    {
      animationDuration
    }

    /** The frames a run in `scene` resolves with the current configuration. */
    function LayoutIn(scene: TransitionScene): Layout
      reads this
    {
      Resolve(scene.background, scene.containerBounds, collapsedViewFrame, expandedViewFrame)
    }

    /** The conditions of a run with the current adapters. */
    function RunWith(isPresentation: bool, topSnapshot: bool, bottomSnapshot: bool): Run
      reads this
    {
      Run(isPresentation, topSnapshot, bottomSnapshot, presentingViewAdapter, presentedViewAdapter)
    }

    /**
     * `animateTransition(using:)`: resolves the frames in the background's
     * coordinates and plays the choreography in the container. The direction
     * and whether each strip snapshot could be taken are inputs.
     */
    method AnimateTransition(scene: TransitionScene, isPresentation: bool, topSnapshot: bool, bottomSnapshot: bool)
      requires scene.Valid()
      modifies scene
      ensures scene.Valid()
      ensures PlayedOut(scene, LayoutIn(scene), RunWith(isPresentation, topSnapshot, bottomSnapshot),
                        old(scene.subviews), old(scene.frontFrame), old(scene.trace))
    {
      var layout := Resolve(scene.background, scene.containerBounds, collapsedViewFrame, expandedViewFrame);
      Play(scene, layout, Run(isPresentation, topSnapshot, bottomSnapshot, presentingViewAdapter, presentedViewAdapter));
    }
  }

  /**
   * A presentation followed by its dismissal, with the same animator: the
   * container is left as it was, the front view ends at the collapsed frame
   * after shrinking from the expanded frame the presentation left it at, the
   * dismissal's strips start where the presentation's ended (whether or not
   * the presentation could snapshot them), and the trace records both runs in
   * turn.
   */
  method PresentThenDismiss(animator: DAExpandAnimation, scene: TransitionScene,
                            presentTop: bool, presentBottom: bool, dismissTop: bool, dismissBottom: bool)
    requires scene.Valid() && FrontView !in scene.subviews
    modifies scene
    ensures scene.Valid()
    ensures scene.subviews == old(scene.subviews)
    ensures scene.frontFrameAtStart == animator.LayoutIn(scene).expanded
    ensures scene.frontFrame == scene.Convert(animator.LayoutIn(scene).collapsed)
    ensures var l := animator.LayoutIn(scene);
            && (dismissTop ==> scene.topStripAtStart == StripAtEnd(scene, true, l.topStrip, true, -l.topDistance))
            && (dismissBottom ==> scene.bottomStripAtStart == StripAtEnd(scene, true, l.bottomStrip, true, l.bottomDistance))
    ensures scene.trace
            == old(scene.trace)
               + TransitionTrace(animator.RunWith(true, presentTop, presentBottom))
               + TransitionTrace(animator.RunWith(false, dismissTop, dismissBottom))
  {
    ghost var l := animator.LayoutIn(scene);
    ghost var subviews0, trace0 := scene.subviews, scene.trace;
    animator.AnimateTransition(scene, true, presentTop, presentBottom);
    ghost var trace1 := scene.trace;
    assert trace1 == trace0 + TransitionTrace(animator.RunWith(true, presentTop, presentBottom));
    assert scene.subviews == WithSubview(subviews0, FrontView);
    animator.AnimateTransition(scene, false, dismissTop, dismissBottom);
    ContainerRoundTrip(subviews0);
    StripsRetraceTheirPath(scene, true, l.topStrip, -l.topDistance);
    StripsRetraceTheirPath(scene, true, l.bottomStrip, l.bottomDistance);
  }
}
