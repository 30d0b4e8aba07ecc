/**
 * The older revision's transition animator, kept in the demo application: the
 * same configuration (without a sliding-part factory: it always cuts the
 * strips with `resizableSnapshotView`), its duration constant, and
 * `animateTransition`, which resolves the frames the older way and plays the
 * same choreography.
 */
module XpandrAnimation {
  import opened Geometry
  import opened Scene
  import Frames
  import opened Adapters
  import opened Choreography
  import XpandrFrames

  /** An approximation of the system's modal presentation duration, in seconds. */
  const SystemAnimationDuration: real := 0.24

  class DAExpandAnimation {
    var presentingViewAdapter: Option<PresentingAdapter>
    var presentedViewAdapter: Option<PresentedAdapter>
    var collapsedViewFrame: Option<Rect>
    var expandedViewFrame: Option<Rect>
    var animationDuration: real

    /** A new animator: no adapters, no frames configured, the system duration. */
    constructor ()
      ensures presentingViewAdapter == None && presentedViewAdapter == None
      ensures collapsedViewFrame == None && expandedViewFrame == None
      ensures animationDuration == SystemAnimationDuration
    {
      presentingViewAdapter := None;
      presentedViewAdapter := None;
      collapsedViewFrame := None;
      expandedViewFrame := None;
      animationDuration := SystemAnimationDuration;
    }

    /** `transitionDuration(using:)`: whatever duration is configured. */
    function TransitionDuration(): (d: real)
      reads this
      ensures d == animationDuration
    {
      animationDuration
    }

    /** The frames a run in `scene` resolves with the current configuration. */
    function LayoutIn(scene: TransitionScene): Frames.Layout
      reads this
    {
      XpandrFrames.Resolve(scene.background, scene.containerBounds, collapsedViewFrame, expandedViewFrame)
    }

    /**
     * `animateTransition(using:)`: the older frame resolution, then the shared
     * choreography. The direction and whether each `resizableSnapshotView`
     * call returned a snapshot are inputs.
     */
    method AnimateTransition(scene: TransitionScene, isPresentation: bool, topSnapshot: bool, bottomSnapshot: bool)
      requires scene.Valid()
      modifies scene
      ensures scene.Valid()
      ensures PlayedOut(scene, LayoutIn(scene),
                        Run(isPresentation, topSnapshot, bottomSnapshot, presentingViewAdapter, presentedViewAdapter),
                        old(scene.subviews), old(scene.frontFrame), old(scene.trace))
    {
      var layout := XpandrFrames.Resolve(scene.background, scene.containerBounds, collapsedViewFrame, expandedViewFrame);
      Play(scene, layout, Run(isPresentation, topSnapshot, bottomSnapshot, presentingViewAdapter, presentedViewAdapter));
    }
  }
}
