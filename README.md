# DAExpandAnimation in Dafny

DAExpandAnimation is a UIKit custom modal transition. On presentation, the
presenter's view is cut at a "collapsed" frame, typically a table cell, into
two snapshot strips. The top strip slides up and the bottom strip slides down,
while the presented view grows from the collapsed frame to its expanded frame.
Dismissal plays the same motion in reverse. Two adapter protocols let the
presenter and the presented view take part: the presenter can veto the sliding
apart, and both get lifecycle hooks.

This project models the two revisions of the animator:

- `Sources/DAExpandAnimation/DAExpandAnimation.swift`, the current revision;
- `Xpandr/DAExpandAnimation.swift`, the older copy kept in the demo
  application.

It has two parts.

- **Frame resolution.** This is pure geometry over exact reals:
  - `Geometry` holds `CGRect`, with the standardizing accessors `width`,
    `height`, `maxY` and `midY`;
  - `Frames` resolves the current revision's frames;
  - `XpandrFrames` resolves the older revision's. Its strips have no
    `max`/`min` guards.
- **The choreography.** This is a state machine over a `TransitionScene`
  class, in `Scene` and `Choreography`:
  - the scene holds the container's subview list (back to front), the front
    view's frame and the two strip snapshots' frames;
  - ghost fields record where the animation block started from, and a trace
    of every call the run makes on the container, the transition context and
    the adapters.

  `UIView.animate` is modelled as "apply the animation block's end state,
  then run the completion block". The choreography is line for line the same
  in both revisions, so `Animation.DAExpandAnimation` and
  `XpandrAnimation.DAExpandAnimation` differ only in their frame resolution.

`Trace` gives an independent reference definition of a run's calls:

- `Stage` assigns each call a lifecycle stage;
- `Called` says which calls a run makes;
- `TransitionTrace` lists them in stage order.

Each step of the choreography is proved against that definition.

The collapsed frame is clamped into the background by two sequential checks.
With Core Graphics' standardized `maxY`, at most one of them can fire
(`Frames.ClampsAreExclusive`).

A card that overhangs the background's bottom edge gets a negative bottom
sliding distance. For a 40-point card at y = 460 in a 480-point background,
`bottomDistance` is 480 - 500 = -20. The bottom strip is empty, and a
presentation moves it up by 20 (`Frames.CardNearBottomScenario`,
`Choreography.EmptyBottomStripMovesUp`).

Both animators run the frames their code computes. The corrected top strip
of the current revision (see Findings) is the separate
`Frames.IntendedResolve`.

## Model

| member | source | states |
|---|---|---|
| Frames.DefaultCollapsedFrame | Sources/DAExpandAnimation/DAExpandAnimation.swift:78-83 | with no provider, the collapsed frame is a zero-height line across the background's full width at its vertical middle; it lies inside the background, equally far from both edges |
| Frames.ClampCollapsedFrame | Sources/DAExpandAnimation/DAExpandAnimation.swift:84-89 | a frame wholly above the background ends with its bottom edge on the background's top edge; one wholly below ends with its top edge on the bottom edge; a frame that touches the background is left alone; only y ever changes |
| Frames.ClampsAreExclusive | Sources/DAExpandAnimation/DAExpandAnimation.swift:84-89 | whichever clamp fires, the other does not change its result |
| Frames.ClampIsIdempotent | Sources/DAExpandAnimation/DAExpandAnimation.swift:84-89 | clamping a clamped frame changes nothing |
| Frames.TopStripFrame | Sources/DAExpandAnimation/DAExpandAnimation.swift:93-98 | the top strip as the code builds it: the background's top-left corner and width, height max(collapsed.y, bounds.y); the height is non-negative when bounds.y is |
| Frames.IntendedTopStripFrame | Sources/DAExpandAnimation/DAExpandAnimation.swift:93-98 | the corrected top strip: it runs from the background's top edge to the collapsed frame's top edge, has non-negative height, and is empty when the frame starts above the background |
| Frames.TopStripIsIntendedAtZeroOrigin | Sources/DAExpandAnimation/DAExpandAnimation.swift:93-98 | for bounds starting at y = 0, the code's top strip is the intended one |
| Frames.TopStripOverlapsCardWhenScrolled | Sources/DAExpandAnimation/DAExpandAnimation.swift:93-98 | bounds at y = 100 and a row at y = 300: the code's top strip reaches y = 400 and covers the row, while the intended strip stops at 300 |
| Frames.BottomStripFrame | Sources/DAExpandAnimation/DAExpandAnimation.swift:102-108 | the bottom strip runs from the collapsed frame's bottom edge (or the background's, if that is higher) to the background's bottom edge; its height is never negative, and it is empty for a frame overhanging the bottom |
| Frames.Resolve | Sources/DAExpandAnimation/DAExpandAnimation.swift:76-113 | the collapsed frame: the default line, or the provided frame moved only vertically, unchanged when it is inside; the expanded frame: the configured one, else the container's bounds; the strips as the code builds them; each sliding distance is the gap between the collapsed frame and a background edge; the two gaps and the card's height add up to the background's height; the bottom strip is as tall as its distance, or empty when that is negative, and so is the top strip when the bounds start at y = 0 |
| Frames.IntendedResolve | Sources/DAExpandAnimation/DAExpandAnimation.swift:93-113 | the corrected resolution: the same layout as the code's except the top strip, which ends at the collapsed frame's top edge; both strips are as tall as their distances, or empty; for bounds at y = 0 it is the code's layout |
| Frames.DefaultCardScenario | Sources/DAExpandAnimation/DAExpandAnimation.swift:78-113 | a 320 x 480 background with no provider: the view grows from y = 240 and each strip slides 240 |
| Frames.CardNearBottomScenario | Sources/DAExpandAnimation/DAExpandAnimation.swift:102-113 | a card overhanging the bottom edge gets an empty bottom strip at y = 480 and a bottom distance of 480 - 500 = -20 |
| XpandrFrames.TopStripFrame | Xpandr/DAExpandAnimation.swift:82-87 | the older top strip is as tall as the collapsed frame's origin y; its height is negative exactly when that y is |
| XpandrFrames.BottomStripFrame | Xpandr/DAExpandAnimation.swift:95-101 | the older bottom strip starts at the collapsed frame's bottom edge; its height is negative exactly when that edge is below the background's |
| XpandrFrames.Resolve | Xpandr/DAExpandAnimation.swift:65-110 | the same collapsed frame, expanded frame and distances as the current revision, with the unguarded strips; the bottom strip is exactly as tall as the bottom distance |
| XpandrFrames.RevisionsAgreeInside | Xpandr/DAExpandAnimation.swift:82-101 | for a collapsed frame inside the background, whatever the bounds' origin, both revisions resolve the same layout |
| XpandrFrames.TopStripNegativeNearTop | Xpandr/DAExpandAnimation.swift:82-87 | a card at y = -20 gets an older top strip of height -20, where the current revision's has height 0 |
| XpandrFrames.BottomStripNegativeNearBottom | Xpandr/DAExpandAnimation.swift:95-101 | a card at y = 460 in a 480-point background gets an older bottom strip of height -20, where the current revision's has height 0 |
| Adapters.SlidesApart | Sources/DAExpandAnimation/DAExpandAnimation.swift:120 | the presenter slides apart unless an adapter is present and says false; a missing adapter counts as true |
| Adapters.DefaultAdapterSlidesApart | Sources/DAExpandAnimation/DAExpandAnimation.swift:216-222 | an adapter keeping the protocol's default `shouldSlideApart` slides apart, as does a missing adapter; one answering false does not |
| Scene.Without | Sources/DAExpandAnimation/DAExpandAnimation.swift:154-157 | removing a view leaves every other subview and no copy of it; a list without the view is unchanged; no duplicates are introduced |
| Scene.WithSubview | Sources/DAExpandAnimation/DAExpandAnimation.swift:121-126 | after addSubview, the view is frontmost; the subviews are the old ones plus it; a new view is appended at the end; a list without duplicates stays without |
| Scene.WithoutWithSubview | Sources/DAExpandAnimation/DAExpandAnimation.swift:126 | adding a view and then removing it is the same as removing it |
| Scene.TransitionScene.AddSubview | Sources/DAExpandAnimation/DAExpandAnimation.swift:121-126 | the container's new subview list is WithSubview of the old one, and the call is recorded |
| Scene.TransitionScene.RemoveFromSuperview | Sources/DAExpandAnimation/DAExpandAnimation.swift:154-157 | the container's new subview list is Without of the old one, and the call is recorded |
| Trace.CalledIsCandidate | Sources/DAExpandAnimation/DAExpandAnimation.swift:120-165 | every call a run makes is the one candidate of its lifecycle stage |
| Trace.CallsUpToMembers | Sources/DAExpandAnimation/DAExpandAnimation.swift:120-165 | the calls before stage n are exactly the calls of the run whose stage is below n |
| Trace.CallsUpToStaged | Sources/DAExpandAnimation/DAExpandAnimation.swift:120-165 | the calls before stage n are in strictly increasing stage order |
| Trace.TraceFollowsLifecycle | Sources/DAExpandAnimation/DAExpandAnimation.swift:120-165 | a run's trace holds exactly the calls the run makes, each once, in this order: strips in, front view in, prepare, animationsWillBegin, animate, the removals, completeTransition(true), animationsDidEnd, cleanup |
| Choreography.MoveCommutesWithConvert | Sources/DAExpandAnimation/DAExpandAnimation.swift:114-119 | pre-offsetting a snapshot (`center.y += dy`) and then converting it to container coordinates gives the same frame as converting first and offsetting after; a missing snapshot stays missing |
| Choreography.MoveThereAndBack | Sources/DAExpandAnimation/DAExpandAnimation.swift:114-117 | moving a view's center by dy and then by -dy puts it back where it was |
| Choreography.StripsRetraceTheirPath | Sources/DAExpandAnimation/DAExpandAnimation.swift:114-151 | a presentation's strips end where the dismissal's start, and the dismissal's end where the presentation's start |
| Choreography.EmptyBottomStripMovesUp | Sources/DAExpandAnimation/DAExpandAnimation.swift:102-116 | for the card overhanging the bottom edge, the empty bottom strip has height 0 and a presentation ends it 20 points higher than it starts |
| Choreography.SlideReachesEnd | Sources/DAExpandAnimation/DAExpandAnimation.swift:139-151 | the animation block's slide carries each strip from its start to its end position, in both directions |
| Choreography.SubviewsWhileAnimating | Sources/DAExpandAnimation/DAExpandAnimation.swift:120-126 | while animating, the front view is frontmost and the strips, when inserted, lie just behind it; nothing else joins |
| Choreography.InsertStrips | Sources/DAExpandAnimation/DAExpandAnimation.swift:99-123 | the strip frames are their start positions; the strips are appended, top then bottom, exactly when the presenter slides apart and both snapshots exist; the calls made are those of stages 0-1 |
| Choreography.InsertFrontView | Sources/DAExpandAnimation/DAExpandAnimation.swift:125-136 | the front view becomes frontmost and, when presenting, sits at the converted collapsed frame; the calls made are those of stages 2-4 |
| Choreography.RunAnimations | Sources/DAExpandAnimation/DAExpandAnimation.swift:137-152 | the strips reach their end positions; the front view ends at the expanded frame (presenting) or the converted collapsed frame (dismissing); the start state is recorded; the animate hook is the stage-5 call |
| Choreography.RemoveViews | Sources/DAExpandAnimation/DAExpandAnimation.swift:154-158 | each existing snapshot is removed, and so is the front view on dismissal; the calls made are those of stages 6-8 |
| Choreography.Report | Sources/DAExpandAnimation/DAExpandAnimation.swift:159-165 | completeTransition(true), then animationsDidEnd and cleanup when their adapters are there; the trace is then the run's full reference trace |
| Choreography.FrontViewAboveStrips | Sources/DAExpandAnimation/DAExpandAnimation.swift:120-126 | adding the front view after the strips gives the subview list the animation block runs with |
| Choreography.StripsRemoved | Sources/DAExpandAnimation/DAExpandAnimation.swift:154-155 | removing both strips from that list leaves the earlier subviews with the front view on top |
| Choreography.ContainerRoundTrip | Sources/DAExpandAnimation/DAExpandAnimation.swift:126-157 | a front view that was not in the container is gone again after a presentation and a dismissal |
| Choreography.SubviewsAfterCompletion | Sources/DAExpandAnimation/DAExpandAnimation.swift:153-158 | the completion's removals leave the front view frontmost after a presentation, and the container as it was, less the front view, after a dismissal |
| Choreography.SetUpScene | Sources/DAExpandAnimation/DAExpandAnimation.swift:93-136 | everything before the animation block: the strips at their start positions, the front view placed, the subviews as SubviewsWhileAnimating, the calls of stages 0-4 |
| Choreography.Complete | Sources/DAExpandAnimation/DAExpandAnimation.swift:153-166 | the completion block as a whole: the final subview list and the run's full trace |
| Choreography.Play | Sources/DAExpandAnimation/DAExpandAnimation.swift:93-167 | one run after frame resolution: the strip start and end positions, the front view's start and end frames, the subviews while animating and afterwards, and the trace equal to the reference trace; the scene stays valid |
| Animation.DAExpandAnimation.constructor | Sources/DAExpandAnimation/DAExpandAnimation.swift:31-59 | a new animator has no adapters, no configured frames and a duration of 0.24 s |
| Animation.DAExpandAnimation.TransitionDuration | Sources/DAExpandAnimation/DAExpandAnimation.swift:64-66 | the reported duration is the configured one, whatever the context |
| Animation.DAExpandAnimation.AnimateTransition | Sources/DAExpandAnimation/DAExpandAnimation.swift:68-168 | a run plays out over the frames Frames.Resolve gives for the animator's configuration, with its current adapters |
| Animation.PresentThenDismiss | Sources/DAExpandAnimation/DAExpandAnimation.swift:68-168 | a presentation and then a dismissal leave the container as it was; the front view shrinks from the expanded frame to the converted collapsed frame; the dismissal's strips start where a presentation's end; the trace is the two reference traces in turn |
| XpandrAnimation.DAExpandAnimation.constructor | Xpandr/DAExpandAnimation.swift:30-51 | a new animator has no adapters, no configured frames and the 0.24 s system duration |
| XpandrAnimation.DAExpandAnimation.TransitionDuration | Xpandr/DAExpandAnimation.swift:53-55 | the reported duration is the configured one |
| XpandrAnimation.DAExpandAnimation.AnimateTransition | Xpandr/DAExpandAnimation.swift:57-165 | a run plays out over the frames XpandrFrames.Resolve gives, with the shared choreography |

## Left out

- Rendering is not modelled: snapshot pixels, the interpolation between an animation's start and end state, the animation's duration as elapsed time, and `layoutIfNeeded`. The animation block is a jump from its start state to its end state.
- Snapshot capture is not modelled. Whether `slidingPart` (current revision) or `resizableSnapshotView` (older revision) returned a view for each strip is a boolean input. A custom `slidingPart` closure is not modelled beyond that.
- `convert(_:to:)` is a translation by a fixed offset. Rotated or scaled view hierarchies are not modelled.
- The adapter hooks are recorded in the trace. They are assumed not to change the modelled state.
- The adapters are weak references. The model assumes they stay as they are for the whole run, including its completion block.
- How `isPresentation` is derived from the two view controllers is not modelled: it is an input. The force unwraps of lines 69-73 (a missing view controller or view) are outside the model.
- The collapsed-frame closure is modelled as the frame it returns when the transition calls it.
- CGFloat is modelled as exact reals, with no rounding.
- The demo application and its view controllers are not part of this model.
- The older revision has no counterpart of `Animation.PresentThenDismiss`. Its runs share `Choreography.Play`, so `Choreography.StripsRetraceTheirPath` applies to them unchanged.

## Findings

| source | as written | input that shows it | evidently intended | confidence | as-written member | corrected member |
|---|---|---|---|---|---|---|
| Xpandr/DAExpandAnimation.swift:82-87 | the top strip's height is `collapsedFrame.origin.y`, with no guard | bounds (0, 0, 320, 480), card (0, -20, 320, 40): the clamp leaves the card alone and the strip gets height -20 | a strip from the background's top edge to the card's top edge, empty when the card starts above it (the later revision adds a guard) | high, not executed | XpandrFrames.TopStripNegativeNearTop | Frames.IntendedTopStripFrame |
| Xpandr/DAExpandAnimation.swift:95-101 | the bottom strip starts at `collapsedFrame.maxY`, with no guard | bounds (0, 0, 320, 480), card (0, 460, 320, 40): the strip starts at 500 with height -20 | a strip starting no lower than the background's bottom edge, with height >= 0 (the later revision's `min`) | high, not executed | XpandrFrames.BottomStripNegativeNearBottom | Frames.BottomStripFrame |
| Sources/DAExpandAnimation/DAExpandAnimation.swift:93-98 | the top strip's height is `max(collapsedFrame.origin.y, bounds.origin.y)`, which is an absolute y used as a height | a scrolled table view, bounds (0, 100, 320, 480), row (0, 300, 320, 44): the strip covers y 100-400, over the whole row, while it slides only 200 | height `max(collapsedFrame.origin.y - bounds.origin.y, 0)`: the same as the top sliding distance (line 112), so each strip is as tall as the distance it slides | medium, not executed | Frames.TopStripOverlapsCardWhenScrolled | Frames.IntendedResolve |
