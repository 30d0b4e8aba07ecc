/**
 * The two adapter protocols and what a run depends on besides geometry: the
 * direction, whether each strip snapshot could be taken, and which adapters
 * are still there (both are weak references).
 */
module Adapters {
  import opened Geometry

  /** A presenting-view adapter; an adopter that does not override `shouldSlideApart` gets true. */
  datatype PresentingAdapter = PresentingAdapter(shouldSlideApart: bool)

  /** The default implementation of the presenting-view adapter protocol. */
  const DefaultPresentingAdapter := PresentingAdapter(true)

  /** A presented-view adapter: all it offers are hooks, and their default implementations do nothing. */
  datatype PresentedAdapter = PresentedAdapter

  /** The conditions of one run of `animateTransition`. */
  datatype Run = Run(
    isPresentation: bool,
    topSnapshot: bool,
    bottomSnapshot: bool,
    presenting: Option<PresentingAdapter>,
    presented: Option<PresentedAdapter>)

  /** `presentingViewAdapter?.shouldSlideApart != false`: a missing adapter counts as sliding apart. */
  function SlidesApart(presenting: Option<PresentingAdapter>): (r: bool)
    ensures r <==> presenting.None? || presenting.value.shouldSlideApart
  {
    var answer: Option<bool> := if presenting.Some? then Some(presenting.value.shouldSlideApart) else None;
    answer != Some(false)
  }

  /** An adopter that keeps the protocol's default slides apart, as does a run with no adapter at all. */
  lemma DefaultAdapterSlidesApart()
    ensures SlidesApart(Some(DefaultPresentingAdapter))
    ensures SlidesApart(None)
    ensures !SlidesApart(Some(PresentingAdapter(false)))
  {
  }

  /** Whether the strips are added to the container: sliding apart, and both snapshots taken. */
  predicate StripsInserted(p: Run) {
    SlidesApart(p.presenting) && p.topSnapshot && p.bottomSnapshot
  }
}
