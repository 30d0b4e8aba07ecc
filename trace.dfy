/**
 * The calls one run of `animateTransition` makes on the container and on the
 * adapters, and the lifecycle order they are made in.
 */
module Trace {
  import opened Scene
  import opened Adapters

  /** Where each call falls in the lifecycle of a run. */
  function Stage(e: Event): (k: nat)
    ensures k < 12
  {
    match e
    case SubviewAdded(v) => if v == TopStrip then 0 else if v == BottomStrip then 1 else 2
    case Prepare(_) => 3
    case AnimationsWillBegin(_) => 4
    case Animate(_) => 5
    case SubviewRemoved(v) => if v == TopStrip then 6 else if v == BottomStrip then 7 else 8
    case CompleteTransition(_) => 9
    case AnimationsDidEnd(_) => 10
    case Cleanup(_) => 11
  }

  /**
   * Which calls a run makes: the strips go in only when they are inserted,
   * the front view always goes in; each strip snapshot that exists is removed,
   * the front view only on dismissal; completion is reported as a success;
   * each adapter hook is called for the run's own direction, and only when its
   * adapter is there.
   */
  predicate Called(e: Event, p: Run) {
    match e
    case SubviewAdded(v) => v == FrontView || ((v == TopStrip || v == BottomStrip) && StripsInserted(p))
    case SubviewRemoved(v) =>
      (v == TopStrip && p.topSnapshot) || (v == BottomStrip && p.bottomSnapshot) || (v == FrontView && !p.isPresentation)
    case CompleteTransition(didComplete) => didComplete
    case Prepare(expanding) => expanding == p.isPresentation && p.presented.Some?
    case Animate(expanding) => expanding == p.isPresentation && p.presented.Some?
    case Cleanup(expanding) => expanding == p.isPresentation && p.presented.Some?
    case AnimationsWillBegin(presenting) => presenting == p.isPresentation && p.presenting.Some?
    case AnimationsDidEnd(presenting) => presenting == p.isPresentation && p.presenting.Some?
  }

  /** The call `e` when `c` holds, and nothing otherwise. */
  function Opt(c: bool, e: Event): (r: seq<Event>)
    ensures r == [] || r == [e]
    ensures e in r <==> c
  {
    if c then [e] else []
  }

  /** The calls in `s` are in strictly increasing lifecycle order. */
  ghost predicate Staged(s: seq<Event>) {
    forall i, j :: 0 <= i < j < |s| ==> Stage(s[i]) < Stage(s[j])
  }

  /** The one call a run can make at lifecycle stage `k`, whether or not it makes it. */
  function CandidateAt(k: nat, p: Run): (e: Event)
    requires k < 12
    ensures Stage(e) == k
  {
    if k == 0 then SubviewAdded(TopStrip)
    else if k == 1 then SubviewAdded(BottomStrip)
    else if k == 2 then SubviewAdded(FrontView)
    else if k == 3 then Prepare(p.isPresentation)
    else if k == 4 then AnimationsWillBegin(p.isPresentation)
    else if k == 5 then Animate(p.isPresentation)
    else if k == 6 then SubviewRemoved(TopStrip)
    else if k == 7 then SubviewRemoved(BottomStrip)
    else if k == 8 then SubviewRemoved(FrontView)
    else if k == 9 then CompleteTransition(true)
    else if k == 10 then AnimationsDidEnd(p.isPresentation)
    else Cleanup(p.isPresentation)
  }

  /** Every call a run makes is the candidate of its stage, so a run makes at most one call per stage. */
  lemma CalledIsCandidate(e: Event, p: Run)
    requires Called(e, p)
    ensures e == CandidateAt(Stage(e), p)
  {
  }

  /**
   * The calls a run makes before lifecycle stage `n`, in the order it makes
   * them: each stage contributes its candidate call when the run makes it.
   */
  function CallsUpTo(n: nat, p: Run): seq<Event>
    requires n <= 12
  {
    if n == 0 then []
    else CallsUpTo(n - 1, p) + Opt(Called(CandidateAt(n - 1, p), p), CandidateAt(n - 1, p))
  }

  /** The calls one run of `animateTransition` makes, in the order it makes them. */
  function TransitionTrace(p: Run): seq<Event> {
    CallsUpTo(12, p)
  }

  /** Making stage `k`'s call, when the run makes it, extends the calls made so far. */
  lemma RecordCall(t0: seq<Event>, t: seq<Event>, k: nat, p: Run, e: Event)
    requires k < 12 && t == t0 + CallsUpTo(k, p)
    requires e == CandidateAt(k, p) && Called(e, p)
    ensures t + [e] == t0 + CallsUpTo(k + 1, p)
  {
  }

  /** Passing stage `k` without a call, when the run makes none there. */
  lemma SkipCall(t0: seq<Event>, t: seq<Event>, k: nat, p: Run)
    requires k < 12 && t == t0 + CallsUpTo(k, p)
    requires !Called(CandidateAt(k, p), p)
    ensures t == t0 + CallsUpTo(k + 1, p)
  {
  }

  /** `CallsUpTo(n, p)` holds exactly the calls of the run before stage `n`. */
  lemma {:induction false} CallsUpToMembers(n: nat, p: Run)
    requires n <= 12
    ensures forall e :: e in CallsUpTo(n, p) <==> Called(e, p) && Stage(e) < n
  {
    if n > 0 {
      CallsUpToMembers(n - 1, p);
      forall e | Called(e, p) && Stage(e) == n - 1
        ensures e == CandidateAt(n - 1, p)
      {
        CalledIsCandidate(e, p);
      }
    }
  }

  /** `CallsUpTo(n, p)` is in strictly increasing stage order, below stage `n`. */
  lemma {:induction false} CallsUpToStaged(n: nat, p: Run)
    requires n <= 12
    ensures forall e :: e in CallsUpTo(n, p) ==> Stage(e) < n
    ensures Staged(CallsUpTo(n, p))
  {
    if n > 0 {
      CallsUpToStaged(n - 1, p);
      var c := CandidateAt(n - 1, p);
      var prefix := CallsUpTo(n - 1, p);
      if Called(c, p) {
        var s := prefix + [c];
        assert CallsUpTo(n, p) == s;
        forall i, j | 0 <= i < j < |s|
          ensures Stage(s[i]) < Stage(s[j])
        {
          assert s[i] == prefix[i];
          if j < |prefix| {
            assert s[j] == prefix[j];
          } else {
            assert s[j] == c;
          }
        }
      } else {
        assert CallsUpTo(n, p) == prefix;
      }
    }
  }

  /**
   * A run's trace holds exactly the calls `Called` names, in strictly
   * increasing lifecycle order: the strips go in top before bottom, the front
   * view after them, then prepare, animationsWillBegin, animate, the removals
   * (top, bottom, front), completeTransition, animationsDidEnd and cleanup.
   * So each call is made at most once, and exactly once when `Called`.
   */
  lemma TraceFollowsLifecycle(p: Run)
    ensures Staged(TransitionTrace(p))
    ensures forall e :: e in TransitionTrace(p) <==> Called(e, p)
  {
    CallsUpToMembers(12, p);
    CallsUpToStaged(12, p);
  }
}
