/** `usePullToRefresh`: the touch gesture that refreshes all data when the
    page, scrolled to the top, is pulled down far enough, together with the
    provider's `isRefreshing` flag it reads. Whether the page is at the top,
    the touch's `clientY` and whether the user has a token are event
    parameters; each handler sees the state of the last render. */
module PullToRefresh {
  const MaxPull: real := 100.0
  const Threshold: real := 60.0

  datatype Gesture = Gesture(isPulling: bool, pullDistance: real, startY: real, currentY: real)

  const Idle := Gesture(false, 0.0, 0.0, 0.0)

  /** What the indicator relies on: the distance is within `0 .. 100` and
      the pulling flag is only up past the threshold. */
  predicate Valid(g: Gesture) {
    && 0.0 <= g.pullDistance <= MaxPull
    && (g.isPulling ==> g.pullDistance > Threshold)
  }

  function Max(a: real, b: real): real { if a >= b then a else b }
  function Min(a: real, b: real): real { if a <= b then a else b }

  /** `handleTouchStart`: remember where the touch began, or 0 when the
      page is scrolled. */
  function TouchStart(g: Gesture, atTop: bool, clientY: real): (h: Gesture)
    ensures h.startY == (if atTop then clientY else 0.0)
    ensures h.isPulling == g.isPulling && h.pullDistance == g.pullDistance && h.currentY == g.currentY
  {
    g.(startY := if atTop then clientY else 0.0)
  }

  /** `handleTouchMove`: at the top with a start, the distance pulled
      (never negative) capped at 100, pulling once past 60; otherwise a
      started pull is cancelled. */
  function TouchMove(g: Gesture, atTop: bool, clientY: real): (h: Gesture)
    ensures atTop && g.startY > 0.0 ==>
      && h.currentY == clientY
      && h.pullDistance == Min(Max(0.0, clientY - g.startY), MaxPull)
      && (h.isPulling <==> clientY - g.startY > Threshold)
    ensures !(atTop && g.startY > 0.0) && g.pullDistance > 0.0 ==>
      !h.isPulling && h.pullDistance == 0.0 && h.startY == 0.0
    ensures !(atTop && g.startY > 0.0) && g.pullDistance <= 0.0 ==> h == g
  {
    if atTop && g.startY > 0.0 then
      var distance := Max(0.0, clientY - g.startY);
      g.(currentY := clientY, pullDistance := Min(distance, MaxPull), isPulling := distance > Threshold)
    else if g.pullDistance > 0.0 then
      g.(pullDistance := 0.0, isPulling := false, startY := 0.0)
    else g
  }

  /** `handleTouchEnd` up to its `await`: whether it calls `refreshAll`
      (at the top, pulling past 60, no refresh running) and the gesture it
      leaves behind. Without the call it resets at once; with it the
      gesture stays as it is until the awaited refresh completes. */
  function TouchEnd(g: Gesture, atTop: bool, isRefreshing: bool): (r: (Gesture, bool))
    ensures r.1 <==> atTop && g.isPulling && g.pullDistance > Threshold && !isRefreshing
    ensures !r.1 ==> r.0 == Idle
    ensures r.1 ==> r.0 == g
  {
    var calls := atTop && g.isPulling && g.pullDistance > Threshold && !isRefreshing;
    (if calls then g else Idle, calls)
  }

  /** The page around the gesture: the provider's `isRefreshing` flag, the
      `refreshAll` calls in flight, and how many of those a suspended
      touch-end handler is awaiting. */
  datatype Page = Page(g: Gesture, isRefreshing: bool, running: nat, awaiting: nat)

  const Initial := Page(Idle, false, 0, 0)

  /** The flag is only up while some refresh runs; every awaited refresh is
      running. */
  predicate PageValid(p: Page) {
    && Valid(p.g)
    && p.awaiting <= p.running
    && (p.isRefreshing ==> p.running > 0)
  }

  /** The touch events, and the two ends of a `refreshAll` that are not
      touches: a call from elsewhere on the page (the bonus card), and a
      running refresh reaching its `finally`, which clears the flag and,
      for a refresh the gesture started, resumes its handler. */
  datatype Event =
    | Start(atTop: bool, clientY: real)
    | Move(atTop: bool, clientY: real)
    | End(atTop: bool, hasToken: bool)
    | OtherRefresh(hasToken: bool)
    | Finish(fromGesture: bool)

  /** A touch end that starts a refresh: `refreshAll` is called and, with
      a token, raises the flag before its first `await`. */
  predicate StartsRefresh(p: Page, e: Event) {
    e.End? && e.hasToken && TouchEnd(p.g, e.atTop, p.isRefreshing).1
  }

  function Step(p: Page, e: Event): Page {
    match e
    case Start(atTop, y) => p.(g := TouchStart(p.g, atTop, y))
    case Move(atTop, y) => p.(g := TouchMove(p.g, atTop, y))
    case End(atTop, hasToken) =>
      if StartsRefresh(p, e) then Page(TouchEnd(p.g, atTop, p.isRefreshing).0, true, p.running + 1, p.awaiting + 1)
      else p.(g := Idle)
    case OtherRefresh(hasToken) =>
      if hasToken then p.(isRefreshing := true, running := p.running + 1) else p
    case Finish(fromGesture) =>
      if fromGesture && 0 < p.awaiting <= p.running then Page(Idle, false, p.running - 1, p.awaiting - 1)
      else if !fromGesture && p.running > p.awaiting then p.(isRefreshing := false, running := p.running - 1)
      else p
  }

  function Run(p: Page, es: seq<Event>): Page
    decreases |es|
  {
    if |es| == 0 then p else Run(Step(p, es[0]), es[1..])
  }

  /** Every event keeps the page valid. */
  lemma StepKeepsValid(p: Page, e: Event)
    requires PageValid(p)
    ensures PageValid(Step(p, e))
  {
  }

  /** From a valid page, any sequence of events leaves it valid: in
      particular the distance stays within `0 .. 100` and the pulling flag
      is up only past the threshold. */
  lemma {:induction false} RunKeepsValid(p: Page, es: seq<Event>)
    requires PageValid(p)
    ensures PageValid(Run(p, es))
    decreases |es|
  {
    if |es| > 0 {
      StepKeepsValid(p, es[0]);
      RunKeepsValid(Step(p, es[0]), es[1..]);
    }
  }

  /** On a valid gesture the end handler's distance test is implied by the
      pulling flag: a refresh is called exactly when pulling at the top
      with no refresh running. */
  lemma RefreshIffPulling(g: Gesture, atTop: bool, isRefreshing: bool)
    requires Valid(g)
    ensures TouchEnd(g, atTop, isRefreshing).1 <==> atTop && g.isPulling && !isRefreshing
  {
  }

  /** A touch end that starts a refresh keeps the pull on screen and
      raises the flag; one that does not resets the gesture at once. */
  lemma EndKeepsPullWhileRefreshing(p: Page, atTop: bool, hasToken: bool)
    ensures StartsRefresh(p, End(atTop, hasToken)) ==>
      var q := Step(p, End(atTop, hasToken));
      q.g == p.g && q.g.isPulling && q.isRefreshing && q.awaiting == p.awaiting + 1
    ensures !StartsRefresh(p, End(atTop, hasToken)) ==>
      var q := Step(p, End(atTop, hasToken));
      q.g == Idle && q.awaiting == p.awaiting && q.running == p.running
  {
  }

  /** No double refresh: while the flag is up, no touch event starts a
      refresh, however the gesture is repeated, until a refresh finishes. */
  lemma {:induction false} NoDoubleRefresh(p: Page, es: seq<Event>)
    requires p.isRefreshing
    requires forall i :: 0 <= i < |es| ==> !es[i].Finish?
    ensures Run(p, es).isRefreshing
    ensures Run(p, es).awaiting == p.awaiting
    decreases |es|
  {
    if |es| > 0 {
      assert !es[0].Finish?;
      assert !StartsRefresh(p, es[0]);
      assert forall i :: 0 <= i < |es[1..]| ==> !es[1..][i].Finish? by {
        forall i | 0 <= i < |es[1..]| ensures !es[1..][i].Finish? {
          assert es[1..][i] == es[i + 1];
        }
      }
      NoDoubleRefresh(Step(p, es[0]), es[1..]);
    }
  }

  /** When the awaited refresh completes the suspended handler resets the
      gesture: a touch that started at the top during the refresh loses
      its start, so its moves no longer pull. */
  lemma TouchDuringRefreshForgotten(p: Page, y: real)
    requires PageValid(p) && p.awaiting > 0
    ensures Step(p, Start(true, y)).g.startY == y
    ensures var q := Step(Step(p, Start(true, y)), Finish(true));
      q.g == Idle && !q.isRefreshing && q.awaiting == p.awaiting - 1
  {
  }

  /** Pulling starts only from a touch that began at the top and moved down
      more than 60: a move that sets the flag had a start and a long enough
      distance. */
  lemma PullingNeedsLongMove(g: Gesture, atTop: bool, clientY: real)
    requires !g.isPulling
    requires TouchMove(g, atTop, clientY).isPulling
    ensures atTop && g.startY > 0.0 && clientY - g.startY > Threshold
  {
  }
}
