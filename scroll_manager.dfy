/**
 * The one-shot auto-scroll of the home page: while the visitor is near the
 * top and starts scrolling down, the page is carried once, smoothly, to the
 * second phase. Two flags guard it: `hasScrolled` (the auto-scroll has
 * finished) and `isScrolling` (an auto-scroll is in flight). The smooth
 * scroller itself is left out; its `scrollTo` call is modelled as the
 * request the handler emits, and the scroller's completion callback as an
 * event of its own.
 */
module ScrollManager {
  import opened Wrappers

  /** The arguments of the `scrollTo` call: target selector, duration in
      seconds and whether user input is locked meanwhile. */
  datatype ScrollRequest = ScrollRequest(target: string, duration: real, lock: bool)

  /** The only request the handler ever issues. */
  const AutoScroll: ScrollRequest := ScrollRequest("#phase-2", 0.4, true)

  /** Scroll offsets below this count as "near the top". */
  const TopZone: real := 50.0

  datatype ScrollState = ScrollState(hasScrolled: bool, isScrolling: bool)

  /** Both flags start false. */
  const Idle: ScrollState := ScrollState(false, false)

  /** What reaches the component: a scroll event of the smooth scroller
      (offset and velocity), or the completion of the requested scroll. */
  datatype Event = Scrolled(scroll: real, velocity: real) | Completed

  /** A scroll event that would start the auto-scroll from an idle state. */
  predicate IsTrigger(e: Event)
  {
    e.Scrolled? && e.scroll < TopZone && e.velocity > 0.0
  }

  /** `handleScroll`: the new flags and the request issued, if any. */
  function OnScroll(st: ScrollState, scroll: real, velocity: real): (ScrollState, Option<ScrollRequest>)
  {
    if st.hasScrolled || st.isScrolling then (st, None)
    else if scroll < TopZone && velocity > 0.0 then (st.(isScrolling := true), Some(AutoScroll))
    else (st, None)
  }

  /** The `onComplete` callback of the request. */
  function OnComplete(st: ScrollState): (r: ScrollState)
    ensures r.hasScrolled && !r.isScrolling
  {
    ScrollState(true, false)
  }

  /** One event: the new flags and the requests it issues (none or one). */
  function Step(st: ScrollState, e: Event): (r: (ScrollState, seq<ScrollRequest>))
    ensures |r.1| <= 1
  {
    match e
    case Completed => (OnComplete(st), [])
    case Scrolled(scroll, velocity) =>
      var (next, req) := OnScroll(st, scroll, velocity);
      (next, if req.Some? then [req.value] else [])
  }

  /** A sequence of events, in order: the final flags and every request
      issued along the way. */
  function Run(st: ScrollState, events: seq<Event>): (ScrollState, seq<ScrollRequest>)
    decreases |events|
  {
    if events == [] then (st, [])
    else
      var (next, reqs) := Step(st, events[0]);
      var (last, more) := Run(next, events[1..]);
      (last, reqs + more)
  }

  /** The trigger condition: a request is issued exactly when no auto-scroll
      has finished or is in flight, the offset is below 50 and the velocity
      is positive. Starting marks the auto-scroll in flight and asks for
      `#phase-2`; otherwise nothing changes. */
  lemma ScrollTrigger(st: ScrollState, scroll: real, velocity: real)
    ensures OnScroll(st, scroll, velocity).1.Some? <==>
      !st.hasScrolled && !st.isScrolling && scroll < TopZone && velocity > 0.0
    ensures OnScroll(st, scroll, velocity).1.Some? ==>
      OnScroll(st, scroll, velocity).1.value == AutoScroll &&
      OnScroll(st, scroll, velocity).0 == ScrollState(false, true)
    ensures OnScroll(st, scroll, velocity).1.None? ==> OnScroll(st, scroll, velocity).0 == st
  {
  }

  /** Events away from the top, or not moving down, change nothing. */
  lemma IgnoredScroll(st: ScrollState, scroll: real, velocity: real)
    requires scroll >= TopZone || velocity <= 0.0
    ensures OnScroll(st, scroll, velocity) == (st, None)
  {
  }

  /** Once an auto-scroll has started or finished, one of the two flags stays
      set for good, `hasScrolled` never goes back to false, and no further
      request is issued. */
  lemma {:induction false} Sticky(st: ScrollState, events: seq<Event>)
    requires st.hasScrolled || st.isScrolling
    ensures Run(st, events).1 == []
    ensures Run(st, events).0.hasScrolled || Run(st, events).0.isScrolling
    ensures st.hasScrolled ==> Run(st, events).0.hasScrolled
    decreases |events|
  {
    if events != [] {
      Sticky(Step(st, events[0]).0, events[1..]);
    }
  }

  /** Over any sequence of events at most one request is issued, and it is
      the scroll to `#phase-2`. */
  lemma {:induction false} AtMostOnce(st: ScrollState, events: seq<Event>)
    ensures |Run(st, events).1| <= 1
    ensures forall k :: 0 <= k < |Run(st, events).1| ==> Run(st, events).1[k] == AutoScroll
    decreases |events|
  {
    if events != [] {
      var next := Step(st, events[0]).0;
      if Step(st, events[0]).1 == [] {
        AtMostOnce(next, events[1..]);
      } else {
        Sticky(next, events[1..]);
      }
    }
  }

  /** Event `k` is a trigger, and only non-triggering scroll events come
      before it. */
  ghost predicate FirstTriggerAt(events: seq<Event>, k: int)
  {
    0 <= k < |events| && IsTrigger(events[k]) &&
    forall j :: 0 <= j < k ==> !IsTrigger(events[j]) && events[j].Scrolled?
  }

  lemma FirstTriggerShift(events: seq<Event>, k: nat)
    requires events != [] && events[0].Scrolled? && !IsTrigger(events[0])
    ensures FirstTriggerAt(events, k + 1) <==> FirstTriggerAt(events[1..], k)
  {
    if FirstTriggerAt(events[1..], k) {
      forall j | 0 <= j < k + 1
        ensures !IsTrigger(events[j]) && events[j].Scrolled?
      {
        if j > 0 {
          assert events[j] == events[1..][j - 1];
        }
      }
    }
  }

  /** From the idle state the auto-scroll is requested exactly when some
      event is a trigger and no completion comes before it; events before
      that trigger leave the state idle. */
  lemma {:induction false} FiresIffTriggered(events: seq<Event>)
    ensures Run(Idle, events).1 == [AutoScroll] <==> exists k :: FirstTriggerAt(events, k)
    decreases |events|
  {
    if events != [] {
      var e := events[0];
      var tail := events[1..];
      var next := Step(Idle, e).0;
      if IsTrigger(e) {
        Sticky(next, tail);
        assert FirstTriggerAt(events, 0);
      } else if e.Completed? {
        Sticky(next, tail);
      } else {
        assert next == Idle;
        FiresIffTriggered(tail);
        if Run(Idle, events).1 == [AutoScroll] {
          var k :| FirstTriggerAt(tail, k);
          FirstTriggerShift(events, k);
        }
        if exists k :: FirstTriggerAt(events, k) {
          var k :| FirstTriggerAt(events, k);
          FirstTriggerShift(events, k - 1);
        }
      }
    }
  }

  /** The component: the `hasScrolled` state and the `isScrollingRef` ref. */
  class ScrollManager {
    var hasScrolled: bool
    var isScrolling: bool

    function State(): ScrollState
      reads this
    {
      ScrollState(hasScrolled, isScrolling)
    }

    constructor()
      ensures State() == Idle
    {
      hasScrolled := false;
      isScrolling := false;
    }

    /** `handleScroll`: returns the `scrollTo` request it makes, if any. */
    method HandleScroll(scroll: real, velocity: real) returns (req: Option<ScrollRequest>)
      modifies this
      ensures (State(), req) == OnScroll(old(State()), scroll, velocity)
    {
      if hasScrolled || isScrolling {
        return None;
      }
      if scroll < TopZone && velocity > 0.0 {
        isScrolling := true;
        req := Some(AutoScroll);
      } else {
        req := None;
      }
    }

    /** The `onComplete` callback of the request. */
    method Complete()
      modifies this
      ensures State() == OnComplete(old(State()))
    {
      isScrolling := false;
      hasScrolled := true;
    }
  }
}
