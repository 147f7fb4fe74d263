/**
 * The home page's screenshot carousel: an effect that, while the pointer is
 * not over the scroll container, advances it every few seconds by half its
 * visible width and jumps back to the start once the end is reached.
 *
 * Offsets and widths are whole pixels.  The container is `ScrollBox`, whose
 * `ScrollTo` and `ScrollBy` set the requested offset, clamped to the
 * scrollable range (scroll snapping is not modelled); `AutoScroll` holds the effect's closure variables (`isHovering`,
 * `scrollInterval`) together with the set of intervals the page has running.
 * Each firing of an interval is one call of `AutoScroll.IntervalFires`.
 */
module Carousel {
  import opened Common

  /** A viewport ending within this many pixels of the content's end counts as at the end. */
  const EndSlack: int := 10

  /** The container's `clientWidth` and `scrollWidth`. */
  datatype Geometry = Geometry(clientWidth: nat, scrollWidth: nat)

  function Min(a: int, b: int): int {
    if a <= b then a else b
  }

  function Dist(a: int, b: int): nat {
    if a <= b then b - a else a - b
  }

  /** The largest offset the container can scroll to. */
  function MaxScroll(g: Geometry): nat {
    if g.scrollWidth > g.clientWidth then g.scrollWidth - g.clientWidth else 0
  }

  /** The offset `x` requested, clamped to the scrollable range: the reachable offset nearest to it. */
  function Clamp(x: int, g: Geometry): (r: nat)
    ensures r <= MaxScroll(g)
    ensures forall y :: 0 <= y <= MaxScroll(g) ==> Dist(x, r) <= Dist(x, y)
  {
    if x < 0 then 0 else if x > MaxScroll(g) then MaxScroll(g) else x
  }

  /**
   * Half the visible width.  In the page the half of an odd width is a
   * fraction of a pixel; here it is rounded down.
   */
  function Half(g: Geometry): nat {
    g.clientWidth / 2
  }

  /** The interval's test for the end of the content. */
  predicate AtEnd(pos: int, g: Geometry) {
    pos + g.clientWidth >= g.scrollWidth - EndSlack
  }

  /** The offset after one firing: back to 0 at the end, otherwise half a viewport further. */
  function NextPos(pos: nat, g: Geometry): (r: nat)
    ensures r <= MaxScroll(g)
    ensures AtEnd(pos, g) ==> r == 0
    ensures !AtEnd(pos, g) && pos <= MaxScroll(g) ==> r == Min(pos + Half(g), MaxScroll(g)) && pos <= r
  {
    if AtEnd(pos, g) then Clamp(0, g) else Clamp(pos + Half(g), g)
  }

  /** The offset after `n` firings, starting from `pos`. */
  function After(n: nat, pos: nat, g: Geometry): nat {
    if n == 0 then pos else NextPos(After(n - 1, pos, g), g)
  }

  // ---------------------------------------------------------------------------
  // The cycle of offsets from the start

  /** `AtEnd(p, g)` holds exactly for the offsets `p >= Threshold(g)`. */
  function Threshold(g: Geometry): int {
    g.scrollWidth - EndSlack - g.clientWidth
  }

  /** The offset after `k` uninterrupted advances from 0: `k` half-viewports, capped at the end. */
  function Advanced(k: nat, g: Geometry): nat {
    Min(k * Half(g), MaxScroll(g))
  }

  /**
   * How many firings it takes from offset 0 to reach the end: the least `k`
   * with `k * Half(g) >= Threshold(g)`.  It is 0 when the content already
   * fits (the next firing jumps to 0) or when the half width rounds to 0 (no
   * firing moves the offset).
   */
  function WrapTicks(g: Geometry): nat {
    if Threshold(g) <= 0 || Half(g) == 0 then 0
    else (Threshold(g) + Half(g) - 1) / Half(g)
  }

  lemma CeilingDivision(t: int, h: int)
    requires t > 0 && h > 0
    ensures ((t + h - 1) / h) * h >= t
    ensures ((t + h - 1) / h - 1) * h < t
  {
    var q, r := (t + h - 1) / h, (t + h - 1) % h;
    assert q * h + r == t + h - 1;
    assert (q - 1) * h == q * h - h;
  }

  lemma MulMonotone(a: int, b: int, h: nat)
    requires a <= b
    ensures a * h <= b * h
  {
    assert b * h - a * h == (b - a) * h;
  }

  /**
   * Before the end is reached, the `k`-th firing from 0 leaves the offset at
   * `k` half-viewports (capped at the end), and none of the earlier offsets is
   * at the end.
   */
  lemma {:induction false} AdvanceFromStart(k: nat, g: Geometry)
    requires k <= WrapTicks(g)
    ensures After(k, 0, g) == Advanced(k, g)
    ensures k < WrapTicks(g) ==> !AtEnd(After(k, 0, g), g)
  {
    if k > 0 {
      AdvanceFromStart(k - 1, g);
      var t, h := Threshold(g), Half(g);
      assert t > 0 && h > 0;
      CeilingDivision(t, h);
      MulMonotone(k - 1, WrapTicks(g) - 1, h);
      assert (k - 1) * h < t;
      assert After(k - 1, 0, g) == (k - 1) * h;
      assert (k - 1) * h + h == k * h;
      if k < WrapTicks(g) {
        MulMonotone(k, WrapTicks(g) - 1, h);
      }
    }
  }

  /** At the end of the advance the offset is at the end, and the next firing returns it to 0. */
  lemma WrapsToStart(g: Geometry)
    ensures Half(g) > 0 ==> AtEnd(After(WrapTicks(g), 0, g), g)
    ensures After(WrapTicks(g) + 1, 0, g) == 0
  {
    AdvanceFromStart(WrapTicks(g), g);
    if Threshold(g) > 0 && Half(g) > 0 {
      CeilingDivision(Threshold(g), Half(g));
    }
  }

  lemma {:induction false} AfterAdd(a: nat, b: nat, pos: nat, g: Geometry)
    ensures After(a + b, pos, g) == After(a, After(b, pos, g), g)
  {
    if a > 0 {
      AfterAdd(a - 1, b, pos, g);
    }
  }

  /** From offset 0 the offsets repeat with period `WrapTicks(g) + 1`. */
  lemma Periodic(n: nat, g: Geometry)
    ensures After(n + WrapTicks(g) + 1, 0, g) == After(n, 0, g)
  {
    AfterAdd(n, WrapTicks(g) + 1, 0, g);
    WrapsToStart(g);
  }

  // ---------------------------------------------------------------------------
  // Hovering, intervals and teardown

  /**
   * The effect's state: the container's offset, the closure's `isHovering`
   * and `scrollInterval`, the ids of the intervals running, the id the next
   * `setInterval` returns, and whether the mouse listeners are attached.
   */
  datatype Auto = Auto(pos: nat, hovering: bool, handle: Option<nat>, timers: set<nat>,
                       nextTimer: nat, listening: bool)

  /** What `clearInterval(scrollInterval)` stops. */
  function HandleSet(h: Option<nat>): set<nat> {
    if h.Some? then {h.value} else {}
  }

  /** `startAutoScroll` (called only where the container exists). */
  function Start(s: Auto): Auto {
    if s.hovering then s
    else s.(handle := Some(s.nextTimer), timers := s.timers + {s.nextTimer}, nextTimer := s.nextTimer + 1)
  }

  /** The effect body, with the container at offset `pos` and `firstTimer` the next interval id. */
  function Mounted(pos: nat, firstTimer: nat): Auto {
    Start(Auto(pos, false, None, {}, firstTimer, true))
  }

  /** A firing of interval `timer`, the pointer entering or leaving, the cleanup, a scroll by the user. */
  datatype Event = Fire(timer: nat) | Enter | Leave | Unmount | Drag(left: int)

  function Step(s: Auto, e: Event, g: Geometry): Auto {
    match e
    case Fire(t) => if t in s.timers then s.(pos := NextPos(s.pos, g)) else s
    case Enter => if s.listening then s.(hovering := true, timers := s.timers - HandleSet(s.handle)) else s
    case Leave => if s.listening then Start(s.(hovering := false)) else s
    case Unmount => s.(listening := false, timers := s.timers - HandleSet(s.handle))
    case Drag(left) => s.(pos := Clamp(left, g))
  }

  function Run(s: Auto, evs: seq<Event>, g: Geometry): Auto
    decreases |evs|
  {
    if evs == [] then s else Run(Step(s, evs[0], g), evs[1..], g)
  }

  /** Interval ids come from a counter: every id in use is below the next one. */
  predicate WellFormed(s: Auto) {
    && (forall t :: t in s.timers ==> t < s.nextTimer)
    && (s.handle.Some? ==> s.handle.value < s.nextTimer)
  }

  /**
   * The intended shape of the state: while the listeners are attached and
   * the pointer is away, exactly the interval in `scrollInterval` runs;
   * otherwise none does.
   */
  predicate OneInterval(s: Auto) {
    && (s.listening && !s.hovering ==> s.handle.Some?)
    && s.timers == (if s.listening && !s.hovering then HandleSet(s.handle) else {})
  }

  /** The browser alternates the two pointer events: a leave follows an enter. */
  predicate PairedRun(s: Auto, evs: seq<Event>, g: Geometry)
    decreases |evs|
  {
    evs == [] ||
    ((evs[0].Leave? && s.listening ==> s.hovering) && PairedRun(Step(s, evs[0], g), evs[1..], g))
  }

  /** Mounting starts exactly one interval. */
  lemma MountStartsOne(pos: nat, firstTimer: nat)
    ensures var s := Mounted(pos, firstTimer);
      OneInterval(s) && WellFormed(s) && s.timers == {firstTimer} && !s.hovering
  {
  }

  /** While the pointer hovers, a firing changes nothing, because no interval runs. */
  lemma NoTickWhileHovering(s: Auto, t: nat, g: Geometry)
    requires OneInterval(s) && s.hovering
    ensures s.timers == {}
    ensures Step(s, Fire(t), g) == s
  {
  }

  /** With paired pointer events, the one-interval shape holds throughout. */
  lemma {:induction false} RunKeepsOneInterval(s: Auto, evs: seq<Event>, g: Geometry)
    requires OneInterval(s) && WellFormed(s) && PairedRun(s, evs, g)
    ensures OneInterval(Run(s, evs, g)) && WellFormed(Run(s, evs, g))
    decreases |evs|
  {
    if evs != [] {
      RunKeepsOneInterval(Step(s, evs[0], g), evs[1..], g);
    }
  }

  /**
   * Once the pointer hovers, no firing moves the carousel until the pointer
   * leaves: as long as neither a leave nor a scroll by the user occurs, the
   * offset stays put and no interval runs.
   */
  lemma {:induction false} HoverFreezes(s: Auto, evs: seq<Event>, g: Geometry)
    requires OneInterval(s) && s.hovering
    requires forall i :: 0 <= i < |evs| ==> !evs[i].Leave? && !evs[i].Drag?
    ensures Run(s, evs, g).pos == s.pos
    ensures Run(s, evs, g).timers == {} && Run(s, evs, g).hovering
    decreases |evs|
  {
    if evs != [] {
      var t := Step(s, evs[0], g);
      assert t.pos == s.pos && t.hovering && OneInterval(t);
      forall i | 0 <= i < |evs[1..]|
        ensures !evs[1..][i].Leave? && !evs[1..][i].Drag?
      {
        assert evs[1..][i] == evs[i + 1];
      }
      HoverFreezes(t, evs[1..], g);
    }
  }

  /** The cleanup stops every interval of the one-interval shape and detaches the listeners. */
  lemma UnmountStopsAll(s: Auto, g: Geometry)
    requires OneInterval(s)
    ensures var t := Step(s, Unmount, g); t.timers == {} && !t.listening && OneInterval(t)
  {
  }

  /** After the cleanup nothing but a scroll by the user changes anything. */
  lemma {:induction false} SilentAfterUnmount(s: Auto, evs: seq<Event>, g: Geometry)
    requires OneInterval(s) && !s.listening
    requires forall i :: 0 <= i < |evs| ==> !evs[i].Drag?
    ensures Run(s, evs, g) == s
    decreases |evs|
  {
    if evs != [] {
      assert Step(s, evs[0], g) == s;
      forall i | 0 <= i < |evs[1..]|
        ensures !evs[1..][i].Drag?
      {
        assert evs[1..][i] == evs[i + 1];
      }
      SilentAfterUnmount(s, evs[1..], g);
    }
  }

  /**
   * A leave that no enter preceded (the pointer was already over the
   * container when the listeners were attached) starts a second interval;
   * `scrollInterval` then names only the new one.  The next enter clears
   * only that one, so the older interval keeps moving the container while
   * the pointer hovers, and the cleanup leaves it running too.
   */
  lemma UnpairedLeaveLeaks(s: Auto, g: Geometry)
    requires OneInterval(s) && WellFormed(s) && s.listening && !s.hovering
    ensures var t := Step(s, Leave, g);
      && |t.timers| == 2
      && Step(t, Enter, g).hovering && Step(t, Enter, g).timers == s.timers != {}
      && Step(Step(t, Enter, g), Fire(s.handle.value), g).pos == NextPos(s.pos, g)
      && Step(t, Unmount, g).timers == s.timers
  {
    var t := Step(s, Leave, g);
    assert s.nextTimer !in s.timers;
    assert t.timers == {s.handle.value, s.nextTimer};
  }

  // ---------------------------------------------------------------------------
  // The container and the effect

  /** The scroll container element. */
  class ScrollBox {
    var scrollLeft: nat
    const clientWidth: nat
    const scrollWidth: nat

    function Geo(): Geometry {
      Geometry(clientWidth, scrollWidth)
    }

    ghost predicate Valid()
      reads this
    {
      scrollLeft <= MaxScroll(Geo())
    }

    constructor (clientWidth: nat, scrollWidth: nat)
      ensures Valid() && scrollLeft == 0 && Geo() == Geometry(clientWidth, scrollWidth)
    {
      this.clientWidth := clientWidth;
      this.scrollWidth := scrollWidth;
      scrollLeft := 0;
    }

    /** `scrollTo({left})`, also what a scroll by the user does. */
    method ScrollTo(left: int)
      modifies this
      ensures Valid() && scrollLeft == Clamp(left, Geo())
    {
      scrollLeft := Clamp(left, Geo());
    }

    /** `scrollBy({left: delta})`. */
    method ScrollBy(delta: int)
      modifies this
      ensures Valid() && scrollLeft == Clamp(old(scrollLeft) + delta, Geo())
    {
      scrollLeft := Clamp(scrollLeft + delta, Geo());
    }
  }

  /** The auto-scroll effect, from the effect body to its cleanup. */
  class AutoScroll {
    const container: ScrollBox?
    var isHovering: bool
    var scrollInterval: Option<nat>
    /** The intervals the page has running. */
    var timers: set<nat>
    /** The id the next `setInterval` returns. */
    var nextTimer: nat
    /** Whether the mouse listeners are attached. */
    var listening: bool

    function Geo(): Geometry {
      if container == null then Geometry(0, 0) else container.Geo()
    }

    function Snapshot(): Auto
      reads this, container
    {
      Auto(if container == null then 0 else container.scrollLeft,
           isHovering, scrollInterval, timers, nextTimer, listening)
    }

    ghost predicate Valid()
      reads this, container
    {
      && WellFormed(Snapshot())
      && (container == null ==> !listening && timers == {})
      && (container != null ==> container.Valid())
    }

    /** The effect body: attach the listeners and start the interval, if there is a container. */
    constructor Mount(container: ScrollBox?, firstTimer: nat)
      requires container != null ==> container.Valid()
      ensures Valid() && this.container == container
      ensures container != null ==> Snapshot() == Mounted(container.scrollLeft, firstTimer)
      ensures container == null ==> !listening && timers == {} && !isHovering
    {
      this.container := container;
      isHovering := false;
      scrollInterval := None;
      timers := {};
      nextTimer := firstTimer;
      listening := false;
      new;
      if container != null {
        listening := true;
        StartAutoScroll();
      }
    }

    /** `startAutoScroll`. */
    method StartAutoScroll()
      requires Valid()
      modifies this
      ensures Valid()
      ensures Snapshot() == if container == null then old(Snapshot()) else Start(old(Snapshot()))
    {
      if container != null && !isHovering {
        var id := nextTimer;
        nextTimer := nextTimer + 1;
        timers := timers + {id};
        scrollInterval := Some(id);
      }
    }

    /** `clearInterval(h)`. */
    method ClearInterval(h: Option<nat>)
      requires Valid()
      modifies this
      ensures Valid()
      ensures Snapshot() == old(Snapshot()).(timers := old(timers) - HandleSet(h))
    {
      timers := timers - HandleSet(h);
    }

    /** The callback of interval `t`; an interval that was cleared never fires. */
    method IntervalFires(t: nat)
      requires Valid()
      modifies container
      ensures Valid()
      ensures Snapshot() == Step(old(Snapshot()), Fire(t), Geo())
      ensures t in timers ==> Snapshot().pos == NextPos(old(Snapshot()).pos, Geo())
    {
      if t in timers && container != null {
        if container.scrollLeft + container.clientWidth >= container.scrollWidth - EndSlack {
          container.ScrollTo(0);
        } else {
          container.ScrollBy(container.clientWidth / 2);
        }
      }
    }

    /** `handleMouseEnter`. */
    method HandleMouseEnter()
      requires Valid() && listening
      modifies this
      ensures Valid()
      ensures isHovering && timers == old(timers) - HandleSet(old(scrollInterval))
      ensures Snapshot() == Step(old(Snapshot()), Enter, Geo())
    {
      isHovering := true;
      ClearInterval(scrollInterval);
    }

    /** `handleMouseLeave`. */
    method HandleMouseLeave()
      requires Valid() && listening
      modifies this
      ensures Valid()
      ensures !isHovering && scrollInterval == Some(old(nextTimer))
      ensures timers == old(timers) + {old(nextTimer)}
      ensures Snapshot() == Step(old(Snapshot()), Leave, Geo())
    {
      isHovering := false;
      StartAutoScroll();
    }

    /** The effect's cleanup: detach the listeners and clear `scrollInterval`. */
    method Cleanup()
      requires Valid()
      modifies this
      ensures Valid() && !listening
      ensures timers == old(timers) - HandleSet(old(scrollInterval))
      ensures Snapshot() == Step(old(Snapshot()), Unmount, Geo())
    {
      if container != null {
        listening := false;
        ClearInterval(scrollInterval);
      }
    }
  }
}
