/** The simulation controls of the frame loop: accumulated simulated time, the
    time-scale factor, the pause flag and whether the window is open, driven
    by input events and by the per-frame advance of the clock. */
module Control {

  /** The keys the loop reacts to; every other key is `OtherKey`. */
  datatype Key = Space | R | Up | Right | Down | Left | Escape | OtherKey

  /** The events the loop distinguishes; any other kind is `OtherEvent`. */
  datatype Event = Closed | KeyPressed(key: Key) | Resized(width: nat, height: nat) | OtherEvent

  datatype ControlState = ControlState(totalSimTime: real, timeScale: real, isPaused: bool, isOpen: bool)

  /** Time zero, normal speed, running, window open. */
  const Initial := ControlState(0.0, 1.0, false, true)

  /** One key press; the speed keys step the time scale by a factor 1.2. */
  function OnKey(s: ControlState, k: Key): ControlState {
    match k
    case Space => s.(isPaused := !s.isPaused)
    case R => s.(totalSimTime := 0.0)
    case Up | Right => s.(timeScale := s.timeScale * 1.2)
    case Down | Left => s.(timeScale := s.timeScale / 1.2)
    case Escape => s.(isOpen := false)
    case OtherKey => s
  }

  /** Resizing changes only the view, which is not part of this state. */
  function OnEvent(s: ControlState, e: Event): ControlState {
    match e
    case Closed => s.(isOpen := false)
    case KeyPressed(k) => OnKey(s, k)
    case Resized(_, _) => s
    case OtherEvent => s
  }

  /** Every one of `events` handled in arrival order, as if the window stayed
      open throughout. */
  function Dispatch(s: ControlState, events: seq<Event>): ControlState
    decreases |events|
  {
    if events == [] then s
    else OnEvent(Dispatch(s, events[..|events| - 1]), events[|events| - 1])
  }

  /** The events of one frame as the loop polls them: in arrival order, and
      none once the window is closed, because a closed window delivers no
      further events. */
  function OnEvents(s: ControlState, events: seq<Event>): ControlState
    decreases |events|
  {
    if events == [] then s
    else
      var before := OnEvents(s, events[..|events| - 1]);
      if before.isOpen then OnEvent(before, events[|events| - 1]) else before
  }

  /** The clock advance of one frame of `dt` real seconds. */
  function Advance(s: ControlState, dt: real): ControlState {
    if s.isPaused then s else s.(totalSimTime := s.totalSimTime + dt * s.timeScale)
  }

  /** One frame: all pending events, then the clock advance. */
  function Frame(s: ControlState, events: seq<Event>, dt: real): ControlState {
    Advance(OnEvents(s, events), dt)
  }

  // ---------------------------------------------------------------- single events

  /** Space flips the pause flag and nothing else; two presses cancel. */
  lemma SpaceToggles(s: ControlState)
    ensures OnKey(s, Space).isPaused == !s.isPaused
    ensures OnKey(s, Space).(isPaused := s.isPaused) == s
    ensures OnKey(OnKey(s, Space), Space) == s
  {
  }

  /** R rewinds simulated time to zero and keeps speed, pause and window. */
  lemma ResetRewinds(s: ControlState)
    ensures OnKey(s, R) == ControlState(0.0, s.timeScale, s.isPaused, s.isOpen)
  {
  }

  /** Up and Right multiply the time scale by the step, Down and Left divide
      it, nothing else changes, and a step up and a step down cancel in
      either order (in exact arithmetic). */
  lemma SpeedKeysInverse(s: ControlState, up: Key, down: Key)
    requires up == Up || up == Right
    requires down == Down || down == Left
    ensures OnKey(s, up) == s.(timeScale := s.timeScale * 1.2)
    ensures OnKey(s, down) == s.(timeScale := s.timeScale / 1.2)
    ensures OnKey(OnKey(s, up), down) == s
    ensures OnKey(OnKey(s, down), up) == s
  {
  }

  /** Escape and the Closed event close the window and change nothing else;
      every other key and event leaves the state exactly as it was. */
  lemma QuitAndIgnoredInputs(s: ControlState, w: nat, h: nat)
    ensures OnKey(s, Escape) == OnEvent(s, Closed) == s.(isOpen := false)
    ensures OnKey(s, OtherKey) == s
    ensures OnEvent(s, Resized(w, h)) == s
    ensures OnEvent(s, OtherEvent) == s
  {
  }

  /** A closed window handles no events at all. */
  lemma {:induction false} ClosedIgnoresEvents(s: ControlState, events: seq<Event>)
    requires !s.isOpen
    ensures OnEvents(s, events) == s
    decreases |events|
  {
    if events != [] {
      ClosedIgnoresEvents(s, events[..|events| - 1]);
    }
  }

  /** Once the first `i` events have closed the window, the rest are dropped. */
  lemma {:induction false} ClosedIgnoresRest(s: ControlState, events: seq<Event>, i: nat)
    requires i <= |events| && !OnEvents(s, events[..i]).isOpen
    ensures OnEvents(s, events) == OnEvents(s, events[..i])
    decreases |events|
  {
    if |events| == i {
      assert events[..i] == events;
    } else {
      var init := events[..|events| - 1];
      assert init[..i] == events[..i];
      ClosedIgnoresRest(s, init, i);
    }
  }

  // ---------------------------------------------------------------- the clock

  /** While paused, an advance leaves the state untouched for any dt and any
      time scale; while running it adds dt * timeScale to the time only. */
  lemma AdvanceCases(s: ControlState, dt: real)
    ensures s.isPaused ==> Advance(s, dt) == s
    ensures !s.isPaused ==>
      Advance(s, dt) == ControlState(s.totalSimTime + dt * s.timeScale, s.timeScale, s.isPaused, s.isOpen)
  {
  }

  /** R followed by a running advance leaves exactly dt * timeScale. */
  lemma ResetThenAdvance(s: ControlState, dt: real)
    requires !s.isPaused
    ensures Advance(OnKey(s, R), dt).totalSimTime == dt * s.timeScale
  {
  }

  /** The clock advanced over several frames of the given lengths. */
  function AdvanceAll(s: ControlState, dts: seq<real>): ControlState
    decreases |dts|
  {
    if dts == [] then s else Advance(AdvanceAll(s, dts[..|dts| - 1]), dts[|dts| - 1])
  }

  function Sum(xs: seq<real>): real
    decreases |xs|
  {
    if xs == [] then 0.0 else Sum(xs[..|xs| - 1]) + xs[|xs| - 1]
  }

  /** Any number of frames while paused never moves simulated time; while
      running, it moves by the total real time times the (unchanged) scale. */
  lemma {:induction false} AdvanceAllCases(s: ControlState, dts: seq<real>)
    ensures s.isPaused ==> AdvanceAll(s, dts) == s
    ensures !s.isPaused ==>
      AdvanceAll(s, dts) == s.(totalSimTime := s.totalSimTime + Sum(dts) * s.timeScale)
    decreases |dts|
  {
    if dts != [] {
      var init, last := dts[..|dts| - 1], dts[|dts| - 1];
      AdvanceAllCases(s, init);
      assert (Sum(init) + last) * s.timeScale == Sum(init) * s.timeScale + last * s.timeScale;
    }
  }

  // ---------------------------------------------------------------- invariant

  /** The time scale is positive and simulated time has not run backwards
      past zero. */
  predicate Healthy(s: ControlState) {
    s.timeScale > 0.0 && s.totalSimTime >= 0.0
  }

  lemma {:induction false} EventsKeepHealthy(s: ControlState, events: seq<Event>)
    requires Healthy(s)
    ensures Healthy(OnEvents(s, events))
    decreases |events|
  {
    if events != [] {
      EventsKeepHealthy(s, events[..|events| - 1]);
    }
  }

  /** A frame whose real time is not negative keeps the time scale positive
      and simulated time non-negative. */
  lemma {:induction false} FrameKeepsHealthy(s: ControlState, events: seq<Event>, dt: real)
    requires Healthy(s) && dt >= 0.0
    ensures Healthy(Frame(s, events, dt))
  {
    EventsKeepHealthy(s, events);
    var t := OnEvents(s, events);
    assert dt * t.timeScale >= 0.0;
  }

  lemma InitialHealthy()
    ensures Healthy(Initial)
  {
  }

  // ---------------------------------------------------------------- a frame's events in summary

  predicate IsSpeedUp(e: Event) { e == KeyPressed(Up) || e == KeyPressed(Right) }
  predicate IsSlowDown(e: Event) { e == KeyPressed(Down) || e == KeyPressed(Left) }
  predicate IsToggle(e: Event) { e == KeyPressed(Space) }
  predicate IsReset(e: Event) { e == KeyPressed(R) }
  predicate IsQuit(e: Event) { e == Closed || e == KeyPressed(Escape) }

  /** +1 for a speed-up key, -1 for a slow-down key, else 0. */
  function SpeedDelta(e: Event): int {
    if IsSpeedUp(e) then 1 else if IsSlowDown(e) then -1 else 0
  }

  /** Speed-ups minus slow-downs. */
  function NetSpeedSteps(events: seq<Event>): int
    decreases |events|
  {
    if events == [] then 0
    else NetSpeedSteps(events[..|events| - 1]) + SpeedDelta(events[|events| - 1])
  }

  function Toggles(events: seq<Event>): nat
    decreases |events|
  {
    if events == [] then 0
    else Toggles(events[..|events| - 1]) + (if IsToggle(events[|events| - 1]) then 1 else 0)
  }

  /** A time scale `x` after `k` net steps up (or -k down) by the factor 1.2. */
  function Stepped(x: real, k: int): real
    decreases if k >= 0 then k else -k
  {
    if k == 0 then x
    else if k > 0 then Stepped(x, k - 1) * 1.2
    else Stepped(x, k + 1) / 1.2
  }

  /** One more step up multiplies by 1.2, one more step down divides by 1.2,
      whichever side of zero the count is on. */
  lemma SteppedNext(x: real, k: int)
    ensures Stepped(x, k + 1) == Stepped(x, k) * 1.2
    ensures Stepped(x, k - 1) == Stepped(x, k) / 1.2
  {
  }

  /** What events do to the time scale, whatever their order: it has been
      stepped by the net count of speed keys. */
  lemma {:induction false} EventsScaleTime(s: ControlState, events: seq<Event>)
    ensures Dispatch(s, events).timeScale == Stepped(s.timeScale, NetSpeedSteps(events))
    decreases |events|
  {
    if events != [] {
      var init := events[..|events| - 1];
      EventsScaleTime(s, init);
      SteppedNext(s.timeScale, NetSpeedSteps(init));
    }
  }

  /** The pause flag has been flipped once per Space. */
  lemma {:induction false} EventsTogglePause(s: ControlState, events: seq<Event>)
    ensures Dispatch(s, events).isPaused == (s.isPaused != (Toggles(events) % 2 == 1))
    decreases |events|
  {
    if events != [] {
      EventsTogglePause(s, events[..|events| - 1]);
    }
  }

  /** Simulated time is zero if an R was among the events, else untouched. */
  lemma {:induction false} EventsResetTime(s: ControlState, events: seq<Event>)
    ensures Dispatch(s, events).totalSimTime
         == if exists e :: e in events && IsReset(e) then 0.0 else s.totalSimTime
    decreases |events|
  {
    if events != [] {
      var init, e := events[..|events| - 1], events[|events| - 1];
      assert events == init + [e];
      EventsResetTime(s, init);
      assert (exists x :: x in events && IsReset(x))
         == ((exists x :: x in init && IsReset(x)) || IsReset(e));
    }
  }

  /** No Escape and no Closed among the events. */
  predicate NoQuit(events: seq<Event>) {
    forall e :: e in events ==> !IsQuit(e)
  }

  /** After polling, the window is open exactly when it was and no quit event
      was among the events. */
  lemma {:induction false} EventsCloseWindow(s: ControlState, events: seq<Event>)
    ensures OnEvents(s, events).isOpen == (s.isOpen && NoQuit(events))
    decreases |events|
  {
    if events != [] {
      var init, e := events[..|events| - 1], events[|events| - 1];
      assert events == init + [e];
      EventsCloseWindow(s, init);
      assert NoQuit(events) == (NoQuit(init) && !IsQuit(e));
    }
  }

  /** The events a frame that starts with the window open actually handles:
      all of them up to and including the first quit. */
  function Delivered(events: seq<Event>): seq<Event>
    decreases |events|
  {
    if events == [] then []
    else
      var d := Delivered(events[..|events| - 1]);
      if NoQuit(d) then d + [events[|events| - 1]] else d
  }

  /** `Delivered` is the prefix of the events that ends at the first quit event,
      or all of them when there is none. */
  lemma {:induction false} DeliveredUpToFirstQuit(events: seq<Event>)
    ensures var d := Delivered(events);
      && d <= events
      && (forall k :: 0 <= k < |d| - 1 ==> !IsQuit(d[k]))
      && (|d| < |events| ==> 0 < |d| && IsQuit(d[|d| - 1]))
      && (NoQuit(d) <==> NoQuit(events))
      && (NoQuit(events) ==> d == events)
    decreases |events|
  {
    if events != [] {
      var init, last := events[..|events| - 1], events[|events| - 1];
      var d0 := Delivered(init);
      DeliveredUpToFirstQuit(init);
      assert events == init + [last];
      if NoQuit(d0) {
        assert NoQuit(init);
        assert d0 == init;
      } else {
        var j :| 0 <= j < |d0| && IsQuit(d0[j]);
        assert j == |d0| - 1;
        assert d0[j] == events[j];
        assert !NoQuit(events);
      }
    }
  }

  /** Polling handles exactly the delivered events, each as `OnEvent` says. */
  lemma {:induction false} PollingStopsAtClose(s: ControlState, events: seq<Event>)
    requires s.isOpen
    ensures OnEvents(s, events) == Dispatch(s, Delivered(events))
    decreases |events|
  {
    if events != [] {
      var init, last := events[..|events| - 1], events[|events| - 1];
      var d := Delivered(init);
      PollingStopsAtClose(s, init);
      EventsCloseWindow(s, init);
      DeliveredUpToFirstQuit(init);
      if NoQuit(d) {
        assert d == init;
        assert d + [last] == events;
      }
    }
  }

  /** What one frame's polling does, from an open window: speed stepped by the
      net count of speed keys, pause flipped once per Space and time rewound
      if an R came, counting only the events up to the first quit. */
  lemma {:induction false} PolledEventsSummary(s: ControlState, events: seq<Event>)
    requires s.isOpen
    ensures var t, d := OnEvents(s, events), Delivered(events);
      && t.timeScale == Stepped(s.timeScale, NetSpeedSteps(d))
      && t.isPaused == (s.isPaused != (Toggles(d) % 2 == 1))
      && t.totalSimTime == (if exists e :: e in d && IsReset(e) then 0.0 else s.totalSimTime)
      && t.isOpen == NoQuit(events)
  {
    var d := Delivered(events);
    PollingStopsAtClose(s, events);
    EventsScaleTime(s, d);
    EventsTogglePause(s, d);
    EventsResetTime(s, d);
    EventsCloseWindow(s, events);
  }

  /** After the first frame's events, polled from the initial controls, the
      time scale is a whole power of the step, and so positive. The claim over
      a whole run is `Scene.ScaleAlwaysPowerOfStep`. */
  lemma {:induction false} InitialScaleIsPowerOfStep(events: seq<Event>)
    ensures OnEvents(Initial, events).timeScale == Stepped(1.0, NetSpeedSteps(Delivered(events)))
    ensures OnEvents(Initial, events).timeScale > 0.0
  {
    PolledEventsSummary(Initial, events);
    EventsKeepHealthy(Initial, events);
  }

  /** Net speed steps one polling pass handles from state `s`: none when the
      window is already closed. */
  function PolledSteps(s: ControlState, events: seq<Event>): int {
    if s.isOpen then NetSpeedSteps(Delivered(events)) else 0
  }

  /** One polling pass, from any state, steps the scale by its handled speed keys. */
  lemma PolledScale(s: ControlState, events: seq<Event>)
    ensures OnEvents(s, events).timeScale == Stepped(s.timeScale, PolledSteps(s, events))
  {
    if s.isOpen {
      PolledEventsSummary(s, events);
    } else {
      ClosedIgnoresEvents(s, events);
    }
  }

  /** Stepping by `a` and then by `b` is stepping by `a + b`. */
  lemma {:induction false} SteppedAdd(x: real, a: int, b: int)
    ensures Stepped(Stepped(x, a), b) == Stepped(x, a + b)
    decreases if b >= 0 then b else -b
  {
    if b > 0 {
      SteppedAdd(x, a, b - 1);
      SteppedNext(x, a + b - 1);
    } else if b < 0 {
      SteppedAdd(x, a, b + 1);
      SteppedNext(x, a + b + 1);
    }
  }

  /** Stepping keeps a positive scale positive. */
  lemma {:induction false} SteppedPositive(x: real, k: int)
    requires x > 0.0
    ensures Stepped(x, k) > 0.0
    decreases if k >= 0 then k else -k
  {
    if k > 0 {
      SteppedPositive(x, k - 1);
    } else if k < 0 {
      SteppedPositive(x, k + 1);
    }
  }

  /** The controls as the frame loop holds them in its local variables. */
  class Controls {
    var totalSimTime: real
    var timeScale: real
    var isPaused: bool
    var isOpen: bool

    function State(): ControlState
      reads this
    {
      ControlState(totalSimTime, timeScale, isPaused, isOpen)
    }

    constructor ()
      ensures State() == Initial
    {
      totalSimTime, timeScale, isPaused, isOpen := 0.0, 1.0, false, true;
    }

    /** Dispatches one polled event. */
    method HandleEvent(e: Event)
      modifies this
      ensures State() == OnEvent(old(State()), e)
    {
      match e
      case Closed =>
        isOpen := false;
      case KeyPressed(k) =>
        match k {
          case Space => isPaused := !isPaused;
          case R => totalSimTime := 0.0;
          case Up | Right => timeScale := timeScale * 1.2;
          case Down | Left => timeScale := timeScale / 1.2;
          case Escape => isOpen := false;
          case OtherKey =>
        }
      case Resized(_, _) =>
      case OtherEvent =>
    }

    /** Drains the frame's pending events in order, until the window is
        closed: a closed window delivers no further events. */
    method PollEvents(events: seq<Event>)
      modifies this
      ensures State() == OnEvents(old(State()), events)
    {
      var i := 0;
      while i < |events| && isOpen
        invariant 0 <= i <= |events|
        invariant State() == OnEvents(old(State()), events[..i])
      {
        assert events[..i + 1][..i] == events[..i];
        HandleEvent(events[i]);
        i := i + 1;
      }
      if i < |events| {
        ClosedIgnoresRest(old(State()), events, i);
      } else {
        assert events[..|events|] == events;
      }
    }

    /** Advances simulated time by `dt` real seconds unless paused. */
    method AdvanceClock(dt: real)
      modifies this
      ensures State() == Advance(old(State()), dt)
    {
      if !isPaused {
        totalSimTime := totalSimTime + dt * timeScale;
      }
    }
  }
}
