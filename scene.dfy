/** The whole simulator: the pendulums derived from the configuration, the
    per-frame update of every pendulum from the shared simulated time, and the
    main loop that runs frames while the window is open. Window input and the
    frame clock are modelled as a sequence of frame inputs; drawing is not
    modelled. */
module Scene {
  import opened ColorRamp
  import opened Parameters
  import opened Oscillator
  import opened Control

  /** The common pivot: centred horizontally, 50 pixels below the top. */
  function PivotPoint(c: Config): Point {
    Point(c.screenWidth / 2.0, 50.0)
  }

  /** The motion the set-up loop gives pendulum `i`. */
  function MotionFor(c: Config, i: nat): Motion
    requires Valid(c)
  {
    Motion(AngularFrequency(c, i), VisualLength(c, i), AmplitudeRad(c), PivotPoint(c))
  }

  /** The bob colour the set-up loop gives pendulum `i`. */
  function BobColorFor(c: Config, i: nat): Color
    requires Valid(c) && i < c.count
  {
    ColorFromRatio(ColorRatio(c, i))
  }

  /** No pendulum object appears twice. */
  predicate Distinct(ps: seq<Pendulum>) {
    forall a, b :: 0 <= a < b < |ps| ==> ps[a] != ps[b]
  }

  ghost predicate AllValid(ps: seq<Pendulum>)
    reads ps
  {
    forall i :: 0 <= i < |ps| ==> ps[i].Valid()
  }

  /** Pendulum `p` holds the configuration of index `i`: its motion, its bob's
      style and its string's anchor and colour. */
  ghost predicate Configured(p: Pendulum, c: Config, i: nat)
    reads p
  {
    Valid(c) && i < c.count && p.Valid()
    && p.GetMotion() == MotionFor(c, i)
    && p.Style() == Circle(Origin, BobRadius, Point(BobRadius, BobRadius),
                           BobColorFor(c, i), OutlineThickness, Halved(BobColorFor(c, i)))
    && p.stringVertices[0] == Vertex(PivotPoint(c), StringColor)
    && p.stringVertices[1].color == StringColor
  }

  /** Pendulum `p` is drawn where its motion puts it at simulated time `t`:
      the bob and the string's far end at the same point. */
  ghost predicate ShowsTime(p: Pendulum, t: real, cos: real -> real, sin: real -> real)
    reads p
  {
    p.Valid()
    && p.bob.position == BobPosition(p.GetMotion(), t, cos, sin)
    && p.stringVertices[1].position == p.bob.position
  }

  /** A vector of `n` default-constructed pendulums. */
  method CreatePendulums(n: nat) returns (ps: seq<Pendulum>)
    ensures |ps| == n && Distinct(ps)
    ensures forall i :: 0 <= i < n ==> fresh(ps[i])
    ensures forall i :: 0 <= i < n ==>
      ps[i].Valid() && ps[i].GetMotion() == Motion(0.0, 0.0, 0.0, Origin)
      && ps[i].stringVertices == [Vertex(Origin, White), Vertex(Origin, White)]
      && ps[i].bob == Circle(Origin, 0.0, Origin, White, 0.0, White)
  {
    ps := [];
    while |ps| < n
      invariant |ps| <= n && Distinct(ps)
      invariant forall i :: 0 <= i < |ps| ==> fresh(ps[i])
      invariant forall i :: 0 <= i < |ps| ==>
        ps[i].Valid() && ps[i].GetMotion() == Motion(0.0, 0.0, 0.0, Origin)
        && ps[i].stringVertices == [Vertex(Origin, White), Vertex(Origin, White)]
        && ps[i].bob == Circle(Origin, 0.0, Origin, White, 0.0, White)
    {
      var p := new Pendulum();
      ps := ps + [p];
    }
  }

  /** The set-up loop: pendulum `i` gets the period T / (base + i), the matching
      frequency and scaled length, the common amplitude and pivot, and the
      ramp colour at i / (N - 1). Bob positions are not touched. */
  method SetupPendulums(c: Config, ps: seq<Pendulum>)
    requires Valid(c) && |ps| == c.count && Distinct(ps) && AllValid(ps)
    modifies ps
    ensures forall i :: 0 <= i < |ps| ==> Configured(ps[i], c, i)
    ensures forall i :: 0 <= i < |ps| ==>
      ps[i].Valid() && ps[i].bob.position == old(ps[i].bob.position)
      && ps[i].stringVertices[1].position == old(ps[i].stringVertices[1].position)
  {
    var amplitude := AmplitudeRad(c);
    var pixelsPerMeter := PixelsPerMeter(c);
    var pivot := PivotPoint(c);
    for i := 0 to |ps|
      invariant forall k :: 0 <= k < i ==> Configured(ps[k], c, k)
      invariant forall k :: i <= k < |ps| ==> ps[k].Valid()
      invariant forall k :: 0 <= k < |ps| ==>
        ps[k].bob.position == old(ps[k].bob.position)
        && ps[k].stringVertices[1].position == old(ps[k].stringVertices[1].position)
    {
      var angularFreq := AngularFrequency(c, i);
      var visualLength := PhysicsLength(c, i) * pixelsPerMeter;
      var colorRatio := ColorRatio(c, i);
      assert visualLength == VisualLength(c, i);
      ghost var unset := ps[i];
      ps[i].Setup(angularFreq, visualLength, amplitude, pivot, ColorFromRatio(colorRatio));
      assert Configured(ps[i], c, i);
      assert forall k :: 0 <= k < |ps| && k != i ==> ps[k] != unset;
    }
  }

  /** Every pendulum is moved to simulated time `t`; nothing else about it
      changes. */
  method UpdateAll(ps: seq<Pendulum>, t: real, cos: real -> real, sin: real -> real)
    requires Distinct(ps) && AllValid(ps)
    modifies ps
    ensures forall i :: 0 <= i < |ps| ==> ShowsTime(ps[i], t, cos, sin)
    ensures forall i :: 0 <= i < |ps| ==>
      ps[i].Valid() && ps[i].GetMotion() == old(ps[i].GetMotion())
      && ps[i].Style() == old(ps[i].Style())
      && ps[i].stringVertices[0] == old(ps[i].stringVertices[0])
      && ps[i].stringVertices[1].color == old(ps[i].stringVertices[1].color)
  {
    for i := 0 to |ps|
      invariant forall k :: 0 <= k < i ==> ShowsTime(ps[k], t, cos, sin)
      invariant forall k :: i <= k < |ps| ==> ps[k].Valid()
      invariant forall k :: 0 <= k < |ps| ==>
        ps[k].GetMotion() == old(ps[k].GetMotion())
        && ps[k].Style() == old(ps[k].Style())
        && ps[k].stringVertices[0] == old(ps[k].stringVertices[0])
        && ps[k].stringVertices[1].color == old(ps[k].stringVertices[1].color)
    {
      ps[i].Update(t, cos, sin);
    }
  }

  /** What the window delivers for one frame: the pending events and the real
      time elapsed since the previous frame. */
  datatype FrameInput = FrameInput(events: seq<Event>, dt: real)

  /** The control state after the given frames. */
  function RunFrames(s: ControlState, frames: seq<FrameInput>): ControlState
    decreases |frames|
  {
    if frames == [] then s
    else
      var last := frames[|frames| - 1];
      Frame(RunFrames(s, frames[..|frames| - 1]), last.events, last.dt)
  }

  /** Net speed steps handled over the given frames. */
  function RunSteps(s: ControlState, frames: seq<FrameInput>): int
    decreases |frames|
  {
    if frames == [] then 0
    else
      var init := frames[..|frames| - 1];
      RunSteps(s, init) + PolledSteps(RunFrames(s, init), frames[|frames| - 1].events)
  }

  /** Over any number of frames the scale has been stepped by the net count of
      speed keys handled; the clock advance never changes it. */
  lemma {:induction false} RunScalesTime(s: ControlState, frames: seq<FrameInput>)
    ensures RunFrames(s, frames).timeScale == Stepped(s.timeScale, RunSteps(s, frames))
    decreases |frames|
  {
    if frames != [] {
      var init, last := frames[..|frames| - 1], frames[|frames| - 1];
      var before := RunFrames(s, init);
      RunScalesTime(s, init);
      PolledScale(before, last.events);
      SteppedAdd(s.timeScale, RunSteps(s, init), PolledSteps(before, last.events));
    }
  }

  /** From the initial controls the scale is always a whole power of 1.2, and
      so positive, however many frames have run. */
  lemma {:induction false} ScaleAlwaysPowerOfStep(frames: seq<FrameInput>)
    ensures RunFrames(Initial, frames).timeScale == Stepped(1.0, RunSteps(Initial, frames))
    ensures RunFrames(Initial, frames).timeScale > 0.0
  {
    RunScalesTime(Initial, frames);
    SteppedPositive(1.0, RunSteps(Initial, frames));
  }

  /** One pass of the main loop: poll events, advance the clock, move every
      pendulum to the new simulated time. */
  method RunFrame(ctl: Controls, ps: seq<Pendulum>, input: FrameInput,
                  cos: real -> real, sin: real -> real)
    requires Distinct(ps) && AllValid(ps)
    modifies ctl, ps
    ensures ctl.State() == Frame(old(ctl.State()), input.events, input.dt)
    ensures forall i :: 0 <= i < |ps| ==> ShowsTime(ps[i], ctl.totalSimTime, cos, sin)
    ensures forall i :: 0 <= i < |ps| ==>
      ps[i].Valid() && ps[i].GetMotion() == old(ps[i].GetMotion())
      && ps[i].Style() == old(ps[i].Style())
      && ps[i].stringVertices[0] == old(ps[i].stringVertices[0])
      && ps[i].stringVertices[1].color == old(ps[i].stringVertices[1].color)
  {
    ctl.PollEvents(input.events);
    ctl.AdvanceClock(input.dt);
    UpdateAll(ps, ctl.totalSimTime, cos, sin);
  }

  /** The program: set up the pendulums, then run frames while the window is
      open and input lasts. `ran` frames are run; a frame is only started with
      the window open, so the loop ends early exactly when a frame closed it. */
  method Run(c: Config, frames: seq<FrameInput>, cos: real -> real, sin: real -> real)
      returns (ctl: Controls, ps: seq<Pendulum>, ran: nat)
    requires Valid(c)
    ensures ran <= |frames|
    ensures ctl.State() == RunFrames(Initial, frames[..ran])
    ensures forall j :: 0 <= j < ran ==> RunFrames(Initial, frames[..j]).isOpen
    ensures ran < |frames| ==> !ctl.isOpen
    ensures (forall j :: 0 <= j < |frames| ==> frames[j].dt >= 0.0) ==> Healthy(ctl.State())
    ensures |ps| == c.count
    ensures forall i :: 0 <= i < |ps| ==> Configured(ps[i], c, i)
    ensures ran > 0 ==> forall i :: 0 <= i < |ps| ==> ShowsTime(ps[i], ctl.totalSimTime, cos, sin)
  {
    ps := CreatePendulums(c.count);
    SetupPendulums(c, ps);
    ctl := new Controls();
    InitialHealthy();
    ran := 0;
    while ctl.isOpen && ran < |frames|
      invariant ran <= |frames|
      invariant ctl.State() == RunFrames(Initial, frames[..ran])
      invariant forall j :: 0 <= j < ran ==> RunFrames(Initial, frames[..j]).isOpen
      invariant (forall j :: 0 <= j < |frames| ==> frames[j].dt >= 0.0) ==> Healthy(ctl.State())
      invariant forall i :: 0 <= i < |ps| ==> Configured(ps[i], c, i)
      invariant ran > 0 ==> forall i :: 0 <= i < |ps| ==> ShowsTime(ps[i], ctl.totalSimTime, cos, sin)
      invariant fresh(ctl)
    {
      assert AllValid(ps);
      ghost var before := ctl.State();
      RunFrame(ctl, ps, frames[ran], cos, sin);
      if forall j :: 0 <= j < |frames| ==> frames[j].dt >= 0.0 {
        FrameKeepsHealthy(before, frames[ran].events, frames[ran].dt);
      }
      assert frames[..ran + 1][..ran] == frames[..ran];
      ran := ran + 1;
    }
  }

  // ---------------------------------------------------------------- the wave

  /** Shifting time by `d` adds `w * d` to the phase `w * t`. */
  lemma PhaseShift(w: real, t: real, d: real, n: real, k: real)
    requires w * d == n * k
    ensures w * (t + d) == w * t + n * k
  {
  }

  /** Scaling a span `d` by `j` scales the phase it adds by `j`. */
  lemma PhaseScale(w: real, d: real, n: real, k: real, j: real)
    requires w * d == n * k
    ensures w * (j * d) == (j * n) * k
  {
    assert w * (j * d) == j * (w * d);
    assert j * (n * k) == (j * n) * k;
  }

  /** At a cycle's start all angles agree, at amplitude * cos 0; with cos 0 = 1
      every pendulum is at its full amplitude. */
  lemma AlignedAtStart(c: Config, i: nat, j: nat, cos: real -> real)
    requires Valid(c)
    ensures CurrentAngle(MotionFor(c, i), 0.0, cos) == CurrentAngle(MotionFor(c, j), 0.0, cos)
    ensures CurrentAngle(MotionFor(c, i), 0.0, cos) == AmplitudeRad(c) * cos(0.0)
    ensures cos(0.0) == 1.0 ==> CurrentAngle(MotionFor(c, i), 0.0, cos) == AmplitudeRad(c)
  {
    assert Phase(MotionFor(c, i), 0.0) == 0.0;
    assert Phase(MotionFor(c, j), 0.0) == 0.0;
  }

  /** Re-convergence: with a cosine of period 2 pi, every pendulum is back
      where it was after one whole wave cycle T, since over T pendulum `i`
      turns through exactly base + i full turns. */
  lemma {:induction false} WaveRepeats(c: Config, i: nat, t: real, cos: real -> real, sin: real -> real)
    requires Valid(c) && Periodic(cos, 2.0 * c.pi)
    ensures BobPosition(MotionFor(c, i), t + c.totalPeriod, cos, sin)
         == BobPosition(MotionFor(c, i), t, cos, sin)
  {
    var m := MotionFor(c, i);
    PhaseOverCycle(c, i);
    PhaseShift(m.angularFrequency, t, c.totalPeriod, (c.baseOscillations + i) as real, 2.0 * c.pi);
    AngleAfterTurns(m, t, c.totalPeriod, cos, 2.0 * c.pi, c.baseOscillations + i);
  }

  /** Each pendulum on its own repeats after its own period. */
  lemma {:induction false} PendulumRepeats(c: Config, i: nat, t: real, cos: real -> real, sin: real -> real)
    requires Valid(c) && Periodic(cos, 2.0 * c.pi)
    ensures BobPosition(MotionFor(c, i), t + Period(c, i), cos, sin)
         == BobPosition(MotionFor(c, i), t, cos, sin)
  {
    var m := MotionFor(c, i);
    PeriodPositive(c, i);
    PhaseOverPeriod(c, i);
    assert 2.0 * c.pi / m.angularFrequency == Period(c, i);
    PositionPeriodic(m, t, cos, sin, 2.0 * c.pi);
  }

  /** After every whole number of cycles all pendulums line up again at the
      common starting angle, the full amplitude when cos 0 = 1. */
  lemma {:induction false} AlignedAfterCycles(c: Config, i: nat, k: nat, cos: real -> real)
    requires Valid(c) && Periodic(cos, 2.0 * c.pi)
    ensures CurrentAngle(MotionFor(c, i), k as real * c.totalPeriod, cos) == AmplitudeRad(c) * cos(0.0)
    ensures cos(0.0) == 1.0 ==> CurrentAngle(MotionFor(c, i), k as real * c.totalPeriod, cos) == AmplitudeRad(c)
  {
    var m := MotionFor(c, i);
    var t := k as real * c.totalPeriod;
    var turns: nat := k * (c.baseOscillations + i);
    var n := (c.baseOscillations + i) as real;
    PhaseOverCycle(c, i);
    PhaseScale(m.angularFrequency, c.totalPeriod, n, 2.0 * c.pi, k as real);
    assert turns as real == k as real * n;
    assert Phase(m, 0.0 + t) == Phase(m, 0.0) + turns as real * (2.0 * c.pi);
    AngleAfterTurns(m, 0.0, t, cos, 2.0 * c.pi, turns);
    assert CurrentAngle(m, 0.0, cos) == m.amplitudeRad * cos(0.0);
  }
}
