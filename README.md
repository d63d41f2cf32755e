# Pendulum wave simulator — a Dafny model

The simulator shows `N` pendulums hanging from one pivot. Over one wave cycle of `T`
seconds, pendulum `i` swings `base + i` times. Its period is `T / (base + i)`, its angular
frequency is `2π / period`, and its length is the small-angle length `g·(period / 2π)²`.
One pixels-per-metre factor scales those lengths so that the longest pendulum fills 80 %
of the screen height. Each bob takes its colour from a red → green → blue ramp at
`i / (N − 1)`.

Every frame:
- the pending events are handled: Space pauses, R rewinds, the arrow keys change speed,
  Escape or closing the window quits;
- unless paused, simulated time advances by the real frame time times a speed factor;
- every pendulum is moved to `amplitude · cos(ω · t)`.

Because each pendulum completes a whole number of swings per cycle, all of them line up
again after `T`.

The model has five modules:

- `ColorRamp` is the colour ramp and its truncation to bytes.
- `Parameters` is the start-up derivation of periods, frequencies and lengths, as pure
  functions of a configuration record `Config`. It also proves:
  - periods fall and frequencies rise with the index;
  - consecutive pendulums drift apart by exactly one phase turn per cycle;
  - `ω²·L = g`;
  - every length is positive and fits the screen fraction.
- `Oscillator` is the `Pendulum` object. It is a class whose `Setup` and `Update` change
  its fields, as the program's `setup` and `update` do.
- `Control` covers the frame loop's control variables and event dispatch:
  - a pure state machine (`OnKey`, `OnEvent`, `OnEvents`, `Advance`, `Frame`) with
    lemmas about it;
  - a class `Controls` whose methods are proved to follow that state machine.
- `Scene` covers the pendulum vector, the set-up loop, the per-frame update of every
  pendulum, the main loop, and the re-convergence theorems.

Modelling decisions:

- **Numbers.**
  - Floating-point values are exact reals.
  - `π` and `g` are positive fields of `Config`. The built-in constants are `Parameters.Source`.
- **Trigonometry.** `cos` and `sin` are function parameters.
  - Theorems that need a property of them take it as a hypothesis: a period of `2π`
    (`Oscillator.Periodic`), or `sin² + cos² = 1`.
- **Input.** The window's events and the frame clock are inputs: a sequence of
  `Scene.FrameInput(events, dt)`, one per frame.
  - `window.close()` releases the window, and a closed SFML window's `pollEvent`
    returns no event. Events queued behind an Escape or a Closed in the same frame are
    therefore never handled: `Control.OnEvents` drops them.
  - The rest of that frame still runs: the clock advance and the pendulum update.
    The loop then ends.
- **Colour and count edge cases.** The code truncates channels rather than rounding
  them, clamps nothing, and has no fallback for `N = 1`. The model follows it:
  - A bob's colour channels are **truncated** to bytes (`static_cast<std::uint8_t>`), not
    rounded.
  - Nothing is clamped. The ramp is only called with ratios in `[0, 1]`, and the model
    requires that.
  - `N = 1` is not given a fallback colour. The code divides by `N − 1` there, so
    `Parameters.Valid` requires `N > 1`. The program's own constant is 25.

## Model

| member | source | states |
|---|---|---|
| ColorRamp.ToByte | main.cpp:82-84 | the byte lies within one unit below `level · 255`: truncation, not rounding |
| ColorRamp.ColorFromRatio | main.cpp:76-85 | each byte of the colour is the truncation of its channel level (red, green or blue band) times 255 |
| ColorRamp.LevelsInRange | main.cpp:77-79 | on `[0, 1]` each channel level lies in `[0, 1]`, so the byte cast never overflows |
| ColorRamp.LevelsSumToOne | main.cpp:77-79 | the three levels add up to exactly 1 at every ratio |
| ColorRamp.RedAndBlueExclusive | main.cpp:77-79 | no blue up to the midpoint, no red from it on, so never both |
| ColorRamp.ChannelsMonotone | main.cpp:77-79 | red never rises and blue never falls along the ramp; green rises to 1 at 0.5 and falls after |
| ColorRamp.RampEndpoints | main.cpp:76-85 | ratios 0, 0.5 and 1 give pure red, pure green and pure blue |
| ColorRamp.ByteSumNearFull | main.cpp:76-85 | the three bytes of any ramp colour add up to 254 or 255 |
| Parameters.ColorRatio | main.cpp:134 | every index below `N` gives a ratio in `[0, 1]`; the ratio is 0 exactly for the first pendulum and 1 exactly for the last |
| Parameters.PeriodPositive | main.cpp:116-119 | every period, the longest period and the longest physical length are positive, so the scale factor is defined |
| Parameters.PeriodsSpanCycle | main.cpp:130 | `base + i` periods of pendulum `i` make exactly one wave cycle `T` |
| Parameters.FirstIsLongest | main.cpp:116-117 | the first pendulum has the longest period and physical length the scale is computed from |
| Parameters.PeriodDecreasing | main.cpp:130 | later pendulums have strictly shorter periods |
| Parameters.FrequencyClosedForm | main.cpp:130-131 | `ω_i = 2π (base + i) / T` |
| Parameters.FrequencyIncreasing | main.cpp:130-131 | later pendulums swing strictly faster |
| Parameters.PhaseOverCycle | main.cpp:130-131 | over one cycle pendulum `i` turns through `2π (base + i)`, one full turn more than pendulum `i − 1` |
| Parameters.PhaseOverPeriod | main.cpp:130-131 | over its own period each pendulum turns through exactly `2π` |
| Parameters.PendulumLaw | main.cpp:131-132 | the physical length satisfies the small-angle pendulum law `ω² · L = g` |
| Parameters.VisualLengthClosedForm | main.cpp:116-133 | the on-screen length of pendulum `i` is `0.8 · H · (base / (base + i))²` |
| Parameters.FirstVisualLength | main.cpp:116-119 | the first pendulum is exactly `0.8 ·` screen height long on screen |
| Parameters.VisualLengthDecreasing | main.cpp:130-133 | later pendulums are strictly shorter on screen |
| Parameters.VisualLengthFits | main.cpp:116-133 | every on-screen length is positive and at most `0.8 ·` screen height |
| Parameters.SourceConstants | main.cpp:14-20 | the built-in constants are valid; longest period 1.2 s, second period 60/51 s, first length 800 px, middle pendulum ratio 0.5 |
| Oscillator.Halved | main.cpp:56 | each outline channel is the fill channel halved, rounded down |
| Oscillator.Pendulum.constructor | main.cpp:32-40 | a default pendulum: zero numbers, a two-vertex string and a zero-radius bob at the origin |
| Oscillator.Pendulum.Setup | main.cpp:42-57 | stores frequency, length, amplitude and pivot; anchors and colours the string; gives the bob its radius, centred origin, fill, outline thickness 2 and half-bright outline; leaves the bob's position and the string's far end where they were |
| Oscillator.Pendulum.Update | main.cpp:59-68 | puts the bob and the string's far end at the same point, the position the stored motion gives at that time; the motion, the anchor and the bob's style are unchanged |
| Oscillator.AngleWithinAmplitude | main.cpp:60 | with a cosine bounded by 1, the angle never exceeds the amplitude |
| Oscillator.StringKeepsLength | main.cpp:60-63 | given `sin² + cos² = 1`, the bob is always exactly the string's length from the pivot |
| Oscillator.AngleAfterTurns | main.cpp:60 | a time shift that adds whole turns of a periodic cosine to the phase leaves the angle unchanged |
| Oscillator.PositionPeriodic | main.cpp:59-68 | with a `2π`-periodic cosine, each position repeats after `2π / ω` |
| Control.SpaceToggles | main.cpp:159-161 | Space flips the pause flag and nothing else; two presses cancel |
| Control.ResetRewinds | main.cpp:162-164 | R sets simulated time to 0 and leaves speed, pause flag and window alone |
| Control.SpeedKeysInverse | main.cpp:165-172 | Up/Right multiply and Down/Left divide the time scale by 1.2, nothing else changes, and one step each way cancels in either order |
| Control.QuitAndIgnoredInputs | main.cpp:151-183 | Escape and Closed only close the window; other keys, resizes and other events change nothing |
| Control.ClosedIgnoresEvents | main.cpp:149-184 | a closed window handles no events: the controls stay exactly as they are |
| Control.ClosedIgnoresRest | main.cpp:149-184 | once a prefix of the events has closed the window, the remaining events change nothing |
| Control.AdvanceCases | main.cpp:187-190 | while paused the advance changes nothing; while running it adds `dt · timeScale` to simulated time only |
| Control.ResetThenAdvance | main.cpp:162-190 | R and then a running frame leave simulated time at exactly `dt · timeScale` |
| Control.AdvanceAllCases | main.cpp:186-190 | over many paused frames time stands still; over many running frames it moves by the sum of the frame times times the scale |
| Control.EventsKeepHealthy | main.cpp:149-184 | events keep the time scale positive and simulated time non-negative |
| Control.FrameKeepsHealthy | main.cpp:145-190 | a whole frame with non-negative real time keeps those two facts |
| Control.InitialHealthy | main.cpp:140-142 | the initial controls satisfy them |
| Control.SteppedNext | main.cpp:165-172 | one more net step up multiplies the scale by 1.2, one more down divides it by 1.2 |
| Control.EventsScaleTime | main.cpp:165-172 | after handling a run of events the scale has been stepped by the net count of speed-up minus slow-down keys, whatever their order |
| Control.EventsTogglePause | main.cpp:159-161 | after handling a run of events the pause flag has flipped once per Space |
| Control.EventsResetTime | main.cpp:162-164 | after handling a run of events simulated time is 0 if an R was among them and unchanged otherwise |
| Control.EventsCloseWindow | main.cpp:149-184 | after polling, the window is open exactly when it was and no Escape or Closed came |
| Control.DeliveredUpToFirstQuit | main.cpp:149-184 | the events a frame handles are a prefix of its events; only the last of them can be a quit; when some are dropped, that last one is a quit; when none is a quit, all are handled |
| Control.PollingStopsAtClose | main.cpp:149-184 | polling from an open window has exactly the effect of handling the delivered events one by one |
| Control.PolledEventsSummary | main.cpp:149-184 | from an open window, one frame's polling steps the scale by the net speed keys, flips the pause flag once per Space and rewinds time if an R came, counting only the events up to the first quit; the window stays open exactly when no quit came |
| Control.InitialScaleIsPowerOfStep | main.cpp:141-172 | after the first frame's events, polled from the initial controls, the scale is `1.2^k`, where `k` is the net step count of the handled events; hence it is positive |
| Control.PolledScale | main.cpp:149-184 | one polling pass from any state steps the scale by the net speed keys it handles, and by none from a closed window |
| Control.SteppedAdd | main.cpp:165-172 | stepping the scale `a` times and then `b` times is stepping it `a + b` times |
| Control.SteppedPositive | main.cpp:165-172 | stepping never makes a positive scale zero or negative |
| Control.Controls.constructor | main.cpp:140-142 | the controls start at time 0, scale 1, running, window open |
| Control.Controls.HandleEvent | main.cpp:151-183 | one polled event changes the controls exactly as `OnEvent` says |
| Control.Controls.PollEvents | main.cpp:149-184 | polling the frame's events in order until the window is closed changes the controls exactly as `OnEvents` says |
| Control.Controls.AdvanceClock | main.cpp:187-190 | the clock advance changes the controls exactly as `Advance` says |
| Scene.CreatePendulums | main.cpp:109 | `N` distinct, fresh, default-constructed pendulums: zero motion, white string vertices at the origin, and a white zero-radius bob at the origin |
| Scene.RunScalesTime | main.cpp:145-190 | over any number of frames the scale has been stepped by the net speed keys handled in them; the clock advance never changes it |
| Scene.ScaleAlwaysPowerOfStep | main.cpp:140-190 | from the initial controls, after any number of frames, the scale is `1.2^k` for the net handled step count `k`, hence positive |
| Scene.SetupPendulums | main.cpp:112-137 | afterwards pendulum `i` holds frequency `ω_i`, scaled length, common amplitude and pivot, and the ramp colour at `i / (N − 1)`, and no bob has moved |
| Scene.UpdateAll | main.cpp:192-194 | every pendulum shows the shared simulated time; nothing else about any pendulum changes |
| Scene.RunFrame | main.cpp:145-194 | the controls follow `Frame` for the frame's events and real time, and every pendulum shows the new simulated time |
| Scene.Run | main.cpp:109-205 | a frame is only started with the window open; the loop stops early only when a frame closed it; the controls are the fold of `Frame` over the frames run; with non-negative frame times the scale stays positive and time non-negative; every pendulum keeps its set-up configuration and shows the current time |
| Scene.AlignedAtStart | main.cpp:140 | at simulated time 0 all pendulums share the angle `amplitude · cos 0`, which is the full amplitude whenever `cos 0 = 1` |
| Scene.WaveRepeats | main.cpp:128-137 | with a `2π`-periodic cosine every pendulum is back at the same position one wave cycle `T` later |
| Scene.PendulumRepeats | main.cpp:130-131 | each pendulum repeats after its own period |
| Scene.AlignedAfterCycles | main.cpp:128-137 | after any whole number of cycles all pendulums are at the common starting angle `amplitude · cos 0` again, the full amplitude whenever `cos 0 = 1` |

## Left out

- Rendering and the window are not modelled: SFML's window, view, context settings,
  frame-rate limit, `clear`, `draw` and `display`. This includes `Pendulum::draw` (main.cpp:70-73)
  and the pivot marker (main.cpp:123-126). The model keeps only the state that drawing reads.
- Resize events change only the view; in the model they leave the control state alone.
- The real-time clock `sf::Clock` is not modelled. Each frame's `dt` is an input.
- `Scene.Run` also reads its frames from an input sequence. It stops when that input runs
  out, where the program would go on polling.
- Floating-point rounding is not modelled; all values are exact reals.
- Control.SpeedKeysInverse: holds exactly only in real arithmetic. In `float`, `x * 1.2f / 1.2f` can differ from `x`.
- Control.InitialScaleIsPowerOfStep: its positivity holds only in real arithmetic. In `float`, about 567 net slow-down presses round the scale to 0, where it stays, and about 487 net speed-up presses overflow it to infinity.
- Scene.ScaleAlwaysPowerOfStep: its positivity holds only in real arithmetic, for the same float underflow to 0 and overflow to infinity.
- Control.EventsKeepHealthy: a positive scale holds only in real arithmetic, for the same float underflow and overflow.
- Control.FrameKeepsHealthy: a positive scale holds only in real arithmetic, for the same float underflow and overflow.
- Scene.Run: its positive-scale clause holds only in real arithmetic, for the same float underflow and overflow.
- Scene.AlignedAtStart: does not fix `cos 0`. The full-amplitude clause assumes `cos 0 = 1` as a hypothesis rather than proving it.
- Scene.AlignedAfterCycles: the full-amplitude clause likewise assumes `cos 0 = 1`.
- Parameters.VisualLengthFits: an exact real identity, which the `float` computation meets only up to rounding.
- Parameters.FirstVisualLength: an exact real identity, which the `float` computation meets only up to rounding.
- Parameters.SourceConstants: uses 3.14159265 for `std::numbers::pi_v<float>`.
- `std::cos`, `std::sin` and `std::pow` are not defined in the model. `cos` and `sin` are function parameters, and the exponent 2 of `std::pow` is written as a square.
- Scene.WaveRepeats: assumes, rather than proves, that cosine has period `2π`.
- Scene.PendulumRepeats: assumes, rather than proves, that cosine has period `2π`.
- Scene.AlignedAfterCycles: assumes, rather than proves, that cosine has period `2π`.
- Oscillator.PositionPeriodic: assumes, rather than proves, that cosine has period `2π`.
- Oscillator.StringKeepsLength: assumes, rather than proves, `sin² + cos² = 1` at the current angle.
- Parameters.ColorRatio: `N = 1` is excluded, because the code divides by zero there.
- Parameters.Valid: also excludes `N = 0`. The program itself runs with `N = 0`: the pendulum vector is empty and the set-up loop does nothing. The model does not cover that degenerate configuration.
- ColorRamp.ColorFromRatio: requires a ratio in `[0, 1]`, so the ramp's behaviour outside that range is not modelled. The program only calls it with `i / (N − 1)`.
- The SFML defaults of a default-constructed pendulum are taken to be white vertices and a
  white, zero-radius, zero-outline circle at the origin. `Oscillator.Pendulum.constructor`
  states them, but SFML's sources are not part of this model.
