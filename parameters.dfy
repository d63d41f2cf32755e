/** Derivation of each pendulum's period, angular frequency and lengths from
    the global tuning constants, done once at start-up. Floating-point values
    are modelled as exact reals; pi and the gravitational acceleration are
    carried as positive configuration values. */
module Parameters {

  /** The global tuning constants of the simulator. */
  datatype Config = Config(
    totalPeriod: real,        // duration of one full wave cycle, in seconds
    baseOscillations: nat,    // swings of the slowest pendulum per cycle
    count: nat,               // number of pendulums
    gravity: real,            // m/s^2
    pi: real,
    screenWidth: real,        // pixels
    screenHeight: real,       // pixels
    maxAmplitudeDeg: real)    // swing amplitude, in degrees

  /** The fraction of the screen height that the longest pendulum occupies. */
  const LengthFraction: real := 0.8

  /** The constants the simulator is built with. */
  const Source: Config := Config(60.0, 50, 25, 9.81, 3.14159265, 1800.0, 1000.0, 22.0)

  /** The constants for which the derivation is defined: it divides by the
      base count, by the longest physical length and by count - 1. */
  predicate Valid(c: Config) {
    && c.totalPeriod > 0.0
    && c.baseOscillations > 0
    && c.count > 1
    && c.gravity > 0.0
    && c.pi > 0.0
    && c.screenHeight > 0.0
  }

  function Square(x: real): real { x * x }

  /** The swing amplitude in radians, shared by every pendulum. */
  function AmplitudeRad(c: Config): real { c.maxAmplitudeDeg * (c.pi / 180.0) }

  /** Period of the slowest pendulum. */
  function LongestPeriod(c: Config): real
    requires Valid(c)
  {
    c.totalPeriod / c.baseOscillations as real
  }

  /** Pendulum `i` completes baseOscillations + i swings per wave cycle. */
  function Period(c: Config, i: nat): real
    requires Valid(c)
  {
    c.totalPeriod / (c.baseOscillations + i) as real
  }

  function AngularFrequency(c: Config, i: nat): real
    requires Valid(c)
  {
    (2.0 * c.pi) / Period(c, i)
  }

  /** Small-angle pendulum length for a given period: g * (T / 2pi)^2. */
  function LengthForPeriod(c: Config, period: real): real
    requires Valid(c)
  {
    c.gravity * Square(period / (2.0 * c.pi))
  }

  function LongestPhysicsLength(c: Config): real
    requires Valid(c)
  {
    LengthForPeriod(c, LongestPeriod(c))
  }

  function PhysicsLength(c: Config, i: nat): real
    requires Valid(c)
  {
    LengthForPeriod(c, Period(c, i))
  }

  function MaxVisualLength(c: Config): real { c.screenHeight * LengthFraction }

  /** One scale for all pendulums, fixed by the longest one. */
  function PixelsPerMeter(c: Config): real
    requires Valid(c)
  {
    PeriodPositive(c, 0);
    MaxVisualLength(c) / LongestPhysicsLength(c)
  }

  function VisualLength(c: Config, i: nat): real
    requires Valid(c)
  {
    PhysicsLength(c, i) * PixelsPerMeter(c)
  }

  /** Position of pendulum `i` along the colour ramp: first 0, last 1. */
  function ColorRatio(c: Config, i: nat): (r: real)
    requires Valid(c)
    ensures i < c.count ==> 0.0 <= r <= 1.0
    ensures i == 0 <==> r == 0.0
    ensures i == c.count - 1 <==> r == 1.0
  {
    i as real / (c.count - 1) as real
  }

  // ---------------------------------------------------------------- periods

  lemma PeriodPositive(c: Config, i: nat)
    requires Valid(c)
    ensures Period(c, i) > 0.0
    ensures LongestPeriod(c) > 0.0
    ensures LongestPhysicsLength(c) > 0.0
  {
    var k := 2.0 * c.pi;
    assert LongestPeriod(c) / k > 0.0;
  }

  /** baseOscillations + i periods of pendulum `i` span exactly one wave cycle. */
  lemma PeriodsSpanCycle(c: Config, i: nat)
    requires Valid(c)
    ensures Period(c, i) * (c.baseOscillations + i) as real == c.totalPeriod
  {
  }

  /** The slowest pendulum is the first. */
  lemma FirstIsLongest(c: Config)
    requires Valid(c)
    ensures Period(c, 0) == LongestPeriod(c)
    ensures PhysicsLength(c, 0) == LongestPhysicsLength(c)
  {
  }

  /** Dividing a positive amount by a larger positive count gives less. */
  lemma DivisionDecreasing(x: real, a: real, b: real)
    requires x > 0.0 && 0.0 < a < b
    ensures 0.0 < x / b < x / a
  {
    var u, v := x / a, x / b;
    assert u * a == x && v * b == x;
    assert v > 0.0;
    assert v * a < v * b;
    assert (u - v) * a > 0.0;
  }

  /** Later pendulums have strictly shorter periods. */
  lemma {:induction false} PeriodDecreasing(c: Config, i: nat, j: nat)
    requires Valid(c) && i < j
    ensures Period(c, j) < Period(c, i)
  {
    DivisionDecreasing(c.totalPeriod, (c.baseOscillations + i) as real, (c.baseOscillations + j) as real);
  }

  /** Angular frequency in closed form: 2pi (base + i) / totalPeriod. */
  lemma {:induction false} FrequencyClosedForm(c: Config, i: nat)
    requires Valid(c)
    ensures AngularFrequency(c, i) == 2.0 * c.pi * (c.baseOscillations + i) as real / c.totalPeriod
  {
    var n := (c.baseOscillations + i) as real;
    var k := 2.0 * c.pi;
    assert Period(c, i) == c.totalPeriod / n;
    assert k / (c.totalPeriod / n) == k * n / c.totalPeriod;
  }

  /** Later pendulums swing strictly faster. */
  lemma {:induction false} FrequencyIncreasing(c: Config, i: nat, j: nat)
    requires Valid(c) && i < j
    ensures AngularFrequency(c, i) < AngularFrequency(c, j)
  {
    FrequencyClosedForm(c, i);
    FrequencyClosedForm(c, j);
    var k := 2.0 * c.pi;
    var a, b := (c.baseOscillations + i) as real, (c.baseOscillations + j) as real;
    assert k * a < k * b;
    assert k * a / c.totalPeriod < k * b / c.totalPeriod;
  }

  /** Over one wave cycle pendulum `i` turns through exactly base + i full
      phase turns, so consecutive pendulums drift apart by exactly one turn:
      the algebraic core of the wave's re-convergence. */
  lemma {:induction false} PhaseOverCycle(c: Config, i: nat)
    requires Valid(c)
    ensures AngularFrequency(c, i) * c.totalPeriod == 2.0 * c.pi * (c.baseOscillations + i) as real
    ensures AngularFrequency(c, i + 1) * c.totalPeriod
         == AngularFrequency(c, i) * c.totalPeriod + 2.0 * c.pi
  {
    FrequencyClosedForm(c, i);
    FrequencyClosedForm(c, i + 1);
  }

  /** One period of pendulum `i` is one full phase turn. */
  lemma {:induction false} PhaseOverPeriod(c: Config, i: nat)
    requires Valid(c)
    ensures AngularFrequency(c, i) * Period(c, i) == 2.0 * c.pi
  {
    PeriodPositive(c, i);
  }

  // ---------------------------------------------------------------- lengths

  /** The physical length is the small-angle pendulum length for the
      pendulum's frequency: omega^2 * L = g. */
  lemma {:induction false} PendulumLaw(c: Config, i: nat)
    requires Valid(c)
    ensures Square(AngularFrequency(c, i)) * PhysicsLength(c, i) == c.gravity
  {
    PeriodPositive(c, i);
    var p, k := Period(c, i), 2.0 * c.pi;
    var w := AngularFrequency(c, i);
    assert w * (p / k) == 1.0;
    calc {
      Square(w) * PhysicsLength(c, i);
      w * w * (c.gravity * ((p / k) * (p / k)));
      c.gravity * ((w * (p / k)) * (w * (p / k)));
    }
  }

  lemma {:induction false} SquareOfQuotient(x: real, y: real, k: real)
    requires y > 0.0 && k > 0.0
    ensures Square(x / k) / Square(y / k) == Square(x / y)
  {
    var xk, yk := x / k, y / k;
    assert xk / yk == x / y;
    assert Square(xk) / Square(yk) == Square(xk / yk);
  }

  /** The visual length of pendulum `i` is the longest visual length scaled by
      (base / (base + i))^2. */
  lemma {:induction false} VisualLengthClosedForm(c: Config, i: nat)
    requires Valid(c)
    ensures VisualLength(c, i)
         == MaxVisualLength(c)
            * Square(c.baseOscillations as real / (c.baseOscillations + i) as real)
  {
    PeriodPositive(c, i);
    var p, p0, k := Period(c, i), LongestPeriod(c), 2.0 * c.pi;
    var g, m := c.gravity, MaxVisualLength(c);
    var b, n := c.baseOscillations as real, (c.baseOscillations + i) as real;
    SquareOfQuotient(p, p0, k);
    assert Square(p0 / k) > 0.0;
    CancelCommonFactor(g, Square(p / k), m, Square(p0 / k));
    QuotientOfQuotients(c.totalPeriod, n, b);
  }

  lemma CancelCommonFactor(g: real, a: real, m: real, d: real)
    requires g != 0.0 && d != 0.0
    ensures g * a * (m / (g * d)) == m * (a / d)
  {
    var q := m / (g * d);
    assert q * (g * d) == m;
    assert (a / d) * d == a;
    calc {
      g * a * q;
      g * ((a / d) * d) * q;
      (a / d) * (q * (g * d));
    }
  }

  lemma QuotientOfQuotients(t: real, n: real, b: real)
    requires t != 0.0 && n != 0.0 && b != 0.0
    ensures (t / n) / (t / b) == b / n
  {
    var x, y := t / n, t / b;
    assert x * n == t && y * b == t;
    assert (b / n) * y == x by {
      calc {
        (b / n) * y * n;
        (b / n) * n * y;
        b * y;
        t;
        x * n;
      }
    }
  }

  lemma MulPositive(a: real, b: real)
    requires a > 0.0 && b > 0.0
    ensures a * b > 0.0
  {
  }

  lemma SquareStrictlyMonotone(x: real, y: real)
    requires 0.0 <= x < y
    ensures Square(x) < Square(y)
  {
    MulPositive(y - x, y + x);
    assert (y - x) * (y + x) == y * y - x * x;
  }

  /** The first pendulum takes exactly the configured share of the screen. */
  lemma {:induction false} FirstVisualLength(c: Config)
    requires Valid(c)
    ensures VisualLength(c, 0) == MaxVisualLength(c) == LengthFraction * c.screenHeight
  {
    VisualLengthClosedForm(c, 0);
  }

  /** Later pendulums are strictly shorter on screen. */
  lemma {:induction false} VisualLengthDecreasing(c: Config, i: nat, j: nat)
    requires Valid(c) && i < j
    ensures VisualLength(c, j) < VisualLength(c, i)
  {
    VisualLengthClosedForm(c, i);
    VisualLengthClosedForm(c, j);
    var b := c.baseOscillations as real;
    var ni, nj := (c.baseOscillations + i) as real, (c.baseOscillations + j) as real;
    DivisionDecreasing(b, ni, nj);
    SquareStrictlyMonotone(b / nj, b / ni);
  }

  /** Every pendulum has a positive length that fits the screen fraction. */
  lemma {:induction false} VisualLengthFits(c: Config, i: nat)
    requires Valid(c)
    ensures 0.0 < VisualLength(c, i) <= LengthFraction * c.screenHeight
  {
    FirstVisualLength(c);
    if i > 0 {
      VisualLengthDecreasing(c, 0, i);
    }
    VisualLengthClosedForm(c, i);
    var q := c.baseOscillations as real / (c.baseOscillations + i) as real;
    assert q > 0.0;
    MulPositive(q, q);
    assert Square(q) > 0.0;
    assert MaxVisualLength(c) > 0.0;
    MulPositive(MaxVisualLength(c), Square(q));
    assert VisualLength(c, i) == MaxVisualLength(c) * Square(q);
    assert VisualLength(c, i) > 0.0;
    assert VisualLength(c, i) <= VisualLength(c, 0);
  }

  // ---------------------------------------------------------------- source constants

  /** The built-in constants are a valid configuration; the slowest pendulum
      swings 50 times a minute with period 1.2 s and fills 800 of the 1000
      pixels of screen height. */
  lemma SourceConstants()
    ensures Valid(Source)
    ensures LongestPeriod(Source) == 1.2
    ensures Period(Source, 1) == 60.0 / 51.0
    ensures VisualLength(Source, 0) == 800.0
    ensures ColorRatio(Source, 12) == 0.5
  {
    FirstVisualLength(Source);
  }
}
