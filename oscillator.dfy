/** One pendulum: its configuration, written once by Setup, and its renderable
    geometry (a two-vertex string and a circular bob), moved by Update.
    The cosine and sine the position needs are passed in as functions: the
    model assumes nothing about them except where a lemma says so. */
module Oscillator {
  import opened ColorRamp

  datatype Point = Point(x: real, y: real)

  /** One vertex of a line primitive. */
  datatype Vertex = Vertex(position: Point, color: Color)

  /** The bob's circle shape: where it is drawn and how. */
  datatype Circle = Circle(
    position: Point,
    radius: real,
    origin: Point,
    fill: Color,
    outlineThickness: real,
    outline: Color)

  /** What fixes a pendulum's swing. */
  datatype Motion = Motion(angularFrequency: real, visualLength: real, amplitudeRad: real, pivot: Point)

  const BobRadius: real := 12.0
  const OutlineThickness: real := 2.0
  const StringColor := Color(70, 70, 90)
  const Origin := Point(0.0, 0.0)

  /** The outline colour of a bob: each channel of its fill colour halved. */
  function Halved(c: Color): (h: Color)
    ensures h.r + h.r <= c.r <= h.r + h.r + 1
    ensures h.g + h.g <= c.g <= h.g + h.g + 1
    ensures h.b + h.b <= c.b <= h.b + h.b + 1
  {
    Color(c.r / 2, c.g / 2, c.b / 2)
  }

  /** The phase of the swing at simulated time `t`. */
  function Phase(m: Motion, t: real): real { m.angularFrequency * t }

  /** Simple harmonic angle at simulated time `t`. */
  function CurrentAngle(m: Motion, t: real, cos: real -> real): real {
    m.amplitudeRad * cos(Phase(m, t))
  }

  /** The bob's position: the string hangs from the pivot at the current angle
      from the vertical (screen y grows downward). */
  function BobPosition(m: Motion, t: real, cos: real -> real, sin: real -> real): Point {
    var a := CurrentAngle(m, t, cos);
    Point(m.pivot.x + m.visualLength * sin(a), m.pivot.y + m.visualLength * cos(a))
  }

  /** `f` repeats after `p`. */
  ghost predicate Periodic(f: real -> real, p: real) {
    forall x: real :: f(x + p) == f(x)
  }

  lemma {:induction false} PeriodicMultiple(f: real -> real, p: real, x: real, n: nat)
    requires Periodic(f, p)
    ensures f(x + n as real * p) == f(x)
  {
    if n > 0 {
      PeriodicMultiple(f, p, x, n - 1);
      assert f(x + (n - 1) as real * p + p) == f(x + (n - 1) as real * p);
      assert x + n as real * p == x + (n - 1) as real * p + p;
    }
  }

  /** A shift in time that adds whole turns of a periodic cosine to the phase
      leaves the angle unchanged. */
  lemma {:induction false} AngleAfterTurns(
    m: Motion, t: real, d: real, cos: real -> real, turn: real, turns: nat)
    requires Periodic(cos, turn)
    requires Phase(m, t + d) == Phase(m, t) + turns as real * turn
    ensures CurrentAngle(m, t + d, cos) == CurrentAngle(m, t, cos)
  {
    var phase := Phase(m, t);
    PeriodicMultiple(cos, turn, phase, turns);
    assert cos(Phase(m, t + d)) == cos(phase);
  }

  lemma ScaledBound(a: real, c: real)
    requires a >= 0.0 && -1.0 <= c <= 1.0
    ensures -a <= a * c <= a
  {
    assert a * (1.0 - c) >= 0.0;
    assert a * (1.0 + c) >= 0.0;
  }

  /** With a cosine bounded by 1, the swing never exceeds the amplitude. */
  lemma AngleWithinAmplitude(m: Motion, t: real, cos: real -> real)
    requires m.amplitudeRad >= 0.0
    requires -1.0 <= cos(Phase(m, t)) <= 1.0
    ensures -m.amplitudeRad <= CurrentAngle(m, t, cos) <= m.amplitudeRad
  {
    var c := cos(Phase(m, t));
    ScaledBound(m.amplitudeRad, c);
    assert CurrentAngle(m, t, cos) == m.amplitudeRad * c;
  }

  /** Wherever the bob is, it stays at the string's length from the pivot,
      given only that sine and cosine satisfy Pythagoras at the current angle. */
  lemma {:induction false} StringKeepsLength(m: Motion, t: real, cos: real -> real, sin: real -> real)
    requires var a := CurrentAngle(m, t, cos); sin(a) * sin(a) + cos(a) * cos(a) == 1.0
    ensures var p := BobPosition(m, t, cos, sin);
      (p.x - m.pivot.x) * (p.x - m.pivot.x) + (p.y - m.pivot.y) * (p.y - m.pivot.y)
      == m.visualLength * m.visualLength
  {
    var a := CurrentAngle(m, t, cos);
    var l, s, c := m.visualLength, sin(a), cos(a);
    calc {
      (l * s) * (l * s) + (l * c) * (l * c);
      l * l * (s * s + c * c);
      l * l;
    }
  }

  /** Each pendulum repeats its position after one period 2pi / omega, given a
      cosine that repeats after 2pi. */
  lemma {:induction false} PositionPeriodic(
    m: Motion, t: real, cos: real -> real, sin: real -> real, twoPi: real)
    requires m.angularFrequency != 0.0
    requires Periodic(cos, twoPi)
    ensures BobPosition(m, t + twoPi / m.angularFrequency, cos, sin) == BobPosition(m, t, cos, sin)
  {
    var phase := Phase(m, t);
    assert Phase(m, t + twoPi / m.angularFrequency) == phase + twoPi;
    assert cos(phase + twoPi) == cos(phase);
    assert CurrentAngle(m, t + twoPi / m.angularFrequency, cos) == CurrentAngle(m, t, cos);
  }

  /** A pendulum as the simulator holds it. */
  class Pendulum {
    var angularFrequency: real
    var visualLength: real
    var amplitudeRad: real
    var pivot: Point
    /** The string: a line from vertex 0 (the pivot) to vertex 1 (the bob). */
    var stringVertices: seq<Vertex>
    var bob: Circle

    ghost predicate Valid()
      reads this
    {
      |stringVertices| == 2
    }

    function GetMotion(): Motion
      reads this
    {
      Motion(angularFrequency, visualLength, amplitudeRad, pivot)
    }

    /** Everything about the bob except its position. */
    function Style(): Circle
      reads this
    {
      bob.(position := Origin)
    }

    /** A default-constructed pendulum: all numbers zero, all colours white. */
    constructor ()
      ensures Valid()
      ensures GetMotion() == Motion(0.0, 0.0, 0.0, Origin)
      ensures stringVertices == [Vertex(Origin, White), Vertex(Origin, White)]
      ensures bob == Circle(Origin, 0.0, Origin, White, 0.0, White)
    {
      angularFrequency, visualLength, amplitudeRad, pivot := 0.0, 0.0, 0.0, Origin;
      stringVertices := [Vertex(Origin, White), Vertex(Origin, White)];
      bob := Circle(Origin, 0.0, Origin, White, 0.0, White);
    }

    /** Stores the configuration, anchors the string at the pivot, colours the
        string, and styles the bob with the given fill and a half-bright
        outline. The far string end and the bob's position are not touched. */
    method Setup(freq: real, length: real, amplitude: real, pivotPoint: Point, bobColor: Color)
      requires Valid()
      modifies this
      ensures Valid()
      ensures GetMotion() == Motion(freq, length, amplitude, pivotPoint)
      ensures stringVertices == [Vertex(pivotPoint, StringColor),
                                 Vertex(old(stringVertices[1].position), StringColor)]
      ensures bob == Circle(old(bob.position), BobRadius, Point(BobRadius, BobRadius),
                            bobColor, OutlineThickness, Halved(bobColor))
    {
      angularFrequency := freq;
      visualLength := length;
      amplitudeRad := amplitude;
      pivot := pivotPoint;

      stringVertices := stringVertices[0 := stringVertices[0].(position := pivot)];
      stringVertices := stringVertices[0 := stringVertices[0].(color := StringColor)];
      stringVertices := stringVertices[1 := stringVertices[1].(color := StringColor)];

      bob := bob.(radius := BobRadius);
      bob := bob.(origin := Point(BobRadius, BobRadius));
      bob := bob.(fill := bobColor);
      bob := bob.(outlineThickness := OutlineThickness);
      bob := bob.(outline := Halved(bobColor));
    }

    /** Moves the bob and the string's far end to the same computed point;
        the configuration, the string's anchor and the bob's style stay. */
    method Update(totalSimTime: real, cos: real -> real, sin: real -> real)
      requires Valid()
      modifies this
      ensures Valid()
      ensures GetMotion() == old(GetMotion())
      ensures Style() == old(Style())
      ensures bob.position == BobPosition(GetMotion(), totalSimTime, cos, sin)
      ensures stringVertices[1].position == bob.position
      ensures stringVertices == old(stringVertices)[1 := old(stringVertices[1]).(position := bob.position)]
    {
      var phase := angularFrequency * totalSimTime;
      assert phase == Phase(GetMotion(), totalSimTime);
      var currentAngle := amplitudeRad * cos(phase);
      assert currentAngle == CurrentAngle(GetMotion(), totalSimTime, cos);
      var x := pivot.x + visualLength * sin(currentAngle);
      var y := pivot.y + visualLength * cos(currentAngle);
      var pos := Point(x, y);
      bob := bob.(position := pos);
      stringVertices := stringVertices[1 := stringVertices[1].(position := pos)];
    }
  }
}
