/** The colour ramp that gives each pendulum's bob its colour: a normalised index
    in [0, 1] is swept red -> green -> blue by three piecewise-linear channels,
    each then scaled to 0..255 and truncated to a byte. */
module ColorRamp {

  /** An 8-bit colour channel. */
  type Byte = x: int | 0 <= x < 256

  datatype Color = Color(r: Byte, g: Byte, b: Byte)

  const White := Color(255, 255, 255)

  function Max(a: real, b: real): real { if a < b then b else a }
  function Abs(a: real): real { if a < 0.0 then -a else a }

  /** Red falls linearly from 1 at ratio 0 to 0 at ratio 0.5 and stays 0. */
  function Red(ratio: real): real { Max(0.0, 1.0 - ratio * 2.0) }

  /** Green rises to 1 at ratio 0.5 and falls back. */
  function Green(ratio: real): real { 1.0 - Abs(ratio - 0.5) * 2.0 }

  /** Blue is 0 up to ratio 0.5 and rises linearly to 1 at ratio 1. */
  function Blue(ratio: real): real { Max(0.0, (ratio - 0.5) * 2.0) }

  /** Truncating conversion of a channel level in [0, 1] to a byte; for a
      non-negative value, truncation toward zero is the floor. */
  function ToByte(level: real): (b: Byte)
    requires 0.0 <= level <= 1.0
    ensures b as real <= level * 255.0 < b as real + 1.0
  {
    (level * 255.0).Floor
  }

  /** Channel levels of the three bands; on [0, 1] each is a level in [0, 1]. */
  lemma {:induction false} LevelsInRange(ratio: real)
    requires 0.0 <= ratio <= 1.0
    ensures 0.0 <= Red(ratio) <= 1.0
    ensures 0.0 <= Green(ratio) <= 1.0
    ensures 0.0 <= Blue(ratio) <= 1.0
  {
  }

  /** The colour of a bob at position `ratio` along the ramp. */
  function ColorFromRatio(ratio: real): (c: Color)
    requires 0.0 <= ratio <= 1.0
    ensures c.r as real <= Red(ratio) * 255.0 < c.r as real + 1.0
    ensures c.g as real <= Green(ratio) * 255.0 < c.g as real + 1.0
    ensures c.b as real <= Blue(ratio) * 255.0 < c.b as real + 1.0
  {
    LevelsInRange(ratio);
    Color(ToByte(Red(ratio)), ToByte(Green(ratio)), ToByte(Blue(ratio)))
  }

  /** The three levels always add up to full intensity: the ramp is a
      partition of unity over [0, 1]. */
  lemma LevelsSumToOne(ratio: real)
    requires 0.0 <= ratio <= 1.0
    ensures Red(ratio) + Green(ratio) + Blue(ratio) == 1.0
  {
  }

  /** Red and blue are never lit together: below the midpoint there is no blue,
      above it no red. */
  lemma RedAndBlueExclusive(ratio: real)
    ensures ratio <= 0.5 ==> Blue(ratio) == 0.0
    ensures ratio >= 0.5 ==> Red(ratio) == 0.0
    ensures Red(ratio) == 0.0 || Blue(ratio) == 0.0
  {
  }

  /** Along the ramp red never rises, blue never falls, and green peaks at
      the midpoint. */
  lemma ChannelsMonotone(x: real, y: real)
    requires x <= y
    ensures Red(y) <= Red(x)
    ensures Blue(x) <= Blue(y)
    ensures y <= 0.5 ==> Green(x) <= Green(y)
    ensures 0.5 <= x ==> Green(y) <= Green(x)
    ensures Green(x) <= Green(0.5) == 1.0
  {
  }

  /** The ramp's end points and midpoint are pure red, green and blue. */
  lemma RampEndpoints()
    ensures ColorFromRatio(0.0) == Color(255, 0, 0)
    ensures ColorFromRatio(0.5) == Color(0, 255, 0)
    ensures ColorFromRatio(1.0) == Color(0, 0, 255)
  {
    assert ColorFromRatio(0.0).r == 255;
    assert ColorFromRatio(0.5).g == 255;
    assert ColorFromRatio(1.0).b == 255;
  }

  /** Truncation loses less than one unit per channel, and at most two
      channels are lit, so the bytes of a ramp colour add up to 254 or 255. */
  lemma {:induction false} ByteSumNearFull(ratio: real)
    requires 0.0 <= ratio <= 1.0
    ensures var c := ColorFromRatio(ratio); 254 <= c.r + c.g + c.b <= 255
  {
    var c := ColorFromRatio(ratio);
    LevelsSumToOne(ratio);
    RedAndBlueExclusive(ratio);
    if Red(ratio) == 0.0 {
      assert c.r == 0;
    } else {
      assert c.b == 0;
    }
  }
}
