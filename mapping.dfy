/**
 * The conversion of a logical position (a percentage) into the byte that is
 * sent to the servo board: clamp to [0, 100], remap into the servo's safe
 * sub-range, convert to an angle, and scale that angle back to 0..180.
 */
module PositionMapping {
  import opened Wrappers

  /**
   * The keyword configuration `setup_servo` stores for a servo. A field that
   * was not given takes its default when a position is written.
   */
  datatype ServoConfig = ServoConfig(
    minSafePercent: Option<real>,
    maxSafePercent: Option<real>,
    maxAngle: Option<real>)

  /** A servo set up with no keyword arguments. */
  const DefaultConfig: ServoConfig := ServoConfig(None, None, None)

  function SafeMin(c: ServoConfig): real { c.minSafePercent.GetOr(0.0) }
  function SafeMax(c: ServoConfig): real { c.maxSafePercent.GetOr(100.0) }
  function MaxAngle(c: ServoConfig): real { c.maxAngle.GetOr(180.0) }

  /** The configurations under which the mapping is meant to be used. */
  predicate SaneConfig(c: ServoConfig) {
    0.0 <= SafeMin(c) <= SafeMax(c) <= 100.0 && MaxAngle(c) > 0.0
  }

  /** The percentage limited to the range 0 to 100. */
  function Clamp(p: real): (r: real)
    ensures 0.0 <= r <= 100.0
    ensures 0.0 <= p <= 100.0 ==> r == p
    ensures p < 0.0 ==> r == 0.0
    ensures p > 100.0 ==> r == 100.0
  {
    var low := if 100.0 <= p then 100.0 else p;
    if 0.0 >= low then 0.0 else low
  }

  /** Conversion of a real to an integer by truncation toward zero, as `int()` does. */
  function Trunc(x: real): (n: int)
    ensures 0.0 <= x ==> 0 <= n && n as real <= x < n as real + 1.0
    ensures x <= 0.0 ==> n <= 0 && n as real - 1.0 < x <= n as real
  {
    if x >= 0.0 then x.Floor else -((-x).Floor)
  }

  /** Step 2: the clamped percentage remapped into [SafeMin, SafeMax]. */
  function ActualPercent(c: ServoConfig, p: real): real {
    SafeMin(c) + (Clamp(p) / 100.0) * (SafeMax(c) - SafeMin(c))
  }

  /** Step 3: the remapped percentage as an angle out of MaxAngle. */
  function Angle(c: ServoConfig, p: real): real {
    (ActualPercent(c, p) / 100.0) * MaxAngle(c)
  }

  /**
   * Step 4: the angle scaled back to 0..180 and truncated; this is the byte
   * written. The angle conversion cancels: the byte is the remapped
   * percentage scaled by 1.8, whatever nonzero maximum angle the servo has.
   */
  function ScaledValue(c: ServoConfig, p: real): (v: int)
    requires MaxAngle(c) != 0.0
    ensures v == Trunc(ActualPercent(c, p) * 1.8)
  {
    var a, m := ActualPercent(c, p), MaxAngle(c);
    assert Angle(c, p) / m == a / 100.0 by {
      assert Angle(c, p) == (a / 100.0) * m;
    }
    Trunc(Angle(c, p) / m * 180.0)
  }

  /** Percentages outside [0, 100] are written exactly as the nearest end. */
  lemma ScaledValueClamps(c: ServoConfig, p: real)
    requires MaxAngle(c) != 0.0
    ensures ScaledValue(c, p) == ScaledValue(c, Clamp(p))
    ensures p <= 0.0 ==> ScaledValue(c, p) == ScaledValue(c, 0.0)
    ensures p >= 100.0 ==> ScaledValue(c, p) == ScaledValue(c, 100.0)
  {
    assert Clamp(Clamp(p)) == Clamp(p);
    assert ActualPercent(c, Clamp(p)) == ActualPercent(c, p);
    assert Angle(c, Clamp(p)) == Angle(c, p);
  }

  /** Multiplying by a non-negative factor keeps an order. */
  lemma MulMonotone(x: real, y: real, d: real)
    requires x <= y && 0.0 <= d
    ensures x * d <= y * d
  {
  }

  /** Linear interpolation between lo and hi stays between them and grows with the weight. */
  lemma LerpMonotone(lo: real, hi: real, x: real, y: real)
    requires lo <= hi && 0.0 <= x <= y <= 1.0
    ensures lo <= lo + x * (hi - lo) <= lo + y * (hi - lo) <= hi
  {
    var d := hi - lo;
    MulMonotone(0.0, x, d);
    MulMonotone(x, y, d);
    MulMonotone(y, 1.0, d);
  }

  /** The remapped percentage lies within the safe sub-range and grows with p. */
  lemma ActualPercentMonotone(c: ServoConfig, p: real, q: real)
    requires SafeMin(c) <= SafeMax(c)
    requires p <= q
    ensures SafeMin(c) <= ActualPercent(c, p) <= ActualPercent(c, q) <= SafeMax(c)
  {
    var x, y := Clamp(p) / 100.0, Clamp(q) / 100.0;
    LerpMonotone(SafeMin(c), SafeMax(c), x, y);
    assert ActualPercent(c, p) == SafeMin(c) + x * (SafeMax(c) - SafeMin(c));
    assert ActualPercent(c, q) == SafeMin(c) + y * (SafeMax(c) - SafeMin(c));
  }

  /** For a sane configuration every byte written is within [0, 180]. */
  lemma ScaledValueBounds(c: ServoConfig, p: real)
    requires SaneConfig(c)
    ensures 0 <= ScaledValue(c, p) <= 180
  {
    ActualPercentMonotone(c, p, p);
  }

  /** For a sane configuration the byte never decreases as the percentage grows. */
  lemma ScaledValueMonotone(c: ServoConfig, p: real, q: real)
    requires SaneConfig(c)
    requires p <= q
    ensures ScaledValue(c, p) <= ScaledValue(c, q)
  {
    ActualPercentMonotone(c, p, q);
    var x, y := ActualPercent(c, p) * 1.8, ActualPercent(c, q) * 1.8;
    assert 0.0 <= x <= y;
  }

  /** The two ends of the logical range land on the two ends of the safe range. */
  lemma ScaledValueEnds(c: ServoConfig)
    requires MaxAngle(c) != 0.0
    ensures ScaledValue(c, 0.0) == Trunc(SafeMin(c) * 1.8)
    ensures ScaledValue(c, 100.0) == Trunc(SafeMax(c) * 1.8)
  {
  }

  /** With the default configuration the byte is floor(1.8 * percent) of the clamped percent. */
  lemma DefaultScaledValue(p: real)
    ensures ScaledValue(DefaultConfig, p) == (Clamp(p) * 1.8).Floor
    ensures 0.0 <= p <= 100.0 ==> ScaledValue(DefaultConfig, p) == (p * 1.8).Floor
  {
  }
}
