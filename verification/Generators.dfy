/** The sensor value generators and their one-shot outlier cell. */
module Generators {
  import opened Domain

  const SPIKE_FREQUENCY: real := 0.1
  const SPIKE_FACTOR: real := 1.5

  /** What the random source and the sine function hand to one call of `Next`. */
  datatype Draw = Draw(spike: real, side: real, unit: real, sine: real)

  ghost predicate ValidDraw(d: Draw) {
    && 0.0 <= d.spike < 1.0
    && 0.0 <= d.side < 1.0
    && 0.0 <= d.unit < 1.0
    && -1.0 <= d.sine <= 1.0
  }

  function Scaled(x: real, width: real): real {
    x * width
  }

  lemma ProductSign(a: real, b: real)
    requires 0.0 <= a && 0.0 <= b
    ensures 0.0 <= a * b
  {
  }

  lemma ScaledBounds(x: real, width: real)
    requires -1.0 <= x <= 1.0 && 0.0 <= width
    ensures -width <= Scaled(x, width) <= width
    ensures 0.0 <= x ==> 0.0 <= Scaled(x, width)
  {
    ProductSign(1.0 + x, width);
    ProductSign(1.0 - x, width);
  }

  function BaseValue(algorithm: Algorithm, min: real, max: real, d: Draw): real {
    match algorithm
    case Constant => (min + max) / 2.0
    case SineWave => min + (max - min) / 2.0 + Scaled(d.sine, (max - min) / 2.0)
    case UniformRandom => min + Scaled(d.unit, max - min)
    case Spike =>
      if d.spike < SPIKE_FREQUENCY then
        if d.side < 0.5 then max + (max - min) * SPIKE_FACTOR
        else min - (max - min) * SPIKE_FACTOR
      else min + Scaled(d.unit, max - min)
  }

  /** A base value leaves the sensor's range exactly when the spike algorithm
      rolls a spike, and then by one and a half times the width. */
  lemma BaseValueRange(algorithm: Algorithm, min: real, max: real, d: Draw)
    requires min < max && ValidDraw(d)
    ensures var v := BaseValue(algorithm, min, max, d);
            var spiked := algorithm == Spike && d.spike < SPIKE_FREQUENCY;
            && (min <= v <= max <==> !spiked)
            && (spiked ==> v == max + (max - min) * 1.5 || v == min - (max - min) * 1.5)
  {
    ScaledBounds(d.unit, max - min);
    ScaledBounds(d.sine, (max - min) / 2.0);
  }

  /** A generator with its mutex left out: `Next` and `InjectOutlier` are atomic. */
  lemma Quotient(a: real, b: real)
    requires b != 0.0
    ensures Scaled(a / b, b) == a
  {
  }

  /** A constant sensor shows the middle of its range. Uniform and sine draws reach every
      value in it, each from the draw that stands at the same place in its own range. A
      spike goes up or down as its second draw says. */
  lemma BaseValueReaches(min: real, max: real, v: real, d: Draw)
    requires min < max
    ensures BaseValue(Constant, min, max, d) - min == max - BaseValue(Constant, min, max, d)
    ensures BaseValue(UniformRandom, min, max, d.(unit := (v - min) / (max - min))) == v
    ensures BaseValue(SineWave, min, max, d.(sine := (v - (min + max) / 2.0) / ((max - min) / 2.0))) == v
    ensures d.spike >= 0.1 ==> BaseValue(Spike, min, max, d) == BaseValue(UniformRandom, min, max, d)
    ensures d.spike < 0.1 && d.side < 0.5 ==> BaseValue(Spike, min, max, d) > max
    ensures d.spike < 0.1 && d.side >= 0.5 ==> BaseValue(Spike, min, max, d) < min
  {
    Quotient(v - min, max - min);
    Quotient(v - (min + max) / 2.0, (max - min) / 2.0);
  }

  class Generator {
    const algorithm: Algorithm
    const min: real
    const max: real
    var outlierOverride: Option<real>

    constructor (sensor: Sensor)
      ensures algorithm == sensor.algorithm && min == sensor.min && max == sensor.max
      ensures outlierOverride == None
    {
      algorithm, min, max := sensor.algorithm, sensor.min, sensor.max;
      outlierOverride := None;
    }

    method Next(d: Draw) returns (v: real)
      modifies this
      ensures outlierOverride == None
      ensures v == match old(outlierOverride)
                   case Some(o) => o
                   case None => BaseValue(algorithm, min, max, d)
    {
      if outlierOverride.Some? {
        v := outlierOverride.value;
        outlierOverride := None;
        return;
      }
      v := BaseValue(algorithm, min, max, d);
    }

    method InjectOutlier(value: real)
      modifies this
      ensures outlierOverride == Some(value)
    {
      outlierOverride := Some(value);
    }
  }
}
