/**
 * Scoring of one reading against a range that may carry an ideal sub-range
 * (`evaluateParameter` and `OPTIMAL_RANGES` of the pond advisor service).
 */
module ParameterEvaluator {
  import opened Wrappers

  /** A closed interval `[min, max]`. */
  datatype Bounds = Bounds(min: real, max: real)

  /** An acceptable interval with an optional narrower ideal interval. */
  datatype RangeSpec = RangeSpec(min: real, max: real, ideal: Option<Bounds>, unit: string)
  {
    /** The range invariant: `min <= ideal.min <= ideal.max <= max`. */
    predicate Valid()
    {
      min <= max && (ideal.Some? ==> min <= ideal.value.min <= ideal.value.max <= max)
    }

    predicate Contains(v: real) { min <= v <= max }

    predicate InIdeal(v: real) { ideal.Some? && ideal.value.min <= v <= ideal.value.max }
  }

  datatype Status = Unknown | Critical | Acceptable | Optimal

  /** The message of an evaluation, one constructor per text of the source. */
  datatype Message = Unavailable | TooLow | TooHigh | IdealConditions | SlightlyLow | SlightlyHigh | WithinRange

  datatype Evaluation = Evaluation(status: Status, score: int, message: Message)

  // The shipped ranges.
  const TemperatureRange: RangeSpec := RangeSpec(8.0, 30.0, Some(Bounds(15.0, 25.0)), "°C")
  const PhRange: RangeSpec := RangeSpec(6.0, 8.0, Some(Bounds(6.5, 7.5)), "")
  const ConductivityRange: RangeSpec := RangeSpec(200.0, 2000.0, Some(Bounds(400.0, 1500.0)), "µS/cm")
  const LightLevelRange: RangeSpec := RangeSpec(500.0, 10000.0, Some(Bounds(2000.0, 8000.0)), "lux")
  const AirHumidityRange: RangeSpec := RangeSpec(40.0, 80.0, Some(Bounds(50.0, 70.0)), "%")

  /** Every shipped range is valid and its ideal range is strictly tighter on at least one side. */
  lemma ShippedRangesValid()
    ensures forall r <- [TemperatureRange, PhRange, ConductivityRange, LightLevelRange, AirHumidityRange] ::
      r.Valid() && r.ideal.Some? && MaxDistance(r) > 0.0
  {
  }

  /** `Math.round`: rounds to the nearest integer, halves upwards. */
  function Round(x: real): (n: int)
    ensures x - 0.5 < n as real <= x + 0.5
  {
    (x + 0.5).Floor
  }

  /** How far `v` lies outside the ideal range; zero inside it. */
  function Distance(v: real, range: RangeSpec): real
    requires range.ideal.Some?
  {
    if v < range.ideal.value.min then range.ideal.value.min - v
    else if v > range.ideal.value.max then v - range.ideal.value.max
    else 0.0
  }

  /** The larger gap between the ideal range and the outer range. */
  function MaxDistance(range: RangeSpec): real
    requires range.ideal.Some?
  {
    var below := range.ideal.value.min - range.min;
    var above := range.max - range.ideal.value.max;
    if below >= above then below else above
  }

  /** The linear falloff: 100 at the ideal edge, 50 at the far edge of the range. */
  function Falloff(distance: real, maxDistance: real): int
    requires maxDistance > 0.0
  {
    Round(100.0 - (distance / maxDistance) * 50.0)
  }

  function Evaluate(value: Option<real>, range: RangeSpec): (e: Evaluation)
    requires range.Valid()
    ensures 0 <= e.score <= 100
    ensures e.status == Unknown <==> value.None?
    ensures e.status == Critical <==> value.Some? && !range.Contains(value.value)
    ensures e.status == Optimal <==> value.Some? && range.Contains(value.value) && range.InIdeal(value.value)
    ensures e.score == 0 <==> e.status in {Unknown, Critical}
    ensures e.status == Acceptable ==> 50 <= e.score <= 100
    ensures e.status == Optimal ==> e.score == 100
  {
    if value.None? then Evaluation(Unknown, 0, Unavailable)
    else
      var v := value.value;
      if v < range.min || v > range.max then
        Evaluation(Critical, 0, if v < range.min then TooLow else TooHigh)
      else if range.ideal.Some? then
        var ideal := range.ideal.value;
        if v >= ideal.min && v <= ideal.max then Evaluation(Optimal, 100, IdealConditions)
        else
          var distance := if v < ideal.min then ideal.min - v else v - ideal.max;
          var maxDistance := MaxDistance(range);
          FalloffBounds(distance, maxDistance);
          Evaluation(Acceptable, Falloff(distance, maxDistance), if v < ideal.min then SlightlyLow else SlightlyHigh)
      else Evaluation(Acceptable, 75, WithinRange)
  }

  /** A distance in `(0, maxDistance]` gives a falloff score in `[50, 100]`. */
  lemma FalloffBounds(distance: real, maxDistance: real)
    requires 0.0 < distance <= maxDistance
    ensures 50 <= Falloff(distance, maxDistance) <= 100
  {
    DivideAtMostOne(distance, maxDistance);
  }

  lemma DivideAtMostOne(a: real, b: real)
    requires 0.0 <= a <= b && b > 0.0
    ensures 0.0 <= a / b <= 1.0
  {
  }

  lemma DivideMonotone(a: real, c: real, b: real)
    requires a <= c && b > 0.0
    ensures a / b <= c / b
  {
  }

  /** A null, undefined or NaN reading is unknown with score 0, whatever the range. */
  lemma UnknownReading(range: RangeSpec)
    requires range.Valid()
    ensures Evaluate(None, range) == Evaluation(Unknown, 0, Unavailable)
  {
  }

  /** Outside `[min, max]` the reading is critical with score 0, before any ideal-range logic. */
  lemma OutOfRangeIsCritical(v: real, range: RangeSpec)
    requires range.Valid() && !range.Contains(v)
    ensures Evaluate(Some(v), range) == Evaluation(Critical, 0, if v < range.min then TooLow else TooHigh)
  {
  }

  /** Inside the ideal range the reading is optimal with score exactly 100. */
  lemma IdealIsOptimal(v: real, range: RangeSpec)
    requires range.Valid() && range.InIdeal(v)
    ensures Evaluate(Some(v), range) == Evaluation(Optimal, 100, IdealConditions)
  {
  }

  /**
   * Inside the range but outside the ideal range the reading is acceptable,
   * scored by the linear falloff, and the score lies in `[50, 100]`.
   */
  lemma OutsideIdealFalloff(v: real, range: RangeSpec)
    requires range.Valid() && range.Contains(v) && range.ideal.Some? && !range.InIdeal(v)
    ensures MaxDistance(range) > 0.0
    ensures Evaluate(Some(v), range).status == Acceptable
    ensures Evaluate(Some(v), range).score == Falloff(Distance(v, range), MaxDistance(range))
    ensures 50 <= Evaluate(Some(v), range).score <= 100
    ensures Evaluate(Some(v), range).message == if v < range.ideal.value.min then SlightlyLow else SlightlyHigh
  {
  }

  /** Without an ideal range, a reading inside `[min, max]` is acceptable with score 75. */
  lemma NoIdealScores75(v: real, range: RangeSpec)
    requires range.Valid() && range.Contains(v) && range.ideal.None?
    ensures Evaluate(Some(v), range) == Evaluation(Acceptable, 75, WithinRange)
  {
  }

  /** The score never increases as the distance from the ideal range grows. */
  lemma ScoreNonIncreasing(v1: real, v2: real, range: RangeSpec)
    requires range.Valid() && range.ideal.Some?
    requires range.Contains(v1) && range.Contains(v2)
    requires Distance(v1, range) <= Distance(v2, range)
    ensures Evaluate(Some(v2), range).score <= Evaluate(Some(v1), range).score
  {
    var d1, d2 := Distance(v1, range), Distance(v2, range);
    if d1 > 0.0 {
      DivideMonotone(d1, d2, MaxDistance(range));
    }
  }
}
