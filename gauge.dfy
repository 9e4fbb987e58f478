/**
 * The dashboard gauge: the status that colours a card and the width of its
 * bar, as a percentage of the gauge's `[min, max]`.
 */
module Gauge {
  import opened Wrappers
  import E = ParameterEvaluator

  datatype GaugeStatus = Unknown | Critical | Acceptable | Optimal

  /** The card status; the optimal band counts only when both of its bounds are given. */
  function Status(value: Option<real>, min: real, max: real, optimalMin: Option<real>, optimalMax: Option<real>): (s: GaugeStatus)
    ensures s == Unknown <==> value.None?
    ensures s == Critical <==> value.Some? && (value.value < min || value.value > max)
    ensures s == Optimal <==>
      value.Some? && min <= value.value <= max &&
      optimalMin.Some? && optimalMax.Some? && optimalMin.value <= value.value <= optimalMax.value
  {
    if value.None? then Unknown
    else if value.value < min || value.value > max then Critical
    else if optimalMin.Some? && optimalMax.Some? then
      (if optimalMin.value <= value.value <= optimalMax.value then Optimal else Acceptable)
    else Acceptable
  }

  function FromEvaluator(s: E.Status): GaugeStatus
  {
    match s
    case Unknown => Unknown
    case Critical => Critical
    case Acceptable => Acceptable
    case Optimal => Optimal
  }

  /**
   * A gauge drawn with a parameter's range, and its ideal band as the optimal
   * band, shows the same status as the evaluator gives that reading.
   */
  lemma StatusAgreesWithEvaluator(value: Option<real>, range: E.RangeSpec)
    requires range.Valid()
    ensures Status(value, range.min, range.max,
                   if range.ideal.Some? then Some(range.ideal.value.min) else None,
                   if range.ideal.Some? then Some(range.ideal.value.max) else None)
            == FromEvaluator(E.Evaluate(value, range).status)
  {
  }

  function Clamp(x: real, lo: real, hi: real): real
  {
    if x < lo then lo else if x > hi then hi else x
  }

  /**
   * The bar's fill: the animated value's position in `[min, max]` as a
   * percentage clamped to `[0, 100]`, and 0 until there is a value to show.
   */
  function Percentage(value: Option<real>, animated: Option<real>, min: real, max: real): (p: real)
    requires min != max
    ensures 0.0 <= p <= 100.0
    ensures value.None? || animated.None? ==> p == 0.0
  {
    if value.Some? && animated.Some? then Clamp((animated.value - min) / (max - min) * 100.0, 0.0, 100.0) else 0.0
  }

  /** On an increasing gauge the bar sits empty at `min`, full at `max`, and grows with the value. */
  lemma PercentageMonotone(value: real, a1: real, a2: real, min: real, max: real)
    requires min < max && a1 <= a2
    ensures Percentage(Some(value), Some(min), min, max) == 0.0
    ensures Percentage(Some(value), Some(max), min, max) == 100.0
    ensures Percentage(Some(value), Some(a1), min, max) <= Percentage(Some(value), Some(a2), min, max)
  {
    E.DivideMonotone(a1 - min, a2 - min, max - min);
  }
}
