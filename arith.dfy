/** A fact about real products that the solver does not find unaided: a step of `DerivedMetrics.OxygenDecreasing` and `Firmware.MapFloatAffine`. */
module RealArith {
  lemma MulNonNegative(x: real, y: real)
    requires x >= 0.0 && y >= 0.0
    ensures x * y >= 0.0
  {
  }
}
