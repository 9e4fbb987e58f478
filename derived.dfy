/**
 * Derived indicators computed from one snapshot: estimated dissolved oxygen,
 * the air's heat index, and the evaporation and algae risk levels.
 */
module DerivedMetrics {
  import opened Wrappers
  import opened Snapshot
  import opened RealArith

  datatype Risk = Low | Moderate | High

  /** Each indicator is absent when a reading it needs is absent, and all are absent without data. */
  datatype Derived = Derived(oxygen: Option<real>, heatIndex: Option<real>, evaporation: Option<Risk>, algae: Option<Risk>)

  /** The service's quadratic approximation of oxygen saturation, in mg/L at sea level. */
  function OxygenSaturation(t: real): real
  {
    14.6 - 0.4 * t + 0.0045 * t * t
  }

  function Max(a: real, b: real): real
  {
    if a < b then b else a
  }

  /** The estimate shown on the dashboard: the saturation, clamped at zero. */
  function EstimatedOxygen(t: real): (r: real)
    ensures r >= 0.0 && r >= OxygenSaturation(t)
    ensures r == 0.0 || r == OxygenSaturation(t)
  {
    Max(0.0, OxygenSaturation(t))
  }

  /**
   * The quadratic never drops below 5.7 mg/L (its minimum, at 400/9 degrees, is
   * 14.6 - 80/9), so the clamp at zero never takes effect.
   */
  lemma OxygenNeverClamped(t: real)
    ensures OxygenSaturation(t) > 5.7
    ensures EstimatedOxygen(t) == OxygenSaturation(t)
  {
    var d := t - 400.0 / 9.0;
    assert OxygenSaturation(t) == 0.0045 * d * d + (14.6 - 80.0 / 9.0);
    assert d * d >= 0.0;
  }

  /** Up to 44 degrees, warmer water is estimated to hold less oxygen. */
  lemma {:induction false} OxygenDecreasing(t1: real, t2: real)
    requires t1 <= t2 <= 44.0
    ensures EstimatedOxygen(t2) <= EstimatedOxygen(t1)
  {
    OxygenNeverClamped(t1);
    OxygenNeverClamped(t2);
    assert OxygenSaturation(t1) - OxygenSaturation(t2) == (t2 - t1) * (0.4 - 0.0045 * (t1 + t2));
    MulNonNegative(t2 - t1, 0.4 - 0.0045 * (t1 + t2));
  }

  /** The feels-like temperature exactly as the service computes it: four terms of the regression. */
  function HeatIndexAsWritten(t: real, rh: real): (r: real)
    ensures t < 27.0 || rh < 40.0 ==> r == t
  {
    if t >= 27.0 && rh >= 40.0 then -8.785 + 1.611 * t + 2.339 * rh - 0.146 * t * rh else t
  }

  /**
   * Wherever the formula applies, the service's feels-like temperature is
   * below zero degrees, and it gets colder as the air gets more humid.
   */
  lemma HeatIndexAsWrittenBelowFreezing(t: real, rh: real)
    requires t >= 27.0 && rh >= 40.0
    ensures HeatIndexAsWritten(t, rh) < 0.0
    ensures forall rh' :: rh < rh' ==> HeatIndexAsWritten(t, rh') < HeatIndexAsWritten(t, rh)
  {
    var a, b := t - 27.0, rh - 40.0;
    assert HeatIndexAsWritten(t, rh) == -29.408 - 4.229 * a - 1.603 * b - 0.146 * a * b;
    assert a * b >= 0.0;
    forall rh' | rh < rh' ensures HeatIndexAsWritten(t, rh') < HeatIndexAsWritten(t, rh) {
      assert HeatIndexAsWritten(t, rh') - HeatIndexAsWritten(t, rh) == (rh' - rh) * (2.339 - 0.146 * t);
      assert (rh' - rh) * (0.146 * t - 2.339) > 0.0;
    }
  }

  /** The full Rothfusz regression in degrees Celsius, which the four terms above are the start of. */
  function HeatIndex(t: real, rh: real): (r: real)
    ensures t < 27.0 || rh < 40.0 ==> r == t
  {
    if t >= 27.0 && rh >= 40.0 then
      -8.78469475556 + 1.61139411 * t + 2.33854883889 * rh - 0.14611605 * t * rh
      - 0.012308094 * t * t - 0.0164248277778 * rh * rh
      + 0.002211732 * t * t * rh + 0.00072546 * t * rh * rh
      - 0.000003582 * t * t * rh * rh
    else t
  }

  /** Outside the regression's domain the feels-like temperature is the air temperature. */
  lemma HeatIndexOutsideDomain(t: real, rh: real)
    requires t < 27.0 || rh < 40.0
    ensures HeatIndex(t, rh) == t && HeatIndexAsWritten(t, rh) == t
  {
  }

  /**
   * The full regression agrees with the usual heat-index table: about 27 °C at
   * 27 °C and 40 %, about 33 °C at 30 °C and 60 %, about 45 °C at 35 °C and 60 %.
   */
  lemma HeatIndexReferencePoints()
    ensures 26.5 < HeatIndex(27.0, 40.0) < 27.5
    ensures 32.5 < HeatIndex(30.0, 60.0) < 33.5
    ensures 44.5 < HeatIndex(35.0, 60.0) < 45.5
  {
  }

  /** High when the water is warmer than the air and the air is dry; moderate when either holds loosely. */
  function EvaporationRisk(water: real, air: real, humidity: real): (r: Risk)
    ensures r == Low <==> water <= air && humidity >= 60.0
    ensures r == High <==> water > air && humidity < 50.0
  {
    if water > air && humidity < 50.0 then High
    else if water > air || humidity < 60.0 then Moderate
    else Low
  }

  /** High above 25 degrees and 8000 lux, moderate above 20 degrees and 5000 lux. */
  function AlgaeRisk(temp: real, light: real): (r: Risk)
    ensures r == High <==> temp > 25.0 && light > 8000.0
    ensures r == Low <==> temp <= 20.0 || light <= 5000.0
  {
    if temp > 25.0 && light > 8000.0 then High
    else if temp > 20.0 && light > 5000.0 then Moderate
    else Low
  }

  function RiskLevel(r: Risk): nat
  {
    match r
    case Low => 0
    case Moderate => 1
    case High => 2
  }

  /** Warmer water or more light never lowers the algae risk. */
  lemma AlgaeRiskMonotone(t1: real, l1: real, t2: real, l2: real)
    requires t1 <= t2 && l1 <= l2
    ensures RiskLevel(AlgaeRisk(t1, l1)) <= RiskLevel(AlgaeRisk(t2, l2))
  {
  }

  /** Warmer water, colder air or drier air never lowers the evaporation risk. */
  lemma EvaporationRiskMonotone(w1: real, a1: real, h1: real, w2: real, a2: real, h2: real)
    requires w1 <= w2 && a2 <= a1 && h2 <= h1
    ensures RiskLevel(EvaporationRisk(w1, a1, h1)) <= RiskLevel(EvaporationRisk(w2, a2, h2))
  {
  }

  /**
   * The derived indicators of a snapshot, or none without one. Each indicator
   * is present exactly when the readings it needs are known, and then holds
   * its formula applied to them; the heat index is the shipped four-term one.
   */
  function GetDerivedData(data: Option<PondSnapshot>): (d: Derived)
    ensures data.None? ==> d == Derived(None, None, None, None)
    ensures data.Some? ==> (d.oxygen.Some? <==> WaterTemperature(data.value).Some?)
    ensures data.Some? ==> (d.heatIndex.Some? <==> AirTemperature(data.value).Some? && AirHumidity(data.value).Some?)
    ensures data.Some? ==> (d.evaporation.Some? <==>
      WaterTemperature(data.value).Some? && AirTemperature(data.value).Some? && AirHumidity(data.value).Some?)
    ensures data.Some? ==> (d.algae.Some? <==> WaterTemperature(data.value).Some? && LightLevel(data.value).Some?)
    ensures d.oxygen.Some? ==> d.oxygen.value == EstimatedOxygen(WaterTemperature(data.value).value) && d.oxygen.value > 5.7
    ensures d.heatIndex.Some? ==>
      d.heatIndex.value == HeatIndexAsWritten(AirTemperature(data.value).value, AirHumidity(data.value).value)
    ensures d.evaporation.Some? ==>
      d.evaporation.value == EvaporationRisk(WaterTemperature(data.value).value, AirTemperature(data.value).value, AirHumidity(data.value).value)
    ensures d.algae.Some? ==> d.algae.value == AlgaeRisk(WaterTemperature(data.value).value, LightLevel(data.value).value)
  {
    if data.None? then Derived(None, None, None, None)
    else
      var s := data.value;
      var temp, air, humidity, light := WaterTemperature(s), AirTemperature(s), AirHumidity(s), LightLevel(s);
      var oxygen := if temp.Some? then (OxygenNeverClamped(temp.value); Some(EstimatedOxygen(temp.value))) else None;
      Derived(
        oxygen,
        if air.Some? && humidity.Some? then Some(HeatIndexAsWritten(air.value, humidity.value)) else None,
        if temp.Some? && air.Some? && humidity.Some? then Some(EvaporationRisk(temp.value, air.value, humidity.value)) else None,
        if temp.Some? && light.Some? then Some(AlgaeRisk(temp.value, light.value)) else None)
  }

  /**
   * The dashboard's feels-like value is the air temperature itself, or a value
   * below zero degrees: it never shows a heat index above the air temperature.
   */
  lemma ShownHeatIndex(s: PondSnapshot)
    requires AirTemperature(s).Some? && AirHumidity(s).Some?
    ensures var h := GetDerivedData(Some(s)).heatIndex.value;
      h == AirTemperature(s).value || h < 0.0
  {
    var t, rh := AirTemperature(s).value, AirHumidity(s).value;
    if t >= 27.0 && rh >= 40.0 {
      HeatIndexAsWrittenBelowFreezing(t, rh);
    }
  }
}
