/**
 * The overall pond health score (`getPondHealthScore`): the water temperature,
 * pH and conductivity readings that are known are evaluated against the shipped
 * ranges, their scores averaged, and a status chosen from the evaluations.
 */
module HealthScore {
  import opened Wrappers
  import opened Snapshot
  import opened ParameterEvaluator

  datatype HealthStatus = HealthUnknown | HealthCritical | HealthWarning | HealthAcceptable | HealthOptimal

  datatype Health = Health(score: int, status: HealthStatus)

  /** The evaluation of one reading, or nothing when the reading is unknown. */
  function EvaluateKnown(r: Reading, range: RangeSpec): seq<Evaluation>
    requires range.Valid()
  {
    if r.Some? then [Evaluate(r, range)] else []
  }

  /** The evaluations pushed, in order: temperature, pH, conductivity. */
  function Evaluations(water: Group): (es: seq<Evaluation>)
    ensures |es| == (if Get(water, Temperature).Some? then 1 else 0)
                  + (if Get(water, Ph).Some? then 1 else 0)
                  + (if Get(water, Conductivity).Some? then 1 else 0)
    ensures forall e <- es :: e.status != Unknown
  {
    EvaluateKnown(Get(water, Temperature), TemperatureRange)
    + EvaluateKnown(Get(water, Ph), PhRange)
    + EvaluateKnown(Get(water, Conductivity), ConductivityRange)
  }

  function SumScores(es: seq<Evaluation>): int
  {
    if es == [] then 0 else SumScores(es[..|es| - 1]) + es[|es| - 1].score
  }

  lemma SumScoresOfThree(a: Evaluation, b: Evaluation, c: Evaluation)
    ensures SumScores([a]) == a.score
    ensures SumScores([a, b, c]) == a.score + b.score + c.score
  {
    assert [a, b, c][..2] == [a, b];
    assert [a, b][..1] == [a];
    assert [a][..0] == [];
  }

  /** Scores in `[lo, 100]` sum to a value in `[lo * n, 100 * n]`. */
  lemma {:induction false} SumScoresBounds(es: seq<Evaluation>, lo: int)
    requires forall e <- es :: lo <= e.score <= 100
    ensures lo * |es| <= SumScores(es) <= 100 * |es|
  {
    if es != [] {
      SumScoresBounds(es[..|es| - 1], lo);
    }
  }

  function Mean(es: seq<Evaluation>): real
    requires |es| > 0
  {
    SumScores(es) as real / |es| as real
  }

  predicate AnyCritical(es: seq<Evaluation>)
  {
    exists e <- es :: e.status == Critical
  }

  /** Some known water reading lies outside its shipped range. */
  predicate SomeReadingOutOfRange(water: Group)
  {
    || (Get(water, Temperature).Some? && !TemperatureRange.Contains(Get(water, Temperature).value))
    || (Get(water, Ph).Some? && !PhRange.Contains(Get(water, Ph).value))
    || (Get(water, Conductivity).Some? && !ConductivityRange.Contains(Get(water, Conductivity).value))
  }

  lemma MeanBounds(es: seq<Evaluation>, lo: int)
    requires |es| > 0
    requires 0 <= lo && forall e <- es :: lo <= e.score <= 100
    ensures lo as real <= Mean(es) <= 100.0
  {
    SumScoresBounds(es, lo);
    QuotientBetween(SumScores(es), |es|, lo, 100);
  }

  lemma QuotientBetween(s: int, n: int, lo: int, hi: int)
    requires n > 0 && lo * n <= s <= hi * n
    ensures lo as real <= s as real / n as real <= hi as real
  {
    var q := s as real / n as real;
    assert q * n as real == s as real;
    assert (lo * n) as real == lo as real * n as real;
    assert (hi * n) as real == hi as real * n as real;
    CancelFactor(lo as real, q, n as real);
    CancelFactor(q, hi as real, n as real);
  }

  lemma CancelFactor(x: real, y: real, n: real)
    requires n > 0.0 && x * n <= y * n
    ensures x <= y
  {
  }

  lemma CriticalIffOutOfRange(water: Group)
    ensures AnyCritical(Evaluations(water)) <==> SomeReadingOutOfRange(water)
  {
    var t := EvaluateKnown(Get(water, Temperature), TemperatureRange);
    var p := EvaluateKnown(Get(water, Ph), PhRange);
    var c := EvaluateKnown(Get(water, Conductivity), ConductivityRange);
    assert Evaluations(water) == t + p + c;
    assert AnyCritical(t + p + c) <==> AnyCritical(t) || AnyCritical(p) || AnyCritical(c);
  }

  function PondHealth(data: Option<PondSnapshot>): (h: Health)
    ensures 0 <= h.score <= 100
    ensures h.status == HealthUnknown <==> data.None? || Evaluations(data.value.water) == []
    ensures h.status == HealthUnknown ==> h.score == 0
    ensures data.Some? && Evaluations(data.value.water) != [] ==>
      var es := Evaluations(data.value.water);
      && h.score == Round(Mean(es))
      && (h.status == HealthCritical <==> SomeReadingOutOfRange(data.value.water))
      && (h.status == HealthWarning <==> !SomeReadingOutOfRange(data.value.water) && Mean(es) < 70.0)
      && (h.status == HealthAcceptable <==> !SomeReadingOutOfRange(data.value.water) && 70.0 <= Mean(es) < 90.0)
      && (h.status == HealthOptimal <==> !SomeReadingOutOfRange(data.value.water) && 90.0 <= Mean(es))
  {
    if data.None? then Health(0, HealthUnknown)
    else
      var es := Evaluations(data.value.water);
      if |es| == 0 then Health(0, HealthUnknown)
      else
        var avg := Mean(es);
        MeanBounds(es, 0);
        CriticalIffOutOfRange(data.value.water);
        var status :=
          if AnyCritical(es) then HealthCritical
          else if avg < 70.0 then HealthWarning
          else if avg < 90.0 then HealthAcceptable
          else HealthOptimal;
        Health(Round(avg), status)
  }

  /** Without a critical evaluation every score is at least 50, and so is the health score. */
  lemma NonCriticalScoreAtLeast50(data: PondSnapshot)
    requires Evaluations(data.water) != []
    requires !SomeReadingOutOfRange(data.water)
    ensures PondHealth(Some(data)).score >= 50
  {
    var es := Evaluations(data.water);
    CriticalIffOutOfRange(data.water);
    forall e <- es ensures 50 <= e.score <= 100 {
      assert e.status != Critical && e.status != Unknown;
    }
    MeanBounds(es, 50);
  }

  /** Water at 20 °C, pH 7.0 and 800 µS/cm scores 100 and is optimal. */
  lemma AllIdealScenario()
    ensures PondHealth(Some(PondSnapshot(map[Temperature := Some(20.0), Ph := Some(7.0), Conductivity := Some(800.0)], map[], map[], "")))
         == Health(100, HealthOptimal)
  {
    var w := map[Temperature := Some(20.0), Ph := Some(7.0), Conductivity := Some(800.0)];
    assert Get(w, Temperature) == Some(20.0) && Get(w, Ph) == Some(7.0) && Get(w, Conductivity) == Some(800.0);
    var ideal := Evaluation(Optimal, 100, IdealConditions);
    assert Evaluations(w) == [ideal, ideal, ideal];
    SumScoresOfThree(ideal, ideal, ideal);
  }

  /** Water at 5 °C with pH and conductivity unknown gives one critical evaluation: score 0, critical. */
  lemma ColdOnlyScenario()
    ensures PondHealth(Some(PondSnapshot(map[Temperature := Some(5.0), Ph := None, Conductivity := None], map[], map[], "")))
         == Health(0, HealthCritical)
  {
    var w := map[Temperature := Some(5.0), Ph := None, Conductivity := None];
    assert Get(w, Temperature) == Some(5.0) && Get(w, Ph) == None && Get(w, Conductivity) == None;
    assert Evaluations(w) == [Evaluation(Critical, 0, TooLow)];
    SumScoresOfThree(Evaluation(Critical, 0, TooLow), Evaluation(Critical, 0, TooLow), Evaluation(Critical, 0, TooLow));
  }

  /**
   * The status bands apply to the unrounded mean, so a reported score of 90 can carry the
   * status acceptable: 100 + 100 + 69 averages 89.67.
   */
  lemma RoundedScoreAboveBand()
    ensures PondHealth(Some(PondSnapshot(map[Temperature := Some(20.0), Ph := Some(7.0), Conductivity := Some(1810.0)], map[], map[], "")))
         == Health(90, HealthAcceptable)
  {
    var w := map[Temperature := Some(20.0), Ph := Some(7.0), Conductivity := Some(1810.0)];
    assert Get(w, Temperature) == Some(20.0) && Get(w, Ph) == Some(7.0) && Get(w, Conductivity) == Some(1810.0);
    assert Evaluate(Some(1810.0), ConductivityRange).score == 69;
    var ideal := Evaluation(Optimal, 100, IdealConditions);
    assert Evaluations(w) == [ideal, ideal, Evaluation(Acceptable, 69, SlightlyHigh)];
    SumScoresOfThree(ideal, ideal, Evaluation(Acceptable, 69, SlightlyHigh));
    assert Mean(Evaluations(w)) == 269.0 / 3.0;
  }
}
