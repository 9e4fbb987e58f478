/**
 * Species and plant compatibility: each catalog entry is checked against the
 * water temperature, pH, conductivity and light readings, then the list is
 * ranked with the shared comparator of the `Ranking` module.
 */
module Compatibility {
  import opened Wrappers
  import opened Snapshot
  import opened Catalog
  import opened Ranking

  /** The verdict being built: the `compatible`/`suitable` flag, the comfort and the notes. */
  datatype Verdict = Verdict(suitable: bool, comfort: Comfort, notes: seq<Note>)

  /** The verdict every entry starts from. */
  const Fresh: Verdict := Verdict(true, Optimal, [])

  predicate Outside(v: real, min: real, max: real)
  {
    v < min || v > max
  }

  /** An absent reading, or one within `[min, max]`, does not make an entry unsuitable. */
  predicate Admits(r: Reading, min: real, max: real)
  {
    r.None? || !Outside(r.value, min, max)
  }

  // ---------------------------------------------------------------- fish

  /** The temperature check of the fish list. */
  function FishTemperatureStep(v: Verdict, b: IdealBand, temp: Reading): Verdict
  {
    if temp.None? then v
    else if Outside(temp.value, b.min, b.max) then
      v.(suitable := false, notes := v.notes + [TemperatureOutOfRange(b.min, b.max)])
    else if Outside(temp.value, b.ideal.min, b.ideal.max) then
      v.(comfort := Acceptable, notes := v.notes + [TemperatureNotIdeal])
    else v
  }

  /** The pH check of the fish list; skipped once the entry is incompatible. */
  function FishPhStep(v: Verdict, b: IdealBand, ph: Reading): Verdict
  {
    if ph.None? || !v.suitable then v
    else if Outside(ph.value, b.min, b.max) then
      v.(suitable := false, notes := v.notes + [PhOutOfRange(b.min, b.max)])
    else if Outside(ph.value, b.ideal.min, b.ideal.max) then
      v.(comfort := Acceptable)
    else v
  }

  /** The conductivity check of the fish list; skipped once the entry is incompatible. */
  function FishConductivityStep(v: Verdict, b: Band, ec: Reading): Verdict
  {
    if ec.None? || !v.suitable then v
    else if Outside(ec.value, b.min, b.max) then
      v.(suitable := false, notes := v.notes + [ConductivityUnsuitable])
    else v
  }

  /** A known reading inside `[min, max]` but outside the ideal sub-range. */
  predicate NotIdeal(r: Reading, b: IdealBand)
  {
    r.Some? && !Outside(r.value, b.min, b.max) && Outside(r.value, b.ideal.min, b.ideal.max)
  }

  /** The verdict on one species for the given water readings. */
  function EvaluateFish(fish: FishProfile, temp: Reading, ph: Reading, ec: Reading): (r: Recommendation<FishProfile>)
    ensures r.profile == fish
    ensures r.suitable <==>
      Admits(temp, fish.temperature.min, fish.temperature.max) &&
      Admits(ph, fish.ph.min, fish.ph.max) &&
      Admits(ec, fish.conductivity.min, fish.conductivity.max)
    ensures r.comfort == Acceptable <==>
      NotIdeal(temp, fish.temperature) ||
      (Admits(temp, fish.temperature.min, fish.temperature.max) && NotIdeal(ph, fish.ph))
    ensures !Admits(temp, fish.temperature.min, fish.temperature.max) ==>
      r.comfort == Optimal && r.notes == [TemperatureOutOfRange(fish.temperature.min, fish.temperature.max)]
    ensures TemperatureNotIdeal in r.notes <==> NotIdeal(temp, fish.temperature)
    ensures ConductivityUnsuitable in r.notes <==>
      Admits(temp, fish.temperature.min, fish.temperature.max) &&
      Admits(ph, fish.ph.min, fish.ph.max) &&
      !Admits(ec, fish.conductivity.min, fish.conductivity.max)
    ensures |r.notes| <= 2
  {
    var v := FishConductivityStep(FishPhStep(FishTemperatureStep(Fresh, fish.temperature, temp), fish.ph, ph), fish.conductivity, ec);
    Recommendation(fish, v.suitable, v.comfort, v.notes)
  }

  /** Every species of the catalog evaluated, in catalog order. */
  function EvaluatedFish(temp: Reading, ph: Reading, ec: Reading): seq<Recommendation<FishProfile>>
  {
    seq(|FishSpecies|, i requires 0 <= i < |FishSpecies| => EvaluateFish(FishSpecies[i], temp, ph, ec))
  }

  /**
   * The fish list: no list without data, otherwise one verdict per species,
   * ranked suitable before unsuitable and optimal before acceptable, stably.
   */
  method FishRecommendations(data: Option<PondSnapshot>) returns (recs: seq<Recommendation<FishProfile>>)
    ensures data.None? ==> recs == []
    ensures data.Some? ==>
      var evaluations := EvaluatedFish(WaterTemperature(data.value), WaterPh(data.value), WaterConductivity(data.value));
      && recs == Rank(evaluations)
      && |recs| == |FishSpecies|
      && multiset(recs) == multiset(evaluations)
      && SortedByCompare(recs)
      && (forall g :: InGroup(recs, g) == InGroup(evaluations, g))
  {
    if data.None? {
      return [];
    }
    var temp, ph, ec := WaterTemperature(data.value), WaterPh(data.value), WaterConductivity(data.value);
    var evaluations: seq<Recommendation<FishProfile>> := [];
    for i := 0 to |FishSpecies|
      invariant |evaluations| == i
      invariant forall j :: 0 <= j < i ==> evaluations[j] == EvaluateFish(FishSpecies[j], temp, ph, ec)
    {
      evaluations := evaluations + [EvaluateFish(FishSpecies[i], temp, ph, ec)];
    }
    assert evaluations == EvaluatedFish(temp, ph, ec);
    recs := Rank(evaluations);
    RankPermutation(evaluations);
    assert |recs| == |multiset(recs)| == |multiset(evaluations)| == |evaluations|;
    RankSorted(evaluations);
    forall g ensures InGroup(recs, g) == InGroup(evaluations, g) {
      RankStable(evaluations, g);
    }
  }

  // ---------------------------------------------------------------- plants

  predicate PlantAdmits(r: Reading, b: PlantBand)
  {
    Admits(r, b.min, b.max)
  }

  predicate PlantNotIdeal(r: Reading, b: PlantBand)
  {
    r.Some? && !Outside(r.value, b.min, b.max) && b.ideal.Some? && Outside(r.value, b.ideal.value.min, b.ideal.value.max)
  }

  /** The temperature check of the plant lists; an ideal range is optional. */
  function PlantTemperatureStep(v: Verdict, b: PlantBand, temp: Reading): Verdict
  {
    if temp.None? then v
    else if Outside(temp.value, b.min, b.max) then
      v.(suitable := false, notes := v.notes + [TemperatureOutOfRange(b.min, b.max)])
    else if b.ideal.Some? && Outside(temp.value, b.ideal.value.min, b.ideal.value.max) then
      v.(comfort := Acceptable, notes := v.notes + [TemperatureNotIdeal])
    else v
  }

  /** The pH check of the plant lists: made whenever the plant has a pH range, suitable or not. */
  function PlantPhStep(v: Verdict, b: Option<PlantBand>, ph: Reading): Verdict
  {
    if ph.None? || b.None? then v
    else if Outside(ph.value, b.value.min, b.value.max) then
      v.(suitable := false, notes := v.notes + [PhOutOfRange(b.value.min, b.value.max)])
    else if b.value.ideal.Some? && Outside(ph.value, b.value.ideal.value.min, b.value.ideal.value.max) then
      v.(comfort := Acceptable)
    else v
  }

  /** The light gate is open when asked for, with a known level and a non-zero minimum. */
  predicate LightChecked(plant: PlantProfile, light: Reading, checkLight: bool)
  {
    checkLight && light.Some? && plant.lightMin.Some? && plant.lightMin.value != 0.0
  }

  predicate LightShort(plant: PlantProfile, light: Reading, checkLight: bool)
  {
    LightChecked(plant, light, checkLight) && light.value < plant.lightMin.value
  }

  /** The optional light check. */
  function LightStep(v: Verdict, plant: PlantProfile, light: Reading, checkLight: bool): Verdict
  {
    if LightShort(plant, light, checkLight) then
      v.(suitable := false, notes := v.notes + [LightInsufficient(plant.lightMin.value)])
    else v
  }

  /** The verdict on one plant; `checkLight` is the optional argument that defaults to false. */
  function EvaluatePlant(plant: PlantProfile, temp: Reading, ph: Reading, light: Reading, checkLight: bool): (r: Recommendation<PlantProfile>)
    ensures r.profile == plant
    ensures r.suitable <==>
      PlantAdmits(temp, plant.temperature) &&
      (plant.ph.None? || PlantAdmits(ph, plant.ph.value)) &&
      !LightShort(plant, light, checkLight)
    ensures r.comfort == Acceptable <==>
      PlantNotIdeal(temp, plant.temperature) || (plant.ph.Some? && PlantNotIdeal(ph, plant.ph.value))
    ensures plant.ph.Some? && !PlantAdmits(ph, plant.ph.value) ==>
      PhOutOfRange(plant.ph.value.min, plant.ph.value.max) in r.notes
    ensures LightShort(plant, light, checkLight) <==>
      plant.lightMin.Some? && LightInsufficient(plant.lightMin.value) in r.notes
    ensures |r.notes| <= 3
  {
    var v := LightStep(PlantPhStep(PlantTemperatureStep(Fresh, plant.temperature, temp), plant.ph, ph), plant, light, checkLight);
    Recommendation(plant, v.suitable, v.comfort, v.notes)
  }

  /** When the light gate is open, a level below the plant's minimum makes it unsuitable. */
  lemma LightGate(plant: PlantProfile, temp: Reading, ph: Reading, light: Reading)
    requires light.Some? && plant.lightMin.Some? && 0.0 < plant.lightMin.value
    requires light.value < plant.lightMin.value
    ensures !EvaluatePlant(plant, temp, ph, light, true).suitable
    ensures LightInsufficient(plant.lightMin.value) in EvaluatePlant(plant, temp, ph, light, true).notes
  {
  }

  /** Without `checkLight` the light level has no influence on the verdict. */
  lemma LightIgnored(plant: PlantProfile, temp: Reading, ph: Reading, light1: Reading, light2: Reading)
    ensures EvaluatePlant(plant, temp, ph, light1, false) == EvaluatePlant(plant, temp, ph, light2, false)
  {
  }

  /** The catalog entries with the given `aquaponie` flag, in catalog order. */
  function Select(ps: seq<PlantProfile>, aquaponie: bool): (r: seq<PlantProfile>)
    ensures |r| <= |ps|
  {
    if ps == [] then []
    else Select(ps[..|ps| - 1], aquaponie) + (if ps[|ps| - 1].aquaponie == aquaponie then [ps[|ps| - 1]] else [])
  }

  /** What is selected is in the catalog and has the requested flag. */
  lemma {:induction false} SelectMembers(ps: seq<PlantProfile>, aquaponie: bool)
    ensures forall p <- Select(ps, aquaponie) :: p in ps && p.aquaponie == aquaponie
  {
    if ps != [] {
      SelectMembers(ps[..|ps| - 1], aquaponie);
      assert ps == ps[..|ps| - 1] + [ps[|ps| - 1]];
    }
  }

  /** The two selections split the catalog: every plant is in exactly one of them. */
  lemma {:induction false} SelectPartition(ps: seq<PlantProfile>)
    ensures multiset(Select(ps, false)) + multiset(Select(ps, true)) == multiset(ps)
  {
    if ps != [] {
      SelectPartition(ps[..|ps| - 1]);
      assert ps == ps[..|ps| - 1] + [ps[|ps| - 1]];
    }
  }

  /** Each selected plant evaluated without the light check, in selection order. */
  function EvaluatePlants(ps: seq<PlantProfile>, temp: Reading, ph: Reading, light: Reading): seq<Recommendation<PlantProfile>>
  {
    seq(|ps|, i requires 0 <= i < |ps| => EvaluatePlant(ps[i], temp, ph, light, false))
  }

  function PlantList(data: Option<PondSnapshot>, aquaponie: bool): seq<Recommendation<PlantProfile>>
  {
    if data.None? then []
    else Rank(EvaluatePlants(Select(AquaticPlants, aquaponie), WaterTemperature(data.value), WaterPh(data.value), LightLevel(data.value)))
  }

  /** The pond plant list: the plants without the `aquaponie` flag. */
  function PlantRecommendations(data: Option<PondSnapshot>): (r: seq<Recommendation<PlantProfile>>)
    ensures |r| == if data.None? then 0 else 9
    ensures forall e <- r :: e.profile in AquaticPlants && !e.profile.aquaponie
    ensures SortedByCompare(r)
  {
    PlantListProperties(data, false);
    PlantListMembers(data, false);
    if data.Some? then PlantListSizes(data.value); PlantList(data, false) else PlantList(data, false)
  }

  /** The aquaponie plant list: the plants with the `aquaponie` flag. */
  function AquaponieRecommendations(data: Option<PondSnapshot>): (r: seq<Recommendation<PlantProfile>>)
    ensures |r| == if data.None? then 0 else 12
    ensures forall e <- r :: e.profile in AquaticPlants && e.profile.aquaponie
    ensures SortedByCompare(r)
  {
    PlantListProperties(data, true);
    PlantListMembers(data, true);
    if data.Some? then PlantListSizes(data.value); PlantList(data, true) else PlantList(data, true)
  }

  /** The verdicts a plant list ranks: one per plant with the requested flag, in catalog order. */
  function PlantEvaluations(s: PondSnapshot, aquaponie: bool): seq<Recommendation<PlantProfile>>
  {
    EvaluatePlants(Select(AquaticPlants, aquaponie), WaterTemperature(s), WaterPh(s), LightLevel(s))
  }

  /**
   * A plant list is empty without data; with data it is a permutation of its
   * verdicts, ranked like the fish list.
   */
  lemma PlantListProperties(data: Option<PondSnapshot>, aquaponie: bool)
    ensures data.None? ==> PlantList(data, aquaponie) == []
    ensures data.Some? ==>
      && multiset(PlantList(data, aquaponie)) == multiset(PlantEvaluations(data.value, aquaponie))
      && SortedByCompare(PlantList(data, aquaponie))
      && (forall g :: InGroup(PlantList(data, aquaponie), g) == InGroup(PlantEvaluations(data.value, aquaponie), g))
  {
    if data.Some? {
      var evaluations := PlantEvaluations(data.value, aquaponie);
      assert PlantList(data, aquaponie) == Rank(evaluations);
      RankPermutation(evaluations);
      RankSorted(evaluations);
      forall g ensures InGroup(Rank(evaluations), g) == InGroup(evaluations, g) {
        RankStable(evaluations, g);
      }
    }
  }

  /** Each verdict of a batch is about one of the plants evaluated. */
  lemma VerdictsAbout(ps: seq<PlantProfile>, temp: Reading, ph: Reading, light: Reading)
    ensures forall r: Recommendation<PlantProfile> | r in multiset(EvaluatePlants(ps, temp, ph, light)) :: r.profile in ps
  {
    var evaluations := EvaluatePlants(ps, temp, ph, light);
    forall r: Recommendation<PlantProfile> | r in multiset(evaluations) ensures r.profile in ps {
      var i :| 0 <= i < |evaluations| && evaluations[i] == r;
      assert ps[i] in ps;
    }
  }

  /** Every entry of a plant list is a catalog plant with the requested flag. */
  lemma PlantListMembers(data: Option<PondSnapshot>, aquaponie: bool)
    ensures forall r <- PlantList(data, aquaponie) :: r.profile in AquaticPlants && r.profile.aquaponie == aquaponie
  {
    if data.Some? {
      var ps := Select(AquaticPlants, aquaponie);
      var evaluations := PlantEvaluations(data.value, aquaponie);
      var list := PlantList(data, aquaponie);
      assert list == Rank(evaluations);
      RankPermutation(evaluations);
      VerdictsAbout(ps, WaterTemperature(data.value), WaterPh(data.value), LightLevel(data.value));
      SelectMembers(AquaticPlants, aquaponie);
      forall r <- list ensures r.profile in AquaticPlants && r.profile.aquaponie == aquaponie {
        assert r in multiset(list);
        assert r.profile in ps;
      }
    }
  }

  /** The light level of a snapshot changes neither plant list. */
  lemma PlantListsIgnoreLight(s: PondSnapshot, light: Group)
    ensures PlantRecommendations(Some(s)) == PlantRecommendations(Some(s.(light := light)))
    ensures AquaponieRecommendations(Some(s)) == AquaponieRecommendations(Some(s.(light := light)))
  {
    var t := s.(light := light);
    forall aquaponie: bool ensures PlantList(Some(s), aquaponie) == PlantList(Some(t), aquaponie) {
      var ps := Select(AquaticPlants, aquaponie);
      var e1 := EvaluatePlants(ps, WaterTemperature(s), WaterPh(s), LightLevel(s));
      var e2 := EvaluatePlants(ps, WaterTemperature(t), WaterPh(t), LightLevel(t));
      forall i | 0 <= i < |ps| ensures e1[i] == e2[i] {
        LightIgnored(ps[i], WaterTemperature(s), WaterPh(s), LightLevel(s), LightLevel(t));
      }
      assert e1 == e2;
    }
  }

  /** The pond list covers the nine open-water plants and the aquaponie list the twelve others. */
  lemma PlantListSizes(s: PondSnapshot)
    ensures |PlantList(Some(s), false)| == 9
    ensures |PlantList(Some(s), true)| == 12
  {
    PlantCatalogShape();
    SelectSplit(AquaticPlants, 9);
    var water, aquaponie := Select(AquaticPlants, false), Select(AquaticPlants, true);
    var t, p, l := WaterTemperature(s), WaterPh(s), LightLevel(s);
    RankPermutation(EvaluatePlants(water, t, p, l));
    RankPermutation(EvaluatePlants(aquaponie, t, p, l));
    assert |PlantList(Some(s), false)| == |multiset(EvaluatePlants(water, t, p, l))|;
    assert |PlantList(Some(s), true)| == |multiset(EvaluatePlants(aquaponie, t, p, l))|;
  }

  /** When the flag is false exactly on the first `k` entries, the selections are the two slices. */
  lemma SelectSplit(ps: seq<PlantProfile>, k: nat)
    requires k <= |ps|
    requires forall i :: 0 <= i < |ps| ==> (ps[i].aquaponie <==> i >= k)
    ensures Select(ps, false) == ps[..k]
    ensures Select(ps, true) == ps[k..]
  {
    var front, back := ps[..k], ps[k..];
    assert ps == front + back;
    SelectConcat(front, back, false);
    SelectConcat(front, back, true);
    SelectUniform(front, false);
    SelectUniform(back, true);
  }

  /** Selecting from a concatenation selects from each part. */
  lemma {:induction false} SelectConcat(a: seq<PlantProfile>, b: seq<PlantProfile>, aquaponie: bool)
    ensures Select(a + b, aquaponie) == Select(a, aquaponie) + Select(b, aquaponie)
  {
    if b == [] {
      assert a + b == a;
    } else {
      var b', x := b[..|b| - 1], b[|b| - 1];
      assert (a + b)[..|a + b| - 1] == a + b';
      SelectConcat(a, b', aquaponie);
    }
  }

  /** A run of entries with one flag value is selected whole by that value and not at all by the other. */
  lemma {:induction false} SelectUniform(ps: seq<PlantProfile>, aquaponie: bool)
    requires forall i :: 0 <= i < |ps| ==> ps[i].aquaponie == aquaponie
    ensures Select(ps, aquaponie) == ps
    ensures Select(ps, !aquaponie) == []
  {
    if ps != [] {
      SelectUniform(ps[..|ps| - 1], aquaponie);
    }
  }
}
