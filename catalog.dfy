/**
 * The read-only species and plant catalogs of the pond advisor service, in
 * declaration order (the order `Object.entries` visits them).
 */
module Catalog {
  import opened Wrappers

  /** A closed interval `[min, max]`. */
  datatype Band = Band(min: real, max: real)

  /** An interval with an ideal sub-interval that every fish profile declares. */
  datatype IdealBand = IdealBand(min: real, max: real, ideal: Band)

  /** A plant interval; the ideal sub-interval is optional in the source's checks. */
  datatype PlantBand = PlantBand(min: real, max: real, ideal: Option<Band>)

  datatype FishProfile = FishProfile(
    id: string, name: string, basin: nat, count: nat,
    temperature: IdealBand, ph: IdealBand, conductivity: Band)

  /** `lightMin` is the profile's `light.min`; `aquaponie` marks substrate-grown produce. */
  datatype PlantProfile = PlantProfile(
    id: string, name: string, aquaponie: bool,
    temperature: PlantBand, ph: Option<PlantBand>, lightMin: Option<real>)

  function Fish(id: string, name: string, basin: nat, count: nat,
                tMin: real, tMax: real, tiMin: real, tiMax: real,
                pMin: real, pMax: real, piMin: real, piMax: real,
                cMin: real, cMax: real): FishProfile
  {
    FishProfile(id, name, basin, count,
      IdealBand(tMin, tMax, Band(tiMin, tiMax)), IdealBand(pMin, pMax, Band(piMin, piMax)), Band(cMin, cMax))
  }

  function Plant(id: string, name: string, aquaponie: bool,
                 tMin: real, tMax: real, tiMin: real, tiMax: real,
                 pMin: real, pMax: real, piMin: real, piMax: real,
                 light: real): PlantProfile
  {
    PlantProfile(id, name, aquaponie,
      PlantBand(tMin, tMax, Some(Band(tiMin, tiMax))), Some(PlantBand(pMin, pMax, Some(Band(piMin, piMax)))), Some(light))
  }

  const FishSpecies: seq<FishProfile> := [
    Fish("notropisChrosomus", "Notropis chrosomus (Rainbow Shiner)", 1, 5, 10.0, 25.0, 15.0, 22.0, 6.5, 7.5, 6.8, 7.2, 200.0, 1200.0),
    Fish("tanichthysAlbonubes", "Tanichthys albonubes (White Cloud)", 1, 15, 5.0, 25.0, 15.0, 22.0, 6.0, 8.0, 6.5, 7.5, 150.0, 1000.0),
    Fish("medaka", "Medaka clairs (Oryzias latipes)", 1, 12, 5.0, 30.0, 18.0, 25.0, 6.5, 8.0, 7.0, 7.5, 200.0, 1500.0),
    Fish("locheRiviere", "Loche de rivière", 1, 2, 5.0, 22.0, 12.0, 20.0, 6.5, 7.5, 6.8, 7.2, 200.0, 1000.0),
    Fish("koi", "Carpes Koï", 2, 4, 4.0, 30.0, 15.0, 25.0, 6.5, 8.5, 7.0, 7.5, 200.0, 2000.0),
    Fish("carpe", "Carpes communes", 2, 4, 4.0, 30.0, 15.0, 25.0, 6.5, 8.5, 7.0, 7.8, 200.0, 2000.0),
    Fish("comet", "Comètes", 2, 4, 2.0, 30.0, 15.0, 24.0, 6.0, 8.0, 7.0, 7.5, 200.0, 1500.0),
    Fish("shubunkin", "Shubunkins", 2, 2, 2.0, 28.0, 12.0, 22.0, 6.5, 8.0, 7.0, 7.5, 200.0, 1500.0),
    Fish("gardon", "Gardons", 2, 4, 4.0, 28.0, 12.0, 24.0, 6.5, 8.0, 7.0, 7.5, 200.0, 1500.0),
    Fish("neocaridina", "Crevettes Neocaridina", 1, 10, 10.0, 28.0, 18.0, 24.0, 6.5, 8.0, 7.0, 7.5, 150.0, 500.0)
  ]

  const AquaticPlants: seq<PlantProfile> := [
    Plant("nenuphar", "Nénuphar", false, 15.0, 30.0, 18.0, 26.0, 6.5, 7.5, 6.8, 7.2, 4000.0),
    Plant("myriophylleBresil", "Myriophylle du Brésil", false, 10.0, 28.0, 18.0, 25.0, 6.0, 7.5, 6.5, 7.0, 2000.0),
    Plant("ceratophylle", "Cératophylle immergée", false, 5.0, 30.0, 15.0, 25.0, 6.0, 8.0, 6.5, 7.5, 1000.0),
    Plant("marimo", "Boule de mousse Marimo", false, 5.0, 25.0, 15.0, 22.0, 6.0, 8.0, 6.5, 7.5, 500.0),
    Plant("butomus", "Jonc fleuri (Butomus umbellatus)", false, 5.0, 30.0, 15.0, 25.0, 6.0, 8.0, 6.5, 7.5, 3000.0),
    Plant("typha", "Massette (Typha latifolia)", false, 0.0, 35.0, 10.0, 28.0, 5.5, 8.5, 6.0, 7.5, 3000.0),
    Plant("pontederia", "Épiaire (Pontederia cordata)", false, 5.0, 30.0, 15.0, 25.0, 6.0, 8.0, 6.5, 7.5, 4000.0),
    Plant("pontederiaPink", "Épiaire rose (Pontederia cordata Pink Pons)", false, 5.0, 30.0, 15.0, 25.0, 6.0, 8.0, 6.5, 7.5, 4000.0),
    Plant("equisetum", "Prêle du Japon (Equisetum japonicum)", false, -10.0, 30.0, 10.0, 25.0, 5.5, 7.5, 6.0, 7.0, 2000.0),
    Plant("salade", "Laitue", true, 10.0, 25.0, 15.0, 20.0, 6.0, 7.0, 6.0, 6.8, 4000.0),
    Plant("basilic", "Basilic", true, 18.0, 30.0, 20.0, 28.0, 5.5, 6.5, 5.8, 6.5, 5000.0),
    Plant("ciboulette", "Ciboulette", true, 10.0, 25.0, 15.0, 22.0, 6.0, 7.0, 6.0, 6.8, 3000.0),
    Plant("fraise", "Fraisier", true, 12.0, 28.0, 18.0, 24.0, 5.5, 6.5, 5.8, 6.2, 5000.0),
    Plant("epinard", "Épinard", true, 8.0, 22.0, 12.0, 18.0, 6.0, 7.0, 6.0, 6.8, 3000.0),
    Plant("blette", "Blette (Poirée)", true, 10.0, 28.0, 15.0, 24.0, 6.0, 7.0, 6.2, 6.8, 4000.0),
    Plant("tomate", "Tomate cerise", true, 18.0, 30.0, 20.0, 26.0, 5.5, 6.8, 5.8, 6.5, 6000.0),
    Plant("persil", "Persil", true, 10.0, 25.0, 15.0, 22.0, 6.0, 7.0, 6.0, 6.8, 3000.0),
    Plant("chou_kale", "Chou Kale", true, 5.0, 25.0, 10.0, 20.0, 6.0, 7.0, 6.0, 6.8, 4000.0),
    Plant("pak_choi", "Pak Choï", true, 10.0, 25.0, 15.0, 22.0, 6.0, 7.0, 6.0, 6.8, 3000.0),
    Plant("mache", "Mâche", true, 5.0, 20.0, 10.0, 15.0, 6.0, 7.0, 6.0, 6.8, 2000.0),
    Plant("radis", "Radis", true, 8.0, 22.0, 12.0, 18.0, 6.0, 7.0, 6.0, 6.8, 3000.0)
  ]

  predicate WellFormedIdeal(b: IdealBand)
  {
    b.min <= b.ideal.min <= b.ideal.max <= b.max
  }

  /** There are ten fish profiles and each one's ideal ranges lie inside its ranges. */
  lemma FishCatalogWellFormed()
    ensures |FishSpecies| == 10
    ensures forall f <- FishSpecies :: WellFormedIdeal(f.temperature) && WellFormedIdeal(f.ph)
  {
  }

  /** Nine open-water plants come first, then twelve aquaponie plants. */
  lemma PlantCatalogShape()
    ensures |AquaticPlants| == 21
    ensures forall i :: 0 <= i < |AquaticPlants| ==> (AquaticPlants[i].aquaponie <==> i >= 9)
  {
  }
}
