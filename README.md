# Pond advisor and sensor ingest — a Dafny model

This project models the decision logic of the signalk-esp-pond-sensor dashboard and firmware. An ESP32 publishes pond readings to a SignalK server: water temperature, pH, conductivity and level, light level, and air temperature, humidity and pressure. The web dashboard polls them into a *snapshot* and merges each poll into the previous one. From the snapshot it derives:

- a health score and status;
- ranked fish, pond-plant and aquaponie-plant lists;
- an ordered list of advice cards;
- derived indicators: oxygen, heat index, evaporation risk and algae risk.

It also colours gauges and a water-level card. The firmware's small display helpers are included too.

Readings are `Option<real>`: `None` stands for null, undefined or NaN. A snapshot group is a `map<string, Option<real>>`; a key that is absent reads as `None`. Catalogs are sequences in declaration order, which is the order `Object.entries` visits them.

The modules follow the source files:

- **`ParameterEvaluator`, `HealthScore`**: `evaluateParameter` and `getPondHealthScore`.
- **`Catalog`**: the fish and plant tables.
- **`Ranking`**: the shared sort comparator and the stable sort it induces, defined as four groups concatenated.
- **`Compatibility`**: the fish and plant lists. The fish list is a loop method; the plant lists are filter, map and sort.
- **`Advice`**: `getAdvice`.
- **`DerivedMetrics`**: `getDerivedData`.
- **`PondData`**: the `usePondData` hook. It has a loop method for the merge and a class for the hook's state.
- **`SignalK`**: `signalkService.js`. It has a loop method for the REST poll and nested loops for the delta updates.
- **`Gauge`, `WaterLevel`**: the two card components.
- **`Firmware`**: the helpers in `sample.c`.

The code behaves as follows in places a reader might not expect:

- The ranking comparator also orders *unsuitable* entries by comfort. The result is four stable groups, not three.
- A plant can be unsuitable and of acceptable comfort at once, because its pH check runs even after a temperature failure.
- The plant light check is never enabled by either caller. The light level therefore never affects a plant list (`Compatibility.PlantListsIgnoreLight`).
- Pressure is divided by 100 only when the raw value is truthy, so a raw 0 becomes null.
- Delta updates (`parseDeltaUpdate`) are not merged into the polled snapshot anywhere in the code.
- The health status thresholds compare the *unrounded* mean. A reported score of 90 can therefore come with the status "acceptable" (`HealthScore.RoundedScoreAboveBand`).

## Model

| member | source | states |
|---|---|---|
| ParameterEvaluator.ShippedRangesValid | signalk-poi-lab/src/app/services/pondAdvisorService.js:10-16 | every shipped range has `min <= ideal.min <= ideal.max <= max`, so the falloff never divides by zero |
| ParameterEvaluator.Round | signalk-poi-lab/src/app/services/pondAdvisorService.js:357 | `Math.round` gives the integer within half a unit, rounding halves up |
| ParameterEvaluator.Evaluate | signalk-poi-lab/src/app/services/pondAdvisorService.js:335-367 | score in [0,100]; unknown exactly for a missing value; critical exactly when known and outside `[min,max]`; optimal exactly inside the ideal range; score 0 exactly for unknown/critical; acceptable scores lie in [50,100]; optimal scores 100 |
| ParameterEvaluator.UnknownReading | signalk-poi-lab/src/app/services/pondAdvisorService.js:336-338 | a missing value gives `{unknown, 0}` with the unavailable message |
| ParameterEvaluator.OutOfRangeIsCritical | signalk-poi-lab/src/app/services/pondAdvisorService.js:340-346 | a value outside `[min,max]` gives `{critical, 0}`, with the too-low or too-high message, before any ideal test |
| ParameterEvaluator.IdealIsOptimal | signalk-poi-lab/src/app/services/pondAdvisorService.js:348-351 | a value inside the ideal range gives `{optimal, 100}` |
| ParameterEvaluator.FalloffBounds | signalk-poi-lab/src/app/services/pondAdvisorService.js:353-357 | a distance in `(0, maxDistance]` gives a falloff score between 50 and 100 |
| ParameterEvaluator.OutsideIdealFalloff | signalk-poi-lab/src/app/services/pondAdvisorService.js:353-363 | inside the range but outside the ideal: acceptable, score `round(100 - distance/maxDistance*50)` in [50,100], slightly-low or slightly-high message |
| ParameterEvaluator.NoIdealScores75 | signalk-poi-lab/src/app/services/pondAdvisorService.js:366 | without an ideal range an in-range value is `{acceptable, 75}` |
| ParameterEvaluator.ScoreNonIncreasing | signalk-poi-lab/src/app/services/pondAdvisorService.js:353-357 | a value farther from the ideal range never scores higher |
| HealthScore.Evaluations | signalk-poi-lab/src/app/services/pondAdvisorService.js:375-385 | one evaluation per known reading among temperature, pH and conductivity, none of them unknown |
| HealthScore.SumScoresBounds | signalk-poi-lab/src/app/services/pondAdvisorService.js:391 | scores in `[lo,100]` sum to a value in `[lo*n, 100*n]` |
| HealthScore.MeanBounds | signalk-poi-lab/src/app/services/pondAdvisorService.js:391 | the mean of scores in `[lo,100]` lies in `[lo,100]` |
| HealthScore.CriticalIffOutOfRange | signalk-poi-lab/src/app/services/pondAdvisorService.js:392 | some evaluation is critical exactly when a known water reading is outside its range |
| HealthScore.PondHealth | signalk-poi-lab/src/app/services/pondAdvisorService.js:372-404 | score in [0,100]; `{0, unknown}` exactly without data or known readings; otherwise the score is the rounded mean; status critical iff a reading is out of range, else warning below 70, acceptable below 90, optimal otherwise |
| HealthScore.NonCriticalScoreAtLeast50 | signalk-poi-lab/src/app/services/pondAdvisorService.js:391-403 | without an out-of-range reading the health score is at least 50 |
| HealthScore.AllIdealScenario | signalk-poi-lab/src/app/services/pondAdvisorService.js:372-404 | 20 °C, pH 7.0 and 800 µS/cm give `{100, optimal}` |
| HealthScore.ColdOnlyScenario | signalk-poi-lab/src/app/services/pondAdvisorService.js:372-404 | 5 °C alone gives `{0, critical}` |
| HealthScore.RoundedScoreAboveBand | signalk-poi-lab/src/app/services/pondAdvisorService.js:391-403 | 20 °C, pH 7.0 and 1810 µS/cm give score 90 with status acceptable, because the mean is 269/3 |
| Catalog.FishCatalogWellFormed | signalk-poi-lab/src/app/services/pondAdvisorService.js:23-114 | ten species, each with its ideal temperature and pH ranges inside its ranges |
| Catalog.PlantCatalogShape | signalk-poi-lab/src/app/services/pondAdvisorService.js:120-330 | 21 plants: the first nine without the aquaponie flag, the last twelve with it |
| Ranking.Group | signalk-poi-lab/src/app/services/pondAdvisorService.js:457-462 | the comparator's four classes: below 2 iff suitable, even iff optimal |
| Ranking.CompareOrdersGroups | signalk-poi-lab/src/app/services/pondAdvisorService.js:457-462 | the comparator is negative, zero or positive exactly as the first group is below, equal to or above the second |
| Ranking.RankSorted | signalk-poi-lab/src/app/services/pondAdvisorService.js:457-462 | the ranked list never has a pair the comparator orders the other way |
| Ranking.RankPermutation | signalk-poi-lab/src/app/services/pondAdvisorService.js:457 | the ranked list is a permutation of its input |
| Ranking.RankStable | signalk-poi-lab/src/app/services/pondAdvisorService.js:457-462 | each group keeps its members in input order |
| Ranking.SortedIsGroups | signalk-poi-lab/src/app/services/pondAdvisorService.js:457-462 | a list already sorted by group ranks to itself |
| Ranking.RankUnique | signalk-poi-lab/src/app/services/pondAdvisorService.js:457-462 | any sorted list with the same groups in the same order is the ranked list, so the stable sort's result is fully determined |
| Compatibility.EvaluateFish | signalk-poi-lab/src/app/services/pondAdvisorService.js:417-447 | compatible iff every known reading is inside the species' range; acceptable iff temperature is not ideal, or temperature is in range and pH is not ideal; an out-of-range temperature gives exactly one note with optimal comfort, so pH and conductivity are skipped; the conductivity note appears iff temperature and pH pass and conductivity fails |
| Compatibility.FishRecommendations | signalk-poi-lab/src/app/services/pondAdvisorService.js:409-463 | no list without data; otherwise the ranking of one evaluation per species in catalog order: ten entries, a permutation of the evaluations, sorted by the comparator, each group in catalog order |
| Compatibility.EvaluatePlant | signalk-poi-lab/src/app/services/pondAdvisorService.js:468-500 | suitable iff temperature and pH are admitted and the light gate does not fail; acceptable iff temperature or pH is in range but not ideal; an out-of-range pH is noted even after a temperature failure; a light note appears iff the light gate fails |
| Compatibility.LightGate | signalk-poi-lab/src/app/services/pondAdvisorService.js:487-492 | with the light check on and a level below a non-zero minimum, the plant is unsuitable and carries the light note |
| Compatibility.LightIgnored | signalk-poi-lab/src/app/services/pondAdvisorService.js:468 | with the check off (the default) the light level has no influence on the verdict |
| Compatibility.SelectMembers | signalk-poi-lab/src/app/services/pondAdvisorService.js:514-516 | a filtered plant is from the catalog and has the requested aquaponie flag |
| Compatibility.SelectPartition | signalk-poi-lab/src/app/services/pondAdvisorService.js:514-537 | the two filters together hold each catalog plant exactly once |
| Compatibility.PlantListProperties | signalk-poi-lab/src/app/services/pondAdvisorService.js:505-544 | no list without data; otherwise a permutation of the filtered evaluations, sorted and stable like the fish list |
| Compatibility.PlantListMembers | signalk-poi-lab/src/app/services/pondAdvisorService.js:505-544 | every entry of a plant list is a catalog plant carrying the requested `aquaponie` flag |
| Compatibility.PlantRecommendations | signalk-poi-lab/src/app/services/pondAdvisorService.js:505-522 | no list without data, otherwise nine entries, each a catalog plant without the `aquaponie` flag, sorted by the comparator |
| Compatibility.AquaponieRecommendations | signalk-poi-lab/src/app/services/pondAdvisorService.js:527-544 | no list without data, otherwise twelve entries, each a catalog plant with the `aquaponie` flag, sorted by the comparator |
| Compatibility.PlantListsIgnoreLight | signalk-poi-lab/src/app/services/pondAdvisorService.js:514-517 | replacing the snapshot's light group changes neither plant list |
| Compatibility.PlantListSizes | signalk-poi-lab/src/app/services/pondAdvisorService.js:514-537 | with data, the pond list has nine entries and the aquaponie list twelve |
| Advice.TemperatureAdvice | signalk-poi-lab/src/app/services/pondAdvisorService.js:569-598 | at most one card; none exactly when temperature is unknown, in [12,15) or in (25,28]; very cold below 8, winter mode below 12, too hot above 28, ideal in [15,25] |
| Advice.PhAdvice | signalk-poi-lab/src/app/services/pondAdvisorService.js:602-617 | at most one card; none exactly when pH is unknown or in [6.0,7.5]; acidic below 6.0, alkaline above 7.5 |
| Advice.ConductivityAdvice | signalk-poi-lab/src/app/services/pondAdvisorService.js:621-636 | at most one card; none exactly when conductivity is unknown or in [400,1600]; very soft below 400, high above 1600 |
| Advice.LightAdvice | signalk-poi-lab/src/app/services/pondAdvisorService.js:640-655 | at most one card; none exactly when light is unknown or in [500,10000]; strong above 10000, weak below 500 |
| Advice.DifferentialAdvice | signalk-poi-lab/src/app/services/pondAdvisorService.js:659-668 | a card exactly when both temperatures are known and differ by more than 10 degrees, showing that difference |
| Advice.FeedingAdvice | signalk-poi-lab/src/app/services/pondAdvisorService.js:672-702 | a card exactly when temperature is known and at most 28 degrees: no feeding below 8, winter feeding below 12, reduced below 15, active up to 28 |
| Advice.GetAdvice | signalk-poi-lab/src/app/services/pondAdvisorService.js:549-705 | without data, exactly the error card; with data, at most six cards and none of them the no-data card |
| Advice.RuleListOrdered | signalk-poi-lab/src/app/services/pondAdvisorService.js:549-705 | with data, every card comes from one of the six rules with its title's type, and the rules appear in strictly increasing order |
| Advice.AdviceShape | signalk-poi-lab/src/app/services/pondAdvisorService.js:549-705 | without data, exactly one error card; with data, no error card, at most six cards, each with its title's type, rules in the fixed order temperature, pH, conductivity, light, differential, feeding, each at most once |
| Advice.FreezingWater | signalk-poi-lab/src/app/services/pondAdvisorService.js:570-576 | below 8 degrees the list holds both the critical very-cold card and the no-feeding warning |
| Advice.CriticalCards | signalk-poi-lab/src/app/services/pondAdvisorService.js:569-617 | critical cards only ever concern very cold water, too-hot water or acidic water |
| DerivedMetrics.EstimatedOxygen | signalk-poi-lab/src/app/services/pondAdvisorService.js:716-722 | the estimate is never negative, is at least the saturation quadratic, and is either 0 or that quadratic |
| DerivedMetrics.OxygenNeverClamped | signalk-poi-lab/src/app/services/pondAdvisorService.js:716-725 | the oxygen quadratic stays above 5.7 mg/L, so the clamp at 0 never applies |
| DerivedMetrics.OxygenDecreasing | signalk-poi-lab/src/app/services/pondAdvisorService.js:716-725 | up to 44 degrees, warmer water never gets a higher oxygen estimate |
| DerivedMetrics.HeatIndexAsWritten | signalk-poi-lab/src/app/services/pondAdvisorService.js:743-749 | the shipped feels-like formula; below 27 °C or 40 % humidity it is the air temperature |
| DerivedMetrics.HeatIndexAsWrittenBelowFreezing | signalk-poi-lab/src/app/services/pondAdvisorService.js:743-755 | the shipped four-term formula is below 0 °C wherever it applies, and it falls as humidity rises |
| DerivedMetrics.HeatIndex | signalk-poi-lab/src/app/services/pondAdvisorService.js:743-749 | the full nine-term Celsius regression the shipped formula starts; below 27 °C or 40 % humidity it is the air temperature |
| DerivedMetrics.HeatIndexOutsideDomain | signalk-poi-lab/src/app/services/pondAdvisorService.js:745-749 | below 27 °C or 40 % humidity the heat index is the air temperature |
| DerivedMetrics.HeatIndexReferencePoints | signalk-poi-lab/src/app/services/pondAdvisorService.js:743-755 | the full regression gives about 27, 33 and 45 °C at 27 °C/40 %, 30 °C/60 % and 35 °C/60 % |
| DerivedMetrics.EvaporationRisk | signalk-poi-lab/src/app/services/pondAdvisorService.js:758-774 | high iff water is warmer than air and humidity is below 50; low iff water is no warmer and humidity is at least 60 |
| DerivedMetrics.AlgaeRisk | signalk-poi-lab/src/app/services/pondAdvisorService.js:777-792 | high iff above 25 degrees and 8000 lux; low iff at most 20 degrees or at most 5000 lux |
| DerivedMetrics.AlgaeRiskMonotone | signalk-poi-lab/src/app/services/pondAdvisorService.js:777-792 | more warmth or light never lowers the algae risk |
| DerivedMetrics.EvaporationRiskMonotone | signalk-poi-lab/src/app/services/pondAdvisorService.js:758-774 | warmer water, colder air or drier air never lowers the evaporation risk |
| DerivedMetrics.GetDerivedData | signalk-poi-lab/src/app/services/pondAdvisorService.js:710-795 | nothing without data; each indicator is present exactly when its inputs are known, and then equals its formula on them: the clamped oxygen quadratic (above 5.7), the shipped four-term heat index, the evaporation and algae risk levels |
| DerivedMetrics.ShownHeatIndex | signalk-poi-lab/src/app/services/pondAdvisorService.js:743-755 | the feels-like value shown is the air temperature itself or below 0 °C, never a heat index above the air temperature |
| PondData.MergeGroup | signalk-poi-lab/src/app/hooks/usePondData.js:30-54 | the key-by-key overwrite loop yields exactly the merged group |
| PondData.MergeSnapshots | signalk-poi-lab/src/app/hooks/usePondData.js:28-57 | no previous snapshot: the new one unchanged; otherwise each group merged and the new timestamp taken |
| PondData.MergedGroupGet | signalk-poi-lab/src/app/hooks/usePondData.js:31-37 | a new known reading wins, otherwise the previous value stays; keys are the previous ones plus the newly known ones |
| PondData.KnownReadingsKept | signalk-poi-lab/src/app/hooks/usePondData.js:28-57 | a reading once known stays known after any merge |
| PondData.AllNullPollKeepsReadings | signalk-poi-lab/src/app/hooks/usePondData.js:33-37 | a poll with only null readings leaves the group unchanged |
| PondData.MergeIdempotent | signalk-poi-lab/src/app/hooks/usePondData.js:28-57 | merging the same poll twice equals merging it once |
| PondData.FullPollOverrides | signalk-poi-lab/src/app/hooks/usePondData.js:31-37 | a poll that knows every previous key replaces the group |
| PondData.PondDataHook.constructor | signalk-poi-lab/src/app/hooks/usePondData.js:11-15 | no data, loading, no error, not connected, no last update |
| PondData.PondDataHook.BeginRefresh | signalk-poi-lab/src/app/hooks/usePondData.js:78-81 | loading is set and nothing else changes |
| PondData.PondDataHook.FetchData | signalk-poi-lab/src/app/hooks/usePondData.js:17-66 | loading ends; unavailable: disconnected, the unavailable message, data kept; exception: disconnected, its message, data kept; success: connected, no error, data merged, last update the new timestamp; the invariant "connected iff data and no error" is kept |
| PondData.PondDataHook.Refresh | signalk-poi-lab/src/app/hooks/usePondData.js:78-81 | a refresh ends exactly like the fetch it starts: the same error, connection, last update and merged data for each outcome, loading cleared |
| SignalK.NormalizeHumidity | signalk-poi-lab/src/app/services/signalkService.js:19-29 | unknown stays unknown; at most 1.5 is multiplied by 100; above passes through |
| SignalK.NormalizeHumidityRange | signalk-poi-lab/src/app/services/signalkService.js:24-28 | a fraction in [0,1] becomes a percent in [0,100]; a percent above 1.5 is a fixed point |
| SignalK.ReplaceDots | signalk-poi-lab/src/app/services/signalkService.js:67 | same length; every dot becomes a slash and every other character is kept |
| SignalK.ValuePathShape | signalk-poi-lab/src/app/services/signalkService.js:67 | the REST path is the API prefix followed by the SignalK path with no dot left |
| SignalK.FetchValue | signalk-poi-lab/src/app/services/signalkService.js:66-75 | a failed request yields null for that field; a received body yields its value |
| SignalK.PressureHpa | signalk-poi-lab/src/app/services/signalkService.js:119 | present iff the raw value is known and non-zero, then the raw value over 100 |
| SignalK.GetPondData | signalk-poi-lab/src/app/services/signalkService.js:97-129 | the fetch loop over the ten paths yields the snapshot assembled from its results |
| SignalK.PolledKeys | signalk-poi-lab/src/app/services/signalkService.js:104-122 | a polled snapshot has exactly the six water keys, the light level and the three air keys, and the given timestamp |
| SignalK.PolledWater | signalk-poi-lab/src/app/services/signalkService.js:105-112 | each water field is the fetch of its own path |
| SignalK.PolledLightAndAir | signalk-poi-lab/src/app/services/signalkService.js:113-120 | light level and air temperature are the fetches of their paths; humidity is normalised and pressure converted to hPa |
| SignalK.PolledResults | signalk-poi-lab/src/app/services/signalkService.js:99-102 | after the loop each result key holds the fetch of its own path |
| SignalK.DeltaKeysMatchPondPaths | signalk-poi-lab/src/app/services/signalkService.js:224-244 | the delta dispatch maps each of the ten paths to the same key as the poll |
| SignalK.ParseDeltaUpdate | signalk-poi-lab/src/app/services/signalkService.js:215-249 | the nested loops yield the in-order application of all values |
| SignalK.ParsedKeys | signalk-poi-lab/src/app/services/signalkService.js:224-244 | only the ten sensor keys can appear |
| SignalK.IgnoredUpdates | signalk-poi-lab/src/app/services/signalkService.js:219 | an update without values, or with only unknown paths, changes nothing |
| SignalK.ParsedFrame | signalk-poi-lab/src/app/services/signalkService.js:217-246 | later updates whose entries are all for other keys leave a key's value alone |
| SignalK.LatestValueWins | signalk-poi-lab/src/app/services/signalkService.js:221-244 | when no later entry, in the same update or any later one, is for the same key, the key holds that value, humidity normalised and pressure left raw |
| Gauge.Status | signalk-poi-lab/src/app/components/GaugeCard.jsx:52-60 | unknown iff no value; critical iff outside `[min,max]`; optimal iff in range with both optimal bounds given and met |
| Gauge.StatusAgreesWithEvaluator | signalk-poi-lab/src/app/components/GaugeCard.jsx:52-60 | a gauge given a range and its ideal band shows the evaluator's status |
| Gauge.Percentage | signalk-poi-lab/src/app/components/GaugeCard.jsx:73-75 | always within [0,100], and 0 until there is a value |
| Gauge.PercentageMonotone | signalk-poi-lab/src/app/components/GaugeCard.jsx:73-75 | 0 at `min`, 100 at `max`, non-decreasing in between |
| WaterLevel.Status | signalk-poi-lab/src/app/components/WaterLevelCard.jsx:33-40 | each status stated by its band, low before high and critical before warning |
| WaterLevel.DefaultBands | signalk-poi-lab/src/app/components/WaterLevelCard.jsx:11-40 | with 0.3/0.9: critical-low up to 0.3, warning-low to 0.4, normal below 0.8, warning-high below 0.9, critical-high from 0.9 |
| WaterLevel.WarningLowFirst | signalk-poi-lab/src/app/components/WaterLevelCard.jsx:37-38 | when both warning margins apply, warning-low wins |
| WaterLevel.AnimationTarget | signalk-poi-lab/src/app/components/WaterLevelCard.jsx:20 | the target is in [0,1] and equals an in-range level |
| WaterLevel.AnimationTargetMonotone | signalk-poi-lab/src/app/components/WaterLevelCard.jsx:20 | the target is monotone and clamping twice changes nothing |
| Firmware.ColorByRange | sample.c:45-49 | red iff outside `[min,max]`; green iff within the inner band a fifth away from each edge |
| Firmware.ColorByRangeCases | sample.c:45-49 | an inverted range is always red; the middle of a range is green; its ends are orange |
| Firmware.MapFloat | sample.c:60-65 | a degenerate input range gives `outMin` |
| Firmware.MapFloatAffine | sample.c:60-65 | the input ends map to the output ends, and the order is kept for a rising output |
| Firmware.Truncate | sample.c:69 | the `(int)` cast drops the fraction toward zero |
| Firmware.BarWidth | sample.c:67-69 | for `w >= 2` the fill width is in `[0, w-2]`; a positive width needs `w > 2` |
| Firmware.BarFill | sample.c:67-74 | a fill is drawn iff the width is positive, with at most `w-2` pixels in the range colour |
| Firmware.BarEnds | sample.c:67-74 | at or below `min` nothing is filled; at or above `max` the whole inside is |
| Firmware.GlobalFishColor | sample.c:76-82 | red iff any reading is outside its outer band; green iff all are inside the inner bands |

## Left out

- HTTP and WebSocket plumbing is left out: `apiCall`, `fetch`, `checkServerAvailability`, `createPondWebSocket` with its reconnect timer, and `getSignalKBaseUrl`. The server is a parameter (`respond`, from REST path to response), and the availability probe is a `FetchOutcome` given to `FetchData`.
- React scheduling is left out: `useState`, `useEffect`, the `setInterval` polling, and refresh-versus-timer races. `FetchData` is one sequential transition, and `Refresh` runs its two halves back to back.
- The clock (`new Date().toISOString()`) is the `timestamp` parameter of `GetPondData`.
- Dew point is left out: it needs `Math.log`, which has no exact model over the reals.
- All `toFixed` and locale formatting is left out, as are the advice and note message texts, icons, emoji and other catalog display fields. Advice cards are modelled by type and title, notes by kind and the bounds they quote.
- The oxygen estimate and the risk levels are kept as numbers and enums, not the strings the source produces.
- JavaScript numbers and C `float` are taken as exact reals. Nothing is claimed about floating-point rounding, including the C `0.2` double constant.
- The `undefined`-versus-`null` difference is left out, and so is NaN as a value distinct from null. All three are `None`, so the `!== null` tests that let `undefined` and NaN through are not modelled. In `getPondHealthScore` a NaN reading passes that test, is evaluated as unknown with score 0, and is averaged in; the model drops it like a null. Snapshots built by the poll always carry every key.
- A snapshot always has its three groups. The `!data.water` tests and the `if (pondData.water)` guards of the merge therefore always pass.
- SignalK.FetchValue: models a response body as a number or null. The `data?.value ?? data` fallback, which returns the whole body when its `value` is null, is not modelled.
- Gauge.Percentage: requires `min != max`. For equal bounds the source divides by zero and clamps ±Infinity or NaN. Every gauge on the page has distinct bounds.
- Catalog: the distinctness of the catalog keys is not stated, because JavaScript object keys are distinct by construction.
- The `console.warn` and `console.error` logging in `getSignalKValue` and `getPondData` is left out: it is output only and changes no result.
- The firmware's `setup`, `loop`, ultrasonic reading, TFT drawing calls, WiFi/MQTT and ADC scaling are hardware I/O and are left out.
- All JSX rendering and animation easing are presentation and are left out.

## Findings

| source | as written | input that shows it | evidently intended | confidence | as-written member | corrected member |
|---|---|---|---|---|---|---|
| signalk-poi-lab/src/app/services/pondAdvisorService.js:747-749 | the feels-like temperature keeps only the first four terms of the Celsius Rothfusz heat-index regression | air at 27 °C and 40 % humidity gives −29.408 °C, and every input where the formula applies gives a value below 0 °C | the full nine-term regression, which gives about 26.9 °C there and matches the usual heat-index table | high (not executed) | DerivedMetrics.HeatIndexAsWritten | DerivedMetrics.HeatIndex |

`DerivedMetrics.HeatIndexAsWrittenBelowFreezing` proves the shipped formula below 0 °C wherever it applies, and `DerivedMetrics.HeatIndexReferencePoints` proves the corrected regression close to the usual table values. `GetDerivedData` computes the shipped formula `DerivedMetrics.HeatIndexAsWritten`, as the dashboard does, and `DerivedMetrics.ShownHeatIndex` states what it then shows. The intended nine-term regression is `DerivedMetrics.HeatIndex`.
