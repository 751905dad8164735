# Feeds and speeds: a verified model of the calculation engine

This project models the calculation engine of a CNC feeds-and-speeds calculator in Dafny and proves properties of it. The calculator exists in two generations, and both are modelled.

- The layered package `cnc_calculator` has parts with these responsibilities:
  - a mutable `CuttingParameters` record whose `feedrate` is derived from its fields;
  - a chipload interpolation service over diameter-keyed tables;
  - a guidelines service;
  - a bisection feedrate optimiser;
  - validating value objects;
  - material and cutting-style repositories;
  - a use case and a view-model that compose them.
- The stand-alone GUI scripts `feeds_and_speeds.py` (Qt) and `main.py` (Tk) each hold the following:
  - their own copy of the feedrate formula;
  - a hard-coded three-knot interpolator;
  - the guideline figures;
  - a linear-scan maximiser.

Modules, one per source file:

| module | source |
|---|---|
| `Wrappers` | `Option`, `Result` and `Outcome` |
| `Models` | the `Range` pair, `Material` and `CuttingStyle` records |
| `Measurements` | `RPM`, `Feedrate` and `Distance` |
| `Parameters` | `CuttingParameters` and the feedrate formula, written once |
| `ChiploadService` | `ChiploadCalculationService`, generic over any `map<real, Range>` table |
| `GuidelinesService` | `CuttingGuidelinesService` |
| `OptimizationService` | `FeedrateOptimizationService` |
| `FeedrateUseCase` | `CalculateFeedrateUseCase` |
| `ViewModel` | `CNCCalculatorViewModel` |
| `MaterialRepository`, `CuttingStyleRepository` | the two repositories |
| `FeedsAndSpeeds` | `feeds_and_speeds.py` |
| `MainScript` | `main.py` |
| `ScanMaximiser` | the scan loop shared by both scripts |

How the model represents the source:

- **Objects the program mutates are classes.** These are:
  - `CuttingParameters`, whose fields other components assign;
  - `ChiploadCalculationService`, which stores the last diameter asked for;
  - the optimiser, the use case and the view-model.

  A `State` datatype is a snapshot of a parameters object. Methods state their new state against `old(...)` snapshots.
- **`math.sqrt` is a parameter.** Every member that evaluates the formula takes a function `sqrt: real -> real` and requires `IsSqrt(sqrt)`, that is, it returns the positive root of every positive argument.
- **Numbers are exact `real`s.** Python floats are not modelled bit for bit.
- **The bisection is modelled as written.** It is proved against `Search`, a recursive function that gives its loop variables after `k` passes. `Search` has two readings of the comparison:
  - `BestSoFar`, what the code does;
  - `Ceiling(m)`, what was evidently intended (see Findings).
- **Both scripts' scans are one method.** `ScanMaximiser.Scan` is proved against the predicate `Scanned`. It takes the feed as a function of the stepped chipload:
  - `feeds_and_speeds.py` steps total chipload (all flutes together) with ceiling 10000;
  - `main.py` steps per-flute chipload with ceiling 6000.
- **The scripts' `interpolate` is `ChiploadService.Line`.** It is the same two-point expression as the layered `_interpolate`.
- **`main.py`'s `calculate_feedrate`, table, `suggest_chipload` and `update_guidelines` are those of `feeds_and_speeds.py`.** `MainScript.SuggestChipload` and `MainScript.UpdateGuidelines` delegate; the former keeps its unused `flutes` argument.

## Model

| member | source | states |
|---|---|---|
| Measurements.NewRPM | cnc_calculator/domain/value_objects/measurements.py:3-7 | succeeds iff the value is positive, and then stores it unchanged in an `RPM`; otherwise fails with "RPM must be a positive integer" |
| Measurements.NewFeedrate | cnc_calculator/domain/value_objects/measurements.py:17-21 | succeeds iff the value is positive, and then stores it unchanged in a `Feedrate`; otherwise fails with its own message |
| Measurements.NewDistance | cnc_calculator/domain/value_objects/measurements.py:31-35 | succeeds iff the value is positive, and then stores it unchanged in a `Distance`; otherwise fails with its own message |
| Measurements.Equals | cnc_calculator/domain/value_objects/measurements.py:9-12 | `__eq__` holds exactly when the other object is of the same class and holds an equal value |
| Measurements.DifferentClassesNeverEqual | cnc_calculator/domain/value_objects/measurements.py:9-40 | objects of two different classes are never equal, whatever their values, in both orders |
| Measurements.EqualsIsReflexiveAndSymmetric | cnc_calculator/domain/value_objects/measurements.py:9-40 | equality is reflexive and symmetric |
| Parameters.CuttingParameters.constructor | cnc_calculator/domain/models/cutting_parameters.py:6-14 | every field holds its argument; the chipload defaults to unset |
| Parameters.FeedrateFormula | cnc_calculator/domain/models/cutting_parameters.py:16-20 | no contract of its own; its properties are WideCutIsBaseFeedrate, NarrowCutRadicand, NarrowCutAtLeastBase, CorrectedFeedrateSquared, HalfDiameterIsContinuous, FeedrateMonotoneInChipload and FeedratePositive |
| Parameters.CuttingParameters.Feedrate | cnc_calculator/domain/models/cutting_parameters.py:22-24 | no contract of its own; the property reads the formula of the current fields, so the Parameters lemmas above apply to it, and FeedrateUseCase.CalculateFeedrateUseCase.Execute states the value it returns after the chipload is set |
| Parameters.WideCutIsBaseFeedrate | cnc_calculator/domain/models/cutting_parameters.py:17-19 | when `woc > D/2` the formula is defined and equals exactly `rpm * chipload * flutes` |
| Parameters.NarrowCutRadicand | cnc_calculator/domain/models/cutting_parameters.py:20 | for `0 < woc <= D/2` the radicand `1 - (1 - 2 woc/D)^2` lies in (0, 1], so the square root is defined |
| Parameters.NarrowCutAtLeastBase | cnc_calculator/domain/models/cutting_parameters.py:17-20 | for `0 < woc <= D/2` and a non-negative base feed, the corrected feed is at least the base feed |
| Parameters.CorrectedFeedrateSquared | cnc_calculator/domain/models/cutting_parameters.py:20 | with the correction applied, feed squared times the radicand equals the base feed squared (the correction without roots) |
| Parameters.HalfDiameterIsContinuous | cnc_calculator/domain/models/cutting_parameters.py:17-20 | at `woc == D/2` the radicand is 1 and the corrected branch gives the base feed, so the two branches meet |
| Parameters.FeedrateMonotoneInChipload | cnc_calculator/domain/models/cutting_parameters.py:17-20 | when `rpm * flutes >= 0` and everything else is fixed, the feed does not decrease as the chipload grows |
| Parameters.FeedrateStrictlyMonotoneInChipload | cnc_calculator/domain/models/cutting_parameters.py:17-20 | when `rpm * flutes > 0` and everything else is fixed, the feed strictly increases with the chipload |
| Parameters.FeedratePositive | cnc_calculator/domain/models/cutting_parameters.py:17-20 | positive rpm, flutes and chipload give a positive feed |
| Parameters.FullEngagementExample | cnc_calculator/domain/models/cutting_parameters.py:16-19 | one flute at 18250 rpm and 0.0254 mm per tooth with a full-width cut gives 463.55 mm/min |
| Parameters.PartialEngagementExample | cnc_calculator/domain/models/cutting_parameters.py:16-20 | the same inputs with a 3 mm cut on a 6.35 mm tool exceed 463.55 mm/min |
| ChiploadService.ChiploadCalculationService.constructor | cnc_calculator/domain/services/chipload_calculation_service.py:5-7 | keeps the material; no diameter stored yet |
| ChiploadService.SmallestKey | cnc_calculator/domain/services/chipload_calculation_service.py:12 | the result is a key and no key is smaller |
| ChiploadService.SortedKeys | cnc_calculator/domain/services/chipload_calculation_service.py:12 | `sorted(keys)`: as many entries as keys, each entry a key, strictly increasing |
| ChiploadService.SortedKeysComplete | cnc_calculator/domain/services/chipload_calculation_service.py:12 | every key occurs in the sorted list (with `SortedKeys`, the list is a strictly increasing enumeration of the keys) |
| ChiploadService.SortedKeysIs | cnc_calculator/domain/services/chipload_calculation_service.py:12 | any strictly increasing listing of exactly the keys is the sorted list |
| ChiploadService.DiametersOfStandardTable | cnc_calculator/domain/services/chipload_calculation_service.py:12 | a table keyed by 1.5, 3.175 and 6 sorts to `[1.5, 3.175, 6]` |
| ChiploadService.LineThroughKnots | cnc_calculator/domain/services/chipload_calculation_service.py:36 | the two-point line passes through both of its knots |
| ChiploadService.Line | cnc_calculator/domain/services/chipload_calculation_service.py:36 | no contract of its own; LineThroughKnots, LineBetween and FeedsAndSpeeds.SlopeFormIsLine carry its properties (it is also `interpolate` in both scripts) |
| ChiploadService.LineBetween | cnc_calculator/domain/services/chipload_calculation_service.py:31-35 | between its knots the line's value lies between the knot values, whichever is larger |
| ChiploadService.Interpolate | cnc_calculator/domain/services/chipload_calculation_service.py:29-35 | at either knot the interpolated pair is that knot's pair exactly |
| ChiploadService.FirstSegment | cnc_calculator/domain/services/chipload_calculation_service.py:19-25 | the `for` loop's search: a found index's segment contains the diameter; no index found means no segment from the start does |
| ChiploadService.FirstSegmentFinds | cnc_calculator/domain/services/chipload_calculation_service.py:19-25 | when no earlier segment contains the diameter, the loop returns the first segment that does |
| ChiploadService.SegmentExists | cnc_calculator/domain/services/chipload_calculation_service.py:19-25 | with strictly increasing keys, some segment contains every diameter between the first and the last key |
| ChiploadService.FallbackUnreachable | cnc_calculator/domain/services/chipload_calculation_service.py:27 | strictly inside the table the loop always returns, so the fallback at line 27 is never reached |
| ChiploadService.SuggestBelowSmallestKey | cnc_calculator/domain/services/chipload_calculation_service.py:14-15 | at or below the smallest key the smallest key's pair comes back unchanged |
| ChiploadService.SuggestAboveLargestKey | cnc_calculator/domain/services/chipload_calculation_service.py:16-17 | at or above the largest key (two keys needed) each endpoint follows the line through the last two keys, unclamped |
| ChiploadService.SuggestAtKey | cnc_calculator/domain/services/chipload_calculation_service.py:14-25 | at every key, smallest, interior or largest, the tabulated pair comes back exactly |
| ChiploadService.SuggestBetweenAdjacentKeys | cnc_calculator/domain/services/chipload_calculation_service.py:19-25 | strictly between adjacent keys the result is their interpolation, and each endpoint lies between the neighbours' endpoints |
| ChiploadService.Suggest | cnc_calculator/domain/services/chipload_calculation_service.py:9-27 | no contract of its own; SuggestBelowSmallestKey, SuggestAtKey, SuggestBetweenAdjacentKeys, SuggestAboveLargestKey and FallbackUnreachable cover every branch |
| ChiploadService.ChiploadCalculationService.ExtrapolateChipload | cnc_calculator/domain/services/chipload_calculation_service.py:38-47 | evaluated at the stored diameter, the line through the two given keys returns that key's own pair when the stored diameter equals either key |
| ChiploadService.ChiploadCalculationService.SuggestChipload | cnc_calculator/domain/services/chipload_calculation_service.py:9-27 | stores the diameter asked for and returns `Suggest` of the material's table, branch for branch |
| GuidelinesService.CalculateRange | cnc_calculator/domain/services/cutting_guidelines_service.py:30-34 | a non-negative base and ordered multipliers give an ordered range; base 0 gives (0, 0); equal multipliers give equal endpoints |
| GuidelinesService.CalculateGuidelines | cnc_calculator/domain/services/cutting_guidelines_service.py:9-28 | WOC and DOC are the diameter times the style's multipliers; the plunge rate is the current feedrate times the material's multipliers |
| GuidelinesService.GuidelinesIgnoreDepthOfCut | cnc_calculator/domain/services/cutting_guidelines_service.py:9-28 | the result depends only on what it reads, not on the depth of cut |
| GuidelinesService.GuidelinesOrdered | cnc_calculator/domain/services/cutting_guidelines_service.py:13-26 | ordered multipliers, a non-negative diameter and a non-negative feed give three ordered ranges |
| OptimizationService.FeedrateOptimizationService.constructor | cnc_calculator/domain/services/feedrate_optimization_service.py:4-5 | keeps the shared parameters object |
| OptimizationService.Bisect | cnc_calculator/domain/services/feedrate_optimization_service.py:16-25 | one pass halves the bracket, stays inside it, keeps one end, and records the midpoint exactly when its feed is within the limit |
| OptimizationService.Search | cnc_calculator/domain/services/feedrate_optimization_service.py:15-25 | no contract of its own; SearchHalves, SearchStaysInBracket, AsWrittenNeverRecords, CeilingSearchInvariant and CeilingSearchNearOptimal carry its properties, and FeedrateOptimizationService.MaximizeFeedrate is proved against it |
| OptimizationService.ParametersAfter | cnc_calculator/domain/services/feedrate_optimization_service.py:16-17 | no contract of its own; the state FeedrateOptimizationService.MaximizeFeedrate and ViewModel.CNCCalculatorViewModel.MaximizeFeedrate leave behind: unchanged with no pass, otherwise the last midpoint as chipload |
| OptimizationService.SearchHalves | cnc_calculator/domain/services/feedrate_optimization_service.py:15-25 | after `k` passes the bracket is `2^k` times narrower than the initial one |
| OptimizationService.SearchStaysInBracket | cnc_calculator/domain/services/feedrate_optimization_service.py:15-25 | an ordered initial bracket contains every later bracket |
| OptimizationService.PassesBound | cnc_calculator/domain/services/feedrate_optimization_service.py:15 | with a positive increment, the number of passes is at most initial width / increment, so the loop terminates |
| OptimizationService.PassKeepsCount | cnc_calculator/domain/services/feedrate_optimization_service.py:15 | a pass taken because the bracket is wider than the increment keeps the width and pass-count relations |
| OptimizationService.NarrowerThanIncrement | cnc_calculator/domain/services/feedrate_optimization_service.py:15 | when the loop condition fails, the bracket is no wider than the increment |
| OptimizationService.AsWrittenNeverRecords | cnc_calculator/domain/services/feedrate_optimization_service.py:11-27 | as written, positive rpm and flutes and a positive lower chipload mean nothing is ever recorded: the result is (0, initial lower) |
| OptimizationService.CeilingSearchInvariant | cnc_calculator/domain/services/feedrate_optimization_service.py:20-25 | searching against the ceiling, the recorded chipload is always the lower end; either nothing is recorded and the lower end is the start, or the best is the lower end's feed and within the ceiling; the upper end is the start or over the ceiling |
| OptimizationService.BelowUpperEnd | cnc_calculator/domain/services/feedrate_optimization_service.py:20-25 | against the ceiling, every chipload within the ceiling stays below the bracket's upper end |
| OptimizationService.AtMostUpperEnd | cnc_calculator/domain/services/feedrate_optimization_service.py:20-25 | against the ceiling, every chipload of the range within the ceiling is at most the bracket's upper end |
| OptimizationService.CeilingSearchNearOptimal | cnc_calculator/domain/services/feedrate_optimization_service.py:12-25 | when feed grows with chipload, the corrected search returns a chipload within the ceiling, and every chipload of the range within the ceiling is at most one increment above it; strictly less than one increment when the top of the range is over the ceiling |
| OptimizationService.FeedrateOptimizationService.MaximizeFeedrate | cnc_calculator/domain/services/feedrate_optimization_service.py:7-27 | the bracket is the exact-key table pair; the result is `Search`'s best pair after the counted passes; the parameters end with the last midpoint as chipload (unchanged when no pass ran) |
| FeedrateUseCase.CalculateFeedrateUseCase.constructor | cnc_calculator/application/use_cases/calculate_feedrate.py:6-9 | both services are new and built over the given parameters |
| FeedrateUseCase.CalculateFeedrateUseCase.Execute | cnc_calculator/application/use_cases/calculate_feedrate.py:11-14 | only the chipload changes, to the suggested lower bound; the result is the feedrate read after that; the service stores the diameter |
| FeedrateUseCase.SuggestedFeedrateIgnoresChipload | cnc_calculator/application/use_cases/calculate_feedrate.py:13 | the result does not depend on the chipload held before the call |
| FeedrateUseCase.SuggestedFeedrateAtLeastBase | cnc_calculator/application/use_cases/calculate_feedrate.py:11-14 | with non-negative inputs, the result is at least the base feed of the suggested lower bound |
| ViewModel.Updated | cnc_calculator/presentation/viewmodels/cnc_calculator_viewmodel.py:26-42 | only the named field may change; an accepted update stores its value (flutes, diameter, positive rpm/woc/doc, chipload) or the repository's lookup of the name; an unknown key or a rejected value changes nothing; rejected iff a non-positive rpm, woc or doc; an unknown material or style name stores `None` |
| ViewModel.InitialState | cnc_calculator/presentation/viewmodels/cnc_calculator_viewmodel.py:16-24 | no contract of its own; InitialStateCanCalculate and CNCCalculatorViewModel.constructor state what it holds |
| ViewModel.InitialStateCanCalculate | cnc_calculator/presentation/viewmodels/cnc_calculator_viewmodel.py:16-24 | the initial session is soft plastics cut wide and shallow, and its table and geometry meet what the results need |
| ViewModel.CNCCalculatorViewModel.constructor | cnc_calculator/presentation/viewmodels/cnc_calculator_viewmodel.py:13-24 | the parameters are 1 flute, 6.35 mm, 18250 rpm, woc 6.35, doc 0.254, soft plastics, wide and shallow, chipload unset |
| ViewModel.CNCCalculatorViewModel.UpdateParameter | cnc_calculator/presentation/viewmodels/cnc_calculator_viewmodel.py:26-42 | the parameters become `Updated(old, u)`; the call fails, with the value object's message, exactly when the value is rejected |
| ViewModel.CNCCalculatorViewModel.CalculateResults | cnc_calculator/presentation/viewmodels/cnc_calculator_viewmodel.py:44-57 | the chipload becomes the suggested lower bound and the plunge rate uses the resulting feedrate; the warning is set iff the feedrate exceeds 6000 |
| ViewModel.CNCCalculatorViewModel.MaximizeFeedrate | cnc_calculator/presentation/viewmodels/cnc_calculator_viewmodel.py:59-66 | the optimiser's pair, unchanged, after the pass count the loop condition allows; the parameters end with the last midpoint tried as chipload (unchanged when no pass ran), every other field kept |
| MaterialRepository.GetMaterial | cnc_calculator/infrastructure/persistence/material_repository.py:36-37 | `None` exactly for unknown names; otherwise the catalogue's material, named by the key |
| MaterialRepository.TablesWellFormed | cnc_calculator/infrastructure/persistence/material_repository.py:6-34 | each table has keys 1.5 < 3.175 < 6, ordered pairs, endpoints non-decreasing in diameter, and an ordered plunge range |
| MaterialRepository.CatalogueWellFormed | cnc_calculator/infrastructure/persistence/material_repository.py:6-34 | exactly three materials, each named by its key and well formed |
| MaterialRepository.TablesAreSuggestible | cnc_calculator/infrastructure/persistence/material_repository.py:9-31 | every shipped table meets the interpolator's demands for every diameter and sorts to `[1.5, 3.175, 6]` |
| MaterialRepository.SoftPlasticsAtKnot | cnc_calculator/infrastructure/persistence/material_repository.py:11 | soft plastics at 3.175 mm suggests exactly (0.05, 0.13) |
| MaterialRepository.SoftPlasticsExtrapolated | cnc_calculator/infrastructure/persistence/material_repository.py:9-13 | soft plastics at 10 mm extrapolates an upper bound above the 6 mm value 0.254 |
| CuttingStyleRepository.GetCuttingStyle | cnc_calculator/infrastructure/persistence/cutting_style_repository.py:18-19 | `None` exactly for unknown names; otherwise the catalogue's style, named by the key |
| CuttingStyleRepository.CatalogueWellFormed | cnc_calculator/infrastructure/persistence/cutting_style_repository.py:5-16 | exactly the two styles, each named by its key, with ordered multiplier pairs |
| FeedsAndSpeeds.CalculateFeedrateBounds | feeds_and_speeds.py:15-20 | the base feed when `woc > D/2`; at least the base feed for `0 < woc <= D/2` with a non-negative base |
| FeedsAndSpeeds.CalculateFeedrate | feeds_and_speeds.py:15-20 | no contract of its own; CalculateFeedrateBounds and MainScript.SameFormulaAsFeedsAndSpeeds carry its properties |
| FeedsAndSpeeds.TablesCoincideWithRepository | feeds_and_speeds.py:28-44 | the script's tables are exactly the repository's material tables |
| FeedsAndSpeeds.TableKeys | feeds_and_speeds.py:28-44 | every table is keyed by 1.5, 3.175 and 6 |
| FeedsAndSpeeds.AtMost | feeds_and_speeds.py:66 | the comprehension keeps exactly the diameters at most the tool diameter |
| FeedsAndSpeeds.AtLeast | feeds_and_speeds.py:67 | the comprehension keeps exactly the diameters at least the tool diameter |
| FeedsAndSpeeds.MaxOf | feeds_and_speeds.py:66 | `max` returns an element no smaller than any other |
| FeedsAndSpeeds.MinOf | feeds_and_speeds.py:67 | `min` returns an element no larger than any other |
| FeedsAndSpeeds.BracketingKnots | feeds_and_speeds.py:66-70 | inside (1.5, 6) the comprehensions pick the knots on either side, and the same knot twice exactly at 3.175 |
| FeedsAndSpeeds.SuggestAtMostSmallestKnot | feeds_and_speeds.py:49-50 | at or below 1.5 mm the 1.5 mm pair comes back unchanged |
| FeedsAndSpeeds.ExtrapolationFollowsLastTwoKnots | feeds_and_speeds.py:51-64 | from 6 mm up both endpoints follow the line through the 3.175 and 6 mm knots, and the lower one is clamped up to the 1.5 mm lower bound |
| FeedsAndSpeeds.SlopeFormIsLine | feeds_and_speeds.py:56-60 | the slope-from-the-6 mm-knot form is the two-point line |
| FeedsAndSpeeds.ClampNeverBites | feeds_and_speeds.py:62 | for the three shipped tables the clamp never changes the lower endpoint |
| FeedsAndSpeeds.AgreesWithChiploadService | feeds_and_speeds.py:27-78 | for every diameter and shipped material the script suggests exactly what `ChiploadCalculationService` suggests |
| FeedsAndSpeeds.AgreeBelowTable | feeds_and_speeds.py:49-50 | the agreement at or below 1.5 mm |
| FeedsAndSpeeds.AgreeAboveTable | feeds_and_speeds.py:51-64 | the agreement from 6 mm up |
| FeedsAndSpeeds.AgreeInsideTable | feeds_and_speeds.py:65-78 | the agreement inside (1.5, 6) |
| FeedsAndSpeeds.AgreeInSegment | feeds_and_speeds.py:72-78 | the agreement strictly between two adjacent knots |
| FeedsAndSpeeds.SuggestInsideTable | feeds_and_speeds.py:65-78 | inside (1.5, 6) an exact knot gives its pair; otherwise each endpoint lies between those of the bracketing knots |
| FeedsAndSpeeds.SuggestChipload | feeds_and_speeds.py:27-78 | no contract of its own; SuggestAtMostSmallestKnot, SuggestInsideTable, ExtrapolationFollowsLastTwoKnots, ClampNeverBites and AgreesWithChiploadService carry its properties |
| FeedsAndSpeeds.UpdateGuidelines | feeds_and_speeds.py:225-246 | no contract of its own; UpdateGuidelinesAgreesWithRepositories relates it to the repositories and the guidelines service |
| FeedsAndSpeeds.UpdateGuidelinesAgreesWithRepositories | feeds_and_speeds.py:225-246 | for the catalogued names, the displayed figures are the repositories' multipliers applied as the guidelines service applies them |
| FeedsAndSpeeds.TotalChiploadFeed | feeds_and_speeds.py:268-270 | no contract of its own; TotalChiploadFeedIncreasing carries its property, and MaximizeFeedrate with ScanMaximiser.Scanned carry the scan's properties over it |
| FeedsAndSpeeds.TotalChiploadFeedIncreasing | feeds_and_speeds.py:268-270 | the flute count cancels out of the feed at a total chipload: with a positive rpm it strictly increases with the total, whatever the sign of the flute count |
| FeedsAndSpeeds.MaximizeFeedrate | feeds_and_speeds.py:248-282 | the scan over `[lower*flutes, upper*flutes]` with ceiling 10000; zero iff no evaluated feed is in (0, 10000]; otherwise the result is in (0, 10000] at a total chipload in range |
| MainScript.SameFormulaAsFeedsAndSpeeds | main.py:5-10 | the same formula as `feeds_and_speeds.py` for every input |
| MainScript.CalculateFeedrate | main.py:5-10 | no contract of its own; SameFormulaAsFeedsAndSpeeds makes it the `feeds_and_speeds.py` formula |
| MainScript.SuggestChipload | main.py:15-69 | no contract of its own; SuggestChiploadIgnoresFlutes carries its properties, and it delegates to FeedsAndSpeeds.SuggestChipload |
| MainScript.UpdateGuidelines | main.py:193-214 | no contract of its own; the body is that of `feeds_and_speeds.py`, so it delegates to FeedsAndSpeeds.UpdateGuidelines, whose figures UpdateGuidelinesAgreesWithRepositories relates to the repositories |
| MainScript.SuggestChiploadIgnoresFlutes | main.py:15-54 | the result does not depend on `flutes`; from 6 mm up the lower endpoint is at least the 1.5 mm lower bound |
| MainScript.PerFluteFeed | main.py:230 | no contract of its own; PerFluteFeedIncreasing carries its property, and MaximizeFeedrate with ScanMaximiser.Scanned carry the scan's properties over it |
| MainScript.PerFluteFeedIncreasing | main.py:230 | with `rpm * flutes > 0` the feed strictly increases with the per-flute chipload |
| MainScript.MaximizeFeedrate | main.py:216-251 | the outcome is what `Scanned` determines for the scan over the suggested per-flute range with ceiling 6000: the visited grid points are exactly those up to the upper bound or the first feed over 6000. No valid feedrate iff none of them has a feed in (0, 6000]. Otherwise the best such feed, at the first visited grid point reaching it, with the RPM prompt iff the feed is below 6000 at or above the upper chipload |
| ScanMaximiser.RecordKeepsProgress | feeds_and_speeds.py:272-274 | recording a feed that beats the best and is within the ceiling keeps the loop invariant |
| ScanMaximiser.SkipKeepsProgress | feeds_and_speeds.py:267-277 | a pass that records nothing and does not break keeps the loop invariant |
| ScanMaximiser.PastUpperBound | feeds_and_speeds.py:267 | leaving the loop past the upper bound establishes `Scanned` |
| ScanMaximiser.OverCeiling | feeds_and_speeds.py:275-276 | breaking on a feed over the ceiling establishes `Scanned` |
| ScanMaximiser.Scan | feeds_and_speeds.py:263-277 | visits grid points within the upper bound until the first feed over the ceiling; the result is at least every feasible feed seen; strictly increasing records in (0, ceiling], the last one the result, taken at the first grid point reaching it |
| ScanMaximiser.ZeroMeansNoValidFeedrate | feeds_and_speeds.py:279-282 | a zero result holds exactly when no evaluated feed lies in (0, ceiling] |
| ScanMaximiser.RecordedResultBounds | main.py:229-236 | a non-zero result lies in (0, ceiling] and its chipload in [lower, upper] |

## Left out

- **Widget code.** Qt/Tk windows, combobox and entry wiring, message boxes, result formatting and `float()`/`int()` parsing are not modelled. Inputs arrive parsed. The view-model's `Update` datatype is the dispatch on the parameter name.
- **`increase_rpm` and `get_next_rpm`.** They only step the RPM selection in a widget.
- **`config.py` and `material.py`.** The first declares schemas with no logic. The second is a plain record, which is `Models.Material` here.
- **`cutting_style.py`.** It is not part of this model. `Models.CuttingStyle` is built from its uses.
- **The `maximize_feedrate.py` and `calculate_guidelines.py` use cases.** Each is a one-line delegation. The view-model calls the service and the guidelines function directly.
- **Floating point.** The model uses exact reals. The drift from adding 0.0001 repeatedly and the `abs(...) < 0.0001` display checks are not modelled.
- **`math.sqrt`.** It is the parameter `sqrt`, constrained by `IsSqrt`.
- **Typing defects.** These runtime failures are not modelled; every field is a plain number:
  - `cutting_parameters.py` never imports `math`;
  - `RPM` and `Distance` objects are stored where numbers are multiplied;
  - `.value` is read from a float diameter;
  - the optimiser's dictionary result is unpacked as a tuple.
- **`__repr__` and `__eq__` against other kinds of object.** Equality is modelled between measurements only.
- **Unknown material names in the scripts.** They raise `KeyError`; the scripts' members require a known name.
- **A zero or negative width of cut within the tool radius.** `FeedrateDefined` requires `woc > 0` whenever `woc <= D/2`. The source raises `ZeroDivisionError` or a math-domain `ValueError` there (cutting_parameters.py line 20, feeds_and_speeds.py line 20, main.py line 10).
- **Tables the interpolator cannot answer from.** `Suggestible` excludes an empty table, which raises `IndexError` in chipload_calculation_service.py line 14. It also excludes a one-key table queried above its key, which fails unpacking the last two keys at line 40.
- ViewModel.CNCCalculatorViewModel.CalculateResults: requires a material and a cutting style. `update_parameter` can set either to `None` for an unknown name, and the source then raises `AttributeError` in the chipload and guidelines services.
- FeedsAndSpeeds.MaximizeFeedrate: requires a non-zero flute count, because the source divides by it.
- OptimizationService.FeedrateOptimizationService.MaximizeFeedrate: requires the tool diameter to be a key of the material's table. For any other diameter the source raises `KeyError` at feedrate_optimization_service.py line 9. That includes the view-model's initial 6.35 mm, so `ViewModel.CNCCalculatorViewModel.MaximizeFeedrate` carries the same requirement.
- ChiploadService.ChiploadCalculationService.SuggestChipload: requires a material. The same requirement is on `FeedrateUseCase.CalculateFeedrateUseCase.Execute` and `OptimizationService.FeedrateOptimizationService.MaximizeFeedrate`. With a `None` material, which `update_parameter` stores for an unknown name, the source raises `AttributeError` when it reads the chipload table.
- OptimizationService.FeedrateOptimizationService.MaximizeFeedrate: requires a positive increment, or an initial bracket already no wider than the increment. Otherwise the loop would never end on exact reals.
- ScanMaximiser.Scan: terminates because exact steps of 0.0001 eventually pass the upper bound. Float rounding of the steps is not modelled.

## Findings

| source | as written | input that shows it | evidently intended | confidence | as-written member | corrected member |
|---|---|---|---|---|---|---|
| cnc_calculator/domain/services/feedrate_optimization_service.py:12-20 | line 12 overwrites the `max_feedrate` ceiling argument with 0, so line 20 compares each midpoint's feed against the best recorded so far | soft plastics at the 3.175 mm key, one flute, 18250 rpm: every midpoint's feed is positive, so nothing is recorded and the result is (0, 0.05) | compare each midpoint against the ceiling argument, so the search converges on the largest chipload within it | not executed | OptimizationService.AsWrittenNeverRecords | OptimizationService.CeilingSearchNearOptimal |

The corrected search is `Search(..., Ceiling(m), k)`, proved near-optimal whenever feed grows with chipload: within one increment of every feasible chipload, and strictly so when the top of the range is over the ceiling. The service method and the view-model keep the as-written comparison, because that is the code the program runs.
