# MIQ score: a Dafny model

This project models the scoring core of the MIQ score package (`miqScoreNGSReadCountPublic`). The package scores how well the read counts of one sequencing sample of a mock microbial community match the composition the community standard is known to have. The score is 100 minus the root mean squared percentage error, with an optional tolerance and an optional floor.

The model follows the package module by module:

- `PyDict` (`py_dict.dfy`): Python dicts keyed by strings. A dict is its keys in insertion order plus their values. It also defines `sumDictionary`'s sum, which skips the key `""`.
- `Outcomes` (`outcomes.dfy`): the exceptions the core raises (KeyError, ValueError, IndexError), `Result` and `Option`.
- `ReferenceHandler` (`reference_handler.dfy`):
  - the standard reference as a value record;
  - `processRawData`;
  - `determineExpectedReadSources`;
  - the two key-conversion functions.
- `GeneralDictOperations` (`general_dict_operations.dfy`):
  - `sumDictionary`;
  - the partition of counts into reference and non-reference reads.
- `AbsoluteReadCountDictOperations` (`absolute_read_count_dict_operations.dfy`): `convertDictToPercentages`.
- `PercentReadCountDictOperations` (`percent_read_count_dict_operations.dfy`):
  - `convertDecimalPercentages`;
  - `fillInMissingPercentPortion`;
  - `calculateObservedPercentOfExpected`.
- `ReportGeneration` (`report_generation.dfy`):
  - `generateAbsoluteReadFateCounts`;
  - the print-name relabelling of the read-fate table.
- `RadarMaker` (`radar_maker.dfy`):
  - `makeTopDownList`;
  - `getSamplesAndVariables`;
  - everything `makeRadarPlot` computes and checks before it draws.
- `MiqScore` (`miq_score.dfy`):
  - the `MiqScoreCalculator` constructor and `calculateMiq`;
  - the `MiqScoreData` result class, with its read-fate table and its plot cache for the read-fate chart and the radar plots.
- `RealFacts` (`real_facts.dfy`): small facts of real arithmetic used by the proofs.

The code's loops are Dafny methods with loop invariants. Each method is proved equal to a function that states what the loop builds, and lemmas prove what the code promises about those functions.

The result object is a class. Its `plots` cache is a field, and methods that update it declare `modifies`. Dicts are values: the source's `.copy()` calls are identities here.

Floats are reals. The square root is a parameter `sqrt`, and the theorems hold for any function satisfying `IsSquareRoot` (non-negative, squares back to its argument). The drawing functions are parameters too; they return a `Result`, because a drawing may raise.

`sumDictionary` is easily read as adding up the truthy values. The code instead skips the entries whose key is `""`, and it adds zero values like any others. The model follows the code: every total is `PyDict.Sum`, with that rule.

## Model

| member | source | states |
|---|---|---|
| GeneralDictOperations.SumDictionary | generalDictOperations.py:1-6 | returns `Sum` of the dict: the total of the values whose key is not "" (0 for `{}`) |
| PyDict.SumPut | generalDictOperations.py:1-6 | assigning `d[k] = v` changes the sum by `v` minus the overwritten value (0 if new), and not at all for the key "" |
| PyDict.CountedAtMostSum | generalDictOperations.py:1-6 | with non-negative values the sum is non-negative and no counted value exceeds it |
| GeneralDictOperations.SeparateReferenceAndNonreferenceReads | generalDictOperations.py:11-21 | the two returned dicts are `ReferenceReads` and `NonreferenceReads` of the observed counts; the input is a value and is not changed |
| GeneralDictOperations.ZeroFill | generalDictOperations.py:18-20 | the zero-fill loop adds every source still missing with count 0 |
| GeneralDictOperations.ReferenceReadsAt | generalDictOperations.py:13-20 | the reference dict has exactly the expected sources as keys; an observed one keeps its count, an unobserved one gets 0 |
| GeneralDictOperations.NonreferenceReadsAt | generalDictOperations.py:13-17 | the non-reference dict has exactly the observed sources that are not expected, each with its observed count |
| GeneralDictOperations.PartitionCovers | generalDictOperations.py:13-20 | the two key sets are disjoint, together cover every observed source, and their counts add back up to each observed count |
| AbsoluteReadCountDictOperations.ConvertDictToPercentages | absoluteReadCountDictOperations.py:3-10 | returns `Percentages`: the input itself when the sum is 0, otherwise the rescaled dict |
| AbsoluteReadCountDictOperations.Rescale | absoluteReadCountDictOperations.py:7-10 | the loop builds every value as a percentage of the sum, keys in the same order |
| AbsoluteReadCountDictOperations.PercentagesAt | absoluteReadCountDictOperations.py:3-10 | zero total gives the input back; otherwise same keys in the same order, each value `v / sum * 100` |
| AbsoluteReadCountDictOperations.PercentagesSumTo100 | absoluteReadCountDictOperations.py:4-9 | a non-zero total gives percentages whose sum is exactly 100 |
| AbsoluteReadCountDictOperations.PercentagesBounded | absoluteReadCountDictOperations.py:4-9 | for non-negative counts with a non-zero total every percentage is at least 0, and at most 100 for a key other than "" |
| AbsoluteReadCountDictOperations.PercentagesMonotone | absoluteReadCountDictOperations.py:9 | a smaller count never gets a larger percentage |
| PercentReadCountDictOperations.ConvertDecimalPercentages | percentReadCountDictOperations.py:3-10 | returns `DecimalPercentages`: the input when its total exceeds 2, otherwise every value times 100 |
| PercentReadCountDictOperations.MultiplyByHundred | percentReadCountDictOperations.py:7-10 | the loop builds every value times 100, keys in the same order |
| PercentReadCountDictOperations.DecimalPercentagesAt | percentReadCountDictOperations.py:3-10 | a total above 2 gives the input back; otherwise same keys in the same order and each value multiplied by 100 |
| PercentReadCountDictOperations.DecimalPercentagesTotal | percentReadCountDictOperations.py:3-10 | converted fractions add up to 100 times their old total; a total in percent is left as it is |
| PercentReadCountDictOperations.FillInMissingPercentPortion | percentReadCountDictOperations.py:12-23 | returns `FilledInPercentages`: the input when the total is 0 or at most 1 is missing, otherwise each value with its share of the missing portion added |
| PercentReadCountDictOperations.ShareOutMissing | percentReadCountDictOperations.py:19-23 | the loop adds to each value `missing * value / total`, keys in the same order |
| PercentReadCountDictOperations.FilledInPercentagesAt | percentReadCountDictOperations.py:12-23 | the two pass-through cases give the input back; otherwise same keys and each value `v + missing * v / total` |
| PercentReadCountDictOperations.FilledInTotal | percentReadCountDictOperations.py:19-22 | once filled in, the composition adds up to exactly 100 |
| PercentReadCountDictOperations.FilledInProportion | percentReadCountDictOperations.py:20-22 | filling in keeps proportions: each new value over 100 equals the old value over the old total |
| PercentReadCountDictOperations.TruthySources | percentReadCountDictOperations.py:26-33 | the set loop collects exactly the keys whose value is non-zero |
| PercentReadCountDictOperations.CalculateObservedPercentOfExpected | percentReadCountDictOperations.py:25-44 | ValueError exactly when a source observed with a non-zero value is not expected with a non-zero value (zero observations are ignored); otherwise the result has exactly the truthy expected sources, each observed / expected * 100 or 0 when unobserved |
| ReferenceHandler.ProcessRawData | referenceHandler/__init__.py:32-38 | KeyError exactly when one of the five fields is absent; otherwise the record holds the five fields and `analysisMethods` is the key list of `expectedValues` |
| ReferenceHandler.DetermineExpectedReadSources | referenceHandler/__init__.py:41-53 | KeyError exactly for a method not in `analysisMethods`; otherwise exactly the items of that method with a non-zero expected value |
| ReferenceHandler.AddCount | referenceHandler/__init__.py:63-65 | creating a missing total at 0 and then adding the count adds the count to that name's total |
| ReferenceHandler.ConvertKeys | referenceHandler/__init__.py:57-66 | the loop builds `Renamed`: each count added to the total of its looked-up name |
| ReferenceHandler.ConvertKeysToStandardIdentifiers | referenceHandler/__init__.py:56-66 | the renaming of the counts through `nameLookup` |
| ReferenceHandler.ConvertKeysToPrintIdentifiers | referenceHandler/__init__.py:69-79 | the renaming of the counts through `printNames` |
| ReferenceHandler.RenamedKeys | referenceHandler/__init__.py:58-65 | the output keys are exactly the images of the input keys under lookup-or-identity |
| ReferenceHandler.RenamedValue | referenceHandler/__init__.py:63-65 | each output total is the sum of the counts of all raw names that map to it |
| ReferenceHandler.RenamedTotal | referenceHandler/__init__.py:57-66 | renaming conserves `sumDictionary`'s total when exactly the empty name maps to the empty name |
| ReferenceHandler.RenamedUnchanged | referenceHandler/__init__.py:59-62 | when no key has a lookup entry the output is the input, in the same order |
| ReportGeneration.GenerateAbsoluteReadFateCounts | reportGeneration.py:31-36 | returns the non-reference counts with "Reference" set to the sum of the reference counts |
| ReportGeneration.ReadFateCountsAt | reportGeneration.py:33-35 | "Reference" holds the reference total, every other non-reference entry is unchanged, and "Reference" goes last if it was new |
| ReportGeneration.RelabelReadFates | reportGeneration.py:2-11 | returns `PrintReadFateTable`: the relabelled table when print names are truthy, the table itself otherwise |
| ReportGeneration.Relabel | reportGeneration.py:4-9 | the loop writes each fate under its print name, or under itself when it has none |
| ReportGeneration.RelabeledTable | reportGeneration.py:4-9 | the relabelled keys are exactly the print names (or own names) of the fates, each holding the value of the last fate relabelled to it |
| ReportGeneration.RelabeledInjective | reportGeneration.py:4-9 | when distinct fates get distinct labels, every fate's value survives under its label |
| ReportGeneration.PrintReadFateTableUnchanged | reportGeneration.py:3-11 | without print names, or with none that applies, the table is returned as it is |
| RadarMaker.MakeTopDownList | plotting/radarMaker.py:6-17 | the pop/append/insert loop builds `TopDown` of the rank order |
| RadarMaker.TopDownShape | plotting/radarMaker.py:7-16 | the top-down list is the odd positions of the reversed list backwards followed by its even positions; the last-ranked item sits in the middle |
| RadarMaker.TopDownPermutation | plotting/radarMaker.py:6-17 | the top-down list has the same length and the same multiset of items as the rank order |
| RadarMaker.GetSamplesAndVariables | plotting/radarMaker.py:20-26 | IndexError for no samples, ValueError when some sample's key set differs from the first's, otherwise the samples in order and the first sample's keys |
| RadarMaker.CheckRankOrder | plotting/radarMaker.py:58-60 | passes exactly when every ranked variable is among the data's variables |
| RadarMaker.SampleValues | plotting/radarMaker.py:97-99 | the sample's value of each variable, in display order |
| RadarMaker.PlotSamples | plotting/radarMaker.py:88-103 | an error exactly when a sample is displayed and either nothing is ranked (IndexError) or the ranked items are not as many as the variables, so the closed value list does not pair with the angles (ValueError); otherwise the displayed samples (restricted if asked) and their closed value lists |
| RadarMaker.XTickLabels | plotting/radarMaker.py:104-109 | KeyError when print names are truthy and a variable has none; the print names, or the variables themselves, otherwise |
| RadarMaker.MakeRadarPlot | plotting/radarMaker.py:35-118 | returns `RadarPlotLayout`, the checks in the code's order: samples and variables, rank order, no variables, more than 4 samples, empty values, values not as many as the angles, print names |
| RadarMaker.RadarPlotLayoutOk | plotting/radarMaker.py:57-118 | when every check passes the layout is made from the samples, the top-down order, the displayed samples' values, the tick labels and the title |
| RadarMaker.RadarPlotLayoutMade | plotting/radarMaker.py:57-118 | a layout is made only if every check passed (including, when a sample is shown, as many ranked items as variables), and it is then that layout |
| RadarMaker.RadarLayoutShape | plotting/radarMaker.py:57-110 | a made layout has 1 to 4 samples, a display order that rearranges the rank order, one tick label per ranked item, as many ranked items as variables when a sample is shown, and one value list per displayed sample, each sample from the data and the restriction |
| RadarMaker.RadarLayoutSeries | plotting/radarMaker.py:97-101 | each value list holds the sample's value of each variable in display order, then the first value again |
| RadarMaker.KeptFrom | plotting/radarMaker.py:92-96 | the sample restriction keeps exactly the samples that are allowed |
| RadarMaker.SingleSampleLayout | plotting/radarMaker.py:57-110 | one sample ranked by its own variables: IndexError exactly when nothing is ranked or there are no variables, ValueError exactly when the number ranked differs from the number of variables, KeyError exactly when a ranked variable lacks a print name, otherwise the layout |
| MiqScore.NewMiqScoreCalculator | __init__.py:22-32 | ValueError exactly for an analysis method the reference lacks; otherwise the fields as given and the truthy expected sources in dict order |
| MiqScore.ExpectedReadSourcesAt | __init__.py:29-32 | the expected read sources are exactly the items with non-zero expected value, each listed once |
| MiqScore.Score | __init__.py:37-60 | ValueError exactly when no source is expected (mean of nothing); otherwise the partition of the renamed counts, their percentages, percent of expected, and the raw and floored score |
| MiqScore.ObservedAreExpected | __init__.py:38-40 | the sample percentages have exactly the expected sources as keys, so the percent-of-expected step cannot raise |
| MiqScore.CollectPercentOfExpected | __init__.py:41-43 | the percent-of-expected values in the order of the sample percentages |
| MiqScore.SquaredErrors | __init__.py:45-53 | each error banded: 0 within a non-zero tolerance, `(abs(e) - t)^2` beyond it, `e^2` when the tolerance is 0 |
| MiqScore.PenaltyZeroIff | __init__.py:47-53 | a contribution is never negative, and with a non-negative tolerance it is 0 exactly when the error is within the tolerance |
| MiqScore.PenaltyMonotone | __init__.py:47-51 | a larger tolerance never increases a contribution |
| MiqScore.ZeroTolerancePenalties | __init__.py:52-53 | with tolerance 0 every contribution is the plain square of the error |
| MiqScore.SquareRootOfSquare | __init__.py:55 | the square root of `r^2` is `r` for `r >= 0` |
| MiqScore.RawScoreAtMost100 | __init__.py:54-56 | the raw score is at most 100, and with a non-negative tolerance it is 100 exactly when every error is within the tolerance |
| MiqScore.PerfectSampleScores100 | __init__.py:41-56 | a sample with exactly the expected percentages scores 100 |
| MiqScore.TwoSourceScores | __init__.py:44-56 | sources at 150 and 50 percent of expected: mean squared error 2500 and score 50 without tolerance, 1600 and 60 with tolerance 10 |
| MiqScore.FilteredBounds | __init__.py:57-60 | no floor keeps the raw score; a floor gives `max(raw, floor)`, at least the floor and at least the raw score |
| MiqScore.ScoringKeys | __init__.py:38-43 | the reference counts and the percent of expected both have exactly the expected sources as keys |
| MiqScore.CalculateMiq | __init__.py:34-61 | ValueError exactly when no source is expected; otherwise a new valid result holding the scoring, the calculator's tolerance, method and reference, the sample ID, an empty cache and `storePlots` set |
| MiqScore.MiqScoreData.constructor | __init__.py:66-79 | the fields are the arguments, the read-fate table is built, the cache is empty |
| MiqScore.MiqScoreData.MakeReadFateTable | __init__.py:81-85 | the non-reference counts plus "Reference" = sum of the reference counts, as percentages |
| MiqScore.MiqScoreData.MakeReadFateChart | __init__.py:87-102 | a cached chart is returned unless a redraw is forced; otherwise the chart of the relabelled table is drawn; a drawing that raises leaves the cache as it was, and a drawn chart is cached only when plots are stored |
| MiqScore.MiqScoreData.PresentItems | __init__.py:111 | keeps exactly the sorting's items that have a reference count |
| MiqScore.SingleSample | __init__.py:116 | the plotting dict has the title as its only sample, holding the percent of expected |
| MiqScore.DrawPlots | __init__.py:107-118 | the loop draws each sorting in turn and raises the first error |
| MiqScore.DrawnUpToErrorStays | __init__.py:108-118 | once a sorting raises, the loop's outcome is that error |
| MiqScore.DrawnUpToKeys | __init__.py:107-118 | the drawn plots are keyed by the sortings, in their order |
| MiqScore.DrawnUpToAt | __init__.py:107-118 | each sorting holds the plot drawn for it |
| MiqScore.MiqScoreData.MakeRadarPlots | __init__.py:104-121 | a cached entry is returned unchanged unless a redraw is forced; otherwise every sorting's plot is made, an error leaves the cache as it was, and the plots are cached only when stored |
| MiqScore.MiqScoreData.RadarPlotsKeys | __init__.py:107-121 | the radar plots are keyed by the sortings in their order, each the plot of its sorting |
| MiqScore.MiqScoreData.RadarLayoutOfOutcome | __init__.py:108-117 | a sorting's radar layout is an IndexError exactly when nothing is ranked or there is no percent of expected, a ValueError exactly when the number of counted items ranked differs from the number of percent-of-expected entries, a KeyError exactly when a ranked item has no print name, and made otherwise |
| MiqScore.CachedDrawStored | __init__.py:88-101 | a plot drawn and stored is what the next call without a redraw returns, and the cache then stays as it is |
| MiqScore.CachedDrawFrame | __init__.py:100-101 | without storing the cache never changes; with storing only the drawn key does |

## Left out

- Drawing and base64 encoding (matplotlib, `plotting/readFateChart.py`, `plotting/stackedBars.py`, and the drawing calls of `makeRadarPlot`): the drawings are function parameters (`drawReadFateChart`, `drawRadarPlot`) that return a `Result`, so a drawing may raise. What `makeRadarPlot` computes before it draws is modelled as `RadarLayout`, including the length check of `plot` at plotting/radarMaker.py:102.
- Which inputs make a drawing raise is not modelled. For example, `makePrettyForPrint` raises IndexError for the read fate `""` (plotting/readFateChart.py:10-11). Recent matplotlib versions also reject a tick label list whose length differs from the number of ticks (plotting/radarMaker.py:70 and :110). The model only promises that such an error is passed on and leaves the cache as it was.
- `getListOfAngles` (`pi` and floating-point angles): only its IndexError for no variables is modelled. The drawing with 720 angles cannot fail.
- `makeCompositionBarPlot`: it builds a stacked-bar drawing and is not part of this model.
- File and JSON I/O: `StandardReference.__init__`, `loadDictionary`, `loadStoredReferenceDict`, `loadExampleData`, `loadReferenceCompositionFromExampleMiq` and `jsonOutput` are not modelled. The decoded JSON enters as `RawReferenceData`.
- HTML: `performReplacement`, `generateReport` and the row strings and `round` calls of `generateReadFateChartBody` are not modelled.
- IEEE floating point is modelled as exact reals, and Python ints and floats are not told apart. `** 0.5` is the parameter `sqrt`, about which the lemmas assume only `IsSquareRoot`.
- The dict branch of `separateReferenceAndNonreferenceReads` (generalDictOperations.py:9-10) is not modelled. It calls `list(expectedReads.keys)` without calling `keys`, so it cannot work. Only the list argument is modelled.
- Exception messages are not modelled, only the exception classes. The empty `statistics.mean` raises StatisticsError, which is a subclass of ValueError, and is modelled as ValueError.
- Aliasing is not modelled: dicts are values. The source passes the input dict itself back in its pass-through cases and copies it elsewhere. The model cannot tell those apart.
- The `ValueError` for a duplicate item in `determineExpectedReadSources` is not modelled as reachable. It cannot happen for a dict, and the model proves that branch dead.
- PercentReadCountDictOperations.CalculateObservedPercentOfExpected: the result's key order follows Python's set iteration. Only the keys and values are stated, not the order.
- ReferenceHandler.DetermineExpectedReadSources: the result is a set, as in the source. `MiqScore.NewMiqScoreCalculator` is the one that keeps dict order.
- ReferenceHandler.RenamedTotal: conservation is stated only when exactly the empty name maps to the empty name. `sumDictionary` skips the key `""`, so the source does not conserve the total otherwise either.
- AbsoluteReadCountDictOperations.PercentagesBounded: the upper bound of 100 is stated for keys other than `""`. The key `""` is left out of the total, so its value can exceed it.
- RadarMaker.MakeRadarPlot: the restriction is taken as an optional list. The source wraps a single string into a list first (plotting/radarMaker.py:88-90), and that step is not modelled.
- MiqScore.MiqScoreData.MakeRadarPlots: each sorting's plot is the function `RadarPlotOf`. It applies `RadarPlotLayout` through `RadarLayoutOf`, and then the drawing parameter. `RadarMaker.MakeRadarPlot` is proved to compute `RadarPlotLayout`, but `RadarPlotOf` does not call the method.
- MiqScore.MiqScoreData.MakeReadFateChart: its relabelling loop is the same code as `generateReadFateChartBody`. It is modelled by `ReportGeneration.RelabelReadFates`.
