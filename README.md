# Film-extrusion analytics core, modelled in Dafny

The backend of this film-extrusion monitoring system has four analytics parts, and this project models all four:

- **Anomaly detection** (`backend/ml/anomalyDetection.js`)
  - scores every monitored sensor parameter of a reading against a history window of past readings;
  - with fewer than 10 history values, it scores against a fixed or target-relative normal range;
  - with 10 or more, it computes z-scores and trimmed MAD scores;
  - it flags a reading as anomalous when at least three parameters are outliers;
  - the batch driver gates records on a plausible `total_output`, merges database and in-run history without duplicate timestamps, and derives adaptive thresholds from the 95th percentile of the history's scores.
- **Quality scoring** (`backend/ml/qualityScoring.js`)
  - combines a deviation score from tolerance bands (at most 50 points) with a process-capability score from the Cpk of thickness and throughput (at most 50 points);
  - processes batches with the same plausibility gate.
- **Maintenance prediction** (`backend/ml/maintenancePrediction.js`)
  - computes a health score from the time since the last maintenance, equipment age, recent maintenance severity and sensor deviations;
  - turns it into a 0..10 score, the days to the next maintenance, a risk level and a confidence.
- **CSV import** (`backend/utils/csvImporter.js`)
  - parses the "DD.MM.YYYY h:mm" dates;
  - maps CSV rows to sensor documents with derived efficiency and mock quality, anomaly and maintenance fields;
  - imports the rows in batches of 100, dropping documents without a timestamp and counting the failures.

## Modules

| module | file | content |
|---|---|---|
| `Wrappers` | `wrappers.dfy` | `Option` and `Result` |
| `Strings` | `strings.dfy` | `split`, `includes`, `replace`, `padStart`, index keys and `parseInt` |
| `Values` | `values.dfy` | JavaScript values, property reads, truthiness and `Number` coercion |
| `Access` | `access.dfy` | `getNestedValue` |
| `Stats` | `stats.dfy` | sums, z-scores, MAD, insertion sort, `Math.percentile` (with an in-place array sort), `Math.round` |
| `History` | `history.dfy` | the plausibility gate, timestamp keys and the history merge shared by the anomaly and quality drivers |
| `Anomaly` | `anomaly.dfy` | the anomaly detector |
| `Quality` | `quality.dfy` | quality scoring |
| `Maintenance` | `maintenance.dfy` | maintenance prediction |
| `CsvImport` | `csv_import.dfy` | the CSV importer |

**Loops and specifications**

- The source's loops are methods with loop invariants:
  - the parameter loop of `detectAnomalies`;
  - the result loop of `processBatch`;
  - the `forEach` of `calculateQualityScore`;
  - the record loop of `processQualityBatch`;
  - the sensor `forEach` of `calculateHealthScore`;
  - the batch loop of the importer.
- Each of these methods is proved equal to a specification function.
- The properties are proved about those functions.

**Environment as parameters**

- `Math.sqrt` is a parameter constrained by `Stats.IsSqrt`.
- The clock is a parameter, and so is `Math.random`, as the draws of a row.
- `parseFloat` of a string and the validity of `new Date(iso)` are parameters.
- The database query result is a parameter.

## Model

| member | source | states |
|---|---|---|
| Access.WalkAppend | backend/ml/anomalyDetection.js:11-17 | reducing over two key sequences in turn is reducing over one and continuing from its value; a failing read stops the walk |
| Access.WalkFromUndefined | backend/ml/anomalyDetection.js:16-19 | reading any key of `undefined` throws, so the whole path read fails |
| Access.MissingSegment | backend/ml/anomalyDetection.js:9-21 | a path whose prefix reads `undefined` gives `undefined` (the TypeError is caught) |
| Access.PlainPath | backend/ml/anomalyDetection.js:11-17 | a dotted path of plain names is the walk through those names, `undefined` on failure |
| Access.PlainKey | backend/ml/anomalyDetection.js:11-16 | a key with no `.` or `[` is a single property read |
| Access.SegmentPieces | backend/ml/anomalyDetection.js:13 | splitting `name[digits]` on brackets and dropping empties gives exactly `[name, digits]` |
| Access.IndexedSegment | backend/ml/anomalyDetection.js:12-14 | a segment `name[i]` over an array field reads its i-th element |
| Strings.SplitJoin | backend/ml/anomalyDetection.js:11 | joining the pieces of `split(c)` with `c` gives back the string |
| Strings.JoinSplit | backend/ml/anomalyDetection.js:11 | splitting a join of separator-free pieces gives back the pieces |
| Strings.SplitOnFree | backend/utils/csvImporter.js:12-15 | a string without the separator splits into itself alone |
| Strings.SplitOnFirst | backend/utils/csvImporter.js:12-15 | the first separator ends the first piece, and the rest splits on |
| Strings.SplitOnKeepsFree | backend/utils/csvImporter.js:12-15 | pieces of a string free of other characters stay free of them |
| Strings.DropEmpty | backend/ml/anomalyDetection.js:13 | `filter(Boolean)` keeps exactly the non-empty pieces; a single piece is kept iff it is non-empty |
| Strings.DropEmptyAppend | backend/ml/anomalyDetection.js:13 | filtering a concatenation concatenates the filtered parts, so order and repetitions are kept |
| Strings.IncludesChar | backend/ml/anomalyDetection.js:12 | a key missing a character of the pattern does not include the pattern |
| Strings.ReplaceFirst | backend/ml/anomalyDetection.js:144 | `replace` changes nothing when the pattern is absent |
| Strings.ReplaceFirstAt | backend/ml/anomalyDetection.js:144 | when the pattern first occurs at i, `replace` substitutes that occurrence and keeps the text before and after it |
| Strings.PadStart2 | backend/utils/csvImporter.js:28 | `padStart(2,'0')`: length at least 2, the input as the suffix, zeros before it |
| Strings.NatToString | backend/ml/anomalyDetection.js:14 | the decimal numeral of n: digits only, value n, no leading zero |
| Strings.CanonicalNumeral | backend/ml/anomalyDetection.js:14 | a digit string without a leading zero is the numeral of its value |
| Strings.IndexKeyRoundTrip | backend/ml/anomalyDetection.js:14 | the numeral of n reads back as array index n |
| Strings.ParseIntNumeral | backend/ml/anomalyDetection.js:14 | `parseInt` of the numeral of n is n |
| Strings.DigitPrefixAll | backend/ml/anomalyDetection.js:14 | the digit prefix of a digit string is the whole string |
| Values.ToNumber | backend/ml/anomalyDetection.js:122 | a number is itself; `null` is 0; a boolean is 0 or 1; `undefined`, NaN and objects are NaN |
| Values.Get | backend/ml/anomalyDetection.js:14-16 | a property read throws exactly on `undefined`/`null`; on an object it is the field or `undefined` |
| Values.FieldIsPlainGet | backend/ml/anomalyDetection.js:16 | for a key that is not an index or `length`, the property read equals the plain field |
| Values.FieldIsGet | backend/ml/maintenancePrediction.js:76-81 | on a truthy value a plain-named property read succeeds and is the field |
| Values.GetIndexOfArray | backend/ml/anomalyDetection.js:14 | indexing an array by a valid number reads that element |
| Values.Spread | backend/ml/anomalyDetection.js:260 | `{...v}`: an object's own fields; an array's elements under their index keys |
| Values.Numbers | backend/ml/anomalyDetection.js:359 | `filter(typeof v === 'number')` keeps exactly the numbers; a single value is kept iff it is a number |
| Values.NumbersAppend | backend/ml/anomalyDetection.js:359 | the numbers of a concatenation are the numbers of each part, in order |
| Values.NumbersOfNumArray | backend/ml/anomalyDetection.js:359 | extracting the numbers of an array made of numbers gives them back |
| Stats.SumShift | backend/ml/anomalyDetection.js:29-31 | subtracting c from each element lowers the sum by n·c |
| Stats.SumScale | backend/ml/anomalyDetection.js:34 | dividing each element by c divides the sum by c |
| Stats.SumNonNegative | backend/ml/anomalyDetection.js:31 | a sum of non-negative terms is non-negative, and zero only when every term is zero |
| Stats.PopulationStdDev | backend/ml/anomalyDetection.js:31-32 | the square root of the population variance: non-negative and squaring back to it |
| Stats.CalculateZScores | backend/ml/anomalyDetection.js:28-35 | one score per value; their sum and spread are stated by `ZScoresSumToZero` and `ZScoresUnitStdDev` |
| Stats.ZScoresSumToZero | backend/ml/anomalyDetection.js:28-35 | the z-scores of any sample sum to zero |
| Stats.ZScoresUnitVariance | backend/ml/anomalyDetection.js:28-35 | with a non-zero standard deviation, the z-scores have population variance 1 |
| Stats.ZScoresUnitStdDev | backend/ml/anomalyDetection.js:28-35 | with a non-zero standard deviation, the z-scores have population standard deviation 1 |
| Stats.ConstantSampleZeroScores | backend/ml/anomalyDetection.js:33 | a constant sample has standard deviation 0 and every z-score 0 |
| Stats.InsertPermutation | backend/ml/anomalyDetection.js:43 | inserting into a sorted list adds exactly that element |
| Stats.InsertSorted | backend/ml/anomalyDetection.js:43 | inserting into a sorted list keeps it sorted |
| Stats.Sort | backend/ml/anomalyDetection.js:43 | `sort((a,b)=>a-b)` gives a sorted list of the same length |
| Stats.SortPermutation | backend/ml/anomalyDetection.js:43 | the sorted list is a permutation of the input |
| Stats.SortedUnique | backend/ml/anomalyDetection.js:43 | two sorted permutations of the same multiset are equal |
| Stats.SortShifted | backend/ml/anomalyDetection.js:43-46 | sorting commutes with adding a constant to every element |
| Stats.AbsDeviations | backend/ml/anomalyDetection.js:45 | the distance of each value from the median, non-negative |
| Stats.Mad | backend/ml/anomalyDetection.js:46-50 | the median absolute deviation used for the scores is non-negative |
| Stats.MadScore | backend/ml/anomalyDetection.js:52 | a MAD score is non-negative, and 0 when the deviation or the MAD is 0 |
| Stats.CalculateMAD | backend/ml/anomalyDetection.js:42-53 | one non-negative score per value; invariance under shifting and positive scaling is stated by `MadShiftInvariant` and `MadScaleInvariant` |
| Stats.MadZeroScoresZero | backend/ml/anomalyDetection.js:52 | a zero MAD makes every score 0 |
| Stats.MedianScoresZero | backend/ml/anomalyDetection.js:44-52 | the value at the median scores 0 |
| Stats.MedianIsMember | backend/ml/anomalyDetection.js:44 | the median is one of the values |
| Stats.MadShiftInvariant | backend/ml/anomalyDetection.js:42-53 | the MAD scores do not change when every value is shifted by a constant |
| Stats.SortMapped | backend/ml/anomalyDetection.js:43 | sorting commutes with any map that keeps the order both ways |
| Stats.SortScaled | backend/ml/anomalyDetection.js:43 | sorting commutes with multiplying every element by a positive constant |
| Stats.MedianScaled | backend/ml/anomalyDetection.js:44 | multiplying every value by a positive constant multiplies the median by it |
| Stats.TrimmedMadMapped | backend/ml/anomalyDetection.js:46-50 | the trimmed MAD commutes with an order-preserving map that keeps zero, and only zero, at zero |
| Stats.MadMapped | backend/ml/anomalyDetection.js:44-50 | a rescaling of the data rescales the MAD |
| Stats.CalculateMadMapped | backend/ml/anomalyDetection.js:42-53 | a rescaling of the data leaves every MAD score unchanged |
| Stats.MadScaleInvariant | backend/ml/anomalyDetection.js:42-53 | the MAD scores do not change when every value is multiplied by a positive constant |
| Stats.ConstantSampleLastScores | backend/ml/anomalyDetection.js:172-175 | for a constant series the last z-score and the last MAD score are 0 |
| Stats.Ceil | backend/ml/anomalyDetection.js:362 | `Math.ceil`: the least integer not below x |
| Stats.PercentileIsSampleMember | backend/ml/anomalyDetection.js:357-364 | the percentile is 0 without numbers, and otherwise one of the array's numbers |
| Stats.PercentileFallbackIsMax | backend/ml/anomalyDetection.js:363 | when the rank index is out of range or holds 0, the result is the largest number |
| Stats.Swap | backend/ml/anomalyDetection.js:361 | exchanges two array cells and keeps the multiset |
| Stats.SortInPlace | backend/ml/anomalyDetection.js:361 | the array ends sorted and a permutation of its old contents |
| Stats.Percentile | backend/ml/anomalyDetection.js:357-364 | the in-place computation equals the percentile specification |
| Stats.Round | backend/ml/qualityScoring.js:207 | `Math.round`: within half a unit, halves rounding up |
| Stats.RoundBounds | backend/ml/maintenancePrediction.js:123 | rounding a value between two integers stays between them |
| Stats.RoundMonotone | backend/ml/maintenancePrediction.js:119-123 | rounding is monotone |
| History.PlausibleIsGate | backend/ml/anomalyDetection.js:258-259 | the gate is `getNestedValue(d,'total_output')` not undefined or NaN, above 0 and at most 1000 |
| History.PlausibleIsObject | backend/ml/anomalyDetection.js:275-278 | only an object holding a `total_output` field passes the gate |
| History.PlausibleByField | backend/ml/anomalyDetection.js:258-259 | the gate depends on the `total_output` field alone |
| History.TimestampKey | backend/ml/anomalyDetection.js:284-287 | `d.timestamp?.toISOString()` fails exactly on `undefined`/`null` records or non-Date timestamps; a Date gives its instant |
| History.PlausibleOnly | backend/ml/anomalyDetection.js:275-278 | keeps exactly the plausible records; a single record is kept iff it is plausible |
| History.PlausibleOnlyAppend | backend/ml/anomalyDetection.js:275-278 | filtering a concatenation concatenates the filtered parts, so order and repetitions are kept |
| History.TimestampKeys | backend/ml/anomalyDetection.js:284 | the key set fails iff some key fails, and otherwise holds exactly the records' keys |
| History.UniqueProcessed | backend/ml/anomalyDetection.js:285-288 | fails iff some in-run key fails; otherwise keeps exactly the plausible in-run records whose key the database lacks; a single record is kept iff it is such a record |
| History.UniqueProcessedAppend | backend/ml/anomalyDetection.js:285-288 | on a concatenation: the first part's failure, else the second's, else the two kept parts in order |
| History.KeyFilterAppend | backend/ml/anomalyDetection.js:285-288 | a keyed filter that can fail splits over a concatenation the same way |
| History.UniqueIsKeyFilter | backend/ml/anomalyDetection.js:285-288 | the in-run filter is the keyed filter keeping fresh plausible records |
| History.LastN | backend/ml/anomalyDetection.js:289 | `slice(-n)`: the last min(n, length) elements |
| History.MergeHistory | backend/ml/anomalyDetection.js:274-289 | the window holds at most 100 records, all plausible |
| History.MergeHistoryParts | backend/ml/anomalyDetection.js:284-289 | the window is the last 100 of the plausible database records followed by the unique in-run records |
| History.InRunPartExcludesDatabase | backend/ml/anomalyDetection.js:284-289 | an in-run record in the window is plausible, and its timestamp differs from every plausible database record's |
| History.MergeHistoryFails | backend/ml/anomalyDetection.js:284-288 | the merge fails iff a plausible database record or an in-run record has a failing timestamp key |
| Anomaly.HistoryValues | backend/ml/anomalyDetection.js:124-129 | the history values are exactly the numeric readings of the parameter in the history; a single record gives its reading iff it is numeric |
| Anomaly.HistoryValuesAppend | backend/ml/anomalyDetection.js:124-129 | the history values of a concatenation are those of each part, in order |
| Anomaly.NumberOr | backend/ml/anomalyDetection.js:142-150 | `(v \|\| d)` as a number: the default for a falsy field, the number itself otherwise |
| Anomaly.ColdRange | backend/ml/anomalyDetection.js:132-153 | the named families get a proper range; the value-relative range is ordered iff the value is not negative |
| Anomaly.ColdZScore | backend/ml/anomalyDetection.js:155-158 | 0 at the centre or for a zero-width range; non-negative; at most 3 inside the range |
| Anomaly.ColdMadScore | backend/ml/anomalyDetection.js:159-162 | 0 inside the range; positive outside a non-negative range |
| Anomaly.ScoreParam | backend/ml/anomalyDetection.js:121-183 | no score iff the value is undefined or NaN; the cold branch (with a range) iff fewer than 10 history values; cold: the range, z and MAD scores, an outlier iff z or MAD exceeds its threshold; warm: the warm score of the history plus the value, an outlier iff \|z\| or MAD exceeds its threshold |
| Anomaly.WarmScore | backend/ml/anomalyDetection.js:171-183 | the last z-score and last MAD score of the history plus the value; an outlier iff \|z\| or MAD exceeds its threshold |
| Anomaly.ColdInRange | backend/ml/anomalyDetection.js:155-169 | a cold reading inside its range has MAD score 0 and z-score at most 3, and is an outlier iff z exceeds the threshold |
| Anomaly.ColdAtCentre | backend/ml/anomalyDetection.js:155-169 | a cold reading at the centre of its range scores 0 and is no outlier |
| Anomaly.WarmSteadyReading | backend/ml/anomalyDetection.js:171-183 | a reading equal to a history of 10 or more identical values scores 0 on both methods and is no outlier |
| Anomaly.WarmConstant | backend/ml/anomalyDetection.js:172-181 | the warm scores of a constant series are 0 and no outlier |
| Anomaly.Put | backend/ml/anomalyDetection.js:164-182 | recording a parameter score keeps the order and score map consistent |
| Anomaly.ScanParams | backend/ml/anomalyDetection.js:115-190 | the running maxima are non-negative and the details consistent |
| Anomaly.ScanEntries | backend/ml/anomalyDetection.js:120-183 | the details hold exactly the scored parameters, with their scores |
| Anomaly.ScanMaxima | backend/ml/anomalyDetection.js:188-189 | maxZ and maxMad bound every score and are attained, or are 0 |
| Anomaly.FlaggedRef | backend/ml/anomalyDetection.js:192 | the flagged parameters: exactly the scored outliers, without repetition |
| Anomaly.ScanFlagged | backend/ml/anomalyDetection.js:192 | `Object.keys(paramScores).filter(isOutlier)` is the flagged list |
| Anomaly.OutlierCount | backend/ml/anomalyDetection.js:185-187 | for distinct parameters the outlier counter equals the number of flagged parameters |
| Anomaly.DefaultExactlyForEmpty | backend/ml/anomalyDetection.js:73-75 | the default result comes back exactly for a falsy, non-object or empty reading |
| Anomaly.DetectFlagged | backend/ml/anomalyDetection.js:192-199 | the result lists the flagged parameters and is anomalous iff there are at least 3 |
| Anomaly.DetectMethod | backend/ml/anomalyDetection.js:200 | the method is "Z-Score" iff the largest \|z\| exceeds the largest MAD score |
| Anomaly.DetectNamesMethod | backend/ml/anomalyDetection.js:200 | an examined reading is labelled "Z-Score" or "MAD" |
| Anomaly.DetectScoreBounds | backend/ml/anomalyDetection.js:193-195 | with positive thresholds the anomaly score lies in [0, 1] |
| Anomaly.ScanLoop | backend/ml/anomalyDetection.js:115-190 | the parameter loop computes the scan specification |
| Anomaly.DetectAnomalies | backend/ml/anomalyDetection.js:64-204 | the detector method equals the detection specification |
| Anomaly.WithAnnotation | backend/ml/anomalyDetection.js:330-336 | the annotated record keeps every other field and sets the four anomaly fields |
| Anomaly.Annotate | backend/ml/anomalyDetection.js:321-346 | every result carries an anomaly score; a record that already has one passes unchanged |
| Anomaly.AnnotateAll | backend/ml/anomalyDetection.js:319-348 | one annotated record per validated record |
| Anomaly.AnnotateCases | backend/ml/anomalyDetection.js:257-336 | implausible records get the zero annotation; annotated plausible ones pass; other plausible ones get detected |
| Anomaly.AnnotatedKeepsFields | backend/ml/anomalyDetection.js:330-331 | annotation keeps every non-anomaly field |
| Anomaly.AnnotateKeepsPlausible | backend/ml/anomalyDetection.js:319-336 | annotating a plausible record keeps it plausible |
| Anomaly.ZeroStable | backend/ml/anomalyDetection.js:257-325 | a zero-annotated record passes through validation and annotation unchanged |
| Anomaly.AnnotateIdempotent | backend/ml/anomalyDetection.js:257-346 | running the record pipeline on its own output changes nothing |
| Anomaly.AnnotateAllIdempotent | backend/ml/anomalyDetection.js:319-348 | annotating an annotated batch changes nothing |
| Anomaly.Thresholds | backend/ml/anomalyDetection.js:293-317 | z threshold at least 3; MAD threshold in [3.5, 10]; the defaults with fewer than 20 history records |
| Anomaly.ThresholdsFromSample | backend/ml/anomalyDetection.js:295-311 | each threshold is its default, its cap, or one of the sample's scores |
| Anomaly.AdaptiveThresholds | backend/ml/anomalyDetection.js:293-317 | the threshold computation equals the threshold specification |
| Anomaly.ProcessBatchSpec | backend/ml/anomalyDetection.js:212-349 | `[]` for a non-array; one annotated record per input; failure iff the history merge fails |
| Anomaly.ProcessBatchRecord | backend/ml/anomalyDetection.js:257-346 | each output record is the zero annotation, the record itself, or its detection under the adaptive thresholds |
| Anomaly.ProcessBatchIdempotent | backend/ml/anomalyDetection.js:212-349 | processing a processed batch again, under any history, returns it unchanged |
| Anomaly.ResultLoop | backend/ml/anomalyDetection.js:319-348 | the result loop annotates every validated record in order |
| Anomaly.ProcessBatch | backend/ml/anomalyDetection.js:212-349 | the batch method equals the batch specification |
| Quality.DeviationScore | backend/ml/qualityScoring.js:30-45 | 0 for non-numeric inputs or a zero-width tolerance; 1 within half the width; falling linearly to 0 at the full width; in [0, 1] |
| Quality.DeviationMonotone | backend/ml/qualityScoring.js:35-44 | a larger deviation never scores higher |
| Quality.SampleVariance | backend/ml/qualityScoring.js:58-60 | the sample variance over n−1 is non-negative |
| Quality.Capability | backend/ml/qualityScoring.js:53-71 | zero indices below 10 values or with USL ≤ LSL; Cpk ≥ 0; Cp defined iff Cpk defined; 0 ≤ Cpk ≤ Cp |
| Quality.CpkAtMostCp | backend/ml/qualityScoring.js:65-70 | with USL > LSL and a positive spread, the clamped Cpk is at most Cp |
| Quality.ConstantCapability | backend/ml/qualityScoring.js:65-70 | a constant sample has zero indices |
| Quality.CpkToScore | backend/ml/qualityScoring.js:204 | in [0, 50]; 0 up to Cpk 0.67; 50 from Cpk 1.33 |
| Quality.CpkToScoreMonotone | backend/ml/qualityScoring.js:204 | a larger Cpk never scores lower |
| Quality.CapabilityScore | backend/ml/qualityScoring.js:205 | defined iff both Cpks are numbers; in [0, 50] |
| Quality.Effective | backend/ml/qualityScoring.js:132 | a caller's tolerance overrides the default |
| Quality.ParamDetail | backend/ml/qualityScoring.js:139-148 | a detail entry iff actual and target are numeric; its score in [0, 1] |
| Quality.TallyBounds | backend/ml/qualityScoring.js:138-149 | the summed score lies between 0 and the count |
| Quality.TallyKeys | backend/ml/qualityScoring.js:147 | the details hold exactly the parameters that produced an entry |
| Quality.TallyEntries | backend/ml/qualityScoring.js:147 | each parameter's detail is its own entry |
| Quality.TallyCount | backend/ml/qualityScoring.js:146-147 | the count is the number of detail entries |
| Quality.DeviationPartBounds | backend/ml/qualityScoring.js:151 | the deviation score lies in [0, 50] |
| Quality.LimitsAround | backend/ml/qualityScoring.js:182-191 | limits exist iff the target is numeric, and are the target minus and plus the half-width |
| Quality.InThroughputRange | backend/ml/qualityScoring.js:197-199 | keeps exactly the throughput values in (0, 1000]; a single value is kept iff it is in range |
| Quality.InThroughputRangeAppend | backend/ml/qualityScoring.js:197-199 | filtering a concatenation concatenates the filtered parts, in order |
| Quality.CombineIndices | backend/ml/qualityScoring.js:201-218 | keeps the deviation score, details and indices; the quality score is defined iff the capability score is, and equals their rounded sum |
| Quality.Combine | backend/ml/qualityScoring.js:193-218 | the quality score is defined iff the capability score is, and is the rounded sum |
| Quality.QualitySpec | backend/ml/qualityScoring.js:80-229 | the scorer fails iff the history merge fails |
| Quality.QualityBounds | backend/ml/qualityScoring.js:151-207 | deviation score in [0, 50], capability in [0, 50], quality score in [0, 100] |
| Quality.QualityDefined | backend/ml/qualityScoring.js:182-207 | with numeric targets the quality score is a number |
| Quality.ParamEntry | backend/ml/qualityScoring.js:139-148 | one `forEach` step computes the parameter's detail |
| Quality.TallyLoop | backend/ml/qualityScoring.js:134-149 | the `forEach` computes the tally specification |
| Quality.CalculateQualityScore | backend/ml/qualityScoring.js:80-229 | the scorer method equals the scoring specification |
| Quality.WithQuality | backend/ml/qualityScoring.js:257-262 | the scored record keeps every other field and sets the three quality fields |
| Quality.QualityKeysDistinct | backend/ml/qualityScoring.js:248-252 | the three quality field names are distinct |
| Quality.QualityBatchSpec | backend/ml/qualityScoring.js:237-274 | `[]` for a non-array; otherwise one record per input |
| Quality.WithQualityKeeps | backend/ml/qualityScoring.js:248-262 | a spread record keeps its fields and gets a quality score that is NaN or a percentage |
| Quality.QualityRecordShape | backend/ml/qualityScoring.js:244-271 | every record keeps its fields and gets a valid score; implausible records and failed merges get the zero quality |
| Quality.ScoredShape | backend/ml/qualityScoring.js:256-262 | a scored record keeps its fields and carries a valid score |
| Quality.ScoreRecord | backend/ml/qualityScoring.js:245-271 | one loop step computes the record specification |
| Quality.QualityLoop | backend/ml/qualityScoring.js:243-273 | the record loop computes the batch specification |
| Quality.ProcessQualityBatch | backend/ml/qualityScoring.js:237-274 | the batch method equals the batch specification |
| Quality.QualityBatchShape | backend/ml/qualityScoring.js:243-273 | every output record keeps its input's fields and carries a valid quality score |
| Maintenance.ElapsedDays | backend/ml/maintenancePrediction.js:17-19 | `Math.floor` of the elapsed milliseconds over a day |
| Maintenance.ElapsedDaysMonotone | backend/ml/maintenancePrediction.js:17-19 | a longer span never counts fewer whole days |
| Maintenance.Interval | backend/ml/maintenancePrediction.js:23 | 365 days iff the power rating is a number below 100, else 180 |
| Maintenance.RecencyPenalty | backend/ml/maintenancePrediction.js:16-26 | at most 12.5; 0 without a date; at least 0 for a past date; exactly 12.5 once the interval has passed |
| Maintenance.RecencyMonotone | backend/ml/maintenancePrediction.js:16-26 | a later clock or an earlier last service never lowers the recency penalty |
| Maintenance.AgePenalty | backend/ml/maintenancePrediction.js:29-38 | at most 15; 0 without a date; at least 0 for a past date; exactly 15 from ten years |
| Maintenance.AgeMonotone | backend/ml/maintenancePrediction.js:29-38 | a later clock or an earlier installation never lowers the age penalty |
| Maintenance.RecentEvents | backend/ml/maintenancePrediction.js:47-49 | keeps exactly the events of the past year; a single event is kept iff it is recent |
| Maintenance.RecentEventsAppend | backend/ml/maintenancePrediction.js:47-49 | the recent events of a concatenation are those of each part, in order |
| Maintenance.CountKind | backend/ml/maintenancePrediction.js:52-59 | a count of at most the length, and 0 iff no event has the kind |
| Maintenance.TwoKinds | backend/ml/maintenancePrediction.js:52-59 | emergencies and corrective events together are at most all events |
| Maintenance.Severity | backend/ml/maintenancePrediction.js:62 | in [0, 3]; 0 when no recent event is an emergency or corrective |
| Maintenance.HistoryPenalty | backend/ml/maintenancePrediction.js:41-64 | in [0, 20]; 0 for a missing or empty history |
| Maintenance.AllEmergencies | backend/ml/maintenancePrediction.js:52-63 | a past year of emergencies only costs the full 20 |
| Maintenance.EscalateWeight | backend/ml/maintenancePrediction.js:52-62 | turning an event into an emergency never lowers the severity weight |
| Maintenance.EscalatePenalty | backend/ml/maintenancePrediction.js:41-64 | turning an event into an emergency never lowers the history penalty |
| Maintenance.SensorValue | backend/ml/maintenancePrediction.js:74-84 | only pressure, temperature and flow sensors have a reading |
| Maintenance.Deviation | backend/ml/maintenancePrediction.js:90-103 | at most 1; 0 in range; non-negative for an ordered range; 1 out of a zero-width range |
| Maintenance.Overshoot | backend/ml/maintenancePrediction.js:94-99 | the distance outside the range: positive iff the value is below or above it, 0 inside an ordered range |
| Maintenance.DeviationOfOvershoot | backend/ml/maintenancePrediction.js:93-101 | for a range of positive width, the deviation is min((distance / width) · 0.5, 1), below and above alike |
| Maintenance.DeviationMonotone | backend/ml/maintenancePrediction.js:93-101 | for an ordered range, a larger overshoot never gives a smaller deviation |
| Maintenance.TallyMonotone | backend/ml/maintenancePrediction.js:86-104 | larger deviations on every sensor, counted alike, give a larger sum over the same count |
| Maintenance.SensorPenaltyMonotone | backend/ml/maintenancePrediction.js:108-112 | a reading that deviates more on every sensor never lowers the sensor penalty |
| Maintenance.TallyBounds | backend/ml/maintenancePrediction.js:72-106 | the summed deviation is at most the number checked, which is at most the number of sensors, and non-negative for ordered ranges |
| Maintenance.TallyInRange | backend/ml/maintenancePrediction.js:86-104 | readings all in range add no deviation |
| Maintenance.SensorPenalty | backend/ml/maintenancePrediction.js:67-113 | at most 40; 0 without a reading or without sensors |
| Maintenance.SensorPenaltyNonNegative | backend/ml/maintenancePrediction.js:108-112 | with ordered ranges the sensor penalty is not negative |
| Maintenance.SensorPenaltyInRange | backend/ml/maintenancePrediction.js:86-112 | readings in range cost nothing |
| Maintenance.EmptyReadingNoPenalty | backend/ml/maintenancePrediction.js:67-113 | an empty reading costs nothing |
| Maintenance.RawHealth | backend/ml/maintenancePrediction.js:12-113 | the health before clamping is at least 12.5 |
| Maintenance.RawHealthAtMost100 | backend/ml/maintenancePrediction.js:12-113 | with past dates and ordered ranges it is at most 100 |
| Maintenance.Clamp | backend/ml/maintenancePrediction.js:116 | the result is in [0, 100] and leaves values in range unchanged |
| Maintenance.Health | backend/ml/maintenancePrediction.js:12-116 | the health score lies in [12.5, 100]; it never rises with overdue service, age, emergencies or sensor deviation (`HealthOverdue`, `HealthOlder`, `HealthLater`, `EscalateHealth`, `HealthDeviates`) |
| Maintenance.EscalateHealth | backend/ml/maintenancePrediction.js:41-116 | turning an event into an emergency never raises the health |
| Maintenance.HealthOverdue | backend/ml/maintenancePrediction.js:12-116 | an earlier last service, all else equal, never raises the health |
| Maintenance.HealthOlder | backend/ml/maintenancePrediction.js:12-116 | an earlier installation, all else equal, never raises the health |
| Maintenance.HealthLater | backend/ml/maintenancePrediction.js:12-116 | a later clock, with the same year-ago cut-off, never raises the health |
| Maintenance.HealthDeviates | backend/ml/maintenancePrediction.js:67-116 | a reading that deviates more on every sensor, all else equal, never raises the health |
| Maintenance.RiskLevel | backend/ml/maintenancePrediction.js:126-135 | low iff ≥ 80, moderate iff in [60, 80), high iff in [40, 60), critical iff < 40 |
| Maintenance.RiskName | backend/ml/maintenancePrediction.js:130 | the middle level is named "moderate" |
| Maintenance.RiskNameInjective | backend/ml/maintenancePrediction.js:126-135 | distinct levels have distinct names |
| Maintenance.Confidence | backend/ml/maintenancePrediction.js:154-176 | at most 1, and at least 0.7 for a past installation date |
| Maintenance.HistoryConfidence | backend/ml/maintenancePrediction.js:158-160 | in [0, 0.1]; the full 0.1 from five history entries |
| Maintenance.SensorConfidence | backend/ml/maintenancePrediction.js:163-166 | in [0, 0.1]; the full 0.1 from twenty data points |
| Maintenance.AgeConfidence | backend/ml/maintenancePrediction.js:169-172 | at most 0.1; 0 without a date; at least 0 for a past date |
| Maintenance.FullConfidence | backend/ml/maintenancePrediction.js:154-176 | long history, twenty data points and ten years' age give confidence 1 |
| Maintenance.AssessmentOf | backend/ml/maintenancePrediction.js:116-145 | normalized score in [4/3, 10]; days in [23, 180]; next date `days` ahead; the risk of the health; the confidence |
| Maintenance.ScaleBounds | backend/ml/maintenancePrediction.js:119-123 | a health in [12.5, 100] maps to days in [23, 180] and a score in [4/3, 10] |
| Maintenance.DaysMonotone | backend/ml/maintenancePrediction.js:119-123 | a better health never gives fewer days or a lower score |
| Maintenance.WorkedCase | backend/ml/maintenancePrediction.js:12-135 | five years old, serviced 90 days ago, two recent correctives, a pressure reading 20% above its range: health 72.25, moderate, 130 days |
| Maintenance.SensorLoop | backend/ml/maintenancePrediction.js:68-106 | the sensor `forEach` computes the tally specification |
| Maintenance.CalculateConfidenceScore | backend/ml/maintenancePrediction.js:154-176 | the method equals the confidence specification |
| Maintenance.RecencyFactor | backend/ml/maintenancePrediction.js:16-26 | the method computes the recency penalty |
| Maintenance.AgeFactor | backend/ml/maintenancePrediction.js:29-38 | the method computes the age penalty |
| Maintenance.HistoryFactor | backend/ml/maintenancePrediction.js:41-64 | the method computes the history penalty |
| Maintenance.SensorFactor | backend/ml/maintenancePrediction.js:67-113 | the method computes the sensor penalty |
| Maintenance.CalculateHealthScore | backend/ml/maintenancePrediction.js:10-146 | the method equals the assessment specification |
| Maintenance.Predict | backend/ml/maintenancePrediction.js:189-195 | the equipment is kept and gets the bounded assessment |
| Maintenance.PredictMaintenance | backend/ml/maintenancePrediction.js:184-196 | `null` exactly for missing equipment, otherwise the same equipment |
| Maintenance.ReadingFor | backend/ml/maintenancePrediction.js:206 | `sensorDataMap[id] \|\| {}`: always truthy, the map's reading when truthy, `{}` when absent |
| Maintenance.MapPresent | backend/ml/maintenancePrediction.js:205-208 | fails iff an entry is missing; otherwise maps each entry in order |
| Maintenance.ProcessBatch | backend/ml/maintenancePrediction.js:204-209 | fails iff an equipment entry is missing; otherwise one prediction per equipment, with its own reading |
| CsvImport.FormatTime | backend/utils/csvImporter.js:19-25 | the time gets a leading zero iff it has two `:`-pieces and a one-digit hour |
| CsvImport.IsoDateString | backend/utils/csvImporter.js:9-28 | no ISO string for a non-string or empty value; for a string, an ISO string iff the space split has at least two pieces and the dot split of the first has at least three |
| CsvImport.ParseCustomDate | backend/utils/csvImporter.js:7-42 | `null` when no ISO string is built; otherwise the validity of that ISO string decides |
| CsvImport.DottedSplit | backend/utils/csvImporter.js:15 | `d.m.y` of dot-free pieces splits into those pieces |
| CsvImport.SpacedSplit | backend/utils/csvImporter.js:12 | `date time` of space-free pieces splits into those pieces |
| CsvImport.IsoDateOfParts | backend/utils/csvImporter.js:12-28 | "D.M.Y T" gives "Y-MM-DDT" + the formatted time + ":00", with month and day padded to two digits |
| CsvImport.IsoDateExample | backend/utils/csvImporter.js:8-28 | "25.06.2018 4:42" gives "2018-06-25T04:42:00" |
| CsvImport.OrZero | backend/utils/csvImporter.js:58 | `parseFloat(x) \|\| 0`: 0 for NaN or 0, the number otherwise |
| CsvImport.CellOrZero | backend/utils/csvImporter.js:270 | `row.X \|\| 0` is the cell or zero |
| CsvImport.ToFixed2 | backend/utils/csvImporter.js:263 | `parseFloat(x.toFixed(2))` keeps the sign and is within 0.005 |
| CsvImport.ToFixed2Monotone | backend/utils/csvImporter.js:263 | rounding to hundredths is monotone |
| CsvImport.ToFixed2Hundredths | backend/utils/csvImporter.js:263 | a value in hundredths is unchanged |
| CsvImport.OrOne | backend/utils/csvImporter.js:258 | the target divisor is never 0, and 1 for a missing or zero target |
| CsvImport.Efficiency | backend/utils/csvImporter.js:256-264 | the efficiency is capped at 100 |
| CsvImport.EfficiencyWithoutTarget | backend/utils/csvImporter.js:258-263 | a missing or zero target divides by 1 |
| CsvImport.EfficiencyNonNegative | backend/utils/csvImporter.js:256-264 | a non-negative output over a positive target is non-negative |
| CsvImport.QualityOfDifference | backend/utils/csvImporter.js:275-277 | the clamped score lies in [0, 100] |
| CsvImport.QualityOfDifferenceMonotone | backend/utils/csvImporter.js:275-277 | a larger difference never scores higher; no difference scores 100 |
| CsvImport.MockQualityScore | backend/utils/csvImporter.js:267-280 | a number iff both thickness cells parse; in [0, 100] |
| CsvImport.MockQualityOnTarget | backend/utils/csvImporter.js:267-280 | thickness on target scores 100 |
| CsvImport.MockAnomalyScore | backend/utils/csvImporter.js:283-296 | for a draw in [0, 1) the score lies in [0, 0.8] |
| CsvImport.MockMaintenance | backend/utils/csvImporter.js:299-323 | critical, high and low exactly on the temperature/pressure thresholds; low means 30 days |
| CsvImport.MockMaintenanceDays | backend/utils/csvImporter.js:308-317 | critical 1..3, high 3..9, medium 10..19, low 30 days |
| CsvImport.HeatingZones | backend/utils/csvImporter.js:66-133 | four zones per extruder |
| CsvImport.Components | backend/utils/csvImporter.js:134-214 | four material components per extruder, numbered 2 to 5 |
| CsvImport.MapCsvToSchema | backend/utils/csvImporter.js:46-253 | the fallback iff the row is unreadable; efficiency ≤ 100; quality in [0, 100]; bounded anomaly score; timestamp and output from the row |
| CsvImport.FallbackRecord | backend/utils/csvImporter.js:242-252 | the fallback document: current time, zero scores, low risk in 30 days |
| CsvImport.MapRows | backend/utils/csvImporter.js:354 | `map` gives one document per row, each from its own row |
| CsvImport.Filter | backend/utils/csvImporter.js:354-361 | keeps exactly the elements that pass, in order |
| CsvImport.FilterAppend | backend/utils/csvImporter.js:352-361 | filtering a concatenation is concatenating the filtered parts |
| CsvImport.FilterAll | backend/utils/csvImporter.js:354-361 | when every element passes, the filter keeps them all |
| CsvImport.FilterSlice | backend/utils/csvImporter.js:354-361 | one batch's filter keeps the passing documents and counts the rest |
| CsvImport.MapSlice | backend/utils/csvImporter.js:353-354 | one batch maps exactly its slice of the rows |
| CsvImport.InsertInSlices | backend/utils/csvImporter.js:348-370 | batches of 100 insert exactly the filtered documents of all rows and count the rest as failed |
| CsvImport.Documents | backend/utils/csvImporter.js:354 | one mapped document per row |
| CsvImport.Kept | backend/utils/csvImporter.js:354-361 | keeps exactly the documents with a timestamp |
| CsvImport.ImportRows | backend/utils/csvImporter.js:343-374 | inserts the timestamped documents; failed is the rest; count equals the number inserted |
| CsvImport.ImportWithoutFailures | backend/utils/csvImporter.js:354-374 | when every row yields a timestamp, every document is inserted |

## Left out

**Values and numbers**

- Values.ToNumber: numeric strings, Dates and arrays coerce to NaN rather than to their number. In JavaScript, `Number("7")` is 7, a Date is its millisecond count, `Number([])` is 0 and `Number([7])` is 7. The analytics read documents whose fields are numbers, so these values do not reach that arithmetic.
- Arithmetic is on mathematical reals and integers, not IEEE doubles:
  - no rounding error, infinities or `-0`;
  - the NaN results that matter are modelled explicitly as `Option`/`None` (a quality score of NaN, an unparseable CSV cell);
  - `toFixed(2)` is rounding half up on the magnitude.
- Anomaly.DetectAnomalies: it requires non-zero thresholds. A zero threshold makes the source divide by zero (`Infinity`/NaN), and the batch driver never passes one.
- `Math.sqrt` and `Math.random` are parameters:
  - `sqrt` must be a true square root on non-negative inputs;
  - a CSV row's random draws are a parameter, and only their range [0, 1) is assumed in the bound lemmas.

**Time and time zones**

- Dates are millisecond counts.
- "One year ago" (`setFullYear(getFullYear() - 1)`) is passed in the clock, because calendar arithmetic is not modelled.
- `new Date(iso)` validity is the parameter `dateOf`.
- The two `new Date()` calls of the maintenance module are taken as one instant.
- `parseFloat` of a non-empty string is a parameter.

**I/O and environment**

- Database access:
  - the `SensorData.find().sort().limit(50)` query is replaced by its result, a parameter;
  - an error of that query, which the source only logs, is the same as an empty result;
  - `insertMany` is taken to succeed.
- File streaming and CSV parsing (`fs.createReadStream`, `csv-parser`) are left out; the importer starts from the parsed rows.
- The `runImport` driver is left out.
- Console logging, the callback and `async`/`await` scheduling are left out.

**Exceptions that cannot occur**

- Anomaly.ResultLoop: the `catch` branch of the per-record loop in the anomaly driver `processBatch` is not modelled. It cannot be reached for the modelled values: every property read inside its `try` is on an object or a value the gate already read.
- A throw in the anomaly driver's history merge is modelled as `Result.Err`: a record with a non-Date timestamp makes `processBatch` fail as a whole.
- The quality driver `processQualityBatch` behaves differently. The same `toISOString` throw happens inside `calculateQualityScore` (backend/ml/qualityScoring.js:174-177), outside that function's own `try`. It is caught by the driver's per-record `catch` (backend/ml/qualityScoring.js:263-270), which gives that record the zero quality. The model does the same: `Quality.QualityRecord` maps that `Err` to `ZeroQuality`, and `Quality.ScoreRecord` computes it.
- CsvImport.MapCsvToSchema: the `catch` fallback of `mapCsvToSchema` is taken exactly for an `undefined` or `null` row, the only rows whose property reads throw. The contract states selected fields of the mapped document (timestamp, total output, derived scores), not all 18.

**Object representation and key order**

- Output objects are maps, so the order in which their keys are listed is not modelled.
- Equipment is a typed record, not a free-form object.
- Anomaly details are an insertion-ordered list plus a map, which models `Object.keys` order for non-index parameter names.

**Naming**

- Maintenance.RiskName: `calculateHealthScore` names its middle risk level "moderate", while the sensor-data schema's enumeration and the CSV importer say "medium". The model keeps the source's "moderate" and states only that name; agreeing with the schema is not modelled.
- Quality.CalculateQualityScore: the caller's tolerances are a map of (min, max) pairs; `{...defaultTolerances, ...tolerances}` is the override in `Quality.Effective`.
