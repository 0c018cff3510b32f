# Photo clustering, timeline and vault-key state of a personal-cloud drive

This project models, in Dafny, the computational core of the photo and drive
applications of a personal-cloud suite.

The core is the engine that groups photos into automatic albums. It has five parts:

- **Metric library** (`Metrics`). It defines the temporal distance and two spatio-temporal blends. The blends read the scale fields of a mutable `Metrics` object.
- **Statistics** (`Maths`). These are forward differences, mean, standard deviation, and the linearly interpolated quantile.
- **Eps estimators** (`Knn`, `Service`, `Services`). They exclude outliers by quantile, then take the "first significant slope" of the sorted nearest-neighbour distances. Minimum floors are applied. The missing clustering parameters are filled in place, and the estimators that store their result in a `Metrics` object are included.
- **Reachability builder and gradient extractor** (`Service.Reachabilities`, `Gradient`). A three-point scan over the reachability plot opens and closes clusters of labels. Neighbouring clusters whose labels interleave are then merged. Finally the data points are handed out to the clusters in order.
- **Album matcher** (`Albums`). It files each new photo under the key of the album it falls inside. A photo between two albums goes under the key of that gap. A photo newer than every album goes under the newest album.

Two smaller cores sit beside it:

- **Photo timeline** (`Timeline`). It puts the photos into one section per day, newest day first. It also models the two updates of the cached list after an upload and after a deletion.
- **Vault-key state** (`Encryption`). This is the reducer that remembers the last decrypted or created vault key. It also models the update of the instance settings that appends a newly wrapped key.

Numbers are exact reals. Two tests compare a quotient of square roots with a threshold: the inflection index, and "at least mean plus one standard deviation". Both are decided on squares. Lemmas prove each equal to the source's test for the true square roots. The inflection test also follows IEEE-754 where it matters for the clusters: a squared vector length beyond `MAX_VALUE` is `Infinity`, as in JavaScript. `gradientAngle`, `cos(2 atan(1 / (eps k)))`, is written in its exact rational closed form `((ek)^2 - 1) / ((ek)^2 + 1)`.

Code that updates state step by step is modelled imperatively:

- the scan and the loops of the extractor;
- the reachability loop;
- the parameter filling;
- the estimators that write into a `Metrics` object;
- the dictionary building of the album matcher and of the timeline.

Each such method is proved against a specification function. The properties the source promises are then proved about that function.

Points of the code that the model follows as written:

- The inflection index has numerator `-1 + (x - y)(z - y)` (`gradient.js:15`).
- Next to an undefined reachability (`MAX_VALUE`), the squared vector length `1 + (y - MAX_VALUE)^2` overflows to `Infinity` (`gradient.js:11-16`). The index is then `NaN`, or a signed zero when the numerator stays finite. So no non-negative threshold finds an inflection or an increasing slope there. The expected clusters of the spatial test plot depend on this (`services.spec.js:87-109`). With exact reals, the scan of that plot would give `[[0, 1], [], [4, 3], [], [2], [5]]`, and the data would be handed out differently.
- A gap between two albums is keyed `newer.id:older.id`. The albums come newest first, and the key is `albums[i].id + ':' + albums[i + 1].id` (`albums.js:15`, `41`).
- The first reachability built by `service.js` is `Number.MAX_VALUE` (`service.js:79`).
- `MAX_VALUE` is written `(2^53 - 1) * 2^971`, which is `Number.MAX_VALUE` exactly (`gradient.js:1`). The power of two is a recursive function, so proofs see only that it is large.
- A noise point skips the other tests of its iteration (`continue`, `gradient.js:185-197`).
- `computeEps` of `service.js` discards the list `excludeOutliers` returns (`service.js:116`), so no outlier is removed there. The `services.js` variant keeps the filtered list.
- The lonely-point rupture compares a difference of epoch milliseconds with 8 (`gradient.js:37`).
- The extractor's first cluster starts with the literal label `0`, whatever `ordering[0]` is. A single point yields two labels (`gradient.js:176`, `245`).
- A percentile outside [0, 100] puts the quantile index off the array, so `quantile` reads a missing element and `excludeOutliers` keeps nothing.

## Model

Paths are relative to the repository root.

| member | source | states |
|---|---|---|
| Metrics.Metrics.constructor | src/photos/ducks/clustering/metrics.js:2-16 | `epsTemporal`, `epsSpatial` and `eps` start at 3, 3 and 1; the object measures with the given spatial distance |
| Metrics.Metrics.Spatial | src/photos/ducks/clustering/metrics.js:18-20 | The spatial distance the object was built with; `Metrics.BlendsAreSymmetricAndNonNegative` assumes it symmetric and non-negative |
| Metrics.Metrics.Temporal | src/photos/ducks/clustering/metrics.js:22-24 | `abs(p1.date - p2.date)`; `Metrics.TemporalIsDistance` proves it a distance on dates |
| Metrics.Metrics.SpatioTemporal | src/photos/ducks/clustering/metrics.js:26-28 | Half the temporal plus half the spatial distance; `Metrics.BlendsAreSymmetricAndNonNegative` proves it symmetric and non-negative |
| Metrics.Metrics.SpatioTemporalScaled | src/photos/ducks/clustering/metrics.js:30-39 | The temporal distance averaged with the spatial one times `epsTemporal / epsSpatial`, read at call time; `Metrics.ScaledIsPlainForEqualScales` relates it to the plain blend |
| Metrics.TemporalIsDistance | src/photos/ducks/clustering/metrics.js:22-24 | `temporal` is non-negative, symmetric, and 0 exactly for equal dates |
| Metrics.ScaledIsPlainForEqualScales | src/photos/ducks/clustering/metrics.js:30-39 | With equal non-zero scales, as after construction, `spatioTemporalScaled` equals `spatioTemporal` |
| Metrics.BlendsAreSymmetricAndNonNegative | src/photos/ducks/clustering/metrics.js:26-39 | Both blends are symmetric and non-negative when the spatial distance is; for the scaled blend, when both scales are positive |
| Maths.DiffPairWise | src/photos/ducks/clustering/maths.js:1-5 | `max(n - 1, 0)` differences, `d[i] = v[i + 1] - v[i]` |
| Maths.DiffPairWiseTelescopes | src/photos/ducks/clustering/maths.js:1-5 | `v[0]` plus the first `k` differences is `v[k]`: the differences lose no information |
| Maths.Sum | src/photos/ducks/clustering/maths.js:22-24 | The left-to-right sum from 0; `Maths.SumOfConstant` and `Maths.DiffPairWiseTelescopes` state its value |
| Maths.Mean | src/photos/ducks/clustering/maths.js:21-26 | The sum divided by the length; `Maths.MeanOfConstant` states its value on a constant list |
| Maths.SumOfConstant | src/photos/ducks/clustering/maths.js:21-26 | The running sum of `n` copies of `c` is `n * c` |
| Maths.MeanOfConstant | src/photos/ducks/clustering/maths.js:21-26 | The mean of a constant list is that constant |
| Maths.SquareDiffs | src/photos/ducks/clustering/maths.js:12-15 | One squared deviation `(value - avg)^2` per value, each non-negative |
| Maths.Variance | src/photos/ducks/clustering/maths.js:7-18 | The mean of the squared deviations from the recomputed mean; `Maths.VarianceNonNegative` and `Maths.VarianceOfConstant` state its sign and its zero |
| Maths.VarianceNonNegative | src/photos/ducks/clustering/maths.js:12-18 | The mean of the squared deviations is never negative, so the standard deviation exists |
| Maths.VarianceOfConstant | src/photos/ducks/clustering/maths.js:7-18 | A constant list has variance 0, so standard deviation 0, whatever `avg` is passed |
| Maths.AtLeastMeanPlusStdIsComparison | src/photos/ducks/clustering/knn/knn.js:50-56 | The root-free test agrees with `slope >= avg + std` for the true standard deviation, whatever `avg` is passed |
| Maths.QuantileIndexInRange | src/photos/ducks/clustering/maths.js:29-32 | For a percentile in [0, 100] (100 when absent) the index lies in `[0, n - 1]` |
| Maths.Quantile | src/photos/ducks/clustering/maths.js:28-40 | A number exactly when the index `percentile / 100 * (n - 1)` lies in `[0, n - 1]`; none for an empty array |
| Maths.QuantileInRangeDefined | src/photos/ducks/clustering/maths.js:28-40 | For a percentile in [0, 100] (100 when absent) the quantile exists iff the array is non-empty |
| Maths.QuantileOutOfRangeUndefined | src/photos/ducks/clustering/maths.js:32-38 | On two or more elements a percentile below 0 or above 100 gives no quantile |
| Maths.QuantileAtIntegralIndex | src/photos/ducks/clustering/maths.js:32-34 | An integral index returns exactly that element |
| Maths.QuantileDefaultIsLast | src/photos/ducks/clustering/maths.js:29-34 | Without a percentile the quantile is the last element |
| Maths.QuantileBetweenNeighbours | src/photos/ducks/clustering/maths.js:35-39 | On sorted input the quantile lies between the elements at the floor and the ceiling of the index |
| Maths.QuantileMedian | src/photos/ducks/clustering/maths.js:28-39 | Percentile 50 gives the middle element for odd length and the mean of the two middle ones for even length |
| Maths.SortNumbers | src/photos/ducks/clustering/services.js:89 | `sort((a, b) => a - b)` is an ascending permutation of its input |
| Maths.SortNumbersFixesAscending | src/photos/ducks/clustering/services.js:89 | Sorting an ascending list leaves it unchanged |
| Seqs.Sort | src/photos/ducks/clustering/gradient.js:91-93 | The comparator sort is a permutation of its input |
| Seqs.SortSorted | src/photos/ducks/clustering/gradient.js:91-93 | With a total preorder as comparator the result is sorted |
| Seqs.SortFixesSorted | src/photos/ducks/timeline/index.js:54-55 | A sorted input comes back unchanged |
| Seqs.Reverse | src/photos/ducks/timeline/index.js:56 | Element `k` of the result is element `n - 1 - k` of the input |
| Seqs.ReverseMultiset | src/photos/ducks/timeline/index.js:56 | Reversing is a permutation |
| Knn.Knn.constructor | src/photos/ducks/clustering/knn/knn.js:10-14 | A fresh copy of the dataset and `ns = 2`; the caller's array is not modified |
| Knn.AtMost | src/photos/ducks/clustering/knn/knn.js:30 | The filter keeps every value `<= bound` as often as it occurs and drops every other value |
| Knn.AtMostKeepsAll | src/photos/ducks/clustering/knn/knn.js:30 | When every value is within the bound, the filter returns the input |
| Knn.AtMostOfAscendingIsPrefix | src/photos/ducks/clustering/knn/knn.js:30 | On ascending input the filter returns the prefix of values within the bound; every later value exceeds it |
| Knn.AtMostOfConcat | src/photos/ducks/clustering/knn/knn.js:30 | The filter distributes over concatenation, so the kept values stay in input order |
| Knn.ExcludeOutliers | src/photos/ducks/clustering/knn/knn.js:28-31 | Without a quantile nothing is kept; otherwise each value at most the quantile is kept as often as it occurs, and no other value |
| Knn.ExcludeOutliersByDefaultKeepsAll | src/photos/ducks/clustering/knn/knn.js:28-31 | Without a percentile a sorted list is returned whole |
| Knn.ExcludeOutliersKeepsLowPrefix | src/photos/ducks/clustering/knn/knn.js:28-31 | On a sorted list the kept values are a prefix reaching past the floor of the quantile index |
| Knn.SlopesNotZero | src/photos/ducks/clustering/knn/knn.js:48 | Each slope above 0.0001 is kept as often as it occurs, and no other slope |
| Knn.SlopesNotZeroOfConcat | src/photos/ducks/clustering/knn/knn.js:48 | The filter distributes over concatenation, so the kept slopes stay in input order |
| Knn.FindSignificant | src/photos/ducks/clustering/knn/knn.js:54-56 | `findIndex`: -1 iff no slope qualifies, otherwise the first slope that reaches mean plus std |
| Knn.HasSignificantSlope | src/photos/ducks/clustering/knn/knn.js:50-56 | Some slope reaches mean plus std of the non-flat slopes; `Knn.EpsSignificativeSlope` is defined exactly when it holds |
| Knn.StartsFirstSignificantSlope | src/photos/ducks/clustering/knn/knn.js:42-63 | The reference definition: at least 3 distances, some non-flat slope, and `v` is `distances[k]` for the first slope `k` reaching mean plus std |
| Knn.EpsSignificativeSlope | src/photos/ducks/clustering/knn/knn.js:33-66 | An estimate exactly when there are at least 3 distances, some non-flat slope, and some slope reaching mean plus std of the non-flat ones |
| Knn.EpsSignificativeSlopeIsFirstSignificant | src/photos/ducks/clustering/knn/knn.js:46-63 | The estimate is `distances[k]` for the first slope `k`, flat ones included, that reaches mean plus std |
| Knn.EpsSignificativeSlopeIff | src/photos/ducks/clustering/knn/knn.js:42-66 | The estimate is `v` iff `v` starts the first significant slope; in every other case there is no estimate |
| Knn.EpsSignificativeSlopeNotLast | src/photos/ducks/clustering/knn/knn.js:54-63 | The estimate is a distance other than the last one |
| Knn.EpsSignificativeSlopeExample | src/photos/ducks/clustering/knn/knn.js:33-66 | On `[2, 2, 3, 20, 20, 30]` the estimate is 3 |
| Knn.IndexOfMax | src/photos/ducks/clustering/knn/knn.js:98 | `indexOf(Math.max(...))`: the first position holding the largest value |
| Knn.EpsMaxCurvative | src/photos/ducks/clustering/knn/knn.js:68-100 | No estimate exactly below 3 distances; otherwise the distance mirrored from the position of maximal curvature |
| Knn.EpsMaxCurvativeSkipsFirstTwo | src/photos/ducks/clustering/knn/knn.js:98-99 | The curvature estimate is never the first or second distance |
| Service.Reachabilities | src/photos/ducks/clustering/service.js:78-87 | Dataset length (1 for an empty dataset); entry 0 is `Number.MAX_VALUE`, entry `i` is the metric between points `i - 1` and `i` |
| Service.ComputeEps | src/photos/ducks/clustering/service.js:109-120 | No estimate below 3 distances; an estimate is one of the distances |
| Service.ComputeEpsIsFirstSignificantSlope | src/photos/ducks/clustering/service.js:109-120 | The estimate is `v` iff `v` starts the first significant slope of all the sorted distances: the percentile has no effect |
| Service.AtLeast | src/photos/ducks/clustering/service.js:91 | An estimate at or above the floor is kept, anything else gives the floor; a null estimate stays null only when the floor is not positive |
| Service.ComputeEpsTemporal | src/photos/ducks/clustering/service.js:89-92 | With a positive floor the result is a number at least `MIN_EPS_TEMPORAL` |
| Service.ComputeEpsSpatial | src/photos/ducks/clustering/service.js:94-97 | With a positive floor the result is a number at least `MIN_EPS_SPATIAL` |
| Service.MaxScale | src/photos/ducks/clustering/service.js:29 | `Math.max` of the two scales |
| Service.Filled | src/photos/ducks/clustering/service.js:18-38 | Truthy fields are kept and falsy ones computed. The bound is `min(2 * max scale, DEFAULT_MAX_BOUND)`; the angle is `gradientAngle` of the larger scale, in `[-1, 1)` |
| Service.FilledAfterScales | src/photos/ducks/clustering/service.js:23-36 | Filling the scales, then the bound and angle, is `Filled` |
| Service.FilledIsIdempotent | src/photos/ducks/clustering/service.js:18-38 | Filling filled parameters changes nothing |
| Service.Params.constructor | src/photos/ducks/clustering/service.js:19 | The parameter object holds the given values |
| Service.FillBoundAndAngle | src/photos/ducks/clustering/service.js:29-36 | Updates in place only the falsy bound and angle, from the larger scale |
| Service.ClusteringParameters | src/photos/ducks/clustering/service.js:18-38 | `null` for no parameters; otherwise the same object, with its fields updated in place to `Filled` of their old values |
| Services.ComputeEps | src/photos/ducks/clustering/services.js:83-104 | No estimate below 3 distances; an estimate is one of the distances and at most the quantile of the sorted distances |
| Services.ComputeEpsIsFirstSignificantSlope | src/photos/ducks/clustering/services.js:83-104 | The estimate is `v` iff `v` starts the first significant slope of the sorted distances kept by `excludeOutliers` |
| Services.ComputeEpsWithoutPercentileIsService | src/photos/ducks/clustering/services.js:83-104 | Without a percentile the estimate equals that of `service.js` |
| Services.AsJs | src/photos/ducks/clustering/services.js:17-25 | A missing estimate is stored as `null`, an estimate as its number |
| Services.ComputeTemporalEps | src/photos/ducks/clustering/services.js:17-25 | Stores the temporal estimate in `epsTemporal` and returns it |
| Services.ComputeSpatialEps | src/photos/ducks/clustering/services.js:27-35 | Stores the spatial estimate in `epsSpatial` and returns it |
| Services.BlendedMetric | src/photos/ducks/clustering/services.js:39 | The given metric iff both scales are defined (or it is the unscaled blend); otherwise the unscaled blend |
| Services.ComputeSpatioTemporalScaledEps | src/photos/ducks/clustering/services.js:37-56 | When both stored scales are defined, estimates with the scaled metric carrying those two scales, otherwise with the unscaled blend; stores the estimate in `eps` and returns it |
| Services.ComputeSpatioTemporalMaxNormalizedEps | src/photos/ducks/clustering/services.js:58-81 | The same with the max-normalised metric |
| Services.TemporalEpsExample | src/photos/ducks/clustering/services.spec.js:49-51 | The temporal gaps of the test dataset give the estimate 3 |
| Gradient.FillUndefined | src/photos/ducks/clustering/gradient.js:172-173 | Same length; `undefined` becomes `MAX_VALUE`, every other value is kept |
| Gradient.InflectionAbove | src/photos/ducks/clustering/gradient.js:7-16 | Decides `inflectionIndex(x, y, z) > a` as the doubles do. When a squared vector length overflows, the index is `NaN` or a signed zero; otherwise the test is decided on squares. `Gradient.InflectionAboveIsIndexTest` and `Gradient.NoInflectionNextToUndefined` state the two cases |
| Gradient.GradientDeterminant | src/photos/ducks/clustering/gradient.js:18-20 | `y - x - (z - y)`, whose sign chooses between the two inflection branches of `Gradient.Advance` |
| Gradient.AboveBySquaresIsQuotientTest | src/photos/ducks/clustering/gradient.js:15 | For a positive denominator, the test on squares is `n / p > a` |
| Gradient.InflectionAboveIsIndexTest | src/photos/ducks/clustering/gradient.js:7-16 | When no squared length overflows, `InflectionAbove` is `inflectionIndex(x, y, z) > a` for the true vector lengths |
| Gradient.SquaresDecideIndex | src/photos/ducks/clustering/gradient.js:11-16 | The comparison on squares is the quotient of the numerator by the product of the true lengths |
| Gradient.NoInflectionNextToUndefined | src/photos/ducks/clustering/gradient.js:11-16 | Next to `MAX_VALUE`, a reachability of at most half of it overflows a squared length. No non-negative threshold then finds an inflection there, nor an increasing slope towards the mirror point `2y - MAX_VALUE` (`gradient.js:51-65`) |
| Gradient.LengthOverflowsFromHalf | src/photos/ducks/clustering/gradient.js:11-14 | A difference of at least `MAX_VALUE / 2` makes the squared length `1 + d^2` overflow |
| Gradient.InflectionIndexIsCosine | src/photos/ducks/clustering/gradient.js:11-16 | The index is a cosine: its square is at most 1, so a threshold of 1 or more finds no inflection |
| Gradient.GradientAngle | src/photos/ducks/clustering/gradient.js:250-256 | The angle threshold lies in `[-1, 1)` |
| Gradient.GradientAngleSign | src/photos/ducks/clustering/gradient.js:250-256 | The threshold is non-negative (an angle of at most 90 degrees) iff `abs(eps * k) >= 1` |
| Gradient.LonelyPoint | src/photos/ducks/clustering/gradient.js:27-43 | True only between two `MAX_VALUE` neighbours around a point below it |
| Gradient.IncreasingSlope | src/photos/ducks/clustering/gradient.js:51-65 | False at the end of the plot and unless `x < y < z` |
| Gradient.DecreasingSlope | src/photos/ducks/clustering/gradient.js:75-89 | False at the end of the plot and unless `y > z` |
| Gradient.DecreasingSlopeIsAngleTest | src/photos/ducks/clustering/gradient.js:75-89 | When `d^2` does not overflow, the index of a drop `d = y - z` is `(d^2 - 1) / (d^2 + 1)` compared with the angle. An overflowing drop escapes every non-negative threshold |
| Gradient.DecreasingSlopeIsSteepDrop | src/photos/ducks/clustering/gradient.js:75-89 | With the angle of `gradientAngle(eps, k)`, a drop whose square does not overflow is detected iff it exceeds `abs(eps * k)`. An overflowing drop is not detected once `abs(eps * k) >= 1` |
| Gradient.AngleAboveIsSteeper | src/photos/ducks/clustering/gradient.js:75-89 | The angle formula at a positive drop `d` exceeds the one at `t` iff `d > abs(t)` |
| Gradient.ScanToNext | src/photos/ducks/clustering/gradient.js:178-232 | One loop iteration with every test spelled out |
| Gradient.Extracted | src/photos/ducks/clustering/gradient.js:175-246 | The clusters before reorganising hold, in order, label 0, `ordering[1..n-1]`, then `ordering[n-1]`; two labels for a single point |
| Gradient.ExtractedIsFinishedScan | src/photos/ducks/clustering/gradient.js:176-246 | The clusters are the tail applied to the state after the loop |
| Gradient.ExtractedLabelCount | src/photos/ducks/clustering/gradient.js:176-246 | As many labels as points, two for a single point |
| Gradient.Advance | src/photos/ducks/clustering/gradient.js:183-231 | One iteration from the outcomes of its tests; `Gradient.AdvancePlacesOneLabel` proves that each branch places exactly its label |
| Gradient.Step | src/photos/ducks/clustering/gradient.js:178-232 | Iteration `i` on the plot: a noise point skips the other tests; `Gradient.StepPlacesOneLabel` proves that it places `ordering[i]` |
| Gradient.After | src/photos/ducks/clustering/gradient.js:178-232 | The scan state after iteration `i`; `Gradient.ScanToSucc` ties it to `Step` |
| Gradient.ScanToSucc | src/photos/ducks/clustering/gradient.js:178-232 | The state before iteration `i + 1` is `Step` applied to the state before iteration `i` |
| Gradient.Finish | src/photos/ducks/clustering/gradient.js:234-246 | The tail after the loop; `Gradient.FinishPlacesLastLabel` proves that it places `ordering[n-1]` last |
| Gradient.AdvancePlacesOneLabel | src/photos/ducks/clustering/gradient.js:183-231 | Every branch of an iteration places exactly its label, after all earlier ones |
| Gradient.StepPlacesOneLabel | src/photos/ducks/clustering/gradient.js:178-232 | Iteration `i` places `ordering[i]` after the earlier labels |
| Gradient.ScanToPlacesLabels | src/photos/ducks/clustering/gradient.js:176-232 | Before iteration `i` the labels placed are 0 and `ordering[1..i)`, in order |
| Gradient.FinishPlacesLastLabel | src/photos/ducks/clustering/gradient.js:234-246 | The tail places `ordering[n-1]` last and loses nothing |
| Gradient.StepOnNoise | src/photos/ducks/clustering/gradient.js:185-198 | A noise point followed by noise closes the open cluster and becomes a singleton |
| Gradient.AllNoiseScan | src/photos/ducks/clustering/gradient.js:185-198 | On an all-noise plot the scan state is the singletons so far, with nothing open |
| Gradient.AllNoiseGivesSingletons | src/photos/ducks/clustering/gradient.js:185-246 | When every point after the first is noise, every label is its own cluster |
| Gradient.StepOnSmooth | src/photos/ducks/clustering/gradient.js:228-231 | A point that is not noise, special or an inflection joins the open cluster |
| Gradient.SmoothScan | src/photos/ducks/clustering/gradient.js:178-232 | Over smooth points the scan builds one open cluster of all labels so far |
| Gradient.SmoothGivesOneCluster | src/photos/ducks/clustering/gradient.js:176-246 | A smooth plot whose last point is below the bound is a single cluster |
| Gradient.MaxOf | src/photos/ducks/clustering/gradient.js:108 | `Math.max(...cluster)`: a member at least every other member |
| Gradient.MergeNext | src/photos/ducks/clustering/gradient.js:90-96 | One cluster fewer; cluster `i` becomes a permutation of clusters `i` and `i + 1` together, and the clusters before and after it are unchanged |
| Gradient.MergeNextKeepsLabels | src/photos/ducks/clustering/gradient.js:90-96 | Merging keeps every label exactly as often |
| Gradient.MergeNextSorts | src/photos/ducks/clustering/gradient.js:91-93 | The merged cluster is sorted ascending |
| Gradient.Reorganized | src/photos/ducks/clustering/gradient.js:121-136 | Reorganising keeps every label exactly as often and never adds a cluster |
| Gradient.ReorgFromKeepsLabels | src/photos/ducks/clustering/gradient.js:121-136 | The nested loops from any position keep the labels and do not add clusters |
| Gradient.RespectOrder | src/photos/ducks/clustering/gradient.js:98-113 | `respectOrder`; `Gradient.ConsecutiveRespectsOrder` proves that runs of consecutive labels pass it |
| Gradient.ReorgFrom | src/photos/ducks/clustering/gradient.js:121-136 | The nested loops from cluster `i`, label `j`; `Gradient.ReorgFromKeepsLabels` and `Gradient.ReorgFromOfConsecutive` state what they keep |
| Gradient.ConsecutiveRespectsOrder | src/photos/ducks/clustering/gradient.js:98-113 | In consecutive runs of labels every label respects order |
| Gradient.ReorgFromOfConsecutive | src/photos/ducks/clustering/gradient.js:121-136 | Clusters that respect order pass through the loops unchanged |
| Gradient.ReorganizedOfConsecutive | src/photos/ducks/clustering/gradient.js:121-136 | Clusters of consecutive labels are left as they are |
| Gradient.ReorganizedMergesInterleaved | src/photos/ducks/clustering/gradient.js:121-136 | `[[0, 2], [1, 3]]` becomes `[[0, 1, 2, 3]]` |
| Gradient.MergeExample | src/photos/ducks/clustering/gradient.js:90-96 | Merging `[0, 2]` and `[1, 3]` gives `[0, 1, 2, 3]` |
| Gradient.AscendingPermutationUnique | src/photos/ducks/clustering/gradient.js:90-96 | Two ascending lists of the same labels are equal, so a merged cluster is the one ascending arrangement of its labels |
| Gradient.SortIsAscendingPermutation | src/photos/ducks/clustering/gradient.js:95 | The numeric sort of a label list is the ascending list with the same labels |
| Gradient.HandOut | src/photos/ducks/clustering/gradient.js:141-146 | One group per cluster, of its size; the groups flatten to the first data, in order |
| Gradient.HandOutStep | src/photos/ducks/clustering/gradient.js:142-146 | The next cluster's group is the data right after the previous groups |
| Gradient.ReorganizeClusters | src/photos/ducks/clustering/gradient.js:121-136 | The nested loops compute `Reorganized` |
| Gradient.ClusterizeData | src/photos/ducks/clustering/gradient.js:138-148 | The running counter hands out the data as `HandOut` of the reorganised clusters |
| Gradient.HandOutCoversData | src/photos/ducks/clustering/gradient.js:138-148 | With one label per data point, the groups handed out for the reorganised clusters, flattened, are all the data in order |
| Gradient.ScanPosition | src/photos/ducks/clustering/gradient.js:183-231 | The loop body computes `Advance` of the tests' outcomes |
| Gradient.ScanStep | src/photos/ducks/clustering/gradient.js:178-232 | One iteration computes `Step`: the tests at position `i` decide where `ordering[i]` goes |
| Gradient.ScanLoop | src/photos/ducks/clustering/gradient.js:176-232 | The loop leaves the scan state `ScanTo(n - 1)`: every point but the last has been placed |
| Gradient.ScanTail | src/photos/ducks/clustering/gradient.js:234-246 | The tail computes `Finish`: the last label joins an open cluster when it is below the bound, and is a singleton otherwise |
| Gradient.ScanPlot | src/photos/ducks/clustering/gradient.js:168-246 | The scan and the tail compute `Extracted` |
| Gradient.ExampleExtracted | src/photos/ducks/clustering/services.spec.js:70-85 | The temporal test plot `[undefined, 2, 3, 45, 20, 30]` at `gradientAngle(15, 1)` and bound 1000 gives `[[0, 1, 2], [3, 4, 5]]` |
| Gradient.GradientClusteringExample | src/photos/ducks/clustering/services.spec.js:70-85 | On that plot the result is the first three data points, then the last three |
| Gradient.SpatialStep1 | src/photos/ducks/clustering/services.spec.js:87-109 | On the spatial test plot, position 1 sits next to `MAX_VALUE`: no test fires, and label 1 joins label 0 |
| Gradient.SpatialStep2 | src/photos/ducks/clustering/services.spec.js:87-109 | The drop from 386.76 to 68.81 closes `[0, 1]`; the right turn there starts `[4]` |
| Gradient.SpatialStep3 | src/photos/ducks/clustering/services.spec.js:87-109 | The left turn on a rise at 68.81 closes `[4, 3]` |
| Gradient.SpatialStep4 | src/photos/ducks/clustering/services.spec.js:87-109 | Next to the last `MAX_VALUE` no test fires; label 2 starts a cluster |
| Gradient.SpatialExtracted | src/photos/ducks/clustering/services.spec.js:87-109 | The spatial test plot `[undefined, 11.12, 386.76, 68.81, 244.94, undefined]` in the order `[0, 1, 4, 3, 2, 5]` gives `[[0, 1], [4, 3], [2], [5]]` |
| Gradient.SpatialReorganized | src/photos/ducks/clustering/gradient.js:121-136 | Reorganising `[[0, 1], [4, 3], [2], [5]]` merges the first three clusters into `[0, 1, 2, 3, 4]` |
| Gradient.SpatialClusteringExample | src/photos/ducks/clustering/services.spec.js:87-109 | On that plot the result is the first five data points, then the last one |
| Gradient.GradientClustering | src/photos/ducks/clustering/gradient.js:168-248 | The result is `HandOut(data, Reorganized(Extracted(...)))`; flattened, it is the data, in order |
| Albums.KeyOf | src/photos/ducks/clustering/albums.js:15 | The album id, or the two ids joined by `:` when a second album is given |
| Albums.Add | src/photos/ducks/clustering/albums.js:14-21 | Push onto the list under a key; `Albums.AddAppends` states the result |
| Albums.AddAppends | src/photos/ducks/clustering/albums.js:14-21 | Adding appends the photo under its key (starting a list when absent); other keys unchanged |
| Albums.AddAllAppendsCopies | src/photos/ducks/clustering/albums.js:16-20 | Adding under several keys appends one copy per occurrence of each key |
| Albums.AddAllChangesOnlyItsKeys | src/photos/ducks/clustering/albums.js:16-20 | A key's list changes iff the key is among those given, and grows by at most one photo per key given |
| Albums.AddAllKeepsNoEmptyLists | src/photos/ducks/clustering/albums.js:16-20 | No key ever lists no photo |
| Albums.PhotoInsideCluster | src/photos/ducks/clustering/albums.js:30-32 | The photo date lies strictly between the album start and end |
| Albums.PhotoBetweenClusters | src/photos/ducks/clustering/albums.js:23-28 | Both albums exist and the date lies strictly after the newer album's end and before the older one's start |
| Albums.TargetAt | src/photos/ducks/clustering/albums.js:37-42 | The key one loop pass adds; `Albums.TargetAtCases` states its cases |
| Albums.TargetAtCases | src/photos/ducks/clustering/albums.js:37-42 | At one album at most one key: inside wins over between, between only with a next album |
| Albums.Targets | src/photos/ducks/clustering/albums.js:35-44 | The keys the loop adds over the first `n` albums; `Albums.TargetsCollectsTargetAt` states what it collects |
| Albums.TargetsCollectsTargetAt | src/photos/ducks/clustering/albums.js:35-44 | At most one key per album looked at, and every key found at an album |
| Albums.TargetsStep | src/photos/ducks/clustering/albums.js:36-43 | Looking at one more album appends its key, if any |
| Albums.KeysFor | src/photos/ducks/clustering/albums.js:54-60 | The keys one photo is filed under; `Albums.KeysForCases` states its two cases |
| Albums.KeysForCases | src/photos/ducks/clustering/albums.js:54-60 | An older photo is filed under every album it falls inside; a photo at or after the newest album's end under that album alone |
| Albums.RecentPhotoGoesToNewestAlbum | src/photos/ducks/clustering/albums.js:57-60 | A recent photo is added under the newest album's id only |
| Albums.KeyLists | src/photos/ducks/clustering/albums.js:54-61 | The keys of each photo, one list per photo |
| Albums.FileAllStep | src/photos/ducks/clustering/albums.js:54-61 | Filing one more photo adds it under its keys |
| Albums.FileAllGathers | src/photos/ducks/clustering/albums.js:54-61 | Under every key, the photos whose keys name it, in input order, once per naming; no empty list |
| Albums.Processed | src/photos/ducks/clustering/albums.js:50-67 | The dictionary `pastAlbumsToProcess` returns; `Albums.ProcessedCollects` and `Albums.ProcessedWithoutAlbums` state its contents |
| Albums.ProcessedCollects | src/photos/ducks/clustering/albums.js:50-67 | With albums, each key holds exactly its gathered photos in input order, and is present iff it holds one |
| Albums.ProcessedWithoutAlbums | src/photos/ducks/clustering/albums.js:62-65 | Without albums the result is exactly `{init: photos}` |
| Albums.ClusterMap.constructor | src/photos/ducks/clustering/albums.js:51 | The dictionary starts empty |
| Albums.ClusterMap.AddPhotoToClusters | src/photos/ducks/clustering/albums.js:14-21 | Updates the dictionary to `Add` of the key built from one or two albums |
| Albums.ClusterMap.FileAtAlbum | src/photos/ducks/clustering/albums.js:37-42 | One pass of the loop adds the photo under that album's key, if any |
| Albums.ClusterMap.PhotosToClusterize | src/photos/ducks/clustering/albums.js:35-44 | The loop adds the photo under every key found, album by album |
| Albums.ClusterMap.FilePhoto | src/photos/ducks/clustering/albums.js:55-60 | One photo of the `forEach` is added under its keys |
| Albums.ClusterMap.FileNth | src/photos/ducks/clustering/albums.js:54-61 | Photo `n` is filed after the photos before it |
| Albums.ClusterMap.FilePhotos | src/photos/ducks/clustering/albums.js:54-61 | From an empty dictionary, the loop leaves `FileAll` of all the photos: each photo filed under its own keys, in input order |
| Albums.PastAlbumsToProcess | src/photos/ducks/clustering/albums.js:50-67 | The dictionary returned is `Processed` |
| Timeline.Day | src/photos/ducks/timeline/index.js:46 | The day is the prefix of length `min(10, length)` of the datetime |
| Timeline.StringLeIsTotalPreorder | src/photos/ducks/timeline/index.js:54-55 | The day order is total and transitive |
| Timeline.StringLeAntisymmetric | src/photos/ducks/timeline/index.js:54-55 | Two days ordered both ways are equal |
| Timeline.DayOf | src/photos/ducks/timeline/index.js:42-46 | The day of a photo with a datetime, none for a photo without one |
| Timeline.DaysOfDistinct | src/photos/ducks/timeline/index.js:47-49 | Each day is listed once |
| Timeline.DaysOfMembers | src/photos/ducks/timeline/index.js:47-49 | A day is listed iff some photo was taken on it |
| Timeline.PhotosOnMembers | src/photos/ducks/timeline/index.js:41-51 | A photo is among a day's photos iff it is a photo with that day |
| Timeline.PhotosOnSnoc | src/photos/ducks/timeline/index.js:50 | A later photo joins the end of its day's list |
| Timeline.SortedDaysDescending | src/photos/ducks/timeline/index.js:54-56 | The sorted days are a permutation of the days, distinct and strictly descending |
| Timeline.DayListed | src/photos/ducks/timeline/index.js:46-56 | Every photo's day is among the sorted days |
| Timeline.ByDay | src/photos/ducks/timeline/index.js:39-64 | The sections of the sorted days, none when a photo has no datetime; the `Timeline.ByDay...` lemmas state their properties |
| Timeline.ByDayNoEmptySection | src/photos/ducks/timeline/index.js:46-50 | No section is empty |
| Timeline.ByDayNewestFirst | src/photos/ducks/timeline/index.js:54-56 | Section days strictly decrease |
| Timeline.ByDayFilesByDay | src/photos/ducks/timeline/index.js:39-63 | A photo is in a section iff it was taken on that section's day |
| Timeline.ByDayCoversEveryPhoto | src/photos/ducks/timeline/index.js:39-63 | Every photo's day has a section |
| Timeline.ByDayPartitions | src/photos/ducks/timeline/index.js:39-63 | The sections together hold every photo exactly as often as the input |
| Timeline.SectionMapHoldsDays | src/photos/ducks/timeline/index.js:41-51 | The dictionary has exactly the listed days, each with its photos in input order |
| Timeline.StepByDay | src/photos/ducks/timeline/index.js:46-50 | One more photo lists a new day and appends the photo under its day |
| Timeline.FilePhoto | src/photos/ducks/timeline/index.js:42-50 | One pass of the `forEach` keeps the dictionary and the day list equal to their specifications |
| Timeline.ListSections | src/photos/ducks/timeline/index.js:54-63 | The sort and `map` give the sections of the sorted days |
| Timeline.SortedDayInSectionMap | src/photos/ducks/timeline/index.js:58-63 | Each sorted day is in the dictionary, with its photos |
| Timeline.SectionsOfSectionMap | src/photos/ducks/timeline/index.js:58-63 | Reading the dictionary at the sorted days gives the sections |
| Timeline.GetPhotosByDay | src/photos/ducks/timeline/index.js:39-64 | The method computes `ByDay`: the sections, or nothing when a photo has no datetime |
| Timeline.Upload | src/photos/ducks/timeline/index.js:26 | The new document followed by the previous list; `Timeline.UploadLeadsItsDay` states its effect on the days |
| Timeline.Delete | src/photos/ducks/timeline/index.js:33-34 | The previous list without the documents with the id; the `Timeline.Delete...` lemmas state its contents and order |
| Timeline.UploadLeadsItsDay | src/photos/ducks/timeline/index.js:26 | The uploaded document comes first in its day; other days are unchanged |
| Timeline.DeleteCounts | src/photos/ducks/timeline/index.js:33-34 | Documents with the id are gone; every other document stays, as often as before |
| Timeline.DeleteAbsentIsIdentity | src/photos/ducks/timeline/index.js:33-34 | Without a document with the id the list is unchanged, order included |
| Timeline.DeleteOfConcat | src/photos/ducks/timeline/index.js:33-34 | Deleting distributes over concatenation, so the surviving documents keep their order |
| Timeline.DeleteIdempotent | src/photos/ducks/timeline/index.js:33-34 | Deleting twice is deleting once |
| Timeline.UploadThenDelete | src/photos/ducks/timeline/index.js:26-34 | Deleting an uploaded document's id gives the same list as deleting that id before the upload |
| Encryption.Reduce | src/drive/web/modules/encryption/duck.js:17-25 | A decryption or creation sets the state to its key; any other action keeps the state |
| Encryption.ReduceAll | src/drive/web/modules/encryption/duck.js:17-25 | The reducer folded over the actions; `Encryption.ReduceAllKeepsLastKey` states the result |
| Encryption.ReduceAllKeepsLastKey | src/drive/web/modules/encryption/duck.js:17-25 | After any actions the state is the key of the last decryption or creation; without one, it is unchanged |
| Encryption.LastKeySetNone | src/drive/web/modules/encryption/duck.js:19-23 | There is no last key-setting action iff no action sets a key |
| Encryption.LastKeySetIsLast | src/drive/web/modules/encryption/duck.js:19-21 | The key found is that of a key-setting action that no later one overrides |
| Encryption.LastKeySetOfCons | src/drive/web/modules/encryption/duck.js:19-23 | An earlier action counts only when no later action sets a key |
| Encryption.InitialStateIsNull | src/drive/web/modules/encryption/duck.js:17-23 | From the initial `null`, actions that set no key leave `null` |
| Encryption.AddWrappedKey | src/drive/web/modules/encryption/duck.js:75-80 | The saved keys gain `wrapped` at the end (or become `[wrapped]`); every other field of the settings and of `encryption` is kept |
| Encryption.AddWrappedKeysInOrder | src/drive/web/modules/encryption/duck.js:75-80 | Successive creations save all keys in creation order after the earlier ones |
| Encryption.AddWrappedKeyOnlyTouchesKeys | src/drive/web/modules/encryption/duck.js:75-80 | With keys present, only the key list changes |

## Left out

- The k-d tree and `kNeighbors` (`knn/knn.js`). The nearest-neighbour distances are inputs. In `services.js` they come as one list per metric; the scaled metric carries the two scales it reads.
- `geodesicDistance` (haversine), `toRadians` and `toDegrees`. These are trigonometry on floating point. A `Metrics` object is built with the spatial distance function it uses.
- The `atan2`/square-root body of `epsMaxCurvative`. The curvature values are an input to `Knn.EpsMaxCurvative`; only the length guard and the index arithmetic are modelled.
- `Math.sqrt` in `standardDeviation`. The standard deviation is described by the relation `IsStandardDeviation`: a non-negative square root of the variance.
- IEEE-754 arithmetic, apart from the overflow of a squared vector length in the inflection index. Numbers are exact reals. Rounding is not modelled. Nor are overflow near the `MAX_VALUE` threshold in other terms (the difference `y - x` itself, or the product of the two lengths), or the `NaN` of an empty mean.
- Gradient.InflectionAboveIsIndexTest: the equality with the quotient is stated only when no squared length overflows. Otherwise the source divides by `Infinity`, and `Gradient.InflectionAbove` gives `NaN` or a signed zero, which no real quotient equals.
- Gradient.DecreasingSlopeIsSteepDrop: "detected iff the drop exceeds `abs(eps * k)`" holds only while the squared drop stays at most `MAX_VALUE`. A larger drop is never detected with `abs(eps * k) >= 1`, because the source's index is `NaN` or zero there. For smaller thresholds the lemma says nothing about such drops.
- Maths.Mean, Maths.Variance: the empty list (a JavaScript `NaN`) is excluded by a precondition.
- Gradient.GradientClustering: requires at least two points. With one point `clusterizeData` reads `data[1]`, which does not exist. The scan itself (`Gradient.Extracted`) covers one point.
- Gradient.ScanPlot: requires at least two points, like `Gradient.GradientClustering`, which is its only caller.
- Gradient.ScanLoop: requires at least two points, like its caller `Gradient.ScanPlot`.
- Gradient.LonelyPoint: the local day of the month and the epoch milliseconds of a data point are a `Calendar` parameter, not a date parser.
- `runOptics` (`services.js`), which calls an external OPTICS library. The extractor takes its result `(reachabilities, ordering)` as input.
- The constants of `consts.js` and the parameters `defaultParameters` reads from the settings. `consts.js` and `settings.js` are not part of this model, so these values are parameters (`Service.Consts`, the `Params` object).
- `computeClusters` (`service.js:43-65`) and `autoAlbums` (`albums.js:4-11`). Both are store I/O around the modelled functions, and they call functions that are not part of this model.
- Services.ComputeSpatioTemporalScaledEps: with a `null` (no estimate) or zero spatial scale stored, the scaled metric divides by zero, and JavaScript measures `Infinity` or `NaN` distances. The model does not compute those distances: the neighbour distances of the scaled metric are an input that depends on the two stored scales, whatever they are.
- Metrics.Metrics.SpatioTemporalScaled: requires a defined, non-zero spatial scale. The division by a `null` or zero scale, which gives `Infinity` or `NaN` in JavaScript, is not modelled.
- The `console.log` of the estimate in `computeEps` (`services.js:97`). It is output only.
- Services.ComputeSpatioTemporalMaxNormalizedEps: `metrics.js` defines no max-normalised metric. Its neighbour distances are an input like the others, not derived from a metric.
- Albums.PastAlbumsToProcess: a given empty album list with photos would read `albums[0]` of an empty array and throw. A precondition excludes it.
- Keys are plain strings. A key that collides with a property of JavaScript's object prototype (an album id `constructor`, a day `__proto__`) behaves differently in the source.
- Timeline.Day: days are ordered as strings. For `YYYY-MM-DD` days this is the order of `new Date(day).getTime()`; other datetime formats are not parsed.
- A photo without a datetime makes `getPhotosByDay` call `slice` on a number, which throws. The model returns no sections (`None`) instead of raising.
- The WebCrypto calls of `createVaultEncryptionKey` and `decryptVaultEncryptionKey`, the settings query, and the `async` dispatch. Keys and wrapped keys are opaque type parameters.
- The React components of the timeline and the network requests behind the two `updateQueries` transforms.
