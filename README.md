# GeneValidator length validation by hit-length clusterization

This project is a Dafny model of GeneValidator's `LengthClusterValidation`, with proofs about it. This check asks whether a predicted gene's length fits the lengths of its BLAST hits. It works in four steps:

1. It takes the hits' lengths and sorts them ascending.
2. It hands the sorted lengths to a hierarchical clusterer.
3. It picks the densest of the returned clusters. Among equally dense clusters the first wins. A cluster is chosen only over density 0, so when no density is positive the first cluster is used.
4. It answers `:yes` when the prediction's length lies in that cluster's closed interval of limits and `:no` otherwise.

A silhouette score, `(b - a) / max(a, b)`, rates how well the prediction sits in the chosen cluster:
- `a` is its mean distance to the chosen cluster's entries;
- `b` is the least non-zero mean distance to any other cluster.

Files:

- `wrappers.dfy`: module `Wrappers`, holding `Option`, which stands for Ruby's `nil`.
- `sorting.dfy`: module `Sorting`, the model of Ruby's `Array#sort` on integers. It sorts by insertion and proves that a sorted permutation is unique, so the model agrees with whatever algorithm the library uses.
- `validation_length_cluster.dfy`: module `ValidationLengthCluster`, holding:
  - the data model (`Input`, `Cluster`, `LengthClusterValidationOutput`, `Report`);
  - the verdict function `Validation`;
  - the method `ClusterizationByLength`, which extracts and sorts the lengths and runs the densest-cluster loop;
  - the method `SequenceSilhouette` and its helper `AverageDissimilarity`, which hold the silhouette loops;
  - the class `LengthClusterValidation`, whose `Run` assigns the fields that `run` assigns;
  - worked examples.

Modelling decisions:

- **The clusterer.** `HierarchicalClusterization` is a parameter `hierarchical: seq<int> -> seq<Cluster>`, because its source is not part of this model. A cluster is a value with three fields: its (length, frequency) entries, its `density` (a `real`) and its `limits`.
- **Prediction and hits.** Each is an `Input`: a `Sequence` with an integer length, or `NonSequence`, an object whose length cannot be read.
- **`clusterization_by_length`'s outcome.** There are three:
  - `TypeErrorExit`: the first hit or the prediction is not a `Sequence`, or there are no hits. The source prints and calls `exit`.
  - `NoMethodError`: a later hit is not a `Sequence`.
  - `Clustered`: the clusters and the densest index.
- **How `run` fails.** `run` rescues every `Exception`. That includes the `SystemExit` raised by `exit`, so each failure the model covers becomes the report "Not enough evidence". Failures inside the clusterer are not covered (see "Left out"). This also covers an empty cluster list: `@clusters` and `@max_density_cluster` are assigned first, and then `nil.get_limits` raises.
- **What `run` stores.** On every failure path `run` returns the "Not enough evidence" report but does not store it in `@validation_report`. `Run` models exactly that: the stored report is left as it was. On success `Run` returns the stored report. The Ruby method's own value there is the plot-file list.
- **Silhouette arithmetic.** It uses Dafny `real`. Where Ruby's division gives NaN (`a` and `b` both 0), `SequenceSilhouette` returns `None`.

Three behaviours of the code to note:

- The silhouette's mean distances ignore the frequencies (`frecv`). They are plain means over the (length, frequency) entries.
- With a single cluster, `b` is 0, so the silhouette is -1 whenever `a > 0` (`SingleClusterSilhouette`). It is NaN (`None`) when `a` is 0 too.
- The densest-cluster scan starts from density 0. When no cluster has positive density the index is 0, whatever the densities.

## Model

| member | source | states |
|---|---|---|
| `ValidationLengthCluster.Validation` | lib/genevalidator/validation_length_cluster.rb:20-29 | no verdict exactly when the limits are nil; with limits, `:yes` exactly when `limits[0] <= prediction_len <= limits[1]` and `:no` exactly when not |
| `ValidationLengthCluster.AcceptedLengthsAreConvex` | lib/genevalidator/validation_length_cluster.rb:22-27 | the accepted lengths form an interval: a length between two accepted lengths is accepted |
| `ValidationLengthCluster.HitLengths` | lib/genevalidator/validation_length_cluster.rb:106 | the lengths are available exactly when every hit is a `Sequence`, and then they are the hits' lengths, in the hits' order |
| `Sorting.SortAscending` | lib/genevalidator/validation_length_cluster.rb:106 | the sorted contents are in ascending order and are a permutation of the input (same multiset, same length) |
| `Sorting.SortedPermutationsAreEqual` | lib/genevalidator/validation_length_cluster.rb:106 | two sorted sequences with the same multiset are equal, so the sort's result does not depend on the sorting algorithm |
| `Sorting.SortAscendingIsTheOnlySort` | lib/genevalidator/validation_length_cluster.rb:106 | every sorted permutation of the lengths is the modelled sort's result |
| `ValidationLengthCluster.ContentsArePermutedHitLengths` | lib/genevalidator/validation_length_cluster.rb:106 | the contents handed to the clusterer are sorted, and each length occurs in them as many times as there are hits of that length |
| `ValidationLengthCluster.CountOccurrences` | lib/genevalidator/validation_length_cluster.rb:106 | the multiplicity of a length in the contents is the number of positions that hold it |
| `ValidationLengthCluster.ClusterizationByLength` | lib/genevalidator/validation_length_cluster.rb:102-120 | a type error (leading to exit) exactly when there are no hits or the first hit or the prediction is not a `Sequence`; a failure reading a length exactly when some later hit is not a `Sequence`; otherwise the clusters are the clusterer applied to the sorted hit lengths, and the index meets the four densest-cluster conditions |
| `ValidationLengthCluster.MaxDensityIndexIsDensest` | lib/genevalidator/validation_length_cluster.rb:111-118 | the chosen index is valid when there are clusters; no cluster of positive density beats it; among equally dense clusters of positive density, the first is chosen |
| `ValidationLengthCluster.MaxDensityIndexIsUnique` | lib/genevalidator/validation_length_cluster.rb:111-118 | the densest-cluster conditions (strictly greater than every earlier cluster and positive, at least every later cluster, 0 when no density is positive) fix the index |
| `ValidationLengthCluster.AverageDissimilarity` | lib/genevalidator/validation_length_cluster.rb:220-224 | the mean over a cluster's entries of the absolute difference between entry length and prediction length; frequencies do not enter |
| `ValidationLengthCluster.SumDistanceZero` | lib/genevalidator/validation_length_cluster.rb:232-236 | a cluster's sum of distances is 0 exactly when all its entries have the prediction's length |
| `ValidationLengthCluster.MeanDistanceZero` | lib/genevalidator/validation_length_cluster.rb:235-238 | a mean distance, the value `b_vector` leaves out when it is 0, is 0 exactly when every entry of that cluster has the prediction's length |
| `ValidationLengthCluster.Min` | lib/genevalidator/validation_length_cluster.rb:241 | `b_vector.min` is nil exactly on an empty vector, and otherwise an element no greater than any element |
| `ValidationLengthCluster.OtherClusterMeansMembers` | lib/genevalidator/validation_length_cluster.rb:226-240 | `b_vector` holds only positive means of clusters other than `idx`, and holds the mean of every other cluster whose mean is not 0 |
| `ValidationLengthCluster.NearestDissimilarityIsLeastNonZeroMean` | lib/genevalidator/validation_length_cluster.rb:226-244 | `b` is 0 exactly when every other cluster's mean is 0; otherwise it is the mean of some other cluster and no greater than any non-zero mean of another cluster |
| `ValidationLengthCluster.SilhouetteBounds` | lib/genevalidator/validation_length_cluster.rb:245 | when `max(a, b) > 0` the silhouette is defined and in [-1, 1]; it is positive exactly when `a < b`, -1 when `b` is 0, and 1 when `a` is 0 |
| `ValidationLengthCluster.QuotientBounds` | lib/genevalidator/validation_length_cluster.rb:245 | dividing a number in [-m, m] by a positive `m` gives a value in [-1, 1] with the number's sign, -1 and 1 at the ends |
| `ValidationLengthCluster.SingleClusterSilhouette` | lib/genevalidator/validation_length_cluster.rb:241-245 | with one cluster and some entry length that differs from the prediction's length, `b` is 0 and the silhouette is -1 |
| `ValidationLengthCluster.SequenceSilhouette` | lib/genevalidator/validation_length_cluster.rb:216-247 | the result is `(b - a) / max(a, b)`, with `a` the mean distance to cluster `idx` and `b` the least non-zero mean distance to another cluster (0 if none), and no number where both are 0 |
| `ValidationLengthCluster.LengthClusterValidation.constructor` | lib/genevalidator/validation_length_cluster.rb:50-57 | keeps the prediction, hits, file name and plot flag; nothing is clustered and no report is stored yet |
| `ValidationLengthCluster.LengthClusterValidation.Run` | lib/genevalidator/validation_length_cluster.rb:65-91 | "Not enough evidence", with no field assigned, when the prediction or the first hit is not a `Sequence`, there are no hits, or a hit's length cannot be read; otherwise the clusters are those of the sorted hit lengths and the stored index meets the densest-cluster conditions; with no clusters the result is "Not enough evidence" and no report is stored; otherwise the stored and returned report pairs the prediction's length with the densest cluster's limits |
| `ValidationLengthCluster.ExampleContents` | lib/genevalidator/validation_length_cluster.rb:106 | hit lengths 100, 102, 98, 101, 400, 405, 398 go to the clusterer as 98, 100, 101, 102, 398, 400, 405 |
| `ValidationLengthCluster.ExampleTieGoesToFirstCluster` | lib/genevalidator/validation_length_cluster.rb:111-118 | of two singleton clusters {50} and {300} of equal density, the first is chosen, and a prediction of length 175 gets `:no` |
| `ValidationLengthCluster.ExampleMeanDistances` | lib/genevalidator/validation_length_cluster.rb:220-235 | length 100 is at mean distance 1.25 from {98, 100, 101, 102} and 301 from {398, 400, 405} |
| `ValidationLengthCluster.ExampleSilhouette` | lib/genevalidator/validation_length_cluster.rb:216-247 | for those two clusters and prediction length 100, `a` is 1.25, `b` is 301 and the silhouette is (301 - 1.25) / 301, above 0.99 |

## Left out

- The clustering algorithm itself (`HierarchicalClusterization`, `Cluster#density`, `Cluster#get_limits`): its source is not part of this model, so the clusterer is a function parameter and density and limits are fields of a cluster.
- Failures of the clusterer: the clusterer is a total function and `density` and `limits` are plain fields, so the model has no path where `HierarchicalClusterization`, `density` or `get_limits` raises. In Ruby such an exception would also end in "Not enough evidence" through `run`'s `rescue Exception`; that path is not modelled, and `Run`'s success clauses hold only for a clusterer that returns.
- Plotting (`plot_length`, `plot_histo_clusters`, and the calls to them and the `plot_files` list in `run`): foreign calls into R that write image files. An exception raised while plotting would also end in "Not enough evidence"; that path is not modelled.
- The message printed to standard error before `exit` in `clusterization_by_length`: output and process termination. The case is kept as the outcome `TypeErrorExit`.
- `LengthClusterValidationOutput#print` and all of `output.rb`: console, YAML and HTML presentation.
- The `type` and `debug` parameters: neither enters the computation shown.
- Floating point: densities and silhouette arithmetic are exact reals, so rounding is not modelled, and Ruby's NaN (`a` and `b` both 0) is `None`.
- `SequenceSilhouette`: requires the prediction to be a `Sequence`, `idx` to be a valid cluster index, and every cluster to have at least one entry. In Ruby, breaking the first two raises `NoMethodError`, and an empty cluster produces NaN means. Neither happens after a successful `run`, and the model does not follow those paths.
- Duck typing: an object that is not a `Sequence` is taken to have no `xml_length`.
- The state before `run`: Ruby's `nil` for `@clusters` and `@max_density_cluster` is modelled as the empty sequence and 0. `ValidationTest#initialize`, reached through `super`, is not part of this model; the constructor assumes it stores no report (`validationReport` starts as `None`).
