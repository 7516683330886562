# KMeansCluster sweep-and-select and mug2vec's parameter check, in Dafny

This project models two pieces of graspologic.

- `KMeansCluster` (module `Cluster`, `kclust.dfy`) is a model-selection estimator.
  Construction checks `max_clusters`. `fit` then rejects a `max_clusters` above the
  sample count. Otherwise it fits one KMeans model for every count 2..`max_clusters`,
  scores each by silhouette (and by adjusted Rand index when labels `y` are given),
  and keeps the model at the first maximum of the ARI (with labels) or of the
  silhouette (without). The class keeps graspologic's fields and result attributes.
  Its `Fit` method calls the module-level method `Sweep`, which holds the `for` loop
  over the candidate counts, and then makes the selection. `Fit` is proved against
  the specification function `FitSpec`. The lemmas about `FitSpec` state what the
  attributes hold.
- `mug2vec._check_inputs` (module `Embed`, `mug2vec.dfy`) walks the estimator's
  parameters in `get_params()` order, skipping `pass_to_ranks`. It raises a
  ValueError on the first one that is neither `None` nor an int > 0. `fit` runs it
  before anything else.

Shared Python notions are in `py_values.dfy` (module `PyValues`):
- `PyValue`: a Python value, with `bool` kept apart because Python counts it as an `int`.
- `Option`: Python `None` versus a value.
- `Attr`: whether an attribute has been assigned yet.

sklearn's `KMeans(...).fit_predict`, `silhouette_score` and `adjusted_rand_score`
are the arrow-typed fields of the datatype `Cluster.Sklearn`. They are passed to
`fit` as a parameter. The embedding pipeline of `mug2vec.fit` (pass-to-ranks,
omnibus embedding, classical MDS) is likewise the parameter `Embed.Pipeline`.
Scores are `real`.

Where the code and its documentation disagree, the model follows the code:

- `n_clusters_` is set to `argmax + 1`. But `model_` is `models[argmax]`, which was
  fitted with `argmax + 2` clusters. So `n_clusters_` is one less than the count of
  `model_` and lies in [1, `max_clusters` - 1]. The docstring says `model_` is fitted
  with `n_clusters_` clusters. `Cluster.FitNClustersOneBelowModel` states the
  off-by-one. `Cluster.TwoGroupsScenario` shows it for six points and
  `max_clusters = 3` without labels: whenever the 2-cluster silhouette beats the
  3-cluster one, `n_clusters_` comes out as 1.
- The docstring says the score lists cover `range(2, max_clusters)`. The loop runs
  over `range(2, max_clusters + 1)`, so the lists have one more entry, for
  `max_clusters` itself (`Cluster.FitCoversMaxClusters`).
- The class docstring says it computes "all possible models from one component to
  `max_clusters`". The loop starts at two clusters (`Cluster.CandidatesAscending`).
- The two construction errors are different exception classes: TypeError for a
  non-int, ValueError for an int <= 1. A `bool` is an int, so `True` and `False` are
  ValueErrors.
- A failed `fit` raises before assigning anything. A fresh estimator therefore has
  no result attributes afterwards. An estimator that was fitted before keeps its
  earlier results unchanged.
- In `_check_inputs`, `True` passes as the int 1, and `svd_seed = 0` is rejected.

## Model

| member | source | states |
|---|---|---|
| `Cluster.CheckMaxClusters` | clustering/packages/graspologic/cluster/kclust.py:60-68 | a `max_clusters` is accepted iff it is a (non-bool) int >= 2, and is then kept unchanged; a non-int gives TypeError; an int (bool included) <= 1 gives ValueError |
| `PyValues.AsInt` | clustering/packages/graspologic/cluster/kclust.py:60 | `isinstance(v, int)` and the int it stands for: ints as themselves, `True` as 1 and `False` as 0, and no int for `None` or any other type (the same test is made at mug2vec.py:120) |
| `Cluster.ConstructionErrorsDiffer` | clustering/packages/graspologic/cluster/kclust.py:60-68 | the TypeError and ValueError cases are disjoint: TypeError only for non-ints, ValueError only for ints <= 1 or bools; `1` and `True` give ValueError, a string and `None` give TypeError |
| `Cluster.KMeansCluster.constructor` | clustering/packages/graspologic/cluster/kclust.py:65-69 | the validated `max_clusters` and `random_state` are stored unchanged, and no result attribute is set yet |
| `Cluster.KMeansCluster.Create` | clustering/packages/graspologic/cluster/kclust.py:55-69 | construction fails exactly when `CheckMaxClusters` rejects the argument, with that error kind; otherwise it returns a fresh, valid estimator holding the value |
| `Cluster.Range` | clustering/packages/graspologic/cluster/kclust.py:103 | Python's `range(lo, hi)` with step 1, built as lo followed by `range(lo + 1, hi)`, empty when lo >= hi; its shape is `RangeShape` |
| `Cluster.Candidates` | clustering/packages/graspologic/cluster/kclust.py:103 | the sweep's counts, `range(2, max_clusters + 1)`; what they are is `CandidatesAscending` |
| `Cluster.RangeShape` | clustering/packages/graspologic/cluster/kclust.py:103 | `range(lo, hi)` has max(0, hi - lo) entries and entry i is lo + i |
| `Cluster.CandidatesAscending` | clustering/packages/graspologic/cluster/kclust.py:103 | the sweep's counts are exactly 2..max_clusters, ascending, without gaps; there are max_clusters - 1 of them and the last is max_clusters |
| `Cluster.Sweep` | clustering/packages/graspologic/cluster/kclust.py:99-111 | the loop builds the model list for the candidate counts in order, and a silhouette list aligned with it; it builds an ARI list aligned with it when y is given, and an empty one otherwise |
| `Cluster.ArgMax` | clustering/packages/graspologic/cluster/kclust.py:116-117 | `np.argmax` returns an index holding the maximum, and every earlier entry is strictly smaller (first-maximum tie-break) |
| `Cluster.ArgMaxIsTheFirstMaximum` | clustering/packages/graspologic/cluster/kclust.py:121-122 | the first-maximum properties determine the index: any index with them equals `ArgMax` |
| `Cluster.FitSpec` | clustering/packages/graspologic/cluster/kclust.py:88-122 | the specification of `fit`: ValueError when max_clusters exceeds the number of samples; otherwise the three lists of the sweep, and `n_clusters_ = argmax + 1` with `model_ = models[argmax]`, where argmax is taken over the ARI list when y is given and over the silhouettes otherwise; its properties are the `Fit...` lemmas below |
| `Cluster.FitFailsIffTooFewSamples` | clustering/packages/graspologic/cluster/kclust.py:89-92 | with total oracles, `fit` fails exactly when max_clusters exceeds the number of samples, and then with ValueError |
| `Cluster.FitSilhouettePerCount` | clustering/packages/graspologic/cluster/kclust.py:103-109 | `silhouette_` has max_clusters - 1 entries; entry i is the silhouette of the model fitted with i + 2 clusters, with or without y |
| `Cluster.FitAriAligned` | clustering/packages/graspologic/cluster/kclust.py:110-120 | `ari_` is present iff y is given; it then has the length of `silhouette_`, and entry i is the ARI of the model for i + 2 clusters |
| `Cluster.FitSelectsFirstBest` | clustering/packages/graspologic/cluster/kclust.py:113-122 | `model_` is the model for count k + 2, where k is the first index of the maximal score; the score is ARI when y is given and silhouette otherwise |
| `Cluster.FitNClustersOneBelowModel` | clustering/packages/graspologic/cluster/kclust.py:113-122 | `n_clusters_` is argmax + 1: one less than the count `model_` was fitted with, and within [1, max_clusters - 1] |
| `Cluster.FitCoversMaxClusters` | clustering/packages/graspologic/cluster/kclust.py:103-109 | the score list is one longer than `range(2, max_clusters)`, and its last entry scores the max_clusters model |
| `Cluster.TwoGroupsScenario` | clustering/packages/graspologic/cluster/kclust.py:113-122 | with 6 points, max_clusters 3, no labels, and a higher 2-cluster silhouette: `model_` has 2 clusters while `n_clusters_` is 1 |
| `Cluster.KMeansCluster.Fit` | clustering/packages/graspologic/cluster/kclust.py:71-124 | when there are too few samples: ValueError, with the object unchanged; otherwise all four result attributes are overwritten with `FitSpec` of the inputs (nothing survives an earlier fit), the configuration is kept, the result invariant holds, and the estimator itself is returned |
| `Embed.Check` | clustering/packages/graspologic/embed/mug2vec.py:118-125 | the loop as a recursive function: walks the parameters in order, raises on the first that is neither None nor an int > 0 (with the message for a non-int or for an int <= 0), and passes when none does; its properties are the three lemmas below |
| `Embed.CheckPassesIffAllAcceptable` | clustering/packages/graspologic/embed/mug2vec.py:118-125 | the check passes iff every checked parameter is None or an int > 0 |
| `Embed.CheckFailsOnFirstOffender` | clustering/packages/graspologic/embed/mug2vec.py:118-125 | if parameter k is the first unacceptable one, the check raises the message for parameter k, whatever follows it: "<name> must be an int or None." for a non-int, "<name> must be > 0." for an int <= 0 |
| `Embed.CheckFailureHasOffender` | clustering/packages/graspologic/embed/mug2vec.py:118-125 | every failure's message is that of an actual first unacceptable parameter |
| `Embed.Pop` | clustering/packages/graspologic/embed/mug2vec.py:116 | `variables.pop("pass_to_ranks")`: the parameters in their order without the entries of the popped key |
| `Embed.PopRemovesKey` | clustering/packages/graspologic/embed/mug2vec.py:116 | after the pop no parameter carries the popped name, every parameter with another name is kept, and the list does not grow |
| `Embed.PopIgnoresValue` | clustering/packages/graspologic/embed/mug2vec.py:116 | dropping a key from the parameters does not depend on the value stored under it |
| `Embed.ParamList` | clustering/packages/graspologic/embed/mug2vec.py:115 | the `get_params()` dictionary of the six constructor parameters, sorted by name as sklearn lists them |
| `Embed.Mug2Vec.GetParams` | clustering/packages/graspologic/embed/mug2vec.py:115 | `self.get_params()`: the stored parameters, as `ParamList` orders them |
| `Embed.CheckedVariables` | clustering/packages/graspologic/embed/mug2vec.py:115-116 | the loop sees cmds_components, cmds_n_elbows, omnibus_components, omnibus_n_elbows and svd_seed, in that order, and never pass_to_ranks |
| `Embed.PassToRanksNotChecked` | clustering/packages/graspologic/embed/mug2vec.py:115-116 | changing `pass_to_ranks` never changes the outcome of the check |
| `Embed.DefaultsPass` | clustering/packages/graspologic/embed/mug2vec.py:118-125 | the constructor defaults pass the check, whatever `pass_to_ranks` holds |
| `Embed.TrueAccepted` | clustering/packages/graspologic/embed/mug2vec.py:119-125 | `True` in every checked parameter passes, since a bool is an int equal to 1 |
| `Embed.ZeroSeedRejected` | clustering/packages/graspologic/embed/mug2vec.py:123-125 | `svd_seed = 0` raises "svd_seed must be > 0." when the parameters before it are acceptable |
| `Embed.NonIntCmdsComponentsRejected` | clustering/packages/graspologic/embed/mug2vec.py:120-122 | a non-int `cmds_components`, first in order, raises "cmds_components must be an int or None." whatever the later parameters hold |
| `Embed.Mug2Vec.constructor` | clustering/packages/graspologic/embed/mug2vec.py:96-112 | every parameter is stored as given, without any check, and no fitted attribute is set |
| `Embed.Mug2Vec.CheckInputs` | clustering/packages/graspologic/embed/mug2vec.py:114-125 | the loop with early raise returns exactly what `Check` gives for the parameters minus `pass_to_ranks` |
| `Embed.Mug2Vec.Fit` | clustering/packages/graspologic/embed/mug2vec.py:146-170 | a failing check raises its ValueError before the pipeline runs, and leaves the object unchanged; otherwise the three fitted attributes take the pipeline's results and the estimator itself is returned |

## Left out

- The numerics of sklearn's `KMeans`, `silhouette_score` and `adjusted_rand_score` are not modelled. They are arbitrary functions passed in (`Cluster.Sklearn`). Scores are exact reals, so floating point and NaN are not modelled.
- Errors raised inside those collaborators are not modelled. The oracles are total. Examples:
  - a `y` whose length differs from `X`;
  - `max_clusters == n_samples`. The check at kclust.py:89 lets this through. The last iteration then asks `silhouette_score` about as many clusters as points, which sklearn defines only for 2 to n_samples - 1 labels, so the real `fit` raises there. The model's `fit` succeeds on it.
- `random_state` is only passed through. How sklearn seeds from an int, or advances a shared generator object, is not modelled.
- `Cluster.KMeansCluster.Fit` is deterministic in the model for every `random_state`, because `fitPredict` is a function of `(X, n, random_state)`: repeated calls on the same inputs return the same results. graspologic's code promises that at most for an int seed. With `random_state=None` (numpy's global generator) or a shared `RandomState` object, each sklearn fit advances the generator, and repeated calls can differ.
- The text of kclust's error messages is not modelled; only the exception class is.
- The rest of `mug2vec.fit` is one oracle, `Embed.Pipeline`: pass-to-ranks, `OmnibusEmbed`, `ClassicalMDS`. Those modules are not part of this model. `fit_transform` is not modelled either.
- `Embed.Mug2Vec.Fit`: the pipeline oracle is total and its three results are stored together. In graspologic's code, `ClassicalMDS` (mug2vec.py:162-168) can raise after `omnibus_n_components_` was set at mug2vec.py:160. That leaves a partly fitted object, which the model does not capture.
- `Embed.Mug2Vec.GetParams`: the order of sklearn's `BaseEstimator.get_params` is taken as sklearn documents it, sorted by parameter name. Nested parameters (`deep=True`) are not modelled, because no parameter here is an estimator.
- `Embed.Pop`: `dict.pop` raises KeyError on a missing key. The model drops the entry instead, because `get_params()` always holds `pass_to_ranks`.
- Changing `max_clusters` after construction (sklearn's `set_params`) is excluded by the class invariant `Valid()`. So is the base class `BaseCluster`, which is not part of this model.
- The shape of `X` is not checked: it is not validated as 2-D with rows of equal length. `fit` reads only its number of rows.
- `clustering/utils/__init__.py` only re-exports functions and has no logic.
- The sweep is evaluated sequentially, as the code does. Parallel evaluation is not modelled.
