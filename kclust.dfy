/** KMeansCluster: fit one KMeans model per candidate cluster count 2..max_clusters
    and keep the one with the best score (ARI when labels are given, silhouette
    otherwise). The clustering and the two scores are sklearn's and enter as the
    oracle functions of `Sklearn`. */
module Cluster {
  import opened PyValues

  type Point = seq<real>

  /** The `random_state` argument: unset, an int seed, or a generator object
      (identified only; how sklearn draws from it is not modelled). */
  datatype RandomState = DefaultRng | Seed(seed: int) | Generator(id: nat)

  /** The two exception classes `KMeansCluster` raises. */
  datatype Error = ValueError | TypeError

  datatype Result<+T> = Ok(value: T) | Err(error: Error)

  /** A fitted `KMeans(n_clusters=nClusters, random_state=randomState)` object
      with the labels `fit_predict` returned. */
  datatype KMeansModel = KMeans(nClusters: int, randomState: RandomState, labels: seq<int>)

  /** sklearn's collaborators: `KMeans(n, random_state).fit_predict(X)`,
      `silhouette_score(X, labels)` and `adjusted_rand_score(y, labels)`. */
  datatype Sklearn = Sklearn(
    fitPredict: (seq<Point>, int, RandomState) -> seq<int>,
    silhouetteScore: (seq<Point>, seq<int>) -> real,
    adjustedRandScore: (seq<int>, seq<int>) -> real)

  /** The selected model and the scores, as `fit` leaves them in
      `ari_`, `silhouette_`, `n_clusters_` and `model_`. */
  datatype FitResult = FitResult(ari: Option<seq<real>>, silhouette: seq<real>, nClusters: int, model: KMeansModel)

  // ---------------------------------------------------------------------------
  // Construction

  /** The checks of `__init__` on `max_clusters`: a non-int is a TypeError, an
      int <= 1 a ValueError, anything else is stored as it is. */
  function CheckMaxClusters(v: PyValue): (r: Result<int>)
    ensures r.Ok? <==> v.PyInt? && v.i >= 2
    ensures r.Ok? ==> r.value == v.i
    ensures r == Err(TypeError) <==> AsInt(v) == None
    ensures r == Err(ValueError) <==> AsInt(v).Some? && AsInt(v).value <= 1
  {
    match AsInt(v)
    case None => Err(TypeError)
    case Some(m) => if m <= 1 then Err(ValueError) else Ok(m)
  }

  /** The two rejections of `__init__` are different exception classes:
      no value is rejected both ways, and each kind has a witness. */
  lemma ConstructionErrorsDiffer(v: PyValue)
    ensures CheckMaxClusters(v) == Err(TypeError) ==> !v.PyInt? && !v.PyBool?
    ensures CheckMaxClusters(v) == Err(ValueError) ==> (v.PyInt? && v.i <= 1) || v.PyBool?
    ensures CheckMaxClusters(PyInt(1)) == Err(ValueError)
    ensures CheckMaxClusters(PyBool(true)) == Err(ValueError)
    ensures CheckMaxClusters(PyOther("str")) == Err(TypeError)
    ensures CheckMaxClusters(PyNone) == Err(TypeError)
  {
  }

  // ---------------------------------------------------------------------------
  // The sweep

  /** Python's `range(lo, hi)`. */
  function Range(lo: int, hi: int): seq<int>
    decreases hi - lo
  {
    if lo >= hi then [] else [lo] + Range(lo + 1, hi)
  }

  /** `range(lo, hi)` holds exactly the integers lo, lo+1, ..., hi-1, in order. */
  lemma {:induction false} RangeShape(lo: int, hi: int)
    ensures |Range(lo, hi)| == if lo <= hi then hi - lo else 0
    ensures forall i :: 0 <= i < |Range(lo, hi)| ==> Range(lo, hi)[i] == lo + i
    decreases hi - lo
  {
    if lo < hi {
      RangeShape(lo + 1, hi);
    }
  }

  /** The candidate counts of the sweep, `range(2, max_clusters + 1)`. */
  function Candidates(maxClusters: int): seq<int>
  {
    Range(2, maxClusters + 1)
  }

  /** The sweep visits 2..maxClusters, ascending, every count once. */
  lemma CandidatesAscending(maxClusters: int)
    requires maxClusters >= 2
    ensures |Candidates(maxClusters)| == maxClusters - 1
    ensures forall i :: 0 <= i < maxClusters - 1 ==> Candidates(maxClusters)[i] == i + 2
    ensures forall n :: n in Candidates(maxClusters) <==> 2 <= n <= maxClusters
    ensures Candidates(maxClusters)[|Candidates(maxClusters)| - 1] == maxClusters
  {
    RangeShape(2, maxClusters + 1);
    var cs := Candidates(maxClusters);
    forall n | 2 <= n <= maxClusters
      ensures n in cs
    {
      assert cs[n - 2] == n;
    }
  }

  /** `KMeans(n_clusters=n, random_state=rs)` fitted on X. */
  function FitKMeans(sk: Sklearn, X: seq<Point>, n: int, rs: RandomState): KMeansModel
  {
    KMeans(n, rs, sk.fitPredict(X, n, rs))
  }

  /** The `models` list: one fitted model per count, in the order of `counts`. */
  function Models(sk: Sklearn, X: seq<Point>, rs: RandomState, counts: seq<int>): seq<KMeansModel>
  {
    seq(|counts|, i requires 0 <= i < |counts| => FitKMeans(sk, X, counts[i], rs))
  }

  /** The `silhouettes` list, index-aligned with `models`. */
  function Silhouettes(sk: Sklearn, X: seq<Point>, models: seq<KMeansModel>): seq<real>
  {
    seq(|models|, i requires 0 <= i < |models| => sk.silhouetteScore(X, models[i].labels))
  }

  /** The `aris` list, index-aligned with `models`. */
  function Aris(sk: Sklearn, y: seq<int>, models: seq<KMeansModel>): seq<real>
  {
    seq(|models|, i requires 0 <= i < |models| => sk.adjustedRandScore(y, models[i].labels))
  }

  /** The loop of `fit`: for n in range(2, max_clusters + 1), fit a model and
      append it, its silhouette score and, when y is given, its ARI. */
  method Sweep(sk: Sklearn, X: seq<Point>, y: Option<seq<int>>, rs: RandomState, maxClusters: int)
    returns (models: seq<KMeansModel>, silhouettes: seq<real>, aris: seq<real>)
    requires maxClusters >= 2
    ensures models == Models(sk, X, rs, Candidates(maxClusters))
    ensures silhouettes == Silhouettes(sk, X, models)
    ensures aris == if y.Some? then Aris(sk, y.value, models) else []
  {
    models, silhouettes, aris := [], [], [];
    for n := 2 to maxClusters + 1
      invariant |models| == |silhouettes| == n - 2
      invariant forall i :: 0 <= i < n - 2 ==> models[i] == FitKMeans(sk, X, i + 2, rs)
      invariant forall i :: 0 <= i < n - 2 ==> silhouettes[i] == sk.silhouetteScore(X, models[i].labels)
      invariant y.None? ==> aris == []
      invariant y.Some? ==> |aris| == n - 2
      invariant y.Some? ==> forall i :: 0 <= i < n - 2 ==> aris[i] == sk.adjustedRandScore(y.value, models[i].labels)
    {
      var model := FitKMeans(sk, X, n, rs);
      var predictions := model.labels;
      models := models + [model];
      silhouettes := silhouettes + [sk.silhouetteScore(X, predictions)];
      if y.Some? {
        aris := aris + [sk.adjustedRandScore(y.value, predictions)];
      }
    }
    CandidatesAscending(maxClusters);
  }

  // ---------------------------------------------------------------------------
  // Selection

  /** `np.argmax`: the first index of the maximum. */
  function ArgMax(s: seq<real>): (k: nat)
    requires |s| > 0
    ensures k < |s|
    ensures forall j :: 0 <= j < |s| ==> s[j] <= s[k]
    ensures forall j :: 0 <= j < k ==> s[j] < s[k]
  {
    if |s| == 1 then 0
    else
      var k := ArgMax(s[..|s| - 1]);
      if s[k] < s[|s| - 1] then |s| - 1 else k
  }

  /** The two properties of ArgMax's contract single out one index: any index
      holding a maximum with only smaller values before it is ArgMax. */
  lemma ArgMaxIsTheFirstMaximum(s: seq<real>, k: nat)
    requires k < |s|
    requires forall j :: 0 <= j < |s| ==> s[j] <= s[k]
    requires forall j :: 0 <= j < k ==> s[j] < s[k]
    ensures ArgMax(s) == k
  {
  }

  /** What `fit` computes from the configuration and its inputs: a ValueError
      when max_clusters exceeds the sample count, otherwise the sweep and the
      selection, as graspologic's code writes it (`n_clusters_ = argmax + 1`). */
  function FitSpec(maxClusters: int, rs: RandomState, sk: Sklearn, X: seq<Point>, y: Option<seq<int>>): Result<FitResult>
    requires maxClusters >= 2
  {
    if maxClusters > |X| then Err(ValueError)
    else
      var models := Models(sk, X, rs, Candidates(maxClusters));
      CandidatesAscending(maxClusters);
      var silhouettes := Silhouettes(sk, X, models);
      match y
      case Some(labels) =>
        var aris := Aris(sk, labels, models);
        Ok(FitResult(Some(aris), silhouettes, ArgMax(aris) + 1, models[ArgMax(aris)]))
      case None =>
        Ok(FitResult(None, silhouettes, ArgMax(silhouettes) + 1, models[ArgMax(silhouettes)]))
  }

  /** The scores the selection was made on: ARI if labels were given,
      silhouette otherwise. */
  function SelectionScores(f: FitResult): seq<real>
  {
    if f.ari.Some? then f.ari.value else f.silhouette
  }

  /** With total oracles, `fit` fails exactly when max_clusters exceeds the
      number of samples, and then with a ValueError. */
  lemma FitFailsIffTooFewSamples(maxClusters: int, rs: RandomState, sk: Sklearn, X: seq<Point>, y: Option<seq<int>>)
    requires maxClusters >= 2
    ensures FitSpec(maxClusters, rs, sk, X, y).Err? <==> maxClusters > |X|
    ensures FitSpec(maxClusters, rs, sk, X, y).Err? ==> FitSpec(maxClusters, rs, sk, X, y).error == ValueError
  {
  }

  /** `silhouette_` holds max_clusters - 1 scores, entry i being the silhouette
      of the model fitted with i + 2 clusters; it is kept whether or not y is given. */
  lemma FitSilhouettePerCount(maxClusters: int, rs: RandomState, sk: Sklearn, X: seq<Point>, y: Option<seq<int>>)
    requires maxClusters >= 2
    requires FitSpec(maxClusters, rs, sk, X, y).Ok?
    ensures var f := FitSpec(maxClusters, rs, sk, X, y).value;
      |f.silhouette| == maxClusters - 1 &&
      forall i :: 0 <= i < maxClusters - 1 ==>
        f.silhouette[i] == sk.silhouetteScore(X, FitKMeans(sk, X, i + 2, rs).labels)
  {
    CandidatesAscending(maxClusters);
  }

  /** `ari_` is present exactly when y is given, and is then index-aligned
      with `silhouette_`: entry i is the ARI of the model for i + 2 clusters. */
  lemma FitAriAligned(maxClusters: int, rs: RandomState, sk: Sklearn, X: seq<Point>, y: Option<seq<int>>)
    requires maxClusters >= 2
    requires FitSpec(maxClusters, rs, sk, X, y).Ok?
    ensures var f := FitSpec(maxClusters, rs, sk, X, y).value;
      (f.ari.Some? <==> y.Some?) &&
      (f.ari.Some? ==>
         (|f.ari.value| == |f.silhouette| &&
          forall i :: 0 <= i < |f.silhouette| ==>
            f.ari.value[i] == sk.adjustedRandScore(y.value, FitKMeans(sk, X, i + 2, rs).labels)))
  {
    CandidatesAscending(maxClusters);
  }

  /** `model_` is the model at the first index of the highest selection score
      (ties go to the lowest count), and selection scores are ARI if y is given. */
  lemma FitSelectsFirstBest(maxClusters: int, rs: RandomState, sk: Sklearn, X: seq<Point>, y: Option<seq<int>>)
    requires maxClusters >= 2
    requires FitSpec(maxClusters, rs, sk, X, y).Ok?
    ensures var f := FitSpec(maxClusters, rs, sk, X, y).value;
      var s := SelectionScores(f);
      var k := f.model.nClusters - 2;
      (y.Some? ==> s == f.ari.value) && (y.None? ==> s == f.silhouette) &&
      0 <= k < |s| &&
      f.model == FitKMeans(sk, X, k + 2, rs) &&
      (forall j :: 0 <= j < |s| ==> s[j] <= s[k]) &&
      (forall j :: 0 <= j < k ==> s[j] < s[k])
  {
    CandidatesAscending(maxClusters);
  }

  /** The off-by-one as written: `n_clusters_` is set to argmax + 1, while
      `model_` is `models[argmax]`, fitted with argmax + 2 clusters. So
      `n_clusters_` lies in [1, max_clusters - 1] and is one less than the
      count of `model_`, not equal to it as the docstring says. */
  lemma FitNClustersOneBelowModel(maxClusters: int, rs: RandomState, sk: Sklearn, X: seq<Point>, y: Option<seq<int>>)
    requires maxClusters >= 2
    requires FitSpec(maxClusters, rs, sk, X, y).Ok?
    ensures var f := FitSpec(maxClusters, rs, sk, X, y).value;
      f.nClusters + 1 == f.model.nClusters &&
      1 <= f.nClusters <= maxClusters - 1 &&
      f.nClusters == ArgMax(SelectionScores(f)) + 1
  {
    CandidatesAscending(maxClusters);
  }

  /** The docstring describes the score lists as covering `range(2, max_clusters)`;
      the loop runs to max_clusters inclusive, so the lists are one longer and
      their last entry belongs to count max_clusters. */
  lemma FitCoversMaxClusters(maxClusters: int, rs: RandomState, sk: Sklearn, X: seq<Point>, y: Option<seq<int>>)
    requires maxClusters >= 2
    requires FitSpec(maxClusters, rs, sk, X, y).Ok?
    ensures var f := FitSpec(maxClusters, rs, sk, X, y).value;
      |f.silhouette| == |Range(2, maxClusters)| + 1 &&
      f.silhouette[|f.silhouette| - 1] == sk.silhouetteScore(X, FitKMeans(sk, X, maxClusters, rs).labels)
  {
    RangeShape(2, maxClusters);
    FitSilhouettePerCount(maxClusters, rs, sk, X, y);
  }

  /** Six points, max_clusters = 3 and no labels: whenever the 2-cluster
      silhouette is higher than the 3-cluster one, `n_clusters_` comes out as 1
      (not 2) and `model_` is the 2-cluster model. */
  lemma TwoGroupsScenario(rs: RandomState, sk: Sklearn, X: seq<Point>)
    requires |X| == 6
    requires sk.silhouetteScore(X, FitKMeans(sk, X, 3, rs).labels) < sk.silhouetteScore(X, FitKMeans(sk, X, 2, rs).labels)
    ensures FitSpec(3, rs, sk, X, None).Ok?
    ensures FitSpec(3, rs, sk, X, None).value.nClusters == 1
    ensures FitSpec(3, rs, sk, X, None).value.model.nClusters == 2
  {
    CandidatesAscending(3);
    var f := FitSpec(3, rs, sk, X, None).value;
    FitSilhouettePerCount(3, rs, sk, X, None);
    ArgMaxIsTheFirstMaximum(f.silhouette, 0);
  }

  // ---------------------------------------------------------------------------
  // The estimator object

  class KMeansCluster {
    var maxClusters: int
    var randomState: RandomState
    var ari: Attr<Option<seq<real>>>
    var silhouette: Attr<seq<real>>
    var nClusters: Attr<int>
    var model: Attr<KMeansModel>

    /** The configuration is a valid max_clusters; the result attributes are
        all unset (before the first successful fit) or all set and consistent
        with each other. */
    ghost predicate Valid()
      reads this
    {
      && maxClusters >= 2
      && (silhouette.Set? <==> ari.Set?)
      && (silhouette.Set? <==> nClusters.Set?)
      && (silhouette.Set? <==> model.Set?)
      && (silhouette.Set? ==>
            && |silhouette.value| == maxClusters - 1
            && (ari.value.Some? ==> |ari.value.value| == maxClusters - 1)
            && 1 <= nClusters.value <= maxClusters - 1
            && model.value.nClusters == nClusters.value + 1)
    }

    /** The assignments of `__init__`, reached once max_clusters has passed
        its checks. */
    constructor (maxClusters: int, randomState: RandomState)
      requires maxClusters >= 2
      ensures Valid()
      ensures this.maxClusters == maxClusters && this.randomState == randomState
      ensures ari == Unset && silhouette == Unset && nClusters == Unset && model == Unset
    {
      this.maxClusters := maxClusters;
      this.randomState := randomState;
      ari, silhouette, nClusters, model := Unset, Unset, Unset, Unset;
    }

    /** `KMeansCluster(max_clusters, random_state)`: raises what
        CheckMaxClusters says, or returns a fresh estimator holding the value. */
    static method Create(maxClusters: PyValue, randomState: RandomState) returns (r: Result<KMeansCluster>)
      ensures r.Err? <==> CheckMaxClusters(maxClusters).Err?
      ensures r.Err? ==> r.error == CheckMaxClusters(maxClusters).error
      ensures r.Ok? ==> && fresh(r.value) && r.value.Valid()
                        && r.value.maxClusters == CheckMaxClusters(maxClusters).value
                        && r.value.randomState == randomState
                        && r.value.silhouette == Unset
    {
      match CheckMaxClusters(maxClusters)
      case Err(e) =>
        r := Err(e);
      case Ok(m) =>
        var c := new KMeansCluster(m, randomState);
        r := Ok(c);
    }

    /** `fit(X, y)`: on too few samples raises ValueError and changes nothing;
        otherwise overwrites every result attribute with what FitSpec computes
        from the inputs alone (nothing of an earlier fit survives) and returns
        the estimator itself. */
    method Fit(X: seq<Point>, y: Option<seq<int>>, sk: Sklearn) returns (r: Result<KMeansCluster>)
      requires Valid()
      modifies this
      ensures Valid()
      ensures maxClusters == old(maxClusters) && randomState == old(randomState)
      ensures FitSpec(maxClusters, randomState, sk, X, y).Err? ==>
                r == Err(ValueError) && unchanged(this)
      ensures FitSpec(maxClusters, randomState, sk, X, y).Ok? ==>
                var f := FitSpec(maxClusters, randomState, sk, X, y).value;
                && r == Ok(this)
                && ari == Set(f.ari)
                && silhouette == Set(f.silhouette)
                && nClusters == Set(f.nClusters)
                && model == Set(f.model)
    {
      if maxClusters > |X| {
        return Err(ValueError);
      }
      var models, silhouettes, aris := Sweep(sk, X, y, randomState, maxClusters);
      CandidatesAscending(maxClusters);
      assert |models| == |silhouettes| == maxClusters - 1;
      ghost var f := FitSpec(maxClusters, randomState, sk, X, y).value;
      if y.Some? {
        var best := ArgMax(aris);
        assert models[best].nClusters == best + 2;
        assert f == FitResult(Some(aris), silhouettes, best + 1, models[best]);
        ari := Set(Some(aris));
        silhouette := Set(silhouettes);
        nClusters := Set(best + 1);
        model := Set(models[best]);
      } else {
        var best := ArgMax(silhouettes);
        assert models[best].nClusters == best + 2;
        assert f == FitResult(None, silhouettes, best + 1, models[best]);
        ari := Set(None);
        silhouette := Set(silhouettes);
        nClusters := Set(best + 1);
        model := Set(models[best]);
      }
      return Ok(this);
    }
  }
}
