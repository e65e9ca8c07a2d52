/** The Gaussian likelihood of observed clustering and number densities
    (Abacus/src/data_object.py). The arrays read with `np.loadtxt` and the
    matrix inverse are supplied by a `Loader`; all arithmetic is on reals. */
module DataObject {
  import opened Wrappers
  import opened Text

  type Vector = seq<real>
  type Matrix = seq<seq<real>>

  /** One row of the xi02 file: its columns 1 and 3. */
  datatype Xi02Row = Xi02Row(col1: real, col3: real)

  /** The entry of `tracer_combos` for one composite key. */
  datatype ComboPaths = ComboPaths(path2wp: string, path2xi02: string, path2cov: string)

  /** `data_params`; a missing section is the same as an empty one. */
  datatype DataParams = DataParams(
    tracerCombos: map<string, ComboPaths>,
    densityMean: map<string, real>,
    densityStd: map<string, real>)

  /** `hod_params["tracer_flags"]` in dictionary order (empty when missing). */
  datatype HodParams = HodParams(tracerFlags: seq<(string, bool)>)

  /** `clustering_params["clustering_type"]`, if present. */
  datatype ClusteringParams = ClusteringParams(clusteringType: Option<string>)

  /** What the files hold: column 1 of a wp file, columns 1 and 3 of an xi02
      file, a covariance matrix, and the inverse of a matrix. */
  datatype Loader = Loader(
    wpColumn: string -> Vector,
    xi02Columns: string -> seq<Xi02Row>,
    covMatrix: string -> Matrix,
    inverse: Matrix -> Matrix)

  datatype LikelihoodError =
    | ShapeMismatch(key: string)  // the theory vector or inverse covariance does not fit
    | MissingStd(tracer: string)  // KeyError on density_std
    | ZeroStd(tracer: string)     // ZeroDivisionError

  predicate Distinct(s: seq<string>) {
    forall i, j | 0 <= i < j < |s| :: s[i] != s[j]
  }

  /** A dictionary has each key once. */
  predicate DistinctNames(flags: seq<(string, bool)>) {
    forall i, j | 0 <= i < j < |flags| :: flags[i].0 != flags[j].0
  }

  /** The key of the auto-correlation of tracer `t`: `f"{t}_{t}"`. */
  function CompositeKey(t: string): string {
    t + "_" + t
  }

  /** Different tracers never share a composite key. */
  lemma CompositeKeyInjective(a: string, b: string)
    requires CompositeKey(a) == CompositeKey(b)
    ensures a == b
  {
    assert |a| == |b|;
    assert CompositeKey(a)[..|a|] == a;
    assert CompositeKey(b)[..|b|] == b;
  }

  /** The tracers whose flag is true, in dictionary order. */
  function ActiveTracers(flags: seq<(string, bool)>): (ts: seq<string>)
    ensures forall t :: t in ts <==> exists i | 0 <= i < |flags| :: flags[i] == (t, true)
    ensures DistinctNames(flags) ==> Distinct(ts)
  {
    if flags == [] then []
    else
      var prefix := ActiveTracers(flags[..|flags| - 1]);
      var last := flags[|flags| - 1];
      assert forall i | 0 <= i < |flags| - 1 :: flags[..|flags| - 1][i] == flags[i];
      if last.1 then prefix + [last.0] else prefix
  }

  /** The clustering type: "wp" when missing, compared in lower case. */
  function ClusterType(cp: ClusteringParams): string {
    Lower(cp.clusteringType.GetOr("wp"))
  }

  /** The two modes the constructor tells apart: "wp" when the type is missing
      or spells "wp" in any case, "all" when it spells "all" in any case. */
  lemma ClusterTypeModes(cp: ClusteringParams)
    ensures ClusterType(cp) == "wp" <==> cp.clusteringType.None? || SpelledAs(cp.clusteringType.value, "wp")
    ensures ClusterType(cp) == "all" <==> cp.clusteringType.Some? && SpelledAs(cp.clusteringType.value, "all")
  {
  }

  function Min(a: nat, b: nat): nat {
    if a <= b then a else b
  }

  /** `m[:n, :n]` with NumPy slicing: at most `n` rows, each cut to at most `n` entries. */
  function Truncate(m: Matrix, n: nat): (r: Matrix)
    ensures |r| == Min(n, |m|)
    ensures forall i | 0 <= i < |r| :: r[i] == m[i][..Min(n, |m[i]|)]
  {
    seq(Min(n, |m|), i requires 0 <= i < Min(n, |m|) => m[i][..Min(n, |m[i]|)])
  }

  predicate IsSquare(m: Matrix, n: nat) {
    |m| == n && forall i | 0 <= i < |m| :: |m[i]| == n
  }

  /** A covariance that is at least n×n keeps exactly its leading n×n block. */
  lemma TruncateLeadingBlock(m: Matrix, n: nat)
    requires |m| >= n && forall i | 0 <= i < |m| :: |m[i]| >= n
    ensures IsSquare(Truncate(m, n), n)
    ensures forall i, j | 0 <= i < n && 0 <= j < n :: Truncate(m, n)[i][j] == m[i][j]
  {
  }

  /** `np.ravel(xi02, order='F')`: all of column 1, then all of column 3. */
  function FlattenColumnMajor(rows: seq<Xi02Row>): (v: Vector)
    ensures |v| == 2 * |rows|
    ensures forall i | 0 <= i < |rows| :: v[i] == rows[i].col1 && v[|rows| + i] == rows[i].col3
  {
    seq(|rows|, i requires 0 <= i < |rows| => rows[i].col1)
      + seq(|rows|, i requires 0 <= i < |rows| => rows[i].col3)
  }

  /** The covariance stored for a key: truncated to the wp length in "wp" mode. */
  function CovFor(ctype: string, paths: ComboPaths, loader: Loader): Matrix {
    var full := loader.covMatrix(paths.path2cov);
    if ctype == "wp" then Truncate(full, |loader.wpColumn(paths.path2wp)|) else full
  }

  /** The observed clustering vector stored for a key. */
  function ObservedFor(ctype: string, paths: ComboPaths, loader: Loader): Vector {
    var wp := loader.wpColumn(paths.path2wp);
    if ctype == "wp" then wp
    else if ctype == "all" then wp + FlattenColumnMajor(loader.xi02Columns(paths.path2xi02))
    else wp
  }

  /** In "wp" mode the observed vector is wp, and the covariance has the same
      dimension as wp whenever the file holds at least that many bins. */
  lemma WpModeShapes(paths: ComboPaths, loader: Loader)
    requires var n := |loader.wpColumn(paths.path2wp)|;
      var full := loader.covMatrix(paths.path2cov);
      |full| >= n && forall i | 0 <= i < |full| :: |full[i]| >= n
    ensures ObservedFor("wp", paths, loader) == loader.wpColumn(paths.path2wp)
    ensures IsSquare(CovFor("wp", paths, loader), |ObservedFor("wp", paths, loader)|)
  {
    TruncateLeadingBlock(loader.covMatrix(paths.path2cov), |loader.wpColumn(paths.path2wp)|);
  }

  /** In "all" mode the observed vector is wp followed by the two xi02
      columns, and nothing is truncated. */
  lemma AllModeLayout(paths: ComboPaths, loader: Loader)
    ensures var wp := loader.wpColumn(paths.path2wp);
      var xi := loader.xi02Columns(paths.path2xi02);
      var v := ObservedFor("all", paths, loader);
      && |v| == |wp| + 2 * |xi|
      && v[..|wp|] == wp
      && (forall i | 0 <= i < |xi| :: v[|wp| + i] == xi[i].col1 && v[|wp| + |xi| + i] == xi[i].col3)
    ensures CovFor("all", paths, loader) == loader.covMatrix(paths.path2cov)
  {
  }

  /** The active tracers that have an entry in `tracer_combos`, in order. */
  function Included(ts: seq<string>, combos: map<string, ComboPaths>): (r: seq<string>)
    ensures forall t :: t in r <==> t in ts && CompositeKey(t) in combos
    ensures Distinct(ts) ==> Distinct(r)
  {
    if ts == [] then []
    else
      var prefix := Included(ts[..|ts| - 1], combos);
      var last := ts[|ts| - 1];
      assert forall i | 0 <= i < |ts| - 1 :: ts[..|ts| - 1][i] == ts[i];
      if CompositeKey(last) in combos then prefix + [last] else prefix
  }

  /** The tracers of `ts` that have an entry in `m`, in order. */
  function Present(ts: seq<string>, m: map<string, real>): (r: seq<string>)
    ensures forall t :: t in r <==> t in ts && t in m
    ensures Distinct(ts) ==> Distinct(r)
  {
    if ts == [] then []
    else
      var prefix := Present(ts[..|ts| - 1], m);
      var last := ts[|ts| - 1];
      assert forall i | 0 <= i < |ts| - 1 :: ts[..|ts| - 1][i] == ts[i];
      if last in m then prefix + [last] else prefix
  }

  function KeysOf(ts: seq<string>): (ks: seq<string>)
    ensures |ks| == |ts| && forall i | 0 <= i < |ts| :: ks[i] == CompositeKey(ts[i])
  {
    seq(|ts|, i requires 0 <= i < |ts| => CompositeKey(ts[i]))
  }

  lemma KeysOfDistinct(ts: seq<string>)
    requires Distinct(ts)
    ensures Distinct(KeysOf(ts))
  {
    forall i, j | 0 <= i < j < |ts|
      ensures KeysOf(ts)[i] != KeysOf(ts)[j]
    {
      if KeysOf(ts)[i] == KeysOf(ts)[j] {
        CompositeKeyInjective(ts[i], ts[j]);
      }
    }
  }

  // ---------------------------------------------------------------------
  // The log-likelihood, as a function of the stored state and the theory.

  function Dot(a: Vector, b: Vector): real
    requires |a| == |b|
  {
    if a == [] then 0.0 else a[0] * b[0] + Dot(a[1..], b[1..])
  }

  /** `m.dot(v)` for a matrix whose rows have the length of `v`. */
  function MatVec(m: Matrix, v: Vector): (w: Vector)
    requires forall i | 0 <= i < |m| :: |m[i]| == |v|
    ensures |w| == |m| && forall i | 0 <= i < |m| :: w[i] == Dot(m[i], v)
  {
    seq(|m|, i requires 0 <= i < |m| => Dot(m[i], v))
  }

  /** `observed - theory` with NumPy broadcasting of a length-1 operand;
      None when the shapes cannot be broadcast. */
  function Difference(o: Vector, t: Vector): (d: Option<Vector>)
    ensures |o| == |t| ==> d == Some(seq(|o|, i requires 0 <= i < |o| => o[i] - t[i]))
    ensures d.None? <==> |o| != |t| && |t| != 1 && |o| != 1
  {
    if |o| == |t| then Some(seq(|o|, i requires 0 <= i < |o| => o[i] - t[i]))
    else if |t| == 1 then Some(seq(|o|, i requires 0 <= i < |o| => o[i] - t[0]))
    else if |o| == 1 then Some(seq(|t|, j requires 0 <= j < |t| => o[0] - t[j]))
    else None
  }

  /** `-0.5 * diff.dot(invcov.dot(diff))` for one matched key. */
  function ClusterTerm(key: string, observed: Vector, theory: Vector, invcov: Matrix): Result<real, LikelihoodError> {
    match Difference(observed, theory)
    case None => Failure(ShapeMismatch(key))
    case Some(d) =>
      if IsSquare(invcov, |d|) then Success(-0.5 * Dot(d, MatVec(invcov, d)))
      else Failure(ShapeMismatch(key))
  }

  /** The clustering loop over `keys` in order: keys without theory are
      skipped, and the first failing term stops the sum. */
  function ClusterSum(keys: seq<string>, clustering: map<string, Vector>, invcov: map<string, Matrix>,
                      theory: map<string, Vector>): Result<real, LikelihoodError>
    requires forall k | k in keys :: k in clustering && k in invcov
  {
    if keys == [] then Success(0.0)
    else
      var k := keys[|keys| - 1];
      match ClusterSum(keys[..|keys| - 1], clustering, invcov, theory)
      case Failure(e) => Failure(e)
      case Success(acc) =>
        if k !in theory then Success(acc)
        else
          match ClusterTerm(k, clustering[k], theory[k], invcov[k])
          case Failure(e) => Failure(e)
          case Success(x) => Success(acc + x)
  }

  /** `-0.5 * (diff**2 / std**2)` for one tracer that has a theory density,
      written as the square of `diff / std` (the same real number). */
  function DensityTerm(t: string, mean: real, theory: real, stds: map<string, real>): Result<real, LikelihoodError> {
    if t !in stds then Failure(MissingStd(t))
    else if stds[t] == 0.0 then Failure(ZeroStd(t))
    else Success(-0.5 * (((mean - theory) / stds[t]) * ((mean - theory) / stds[t])))
  }

  /** The density loop over `tracers` in order. */
  function DensitySum(tracers: seq<string>, means: map<string, real>, stds: map<string, real>,
                      theory: map<string, real>): Result<real, LikelihoodError>
    requires forall t | t in tracers :: t in means
  {
    if tracers == [] then Success(0.0)
    else
      var t := tracers[|tracers| - 1];
      match DensitySum(tracers[..|tracers| - 1], means, stds, theory)
      case Failure(e) => Failure(e)
      case Success(acc) =>
        if t !in theory then Success(acc)
        else
          match DensityTerm(t, means[t], theory[t], stds)
          case Failure(e) => Failure(e)
          case Success(x) => Success(acc + x)
  }

  /** `compute_loglike`: the clustering part, then the density part. */
  function LogLike(keys: seq<string>, clustering: map<string, Vector>, invcov: map<string, Matrix>,
                   tracers: seq<string>, means: map<string, real>, stds: map<string, real>,
                   theoryClustering: map<string, Vector>, theoryDensity: map<string, real>): Result<real, LikelihoodError>
    requires forall k | k in keys :: k in clustering && k in invcov
    requires forall t | t in tracers :: t in means
  {
    match ClusterSum(keys, clustering, invcov, theoryClustering)
    case Failure(e) => Failure(e)
    case Success(c) =>
      match DensitySum(tracers, means, stds, theoryDensity)
      case Failure(e) => Failure(e)
      case Success(d) => Success(c + d)
  }

  /** `LogLike` in terms of its two sums. */
  lemma LogLikeOfParts(keys: seq<string>, clustering: map<string, Vector>, invcov: map<string, Matrix>,
                       tracers: seq<string>, means: map<string, real>, stds: map<string, real>,
                       theoryClustering: map<string, Vector>, theoryDensity: map<string, real>)
    requires forall k | k in keys :: k in clustering && k in invcov
    requires forall t | t in tracers :: t in means
    ensures var c := ClusterSum(keys, clustering, invcov, theoryClustering);
      var d := DensitySum(tracers, means, stds, theoryDensity);
      LogLike(keys, clustering, invcov, tracers, means, stds, theoryClustering, theoryDensity)
        == if c.Failure? then Failure(c.error) else if d.Failure? then Failure(d.error) else Success(c.value + d.value)
  {
  }

  /** Once a prefix of the keys fails, the whole sum fails with the same error. */
  lemma {:induction false} ClusterSumStopsAtFailure(keys: seq<string>, i: nat, clustering: map<string, Vector>,
                                                    invcov: map<string, Matrix>, theory: map<string, Vector>)
    requires i <= |keys|
    requires forall k | k in keys :: k in clustering && k in invcov
    requires ClusterSum(keys[..i], clustering, invcov, theory).Failure?
    ensures ClusterSum(keys, clustering, invcov, theory) == ClusterSum(keys[..i], clustering, invcov, theory)
    decreases |keys| - i
  {
    if i < |keys| {
      var next := keys[..i + 1];
      assert next[..i] == keys[..i];
      ClusterSumStopsAtFailure(keys, i + 1, clustering, invcov, theory);
    } else {
      assert keys[..i] == keys;
    }
  }

  lemma {:induction false} DensitySumStopsAtFailure(tracers: seq<string>, i: nat, means: map<string, real>,
                                                    stds: map<string, real>, theory: map<string, real>)
    requires i <= |tracers|
    requires forall t | t in tracers :: t in means
    requires DensitySum(tracers[..i], means, stds, theory).Failure?
    ensures DensitySum(tracers, means, stds, theory) == DensitySum(tracers[..i], means, stds, theory)
    decreases |tracers| - i
  {
    if i < |tracers| {
      var next := tracers[..i + 1];
      assert next[..i] == tracers[..i];
      DensitySumStopsAtFailure(tracers, i + 1, means, stds, theory);
    } else {
      assert tracers[..i] == tracers;
    }
  }

  /** The keys that have a theory vector, in order. */
  function Matched<V>(keys: seq<string>, theory: map<string, V>): (r: seq<string>)
    ensures forall k :: k in r <==> k in keys && k in theory
  {
    if keys == [] then []
    else if keys[|keys| - 1] in theory then Matched(keys[..|keys| - 1], theory) + [keys[|keys| - 1]]
    else Matched(keys[..|keys| - 1], theory)
  }

  /** A key without a theory vector leaves the clustering sum as it was. */
  lemma ClusterSumSkip(keys: seq<string>, k: string, clustering: map<string, Vector>,
                       invcov: map<string, Matrix>, theory: map<string, Vector>)
    requires forall j | j in keys + [k] :: j in clustering && j in invcov
    requires k !in theory
    ensures ClusterSum(keys + [k], clustering, invcov, theory) == ClusterSum(keys, clustering, invcov, theory)
  {
    assert (keys + [k])[..|keys|] == keys;
  }

  /** Two key lists with the same sum keep the same sum when one key is added to both. */
  lemma ClusterSumExtend(keys1: seq<string>, keys2: seq<string>, k: string, clustering: map<string, Vector>,
                         invcov: map<string, Matrix>, theory: map<string, Vector>)
    requires forall j | j in keys1 + [k] :: j in clustering && j in invcov
    requires forall j | j in keys2 + [k] :: j in clustering && j in invcov
    requires ClusterSum(keys1, clustering, invcov, theory) == ClusterSum(keys2, clustering, invcov, theory)
    ensures ClusterSum(keys1 + [k], clustering, invcov, theory) == ClusterSum(keys2 + [k], clustering, invcov, theory)
  {
    ClusterSumLast(keys1, k, clustering, invcov, theory);
    ClusterSumLast(keys2, k, clustering, invcov, theory);
  }

  /** One more key: the sum so far, then that key's term. */
  lemma ClusterSumLast(keys: seq<string>, k: string, clustering: map<string, Vector>,
                       invcov: map<string, Matrix>, theory: map<string, Vector>)
    requires forall j | j in keys :: j in clustering && j in invcov
    requires k in clustering && k in invcov
    ensures ClusterSum(keys + [k], clustering, invcov, theory)
      == match ClusterSum(keys, clustering, invcov, theory)
         case Failure(e) => Failure(e)
         case Success(acc) =>
           if k !in theory then Success(acc)
           else
             match ClusterTerm(k, clustering[k], theory[k], invcov[k])
             case Failure(e) => Failure(e)
             case Success(x) => Success(acc + x)
  {
    var ks := keys + [k];
    assert ks[..|ks| - 1] == keys;
    assert ks[|ks| - 1] == k;
  }

  /** Keys without a theory vector contribute nothing: the clustering part is
      the sum over the matched keys alone. */
  lemma {:induction false} ClusterSumOverMatched(keys: seq<string>, clustering: map<string, Vector>,
                                                 invcov: map<string, Matrix>, theory: map<string, Vector>)
    requires forall k | k in keys :: k in clustering && k in invcov
    ensures ClusterSum(keys, clustering, invcov, theory) == ClusterSum(Matched(keys, theory), clustering, invcov, theory)
  {
    if keys != [] {
      var prefix := keys[..|keys| - 1];
      var k := keys[|keys| - 1];
      assert keys == prefix + [k];
      ClusterSumOverMatched(prefix, clustering, invcov, theory);
      if k in theory {
        ClusterSumExtend(prefix, Matched(prefix, theory), k, clustering, invcov, theory);
      } else {
        ClusterSumSkip(prefix, k, clustering, invcov, theory);
      }
    }
  }

  lemma {:induction false} DotZeroLeft(a: Vector, b: Vector)
    requires |a| == |b| && forall i | 0 <= i < |a| :: a[i] == 0.0
    ensures Dot(a, b) == 0.0
  {
    if a != [] {
      DotZeroLeft(a[1..], b[1..]);
    }
  }

  /** A theory equal to the observation costs nothing: every matched key adds 0
      (when its inverse covariance has the vector's dimension). */
  lemma {:induction false} ClusterSumAtObservation(keys: seq<string>, clustering: map<string, Vector>,
                                                   invcov: map<string, Matrix>, theory: map<string, Vector>)
    requires forall k | k in keys :: k in clustering && k in invcov
    requires forall k | k in keys && k in theory :: theory[k] == clustering[k] && IsSquare(invcov[k], |clustering[k]|)
    ensures ClusterSum(keys, clustering, invcov, theory) == Success(0.0)
  {
    if keys != [] {
      var k := keys[|keys| - 1];
      ClusterSumAtObservation(keys[..|keys| - 1], clustering, invcov, theory);
      if k in theory {
        var o := clustering[k];
        var d := seq(|o|, i requires 0 <= i < |o| => o[i] - theory[k][i]);
        assert Difference(o, theory[k]) == Some(d);
        DotZeroLeft(d, MatVec(invcov[k], d));
      }
    }
  }

  lemma {:induction false} DensitySumAtObservation(tracers: seq<string>, means: map<string, real>,
                                                   stds: map<string, real>, theory: map<string, real>)
    requires forall t | t in tracers :: t in means
    requires forall t | t in tracers && t in theory :: theory[t] == means[t] && t in stds && stds[t] != 0.0
    ensures DensitySum(tracers, means, stds, theory) == Success(0.0)
  {
    if tracers != [] {
      DensitySumAtObservation(tracers[..|tracers| - 1], means, stds, theory);
    }
  }

  /** The density part fails exactly when some tracer with a theory density
      has no standard deviation, or a zero one. */
  lemma {:induction false} DensitySumFailsIff(tracers: seq<string>, means: map<string, real>,
                                              stds: map<string, real>, theory: map<string, real>)
    requires forall t | t in tracers :: t in means
    ensures DensitySum(tracers, means, stds, theory).Failure? <==>
      exists t | t in tracers :: t in theory && (t !in stds || stds[t] == 0.0)
  {
    if tracers != [] {
      var prefix := tracers[..|tracers| - 1];
      DensitySumFailsIff(prefix, means, stds, theory);
      assert forall t :: t in tracers <==> t in prefix || t == tracers[|tracers| - 1];
    }
  }

  /** An inverse covariance that is positive semidefinite: no chi-square is negative. */
  ghost predicate PositiveSemidefinite(m: Matrix) {
    && IsSquare(m, |m|)
    && forall v: Vector | |v| == |m| :: Dot(v, MatVec(m, v)) >= 0.0
  }

  /** With positive semidefinite inverse covariances, the clustering part is never positive. */
  lemma {:induction false} ClusterSumNonPositive(keys: seq<string>, clustering: map<string, Vector>,
                                                 invcov: map<string, Matrix>, theory: map<string, Vector>)
    requires forall k | k in keys :: k in clustering && k in invcov
    requires forall k | k in keys :: PositiveSemidefinite(invcov[k])
    requires ClusterSum(keys, clustering, invcov, theory).Success?
    ensures ClusterSum(keys, clustering, invcov, theory).value <= 0.0
  {
    if keys != [] {
      ClusterSumNonPositive(keys[..|keys| - 1], clustering, invcov, theory);
    }
  }

  lemma SquaredRatioNonNegative(d: real, s: real)
    requires s != 0.0
    ensures (d / s) * (d / s) >= 0.0
  {
  }

  /** Density terms are never positive, so with positive semidefinite inverse
      covariances the whole log-likelihood is at most 0. */
  lemma {:induction false} DensitySumNonPositive(tracers: seq<string>, means: map<string, real>,
                                                 stds: map<string, real>, theory: map<string, real>)
    requires forall t | t in tracers :: t in means
    requires DensitySum(tracers, means, stds, theory).Success?
    ensures DensitySum(tracers, means, stds, theory).value <= 0.0
  {
    if tracers != [] {
      var t := tracers[|tracers| - 1];
      DensitySumNonPositive(tracers[..|tracers| - 1], means, stds, theory);
      if t in theory && t in stds && stds[t] != 0.0 {
        var diff := means[t] - theory[t];
        SquaredRatioNonNegative(diff, stds[t]);
      }
    }
  }

  /** The whole log-likelihood is at most 0 when every inverse covariance is
      positive semidefinite. */
  lemma LogLikeNonPositive(keys: seq<string>, clustering: map<string, Vector>, invcov: map<string, Matrix>,
                           tracers: seq<string>, means: map<string, real>, stds: map<string, real>,
                           theoryClustering: map<string, Vector>, theoryDensity: map<string, real>)
    requires forall k | k in keys :: k in clustering && k in invcov
    requires forall t | t in tracers :: t in means
    requires forall k | k in keys :: PositiveSemidefinite(invcov[k])
    requires LogLike(keys, clustering, invcov, tracers, means, stds, theoryClustering, theoryDensity).Success?
    ensures LogLike(keys, clustering, invcov, tracers, means, stds, theoryClustering, theoryDensity).value <= 0.0
  {
    ClusterSumNonPositive(keys, clustering, invcov, theoryClustering);
    DensitySumNonPositive(tracers, means, stds, theoryDensity);
  }

  /** A theory equal to the observations, with well-shaped inverse covariances
      and usable standard deviations, has log-likelihood exactly 0. */
  lemma LogLikeAtObservation(keys: seq<string>, clustering: map<string, Vector>, invcov: map<string, Matrix>,
                             tracers: seq<string>, means: map<string, real>, stds: map<string, real>,
                             theoryClustering: map<string, Vector>, theoryDensity: map<string, real>)
    requires forall k | k in keys :: k in clustering && k in invcov
    requires forall t | t in tracers :: t in means
    requires forall k | k in keys && k in theoryClustering ::
      theoryClustering[k] == clustering[k] && IsSquare(invcov[k], |clustering[k]|)
    requires forall t | t in tracers && t in theoryDensity ::
      theoryDensity[t] == means[t] && t in stds && stds[t] != 0.0
    ensures LogLike(keys, clustering, invcov, tracers, means, stds, theoryClustering, theoryDensity) == Success(0.0)
  {
    ClusterSumAtObservation(keys, clustering, invcov, theoryClustering);
    DensitySumAtObservation(tracers, means, stds, theoryDensity);
  }

  /** The two-bin example: observed [1, 2], identity inverse covariance. */
  lemma TwoBinExample()
    ensures ClusterTerm("QSO_QSO", [1.0, 2.0], [1.0, 2.0], [[1.0, 0.0], [0.0, 1.0]]) == Success(0.0)
    ensures ClusterTerm("QSO_QSO", [1.0, 2.0], [0.0, 0.0], [[1.0, 0.0], [0.0, 1.0]]) == Success(-2.5)
    ensures ClusterTerm("QSO_QSO", [1.0, 2.0], [1.0, 2.0, 3.0], [[1.0, 0.0], [0.0, 1.0]]) == Failure(ShapeMismatch("QSO_QSO"))
  {
    var id := [[1.0, 0.0], [0.0, 1.0]];
    var d := Difference([1.0, 2.0], [1.0, 2.0]).value;
    assert d[0] == 0.0 && d[1] == 0.0;
    assert d == [0.0, 0.0];
    var w := MatVec(id, d);
    assert w[0] == Dot(id[0], d) == 0.0;
    assert w[1] == Dot(id[1], d) == 0.0;
    var e := Difference([1.0, 2.0], [0.0, 0.0]).value;
    assert e[0] == 1.0 && e[1] == 2.0;
    assert e == [1.0, 2.0];
    var v := MatVec(id, e);
    assert v[0] == Dot(id[0], e) == 1.0;
    assert v[1] == Dot(id[1], e) == 2.0;
    assert v == [1.0, 2.0];
    assert Dot(e, v) == 5.0;
  }

  // ---------------------------------------------------------------------
  // Building the tables.

  /** The clustering dictionaries `data_object.__init__` fills, with the
      insertion order of `clustering` that compute_loglike iterates. */
  datatype ClusteringTables = ClusteringTables(
    keys: seq<string>,
    wp: map<string, Vector>,
    xi02: map<string, seq<Xi02Row>>,
    cov: map<string, Matrix>,
    invcov: map<string, Matrix>,
    clustering: map<string, Vector>)

  /** The density dictionaries, with the insertion order of `density_mean`. */
  datatype DensityTables = DensityTables(
    tracers: seq<string>,
    densityMean: map<string, real>,
    densityStd: map<string, real>)

  /** The order lists each clustering key exactly once, and `invcov` has the same keys. */
  ghost predicate ClusteringValid(ct: ClusteringTables) {
    && Distinct(ct.keys)
    && (forall k :: k in ct.clustering <==> k in ct.keys)
    && ct.invcov.Keys == ct.clustering.Keys
  }

  /** The order lists each tracer of `density_mean` exactly once. */
  ghost predicate DensityValid(dt: DensityTables) {
    Distinct(dt.tracers) && (forall t :: t in dt.densityMean <==> t in dt.tracers)
  }

  /** The clustering dictionaries share their keys; `xi02` is filled only in "all" mode. */
  ghost predicate KeySetsAgree(ct: ClusteringTables, ctype: string) {
    && ct.wp.Keys == ct.cov.Keys == ct.invcov.Keys == ct.clustering.Keys
    && ct.xi02.Keys == (if ctype == "all" then ct.clustering.Keys else {})
  }

  /** Each entry is the one built from the files its key's data paths name. */
  ghost predicate EntriesFromFiles(ct: ClusteringTables, combos: map<string, ComboPaths>, ctype: string, loader: Loader) {
    && (forall k | k in ct.clustering ::
          && k in combos
          && k in ct.wp && ct.wp[k] == loader.wpColumn(combos[k].path2wp)
          && k in ct.cov && ct.cov[k] == CovFor(ctype, combos[k], loader)
          && k in ct.invcov && ct.invcov[k] == loader.inverse(ct.cov[k])
          && ct.clustering[k] == ObservedFor(ctype, combos[k], loader))
    && (forall k | k in ct.xi02 :: k in combos && ct.xi02[k] == loader.xi02Columns(combos[k].path2xi02))
  }

  /** The clustering tables after the included tracers `inc`: one entry per
      composite key, built from the files its data paths name. */
  ghost predicate ClusteringBuilt(ct: ClusteringTables, inc: seq<string>, combos: map<string, ComboPaths>,
                                  ctype: string, loader: Loader) {
    && ct.keys == KeysOf(inc)
    && KeySetsAgree(ct, ctype)
    && EntriesFromFiles(ct, combos, ctype, loader)
  }

  /** The density tables after the included tracers `inc`. */
  ghost predicate DensityBuilt(dt: DensityTables, inc: seq<string>, dp: DataParams) {
    && dt.tracers == Present(inc, dp.densityMean)
    && (forall t | t in dt.densityMean :: t in dp.densityMean && dt.densityMean[t] == dp.densityMean[t])
    && (forall t :: t in dt.densityStd <==> t in inc && t in dp.densityStd)
    && (forall t | t in dt.densityStd :: dt.densityStd[t] == dp.densityStd[t])
  }

  /** The clustering part of one pass of the loop, for a tracer whose
      composite key has data paths. */
  function ClusteringStep(ct: ClusteringTables, t: string, combos: map<string, ComboPaths>,
                          ctype: string, loader: Loader): ClusteringTables
    requires CompositeKey(t) in combos
  {
    var key := CompositeKey(t);
    var paths := combos[key];
    ClusteringTables(
      ct.keys + [key],
      ct.wp[key := loader.wpColumn(paths.path2wp)],
      if ctype == "all" then ct.xi02[key := loader.xi02Columns(paths.path2xi02)] else ct.xi02,
      ct.cov[key := CovFor(ctype, paths, loader)],
      ct.invcov[key := loader.inverse(CovFor(ctype, paths, loader))],
      ct.clustering[key := ObservedFor(ctype, paths, loader)])
  }

  /** The density part of one pass of the loop. */
  function DensityStep(dt: DensityTables, t: string, dp: DataParams): DensityTables {
    DensityTables(
      if t in dp.densityMean then dt.tracers + [t] else dt.tracers,
      if t in dp.densityMean then dt.densityMean[t := dp.densityMean[t]] else dt.densityMean,
      if t in dp.densityStd then dt.densityStd[t := dp.densityStd[t]] else dt.densityStd)
  }

  /** The key order grows by the new composite key and stays free of repeats. */
  lemma KeysExtend(ct: ClusteringTables, inc: seq<string>, t: string, combos: map<string, ComboPaths>,
                   ctype: string, loader: Loader)
    requires ClusteringValid(ct) && ct.keys == KeysOf(inc)
    requires Distinct(inc) && t !in inc && CompositeKey(t) in combos
    ensures ClusteringValid(ClusteringStep(ct, t, combos, ctype, loader))
    ensures ClusteringStep(ct, t, combos, ctype, loader).keys == KeysOf(inc + [t])
  {
    var key := CompositeKey(t);
    assert KeysOf(inc + [t]) == KeysOf(inc) + [key];
    forall j | 0 <= j < |inc|
      ensures KeysOf(inc)[j] != key
    {
      if KeysOf(inc)[j] == key {
        CompositeKeyInjective(inc[j], t);
      }
    }
  }

  lemma KeySetsExtend(ct: ClusteringTables, t: string, combos: map<string, ComboPaths>, ctype: string, loader: Loader)
    requires KeySetsAgree(ct, ctype) && CompositeKey(t) in combos
    ensures KeySetsAgree(ClusteringStep(ct, t, combos, ctype, loader), ctype)
  {
    var key := CompositeKey(t);
    var paths := combos[key];
    var cov := CovFor(ctype, paths, loader);
    SameKeysAfterUpdate(ct.wp, ct.cov, key, loader.wpColumn(paths.path2wp), cov);
    SameKeysAfterUpdate(ct.cov, ct.invcov, key, cov, loader.inverse(cov));
    SameKeysAfterUpdate(ct.invcov, ct.clustering, key, loader.inverse(cov), ObservedFor(ctype, paths, loader));
    if ctype == "all" {
      SameKeysAfterUpdate(ct.xi02, ct.clustering, key, loader.xi02Columns(paths.path2xi02), ObservedFor(ctype, paths, loader));
    }
  }

  lemma SameKeysAfterUpdate<U, V>(a: map<string, U>, b: map<string, V>, k: string, u: U, v: V)
    requires a.Keys == b.Keys
    ensures a[k := u].Keys == b[k := v].Keys
  {
  }

  /** Every clustering entry, old or new, is the one built from its data paths. */
  lemma EntriesExtend(ct: ClusteringTables, t: string, combos: map<string, ComboPaths>, ctype: string, loader: Loader)
    requires EntriesFromFiles(ct, combos, ctype, loader) && CompositeKey(t) in combos
    ensures EntriesFromFiles(ClusteringStep(ct, t, combos, ctype, loader), combos, ctype, loader)
  {
    var key := CompositeKey(t);
    var ct' := ClusteringStep(ct, t, combos, ctype, loader);
    forall k | k in ct'.clustering
      ensures && k in combos
              && k in ct'.wp && ct'.wp[k] == loader.wpColumn(combos[k].path2wp)
              && k in ct'.cov && ct'.cov[k] == CovFor(ctype, combos[k], loader)
              && k in ct'.invcov && ct'.invcov[k] == loader.inverse(ct'.cov[k])
              && ct'.clustering[k] == ObservedFor(ctype, combos[k], loader)
    {
      if k != key {
        assert k in ct.clustering;
      }
    }
  }

  /** The density tables follow the included tracers, in order. */
  lemma DensityExtend(dt: DensityTables, inc: seq<string>, t: string, dp: DataParams)
    requires DensityValid(dt) && DensityBuilt(dt, inc, dp)
    requires Distinct(inc) && t !in inc
    ensures DensityValid(DensityStep(dt, t, dp))
    ensures DensityBuilt(DensityStep(dt, t, dp), inc + [t], dp)
  {
    var next := inc + [t];
    assert next[..|next| - 1] == inc;
  }

  /** The tables hold exactly what the loop builds from the tracers `inc`. */
  ghost predicate TablesAfter(ct: ClusteringTables, dt: DensityTables, inc: seq<string>, dp: DataParams,
                              ctype: string, loader: Loader) {
    && ClusteringValid(ct) && ClusteringBuilt(ct, inc, dp.tracerCombos, ctype, loader)
    && DensityValid(dt) && DensityBuilt(dt, inc, dp)
  }

  /** One pass of the loop: the tables grow by tracer `active[i]` when its
      composite key has data paths and stay as they are otherwise. */
  method BuildStep(active: seq<string>, i: nat, ct: ClusteringTables, dt: DensityTables, dp: DataParams,
                   ctype: string, loader: Loader)
    returns (ct': ClusteringTables, dt': DensityTables)
    requires i < |active| && Distinct(active)
    requires TablesAfter(ct, dt, Included(active[..i], dp.tracerCombos), dp, ctype, loader)
    ensures TablesAfter(ct', dt', Included(active[..i + 1], dp.tracerCombos), dp, ctype, loader)
  {
    var t := active[i];
    var combos := dp.tracerCombos;
    ghost var inc := Included(active[..i], combos);
    assert active[..i + 1][..i] == active[..i];
    assert Distinct(active[..i]);
    if CompositeKey(t) in combos {
      assert Included(active[..i + 1], combos) == inc + [t];
      KeysExtend(ct, inc, t, combos, ctype, loader);
      KeySetsExtend(ct, t, combos, ctype, loader);
      EntriesExtend(ct, t, combos, ctype, loader);
      DensityExtend(dt, inc, t, dp);
      ct' := ClusteringStep(ct, t, combos, ctype, loader);
      dt' := DensityStep(dt, t, dp);
    } else {
      assert Included(active[..i + 1], combos) == inc;
      ct', dt' := ct, dt;
    }
  }

  /** The loop of `data_object.__init__` over the active tracers: a tracer
      whose composite key has no data paths is skipped. */
  method BuildTables(flags: seq<(string, bool)>, dp: DataParams, ctype: string, loader: Loader)
    returns (ct: ClusteringTables, dt: DensityTables)
    requires DistinctNames(flags)
    ensures ClusteringValid(ct) && DensityValid(dt)
    ensures var inc := Included(ActiveTracers(flags), dp.tracerCombos);
      ClusteringBuilt(ct, inc, dp.tracerCombos, ctype, loader) && DensityBuilt(dt, inc, dp)
  {
    var active := ActiveTracers(flags);
    ct := ClusteringTables([], map[], map[], map[], map[], map[]);
    dt := DensityTables([], map[], map[]);
    var i := 0;
    while i < |active|
      invariant 0 <= i <= |active|
      invariant TablesAfter(ct, dt, Included(active[..i], dp.tracerCombos), dp, ctype, loader)
    {
      ct, dt := BuildStep(active, i, ct, dt, dp, ctype, loader);
      i := i + 1;
    }
    assert active[..i] == active;
  }

  /** End to end in "wp" mode: when every covariance file holds at least as
      many bins as its wp file and inversion keeps a square matrix square,
      evaluating the stored tables at their own observations (with usable
      standard deviations) gives log-likelihood 0. */
  lemma WpModeLogLikeAtObservation(ct: ClusteringTables, dt: DensityTables, inc: seq<string>,
                                   dp: DataParams, loader: Loader)
    requires ClusteringValid(ct) && DensityValid(dt)
    requires ClusteringBuilt(ct, inc, dp.tracerCombos, "wp", loader) && DensityBuilt(dt, inc, dp)
    requires forall m: Matrix | IsSquare(m, |m|) :: IsSquare(loader.inverse(m), |m|)
    requires forall k | k in dp.tracerCombos ::
      var n := |loader.wpColumn(dp.tracerCombos[k].path2wp)|;
      var full := loader.covMatrix(dp.tracerCombos[k].path2cov);
      |full| >= n && forall i | 0 <= i < |full| :: |full[i]| >= n
    requires forall t | t in dt.tracers :: t in dt.densityStd && dt.densityStd[t] != 0.0
    ensures LogLike(ct.keys, ct.clustering, ct.invcov, dt.tracers, dt.densityMean, dt.densityStd,
                    ct.clustering, dt.densityMean) == Success(0.0)
  {
    WpModeSquare(ct, dp.tracerCombos, loader);
    LogLikeAtObservation(ct.keys, ct.clustering, ct.invcov, dt.tracers, dt.densityMean, dt.densityStd,
                         ct.clustering, dt.densityMean);
  }

  /** In "wp" mode every stored inverse covariance is square of the size of
      its clustering vector, under the same assumptions on the files. */
  lemma WpModeSquare(ct: ClusteringTables, combos: map<string, ComboPaths>, loader: Loader)
    requires ClusteringValid(ct) && EntriesFromFiles(ct, combos, "wp", loader)
    requires forall m: Matrix | IsSquare(m, |m|) :: IsSquare(loader.inverse(m), |m|)
    requires forall k | k in combos ::
      var n := |loader.wpColumn(combos[k].path2wp)|;
      var full := loader.covMatrix(combos[k].path2cov);
      |full| >= n && forall i | 0 <= i < |full| :: |full[i]| >= n
    ensures forall k | k in ct.keys :: k in ct.clustering && k in ct.invcov
    ensures forall k | k in ct.keys :: IsSquare(ct.invcov[k], |ct.clustering[k]|)
  {
    forall k | k in ct.keys
      ensures k in ct.clustering && k in ct.invcov && IsSquare(ct.invcov[k], |ct.clustering[k]|)
    {
      assert k in ct.clustering;
      WpModeShapes(combos[k], loader);
    }
  }

  // ---------------------------------------------------------------------
  // The object.

  class DataObject {
    var wp: map<string, Vector>
    var xi02: map<string, seq<Xi02Row>>
    var cov: map<string, Matrix>
    var invcov: map<string, Matrix>
    var densityMean: map<string, real>
    var densityStd: map<string, real>
    var clustering: map<string, Vector>
    // Insertion orders of `clustering` and `density_mean`: compute_loglike
    // iterates these dictionaries in this order.
    var clusteringKeys: seq<string>
    var densityTracers: seq<string>

    ghost function ClusteringSnapshot(): ClusteringTables
      reads this
    {
      ClusteringTables(clusteringKeys, wp, xi02, cov, invcov, clustering)
    }

    ghost function DensitySnapshot(): DensityTables
      reads this
    {
      DensityTables(densityTracers, densityMean, densityStd)
    }

    ghost predicate Valid()
      reads this
    {
      ClusteringValid(ClusteringSnapshot()) && DensityValid(DensitySnapshot())
    }

    /** `data_object(data_params, hod_params, clustering_params)`. */
    constructor (dp: DataParams, hp: HodParams, cp: ClusteringParams, loader: Loader)
      requires DistinctNames(hp.tracerFlags)
      ensures Valid()
      ensures var inc := Included(ActiveTracers(hp.tracerFlags), dp.tracerCombos);
        && ClusteringBuilt(ClusteringSnapshot(), inc, dp.tracerCombos, ClusterType(cp), loader)
        && DensityBuilt(DensitySnapshot(), inc, dp)
    {
      var ct, dt := BuildTables(hp.tracerFlags, dp, ClusterType(cp), loader);
      wp, xi02, cov, invcov, clustering := ct.wp, ct.xi02, ct.cov, ct.invcov, ct.clustering;
      densityMean, densityStd := dt.densityMean, dt.densityStd;
      clusteringKeys, densityTracers := ct.keys, dt.tracers;
    }

    /** The clustering loop of `compute_loglike`. */
    method ClusteringLogLike(theoryClustering: map<string, Vector>) returns (r: Result<real, LikelihoodError>)
      requires Valid()
      ensures r == ClusterSum(clusteringKeys, clustering, invcov, theoryClustering)
    {
      var loglike := 0.0;
      var i := 0;
      while i < |clusteringKeys|
        invariant 0 <= i <= |clusteringKeys|
        invariant ClusterSum(clusteringKeys[..i], clustering, invcov, theoryClustering) == Success(loglike)
      {
        var key := clusteringKeys[i];
        assert clusteringKeys[..i + 1][..i] == clusteringKeys[..i];
        if key in theoryClustering {
          var term := ClusterTerm(key, clustering[key], theoryClustering[key], invcov[key]);
          if term.Failure? {
            ClusterSumStopsAtFailure(clusteringKeys, i + 1, clustering, invcov, theoryClustering);
            return Failure(term.error);
          }
          loglike := loglike + term.value;
        }
        i := i + 1;
      }
      assert clusteringKeys[..i] == clusteringKeys;
      r := Success(loglike);
    }

    /** The density loop of `compute_loglike`. */
    method DensityLogLike(theoryDensity: map<string, real>) returns (r: Result<real, LikelihoodError>)
      requires Valid()
      ensures r == DensitySum(densityTracers, densityMean, densityStd, theoryDensity)
    {
      var loglike := 0.0;
      var j := 0;
      while j < |densityTracers|
        invariant 0 <= j <= |densityTracers|
        invariant DensitySum(densityTracers[..j], densityMean, densityStd, theoryDensity) == Success(loglike)
      {
        var tracer := densityTracers[j];
        assert densityTracers[..j + 1][..j] == densityTracers[..j];
        if tracer in theoryDensity {
          var term := DensityTerm(tracer, densityMean[tracer], theoryDensity[tracer], densityStd);
          if term.Failure? {
            DensitySumStopsAtFailure(densityTracers, j + 1, densityMean, densityStd, theoryDensity);
            return Failure(term.error);
          }
          loglike := loglike + term.value;
        }
        j := j + 1;
      }
      assert densityTracers[..j] == densityTracers;
      r := Success(loglike);
    }

    /** `compute_loglike(theory_clustering, theory_density)`. */
    method ComputeLogLike(theoryClustering: map<string, Vector>, theoryDensity: map<string, real>)
      returns (r: Result<real, LikelihoodError>)
      requires Valid()
      ensures r == LogLike(clusteringKeys, clustering, invcov, densityTracers, densityMean, densityStd,
                           theoryClustering, theoryDensity)
    {
      var cluster := ClusteringLogLike(theoryClustering);
      if cluster.Failure? {
        r := Failure(cluster.error);
      } else {
        var density := DensityLogLike(theoryDensity);
        r := if density.Failure? then Failure(density.error) else Success(cluster.value + density.value);
      }
      LogLikeOfParts(clusteringKeys, clustering, invcov, densityTracers, densityMean, densityStd,
                     theoryClustering, theoryDensity);
    }
  }
}
