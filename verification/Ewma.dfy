/**
 The two exponentially weighted moving averages kept per feature: a fast one for current
 behaviour and a slow one for the baseline, each with an incremental variance.
 */
module Ewma {
  import opened RealArith
  import opened Vectors

  const SHORT_ALPHA: real := 0.3
  const LONG_ALPHA: real := 0.05
  const EPSILON: real := 0.000000001
  /** The variance a feature starts with. */
  const SEED: real := 0.000001

  // ---------------------------------------------------------------- one feature

  function StepMean(alpha: real, mean: real, x: real): real
  {
    mean + alpha * (x - mean)
  }

  function StepVar(alpha: real, mean: real, v: real, x: real): real
  {
    (1.0 - alpha) * (v + alpha * Sq(x - mean))
  }

  /** The mean after the samples `xs`, as the code computes it: one step per sample. */
  function MeanOf(alpha: real, xs: seq<real>): real
    requires xs != []
  {
    if |xs| == 1 then xs[0] else StepMean(alpha, MeanOf(alpha, xs[..|xs| - 1]), xs[|xs| - 1])
  }

  function VarOf(alpha: real, xs: seq<real>): real
    requires xs != []
  {
    if |xs| == 1 then SEED
    else var init := xs[..|xs| - 1]; StepVar(alpha, MeanOf(alpha, init), VarOf(alpha, init), xs[|xs| - 1])
  }

  // ---------------------------------------------------------------- closed form

  /** The weight of sample `i` among `n`: the first sample keeps what the others leave. */
  function Weight(alpha: real, n: nat, i: nat): real
    requires i < n
  {
    if i == 0 then Pow(1.0 - alpha, n - 1) else alpha * Pow(1.0 - alpha, n - 1 - i)
  }

  function Weights(alpha: real, n: nat): (w: seq<real>)
    ensures |w| == n
  {
    seq(n, i requires 0 <= i < n => Weight(alpha, n, i))
  }

  function Dot(w: seq<real>, ys: seq<real>, k: nat): real
    requires k <= |w| && k <= |ys|
  {
    if k == 0 then 0.0 else Dot(w, ys, k - 1) + w[k - 1] * ys[k - 1]
  }

  /** The weighted sum of `ys`, with explicit weights and no recursion through the estimator. */
  function Weighted(alpha: real, ys: seq<real>): real
  {
    Dot(Weights(alpha, |ys|), ys, |ys|)
  }

  function Squares(xs: seq<real>): (s: seq<real>)
    ensures |s| == |xs|
  {
    seq(|xs|, i requires 0 <= i < |xs| => Sq(xs[i]))
  }

  function Constants(c: real, n: nat): (s: seq<real>)
    ensures |s| == n && forall i :: 0 <= i < n ==> s[i] == c
  {
    seq(n, _ => c)
  }

  lemma ScaledTerm(b: real, later: real, earlier: real, w1: real, w0: real, y: real)
    requires later == b * earlier && w1 == b * w0
    ensures later + w1 * y == b * (earlier + w0 * y)
  {
    Associate(b, w0, y);
    Distribute(b, earlier, w0 * y, earlier + w0 * y);
  }

  lemma {:induction false} ScaledDot(b: real, w1: seq<real>, w0: seq<real>, zs: seq<real>, ys: seq<real>, k: nat)
    requires k <= |w1| && k <= |w0| && k <= |zs| && k <= |ys|
    requires forall i :: 0 <= i < k ==> w1[i] == b * w0[i] && zs[i] == ys[i]
    ensures Dot(w1, zs, k) == b * Dot(w0, ys, k)
  {
    if k > 0 {
      ScaledDot(b, w1, w0, zs, ys, k - 1);
      ScaledTerm(b, Dot(w1, zs, k - 1), Dot(w0, ys, k - 1), w1[k - 1], w0[k - 1], ys[k - 1]);
    }
  }

  lemma WeightDecays(b: real, alpha: real, n: nat, i: nat)
    requires i < n && b == 1.0 - alpha
    ensures Weight(alpha, n + 1, i) == b * Weight(alpha, n, i)
  {
    if i > 0 {
      var p := Pow(b, n - 1 - i);
      assert Pow(b, n - i) == b * p;
      assert alpha * (b * p) == b * (alpha * p);
    }
  }

  lemma OlderWeightsDecay(b: real, alpha: real, n: nat)
    requires b == 1.0 - alpha
    ensures forall i :: 0 <= i < n ==> Weights(alpha, n + 1)[i] == b * Weights(alpha, n)[i]
  {
    forall i | 0 <= i < n
      ensures Weights(alpha, n + 1)[i] == b * Weights(alpha, n)[i]
    {
      WeightDecays(b, alpha, n, i);
    }
  }

  lemma NewestWeight(alpha: real, n: nat)
    requires n > 0
    ensures Weights(alpha, n + 1)[n] == alpha
  {
    assert Pow(1.0 - alpha, 0) == 1.0;
  }

  lemma WeightedSnoc(alpha: real, ys: seq<real>, y: real)
    requires ys != []
    ensures Weighted(alpha, ys + [y]) == (1.0 - alpha) * Weighted(alpha, ys) + alpha * y
  {
    var zs, n := ys + [y], |ys|;
    hide Weights;
    OlderWeightsDecay(1.0 - alpha, alpha, n);
    ScaledDot(1.0 - alpha, Weights(alpha, n + 1), Weights(alpha, n), zs, ys, n);
    NewestWeight(alpha, n);
  }

  lemma SnocSplit(xs: seq<real>)
    requires |xs| > 1
    ensures xs == xs[..|xs| - 1] + [xs[|xs| - 1]]
    ensures Squares(xs) == Squares(xs[..|xs| - 1]) + [Sq(xs[|xs| - 1])]
  {
  }

  lemma StepMeanIsBlend(alpha: real, mean: real, x: real)
    ensures StepMean(alpha, mean, x) == (1.0 - alpha) * mean + alpha * x
  {
  }

  lemma WeightedOne(alpha: real, y: real)
    ensures Weighted(alpha, [y]) == y
  {
    assert Weights(alpha, 1)[0] == Pow(1.0 - alpha, 0) == 1.0;
    assert Dot(Weights(alpha, 1), [y], 0) == 0.0;
  }

  lemma MeanOfOne(alpha: real, x: real)
    ensures MeanOf(alpha, [x]) == x
    ensures VarOf(alpha, [x]) == SEED
  {
  }

  lemma StepOf(alpha: real, xs: seq<real>)
    requires |xs| > 1
    ensures MeanOf(alpha, xs) == StepMean(alpha, MeanOf(alpha, xs[..|xs| - 1]), xs[|xs| - 1])
    ensures VarOf(alpha, xs)
         == StepVar(alpha, MeanOf(alpha, xs[..|xs| - 1]), VarOf(alpha, xs[..|xs| - 1]), xs[|xs| - 1])
  {
  }

  /** The incremental mean is the weighted sum of all samples. */
  lemma {:induction false} MeanClosedForm(alpha: real, xs: seq<real>)
    requires xs != []
    ensures MeanOf(alpha, xs) == Weighted(alpha, xs)
  {
    hide *;
    if |xs| == 1 {
      assert xs == [xs[0]];
      MeanOfOne(alpha, xs[0]);
      WeightedOne(alpha, xs[0]);
    } else {
      var init, x := xs[..|xs| - 1], xs[|xs| - 1];
      MeanClosedForm(alpha, init);
      SnocSplit(xs);
      StepOf(alpha, xs);
      WeightedSnoc(alpha, init, x);
      StepMeanIsBlend(alpha, MeanOf(alpha, init), x);
    }
  }

  /** A variance of m2 - mean^2 + s keeps that form through a step, the seed s decayed. */
  lemma VarianceStep(alpha: real, mean: real, m2: real, s: real, x: real)
    ensures StepVar(alpha, mean, m2 - Sq(mean) + s, x)
         == ((1.0 - alpha) * m2 + alpha * Sq(x)) - Sq(StepMean(alpha, mean, x)) + (1.0 - alpha) * s
  {
  }

  /** The incremental variance is the weighted second moment minus the squared mean, plus the decayed seed. */
  lemma {:induction false} VarClosedForm(alpha: real, xs: seq<real>)
    requires xs != []
    ensures VarOf(alpha, xs)
         == Weighted(alpha, Squares(xs)) - Sq(MeanOf(alpha, xs)) + Pow(1.0 - alpha, |xs| - 1) * SEED
  {
    hide *;
    var b := 1.0 - alpha;
    if |xs| == 1 {
      assert xs == [xs[0]];
      MeanOfOne(alpha, xs[0]);
      SquaresOfOne(xs[0]);
      WeightedOne(alpha, Sq(xs[0]));
      PowZero(b);
    } else {
      var init, x := xs[..|xs| - 1], xs[|xs| - 1];
      VarClosedForm(alpha, init);
      SnocSplit(xs);
      StepOf(alpha, xs);
      WeightedSnoc(alpha, Squares(init), Sq(x));
      PowSucc(b, |init|);
      Associate(b, Pow(b, |init| - 1), SEED);
      var m, m2, s := MeanOf(alpha, init), Weighted(alpha, Squares(init)), Pow(b, |init| - 1) * SEED;
      VarianceStep(alpha, m, m2, s, x);
      assert VarOf(alpha, init) == m2 - Sq(m) + s;
      assert VarOf(alpha, xs) == (b * m2 + alpha * Sq(x)) - Sq(MeanOf(alpha, xs)) + b * s;
      assert b * s == Pow(b, |init|) * SEED;
      assert Weighted(alpha, Squares(xs)) == b * m2 + alpha * Sq(x);
    }
  }

  lemma SquaresOfOne(x: real)
    ensures Squares([x]) == [Sq(x)]
  {
  }

  lemma {:induction false} WeightsSumToOne(alpha: real, n: nat)
    requires n > 0
    ensures Weighted(alpha, Constants(1.0, n)) == 1.0
  {
    if n == 1 {
      assert Constants(1.0, 1) == [1.0];
      WeightedOne(alpha, 1.0);
    } else {
      WeightsSumToOne(alpha, n - 1);
      assert Constants(1.0, n) == Constants(1.0, n - 1) + [1.0];
      WeightedSnoc(alpha, Constants(1.0, n - 1), 1.0);
    }
  }

  // ---------------------------------------------------------------- consequences

  lemma BlendInHull(alpha: real, lo: real, hi: real, mean: real, x: real)
    requires 0.0 <= alpha <= 1.0 && lo <= mean <= hi && lo <= x <= hi
    ensures lo <= StepMean(alpha, mean, x) <= hi
  {
    BlendAbove(alpha, lo, mean, x);
    BlendAbove(alpha, -hi, -mean, -x);
    assert StepMean(alpha, -mean, -x) == -StepMean(alpha, mean, x);
  }

  lemma BlendAbove(alpha: real, lo: real, mean: real, x: real)
    requires 0.0 <= alpha <= 1.0 && lo <= mean && lo <= x
    ensures lo <= StepMean(alpha, mean, x)
  {
    assert (1.0 - alpha) * (mean - lo) >= 0.0;
    assert alpha * (x - lo) >= 0.0;
    assert StepMean(alpha, mean, x) - lo == (1.0 - alpha) * (mean - lo) + alpha * (x - lo);
  }

  /** The mean never leaves the range of the samples. */
  lemma {:induction false} MeanInHull(alpha: real, xs: seq<real>, lo: real, hi: real)
    requires xs != [] && 0.0 <= alpha <= 1.0
    requires forall i :: 0 <= i < |xs| ==> lo <= xs[i] <= hi
    ensures lo <= MeanOf(alpha, xs) <= hi
  {
    if |xs| > 1 {
      var init := xs[..|xs| - 1];
      MeanInHull(alpha, init, lo, hi);
      BlendInHull(alpha, lo, hi, MeanOf(alpha, init), xs[|xs| - 1]);
    }
  }

  lemma StepVarGrows(alpha: real, mean: real, v: real, x: real, s: real)
    requires 0.0 < alpha < 1.0 && v >= s
    ensures StepVar(alpha, mean, v, x) >= (1.0 - alpha) * s
  {
    var d := x - mean;
    assert alpha * Sq(d) >= 0.0;
    ScaleLe(1.0 - alpha, s, v + alpha * Sq(d));
  }

  /** The variance never falls below the decayed seed, so it stays strictly positive. */
  lemma {:induction false} VarAtLeastSeed(alpha: real, xs: seq<real>)
    requires xs != [] && 0.0 < alpha < 1.0
    ensures VarOf(alpha, xs) >= Pow(1.0 - alpha, |xs| - 1) * SEED > 0.0
  {
    PowPositive(1.0 - alpha, |xs| - 1);
    if |xs| > 1 {
      var init := xs[..|xs| - 1];
      VarAtLeastSeed(alpha, init);
      StepVarGrows(alpha, MeanOf(alpha, init), VarOf(alpha, init), xs[|xs| - 1], Pow(1.0 - alpha, |init| - 1) * SEED);
      Associate(1.0 - alpha, Pow(1.0 - alpha, |init| - 1), SEED);
    }
  }

  /** The weighted second moment is at least the squared mean (the weights form a distribution). */
  lemma SecondMomentDominates(alpha: real, xs: seq<real>)
    requires xs != [] && 0.0 < alpha < 1.0
    ensures Weighted(alpha, Squares(xs)) >= Sq(Weighted(alpha, xs))
  {
    VarClosedForm(alpha, xs);
    VarAtLeastSeed(alpha, xs);
    MeanClosedForm(alpha, xs);
  }

  // ---------------------------------------------------------------- six features

  datatype Estimator = Estimator(
    initialized: bool,
    shortMean: Vec, shortVar: Vec,
    longMean: Vec, longVar: Vec,
    updateCount: nat)

  const FRESH: Estimator := var z := [0.0, 0.0, 0.0, 0.0, 0.0, 0.0]; Estimator(false, z, z, z, z, 0)

  function StepMeans(alpha: real, mean: Vec, x: Vec): Vec
  {
    seq(FEATURES, i requires 0 <= i < FEATURES => StepMean(alpha, mean[i], x[i]))
  }

  function StepVars(alpha: real, mean: Vec, v: Vec, x: Vec): Vec
  {
    seq(FEATURES, i requires 0 <= i < FEATURES => StepVar(alpha, mean[i], v[i], x[i]))
  }

  function Updated(e: Estimator, x: Vec): Estimator
  {
    if !e.initialized then Estimator(true, x, Constants(SEED, FEATURES), x, Constants(SEED, FEATURES), 1)
    else Estimator(true,
                   StepMeans(SHORT_ALPHA, e.shortMean, x), StepVars(SHORT_ALPHA, e.shortMean, e.shortVar, x),
                   StepMeans(LONG_ALPHA, e.longMean, x), StepVars(LONG_ALPHA, e.longMean, e.longVar, x),
                   e.updateCount + 1)
  }

  /** `e` is the estimator after exactly the samples `xs`, described feature by feature. */
  ghost predicate Summarises(e: Estimator, xs: seq<Vec>)
  {
    && (e.initialized <==> xs != [])
    && e.updateCount == |xs|
    && (xs != [] ==> forall f :: 0 <= f < FEATURES ==>
          && e.shortMean[f] == MeanOf(SHORT_ALPHA, Column(xs, f))
          && e.shortVar[f] == VarOf(SHORT_ALPHA, Column(xs, f))
          && e.longMean[f] == MeanOf(LONG_ALPHA, Column(xs, f))
          && e.longVar[f] == VarOf(LONG_ALPHA, Column(xs, f)))
  }

  lemma UpdatedSummarises(e: Estimator, xs: seq<Vec>, x: Vec)
    requires Summarises(e, xs)
    ensures Summarises(Updated(e, x), xs + [x])
  {
    var ys := xs + [x];
    forall f | 0 <= f < FEATURES
      ensures Column(ys, f) == Column(xs, f) + [x[f]] && Column(ys, f)[..|xs|] == Column(xs, f)
    {
    }
  }

  /** Every denominator of the normalisation and of the drift score is positive. */
  ghost predicate Sound(e: Estimator)
  {
    forall f :: 0 <= f < FEATURES ==> e.longVar[f] >= 0.0 && e.shortVar[f] >= 0.0
  }

  /** The estimator after the samples `xs`, starting fresh. */
  function UpdateAll(xs: seq<Vec>): Estimator
  {
    if xs == [] then FRESH else Updated(UpdateAll(xs[..|xs| - 1]), xs[|xs| - 1])
  }

  lemma {:induction false} UpdateAllSummarises(xs: seq<Vec>)
    ensures Summarises(UpdateAll(xs), xs)
  {
    if xs != [] {
      var init, last := xs[..|xs| - 1], xs[|xs| - 1];
      UpdateAllSummarises(init);
      UpdatedSummarises(UpdateAll(init), init, last);
      hide Summarises, Updated;
      assert xs == init + [last];
    }
  }

  /** After any history no denominator vanishes, and once there is a sample every variance is positive. */
  lemma EveryHistoryIsSound(xs: seq<Vec>)
    ensures Sound(UpdateAll(xs))
    ensures xs != [] ==>
      forall f :: 0 <= f < FEATURES ==> UpdateAll(xs).longVar[f] > 0.0 && UpdateAll(xs).shortVar[f] > 0.0
  {
    if xs != [] {
      UpdateAllSummarises(xs);
      forall f | 0 <= f < FEATURES
        ensures UpdateAll(xs).longVar[f] > 0.0 && UpdateAll(xs).shortVar[f] > 0.0
      {
        VarAtLeastSeed(SHORT_ALPHA, Column(xs, f));
        VarAtLeastSeed(LONG_ALPHA, Column(xs, f));
      }
      hide UpdateAll;
    }
  }

  /** Both estimators of a feature, in closed form over all its samples. */
  ghost predicate ClosedForm(alpha: real, xs: seq<real>, mean: real, v: real)
    requires xs != []
  {
    && mean == Weighted(alpha, xs)
    && v == Weighted(alpha, Squares(xs)) - Sq(mean) + Pow(1.0 - alpha, |xs| - 1) * SEED
    && v > 0.0
  }

  /** After any history, each mean and variance has its closed form, and every variance is positive. */
  lemma EveryHistoryHasClosedForm(xs: seq<Vec>, f: nat)
    requires xs != [] && f < FEATURES
    ensures
      var e, c := UpdateAll(xs), Column(xs, f);
      && ClosedForm(SHORT_ALPHA, c, e.shortMean[f], e.shortVar[f])
      && ClosedForm(LONG_ALPHA, c, e.longMean[f], e.longVar[f])
  {
    var c := Column(xs, f);
    UpdateAllSummarises(xs);
    MeanClosedForm(SHORT_ALPHA, c);
    MeanClosedForm(LONG_ALPHA, c);
    VarClosedForm(SHORT_ALPHA, c);
    VarClosedForm(LONG_ALPHA, c);
    VarAtLeastSeed(SHORT_ALPHA, c);
    VarAtLeastSeed(LONG_ALPHA, c);
    hide UpdateAll, Weighted, MeanOf, VarOf, Squares, Pow;
  }

  lemma UpdatedIsSound(e: Estimator, x: Vec)
    requires Sound(e)
    ensures Sound(Updated(e, x))
  {
    if e.initialized {
      forall f | 0 <= f < FEATURES
        ensures Updated(e, x).longVar[f] >= 0.0 && Updated(e, x).shortVar[f] >= 0.0
      {
        StepVarGrows(SHORT_ALPHA, e.shortMean[f], e.shortVar[f], x[f], 0.0);
        StepVarGrows(LONG_ALPHA, e.longMean[f], e.longVar[f], x[f], 0.0);
      }
    }
  }

  function LongStd(e: Estimator, sqrt: real -> real, f: nat): (d: real)
    requires f < FEATURES && IsSqrt(sqrt) && Sound(e)
    ensures d > 0.0
  {
    SqrtPositive(sqrt, e.longVar[f] + EPSILON);
    sqrt(e.longVar[f] + EPSILON)
  }

  function Normalized(e: Estimator, sqrt: real -> real, x: Vec): Vec
    requires IsSqrt(sqrt) && Sound(e)
  {
    if !e.initialized then x
    else seq(FEATURES, f requires 0 <= f < FEATURES => (x[f] - e.longMean[f]) / LongStd(e, sqrt, f))
  }

  function DriftTo(e: Estimator, sqrt: real -> real, n: nat): real
    requires n <= FEATURES && IsSqrt(sqrt) && Sound(e)
  {
    if n == 0 then 0.0
    else DriftTo(e, sqrt, n - 1) + Abs(e.shortMean[n - 1] - e.longMean[n - 1]) / LongStd(e, sqrt, n - 1)
  }

  function Drift(e: Estimator, sqrt: real -> real): real
    requires IsSqrt(sqrt) && Sound(e)
  {
    if !e.initialized then 0.0 else DriftTo(e, sqrt, FEATURES) / 6.0
  }

  /** The drift score is zero exactly when short- and long-term means agree on every feature. */
  lemma DriftZeroIff(e: Estimator, sqrt: real -> real)
    requires IsSqrt(sqrt) && Sound(e) && e.initialized
    ensures Drift(e, sqrt) >= 0.0
    ensures Drift(e, sqrt) == 0.0 <==> e.shortMean == e.longMean
  {
    DriftToZeroIff(e, sqrt, FEATURES);
  }

  lemma {:induction false} DriftToZeroIff(e: Estimator, sqrt: real -> real, n: nat)
    requires IsSqrt(sqrt) && Sound(e) && n <= FEATURES
    ensures DriftTo(e, sqrt, n) >= 0.0
    ensures DriftTo(e, sqrt, n) == 0.0 <==> forall f :: 0 <= f < n ==> e.shortMean[f] == e.longMean[f]
  {
    if n > 0 {
      DriftToZeroIff(e, sqrt, n - 1);
      QuotientZeroIff(Abs(e.shortMean[n - 1] - e.longMean[n - 1]), LongStd(e, sqrt, n - 1));
    }
  }

  lemma QuotientZeroIff(a: real, d: real)
    requires a >= 0.0 && d > 0.0
    ensures a / d >= 0.0
    ensures a / d == 0.0 <==> a == 0.0
  {
    assert (a / d) * d == a;
  }

  // ---------------------------------------------------------------- the object

  /** The first `n` features have taken the sample `x`, the others are as they were. */
  ghost predicate Stepped(alpha: real, mean0: Vec, var0: Vec, x: Vec, n: nat, mean: Vec, variance: Vec)
    requires n <= FEATURES
  {
    && (forall f :: 0 <= f < n ==> mean[f] == StepMean(alpha, mean0[f], x[f]))
    && (forall f :: 0 <= f < n ==> variance[f] == StepVar(alpha, mean0[f], var0[f], x[f]))
    && (forall f :: n <= f < FEATURES ==> mean[f] == mean0[f] && variance[f] == var0[f])
  }

  lemma StepsOnce(alpha: real, mean0: Vec, var0: Vec, x: Vec, n: nat, mean: Vec, variance: Vec)
    requires n < FEATURES && Stepped(alpha, mean0, var0, x, n, mean, variance)
    ensures Stepped(alpha, mean0, var0, x, n + 1, mean[n := StepMean(alpha, mean[n], x[n])],
                    variance[n := StepVar(alpha, mean[n], variance[n], x[n])])
  {
    hide StepMean, StepVar;
  }

  lemma AllStepped(alpha: real, mean0: Vec, var0: Vec, x: Vec, mean: Vec, variance: Vec)
    requires Stepped(alpha, mean0, var0, x, FEATURES, mean, variance)
    ensures mean == StepMeans(alpha, mean0, x) && variance == StepVars(alpha, mean0, var0, x)
  {
    hide StepMean, StepVar;
  }

  class EwmaState {
    var initialized: bool
    var shortMean: Vec
    var shortVar: Vec
    var longMean: Vec
    var longVar: Vec
    var updateCount: nat

    function View(): Estimator
      reads this
    {
      Estimator(initialized, shortMean, shortVar, longMean, longVar, updateCount)
    }

    constructor ()
      ensures View() == FRESH
    {
      initialized := false;
      shortMean, shortVar := FRESH.shortMean, FRESH.shortVar;
      longMean, longVar := FRESH.longMean, FRESH.longVar;
      updateCount := 0;
    }

    method Normalize(x: Vec, sqrt: real -> real) returns (z: Vec)
      requires IsSqrt(sqrt) && Sound(View())
      ensures z == Normalized(View(), sqrt, x)
    {
      if !initialized {
        return x;
      }
      z := x;
      for i := 0 to FEATURES
        invariant forall f :: 0 <= f < i ==> z[f] == Normalized(View(), sqrt, x)[f]
        invariant forall f :: i <= f < FEATURES ==> z[f] == x[f]
      {
        SqrtPositive(sqrt, longVar[i] + EPSILON);
        z := z[i := (x[i] - longMean[i]) / sqrt(longVar[i] + EPSILON)];
      }
    }

    method Update(x: Vec)
      modifies this
      ensures View() == Updated(old(View()), x)
    {
      hide StepMean, StepVar;
      if !initialized {
        shortMean, longMean := x, x;
        for i := 0 to FEATURES
          invariant shortMean == x && longMean == x
          invariant forall f :: 0 <= f < i ==> shortVar[f] == SEED && longVar[f] == SEED
        {
          shortVar := shortVar[i := SEED];
          longVar := longVar[i := SEED];
        }
        initialized := true;
        updateCount := 1;
        assert shortVar == Constants(SEED, FEATURES) && longVar == Constants(SEED, FEATURES);
        return;
      }
      ghost var e := View();
      for i := 0 to FEATURES
        invariant initialized && updateCount == e.updateCount
        invariant Stepped(SHORT_ALPHA, e.shortMean, e.shortVar, x, i, shortMean, shortVar)
        invariant Stepped(LONG_ALPHA, e.longMean, e.longVar, x, i, longMean, longVar)
      {
        StepsOnce(SHORT_ALPHA, e.shortMean, e.shortVar, x, i, shortMean, shortVar);
        StepsOnce(LONG_ALPHA, e.longMean, e.longVar, x, i, longMean, longVar);
        hide Stepped;
        var m, v := shortMean[i], shortVar[i];
        shortMean := shortMean[i := StepMean(SHORT_ALPHA, m, x[i])];
        shortVar := shortVar[i := StepVar(SHORT_ALPHA, m, v, x[i])];
        m, v := longMean[i], longVar[i];
        longMean := longMean[i := StepMean(LONG_ALPHA, m, x[i])];
        longVar := longVar[i := StepVar(LONG_ALPHA, m, v, x[i])];
      }
      updateCount := updateCount + 1;
      AllStepped(SHORT_ALPHA, e.shortMean, e.shortVar, x, shortMean, shortVar);
      AllStepped(LONG_ALPHA, e.longMean, e.longVar, x, longMean, longVar);
    }

    method DriftScore(sqrt: real -> real) returns (score: real)
      requires IsSqrt(sqrt) && Sound(View())
      ensures score == Drift(View(), sqrt)
    {
      if !initialized {
        return 0.0;
      }
      var total := 0.0;
      for i := 0 to FEATURES
        invariant total == DriftTo(View(), sqrt, i)
      {
        SqrtPositive(sqrt, longVar[i] + EPSILON);
        total := total + Abs(shortMean[i] - longMean[i]) / sqrt(longVar[i] + EPSILON);
      }
      score := total / 6.0;
    }
  }
}
