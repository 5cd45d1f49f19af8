/**
 Lloyd's k-means as run by the shared clustering model: the first k samples seed the
 centres, then rounds of nearest-centre assignment and centre recomputation.
 */
module KMeans {
  import opened RealArith
  import opened Vectors

  // ---------------------------------------------------------------- nearest centre

  /** `b` is the lowest index among the centres closest to `x`. */
  ghost predicate IsNearest(x: Vec, centers: seq<Vec>, b: nat)
  {
    && b < |centers|
    && (forall j :: 0 <= j < |centers| ==> SqDist(x, centers[b]) <= SqDist(x, centers[j]))
    && (forall j :: 0 <= j < b ==> SqDist(x, centers[b]) < SqDist(x, centers[j]))
  }

  function Nearest(x: Vec, centers: seq<Vec>): (b: nat)
    requires centers != []
    ensures IsNearest(x, centers, b)
  {
    NearestTo(x, centers, |centers|)
  }

  function NearestTo(x: Vec, centers: seq<Vec>, n: nat): (b: nat)
    requires 1 <= n <= |centers|
    ensures IsNearest(x, centers[..n], b)
  {
    if n == 1 then 0
    else
      var b := NearestTo(x, centers, n - 1);
      assert forall j :: 0 <= j < n - 1 ==> centers[..n - 1][j] == centers[..n][j];
      if SqDist(x, centers[n - 1]) < SqDist(x, centers[b]) then n - 1 else b
  }

  lemma NearestBeats(x: Vec, centers: seq<Vec>, j: nat)
    requires j < |centers|
    ensures SqDist(x, centers[Nearest(x, centers)]) <= SqDist(x, centers[j])
  {
  }

  lemma NearestUnique(x: Vec, centers: seq<Vec>, b: nat)
    requires centers != [] && IsNearest(x, centers, b)
    ensures b == Nearest(x, centers)
  {
    var c := Nearest(x, centers);
    assert SqDist(x, centers[b]) == SqDist(x, centers[c]);
  }

  method FindNearest(x: Vec, centers: seq<Vec>) returns (best: nat)
    requires centers != []
    ensures IsNearest(x, centers, best)
    ensures best == Nearest(x, centers)
  {
    best := 0;
    var bestDist := SquaredDistance(x, centers[0]);
    for i := 1 to |centers|
      invariant best < i && bestDist == SqDist(x, centers[best])
      invariant forall j :: 0 <= j < i ==> SqDist(x, centers[best]) <= SqDist(x, centers[j])
      invariant forall j :: 0 <= j < best ==> SqDist(x, centers[best]) < SqDist(x, centers[j])
    {
      var d := SquaredDistance(x, centers[i]);
      if d < bestDist {
        bestDist := d;
        best := i;
      }
    }
    NearestUnique(x, centers, best);
  }

  // ---------------------------------------------------------------- clusters and their means

  ghost predicate ValidAssignment(data: seq<Vec>, assign: seq<nat>, k: nat)
  {
    |assign| == |data| && forall i :: 0 <= i < |assign| ==> assign[i] < k
  }

  /** Members of cluster `ci` among the first `n` points. */
  function CountTo(assign: seq<nat>, ci: nat, n: nat): (c: nat)
    requires n <= |assign|
  {
    if n == 0 then 0 else CountTo(assign, ci, n - 1) + if assign[n - 1] == ci then 1 else 0
  }

  /** Sum of a column of numbers over the members of cluster `ci` among the first `n` points. */
  function MemberSum(assign: seq<nat>, ci: nat, column: seq<real>, n: nat): real
    requires n <= |assign| == |column|
  {
    if n == 0 then 0.0
    else MemberSum(assign, ci, column, n - 1) + if assign[n - 1] == ci then column[n - 1] else 0.0
  }

  function ClusterCount(assign: seq<nat>, ci: nat): nat { CountTo(assign, ci, |assign|) }

  function ClusterSum(data: seq<Vec>, assign: seq<nat>, ci: nat, f: nat): real
    requires |data| == |assign| && f < FEATURES
  {
    MemberSum(assign, ci, Column(data, f), |data|)
  }

  /** `c` is the mean of the points of cluster `ci`, stated without division. */
  ghost predicate IsClusterMean(data: seq<Vec>, assign: seq<nat>, ci: nat, c: Vec)
    requires |data| == |assign|
  {
    forall f :: 0 <= f < FEATURES ==> c[f] * ClusterCount(assign, ci) as real == ClusterSum(data, assign, ci, f)
  }

  function AssignAll(data: seq<Vec>, centers: seq<Vec>): (a: seq<nat>)
    requires centers != []
    ensures ValidAssignment(data, a, |centers|)
  {
    seq(|data|, i requires 0 <= i < |data| => Nearest(data[i], centers))
  }

  function MeanOrKeep(data: seq<Vec>, assign: seq<nat>, ci: nat, old_: Vec): Vec
    requires |data| == |assign|
  {
    var n := ClusterCount(assign, ci);
    if n == 0 then old_
    else seq(FEATURES, f requires 0 <= f < FEATURES => ClusterSum(data, assign, ci, f) / n as real)
  }

  function Recompute(data: seq<Vec>, assign: seq<nat>, centers: seq<Vec>): (c: seq<Vec>)
    requires |data| == |assign|
    ensures |c| == |centers|
  {
    seq(|centers|, ci requires 0 <= ci < |centers| => MeanOrKeep(data, assign, ci, centers[ci]))
  }

  lemma MeanOrKeepIsMean(data: seq<Vec>, assign: seq<nat>, ci: nat, c: Vec)
    requires |data| == |assign| && ClusterCount(assign, ci) > 0
    ensures IsClusterMean(data, assign, ci, MeanOrKeep(data, assign, ci, c))
  {
    var n := ClusterCount(assign, ci) as real;
    forall f | 0 <= f < FEATURES
      ensures MeanOrKeep(data, assign, ci, c)[f] * n == ClusterSum(data, assign, ci, f)
    {
      var s := ClusterSum(data, assign, ci, f);
      assert (s / n) * n == s;
    }
  }

  // ---------------------------------------------------------------- cost

  /** Total squared distance of the first `n` points to the centres they are assigned to. */
  function CostTo(data: seq<Vec>, centers: seq<Vec>, assign: seq<nat>, n: nat): (r: real)
    requires ValidAssignment(data, assign, |centers|) && n <= |data|
  {
    if n == 0 then 0.0
    else CostTo(data, centers, assign, n - 1) + SqDist(data[n - 1], centers[assign[n - 1]])
  }

  function Cost(data: seq<Vec>, centers: seq<Vec>, assign: seq<nat>): real
    requires ValidAssignment(data, assign, |centers|)
  {
    CostTo(data, centers, assign, |data|)
  }

  /** Total squared distance of every point to its closest centre. */
  function Inertia(data: seq<Vec>, centers: seq<Vec>): real
    requires centers != []
  {
    Cost(data, centers, AssignAll(data, centers))
  }

  lemma {:induction false} AssignIsOptimalTo(data: seq<Vec>, centers: seq<Vec>, assign: seq<nat>, n: nat)
    requires centers != [] && ValidAssignment(data, assign, |centers|) && n <= |data|
    ensures CostTo(data, centers, AssignAll(data, centers), n) <= CostTo(data, centers, assign, n)
  {
    hide SqDist, IsNearest;
    if n > 0 {
      AssignIsOptimalTo(data, centers, assign, n - 1);
      NearestBeats(data[n - 1], centers, assign[n - 1]);
    }
  }

  // The cost of one cluster against a candidate centre, split by feature.

  function ClusterCostTo(data: seq<Vec>, assign: seq<nat>, ci: nat, c: Vec, n: nat, m: nat): real
    requires n <= |data| == |assign| && m <= FEATURES
  {
    if n == 0 then 0.0
    else ClusterCostTo(data, assign, ci, c, n - 1, m) + if assign[n - 1] == ci then DistTo(data[n - 1], c, m) else 0.0
  }

  /** Squared deviation of every number from `y`. */
  function Deviations(column: seq<real>, y: real): (d: seq<real>)
    ensures |d| == |column|
  {
    seq(|column|, i requires 0 <= i < |column| => Sq(column[i] - y))
  }

  lemma {:induction false} SplitFeature(data: seq<Vec>, assign: seq<nat>, ci: nat, c: Vec, n: nat, m: nat)
    requires n <= |data| == |assign| && 0 < m <= FEATURES
    ensures ClusterCostTo(data, assign, ci, c, n, m)
         == ClusterCostTo(data, assign, ci, c, n, m - 1)
            + MemberSum(assign, ci, Deviations(Column(data, m - 1), c[m - 1]), n)
  {
    if n > 0 {
      SplitFeature(data, assign, ci, c, n - 1, m);
    }
  }

  // Against `y` instead of the mean `m`, a member at `x` costs k * (2x - e) more, where k = m - y and e = m + y.

  function Excess(column: seq<real>, e: real): (d: seq<real>)
    ensures |d| == |column|
  {
    seq(|column|, i requires 0 <= i < |column| => 2.0 * column[i] - e)
  }

  lemma ExcessOfOne(m: real, y: real, k: real, e: real, x: real)
    requires k == m - y && e == m + y
    ensures Sq(x - y) - Sq(x - m) == Times(k, 2.0 * x - e)
  {
  }

  lemma ExcessOfEach(column: seq<real>, m: real, y: real, k: real, e: real)
    requires k == m - y && e == m + y
    ensures forall i :: 0 <= i < |column| ==>
      Deviations(column, y)[i] - Deviations(column, m)[i] == Times(k, Excess(column, e)[i])
  {
    hide Sq, Times;
    forall i | 0 <= i < |column|
      ensures Deviations(column, y)[i] - Deviations(column, m)[i] == Times(k, Excess(column, e)[i])
    {
      ExcessOfOne(m, y, k, e, column[i]);
    }
  }

  lemma {:induction false} ScaledSum(assign: seq<nat>, ci: nat, p: seq<real>, q: seq<real>, k: real, h: seq<real>,
                                     n: nat)
    requires n <= |assign| == |p| == |q| == |h|
    requires forall i :: 0 <= i < |assign| ==> p[i] - q[i] == Times(k, h[i])
    ensures MemberSum(assign, ci, p, n) - MemberSum(assign, ci, q, n) == Times(k, MemberSum(assign, ci, h, n))
  {
    hide Times;
    TimesUnits(k);
    if n > 0 {
      ScaledSum(assign, ci, p, q, k, h, n - 1);
      TimesSum(k, MemberSum(assign, ci, h, n - 1), if assign[n - 1] == ci then h[n - 1] else 0.0);
    }
  }

  lemma {:induction false} ExcessSum(assign: seq<nat>, ci: nat, column: seq<real>, e: real, n: nat)
    requires n <= |assign| == |column|
    ensures MemberSum(assign, ci, Excess(column, e), n)
         == 2.0 * MemberSum(assign, ci, column, n) - Times(e, CountTo(assign, ci, n) as real)
  {
    hide Times;
    TimesUnits(e);
    if n > 0 {
      ExcessSum(assign, ci, column, e, n - 1);
      TimesSum(e, CountTo(assign, ci, n - 1) as real, if assign[n - 1] == ci then 1.0 else 0.0);
    }
  }

  /** With the sum equal to n times the mean, the total excess is n * (m - y)^2. */
  lemma ExcessIsNonNegative(m: real, y: real, k: real, e: real, n: real, s: real, excess: real)
    requires n >= 0.0 && s == m * n && k == m - y && e == m + y
    requires excess == 2.0 * s - Times(e, n)
    ensures Times(k, excess) >= 0.0
  {
    assert excess == k * n;
    assert k * (k * n) == Sq(k) * n;
    assert Sq(k) * n >= 0.0;
  }

  lemma TotalExcess(assign: seq<nat>, ci: nat, column: seq<real>, m: real, y: real, k: real, e: real)
    requires |assign| == |column| && k == m - y && e == m + y
    requires m * ClusterCount(assign, ci) as real == MemberSum(assign, ci, column, |column|)
    ensures Times(k, MemberSum(assign, ci, Excess(column, e), |column|)) >= 0.0
  {
    hide Sq, Times, MemberSum, CountTo, Excess;
    ExcessSum(assign, ci, column, e, |column|);
    ExcessIsNonNegative(m, y, k, e, ClusterCount(assign, ci) as real, MemberSum(assign, ci, column, |column|),
                        MemberSum(assign, ci, Excess(column, e), |column|));
  }

  lemma MeanIsBest(assign: seq<nat>, ci: nat, column: seq<real>, m: real, y: real)
    requires |assign| == |column|
    requires m * ClusterCount(assign, ci) as real == MemberSum(assign, ci, column, |column|)
    ensures MemberSum(assign, ci, Deviations(column, m), |column|)
         <= MemberSum(assign, ci, Deviations(column, y), |column|)
  {
    hide *;
    var k, e := m - y, m + y;
    ExcessOfEach(column, m, y, k, e);
    TotalExcess(assign, ci, column, m, y, k, e);
    ScaledSum(assign, ci, Deviations(column, y), Deviations(column, m), k, Excess(column, e), |column|);
  }

  /** Replacing a cluster's centre by the mean of its points does not raise that cluster's cost. */
  lemma {:induction false} MeanIsOptimal(data: seq<Vec>, assign: seq<nat>, ci: nat, mean: Vec, c: Vec, m: nat)
    requires |data| == |assign| && m <= FEATURES && IsClusterMean(data, assign, ci, mean)
    ensures ClusterCostTo(data, assign, ci, mean, |data|, m) <= ClusterCostTo(data, assign, ci, c, |data|, m)
  {
    hide *;
    var n := |data|;
    if m == 0 {
      NoFeaturesNoCost(data, assign, ci, mean, n);
      NoFeaturesNoCost(data, assign, ci, c, n);
    } else {
      MeanIsOptimal(data, assign, ci, mean, c, m - 1);
      SplitFeature(data, assign, ci, mean, n, m);
      SplitFeature(data, assign, ci, c, n, m);
      FeatureOfMean(data, assign, ci, mean, m - 1);
      MeanIsBest(assign, ci, Column(data, m - 1), mean[m - 1], c[m - 1]);
    }
  }

  lemma FeatureOfMean(data: seq<Vec>, assign: seq<nat>, ci: nat, mean: Vec, f: nat)
    requires |data| == |assign| && f < FEATURES && IsClusterMean(data, assign, ci, mean)
    ensures mean[f] * ClusterCount(assign, ci) as real == MemberSum(assign, ci, Column(data, f), |Column(data, f)|)
  {
    hide ClusterCount, MemberSum;
    assert mean[f] * ClusterCount(assign, ci) as real == ClusterSum(data, assign, ci, f);
  }

  lemma {:induction false} NoFeaturesNoCost(data: seq<Vec>, assign: seq<nat>, ci: nat, c: Vec, n: nat)
    requires n <= |data| == |assign|
    ensures ClusterCostTo(data, assign, ci, c, n, 0) == 0.0
  {
    if n > 0 {
      NoFeaturesNoCost(data, assign, ci, c, n - 1);
    }
  }

  // Summing the cluster costs over all clusters gives the total cost.

  function SumOfClustersTo(data: seq<Vec>, centers: seq<Vec>, assign: seq<nat>, n: nat, k: nat): real
    requires n <= |data| == |assign| && k <= |centers|
  {
    if k == 0 then 0.0
    else SumOfClustersTo(data, centers, assign, n, k - 1)
         + ClusterCostTo(data, assign, k - 1, centers[k - 1], n, FEATURES)
  }

  lemma {:induction false} SumOfClustersGrows(data: seq<Vec>, centers: seq<Vec>, assign: seq<nat>, n: nat, k: nat)
    requires ValidAssignment(data, assign, |centers|) && 0 < n <= |data| && k <= |centers|
    ensures SumOfClustersTo(data, centers, assign, n, k)
         == SumOfClustersTo(data, centers, assign, n - 1, k)
            + if assign[n - 1] < k then SqDist(data[n - 1], centers[assign[n - 1]]) else 0.0
  {
    if k > 0 {
      SumOfClustersGrows(data, centers, assign, n, k - 1);
    }
  }

  lemma {:induction false} NothingToSum(data: seq<Vec>, centers: seq<Vec>, assign: seq<nat>, k: nat)
    requires |data| == |assign| && k <= |centers|
    ensures SumOfClustersTo(data, centers, assign, 0, k) == 0.0
  {
    if k > 0 {
      NothingToSum(data, centers, assign, k - 1);
    }
  }

  lemma {:induction false} CostIsSumOfClusters(data: seq<Vec>, centers: seq<Vec>, assign: seq<nat>, n: nat)
    requires ValidAssignment(data, assign, |centers|) && n <= |data|
    ensures CostTo(data, centers, assign, n) == SumOfClustersTo(data, centers, assign, n, |centers|)
  {
    if n == 0 {
      NothingToSum(data, centers, assign, |centers|);
    } else {
      CostIsSumOfClusters(data, centers, assign, n - 1);
      SumOfClustersGrows(data, centers, assign, n, |centers|);
    }
  }

  lemma {:induction false} NoMembersNoCost(data: seq<Vec>, assign: seq<nat>, ci: nat, c: Vec, n: nat)
    requires n <= |data| == |assign| && CountTo(assign, ci, n) == 0
    ensures ClusterCostTo(data, assign, ci, c, n, FEATURES) == 0.0
  {
    if n > 0 {
      NoMembersNoCost(data, assign, ci, c, n - 1);
    }
  }

  lemma {:induction false} RecomputeLowersClusters(data: seq<Vec>, centers: seq<Vec>, assign: seq<nat>, k: nat)
    requires ValidAssignment(data, assign, |centers|) && k <= |centers|
    ensures SumOfClustersTo(data, Recompute(data, assign, centers), assign, |data|, k)
         <= SumOfClustersTo(data, centers, assign, |data|, k)
  {
    if k > 0 {
      RecomputeLowersClusters(data, centers, assign, k - 1);
      var ci, next := k - 1, Recompute(data, assign, centers);
      if ClusterCount(assign, ci) == 0 {
        NoMembersNoCost(data, assign, ci, centers[ci], |data|);
        NoMembersNoCost(data, assign, ci, next[ci], |data|);
      } else {
        MeanOrKeepIsMean(data, assign, ci, centers[ci]);
        MeanIsOptimal(data, assign, ci, next[ci], centers[ci], FEATURES);
      }
    }
  }

  /** One round, assignment then recomputation, never raises the inertia. */
  lemma RoundLowersInertia(data: seq<Vec>, centers: seq<Vec>)
    requires centers != []
    ensures Inertia(data, Recompute(data, AssignAll(data, centers), centers)) <= Inertia(data, centers)
  {
    var a := AssignAll(data, centers);
    var next := Recompute(data, a, centers);
    AssignIsOptimalTo(data, next, a, |data|);
    CostIsSumOfClusters(data, centers, a, |data|);
    CostIsSumOfClusters(data, next, a, |data|);
    RecomputeLowersClusters(data, centers, a, |centers|);
  }

  // ---------------------------------------------------------------- the iteration

  datatype Outcome = Outcome(centers: seq<Vec>, assign: seq<nat>, converged: bool)

  /** The rounds t, t+1, ..., iter-1, leaving early when a round after the first changes no assignment. */
  function Lloyd(data: seq<Vec>, centers: seq<Vec>, assign: seq<nat>, t: nat, iter: nat): (r: Outcome)
    requires centers != [] && ValidAssignment(data, assign, |centers|)
    ensures |r.centers| == |centers| && ValidAssignment(data, r.assign, |centers|)
    decreases iter - t
  {
    if t >= iter then Outcome(centers, assign, false)
    else
      var a := AssignAll(data, centers);
      if a == assign && t > 0 then Outcome(centers, a, true)
      else Lloyd(data, Recompute(data, a, centers), a, t + 1, iter)
  }

  ghost predicate CentersAreMeans(data: seq<Vec>, centers: seq<Vec>, assign: seq<nat>)
    requires |data| == |assign|
  {
    forall ci :: 0 <= ci < |centers| && ClusterCount(assign, ci) > 0 ==> IsClusterMean(data, assign, ci, centers[ci])
  }

  ghost predicate AllNearest(data: seq<Vec>, centers: seq<Vec>, assign: seq<nat>)
    requires |data| == |assign|
  {
    forall i :: 0 <= i < |data| ==> IsNearest(data[i], centers, assign[i])
  }

  /** Every point sits with its nearest centre, and every non-empty cluster's centre is the mean of its points. */
  ghost predicate FixedPoint(data: seq<Vec>, centers: seq<Vec>, assign: seq<nat>)
  {
    |assign| == |data| && AllNearest(data, centers, assign) && CentersAreMeans(data, centers, assign)
  }

  lemma AssignAllIsNearest(data: seq<Vec>, centers: seq<Vec>)
    requires centers != []
    ensures AllNearest(data, centers, AssignAll(data, centers))
  {
  }

  lemma RecomputeGivesMeans(data: seq<Vec>, centers: seq<Vec>, assign: seq<nat>)
    requires |data| == |assign|
    ensures CentersAreMeans(data, Recompute(data, assign, centers), assign)
  {
    forall ci | 0 <= ci < |centers| && ClusterCount(assign, ci) > 0
      ensures IsClusterMean(data, assign, ci, Recompute(data, assign, centers)[ci])
    {
      MeanOrKeepIsMean(data, assign, ci, centers[ci]);
    }
  }

  lemma {:induction false} LloydLowersInertia(data: seq<Vec>, centers: seq<Vec>, assign: seq<nat>, t: nat, iter: nat)
    requires centers != [] && ValidAssignment(data, assign, |centers|)
    ensures Inertia(data, Lloyd(data, centers, assign, t, iter).centers) <= Inertia(data, centers)
    decreases iter - t
  {
    if t < iter {
      var a := AssignAll(data, centers);
      if !(a == assign && t > 0) {
        RoundLowersInertia(data, centers);
        LloydLowersInertia(data, Recompute(data, a, centers), a, t + 1, iter);
      }
    }
  }

  lemma {:induction false} LloydFixedPoint(data: seq<Vec>, centers: seq<Vec>, assign: seq<nat>, t: nat, iter: nat)
    requires centers != [] && ValidAssignment(data, assign, |centers|)
    requires t > 0 ==> CentersAreMeans(data, centers, assign)
    ensures var r := Lloyd(data, centers, assign, t, iter);
            r.converged ==> FixedPoint(data, r.centers, r.assign)
    decreases iter - t
  {
    if t < iter {
      var a := AssignAll(data, centers);
      if a == assign && t > 0 {
        AssignAllIsNearest(data, centers);
      } else {
        RecomputeGivesMeans(data, centers, a);
        LloydFixedPoint(data, Recompute(data, a, centers), a, t + 1, iter);
      }
    }
  }

  /** Running Lloyd again from a fixed point moves nothing: the centres are stable. */
  lemma FixedPointIsStable(data: seq<Vec>, centers: seq<Vec>, assign: seq<nat>)
    requires centers != [] && FixedPoint(data, centers, assign)
    ensures assign == AssignAll(data, centers) && Recompute(data, assign, centers) == centers
  {
    forall i | 0 <= i < |data|
      ensures assign[i] == AssignAll(data, centers)[i]
    {
      NearestUnique(data[i], centers, assign[i]);
    }
    var next := Recompute(data, assign, centers);
    forall ci | 0 <= ci < |centers|
      ensures next[ci] == centers[ci]
    {
      if ClusterCount(assign, ci) > 0 {
        MeanOrKeepIsMean(data, assign, ci, centers[ci]);
        MeanIsUnique(data, assign, ci, next[ci], centers[ci]);
      }
    }
  }

  lemma CancelCount(x: real, y: real, n: real, s: real)
    requires n > 0.0 && x * n == s && y * n == s
    ensures x == y
  {
    assert (x - y) * n == 0.0;
  }

  lemma MeanIsUnique(data: seq<Vec>, assign: seq<nat>, ci: nat, c: Vec, d: Vec)
    requires |data| == |assign| && ClusterCount(assign, ci) > 0
    requires IsClusterMean(data, assign, ci, c) && IsClusterMean(data, assign, ci, d)
    ensures c == d
  {
    forall f | 0 <= f < FEATURES
      ensures c[f] == d[f]
    {
      CancelCount(c[f], d[f], ClusterCount(assign, ci) as real, ClusterSum(data, assign, ci, f));
    }
  }

  // ---------------------------------------------------------------- the method

  function Zeros(n: nat): (z: seq<nat>)
    ensures |z| == n && forall i :: 0 <= i < n ==> z[i] == 0
  {
    seq(n, _ => 0)
  }

  function Seeds(data: seq<Vec>, k: int): (c: seq<Vec>)
    requires k > 0 && data != []
    ensures 0 < |c| <= |data|
  {
    data[..if k > |data| then |data| else k]
  }

  /** What the clustering returns: nothing for no data or no clusters, else the centres Lloyd ends with. */
  function Clustered(data: seq<Vec>, k: int, iter: nat): (centers: seq<Vec>)
    ensures |centers| == if data == [] || k <= 0 then 0 else if k > |data| then |data| else k
  {
    if data == [] || k <= 0 then []
    else Lloyd(data, Seeds(data, k), Zeros(|data|), 0, iter).centers
  }

  /** k-means never ends worse than its seeding, and an early exit ends in a fixed point. */
  lemma ClusteredIsSound(data: seq<Vec>, k: int, iter: nat)
    requires data != [] && k > 0
    ensures Inertia(data, Clustered(data, k, iter)) <= Inertia(data, Seeds(data, k))
    ensures var r := Lloyd(data, Seeds(data, k), Zeros(|data|), 0, iter);
            r.converged ==> FixedPoint(data, Clustered(data, k, iter), r.assign)
  {
    LloydLowersInertia(data, Seeds(data, k), Zeros(|data|), 0, iter);
    LloydFixedPoint(data, Seeds(data, k), Zeros(|data|), 0, iter);
  }

  method Reassign(data: seq<Vec>, centers: seq<Vec>, assign: seq<nat>) returns (next: seq<nat>, changed: bool)
    requires centers != [] && |assign| == |data|
    ensures next == AssignAll(data, centers)
    ensures changed <==> next != assign
  {
    next, changed := assign, false;
    for i := 0 to |data|
      invariant |next| == |data|
      invariant forall j :: 0 <= j < i ==> next[j] == Nearest(data[j], centers)
      invariant forall j :: i <= j < |data| ==> next[j] == assign[j]
      invariant changed <==> exists j :: 0 <= j < i && next[j] != assign[j]
    {
      var best := FindNearest(data[i], centers);
      if next[i] != best {
        next := next[i := best];
        changed := true;
      }
    }
    assert next == AssignAll(data, centers);
  }

  method AddMembers(data: seq<Vec>, assign: seq<nat>, k: nat) returns (sums: seq<seq<real>>, counts: seq<nat>)
    requires ValidAssignment(data, assign, k)
    ensures |sums| == |counts| == k
    ensures forall ci :: 0 <= ci < k ==> counts[ci] == ClusterCount(assign, ci) && |sums[ci]| == FEATURES
    ensures forall ci, f :: 0 <= ci < k && 0 <= f < FEATURES ==> sums[ci][f] == ClusterSum(data, assign, ci, f)
  {
    counts := seq(k, _ => 0);
    sums := seq(k, _ => seq(FEATURES, _ => 0.0));
    for i := 0 to |data|
      invariant |sums| == |counts| == k
      invariant forall ci :: 0 <= ci < k ==> counts[ci] == CountTo(assign, ci, i) && |sums[ci]| == FEATURES
      invariant forall ci, f :: 0 <= ci < k && 0 <= f < FEATURES ==>
        sums[ci][f] == MemberSum(assign, ci, Column(data, f), i)
    {
      var cid := assign[i];
      counts := counts[cid := counts[cid] + 1];
      var row := sums[cid];
      for fi := 0 to FEATURES
        invariant |row| == FEATURES
        invariant forall f :: 0 <= f < fi ==> row[f] == sums[cid][f] + data[i][f]
        invariant forall f :: fi <= f < FEATURES ==> row[f] == sums[cid][f]
      {
        row := row[fi := row[fi] + data[i][fi]];
      }
      sums := sums[cid := row];
    }
  }

  method MoveCenters(data: seq<Vec>, assign: seq<nat>, centers: seq<Vec>) returns (next: seq<Vec>)
    requires ValidAssignment(data, assign, |centers|)
    ensures next == Recompute(data, assign, centers)
  {
    var sums, counts := AddMembers(data, assign, |centers|);
    next := centers;
    for ci := 0 to |centers|
      invariant |next| == |centers|
      invariant forall c :: 0 <= c < ci ==> next[c] == MeanOrKeep(data, assign, c, centers[c])
      invariant forall c :: ci <= c < |centers| ==> next[c] == centers[c]
    {
      if counts[ci] != 0 {
        var row: Vec := next[ci];
        for fi := 0 to FEATURES
          invariant forall f :: 0 <= f < fi ==> row[f] == ClusterSum(data, assign, ci, f) / counts[ci] as real
        {
          row := row[fi := sums[ci][fi] / counts[ci] as real];
        }
        assert row == MeanOrKeep(data, assign, ci, centers[ci]);
        next := next[ci := row];
      }
    }
    assert next == Recompute(data, assign, centers);
  }

  method Run(data: seq<Vec>, k: int, iter: nat) returns (centers: seq<Vec>)
    ensures centers == Clustered(data, k, iter)
    ensures data != [] && k > 0 ==> centers != [] && Inertia(data, centers) <= Inertia(data, Seeds(data, k))
  {
    if data == [] || k <= 0 {
      return [];
    }
    centers := Seeds(data, k);
    var assign := Zeros(|data|);
    ghost var goal := Lloyd(data, centers, assign, 0, iter);
    ClusteredIsSound(data, k, iter);
    var t := 0;
    while t < iter
      invariant centers != [] && ValidAssignment(data, assign, |centers|)
      invariant t <= iter
      invariant Lloyd(data, centers, assign, t, iter) == goal
    {
      var next, changed := Reassign(data, centers, assign);
      assign := next;
      if !changed && t > 0 {
        break;
      }
      centers := MoveCenters(data, assign, centers);
      t := t + 1;
    }
  }
}
