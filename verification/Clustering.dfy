/**
 The clustering model shared by all pods: a bounded sample buffer, the current centres,
 and the tags each centre's cluster carries.
 */
module Clustering {
  import opened Vectors
  import KMeans
  import TieredBuffer

  const MAX_SAMPLES := 1000
  const ROUNDS := 10
  const ETA: real := 0.05

  datatype Tag =
    | CpuHeavy | NeedsHigherPriority | Interactive | CacheUnfriendly | NumaUnfriendly | SchedulingLatency
    | Balanced | Collecting

  /** The six tags a cluster earns by having the largest centre in one feature. */
  const SEMANTIC: set<Tag> :=
    {CpuHeavy, NeedsHigherPriority, Interactive, CacheUnfriendly, NumaUnfriendly, SchedulingLatency}

  function FeatureOf(t: Tag): (f: nat)
    requires t in SEMANTIC
    ensures f < FEATURES
  {
    match t
    case Interactive => 0
    case NeedsHigherPriority => 1
    case CpuHeavy => 2
    case SchedulingLatency => 3
    case CacheUnfriendly => 4
    case NumaUnfriendly => 5
  }

  // ---------------------------------------------------------------- cluster semantics

  /** `b` is the lowest index of a centre that is largest in feature `f`. */
  ghost predicate IsArgMax(centers: seq<Vec>, f: nat, b: nat)
    requires f < FEATURES
  {
    && b < |centers|
    && (forall j :: 0 <= j < |centers| ==> centers[j][f] <= centers[b][f])
    && (forall j :: 0 <= j < b ==> centers[j][f] < centers[b][f])
  }

  function ArgMaxTo(centers: seq<Vec>, f: nat, n: nat): (b: nat)
    requires 1 <= n <= |centers| && f < FEATURES
    ensures IsArgMax(centers[..n], f, b)
  {
    if n == 1 then 0
    else
      var b := ArgMaxTo(centers, f, n - 1);
      assert forall j :: 0 <= j < n - 1 ==> centers[..n - 1][j] == centers[..n][j];
      if centers[n - 1][f] > centers[b][f] then n - 1 else b
  }

  function ArgMax(centers: seq<Vec>, f: nat): (b: nat)
    requires centers != [] && f < FEATURES
    ensures IsArgMax(centers, f, b)
  {
    assert centers[..|centers|] == centers;
    ArgMaxTo(centers, f, |centers|)
  }

  /** For every feature, the cluster that leads it. */
  function Leaders(centers: seq<Vec>): (l: seq<nat>)
    requires centers != []
    ensures |l| == FEATURES && forall f :: 0 <= f < FEATURES ==> l[f] < |centers|
  {
    seq(FEATURES, f requires 0 <= f < FEATURES => ArgMax(centers, f))
  }

  function AppendIf(tags: seq<Tag>, c: bool, t: Tag): seq<Tag> { if c then tags + [t] else tags }

  function EarnedTags(leaders: seq<nat>, i: nat): seq<Tag>
    requires |leaders| == FEATURES
  {
    var t1 := AppendIf([], leaders[2] == i, CpuHeavy);
    var t2 := AppendIf(t1, leaders[1] == i, NeedsHigherPriority);
    var t3 := AppendIf(t2, leaders[0] == i, Interactive);
    var t4 := AppendIf(t3, leaders[4] == i, CacheUnfriendly);
    var t5 := AppendIf(t4, leaders[5] == i, NumaUnfriendly);
    AppendIf(t5, leaders[3] == i, SchedulingLatency)
  }

  function TagsOf(leaders: seq<nat>, i: nat): (tags: seq<Tag>)
    requires |leaders| == FEATURES
  {
    if EarnedTags(leaders, i) == [] then [Balanced] else EarnedTags(leaders, i)
  }

  function Semantics(centers: seq<Vec>): (m: map<nat, seq<Tag>>)
  {
    if centers == [] then map[]
    else map i: nat | 0 <= i < |centers| :: TagsOf(Leaders(centers), i)
  }

  ghost predicate NoDuplicates(tags: seq<Tag>)
  {
    forall i, j :: 0 <= i < j < |tags| ==> tags[i] != tags[j]
  }

  /** A tag list is either exactly "balanced", or a duplicate-free list of semantic tags. */
  ghost predicate Proper(tags: seq<Tag>)
  {
    tags == [Balanced] || (tags != [] && NoDuplicates(tags) && forall t :: t in tags ==> t in SEMANTIC)
  }

  /** The map tags clusters 0..k-1 properly, and each semantic tag sits on exactly one of them. */
  ghost predicate Partitions(m: map<nat, seq<Tag>>, k: nat)
  {
    && (forall i: nat :: i in m <==> i < k)
    && (forall i :: i in m ==> Proper(m[i]))
    && (forall t :: t in SEMANTIC ==> exists i :: i in m && t in m[i])
    && (forall t, i, j :: t in SEMANTIC && i in m && j in m && t in m[i] && t in m[j] ==> i == j)
  }

  lemma AppendIfKeeps(tags: seq<Tag>, c: bool, t: Tag)
    requires NoDuplicates(tags) && t !in tags
    ensures NoDuplicates(AppendIf(tags, c, t))
    ensures forall u :: u in AppendIf(tags, c, t) <==> u in tags || (c && u == t)
  {
  }

  lemma EarnedIff(leaders: seq<nat>, i: nat)
    requires |leaders| == FEATURES
    ensures NoDuplicates(EarnedTags(leaders, i))
    ensures forall t :: t in EarnedTags(leaders, i) <==> t in SEMANTIC && leaders[FeatureOf(t)] == i
  {
    hide AppendIf, NoDuplicates;
    AppendIfKeeps([], leaders[2] == i, CpuHeavy) by { EmptyIsDistinct(); }
    var t1 := AppendIf([], leaders[2] == i, CpuHeavy);
    AppendIfKeeps(t1, leaders[1] == i, NeedsHigherPriority);
    var t2 := AppendIf(t1, leaders[1] == i, NeedsHigherPriority);
    AppendIfKeeps(t2, leaders[0] == i, Interactive);
    var t3 := AppendIf(t2, leaders[0] == i, Interactive);
    AppendIfKeeps(t3, leaders[4] == i, CacheUnfriendly);
    var t4 := AppendIf(t3, leaders[4] == i, CacheUnfriendly);
    AppendIfKeeps(t4, leaders[5] == i, NumaUnfriendly);
    var t5 := AppendIf(t4, leaders[5] == i, NumaUnfriendly);
    AppendIfKeeps(t5, leaders[3] == i, SchedulingLatency);
  }

  lemma EmptyIsDistinct()
    ensures NoDuplicates([])
  {
  }

  lemma TagsIff(leaders: seq<nat>, i: nat)
    requires |leaders| == FEATURES
    ensures Proper(TagsOf(leaders, i))
    ensures forall t :: t in SEMANTIC ==> (t in TagsOf(leaders, i) <==> leaders[FeatureOf(t)] == i)
  {
    EarnedIff(leaders, i);
    hide EarnedTags;
  }

  lemma SemanticsByLead(centers: seq<Vec>, i: nat)
    requires i < |centers|
    ensures TaggedByLead(Semantics(centers), Leaders(centers), i)
  {
    TagsIff(Leaders(centers), i);
    hide TagsOf, FeatureOf, Proper;
  }

  /** Relabelling partitions the semantic tags over the clusters and leaves none untagged. */
  lemma SemanticsPartition(centers: seq<Vec>)
    requires centers != []
    ensures Partitions(Semantics(centers), |centers|)
  {
    forall i: nat | i < |centers|
      ensures TaggedByLead(Semantics(centers), Leaders(centers), i)
    {
      SemanticsByLead(centers, i);
    }
    LeadersPartition(Semantics(centers), Leaders(centers), |centers|);
  }

  /** A cluster carries a semantic tag exactly when its centre is the first largest one in the tag's feature. */
  lemma SemanticTagIff(centers: seq<Vec>, t: Tag, i: nat)
    requires t in SEMANTIC && i < |centers|
    ensures t in Semantics(centers)[i] <==> IsArgMax(centers, FeatureOf(t), i)
  {
    SemanticsByLead(centers, i);
    ArgMaxUnique(centers, FeatureOf(t), i);
    hide TagsOf, FeatureOf, Proper, IsArgMax;
  }

  /** Cluster `i` carries a proper list with exactly the tags of the features it leads. */
  ghost predicate TaggedByLead(m: map<nat, seq<Tag>>, leaders: seq<nat>, i: nat)
    requires |leaders| == FEATURES
  {
    i in m && Proper(m[i]) && forall t :: t in SEMANTIC ==> (t in m[i] <==> leaders[FeatureOf(t)] == i)
  }

  lemma LeadersPartition(m: map<nat, seq<Tag>>, leaders: seq<nat>, k: nat)
    requires |leaders| == FEATURES && forall f :: 0 <= f < FEATURES ==> leaders[f] < k
    requires forall i: nat :: i in m <==> i < k
    requires forall i: nat :: i < k ==> TaggedByLead(m, leaders, i)
    ensures Partitions(m, k)
  {
    hide FeatureOf, Proper;
    forall i | i in m
      ensures Proper(m[i])
    {
      assert TaggedByLead(m, leaders, i);
    }
    forall t | t in SEMANTIC
      ensures exists i :: i in m && t in m[i]
    {
      var i := leaders[FeatureOf(t)];
      assert TaggedByLead(m, leaders, i);
      assert t in m[i];
    }
    forall t, i, j | t in SEMANTIC && i in m && j in m && t in m[i] && t in m[j]
      ensures i == j
    {
      assert TaggedByLead(m, leaders, i) && TaggedByLead(m, leaders, j);
    }
  }

  lemma ArgMaxUnique(centers: seq<Vec>, f: nat, b: nat)
    requires centers != [] && f < FEATURES
    ensures IsArgMax(centers, f, b) <==> b == ArgMax(centers, f)
  {
    if IsArgMax(centers, f, b) {
      assert centers[b][f] == centers[ArgMax(centers, f)][f];
    }
  }

  method FindMax(centers: seq<Vec>, f: nat) returns (best: nat)
    requires centers != [] && f < FEATURES
    ensures best == ArgMax(centers, f)
    ensures IsArgMax(centers, f, best)
  {
    best := 0;
    var bestV := centers[0][f];
    for i := 1 to |centers|
      invariant best < i && bestV == centers[best][f]
      invariant forall j :: 0 <= j < i ==> centers[j][f] <= centers[best][f]
      invariant forall j :: 0 <= j < best ==> centers[j][f] < centers[best][f]
    {
      if centers[i][f] > bestV {
        bestV := centers[i][f];
        best := i;
      }
    }
    ArgMaxUnique(centers, f, best);
  }

  method ClusterTags(maxIdx: seq<nat>, i: nat) returns (tags: seq<Tag>)
    requires |maxIdx| == FEATURES
    ensures tags == TagsOf(maxIdx, i)
    ensures Proper(tags)
  {
    TagsIff(maxIdx, i);
    tags := [];
    if maxIdx[2] == i { tags := tags + [CpuHeavy]; }
    if maxIdx[1] == i { tags := tags + [NeedsHigherPriority]; }
    if maxIdx[0] == i { tags := tags + [Interactive]; }
    if maxIdx[4] == i { tags := tags + [CacheUnfriendly]; }
    if maxIdx[5] == i { tags := tags + [NumaUnfriendly]; }
    if maxIdx[3] == i { tags := tags + [SchedulingLatency]; }
    if |tags| == 0 {
      tags := [Balanced];
    }
  }

  method InferSemantics(centers: seq<Vec>) returns (out: map<nat, seq<Tag>>)
    ensures out == Semantics(centers)
  {
    hide TagsOf, IsArgMax;
    out := map[];
    if centers == [] {
      return;
    }
    var maxIdx: seq<nat> := [];
    for f := 0 to FEATURES
      invariant |maxIdx| == f && forall g :: 0 <= g < f ==> maxIdx[g] == ArgMax(centers, g)
    {
      var best := FindMax(centers, f);
      maxIdx := maxIdx + [best];
    }
    assert maxIdx == Leaders(centers);
    for i := 0 to |centers|
      invariant forall j: nat :: j in out <==> j < i
      invariant forall j: nat :: j < i ==> out[j] == TagsOf(maxIdx, j)
    {
      var tags := ClusterTags(maxIdx, i);
      out := out[i := tags];
    }
  }

  // ---------------------------------------------------------------- the model as a value

  datatype Model = Model(
    nClusters: int,
    data: seq<Vec>,
    centers: seq<Vec>,
    semantics: map<nat, seq<Tag>>,
    fitted: bool)

  function NewModel(n: int): Model { Model(n, [], [], map[], false) }

  function Predicted(m: Model, x: Vec): (cid: int)
  {
    if !m.fitted || m.centers == [] then -1 else KMeans.Nearest(x, m.centers)
  }

  /** The centre nearest to `x` moves a twentieth of the way towards it. */
  function Nudged(c: Vec, x: Vec): Vec
  {
    seq(FEATURES, f requires 0 <= f < FEATURES => c[f] + ETA * (x[f] - c[f]))
  }

  function PartialFitted(m: Model, x: Vec): Model
  {
    var m1 := m.(data := TieredBuffer.AppendBounded(m.data, x, MAX_SAMPLES));
    if Predicted(m, x) < 0 then m1
    else var cid := KMeans.Nearest(x, m.centers); m1.(centers := m.centers[cid := Nudged(m.centers[cid], x)])
  }

  function ClusterCount(m: Model): int
  {
    if m.nClusters > |m.data| then |m.data| else m.nClusters
  }

  function Relabelled(m: Model): Model
  {
    if |m.data| < 2 || ClusterCount(m) <= 0 then m
    else
      var centers := KMeans.Clustered(m.data, ClusterCount(m), ROUNDS);
      m.(centers := centers, semantics := Semantics(centers), fitted := true)
  }

  /** Holds of the model in every reachable state. */
  ghost predicate Ok(m: Model)
  {
    && m.nClusters > 0
    && |m.data| <= MAX_SAMPLES
    && |m.centers| <= m.nClusters && |m.centers| <= |m.data|
    && (m.fitted <==> m.centers != [])
    && (m.fitted ==> Partitions(m.semantics, |m.centers|))
  }

  lemma PartialFitKeepsOk(m: Model, x: Vec)
    requires Ok(m)
    ensures Ok(PartialFitted(m, x))
    ensures |PartialFitted(m, x).centers| == |m.centers| && PartialFitted(m, x).fitted == m.fitted
    ensures |PartialFitted(m, x).data| == if |m.data| < MAX_SAMPLES then |m.data| + 1 else |m.data|
    ensures PartialFitted(m, x).nClusters == m.nClusters
  {
  }

  /** Relabelling keeps the invariant, never loses a centre, and fits any model that has two samples. */
  lemma RelabelKeepsOk(m: Model)
    requires Ok(m)
    ensures Ok(Relabelled(m))
    ensures |Relabelled(m).centers| >= |m.centers|
    ensures |m.data| >= 2 ==> Relabelled(m).fitted
    ensures Relabelled(m).data == m.data && Relabelled(m).nClusters == m.nClusters
  {
    if |m.data| >= 2 {
      SemanticsPartition(Relabelled(m).centers);
    }
  }

  // ---------------------------------------------------------------- the object

  class ClusteringModel {
    const nClusters: int
    var dataBuffer: seq<Vec>
    var clusterCenters: seq<Vec>
    var clusterSemantics: map<nat, seq<Tag>>
    var isFitted: bool

    function View(): Model
      reads this
    {
      Model(nClusters, dataBuffer, clusterCenters, clusterSemantics, isFitted)
    }

    constructor (n: int)
      ensures View() == NewModel(n)
    {
      nClusters := n;
      dataBuffer, clusterCenters, clusterSemantics, isFitted := [], [], map[], false;
    }

    method Predict(x: Vec) returns (cid: int)
      ensures cid == Predicted(View(), x)
    {
      if !isFitted || |clusterCenters| == 0 {
        return -1;
      }
      cid := KMeans.FindNearest(x, clusterCenters);
    }

    method PartialFit(x: Vec)
      modifies this
      ensures View() == PartialFitted(old(View()), x)
    {
      ghost var m := View();
      dataBuffer := TieredBuffer.AppendBounded(dataBuffer, x, MAX_SAMPLES);
      if !isFitted || |clusterCenters| == 0 {
        return;
      }
      var cid := Predict(x);
      var c: Vec := clusterCenters[cid];
      for i := 0 to FEATURES
        invariant forall f :: 0 <= f < i ==> c[f] == Nudged(m.centers[cid], x)[f]
        invariant forall f :: i <= f < FEATURES ==> c[f] == m.centers[cid][f]
      {
        c := c[i := c[i] + ETA * (x[i] - c[i])];
      }
      assert c == Nudged(m.centers[cid], x);
      clusterCenters := clusterCenters[cid := c];
    }

    method SnapshotAndRelabel()
      modifies this
      ensures View() == Relabelled(old(View()))
    {
      hide KMeans.Clustered, KMeans.Inertia, KMeans.Seeds, Semantics;
      if |dataBuffer| < 2 {
        return;
      }
      var k := nClusters;
      if k > |dataBuffer| {
        k := |dataBuffer|;
      }
      if k <= 0 {
        return;
      }
      var centers := KMeans.Run(dataBuffer, k, ROUNDS);
      clusterCenters := centers;
      clusterSemantics := InferSemantics(centers);
      isFitted := true;
    }
  }
}
