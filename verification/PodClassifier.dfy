/**
 The adaptive classifier: per-pod estimator, buffer and phase, all pods feeding one shared
 clustering model.
 */
module PodClassifier {
  import opened RealArith
  import opened Vectors
  import opened Clustering
  import Ewma
  import TieredBuffer

  const DRIFT_THRESHOLD: real := 1.5
  const DRIFT_CONFIRM := 3
  const WARMUP := 10
  const STABLE := 30

  const CPU_HEAVY_NS: real := 10000000.0
  const RATIO: real := 0.5

  datatype Phase = ColdStart | WarmingUp | Stable | Drifting | Transitioning

  // ---------------------------------------------------------------- features

  datatype Metrics = Metrics(
    volCtxSw: nat, involCtxSw: nat, cpuTime: nat, waitTime: nat, runCount: nat,
    smtMigr: nat, l3Migr: nat, numaMigr: nat)

  function MaxReal(a: real, b: real): real { if a >= b then a else b }

  function ComputeFeatures(m: Metrics): (x: Vec)
  {
    var run := MaxReal(m.runCount as real, 1.0);
    var cpu, wait := m.cpuTime as real, m.waitTime as real;
    var crossCache := (m.l3Migr + m.numaMigr) as real;
    [m.volCtxSw as real / run,
     m.involCtxSw as real / run,
     cpu / run,
     wait / MaxReal(cpu + wait, 1.0),
     crossCache / run,
     m.numaMigr as real / MaxReal(crossCache, 0.000000001)]
  }

  /** Features are never negative, and the two shares stay within [0, 1]. */
  lemma FeaturesInRange(m: Metrics)
    ensures forall f :: 0 <= f < FEATURES ==> ComputeFeatures(m)[f] >= 0.0
    ensures ComputeFeatures(m)[3] <= 1.0 && ComputeFeatures(m)[5] <= 1.0
  {
    var x := ComputeFeatures(m);
    var run := MaxReal(m.runCount as real, 1.0);
    var crossCache := (m.l3Migr + m.numaMigr) as real;
    Share(m.volCtxSw as real, run);
    Share(m.involCtxSw as real, run);
    Share(m.cpuTime as real, run);
    Share(m.waitTime as real, MaxReal(m.cpuTime as real + m.waitTime as real, 1.0));
    Share(crossCache, run);
    Share(m.numaMigr as real, MaxReal(crossCache, 0.000000001));
  }

  lemma Share(a: real, b: real)
    requires a >= 0.0 && b > 0.0
    ensures a / b >= 0.0
    ensures a <= b ==> a / b <= 1.0
  {
    assert (a / b) * b == a;
  }

  // ---------------------------------------------------------------- tags of a sample

  function AppendTag(tags: seq<Tag>, t: Tag): seq<Tag> { if t in tags then tags else tags + [t] }

  function TagWhen(tags: seq<Tag>, c: bool, t: Tag): seq<Tag> { if c then AppendTag(tags, t) else tags }

  function RemoveTag(tags: seq<Tag>, t: Tag): (r: seq<Tag>)
  {
    if tags == [] then []
    else if tags[|tags| - 1] == t then RemoveTag(tags[..|tags| - 1], t)
    else RemoveTag(tags[..|tags| - 1], t) + [tags[|tags| - 1]]
  }

  /** The sample exceeds the absolute threshold behind tag `t`. */
  predicate Exceeds(x: Vec, t: Tag)
    requires t in SEMANTIC
  {
    x[FeatureOf(t)] >= if t == CpuHeavy then CPU_HEAVY_NS else RATIO
  }

  function WithThresholds(tags: seq<Tag>, x: Vec): seq<Tag>
  {
    var t1 := TagWhen(tags, x[2] >= CPU_HEAVY_NS, CpuHeavy);
    var t2 := TagWhen(t1, x[0] >= RATIO, Interactive);
    var t3 := TagWhen(t2, x[1] >= RATIO, NeedsHigherPriority);
    var t4 := TagWhen(t3, x[3] >= RATIO, SchedulingLatency);
    var t5 := TagWhen(t4, x[4] >= RATIO, CacheUnfriendly);
    TagWhen(t5, x[5] >= RATIO, NumaUnfriendly)
  }

  function ProfileTags(clusterTags: seq<Tag>, x: Vec): seq<Tag>
  {
    var tags := RemoveTag(WithThresholds(clusterTags, x), Balanced);
    if tags == [] then [Balanced] else tags
  }

  lemma {:induction false} RemoveTagKeepsOthers(tags: seq<Tag>, t: Tag)
    ensures forall u :: u in RemoveTag(tags, t) <==> u in tags && u != t
    ensures NoDuplicates(tags) ==> NoDuplicates(RemoveTag(tags, t))
  {
    if tags != [] {
      var init, last := tags[..|tags| - 1], tags[|tags| - 1];
      assert tags == init + [last];
      RemoveTagKeepsOthers(init, t);
      if NoDuplicates(tags) && last != t {
        assert forall i :: 0 <= i < |init| ==> tags[i] != last;
        assert last !in RemoveTag(init, t);
      }
    }
  }

  lemma TagWhenKeeps(tags: seq<Tag>, c: bool, t: Tag)
    ensures forall u :: u in TagWhen(tags, c, t) <==> u in tags || (c && u == t)
    ensures NoDuplicates(tags) ==> NoDuplicates(TagWhen(tags, c, t))
  {
  }

  lemma ThresholdsAdd(tags: seq<Tag>, x: Vec)
    ensures forall u :: u in WithThresholds(tags, x) <==> u in tags || (u in SEMANTIC && Exceeds(x, u))
    ensures NoDuplicates(tags) ==> NoDuplicates(WithThresholds(tags, x))
  {
    hide TagWhen, NoDuplicates;
    TagWhenKeeps(tags, x[2] >= CPU_HEAVY_NS, CpuHeavy);
    var t1 := TagWhen(tags, x[2] >= CPU_HEAVY_NS, CpuHeavy);
    TagWhenKeeps(t1, x[0] >= RATIO, Interactive);
    var t2 := TagWhen(t1, x[0] >= RATIO, Interactive);
    TagWhenKeeps(t2, x[1] >= RATIO, NeedsHigherPriority);
    var t3 := TagWhen(t2, x[1] >= RATIO, NeedsHigherPriority);
    TagWhenKeeps(t3, x[3] >= RATIO, SchedulingLatency);
    var t4 := TagWhen(t3, x[3] >= RATIO, SchedulingLatency);
    TagWhenKeeps(t4, x[4] >= RATIO, CacheUnfriendly);
    var t5 := TagWhen(t4, x[4] >= RATIO, CacheUnfriendly);
    TagWhenKeeps(t5, x[5] >= RATIO, NumaUnfriendly);
  }

  /** The profile is the cluster's semantic tags plus the exceeded thresholds; "balanced" only ever stands alone. */
  lemma ProfileIsProper(clusterTags: seq<Tag>, x: Vec)
    requires clusterTags == [] || Proper(clusterTags)
    ensures Proper(ProfileTags(clusterTags, x))
    ensures forall t :: t in SEMANTIC ==> (t in ProfileTags(clusterTags, x) <==> t in clusterTags || Exceeds(x, t))
    ensures ProfileTags(clusterTags, x) == [Balanced]
       <==> forall t :: t in SEMANTIC ==> t !in clusterTags && !Exceeds(x, t)
  {
    var all := WithThresholds(clusterTags, x);
    ThresholdsAdd(clusterTags, x);
    RemoveTagKeepsOthers(all, Balanced);
    hide WithThresholds, RemoveTag, Exceeds;
    var kept := RemoveTag(all, Balanced);
    if kept != [] {
      assert kept[0] in kept;
    }
  }

  method ApplyProfileTags(clusterTags: seq<Tag>, x: Vec) returns (tags: seq<Tag>)
    ensures tags == ProfileTags(clusterTags, x)
  {
    tags := clusterTags;
    if x[2] >= CPU_HEAVY_NS { tags := AppendTag(tags, CpuHeavy); }
    if x[0] >= RATIO { tags := AppendTag(tags, Interactive); }
    if x[1] >= RATIO { tags := AppendTag(tags, NeedsHigherPriority); }
    if x[3] >= RATIO { tags := AppendTag(tags, SchedulingLatency); }
    if x[4] >= RATIO { tags := AppendTag(tags, CacheUnfriendly); }
    if x[5] >= RATIO { tags := AppendTag(tags, NumaUnfriendly); }
    assert tags == WithThresholds(clusterTags, x);
    if |tags| > 0 {
      tags := Filter(tags, Balanced);
    }
    if |tags| == 0 {
      tags := [Balanced];
    }
  }

  method Filter(tags: seq<Tag>, t: Tag) returns (out: seq<Tag>)
    ensures out == RemoveTag(tags, t)
  {
    out := [];
    for i := 0 to |tags|
      invariant out == RemoveTag(tags[..i], t)
    {
      assert tags[..i + 1][..i] == tags[..i];
      if tags[i] != t {
        out := out + [tags[i]];
      }
    }
    assert tags[..|tags|] == tags;
  }

  // ---------------------------------------------------------------- one pod as a value

  datatype Pod = Pod(
    ewma: Ewma.Estimator,
    buffer: TieredBuffer.Tiers,
    phase: Phase,
    currentCluster: int, previousCluster: int,
    driftConfirmed: int,
    lastDriftScore: real,
    currentTypes: seq<Tag>, previousTypes: seq<Tag>,
    node: string, lastTimestamp: int)

  const NEW_POD: Pod :=
    Pod(Ewma.FRESH, TieredBuffer.NO_TIERS, ColdStart, -1, -1, 0, 0.0, [Collecting], [], "", 0)

  datatype Input = Input(ts: int, node: string, x: Vec)

  function SemanticsAt(m: Model, cid: int): seq<Tag>
  {
    if cid >= 0 && cid in m.semantics then m.semantics[cid] else []
  }

  /** The state once the sample is recorded, before the phase is decided. */
  function Recorded(p: Pod, i: Input, sqrt: real -> real): Pod
  {
    p.(node := i.node, lastTimestamp := i.ts, ewma := Ewma.Updated(p.ewma, i.x),
       buffer := TieredBuffer.Pushed(p.buffer, TieredBuffer.Sample(i.x, i.ts), sqrt))
  }

  /** Assigns the cluster nearest to `norm`, if there is one. */
  function Classified(p: Pod, m: Model, norm: Vec, x: Vec): Pod
  {
    var cid := Predicted(m, norm);
    if cid >= 0 then p.(currentCluster := cid, currentTypes := ProfileTags(SemanticsAt(m, cid), x)) else p
  }

  function AfterColdStart(p: Pod, sqrt: real -> real): Pod
    requires IsSqrt(sqrt) && Ewma.Sound(p.ewma)
  {
    p.(phase := ColdStart, currentTypes := [Collecting], lastDriftScore := Ewma.Drift(p.ewma, sqrt))
  }

  function AfterWarmup(p: Pod, m: Model, norm: Vec, x: Vec, sqrt: real -> real): (Pod, Model)
    requires IsSqrt(sqrt) && Ewma.Sound(p.ewma)
  {
    var p1 := p.(phase := WarmingUp, lastDriftScore := Ewma.Drift(p.ewma, sqrt));
    var m1 := if !m.fitted && |m.data| >= STABLE then Relabelled(m) else m;
    if m1.fitted then (Classified(p1, m1, norm, x), m1)
    else (p1.(currentTypes := ProfileTags([], x)), m1)
  }

  function AfterTransition(p: Pod, m: Model, norm: Vec, x: Vec): (Pod, Model)
  {
    var m1 := Relabelled(m);
    var cid := Predicted(m1, norm);
    (p.(phase := Transitioning,
        previousCluster := p.currentCluster,
        previousTypes := if p.currentCluster >= 0 then SemanticsAt(m, p.currentCluster) else p.previousTypes,
        currentCluster := cid,
        currentTypes := ProfileTags(SemanticsAt(m1, cid), x),
        driftConfirmed := 0),
     m1)
  }

  /** The decision on a drift score, once a pod is past its warm-up. */
  function Decided(p: Pod, m: Model, norm: Vec, x: Vec, drift: real): (Pod, Model)
  {
    if drift > DRIFT_THRESHOLD then
      if p.driftConfirmed + 1 >= DRIFT_CONFIRM then AfterTransition(p, m, norm, x)
      else (p.(driftConfirmed := p.driftConfirmed + 1, phase := Drifting), m)
    else (Classified(p.(driftConfirmed := 0, phase := Stable), m, norm, x), m)
  }

  function AfterStable(p: Pod, m: Model, norm: Vec, x: Vec, sqrt: real -> real): (Pod, Model)
    requires IsSqrt(sqrt) && Ewma.Sound(p.ewma)
  {
    var drift := Ewma.Drift(p.ewma, sqrt);
    Decided(p.(lastDriftScore := drift), if !m.fitted then Relabelled(m) else m, norm, x, drift)
  }

  /** One sample of one pod, against the shared model. */
  function UpdatedPod(p: Pod, m: Model, i: Input, sqrt: real -> real): (Pod, Model)
    requires IsSqrt(sqrt) && Ewma.Sound(p.ewma)
  {
    Ewma.UpdatedIsSound(p.ewma, i.x);
    var norm := Ewma.Normalized(p.ewma, sqrt, i.x);
    var p1 := Recorded(p, i, sqrt);
    var m1 := PartialFitted(m, norm);
    if p1.ewma.updateCount < WARMUP then (AfterColdStart(p1, sqrt), m1)
    else if p1.ewma.updateCount < STABLE then AfterWarmup(p1, m1, norm, i.x, sqrt)
    else AfterStable(p1, m1, norm, i.x, sqrt)
  }

  // ---------------------------------------------------------------- what every sample keeps

  ghost predicate ProperTypes(tags: seq<Tag>) { tags == [Collecting] || Proper(tags) }

  /** Holds of every pod in every reachable state, relative to the shared model. */
  ghost predicate PodOk(p: Pod, m: Model)
  {
    && Ewma.Sound(p.ewma) && (p.ewma.initialized <==> p.ewma.updateCount > 0)
    && (|m.data| >= p.ewma.updateCount || |m.data| == MAX_SAMPLES)
    && -1 <= p.currentCluster < |m.centers|
    && -1 <= p.previousCluster < |m.centers|
    && 0 <= p.driftConfirmed < DRIFT_CONFIRM
    && (p.driftConfirmed > 0 <==> p.phase == Drifting)
    && (p.phase == ColdStart <==> p.ewma.updateCount < WARMUP)
    && (p.phase == WarmingUp <==> WARMUP <= p.ewma.updateCount < STABLE)
    && (p.ewma.updateCount >= STABLE ==> m.fitted)
    && ProperTypes(p.currentTypes)
    && (p.previousTypes == [] || Proper(p.previousTypes))
  }

  /** The shared model may only have moved on: no fewer centres, no fewer samples, still fitted. */
  ghost predicate Later(m: Model, n: Model)
  {
    |n.centers| >= |m.centers| && |n.data| >= |m.data| && (m.fitted ==> n.fitted) && n.nClusters == m.nClusters
  }

  lemma OtherPodsStayOk(p: Pod, m: Model, n: Model)
    requires PodOk(p, m) && Ok(m) && Ok(n) && Later(m, n)
    ensures PodOk(p, n)
  {
  }

  lemma ClassifiedIsOk(p: Pod, m: Model, norm: Vec, x: Vec)
    requires PodOk(p, m) && Ok(m)
    ensures PodOk(Classified(p, m, norm, x), m)
  {
    hide ProfileTags, Proper, Ewma.Sound;
    if m.fitted { PredictionIsProper(m, norm, x); }
  }

  lemma TransitionIsOk(p: Pod, m: Model, norm: Vec, x: Vec)
    requires PodOk(p.(driftConfirmed := 0, phase := Stable), m) && Ok(m) && m.fitted
    ensures var (q, n) := AfterTransition(p, m, norm, x); PodOk(q, n) && Ok(n) && Later(m, n)
  {
    hide Relabelled, ProfileTags, Proper, Ewma.Sound;
    RelabelKeepsOk(m);
    var n := Relabelled(m);
    PredictionIsProper(n, norm, x);
    if p.currentCluster >= 0 { SemanticsAreProper(m, p.currentCluster); }
    hide Predicted, SemanticsAt, Partitions;
  }

  lemma SemanticsAreProper(m: Model, cid: nat)
    requires Ok(m) && cid < |m.centers|
    ensures Proper(SemanticsAt(m, cid))
  {
    hide Proper;
  }

  /** A fitted model predicts one of its clusters, and the tags it yields are proper. */
  lemma PredictionIsProper(m: Model, norm: Vec, x: Vec)
    requires Ok(m) && m.fitted
    ensures 0 <= Predicted(m, norm) < |m.centers|
    ensures Proper(ProfileTags(SemanticsAt(m, Predicted(m, norm)), x))
  {
    var cid := Predicted(m, norm);
    SemanticsAreProper(m, cid);
    hide Proper, SemanticsAt, ProfileTags;
    ProfileIsProper(SemanticsAt(m, cid), x);
  }

  /** Between recording a sample and deciding the phase. */
  ghost predicate MidOk(p: Pod, m: Model)
  {
    && Ewma.Sound(p.ewma) && (p.ewma.initialized <==> p.ewma.updateCount > 0)
    && (|m.data| >= p.ewma.updateCount || |m.data| == MAX_SAMPLES)
    && -1 <= p.currentCluster < |m.centers|
    && -1 <= p.previousCluster < |m.centers|
    && 0 <= p.driftConfirmed < DRIFT_CONFIRM
    && (p.driftConfirmed > 0 ==> p.ewma.updateCount > STABLE)
    && ProperTypes(p.currentTypes)
    && (p.previousTypes == [] || Proper(p.previousTypes))
  }

  lemma RecordedIsMidOk(p: Pod, m: Model, i: Input, norm: Vec, sqrt: real -> real)
    requires PodOk(p, m) && Ok(m)
    ensures var q, n := Recorded(p, i, sqrt), PartialFitted(m, norm);
            MidOk(q, n) && Ok(n) && Later(m, n) && q.ewma.updateCount == p.ewma.updateCount + 1
  {
    PartialFitKeepsOk(m, norm);
    Ewma.UpdatedIsSound(p.ewma, i.x);
  }

  lemma ColdStartIsOk(p: Pod, m: Model, sqrt: real -> real)
    requires IsSqrt(sqrt) && MidOk(p, m) && p.ewma.updateCount < WARMUP
    ensures PodOk(AfterColdStart(p, sqrt), m) && AfterColdStart(p, sqrt).ewma == p.ewma
  {
  }

  lemma LaterIsReflexive(m: Model)
    ensures Later(m, m)
  {
  }

  lemma LaterIsTransitive(m: Model, n: Model, o: Model)
    requires Later(m, n) && Later(n, o)
    ensures Later(m, o)
  {
  }

  lemma WarmupIsOk(p: Pod, m: Model, norm: Vec, x: Vec, sqrt: real -> real)
    requires IsSqrt(sqrt) && MidOk(p, m) && Ok(m) && WARMUP <= p.ewma.updateCount < STABLE
    ensures var (q, n) := AfterWarmup(p, m, norm, x, sqrt);
            PodOk(q, n) && Ok(n) && Later(m, n) && q.ewma == p.ewma
  {
    hide Relabelled, ProfileTags, Predicted, Ewma.Sound, Ewma.Drift, Partitions, Proper;
    RelabelKeepsOk(m);
    var n := if !m.fitted && |m.data| >= STABLE then Relabelled(m) else m;
    var p1 := p.(phase := WarmingUp, lastDriftScore := Ewma.Drift(p.ewma, sqrt));
    if n.fitted {
      ClassifiedIsOk(p1, n, norm, x);
    } else {
      ProfileIsProper([], x);
    }
  }

  lemma DecidedIsOk(p: Pod, m: Model, norm: Vec, x: Vec, drift: real)
    requires MidOk(p, m) && Ok(m) && m.fitted && p.ewma.updateCount >= STABLE
    ensures var (q, n) := Decided(p, m, norm, x, drift);
            PodOk(q, n) && Ok(n) && Later(m, n) && q.ewma == p.ewma
  {
    if drift <= DRIFT_THRESHOLD {
      ClassifiedIsOk(p.(driftConfirmed := 0, phase := Stable), m, norm, x);
    } else if p.driftConfirmed + 1 >= DRIFT_CONFIRM {
      TransitionIsOk(p, m, norm, x);
    }
  }

  lemma StableIsOk(p: Pod, m: Model, norm: Vec, x: Vec, sqrt: real -> real)
    requires IsSqrt(sqrt) && MidOk(p, m) && Ok(m) && p.ewma.updateCount >= STABLE
    ensures var (q, n) := AfterStable(p, m, norm, x, sqrt);
            PodOk(q, n) && Ok(n) && Later(m, n) && q.ewma == p.ewma
  {
    RelabelKeepsOk(m);
    var n := if !m.fitted then Relabelled(m) else m;
    var drift := Ewma.Drift(p.ewma, sqrt);
    DecidedIsOk(p.(lastDriftScore := drift), n, norm, x, drift);
    hide Decided, Relabelled;
  }

  /** One sample keeps the pod and the model sound, and the model only moves on. */
  lemma UpdateKeepsOk(p: Pod, m: Model, i: Input, sqrt: real -> real)
    requires IsSqrt(sqrt) && PodOk(p, m) && Ok(m)
    ensures var (q, n) := UpdatedPod(p, m, i, sqrt);
            PodOk(q, n) && Ok(n) && Later(m, n) && q.ewma.updateCount == p.ewma.updateCount + 1
  {
    var norm := Ewma.Normalized(p.ewma, sqrt, i.x);
    RecordedIsMidOk(p, m, i, norm, sqrt);
    var q, n := Recorded(p, i, sqrt), PartialFitted(m, norm);
    hide PodOk, MidOk, Ok, Later, PartialFitted, AfterColdStart, AfterWarmup, AfterStable;
    if q.ewma.updateCount < WARMUP {
      ColdStartIsOk(q, n, sqrt);
    } else if q.ewma.updateCount < STABLE {
      WarmupIsOk(q, n, norm, i.x, sqrt);
      LaterIsTransitive(m, n, AfterWarmup(q, n, norm, i.x, sqrt).1);
    } else {
      StableIsOk(q, n, norm, i.x, sqrt);
      LaterIsTransitive(m, n, AfterStable(q, n, norm, i.x, sqrt).1);
    }
  }

  // ---------------------------------------------------------------- the phase automaton over a pod's samples

  /** One sample of a pod together with the shared model it met; other pods move the model in between. */
  datatype Sighting = Sighting(input: Input, model: Model)

  lemma UpdatedEwma(p: Pod, m: Model, i: Input, sqrt: real -> real)
    requires IsSqrt(sqrt) && Ewma.Sound(p.ewma)
    ensures UpdatedPod(p, m, i, sqrt).0.ewma == Ewma.Updated(p.ewma, i.x)
    ensures Ewma.Sound(Ewma.Updated(p.ewma, i.x))
  {
    Ewma.UpdatedIsSound(p.ewma, i.x);
    hide PartialFitted, Relabelled, Predicted, ProfileTags, Ewma.Updated, Ewma.Normalized, Ewma.Sound;
  }

  /** The pod after the given samples, whatever the shared model was at each of them. */
  function PodAfter(run: seq<Sighting>, sqrt: real -> real): (p: Pod)
    requires IsSqrt(sqrt)
    ensures Ewma.Sound(p.ewma)
  {
    if run == [] then NEW_POD
    else
      var p, s := PodAfter(run[..|run| - 1], sqrt), run[|run| - 1];
      UpdatedEwma(p, s.model, s.input, sqrt);
      UpdatedPod(p, s.model, s.input, sqrt).0
  }

  /** The part of a pod's state that the automaton reads. */
  ghost predicate PhaseOk(p: Pod, n: nat)
  {
    && p.ewma.updateCount == n && (p.ewma.initialized <==> n > 0)
    && 0 <= p.driftConfirmed < DRIFT_CONFIRM
    && (p.driftConfirmed > 0 <==> p.phase == Drifting)
    && (p.phase == ColdStart <==> n < WARMUP)
    && (p.phase == WarmingUp <==> WARMUP <= n < STABLE)
  }

  lemma DecidedPhase(p: Pod, m: Model, norm: Vec, x: Vec, drift: real)
    requires 0 <= p.driftConfirmed < DRIFT_CONFIRM
    ensures var q := Decided(p, m, norm, x, drift).0;
            && q.ewma == p.ewma
            && 0 <= q.driftConfirmed < DRIFT_CONFIRM
            && (q.driftConfirmed > 0 <==> q.phase == Drifting)
            && (q.phase == Drifting ==> q.driftConfirmed == p.driftConfirmed + 1)
            && (q.phase == Transitioning ==> p.driftConfirmed == DRIFT_CONFIRM - 1)
            && (q.phase == Stable <==> drift <= DRIFT_THRESHOLD)
            && q.phase in {Stable, Drifting, Transitioning}
  {
    hide Relabelled, Predicted, ProfileTags;
  }

  /** How one sample moves the automaton: counted streaks of drift, nothing else. */
  lemma PhaseStep(p: Pod, m: Model, i: Input, sqrt: real -> real, n: nat)
    requires IsSqrt(sqrt) && Ewma.Sound(p.ewma) && PhaseOk(p, n)
    ensures var q := UpdatedPod(p, m, i, sqrt).0;
            && Ewma.Sound(q.ewma)
            && PhaseOk(q, n + 1)
            && (q.phase == Drifting ==> q.driftConfirmed == p.driftConfirmed + 1)
            && (q.phase == Transitioning ==> p.driftConfirmed == DRIFT_CONFIRM - 1)
            && (q.phase == Stable <==> n + 1 >= STABLE && Ewma.Drift(q.ewma, sqrt) <= DRIFT_THRESHOLD)
  {
    hide PartialFitted, Relabelled, Predicted, ProfileTags, Decided, Ewma.Normalized, Ewma.Drift, Ewma.Sound,
         TieredBuffer.Pushed, IsSqrt;
    UpdatedEwma(p, m, i, sqrt);
    UpdatedCounts(p.ewma, i.x);
    hide Ewma.Updated;
    var norm := Ewma.Normalized(p.ewma, sqrt, i.x);
    var p1, m1 := Recorded(p, i, sqrt), PartialFitted(m, norm);
    var drift := Ewma.Drift(p1.ewma, sqrt);
    DecidedPhase(p1.(lastDriftScore := drift), if !m1.fitted then Relabelled(m1) else m1, norm, i.x, drift);
  }

  lemma UpdatedCounts(e: Ewma.Estimator, x: Vec)
    requires e.initialized <==> e.updateCount > 0
    ensures Ewma.Updated(e, x).initialized && Ewma.Updated(e, x).updateCount == e.updateCount + 1
  {
  }

  /**
   Over every run of samples: the phase is cold_start before sample 10, warming_up before sample 30 and
   neither ever after; the drift counter stays below 3 and is positive exactly while drifting.
   */
  lemma {:induction false} PhaseLaws(run: seq<Sighting>, sqrt: real -> real)
    requires IsSqrt(sqrt)
    ensures PhaseOk(PodAfter(run, sqrt), |run|)
  {
    if run != [] {
      var init, s := run[..|run| - 1], run[|run| - 1];
      PhaseLaws(init, sqrt);
      PhaseStep(PodAfter(init, sqrt), s.model, s.input, sqrt, |init|);
      hide UpdatedPod;
    }
  }

  /** The drift counter counts: each drifting sample raises it by one. */
  lemma DriftCounts(run: seq<Sighting>, sqrt: real -> real)
    requires IsSqrt(sqrt) && run != []
    ensures var before, now := PodAfter(run[..|run| - 1], sqrt), PodAfter(run, sqrt);
            && (now.phase == Drifting ==> now.driftConfirmed == before.driftConfirmed + 1)
            && (now.phase == Transitioning ==> before.driftConfirmed == DRIFT_CONFIRM - 1)
  {
    hide UpdatedPod;
    var init, s := run[..|run| - 1], run[|run| - 1];
    PhaseLaws(init, sqrt);
    PhaseStep(PodAfter(init, sqrt), s.model, s.input, sqrt, |init|);
  }

  /** A transition comes directly after two drifting samples, so never before sample 32. */
  lemma TransitionIsPreceded(run: seq<Sighting>, sqrt: real -> real)
    requires IsSqrt(sqrt)
    ensures PodAfter(run, sqrt).phase == Transitioning ==>
              && |run| > STABLE + 1
              && PodAfter(run[..|run| - 1], sqrt).phase == Drifting
              && PodAfter(run[..|run| - 2], sqrt).phase == Drifting
  {
    hide UpdatedPod;
    PhaseLaws(run, sqrt);
    if PodAfter(run, sqrt).phase == Transitioning {
      var one := run[..|run| - 1];
      PhaseLaws(one, sqrt);
      DriftCounts(run, sqrt);
      DriftCounts(one, sqrt);
      var two := one[..|one| - 1];
      assert two == run[..|run| - 2];
      PhaseLaws(two, sqrt);
    }
  }

  lemma {:induction false} ConstantMeans(run: seq<Sighting>, sqrt: real -> real, c: Vec)
    requires IsSqrt(sqrt) && run != [] && forall i :: 0 <= i < |run| ==> run[i].input.x == c
    ensures PodAfter(run, sqrt).ewma.shortMean == c && PodAfter(run, sqrt).ewma.longMean == c
  {
    var init, s := run[..|run| - 1], run[|run| - 1];
    var p := PodAfter(init, sqrt);
    PhaseLaws(init, sqrt);
    UpdatedEwma(p, s.model, s.input, sqrt);
    hide UpdatedPod;
    if init != [] {
      ConstantMeans(init, sqrt, c);
      assert Ewma.StepMeans(Ewma.SHORT_ALPHA, c, c) == c;
      assert Ewma.StepMeans(Ewma.LONG_ALPHA, c, c) == c;
    }
  }

  /** A pod whose features never change is stable from its 30th sample on. */
  lemma ConstantPodIsStable(run: seq<Sighting>, sqrt: real -> real, c: Vec)
    requires IsSqrt(sqrt) && |run| >= STABLE && forall i :: 0 <= i < |run| ==> run[i].input.x == c
    ensures PodAfter(run, sqrt).phase == Stable
  {
    var init, s := run[..|run| - 1], run[|run| - 1];
    PhaseLaws(init, sqrt);
    PhaseLaws(run, sqrt);
    ConstantMeans(run, sqrt, c);
    Ewma.DriftZeroIff(PodAfter(run, sqrt).ewma, sqrt);
    PhaseStep(PodAfter(init, sqrt), s.model, s.input, sqrt, |init|);
    hide UpdatedPod;
  }

  // ---------------------------------------------------------------- a pod's history

  function FeaturesOf(run: seq<Sighting>): (xs: seq<Vec>)
    ensures |xs| == |run|
  {
    seq(|run|, i requires 0 <= i < |run| => run[i].input.x)
  }

  function SamplesOf(run: seq<Sighting>): (hist: seq<TieredBuffer.Sample>)
    ensures |hist| == |run|
  {
    seq(|run|, i requires 0 <= i < |run| => TieredBuffer.Sample(run[i].input.x, run[i].input.ts))
  }

  lemma UpdatedBuffer(p: Pod, m: Model, i: Input, sqrt: real -> real)
    requires IsSqrt(sqrt) && Ewma.Sound(p.ewma)
    ensures UpdatedPod(p, m, i, sqrt).0.buffer == TieredBuffer.Pushed(p.buffer, TieredBuffer.Sample(i.x, i.ts), sqrt)
  {
    Ewma.UpdatedIsSound(p.ewma, i.x);
    hide PartialFitted, Relabelled, Predicted, ProfileTags;
    hide Ewma.Updated, Ewma.Normalized, Ewma.Sound, TieredBuffer.Pushed;
  }

  /** Estimator and buffer are folds over the pod's own samples, whatever the shared model was. */
  lemma {:induction false} PodRemembersItsSamples(run: seq<Sighting>, sqrt: real -> real)
    requires IsSqrt(sqrt)
    ensures PodAfter(run, sqrt).ewma == Ewma.UpdateAll(FeaturesOf(run))
    ensures PodAfter(run, sqrt).buffer == TieredBuffer.PushAll(SamplesOf(run), sqrt)
  {
    if run != [] {
      hide UpdatedPod, Ewma.Updated, Ewma.Sound, TieredBuffer.Pushed, IsSqrt;
      var init, s := run[..|run| - 1], run[|run| - 1];
      PodRemembersItsSamples(init, sqrt);
      UpdatedEwma(PodAfter(init, sqrt), s.model, s.input, sqrt);
      UpdatedBuffer(PodAfter(init, sqrt), s.model, s.input, sqrt);
      HistoryOfLast(run);
      hide FeaturesOf, SamplesOf;
    }
  }

  lemma HistoryOfLast(run: seq<Sighting>)
    requires run != []
    ensures
      var n := |run| - 1;
      && FeaturesOf(run)[..n] == FeaturesOf(run[..n]) && FeaturesOf(run)[n] == run[n].input.x
      && SamplesOf(run)[..n] == SamplesOf(run[..n])
      && SamplesOf(run)[n] == TieredBuffer.Sample(run[n].input.x, run[n].input.ts)
  {
  }

  // ---------------------------------------------------------------- many pods, one model

  datatype System = System(pods: map<string, Pod>, model: Model)

  /** A sample for one pod, or the eviction of any set of pods (expired, or the oldest beyond the limit). */
  datatype Event = Ingest(key: string, input: Input) | Evict(keys: set<string>)

  function NewSystem(nClusters: int): System
  {
    System(map[], NewModel(if nClusters <= 0 then 5 else nClusters))
  }

  function PodOf(s: System, key: string): Pod { if key in s.pods then s.pods[key] else NEW_POD }

  ghost predicate SystemOk(s: System)
  {
    Ok(s.model) && forall k :: k in s.pods ==> PodOk(s.pods[k], s.model)
  }

  function Next(s: System, e: Event, sqrt: real -> real): System
    requires IsSqrt(sqrt) && forall k :: k in s.pods ==> Ewma.Sound(s.pods[k].ewma)
  {
    match e
    case Ingest(key, input) =>
      var (p, m) := UpdatedPod(PodOf(s, key), s.model, input, sqrt);
      System(s.pods[key := p], m)
    case Evict(keys) => s.(pods := s.pods - keys)
  }

  lemma EvictKeepsOk(s: System, keys: set<string>)
    requires SystemOk(s)
    ensures SystemOk(System(s.pods - keys, s.model))
  {
  }

  lemma NextKeepsOk(s: System, e: Event, sqrt: real -> real)
    requires IsSqrt(sqrt) && SystemOk(s)
    ensures SystemOk(Next(s, e, sqrt)) && Later(s.model, Next(s, e, sqrt).model)
  {
    match e
    case Evict(_) =>
    case Ingest(key, input) =>
      var p := PodOf(s, key);
      UpdateKeepsOk(p, s.model, input, sqrt);
      var (q, n) := UpdatedPod(p, s.model, input, sqrt);
      hide UpdatedPod;
      forall k | k in s.pods && k != key
        ensures PodOk(s.pods[k], n)
      {
        OtherPodsStayOk(s.pods[k], s.model, n);
      }
  }

  /** The system after a run of events; every prefix of it is a reachable state. */
  function After(nClusters: int, events: seq<Event>, sqrt: real -> real): (s: System)
    requires IsSqrt(sqrt)
    ensures SystemOk(s)
  {
    if events == [] then NewSystem(nClusters)
    else
      var s, e := After(nClusters, events[..|events| - 1], sqrt), events[|events| - 1];
      NextKeepsOk(s, e, sqrt);
      Next(s, e, sqrt)
  }

  /** In every reachable state each pod and the model are sound, and along the run no centre is ever lost. */
  lemma {:induction false} EveryRunIsSound(nClusters: int, events: seq<Event>, i: nat, sqrt: real -> real)
    requires IsSqrt(sqrt) && i <= |events|
    ensures SystemOk(After(nClusters, events, sqrt))
    ensures Later(After(nClusters, events[..i], sqrt).model, After(nClusters, events, sqrt).model)
  {
    hide Next, Later, SystemOk;
    var n := |events|;
    if i == n {
      LaterIsReflexive(After(nClusters, events, sqrt).model);
      assert events[..i] == events;
    } else {
      var init := events[..n - 1];
      EveryRunIsSound(nClusters, init, i, sqrt);
      assert init[..i] == events[..i];
      NextKeepsOk(After(nClusters, init, sqrt), events[n - 1], sqrt);
      LaterIsTransitive(After(nClusters, events[..i], sqrt).model, After(nClusters, init, sqrt).model,
                        After(nClusters, events, sqrt).model);
    }
  }

  /** The samples of one pod within a run, since it was last created, each with the model it met. */
  function Sightings(nClusters: int, events: seq<Event>, key: string, sqrt: real -> real): seq<Sighting>
    requires IsSqrt(sqrt)
  {
    if events == [] then []
    else
      var init, e := events[..|events| - 1], events[|events| - 1];
      var before := Sightings(nClusters, init, key, sqrt);
      match e
      case Ingest(k, input) =>
        if k == key then before + [Sighting(input, After(nClusters, init, sqrt).model)] else before
      case Evict(keys) => if key in keys then [] else before
  }

  /** A pod of the shared system is exactly the automaton run on its own sightings. */
  lemma {:induction false} PodsFollowTheAutomaton(nClusters: int, events: seq<Event>, key: string, sqrt: real -> real)
    requires IsSqrt(sqrt)
    ensures PodOf(After(nClusters, events, sqrt), key) == PodAfter(Sightings(nClusters, events, key, sqrt), sqrt)
    ensures key in After(nClusters, events, sqrt).pods <==> Sightings(nClusters, events, key, sqrt) != []
  {
    if events != [] {
      hide UpdatedPod, SystemOk, IsSqrt;
      var init, e := events[..|events| - 1], events[|events| - 1];
      PodsFollowTheAutomaton(nClusters, init, key, sqrt);
      OnePodAfter(nClusters, events, key, sqrt);
      hide After;
      if e.Ingest? && e.key == key {
        var before := Sightings(nClusters, init, key, sqrt);
        PodAfterMore(before, Sighting(e.input, After(nClusters, init, sqrt).model), sqrt);
      }
      hide PodAfter;
    }
  }

  /** What the last event of a run does to one pod. */
  lemma OnePodAfter(nClusters: int, events: seq<Event>, key: string, sqrt: real -> real)
    requires IsSqrt(sqrt) && events != []
    ensures
      var before, e := After(nClusters, events[..|events| - 1], sqrt), events[|events| - 1];
      var now, p := After(nClusters, events, sqrt), PodOf(before, key);
      && Ewma.Sound(p.ewma)
      && (key in now.pods <==> if e.Ingest? then e.key == key || key in before.pods
                               else key in before.pods && key !in e.keys)
      && PodOf(now, key) == if e.Ingest? && e.key == key then UpdatedPod(p, before.model, e.input, sqrt).0
                            else if e.Evict? && key in e.keys then NEW_POD else p
  {
    hide UpdatedPod, IsSqrt;
    var before := After(nClusters, events[..|events| - 1], sqrt);
    PodOfIsSound(before, key);
    hide SystemOk;
  }

  lemma PodOfIsSound(s: System, key: string)
    requires SystemOk(s)
    ensures Ewma.Sound(PodOf(s, key).ewma)
  {
    if key in s.pods { assert PodOk(s.pods[key], s.model); }
  }

  lemma PodsAreSound(s: System)
    requires SystemOk(s)
    ensures forall k :: k in s.pods ==> Ewma.Sound(s.pods[k].ewma)
  {
  }

  lemma PodAfterMore(run: seq<Sighting>, s: Sighting, sqrt: real -> real)
    requires IsSqrt(sqrt)
    ensures PodAfter(run + [s], sqrt) == UpdatedPod(PodAfter(run, sqrt), s.model, s.input, sqrt).0
  {
    hide UpdatedPod, IsSqrt;
    assert (run + [s])[..|run|] == run;
  }

  /**
   Hence in every reachable state every pod's estimator and buffer hold what its own samples since its creation
   say: closed-form means and variances, a mixed-radix pending counter, and tiers of recent exact blocks.
   */
  lemma EveryPodHoldsItsHistory(nClusters: int, events: seq<Event>, key: string, sqrt: real -> real, f: nat)
    requires IsSqrt(sqrt) && f < FEATURES
    ensures
      var pods, run := After(nClusters, events, sqrt).pods, Sightings(nClusters, events, key, sqrt);
      key in pods ==> HoldsHistory(pods[key], run, f)
  {
    var run := Sightings(nClusters, events, key, sqrt);
    PodsFollowTheAutomaton(nClusters, events, key, sqrt);
    hide After, Sightings;
    if run != [] { PodHoldsItsHistory(run, sqrt, f); }
  }

  ghost predicate HoldsHistory(p: Pod, run: seq<Sighting>, f: nat)
    requires f < FEATURES
  {
    var c, hist, n := Column(FeaturesOf(run), f), SamplesOf(run), |run|;
    && n > 0
    && Ewma.ClosedForm(Ewma.SHORT_ALPHA, c, p.ewma.shortMean[f], p.ewma.shortVar[f])
    && Ewma.ClosedForm(Ewma.LONG_ALPHA, c, p.ewma.longMean[f], p.ewma.longVar[f])
    && |p.buffer.pending1| == n % 2 && |p.buffer.pending2| == n / 2 % 5 && |p.buffer.pending3| == n / 10 % 6
    && TieredBuffer.RecentBlocks(p.buffer.tier1, hist, 2)
    && TieredBuffer.RecentBlocks(p.buffer.tier2, hist, 10)
    && TieredBuffer.RecentBlocks(p.buffer.tier3, hist, 60)
  }

  lemma PodHoldsItsHistory(run: seq<Sighting>, sqrt: real -> real, f: nat)
    requires IsSqrt(sqrt) && f < FEATURES && run != []
    ensures HoldsHistory(PodAfter(run, sqrt), run, f)
  {
    hide *;
    PodRemembersItsSamples(run, sqrt);
    Ewma.EveryHistoryHasClosedForm(FeaturesOf(run), f);
    TieredBuffer.PendingIsMixedRadix(SamplesOf(run), sqrt);
    TieredBuffer.TiersAreRecentBlocks(SamplesOf(run), sqrt);
    HistoryUnfolds(PodAfter(run, sqrt), run, f);
  }

  lemma HistoryUnfolds(p: Pod, run: seq<Sighting>, f: nat)
    requires f < FEATURES && run != []
    ensures
      var c, hist, n := Column(FeaturesOf(run), f), SamplesOf(run), |run|;
      Ewma.ClosedForm(Ewma.SHORT_ALPHA, c, p.ewma.shortMean[f], p.ewma.shortVar[f])
      && Ewma.ClosedForm(Ewma.LONG_ALPHA, c, p.ewma.longMean[f], p.ewma.longVar[f])
      && |p.buffer.pending1| == n % 2 && |p.buffer.pending2| == n / 2 % 5 && |p.buffer.pending3| == n / 10 % 6
      && TieredBuffer.RecentBlocks(p.buffer.tier1, hist, 2)
      && TieredBuffer.RecentBlocks(p.buffer.tier2, hist, 10)
      && TieredBuffer.RecentBlocks(p.buffer.tier3, hist, 60)
      ==> HoldsHistory(p, run, f)
  {
    hide Ewma.ClosedForm, TieredBuffer.RecentBlocks;
  }

  // ---------------------------------------------------------------- eviction

  const POD_TTL := 1800
  const MAX_PODS := 20000

  predicate Expired(ts: int, now: int, ttl: int) { ttl > 0 && 0 < ts < now - ttl }

  /** `keep` drops every expired pod, then the oldest ones beyond the limit, and nothing else. */
  ghost predicate Survivors(stamps: map<string, int>, now: int, ttl: int, maxPods: int, keep: set<string>)
  {
    var alive := set k | k in stamps && !Expired(stamps[k], now, ttl);
    && keep <= alive
    && (maxPods <= 0 || |alive| <= maxPods ==> keep == alive)
    && (0 < maxPods < |alive| ==> |keep| == maxPods)
    && forall j, k :: j in alive && j !in keep && k in keep ==> stamps[j] <= stamps[k]
  }

  function StampsOf(pods: map<string, Pod>): map<string, int> { map k | k in pods :: pods[k].lastTimestamp }

  lemma SurvivorsAreKnown(pods: map<string, Pod>, now: int, keep: set<string>)
    requires Survivors(StampsOf(pods), now, POD_TTL, MAX_PODS, keep)
    ensures keep <= pods.Keys
  {
  }

  method Oldest(stamps: map<string, int>, keys: set<string>) returns (oldest: string)
    requires keys != {} && keys <= stamps.Keys
    ensures oldest in keys && forall k :: k in keys ==> stamps[oldest] <= stamps[k]
  {
    oldest :| oldest in keys;
    var rest := keys - {oldest};
    while rest != {}
      invariant rest <= keys && oldest in keys
      invariant forall k :: k in keys - rest ==> stamps[oldest] <= stamps[k]
      decreases |rest|
    {
      var k :| k in rest;
      if stamps[k] < stamps[oldest] {
        oldest := k;
      }
      rest := rest - {k};
    }
  }

  method SelectSurvivors(stamps: map<string, int>, now: int, ttl: int, maxPods: int) returns (keep: set<string>)
    ensures Survivors(stamps, now, ttl, maxPods, keep)
  {
    keep := set k | k in stamps && !Expired(stamps[k], now, ttl);
    ghost var alive := keep;
    if maxPods <= 0 || |keep| <= maxPods {
      return;
    }
    while |keep| > maxPods
      invariant keep <= alive && |keep| >= maxPods
      invariant forall j, k :: j in alive && j !in keep && k in keep ==> stamps[j] <= stamps[k]
    {
      var k := Oldest(stamps, keep);
      keep := keep - {k};
    }
  }

  // ---------------------------------------------------------------- the objects

  class PodState {
    const ewma: Ewma.EwmaState
    const buffer: TieredBuffer.Buffer
    var phase: Phase
    var currentCluster: int
    var previousCluster: int
    var driftConfirmed: int
    var lastDriftScore: real
    var currentTypes: seq<Tag>
    var previousTypes: seq<Tag>
    var node: string
    var lastTimestamp: int

    function View(): Pod
      reads this, ewma, buffer
    {
      Pod(ewma.View(), buffer.View(), phase, currentCluster, previousCluster, driftConfirmed, lastDriftScore,
          currentTypes, previousTypes, node, lastTimestamp)
    }

    constructor ()
      ensures View() == NEW_POD && fresh(ewma) && fresh(buffer)
    {
      ewma := new Ewma.EwmaState();
      buffer := new TieredBuffer.Buffer();
      phase, currentCluster, previousCluster := ColdStart, -1, -1;
      driftConfirmed, lastDriftScore := 0, 0.0;
      currentTypes, previousTypes := [Collecting], [];
      node, lastTimestamp := "", 0;
    }

    method Classify(model: ClusteringModel, norm: Vec, x: Vec)
      modifies this
      ensures View() == Classified(old(View()), model.View(), norm, x)
    {
      var cid := model.Predict(norm);
      if cid >= 0 {
        currentCluster := cid;
        currentTypes := ApplyProfileTags(SemanticsAt(model.View(), cid), x);
      }
    }

    method WarmUp(model: ClusteringModel, norm: Vec, x: Vec, sqrt: real -> real)
      requires IsSqrt(sqrt) && Ewma.Sound(ewma.View())
      modifies this, model
      ensures (View(), model.View()) == AfterWarmup(old(View()), old(model.View()), norm, x, sqrt)
    {
      hide Ewma.Drift, Relabelled, Predicted, ProfileTags;
      phase := WarmingUp;
      if !model.isFitted && |model.dataBuffer| >= STABLE {
        model.SnapshotAndRelabel();
      }
      lastDriftScore := ewma.DriftScore(sqrt);
      if model.isFitted {
        Classify(model, norm, x);
      } else {
        currentTypes := ApplyProfileTags([], x);
      }
    }

    method Transition(model: ClusteringModel, norm: Vec, x: Vec)
      modifies this, model
      ensures (View(), model.View()) == AfterTransition(old(View()), old(model.View()), norm, x)
    {
      hide Relabelled, Predicted, ProfileTags, SemanticsAt, ClusteringModel.View, Ewma.EwmaState.View,
           TieredBuffer.Buffer.View;
      phase := Transitioning;
      previousCluster := currentCluster;
      if previousCluster >= 0 {
        previousTypes := SemanticsAt(model.View(), previousCluster);
      }
      model.SnapshotAndRelabel();
      var newCID := model.Predict(norm);
      currentCluster := newCID;
      currentTypes := ApplyProfileTags(SemanticsAt(model.View(), newCID), x);
      driftConfirmed := 0;
    }

    method Decide(model: ClusteringModel, norm: Vec, x: Vec, sqrt: real -> real)
      requires IsSqrt(sqrt) && Ewma.Sound(ewma.View())
      modifies this, model
      ensures (View(), model.View()) == AfterStable(old(View()), old(model.View()), norm, x, sqrt)
    {
      hide Ewma.Drift, Relabelled, Classified, AfterTransition;
      if !model.isFitted {
        model.SnapshotAndRelabel();
      }
      var drift := ewma.DriftScore(sqrt);
      lastDriftScore := drift;
      if drift > DRIFT_THRESHOLD {
        if driftConfirmed + 1 >= DRIFT_CONFIRM {
          Transition(model, norm, x);
          return;
        }
        driftConfirmed := driftConfirmed + 1;
        phase := Drifting;
        return;
      }
      driftConfirmed := 0;
      phase := Stable;
      Classify(model, norm, x);
    }

    method Update(ts: int, node: string, x: Vec, model: ClusteringModel, sqrt: real -> real)
      requires IsSqrt(sqrt) && Ewma.Sound(ewma.View())
      modifies this, ewma, buffer, model
      ensures (View(), model.View()) == UpdatedPod(old(View()), old(model.View()), Input(ts, node, x), sqrt)
    {
      hide Ewma.Normalized, Ewma.Updated, Ewma.Drift, TieredBuffer.Pushed, PartialFitted, AfterWarmup, AfterStable;
      Ewma.UpdatedIsSound(ewma.View(), x);
      this.node := node;
      lastTimestamp := ts;
      var norm := ewma.Normalize(x, sqrt);
      ewma.Update(x);
      buffer.Push(x, ts, sqrt);
      model.PartialFit(norm);
      if ewma.updateCount < WARMUP {
        phase := ColdStart;
        currentTypes := [Collecting];
        lastDriftScore := ewma.DriftScore(sqrt);
      } else if ewma.updateCount < STABLE {
        WarmUp(model, norm, x, sqrt);
      } else {
        Decide(model, norm, x, sqrt);
      }
    }
  }

  class AdaptiveClassifier {
    var pods: map<string, PodState>
    const model: ClusteringModel
    ghost var repr: set<object>

    /** No two pods share state. */
    ghost predicate Separate()
      reads this
    {
      && model in repr
      && (forall k :: k in pods ==> pods[k] in repr && pods[k].ewma in repr && pods[k].buffer in repr)
      && (forall j, k :: j in pods && k in pods && j != k ==>
            pods[j] != pods[k] && pods[j].ewma != pods[k].ewma && pods[j].buffer != pods[k].buffer)
    }

    ghost function View(): System
      requires Separate()
      reads this, repr
    {
      System(map k | k in pods :: pods[k].View(), model.View())
    }

    ghost predicate Valid()
      reads this, repr
    {
      this !in repr && Separate() && SystemOk(View())
    }

    constructor (nClusters: int)
      ensures Valid() && fresh(repr) && View() == NewSystem(nClusters)
    {
      model := new ClusteringModel(if nClusters <= 0 then 5 else nClusters);
      pods := map[];
      repr := {model};
    }

    method Restrict(keep: set<string>)
      requires Separate()
      modifies this`pods
      ensures Separate()
      ensures View() == System(old(View()).pods - (old(View()).pods.Keys - keep), old(View()).model)
    {
      hide PodState.View, ClusteringModel.View;
      ghost var before := View();
      pods := map k | k in pods && k in keep :: pods[k];
      assert model.View() == before.model;
      forall k | k in pods
        ensures pods[k].View() == before.pods[k]
      {
        assert pods[k] == old(pods)[k];
        assert pods[k].View() == old(pods[k].View());
      }
    }

    method ReadStamps() returns (stamps: map<string, int>)
      requires Separate()
      ensures stamps == StampsOf(View().pods)
    {
      stamps := map k | k in pods :: pods[k].lastTimestamp;
    }

    /** Drops expired pods and, beyond the limit, the oldest ones. */
    method CleanupLocked(now: int) returns (ghost gone: set<string>)
      requires Valid()
      modifies this`pods
      ensures Valid()
      ensures View() == System(old(View()).pods - gone, old(View()).model)
      ensures Survivors(StampsOf(old(View()).pods), now, POD_TTL, MAX_PODS, View().pods.Keys)
    {
      hide SystemOk, AdaptiveClassifier.View, Survivors, Separate, StampsOf;
      ghost var before := View();
      var stamps := ReadStamps();
      var keep := SelectSurvivors(stamps, now, POD_TTL, MAX_PODS);
      SurvivorsAreKnown(before.pods, now, keep);
      gone := before.pods.Keys - keep;
      EvictKeepsOk(before, gone);
      Restrict(keep);
      assert View().pods.Keys == keep;
    }

    /** A pod that shares nothing with the others joins under a new key. */
    method Join(key: string, st: PodState)
      requires this !in repr && Separate() && key !in pods && st !in repr && st.ewma !in repr && st.buffer !in repr
      modifies this
      ensures Separate() && repr == old(repr) + {st, st.ewma, st.buffer}
      ensures pods == old(pods)[key := st]
    {
      pods := pods[key := st];
      repr := repr + {st, st.ewma, st.buffer};
    }

    twostate lemma Joined(key: string, new st: PodState)
      requires old(Separate()) && Separate() && pods == old(pods)[key := st] && key !in old(pods)
      requires forall o :: o in old(repr) ==> unchanged(o)
      ensures View() == System(old(View()).pods[key := st.View()], old(View()).model)
      ensures key !in old(View()).pods
    {
      hide PodState.View, ClusteringModel.View;
      assert model.View() == old(model.View());
      forall k | k in old(pods)
        ensures pods[k].View() == old(View()).pods[k]
      {
        assert pods[k].View() == old(pods[k].View());
      }
    }

    /** The pod of `key`, created if it is new. */
    method Admit(key: string)
      requires this !in repr && Separate()
      modifies this
      ensures this !in repr && Separate() && fresh(repr - old(repr)) && old(repr) <= repr
      ensures key in pods
      ensures View() == System(old(View()).pods[key := PodOf(old(View()), key)], old(View()).model)
    {
      KnownPod(key);
      hide AdaptiveClassifier.View, Separate, PodState.View;
      if key !in pods {
        var st := new PodState();
        Join(key, st);
        Joined(key, st);
      }
    }

    lemma KnownPod(key: string)
      requires Separate()
      ensures key in pods <==> key in View().pods
    {
    }

    lemma Footprint(key: string)
      requires Separate() && key in pods
      ensures {pods[key], pods[key].ewma, pods[key].buffer, model} <= repr
    {
    }

    /** One pod takes a sample; the other pods are not touched. */
    method UpdateOne(key: string, ts: int, node: string, x: Vec, sqrt: real -> real)
      requires IsSqrt(sqrt) && this !in repr && Separate() && key in pods && Ewma.Sound(View().pods[key].ewma)
      modifies pods[key], pods[key].ewma, pods[key].buffer, model
      ensures Separate()
      ensures
        var (p, m) := UpdatedPod(old(View().pods[key]), old(View()).model, Input(ts, node, x), sqrt);
        View() == System(old(View()).pods[key := p], m)
    {
      hide UpdatedPod, Ewma.EwmaState.View, TieredBuffer.Buffer.View, ClusteringModel.View, Ewma.Sound, IsSqrt;
      assert View().pods[key] == pods[key].View();
      hide PodState.View;
      pods[key].Update(ts, node, x, model, sqrt);
      OthersStay(key);
    }

    twostate lemma OthersStay(key: string)
      requires old(Separate()) && pods == old(pods) && repr == old(repr) && key in pods
      requires forall o :: o in repr && o != pods[key] && o != pods[key].ewma && o != pods[key].buffer && o != model ==>
                 unchanged(o)
      ensures Separate() && View().pods == old(View()).pods[key := pods[key].View()]
    {
      hide PodState.View, ClusteringModel.View;
    }

    method Sample(key: string, ts: int, node: string, x: Vec, sqrt: real -> real)
      requires IsSqrt(sqrt) && Valid()
      modifies this, repr
      ensures Valid() && fresh(repr - old(repr))
      ensures View() == Next(old(View()), Event.Ingest(key, Input(ts, node, x)), sqrt)
    {
      hide UpdatedPod, SystemOk, AdaptiveClassifier.View, Separate, Ewma.Sound, IsSqrt;
      ghost var before := View();
      NextKeepsOk(before, Event.Ingest(key, Input(ts, node, x)), sqrt);
      PodOfIsSound(before, key);
      PodsAreSound(before);
      Admit(key);
      Footprint(key);
      UpdateOne(key, ts, node, x, sqrt);
      assert View() == Next(before, Event.Ingest(key, Input(ts, node, x)), sqrt);
    }

    method Ingest(key: string, ts: int, now: int, node: string, metrics: Metrics, sqrt: real -> real)
      returns (ghost gone: set<string>)
      requires IsSqrt(sqrt) && Valid()
      modifies this, repr
      ensures Valid() && fresh(repr - old(repr))
      ensures Survivors(StampsOf(old(View()).pods), now, POD_TTL, MAX_PODS, old(View()).pods.Keys - gone)
      ensures
        var input := Input(if ts <= 0 then now else ts, node, ComputeFeatures(metrics));
        View() == Next(Next(old(View()), Evict(gone), sqrt), Event.Ingest(key, input), sqrt)
    {
      hide ComputeFeatures, SystemOk;
      gone := CleanupLocked(now);
      Sample(key, if ts <= 0 then now else ts, node, ComputeFeatures(metrics), sqrt);
    }
  }
}
