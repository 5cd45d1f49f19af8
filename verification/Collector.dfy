/** The user-space collector: reads every task's counters and adds them up by pod. */
module Collector {
  import opened SchedMonitor
  import PodMapper

  type PodId = PodMapper.PodId
  type PodRef = PodMapper.PodRef

  datatype Counters = Counters(
    voluntary: nat, involuntary: nat, cpuTime: nat, waitTime: nat, runCount: nat,
    migrations: nat, smt: nat, l3: nat, numa: nat)

  const ZERO := Counters(0, 0, 0, 0, 0, 0, 0, 0, 0)

  function CountersOf(m: Metrics): Counters
  {
    Counters(m.voluntary, m.involuntary, m.cpuTime, m.waitTime, m.runCount, m.migrations, m.smt, m.l3, m.numa)
  }

  function Plus(a: Counters, b: Counters): Counters
  {
    Counters(Add64(a.voluntary, b.voluntary), Add64(a.involuntary, b.involuntary), Add64(a.cpuTime, b.cpuTime),
             Add64(a.waitTime, b.waitTime), Add64(a.runCount, b.runCount), Add32(a.migrations, b.migrations),
             Add32(a.smt, b.smt), Add32(a.l3, b.l3), Add32(a.numa, b.numa))
  }

  datatype PodMetrics = PodMetrics(id: PodId, counters: Counters, processes: nat)

  // ---------------------------------------------------------------- totals over a set, in no particular order

  lemma Exchange64(a: nat, b: nat, c: nat)
    ensures Add64(Add64(c, a), b) == Add64(Add64(c, b), a)
  {
    assert Low64(Low64(c + a) + b) == Low64(c + a + b);
    assert Low64(Low64(c + b) + a) == Low64(c + a + b);
  }

  lemma Exchange32(a: nat, b: nat, c: nat)
    ensures Add32(Add32(c, a), b) == Add32(Add32(c, b), a)
  {
    assert Low32(Low32(c + a) + b) == Low32(c + a + b);
    assert Low32(Low32(c + b) + a) == Low32(c + a + b);
  }

  /** Additions can be made in any order. */
  lemma Exchange(a: Counters, b: Counters, c: Counters)
    ensures Plus(Plus(c, a), b) == Plus(Plus(c, b), a)
  {
    hide Add64, Add32;
    Exchange64(a.voluntary, b.voluntary, c.voluntary);
    Exchange64(a.involuntary, b.involuntary, c.involuntary);
    Exchange64(a.cpuTime, b.cpuTime, c.cpuTime);
    Exchange64(a.waitTime, b.waitTime, c.waitTime);
    Exchange64(a.runCount, b.runCount, c.runCount);
    Exchange32(a.migrations, b.migrations, c.migrations);
    Exchange32(a.smt, b.smt, c.smt);
    Exchange32(a.l3, b.l3, c.l3);
    Exchange32(a.numa, b.numa, c.numa);
  }

  ghost function Total<K(!new)>(f: map<K, Counters>, s: set<K>): Counters
    requires s <= f.Keys
  {
    if s == {} then ZERO
    else
      var k :| k in s;
      Plus(Total(f, s - {k}), f[k])
  }

  /** The total does not depend on which element is taken last. */
  lemma {:induction false} TotalOfLast<K(!new)>(f: map<K, Counters>, s: set<K>, k: K)
    requires s <= f.Keys && k in s
    ensures Total(f, s) == Plus(Total(f, s - {k}), f[k])
    decreases |s|
  {
    hide Plus;
    var j :| j in s && Total(f, s) == Plus(Total(f, s - {j}), f[j]);
    if j != k {
      TotalOfLast(f, s - {j}, k);
      TotalOfLast(f, s - {k}, j);
      assert s - {j} - {k} == s - {k} - {j};
      Exchange(f[k], f[j], Total(f, s - {j} - {k}));
    }
  }

  lemma Associate64(a: nat, b: nat, c: nat)
    ensures Add64(Add64(a, b), c) == Add64(a, Add64(b, c))
  {
    assert Low64(Low64(a + b) + c) == Low64(a + b + c);
    assert Low64(a + Low64(b + c)) == Low64(a + b + c);
  }

  lemma Associate32(a: nat, b: nat, c: nat)
    ensures Add32(Add32(a, b), c) == Add32(a, Add32(b, c))
  {
    assert Low32(Low32(a + b) + c) == Low32(a + b + c);
    assert Low32(a + Low32(b + c)) == Low32(a + b + c);
  }

  lemma Associate(a: Counters, b: Counters, c: Counters)
    ensures Plus(Plus(a, b), c) == Plus(a, Plus(b, c))
  {
    hide Add64, Add32;
    Associate64(a.voluntary, b.voluntary, c.voluntary);
    Associate64(a.involuntary, b.involuntary, c.involuntary);
    Associate64(a.cpuTime, b.cpuTime, c.cpuTime);
    Associate64(a.waitTime, b.waitTime, c.waitTime);
    Associate64(a.runCount, b.runCount, c.runCount);
    Associate32(a.migrations, b.migrations, c.migrations);
    Associate32(a.smt, b.smt, c.smt);
    Associate32(a.l3, b.l3, c.l3);
    Associate32(a.numa, b.numa, c.numa);
  }

  lemma TotalPlusZero<K(!new)>(f: map<K, Counters>, s: set<K>)
    requires s <= f.Keys
    ensures Plus(Total(f, s), ZERO) == Total(f, s)
  {
    if s != {} {
      var k :| k in s;
      TotalOfLast(f, s, k);
      hide Total;
      PlusIsReduced(Total(f, s - {k}), f[k]);
    }
  }

  lemma PlusIsReduced(a: Counters, b: Counters)
    ensures Plus(Plus(a, b), ZERO) == Plus(a, b)
  {
  }

  lemma {:induction false} TotalOfUnion<K(!new)>(f: map<K, Counters>, a: set<K>, b: set<K>)
    requires a <= f.Keys && b <= f.Keys && a !! b
    ensures Total(f, a + b) == Plus(Total(f, a), Total(f, b))
    decreases |b|
  {
    hide Plus;
    if b == {} {
      assert a + b == a;
      TotalPlusZero(f, a);
    } else {
      var k :| k in b;
      TotalOfUnion(f, a, b - {k});
      TotalOfLast(f, b, k);
      TotalOfLast(f, a + b, k);
      assert a + b - {k} == a + (b - {k});
      Associate(Total(f, a), Total(f, b - {k}), f[k]);
    }
  }

  // ---------------------------------------------------------------- one poll

  /** The tasks a poll can read: an entry may vanish between listing and reading. */
  function Readable(metrics: map<nat, Metrics>, vanished: set<nat>): map<nat, Counters>
  {
    map p | p in metrics && p !in vanished :: CountersOf(metrics[p])
  }

  function MembersOf(pids: set<nat>, podOf: map<nat, PodRef>, uid: string): set<nat>
  {
    set p | p in pids && p in podOf && podOf[p].id.uid == uid
  }

  /** The aggregation of the given tasks, each of which belongs to a pod. */
  ghost predicate IsAggregate(agg: map<string, PodMetrics>, tasks: map<nat, Counters>, podOf: map<nat, PodRef>,
                              pids: set<nat>)
    requires pids <= tasks.Keys && pids <= podOf.Keys
  {
    && agg.Keys == (set p | p in pids :: podOf[p].id.uid)
    && forall uid :: uid in agg ==> IsPodTotal(agg[uid], tasks, podOf, MembersOf(pids, podOf, uid))
  }

  ghost predicate IsPodTotal(pod: PodMetrics, tasks: map<nat, Counters>, podOf: map<nat, PodRef>, members: set<nat>)
    requires members <= tasks.Keys && members <= podOf.Keys
  {
    && pod.counters == Total(tasks, members)
    && pod.processes == |members|
    && exists p :: p in members && pod.id == podOf[p].id
  }

  function Empty(id: PodId): PodMetrics { PodMetrics(id, ZERO, 0) }

  function Added(pod: PodMetrics, c: Counters): PodMetrics
  {
    pod.(counters := Plus(pod.counters, c), processes := pod.processes + 1)
  }

  class Collector {
    var podMetrics: map<string, PodMetrics>

    constructor ()
      ensures podMetrics == map[]
    {
      podMetrics := map[];
    }

    /** Whatever order the entries come in, the published metrics aggregate exactly those that map to a pod. */
    method Poll(metrics: map<nat, Metrics>, vanished: set<nat>, podOf: map<nat, PodRef>)
      modifies this
      ensures
        var tasks := Readable(metrics, vanished);
        IsAggregate(podMetrics, tasks, podOf, tasks.Keys * podOf.Keys)
    {
      podMetrics := Aggregate(Readable(metrics, vanished), podOf);
    }
  }

  method Aggregate(tasks: map<nat, Counters>, podOf: map<nat, PodRef>) returns (agg: map<string, PodMetrics>)
    ensures IsAggregate(agg, tasks, podOf, tasks.Keys * podOf.Keys)
  {
    agg := map[];
    assert IsAggregate(agg, tasks, podOf, {});
    hide *;
    var todo := tasks.Keys;
    ghost var done: set<nat> := {};
    while todo != {}
      invariant todo <= tasks.Keys && done <= tasks.Keys * podOf.Keys && done !! todo
      invariant forall p :: p in tasks && p in podOf ==> p in todo || p in done
      invariant IsAggregate(agg, tasks, podOf, done)
      decreases |todo|
    {
      var pid :| pid in todo;
      todo := todo - {pid};
      if pid in podOf {
        AggregateStep(agg, tasks, podOf, done, pid);
        var ref := podOf[pid];
        var pod := if ref.id.uid in agg then agg[ref.id.uid] else Empty(ref.id);
        agg := agg[ref.id.uid := Added(pod, tasks[pid])];
        done := done + {pid};
      }
    }
    assert done == tasks.Keys * podOf.Keys;
  }

  lemma AggregateStep(agg: map<string, PodMetrics>, tasks: map<nat, Counters>, podOf: map<nat, PodRef>,
                      done: set<nat>, pid: nat)
    requires done <= tasks.Keys && done <= podOf.Keys && pid in tasks && pid in podOf && pid !in done
    requires IsAggregate(agg, tasks, podOf, done)
    ensures
      var ref := podOf[pid];
      var pod := if ref.id.uid in agg then agg[ref.id.uid] else Empty(ref.id);
      IsAggregate(agg[ref.id.uid := Added(pod, tasks[pid])], tasks, podOf, done + {pid})
  {
    hide *;
    var uid := podOf[pid].id.uid;
    OwnPodGrows(agg, tasks, podOf, done, pid);
    var next := agg[uid := Added(if uid in agg then agg[uid] else Empty(podOf[pid].id), tasks[pid])];
    forall u | u in next
      ensures MembersOf(done + {pid}, podOf, u) <= tasks.Keys && MembersOf(done + {pid}, podOf, u) <= podOf.Keys
      ensures IsPodTotal(next[u], tasks, podOf, MembersOf(done + {pid}, podOf, u))
    {
      if u != uid { OtherPodsStay(agg, tasks, podOf, done, pid, u); }
    }
    KeysGrow(agg, tasks, podOf, done, pid);
    AggregateFolds(next, tasks, podOf, done + {pid});
  }

  lemma OwnPodGrows(agg: map<string, PodMetrics>, tasks: map<nat, Counters>, podOf: map<nat, PodRef>,
                    done: set<nat>, pid: nat)
    requires done <= tasks.Keys && done <= podOf.Keys && pid in tasks && pid in podOf && pid !in done
    requires IsAggregate(agg, tasks, podOf, done)
    ensures
      var uid := podOf[pid].id.uid;
      var members := MembersOf(done + {pid}, podOf, uid);
      && members <= tasks.Keys && members <= podOf.Keys
      && IsPodTotal(Added(if uid in agg then agg[uid] else Empty(podOf[pid].id), tasks[pid]), tasks, podOf, members)
  {
    hide Total, Plus;
    var uid := podOf[pid].id.uid;
    var before, after := MembersOf(done, podOf, uid), MembersOf(done + {pid}, podOf, uid);
    assert after - {pid} == before && pid in after && |after| == |before| + 1;
    TotalOfLast(tasks, after, pid);
    MembersAreListed(agg, tasks, podOf, done, uid);
    EmptyTotal(tasks);
    if uid in agg {
      assert IsPodTotal(agg[uid], tasks, podOf, before);
    }
    hide IsAggregate, MembersOf;
  }

  lemma OtherPodsStay(agg: map<string, PodMetrics>, tasks: map<nat, Counters>, podOf: map<nat, PodRef>,
                      done: set<nat>, pid: nat, uid: string)
    requires done <= tasks.Keys && done <= podOf.Keys && pid in tasks && pid in podOf && uid != podOf[pid].id.uid
    requires IsAggregate(agg, tasks, podOf, done) && uid in agg
    ensures
      var members := MembersOf(done + {pid}, podOf, uid);
      members <= tasks.Keys && members <= podOf.Keys && IsPodTotal(agg[uid], tasks, podOf, members)
  {
    hide IsPodTotal;
    assert MembersOf(done + {pid}, podOf, uid) == MembersOf(done, podOf, uid);
  }

  lemma KeysGrow(agg: map<string, PodMetrics>, tasks: map<nat, Counters>, podOf: map<nat, PodRef>,
                 done: set<nat>, pid: nat)
    requires done <= tasks.Keys && done <= podOf.Keys && pid in podOf && IsAggregate(agg, tasks, podOf, done)
    ensures agg.Keys + {podOf[pid].id.uid} == (set p | p in done + {pid} :: podOf[p].id.uid)
  {
    hide IsPodTotal;
  }

  lemma AggregateFolds(agg: map<string, PodMetrics>, tasks: map<nat, Counters>, podOf: map<nat, PodRef>,
                       pids: set<nat>)
    requires pids <= tasks.Keys && pids <= podOf.Keys && agg.Keys == (set p | p in pids :: podOf[p].id.uid)
    requires forall uid :: uid in agg ==>
      var members := MembersOf(pids, podOf, uid);
      members <= tasks.Keys && members <= podOf.Keys && IsPodTotal(agg[uid], tasks, podOf, members)
    ensures IsAggregate(agg, tasks, podOf, pids)
  {
    hide IsPodTotal;
  }

  lemma MembersAreListed(agg: map<string, PodMetrics>, tasks: map<nat, Counters>, podOf: map<nat, PodRef>,
                         pids: set<nat>, uid: string)
    requires pids <= tasks.Keys && pids <= podOf.Keys && IsAggregate(agg, tasks, podOf, pids)
    ensures uid in agg <==> MembersOf(pids, podOf, uid) != {}
  {
    if MembersOf(pids, podOf, uid) != {} {
      var p :| p in MembersOf(pids, podOf, uid);
      assert podOf[p].id.uid in agg.Keys;
    }
  }

  lemma EmptyTotal(tasks: map<nat, Counters>)
    ensures Total(tasks, {}) == ZERO
  {
  }

  // ---------------------------------------------------------------- what every poll keeps

  function PodCounters(agg: map<string, PodMetrics>): map<string, Counters>
  {
    map uid | uid in agg :: agg[uid].counters
  }

  function MembersAmong(pids: set<nat>, podOf: map<nat, PodRef>, uids: set<string>): set<nat>
  {
    set p | p in pids && p in podOf && podOf[p].id.uid in uids
  }

  lemma SplitMembers(pids: set<nat>, podOf: map<nat, PodRef>, uids: set<string>, uid: string)
    requires uid in uids
    ensures MembersAmong(pids, podOf, uids - {uid}) !! MembersOf(pids, podOf, uid)
    ensures MembersAmong(pids, podOf, uids) == MembersAmong(pids, podOf, uids - {uid}) + MembersOf(pids, podOf, uid)
    ensures MembersAmong(pids, podOf, uids) <= pids && MembersOf(pids, podOf, uid) <= pids
  {
  }

  lemma PodIsTotal(agg: map<string, PodMetrics>, tasks: map<nat, Counters>, podOf: map<nat, PodRef>, pids: set<nat>,
                   uid: string)
    requires pids <= tasks.Keys && pids <= podOf.Keys && IsAggregate(agg, tasks, podOf, pids) && uid in agg
    ensures PodCounters(agg)[uid] == agg[uid].counters == Total(tasks, MembersOf(pids, podOf, uid))
  {
    hide Total;
    assert IsPodTotal(agg[uid], tasks, podOf, MembersOf(pids, podOf, uid));
  }

  /** Adding up some pods is adding up their tasks. */
  lemma {:induction false} PodsAddUp(agg: map<string, PodMetrics>, tasks: map<nat, Counters>, podOf: map<nat, PodRef>,
                                     pids: set<nat>, uids: set<string>)
    requires pids <= tasks.Keys && pids <= podOf.Keys && IsAggregate(agg, tasks, podOf, pids)
    requires uids <= agg.Keys
    ensures Total(PodCounters(agg), uids) == Total(tasks, MembersAmong(pids, podOf, uids))
    decreases |uids|
  {
    if uids == {} {
      assert MembersAmong(pids, podOf, uids) == {};
    } else {
      hide *;
      var uid :| uid in uids;
      PodCountersKeys(agg);
      PodIsTotal(agg, tasks, podOf, pids, uid);
      SplitMembers(pids, podOf, uids, uid);
      PodsAddUp(agg, tasks, podOf, pids, uids - {uid});
      TotalOfLast(PodCounters(agg), uids, uid);
      TotalOfUnion(tasks, MembersAmong(pids, podOf, uids - {uid}), MembersOf(pids, podOf, uid));
    }
  }

  lemma PodCountersKeys(agg: map<string, PodMetrics>)
    ensures PodCounters(agg).Keys == agg.Keys
  {
  }

  lemma EveryTaskIsMember(agg: map<string, PodMetrics>, tasks: map<nat, Counters>, podOf: map<nat, PodRef>,
                          pids: set<nat>)
    requires pids <= tasks.Keys && pids <= podOf.Keys && IsAggregate(agg, tasks, podOf, pids)
    ensures MembersAmong(pids, podOf, agg.Keys) == pids
  {
    hide IsPodTotal;
    assert forall p :: p in pids ==> podOf[p].id.uid in agg.Keys;
  }

  /** Nothing is lost or counted twice: all pods together hold the counters of all tasks that map to a pod. */
  lemma PollConserves(agg: map<string, PodMetrics>, tasks: map<nat, Counters>, podOf: map<nat, PodRef>)
    requires IsAggregate(agg, tasks, podOf, tasks.Keys * podOf.Keys)
    ensures Total(PodCounters(agg), agg.Keys) == Total(tasks, tasks.Keys * podOf.Keys)
  {
    hide *;
    var pids := tasks.Keys * podOf.Keys;
    PodsAddUp(agg, tasks, podOf, pids, agg.Keys);
    EveryTaskIsMember(agg, tasks, podOf, pids);
  }

  predicate CountersBalance(c: Counters) { c.migrations == Low32(c.smt + c.l3 + c.numa) }

  lemma PlusBalances(a: Counters, b: Counters)
    requires CountersBalance(a) && CountersBalance(b)
    ensures CountersBalance(Plus(a, b))
  {
    hide Low32, Low64;
    BalanceOfSum(a.smt, a.l3, a.numa, b.smt, b.l3, b.numa);
  }

  lemma BalanceOfSum(s: nat, l: nat, n: nat, t: nat, m: nat, o: nat)
    ensures Low32(Low32(s + l + n) + Low32(t + m + o)) == Low32(Low32(s + t) + Low32(l + m) + Low32(n + o))
  {
    hide Low32;
    LowOfLows(s + l + n, t + m + o);
    LowOfSum(s, t, Low32(l + m) + Low32(n + o));
    LowOfSum(l, m, s + t + Low32(n + o));
    LowOfSum(n, o, s + t + l + m);
  }

  lemma LowOfSum(x: nat, y: nat, rest: nat)
    ensures Low32(Low32(x + y) + rest) == Low32(x + y + rest)
  {
  }

  lemma LowOfLows(x: nat, y: nat)
    ensures Low32(Low32(x) + Low32(y)) == Low32(x + y)
  {
    LowOfSum(x, 0, Low32(y));
    LowOfSum(y, 0, x);
  }

  lemma {:induction false} TotalBalances(tasks: map<nat, Counters>, s: set<nat>)
    requires s <= tasks.Keys && forall p :: p in s ==> CountersBalance(tasks[p])
    ensures CountersBalance(Total(tasks, s))
    decreases |s|
  {
    if s != {} {
      var p :| p in s;
      hide Plus, CountersBalance;
      TotalBalances(tasks, s - {p});
      TotalOfLast(tasks, s, p);
      PlusBalances(Total(tasks, s - {p}), tasks[p]);
    }
  }

  /** After any run of the kernel hooks, every pod's migrations are the sum of its migrations by level. */
  lemma EveryPodBalances(s: State, trace: seq<Event>, vanished: set<nat>, podOf: map<nat, PodRef>,
                         agg: map<string, PodMetrics>, uid: string)
    requires s.metrics == map[]
    requires
      var tasks := Readable(After(s, trace).metrics, vanished);
      IsAggregate(agg, tasks, podOf, tasks.Keys * podOf.Keys)
    requires uid in agg
    ensures CountersBalance(agg[uid].counters)
  {
    hide *;
    var tasks := Readable(After(s, trace).metrics, vanished);
    var pids := tasks.Keys * podOf.Keys;
    forall p | p in tasks
      ensures CountersBalance(tasks[p])
    {
      TaskBalances(s, trace, vanished, p);
    }
    PodIsTotal(agg, tasks, podOf, pids, uid);
    SplitMembers(pids, podOf, {uid}, uid);
    TotalBalances(tasks, MembersOf(pids, podOf, uid));
  }

  lemma TaskBalances(s: State, trace: seq<Event>, vanished: set<nat>, p: nat)
    requires s.metrics == map[] && p in Readable(After(s, trace).metrics, vanished)
    ensures CountersBalance(Readable(After(s, trace).metrics, vanished)[p])
  {
    var log := Since(s, trace, p);
    EntriesAreHistories(s, trace, p);
    MigrationsBalance(p, log.tgid, log.touches);
    hide After, Since, Replay;
  }

  /** A pod UID names one pod. */
  ghost predicate OnePodPerUid(podOf: map<nat, PodRef>)
  {
    forall p, q :: p in podOf && q in podOf && podOf[p].id.uid == podOf[q].id.uid ==> podOf[p].id == podOf[q].id
  }

  /** Then the published metrics do not depend on the order in which entries were visited. */
  lemma PollIsDeterministic(a: map<string, PodMetrics>, b: map<string, PodMetrics>, tasks: map<nat, Counters>,
                            podOf: map<nat, PodRef>, pids: set<nat>)
    requires pids <= tasks.Keys && pids <= podOf.Keys && OnePodPerUid(podOf)
    requires IsAggregate(a, tasks, podOf, pids) && IsAggregate(b, tasks, podOf, pids)
    ensures a == b
  {
    hide Total;
    forall uid | uid in a
      ensures a[uid] == b[uid]
    {
      var members := MembersOf(pids, podOf, uid);
      assert IsPodTotal(a[uid], tasks, podOf, members) && IsPodTotal(b[uid], tasks, podOf, members);
    }
  }
}
