/**
 The CRD watcher: turns PodSchedulingMetrics specs into the set of monitored processes, and keeps a shadow
 of what it pushed into the kernel's monitored_pids map.
 */
module Watcher {
  import PodMapper

  type PodRef = PodMapper.PodRef

  // ---------------------------------------------------------------- which pods a spec selects

  datatype Selector = Selector(key: string, value: string)
  datatype Spec = Spec(enabled: bool, namespaces: seq<string>, selectors: seq<Selector>)

  predicate SelectorHolds(sel: Selector, labels: map<string, string>)
  {
    sel.key == "" || (sel.key in labels && labels[sel.key] == sel.value)
  }

  /** An empty list selects everything; a selector without a key is ignored. */
  predicate Selects(spec: Spec, ref: PodRef)
  {
    && (spec.namespaces == [] || ref.id.namespace in spec.namespaces)
    && forall i :: 0 <= i < |spec.selectors| ==> SelectorHolds(spec.selectors[i], ref.labels)
  }

  method MatchesPod(spec: Spec, ref: PodRef) returns (matches: bool)
    ensures matches == Selects(spec, ref)
  {
    if |spec.namespaces| > 0 {
      var found, i := false, 0;
      while i < |spec.namespaces| && !found
        invariant 0 <= i <= |spec.namespaces|
        invariant found <==> ref.id.namespace in spec.namespaces[..i]
        decreases |spec.namespaces| - i
      {
        found := spec.namespaces[i] == ref.id.namespace;
        i := i + 1;
      }
      if !found { return false; }
    }
    var i := 0;
    while i < |spec.selectors|
      invariant 0 <= i <= |spec.selectors|
      invariant forall j :: 0 <= j < i ==> SelectorHolds(spec.selectors[j], ref.labels)
    {
      var sel := spec.selectors[i];
      if sel.key != "" && !(sel.key in ref.labels && ref.labels[sel.key] == sel.value) { return false; }
      i := i + 1;
    }
    return true;
  }

  predicate Desired(specs: map<string, Spec>, ref: PodRef)
  {
    exists key :: key in specs && specs[key].enabled && Selects(specs[key], ref)
  }

  /** The UIDs of known pods that some enabled spec selects. */
  function DesiredPods(specs: map<string, Spec>, pods: map<string, PodRef>): set<string>
  {
    set uid | uid in pods && Desired(specs, pods[uid])
  }

  method GatherPods(specs: map<string, Spec>, pods: map<string, PodRef>) returns (uids: set<string>)
    ensures uids == DesiredPods(specs, pods)
  {
    uids := {};
    var keys := specs.Keys;
    while keys != {}
      invariant keys <= specs.Keys
      invariant uids == DesiredPods(specs - keys, pods)
      decreases |keys|
    {
      var key :| key in keys;
      var more := {};
      if specs[key].enabled { more := SelectedPods(specs[key], pods); }
      DesiredByOneMore(specs, keys, key, pods);
      uids := uids + more;
      keys := keys - {key};
    }
    assert specs - {} == specs;
  }

  method SelectedPods(spec: Spec, pods: map<string, PodRef>) returns (uids: set<string>)
    ensures uids == set uid | uid in pods && Selects(spec, pods[uid])
  {
    hide Selects;
    uids := {};
    var todo := pods.Keys;
    while todo != {}
      invariant todo <= pods.Keys
      invariant uids == set uid | uid in pods && uid !in todo && Selects(spec, pods[uid])
      decreases |todo|
    {
      var uid :| uid in todo;
      var matches := MatchesPod(spec, pods[uid]);
      todo := todo - {uid};
      if matches { uids := uids + {uid}; }
    }
  }

  lemma DesiredByOneMore(specs: map<string, Spec>, keys: set<string>, key: string, pods: map<string, PodRef>)
    requires key in keys && keys <= specs.Keys
    ensures DesiredPods(specs - (keys - {key}), pods) == DesiredPods(specs - keys, pods)
      + if specs[key].enabled then (set uid | uid in pods && Selects(specs[key], pods[uid])) else {}
  {
    hide Selects;
    var before, after := specs - keys, specs - (keys - {key});
    forall uid | uid in pods
      ensures Desired(after, pods[uid]) <==>
        Desired(before, pods[uid]) || (specs[key].enabled && Selects(specs[key], pods[uid]))
    {
      if specs[key].enabled && Selects(specs[key], pods[uid]) { assert key in after; }
      if Desired(before, pods[uid]) {
        var k :| k in before && before[k].enabled && Selects(before[k], pods[uid]);
        assert k in after;
      }
      if Desired(after, pods[uid]) {
        var k :| k in after && after[k].enabled && Selects(after[k], pods[uid]);
        assert k == key || k in before;
      }
    }
  }

  // ---------------------------------------------------------------- one reconciliation

  /**
   What one reconciliation sees: the known pods, the mapped processes, the pod each resolves to, and which
   calls into the kernel map fail. A process is added or removed at most once per reconciliation.
   */
  datatype Scan = Scan(
    pods: map<string, PodRef>, mapped: set<nat>, podOf: map<nat, PodRef>, addFails: set<nat>, removeFails: set<nat>)

  datatype State = State(specs: map<string, Spec>, shadow: set<nat>, kernel: set<nat>)

  function Wanted(specs: map<string, Spec>, scan: Scan): set<nat>
  {
    set p | p in scan.mapped && p in scan.podOf && scan.podOf[p].id.uid in DesiredPods(specs, scan.pods)
  }

  function Unwanted(specs: map<string, Spec>, scan: Scan): set<nat>
  {
    set p | p in scan.mapped && p in scan.podOf && scan.podOf[p].id.uid !in DesiredPods(specs, scan.pods)
  }

  function Reconciled(s: State, scan: Scan): State
  {
    var added := Wanted(s.specs, scan) - scan.addFails;
    var removed := Unwanted(s.specs, scan) * s.shadow - scan.removeFails;
    var vanished := s.shadow - scan.mapped;
    State(s.specs, s.shadow + added - removed - vanished, s.kernel + added - removed - (vanished - scan.removeFails))
  }

  /** Whatever fails, the watcher never believes a process is monitored that the kernel map does not hold. */
  lemma ShadowStaysInKernel(s: State, scan: Scan)
    requires s.shadow <= s.kernel
    ensures Reconciled(s, scan).shadow <= Reconciled(s, scan).kernel
  {
    hide Wanted, Unwanted;
  }

  predicate Clean(scan: Scan) { scan.addFails == {} && scan.removeFails == {} && scan.mapped <= scan.podOf.Keys }

  /** Without failures the shadow becomes the wanted set and the kernel map too, but for what was leaked before. */
  lemma CleanReconcile(s: State, scan: Scan)
    requires Clean(scan) && s.shadow <= s.kernel
    ensures
      var want := Wanted(s.specs, scan);
      && Reconciled(s, scan) == State(s.specs, want, want + (s.kernel - s.shadow))
      && Reconciled(Reconciled(s, scan), scan) == Reconciled(s, scan)
      && (Reconciled(s, scan).kernel == want <==> s.kernel - s.shadow <= want)
      && (s.shadow == s.kernel ==> Reconciled(s, scan) == State(s.specs, want, want))
  {
    var want := Wanted(s.specs, scan);
    assert want + Unwanted(s.specs, scan) == scan.mapped && want !! Unwanted(s.specs, scan);
    hide Wanted, Unwanted;
    assert Reconciled(s, scan).shadow == want;
    assert Reconciled(s, scan).kernel == want + (s.kernel - s.shadow);
    assert Reconciled(Reconciled(s, scan), scan).shadow == want;
    assert Reconciled(Reconciled(s, scan), scan).kernel == want + (s.kernel - s.shadow);
  }

  /** When every pod is indexed under its own UID, the wanted processes are those of pods some enabled spec selects. */
  lemma WantedIff(specs: map<string, Spec>, scan: Scan, p: nat)
    requires forall q :: q in scan.podOf ==>
      var uid := scan.podOf[q].id.uid;
      uid in scan.pods && scan.pods[uid] == scan.podOf[q]
    ensures p in Wanted(specs, scan) <==> p in scan.mapped && p in scan.podOf && Desired(specs, scan.podOf[p])
  {
    hide Desired;
  }

  /** The processes the kernel map holds without the watcher knowing: they arise only from failed removals. */
  lemma LeakAfter(s: State, scan: Scan)
    requires s.shadow <= s.kernel
    ensures
      var after := Reconciled(s, scan);
      after.kernel - after.shadow
        == (s.kernel - s.shadow - (Wanted(s.specs, scan) - scan.addFails))
         + ((s.shadow - scan.mapped) * scan.removeFails)
  {
    var want, unwant := Wanted(s.specs, scan), Unwanted(s.specs, scan);
    assert want !! unwant && want <= scan.mapped && unwant <= scan.mapped;
    hide Wanted, Unwanted;
  }

  // ---------------------------------------------------------------- whole runs

  datatype Event =
    | Upsert(key: string, spec: Spec)
    | Malformed(key: string)
    | Deleted(key: string)
    | Tick

  datatype Step = Step(event: Event, scan: Scan)

  function Next(s: State, step: Step): State
  {
    match step.event
    case Upsert(key, spec) => Reconciled(s.(specs := s.specs[key := spec]), step.scan)
    case Malformed(key) => s
    case Deleted(key) => Reconciled(s.(specs := s.specs - {key}), step.scan)
    case Tick => Reconciled(s, step.scan)
  }

  function After(kernel: set<nat>, steps: seq<Step>): State
  {
    if steps == [] then State(map[], {}, kernel)
    else Next(After(kernel, steps[..|steps| - 1]), steps[|steps| - 1])
  }

  lemma {:induction false} EveryRunIsSound(kernel: set<nat>, steps: seq<Step>)
    ensures After(kernel, steps).shadow <= After(kernel, steps).kernel
  {
    if steps != [] {
      var s, step := After(kernel, steps[..|steps| - 1]), steps[|steps| - 1];
      EveryRunIsSound(kernel, steps[..|steps| - 1]);
      hide Reconciled, After;
      ShadowStaysInKernel(s, step.scan);
      match step.event
      case Upsert(key, spec) => ShadowStaysInKernel(s.(specs := s.specs[key := spec]), step.scan);
      case Deleted(key) => ShadowStaysInKernel(s.(specs := s.specs - {key}), step.scan);
      case _ =>
    }
  }

  ghost predicate NoRemovalFailed(steps: seq<Step>)
  {
    forall i :: 0 <= i < |steps| ==> steps[i].scan.removeFails == {}
  }

  /** If no removal ever failed, the shadow is exact: additions may fail at will. */
  lemma {:induction false} ShadowIsExact(steps: seq<Step>)
    requires NoRemovalFailed(steps)
    ensures After({}, steps).shadow == After({}, steps).kernel
  {
    if steps != [] {
      var s, step := After({}, steps[..|steps| - 1]), steps[|steps| - 1];
      ShadowIsExact(steps[..|steps| - 1]);
      assert step.scan.removeFails == {};
      match step.event
      case Upsert(key, spec) => LeakAfter(s.(specs := s.specs[key := spec]), step.scan);
      case Deleted(key) => LeakAfter(s.(specs := s.specs - {key}), step.scan);
      case _ => LeakAfter(s, step.scan);
      EveryRunIsSound({}, steps);
      hide Wanted, Unwanted, After;
    }
  }

  /** The state a reconciling step starts from, once its event has changed the specs. */
  function Prepared(s: State, e: Event): State
  {
    match e
    case Upsert(key, spec) => s.(specs := s.specs[key := spec])
    case Deleted(key) => s.(specs := s.specs - {key})
    case _ => s
  }

  /** The step drops a tracked process that has vanished, and its removal fails. */
  predicate Leaks(s: State, step: Step, p: nat)
  {
    !step.event.Malformed? && p in s.shadow && p !in step.scan.mapped && p in step.scan.removeFails
  }

  /** The step wants the process and adds it. */
  predicate Recovers(s: State, step: Step, p: nat)
  {
    !step.event.Malformed? && p in Wanted(Prepared(s, step.event).specs, step.scan) && p !in step.scan.addFails
  }

  ghost predicate LeaksAt(kernel: set<nat>, steps: seq<Step>, i: nat, p: nat)
    requires i < |steps|
  {
    Leaks(After(kernel, steps[..i]), steps[i], p)
  }

  ghost predicate RecoversAt(kernel: set<nat>, steps: seq<Step>, i: nat, p: nat)
    requires i < |steps|
  {
    Recovers(After(kernel, steps[..i]), steps[i], p)
  }

  /** At step i the process was leaked, and no later step recovered it. */
  ghost predicate LeakedSince(kernel: set<nat>, steps: seq<Step>, i: nat, p: nat)
  {
    && i < |steps| && LeaksAt(kernel, steps, i, p)
    && forall j: nat :: i < j < |steps| ==> !RecoversAt(kernel, steps, j, p)
  }

  lemma LeakStep(s: State, step: Step, p: nat)
    requires s.shadow <= s.kernel
    ensures
      var t := Next(s, step);
      p in t.kernel - t.shadow <==> (p in s.kernel - s.shadow && !Recovers(s, step, p)) || Leaks(s, step, p)
  {
    if !step.event.Malformed? {
      LeakAfter(Prepared(s, step.event), step.scan);
      assert Next(s, step) == Reconciled(Prepared(s, step.event), step.scan);
    }
    hide Wanted, Unwanted, Reconciled;
  }

  /** Over every run, exactly the processes leaked and never recovered since are unknown to the watcher. */
  lemma {:induction false} LeakedIff(steps: seq<Step>, p: nat)
    ensures p in After({}, steps).kernel - After({}, steps).shadow
      <==> exists i: nat :: LeakedSince({}, steps, i, p)
  {
    hide Leaks, Recovers, Next;
    if steps != [] {
      var n := |steps| - 1;
      var init, last := steps[..n], steps[n];
      LeakedIff(init, p);
      EveryRunIsSound({}, init);
      LeakStep(After({}, init), last, p);
      LeakedLater(steps, p);
    }
  }

  lemma LeakedLater(steps: seq<Step>, p: nat)
    requires steps != []
    ensures
      var n := |steps| - 1;
      (exists i: nat :: LeakedSince({}, steps, i, p)) <==>
        || LeaksAt({}, steps, n, p)
        || ((exists i: nat :: LeakedSince({}, steps[..n], i, p)) && !RecoversAt({}, steps, n, p))
  {
    hide Leaks, Recovers, After;
    var n := |steps| - 1;
    var init := steps[..n];
    forall i: nat | i < n
      ensures LeaksAt({}, init, i, p) == LeaksAt({}, steps, i, p)
      ensures RecoversAt({}, init, i, p) == RecoversAt({}, steps, i, p)
    {
      assert init[..i] == steps[..i] && init[i] == steps[i];
    }
    if i: nat :| LeakedSince({}, steps, i, p) {
      if i < n { assert LeakedSince({}, init, i, p); }
    }
    if LeaksAt({}, steps, n, p) { assert LeakedSince({}, steps, n, p); }
    if !RecoversAt({}, steps, n, p) {
      if i: nat :| LeakedSince({}, init, i, p) { assert LeakedSince({}, steps, i, p); }
    }
  }

  /** Hence the shadow is exact after a run iff every process ever leaked has been recovered since. */
  lemma ShadowIsExactIff(steps: seq<Step>)
    ensures After({}, steps).shadow == After({}, steps).kernel <==> forall p, i: nat :: !LeakedSince({}, steps, i, p)
  {
    hide LeakedSince, After;
    EveryRunIsSound({}, steps);
    var s := After({}, steps);
    if forall p, i: nat :: !LeakedSince({}, steps, i, p) {
      forall p | p in s.kernel ensures p in s.shadow { LeakedIff(steps, p); }
    } else {
      var p, i: nat :| LeakedSince({}, steps, i, p);
      LeakedIff(steps, p);
    }
  }

  /** A run that leaks: a process is monitored, vanishes, and its removal fails. */
  lemma LeakingRun(p: nat, ref: PodRef)
    ensures
      var uid := ref.id.uid;
      var appears := Scan(map[uid := ref], {p}, map[p := ref], {}, {});
      var vanishes := Scan(map[uid := ref], {}, map[], {}, {p});
      var s := After({}, [Step(Upsert("psm", Spec(true, [], [])), appears), Step(Tick, vanishes)]);
      s.shadow == {} && s.kernel == {p}
  {
    var uid, spec := ref.id.uid, Spec(true, [], []);
    var appears := Scan(map[uid := ref], {p}, map[p := ref], {}, {});
    var vanishes := Scan(map[uid := ref], {}, map[], {}, {p});
    var steps := [Step(Upsert("psm", spec), appears), Step(Tick, vanishes)];
    var specs: map<string, Spec> := map["psm" := spec];
    assert "psm" in specs && Selects(specs["psm"], ref);
    assert Wanted(specs, appears) == {p} && Unwanted(specs, appears) == {};
    assert Wanted(specs, vanishes) == {} && Unwanted(specs, vanishes) == {};
    assert steps[..1] == [steps[0]] && steps[..1][..0] == [];
    assert After({}, []) == State(map[], {}, {});
    assert map[]["psm" := spec] == specs;
    hide Wanted, Unwanted;
    assert After({}, steps[..1]) == State(specs, {p}, {p});
    assert After({}, steps) == Reconciled(State(specs, {p}, {p}), vanishes);
  }

  /** After any run, one clean reconciliation makes both sets the wanted processes iff it wants all leaked ones. */
  lemma RunConvergesIff(steps: seq<Step>, scan: Scan)
    requires Clean(scan)
    ensures
      var s := After({}, steps);
      var want := Wanted(s.specs, scan);
      After({}, steps + [Step(Tick, scan)]) == State(s.specs, want, want) <==>
        forall p, i: nat :: LeakedSince({}, steps, i, p) ==> p in want
  {
    var s := After({}, steps);
    var want := Wanted(s.specs, scan);
    assert (steps + [Step(Tick, scan)])[..|steps|] == steps;
    EveryRunIsSound({}, steps);
    CleanReconcile(s, scan);
    assert After({}, steps + [Step(Tick, scan)]) == Reconciled(s, scan);
    hide LeakedSince, After, Wanted, Unwanted;
    if forall p, i: nat :: LeakedSince({}, steps, i, p) ==> p in want {
      forall p | p in s.kernel - s.shadow ensures p in want { LeakedIff(steps, p); }
    } else {
      var p, i: nat :| LeakedSince({}, steps, i, p) && p !in want;
      LeakedIff(steps, p);
    }
  }

  /** A process leaked by a failed removal stays in the kernel map as long as no later reconciliation wants it. */
  lemma LeakPersists(s: State, scan: Scan, p: nat)
    requires p in s.kernel - s.shadow
    ensures p in Reconciled(s, scan).kernel
    ensures p !in Wanted(s.specs, scan) ==> p !in Reconciled(s, scan).shadow
  {
    hide Wanted, Unwanted;
  }

  // ---------------------------------------------------------------- the watcher in place

  /** A set once the mapped processes outside todo have been visited. */
  ghost function Synced(start: set<nat>, shadow: set<nat>, want: set<nat>, unwant: set<nat>, scan: Scan,
                        todo: set<nat>): set<nat>
  {
    start + (want - scan.addFails - todo) - (unwant * shadow - scan.removeFails - todo)
  }

  lemma SyncStep(start: set<nat>, shadow: set<nat>, want: set<nat>, unwant: set<nat>, scan: Scan, todo: set<nat>,
                 pid: nat)
    requires want !! unwant && pid in todo
    ensures
      var before, after := Synced(start, shadow, want, unwant, scan, todo),
                           Synced(start, shadow, want, unwant, scan, todo - {pid});
      && (pid in before <==> pid in start)
      && after == (if pid in want && pid !in scan.addFails then before + {pid}
                   else if pid in unwant && pid in shadow && pid !in scan.removeFails then before - {pid}
                   else before)
  {
  }

  /** A set once the processes to drop outside todo are gone. */
  ghost function Dropped(start: set<nat>, drop: set<nat>, todo: set<nat>): set<nat> { start - (drop - todo) }

  lemma DropStep(start: set<nat>, drop: set<nat>, todo: set<nat>, pid: nat)
    requires pid in todo
    ensures Dropped(start, drop, todo - {pid})
         == if pid in drop then Dropped(start, drop, todo) - {pid} else Dropped(start, drop, todo)
  {
  }

  class CrdWatcher {
    var specs: map<string, Spec>
    var shadow: set<nat>
    var kernel: set<nat>

    ghost function View(): State
      reads this
    {
      State(specs, shadow, kernel)
    }

    constructor (kernel: set<nat>)
      ensures View() == After(kernel, [])
    {
      specs, shadow := map[], {};
      this.kernel := kernel;
    }

    /** A failing update of the kernel map leaves it alone. */
    method AddMonitoredPid(pid: nat, fails: bool) returns (ok: bool)
      modifies this`kernel
      ensures ok == !fails
      ensures kernel == if fails then old(kernel) else old(kernel) + {pid}
    {
      if fails { return false; }
      kernel := kernel + {pid};
      return true;
    }

    /** Removing an absent key succeeds. */
    method RemoveMonitoredPid(pid: nat, fails: bool) returns (ok: bool)
      modifies this`kernel
      ensures ok == !fails
      ensures kernel == if fails then old(kernel) else old(kernel) - {pid}
    {
      if fails { return false; }
      kernel := kernel - {pid};
      return true;
    }

    method SyncMapped(uids: set<string>, scan: Scan)
      requires uids == DesiredPods(specs, scan.pods)
      modifies this`shadow, this`kernel
      ensures
        var added := Wanted(specs, scan) - scan.addFails;
        var removed := Unwanted(specs, scan) * old(shadow) - scan.removeFails;
        shadow == old(shadow) + added - removed && kernel == old(kernel) + added - removed
    {
      ghost var want, unwant, before := Wanted(specs, scan), Unwanted(specs, scan), shadow;
      var todo := scan.mapped;
      assert Synced(shadow, before, want, unwant, scan, todo) == shadow && want <= todo && unwant <= todo;
      assert Synced(kernel, before, want, unwant, scan, todo) == kernel;
      while todo != {}
        invariant todo <= scan.mapped
        invariant shadow == Synced(before, before, want, unwant, scan, todo)
        invariant kernel == Synced(old(kernel), before, want, unwant, scan, todo)
        decreases |todo|
      {
        hide Synced, DesiredPods;
        var pid :| pid in todo;
        SyncStep(before, before, want, unwant, scan, todo, pid);
        SyncStep(old(kernel), before, want, unwant, scan, todo, pid);
        todo := todo - {pid};
        if pid in scan.podOf {
          if scan.podOf[pid].id.uid in uids {
            var ok := AddMonitoredPid(pid, pid in scan.addFails);
            if ok { shadow := shadow + {pid}; }
          } else if pid in shadow {
            var ok := RemoveMonitoredPid(pid, pid in scan.removeFails);
            if ok { shadow := shadow - {pid}; }
          }
        }
      }
      hide Wanted, Unwanted;
    }

    method DropVanished(scan: Scan)
      modifies this`shadow, this`kernel
      ensures shadow == old(shadow) * scan.mapped
      ensures kernel == old(kernel) - (old(shadow) - scan.mapped - scan.removeFails)
    {
      var todo := shadow;
      while todo != {}
        invariant todo <= old(shadow)
        invariant shadow == Dropped(old(shadow), old(shadow) - scan.mapped, todo)
        invariant kernel == Dropped(old(kernel), old(shadow) - scan.mapped - scan.removeFails, todo)
        decreases |todo|
      {
        var pid :| pid in todo;
        DropStep(old(shadow), old(shadow) - scan.mapped, todo, pid);
        DropStep(old(kernel), old(shadow) - scan.mapped - scan.removeFails, todo, pid);
        hide Dropped;
        todo := todo - {pid};
        if pid !in scan.mapped {
          var ok := RemoveMonitoredPid(pid, pid in scan.removeFails);
          shadow := shadow - {pid};
        }
      }
    }

    method ReconcilePids(scan: Scan)
      modifies this
      ensures View() == Reconciled(old(View()), scan)
    {
      var uids := GatherPods(specs, scan.pods);
      SyncMapped(uids, scan);
      DropVanished(scan);
      assert Wanted(specs, scan) <= scan.mapped && Unwanted(specs, scan) <= scan.mapped;
    }

    method HandleEvent(event: Event, scan: Scan)
      modifies this
      ensures View() == Next(old(View()), Step(event, scan))
    {
      match event
      case Upsert(key, spec) =>
        specs := specs[key := spec];
        ReconcilePids(scan);
      case Malformed(key) =>
      case Deleted(key) =>
        specs := specs - {key};
        ReconcilePids(scan);
      case Tick =>
        ReconcilePids(scan);
    }
  }
}
