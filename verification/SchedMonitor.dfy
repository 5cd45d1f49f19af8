/**
 The eBPF scheduling monitor: per-task counters in a bounded kernel map, updated in place by the
 sched_switch and sched_process_exit hooks.
 */
module SchedMonitor {
  import opened Options

  const U64: nat := 0x1_0000_0000_0000_0000
  const U32: nat := 0x1_0000_0000
  const CAPACITY: nat := 65536

  function Low64(x: nat): nat { x % U64 }
  function Low32(x: nat): nat { x % U32 }

  function Add64(a: nat, b: nat): nat { Low64(a + b) }
  function Add32(a: nat, b: nat): nat { Low32(a + b) }

  lemma NoWrap(a: nat, b: nat)
    requires a + b < U64
    ensures Add64(a, b) == a + b
  {
  }

  lemma Wrap64(x: nat)
    ensures Add64(Low64(x), 1) == Low64(x + 1)
  {
  }

  lemma Wrap32(x: nat)
    ensures Add32(Low32(x), 1) == Low32(x + 1)
  {
  }

  // ---------------------------------------------------------------- one entry

  datatype Topology = Topology(core: nat, package: nat, numa: nat, valid: bool)

  datatype Level = Smt | L3 | Numa

  /** What one half of a context switch tells an entry; a switch-in sees the topology map of that moment. */
  datatype Touch =
    | Out(now: nat, voluntary: bool)
    | In(now: nat, cpu: nat, topology: map<nat, Topology>)

  datatype Metrics = Metrics(
    pid: nat, tgid: nat, voluntary: nat, involuntary: nat, cpuTime: nat, waitTime: nat, lastRun: nat, lastEnqueue: nat,
    runCount: nat, lastCpu: nat, migrations: nat, smt: nat, l3: nat, numa: nat)

  function Fresh(pid: nat, tgid: nat): Metrics { Metrics(pid, tgid, 0, 0, 0, 0, 0, 0, 0, 0, 0, 0, 0, 0) }

  function LevelOf(topology: map<nat, Topology>, a: nat, b: nat): Level
  {
    if a !in topology || b !in topology || !topology[a].valid || !topology[b].valid then L3
    else if topology[a].core == topology[b].core then Smt
    else if topology[a].package == topology[b].package && topology[a].numa == topology[b].numa then L3
    else Numa
  }

  function Elapsed(since: nat, now: nat): nat { if since != 0 && now > since then now - since else 0 }

  function SwitchedOut(m: Metrics, now: nat, voluntary: bool): Metrics
  {
    m.(cpuTime := Add64(m.cpuTime, Elapsed(m.lastRun, now)), lastRun := 0, lastEnqueue := now,
       voluntary := if voluntary then Add64(m.voluntary, 1) else m.voluntary,
       involuntary := if voluntary then m.involuntary else Add64(m.involuntary, 1))
  }

  function Migrated(m: Metrics, level: Level): Metrics
  {
    var n := m.(migrations := Add32(m.migrations, 1));
    match level
    case Smt => n.(smt := Add32(n.smt, 1))
    case L3 => n.(l3 := Add32(n.l3, 1))
    case Numa => n.(numa := Add32(n.numa, 1))
  }

  function SwitchedIn(m: Metrics, now: nat, cpu: nat, topology: map<nat, Topology>): Metrics
  {
    var n := m.(lastRun := now, runCount := Add64(m.runCount, 1), lastEnqueue := 0,
                waitTime := if Elapsed(m.lastEnqueue, now) == 0 then m.waitTime
                            else Add64(m.waitTime, Elapsed(m.lastEnqueue, now)));
    var moved := if n.runCount > 1 && n.lastCpu != cpu then Migrated(n, LevelOf(topology, n.lastCpu, cpu)) else n;
    moved.(lastCpu := cpu)
  }

  function Touched(m: Metrics, t: Touch): Metrics
  {
    match t
    case Out(now, voluntary) => SwitchedOut(m, now, voluntary)
    case In(now, cpu, topology) => SwitchedIn(m, now, cpu, topology)
  }

  function Replay(m: Metrics, h: seq<Touch>): Metrics
  {
    if h == [] then m else Touched(Replay(m, h[..|h| - 1]), h[|h| - 1])
  }

  // ---------------------------------------------------------------- what the counters mean

  ghost predicate Ordered(h: seq<Touch>)
  {
    && (forall i :: 0 <= i < |h| ==> 0 < h[i].now < U64)
    && (forall i, j :: 0 <= i < j < |h| ==> h[i].now <= h[j].now)
  }

  /** The time between neighbours of the given kinds, summed over the history. */
  function Gaps(h: seq<Touch>, fromIn: bool, toIn: bool): int
  {
    if |h| < 2 then 0
    else
      var a, b := h[|h| - 2], h[|h| - 1];
      Gaps(h[..|h| - 1], fromIn, toIn) + if a.In? == fromIn && b.In? == toIn then b.now - a.now else 0
  }

  /** Running, waiting and the time of repeated switch-ins or switch-outs add up to the whole span. */
  lemma {:induction false} GapsTelescope(h: seq<Touch>)
    requires h != [] && Ordered(h)
    ensures 0 <= Gaps(h, true, false) && 0 <= Gaps(h, false, true)
    ensures 0 <= Gaps(h, true, true) && 0 <= Gaps(h, false, false)
    ensures Gaps(h, true, false) + Gaps(h, false, true) + Gaps(h, true, true) + Gaps(h, false, false)
         == h[|h| - 1].now - h[0].now
  {
    if |h| >= 2 {
      GapsTelescope(h[..|h| - 1]);
    }
  }

  /** Two neighbours of the same kind at different times: the time between them is charged to neither sum. */
  predicate LosesAt(h: seq<Touch>, i: nat)
    requires i + 1 < |h|
  {
    h[i].In? == h[i + 1].In? && h[i].now != h[i + 1].now
  }

  lemma {:induction false} NothingLostIff(h: seq<Touch>)
    requires h != [] && Ordered(h)
    ensures Gaps(h, true, true) + Gaps(h, false, false) == 0 <==> forall i: nat :: i + 1 < |h| ==> !LosesAt(h, i)
  {
    if |h| >= 2 {
      var init, n := h[..|h| - 1], |h| - 2;
      NothingLostIff(init);
      GapsTelescope(init);
      LossStep(h);
      hide Ordered, Gaps;
      forall i: nat | i < n
        ensures LosesAt(init, i) == LosesAt(h, i)
      {
      }
    }
  }

  lemma LossStep(h: seq<Touch>)
    requires |h| >= 2 && Ordered(h)
    ensures
      var before := Gaps(h[..|h| - 1], true, true) + Gaps(h[..|h| - 1], false, false);
      var after := Gaps(h, true, true) + Gaps(h, false, false);
      if LosesAt(h, |h| - 2) then before < after else before == after
  {
  }

  /** An entry's times are exactly the running and the waiting gaps: nothing wraps. */
  lemma {:induction false} TimesAreGaps(pid: nat, tgid: nat, h: seq<Touch>)
    requires h != [] && Ordered(h)
    ensures
      var m, last := Replay(Fresh(pid, tgid), h), h[|h| - 1];
      && m.cpuTime == Gaps(h, true, false)
      && m.waitTime == Gaps(h, false, true)
      && m.lastRun == (if last.In? then last.now else 0)
      && m.lastEnqueue == (if last.In? then 0 else last.now)
  {
    var init, t := h[..|h| - 1], h[|h| - 1];
    var m := Replay(Fresh(pid, tgid), init);
    TouchTimes(m, t);
    if |h| == 1 {
      assert m == Fresh(pid, tgid);
      NoWrap(0, 0);
    } else {
      TimesAreGaps(pid, tgid, init);
      GapsTelescope(init);
      var a := h[|h| - 2];
      assert a == init[|init| - 1];
      hide Touched, Add64, Ordered;
      NoWrap(m.cpuTime, Elapsed(m.lastRun, t.now));
      NoWrap(m.waitTime, Elapsed(m.lastEnqueue, t.now));
    }
  }

  lemma TouchTimes(m: Metrics, t: Touch)
    ensures
      var n := Touched(m, t);
      && n.cpuTime == (if t.In? then m.cpuTime else Add64(m.cpuTime, Elapsed(m.lastRun, t.now)))
      && n.waitTime == (if t.In? && Elapsed(m.lastEnqueue, t.now) != 0
                        then Add64(m.waitTime, Elapsed(m.lastEnqueue, t.now)) else m.waitTime)
      && n.lastRun == (if t.In? then t.now else 0)
      && n.lastEnqueue == (if t.In? then 0 else t.now)
  {
  }

  /** CPU time plus wait time never exceeds the entry's span, and equals it iff no neighbours lose time. */
  lemma TimeIsConserved(pid: nat, tgid: nat, h: seq<Touch>)
    requires h != [] && Ordered(h)
    ensures
      var m := Replay(Fresh(pid, tgid), h);
      && m.cpuTime + m.waitTime <= h[|h| - 1].now - h[0].now
      && (m.cpuTime + m.waitTime == h[|h| - 1].now - h[0].now <==> forall i: nat :: i + 1 < |h| ==> !LosesAt(h, i))
  {
    TimesAreGaps(pid, tgid, h);
    GapsTelescope(h);
    NothingLostIff(h);
    hide Replay, Gaps, Ordered;
  }

  predicate Alternates(h: seq<Touch>, i: nat)
    requires i + 1 < |h|
  {
    h[i].In? != h[i + 1].In?
  }

  /** With strictly increasing times, the sum is the whole span iff switch-ins and switch-outs alternate. */
  lemma StrictTimeIsConservedIff(pid: nat, tgid: nat, h: seq<Touch>)
    requires h != [] && Ordered(h)
    requires forall i, j :: 0 <= i < j < |h| ==> h[i].now < h[j].now
    ensures
      var m := Replay(Fresh(pid, tgid), h);
      m.cpuTime + m.waitTime == h[|h| - 1].now - h[0].now <==> forall i: nat :: i + 1 < |h| ==> Alternates(h, i)
  {
    TimeIsConserved(pid, tgid, h);
    hide Replay;
    forall i: nat | i + 1 < |h|
      ensures LosesAt(h, i) <==> !Alternates(h, i)
    {
    }
  }

  /** Without strictness alternation is not necessary: two switch-ins at one instant lose nothing. */
  lemma EqualTimesNeedNotAlternate(pid: nat, tgid: nat, now: nat, cpu: nat)
    requires 0 < now < U64
    ensures
      var h := [In(now, cpu, map[]), In(now, cpu, map[])];
      var m := Replay(Fresh(pid, tgid), h);
      m.cpuTime + m.waitTime == h[1].now - h[0].now && !Alternates(h, 0)
  {
    var h := [In(now, cpu, map[]), In(now, cpu, map[])];
    TimeIsConserved(pid, tgid, h);
  }

  predicate IsIn(t: Touch) { t.In? }
  predicate IsVoluntary(t: Touch) { t.Out? && t.voluntary }
  predicate IsInvoluntary(t: Touch) { t.Out? && !t.voluntary }

  function Count(h: seq<Touch>, p: Touch -> bool): nat
  {
    if h == [] then 0 else Count(h[..|h| - 1], p) + if p(h[|h| - 1]) then 1 else 0
  }

  /** The CPU of the latest switch-in. */
  function CpuOf(h: seq<Touch>): Option<nat>
  {
    if h == [] then None
    else if h[|h| - 1].In? then Some(h[|h| - 1].cpu)
    else CpuOf(h[..|h| - 1])
  }

  /** The last touch runs it on another CPU than before, across the given level. */
  predicate Moves(h: seq<Touch>, level: Level)
    requires h != []
  {
    var t := h[|h| - 1];
    var before := CpuOf(h[..|h| - 1]);
    t.In? && before.Some? && before.value != t.cpu && LevelOf(t.topology, before.value, t.cpu) == level
  }

  function MoveCount(h: seq<Touch>, level: Level): nat
  {
    if h == [] then 0 else MoveCount(h[..|h| - 1], level) + if Moves(h, level) then 1 else 0
  }

  function AllMoves(h: seq<Touch>): nat { MoveCount(h, Smt) + MoveCount(h, L3) + MoveCount(h, Numa) }

  lemma {:induction false} MovesNeedRuns(h: seq<Touch>)
    ensures CpuOf(h).Some? <==> Count(h, IsIn) > 0
    ensures AllMoves(h) <= if Count(h, IsIn) == 0 then 0 else Count(h, IsIn) - 1
  {
    if h != [] {
      MovesNeedRuns(h[..|h| - 1]);
    }
  }

  ghost predicate SwitchCounts(m: Metrics, h: seq<Touch>)
  {
    && m.voluntary == Low64(Count(h, IsVoluntary))
    && m.involuntary == Low64(Count(h, IsInvoluntary))
    && m.runCount == Low64(Count(h, IsIn))
  }

  ghost predicate MigrationCounts(m: Metrics, h: seq<Touch>)
  {
    && m.lastCpu == (if CpuOf(h).Some? then CpuOf(h).value else 0)
    && m.smt == Low32(MoveCount(h, Smt))
    && m.l3 == Low32(MoveCount(h, L3))
    && m.numa == Low32(MoveCount(h, Numa))
    && m.migrations == Low32(AllMoves(h))
  }

  /** The counters of an entry are the counts of its history, in the width of each field. */
  ghost predicate Counts(m: Metrics, h: seq<Touch>) { SwitchCounts(m, h) && MigrationCounts(m, h) }

  lemma {:induction false} CountersAreCounts(pid: nat, tgid: nat, h: seq<Touch>)
    requires |h| < U64
    ensures Counts(Replay(Fresh(pid, tgid), h), h)
  {
    if h != [] {
      var m := Replay(Fresh(pid, tgid), h[..|h| - 1]);
      CountersAreCounts(pid, tgid, h[..|h| - 1]);
      hide Counts, Touched;
      if h[|h| - 1].Out? { OutCounts(m, h); } else { InCounts(m, h); }
    }
  }

  lemma TouchedOut(m: Metrics, t: Touch)
    requires t.Out?
    ensures
      var n := Touched(m, t);
      && n.voluntary == (if t.voluntary then Add64(m.voluntary, 1) else m.voluntary)
      && n.involuntary == (if t.voluntary then m.involuntary else Add64(m.involuntary, 1))
      && n.runCount == m.runCount && n.lastCpu == m.lastCpu && n.migrations == m.migrations
      && n.smt == m.smt && n.l3 == m.l3 && n.numa == m.numa
  {
    hide Add64, Elapsed;
  }

  lemma OutCounts(m: Metrics, h: seq<Touch>)
    requires h != [] && h[|h| - 1].Out? && Counts(m, h[..|h| - 1])
    ensures Counts(Touched(m, h[|h| - 1]), h)
  {
    var init := h[..|h| - 1];
    Wrap64(Count(init, IsVoluntary));
    Wrap64(Count(init, IsInvoluntary));
    TouchedOut(m, h[|h| - 1]);
    hide Touched, Low64, Low32, Add64;
  }

  lemma {:induction false} CountBound(h: seq<Touch>, p: Touch -> bool)
    ensures Count(h, p) <= |h|
  {
    if h != [] { CountBound(h[..|h| - 1], p); }
  }

  lemma RunCountIsExact(x: nat)
    requires x + 1 < U64
    ensures Low64(x) == x && Add64(Low64(x), 1) == x + 1
  {
  }

  lemma TouchedIn(m: Metrics, t: Touch)
    requires t.In?
    ensures
      var n := Touched(m, t);
      var moved := Add64(m.runCount, 1) > 1 && m.lastCpu != t.cpu;
      var level := LevelOf(t.topology, m.lastCpu, t.cpu);
      && n.voluntary == m.voluntary && n.involuntary == m.involuntary
      && n.runCount == Add64(m.runCount, 1) && n.lastCpu == t.cpu
      && n.migrations == (if moved then Add32(m.migrations, 1) else m.migrations)
      && n.smt == (if moved && level == Smt then Add32(m.smt, 1) else m.smt)
      && n.l3 == (if moved && level == L3 then Add32(m.l3, 1) else m.l3)
      && n.numa == (if moved && level == Numa then Add32(m.numa, 1) else m.numa)
  {
    hide Add64, Add32, Elapsed, LevelOf;
  }

  lemma MovesStep(h: seq<Touch>)
    requires h != [] && h[|h| - 1].In?
    ensures
      var init, t, before := h[..|h| - 1], h[|h| - 1], CpuOf(h[..|h| - 1]);
      var moved := before.Some? && before.value != t.cpu;
      && CpuOf(h) == Some(t.cpu)
      && AllMoves(h) == AllMoves(init) + (if moved then 1 else 0)
      && (forall l :: MoveCount(h, l) == MoveCount(init, l)
                      + if moved && LevelOf(t.topology, before.value, t.cpu) == l then 1 else 0)
  {
    hide LevelOf;
  }

  lemma InCounts(m: Metrics, h: seq<Touch>)
    requires h != [] && h[|h| - 1].In? && |h| < U64 && Counts(m, h[..|h| - 1])
    ensures Counts(Touched(m, h[|h| - 1]), h)
  {
    hide SwitchCounts, MigrationCounts, Touched;
    InSwitchCounts(m, h);
    InMigrationCounts(m, h);
  }

  lemma InSwitchCounts(m: Metrics, h: seq<Touch>)
    requires h != [] && h[|h| - 1].In? && SwitchCounts(m, h[..|h| - 1])
    ensures SwitchCounts(Touched(m, h[|h| - 1]), h)
  {
    Wrap64(Count(h[..|h| - 1], IsIn));
    TouchedIn(m, h[|h| - 1]);
    hide Touched, Low64, Add64;
  }

  /** The code's test for a move is the history's. */
  lemma MovedIff(m: Metrics, h: seq<Touch>)
    requires h != [] && h[|h| - 1].In? && |h| < U64 && Counts(m, h[..|h| - 1])
    ensures
      var before, t := CpuOf(h[..|h| - 1]), h[|h| - 1];
      && (Add64(m.runCount, 1) > 1 && m.lastCpu != t.cpu <==> before.Some? && before.value != t.cpu)
      && (before.Some? ==> m.lastCpu == before.value)
  {
    var init := h[..|h| - 1];
    CountBound(init, IsIn);
    MovesNeedRuns(init);
    RunCountIsExact(Count(init, IsIn));
    hide Low64, Low32, Add64, Count, CpuOf, MoveCount, AllMoves;
  }

  lemma InMigrationCounts(m: Metrics, h: seq<Touch>)
    requires h != [] && h[|h| - 1].In? && |h| < U64 && Counts(m, h[..|h| - 1])
    ensures MigrationCounts(Touched(m, h[|h| - 1]), h)
  {
    var init, t := h[..|h| - 1], h[|h| - 1];
    MovedIff(m, h);
    TouchedIn(m, t);
    MovesStep(h);
    Wrap32(MoveCount(init, Smt));
    Wrap32(MoveCount(init, L3));
    Wrap32(MoveCount(init, Numa));
    Wrap32(AllMoves(init));
    hide SwitchCounts, MoveCount, AllMoves, CpuOf, Touched, Low32, Add64, Add32, LevelOf;
  }

  lemma MigrationsBelowRuns(pid: nat, tgid: nat, h: seq<Touch>)
    requires |h| < U64
    ensures
      var m := Replay(Fresh(pid, tgid), h);
      m.migrations <= if m.runCount == 0 then 0 else m.runCount - 1
  {
    CountersAreCounts(pid, tgid, h);
    MovesNeedRuns(h);
    CountBound(h, IsIn);
    hide *;
    LowIsExact(Count(h, IsIn));
    CountsUnfold(Replay(Fresh(pid, tgid), h), h);
  }

  lemma LowIsExact(x: nat)
    requires x < U64
    ensures Low64(x) == x
  {
  }

  lemma CountsUnfold(m: Metrics, h: seq<Touch>)
    requires Counts(m, h)
    ensures m.runCount == Low64(Count(h, IsIn)) && m.migrations <= AllMoves(h)
  {
  }

  predicate Balanced(m: Metrics) { m.migrations == Low32(m.smt + m.l3 + m.numa) }

  /** Every move is counted once in total and once by level, whatever wraps. */
  lemma {:induction false} MigrationsBalance(pid: nat, tgid: nat, h: seq<Touch>)
    ensures Balanced(Replay(Fresh(pid, tgid), h))
  {
    if h != [] {
      var m, t := Replay(Fresh(pid, tgid), h[..|h| - 1]), h[|h| - 1];
      MigrationsBalance(pid, tgid, h[..|h| - 1]);
      TouchedBalance(m, t);
    }
  }

  lemma TouchedBalance(m: Metrics, t: Touch)
    requires Balanced(m)
    ensures Balanced(Touched(m, t))
  {
    if t.In? {
      TouchedIn(m, t);
      match LevelOf(t.topology, m.lastCpu, t.cpu)
      case Smt => CarryInto(m.smt, m.l3 + m.numa);
      case L3 => CarryInto(m.l3, m.smt + m.numa);
      case Numa => CarryInto(m.numa, m.smt + m.l3);
    }
    hide Low32, Low64, Add32, Add64, LevelOf, Elapsed;
    if t.In? { hide Touched; }
  }

  /** Counting one more in a wrapped part or in the wrapped whole comes to the same. */
  lemma CarryInto(part: nat, rest: nat)
    ensures Add32(Low32(part + rest), 1) == Low32(Add32(part, 1) + rest)
    ensures Low32(part + rest) == Low32(rest + part)
  {
  }

  // ---------------------------------------------------------------- the kernel map and its hooks

  datatype State = State(
    metrics: map<nat, Metrics>, monitorAll: bool, pids: set<nat>, tgids: set<nat>, topology: map<nat, Topology>)

  /** A context switch is a switch-out followed by a switch-in; user space may change filter and topology any time. */
  datatype Event =
    | SwitchOut(pid: nat, tgid: nat, now: nat, prevState: nat)
    | SwitchIn(pid: nat, tgid: nat, now: nat, cpu: nat)
    | Exit(pid: nat, tgid: nat)
    | SetFilter(pids: set<nat>, tgids: set<nat>)
    | SetTopology(topology: map<nat, Topology>)

  predicate ShouldMonitor(s: State, pid: nat, tgid: nat) { s.monitorAll || pid in s.pids || tgid in s.tgids }

  /** A new entry needs room in the map. */
  predicate Admits(s: State, pid: nat) { pid in s.metrics || |s.metrics| < CAPACITY }

  predicate Records(s: State, pid: nat, tgid: nat) { pid != 0 && ShouldMonitor(s, pid, tgid) && Admits(s, pid) }

  function EntryOf(s: State, pid: nat, tgid: nat): Metrics
  {
    if pid in s.metrics then s.metrics[pid] else Fresh(pid, tgid)
  }

  function Recorded(s: State, pid: nat, tgid: nat, t: Touch): State
  {
    if Records(s, pid, tgid) then s.(metrics := s.metrics[pid := Touched(EntryOf(s, pid, tgid), t)]) else s
  }

  function Next(s: State, e: Event): State
  {
    match e
    case SwitchOut(pid, tgid, now, prevState) => Recorded(s, pid, tgid, Out(now, prevState != 0))
    case SwitchIn(pid, tgid, now, cpu) => Recorded(s, pid, tgid, In(now, cpu, s.topology))
    case Exit(pid, tgid) => if ShouldMonitor(s, pid, tgid) then s.(metrics := s.metrics - {pid}) else s
    case SetFilter(pids, tgids) => s.(pids := pids, tgids := tgids)
    case SetTopology(topology) => s.(topology := topology)
  }

  function After(s: State, trace: seq<Event>): State
  {
    if trace == [] then s else Next(After(s, trace[..|trace| - 1]), trace[|trace| - 1])
  }

  // ---------------------------------------------------------------- an entry is the history since the last exit

  datatype Log = Log(tgid: nat, touches: seq<Touch>)

  /** The touches of a task that were recorded since the hook last saw it exit, and the thread group of the first. */
  function Since(s: State, trace: seq<Event>, pid: nat): Log
  {
    if trace == [] then Log(0, [])
    else
      var before := After(s, trace[..|trace| - 1]);
      var log := Since(s, trace[..|trace| - 1], pid);
      match trace[|trace| - 1]
      case SwitchOut(p, tgid, now, prevState) =>
        Extended(log, p == pid && Records(before, p, tgid), tgid, Out(now, prevState != 0))
      case SwitchIn(p, tgid, now, cpu) =>
        Extended(log, p == pid && Records(before, p, tgid), tgid, In(now, cpu, before.topology))
      case Exit(p, tgid) => if p == pid && ShouldMonitor(before, p, tgid) then Log(0, []) else log
      case _ => log
  }

  function Extended(log: Log, recorded: bool, tgid: nat, t: Touch): Log
  {
    if !recorded then log
    else if log.touches == [] then Log(tgid, [t])
    else log.(touches := log.touches + [t])
  }

  ghost predicate Matches(metrics: map<nat, Metrics>, pid: nat, log: Log)
  {
    && (pid in metrics <==> log.touches != [])
    && (pid in metrics ==> metrics[pid] == Replay(Fresh(pid, log.tgid), log.touches))
  }

  /** In every run, over any filter and topology changes, each entry is the replay of its own history. */
  lemma {:induction false} EntriesAreHistories(s: State, trace: seq<Event>, pid: nat)
    requires s.metrics == map[]
    ensures Matches(After(s, trace).metrics, pid, Since(s, trace, pid))
  {
    if trace != [] {
      var init, e := trace[..|trace| - 1], trace[|trace| - 1];
      var before, log := After(s, init), Since(s, init, pid);
      EntriesAreHistories(s, init, pid);
      match e
      case SwitchOut(p, tgid, now, prevState) => RecordMatches(before, p, tgid, Out(now, prevState != 0), pid, log);
      case SwitchIn(p, tgid, now, cpu) => RecordMatches(before, p, tgid, In(now, cpu, before.topology), pid, log);
      case _ =>
    }
  }

  lemma RecordMatches(s: State, p: nat, tgid: nat, t: Touch, pid: nat, log: Log)
    requires Matches(s.metrics, pid, log)
    ensures Matches(Recorded(s, p, tgid, t).metrics, pid, Extended(log, p == pid && Records(s, p, tgid), tgid, t))
  {
    if p == pid && Records(s, p, tgid) {
      ReplayAppend(Fresh(pid, if log.touches == [] then tgid else log.tgid), log.touches, t);
      assert log.touches == [] ==> log.touches + [t] == [t];
      assert log.touches == [] ==> Replay(Fresh(pid, tgid), log.touches) == Fresh(pid, tgid);
    }
    hide Touched, Records, Replay;
  }

  lemma ReplayAppend(m: Metrics, h: seq<Touch>, t: Touch)
    ensures Replay(m, h + [t]) == Touched(Replay(m, h), t)
  {
    hide Touched;
    assert (h + [t])[..|h|] == h;
  }

  /** Kernel time is positive and does not run backwards. */
  ghost predicate Clocked(trace: seq<Event>)
  {
    && (forall i :: 0 <= i < |trace| && Timed(trace[i]) ==> 0 < trace[i].now < U64)
    && (forall i, j :: 0 <= i < j < |trace| && Timed(trace[i]) && Timed(trace[j]) ==> trace[i].now <= trace[j].now)
  }

  predicate Timed(e: Event) { e.SwitchOut? || e.SwitchIn? }

  ghost predicate AtMost(h: seq<Touch>, now: nat) { forall i :: 0 <= i < |h| ==> h[i].now <= now }

  ghost predicate NotLater(trace: seq<Event>, now: nat)
  {
    forall i :: 0 <= i < |trace| && Timed(trace[i]) ==> trace[i].now <= now
  }

  lemma {:induction false} SinceIsOrdered(s: State, trace: seq<Event>, pid: nat, now: nat)
    requires Clocked(trace) && NotLater(trace, now)
    ensures Ordered(Since(s, trace, pid).touches)
    ensures AtMost(Since(s, trace, pid).touches, now)
  {
    if trace != [] {
      var init, e := trace[..|trace| - 1], trace[|trace| - 1];
      SinceIsOrdered(s, init, pid, if Timed(e) then e.now else now);
      SinceGrows(s, trace, pid);
      assert Timed(e) ==> 0 < e.now < U64 && e.now <= now;
      hide Since, Clocked, NotLater;
    }
  }

  /** The last event resets the history, leaves it alone, or adds one touch at its own time. */
  lemma SinceGrows(s: State, trace: seq<Event>, pid: nat)
    requires trace != []
    ensures
      var e, h, g := trace[|trace| - 1], Since(s, trace[..|trace| - 1], pid).touches, Since(s, trace, pid).touches;
      || g == [] || g == h
      || (Timed(e) && e.pid == pid && |g| == |h| + 1 && g[..|h|] == h && g[|h|].now == e.now)
  {
    hide Records, After;
  }

  /**
   In every run with a positive clock that never runs backwards, whatever happens to the filter, the topology
   or other tasks: an entry's times lie within its span and meet it iff no neighbours lose time.
   */
  lemma EveryRunConservesTime(s: State, trace: seq<Event>, pid: nat)
    requires s.metrics == map[] && Clocked(trace)
    ensures
      var metrics, h := After(s, trace).metrics, Since(s, trace, pid).touches;
      pid in metrics ==>
        var m := metrics[pid];
        && h != []
        && m.cpuTime == Gaps(h, true, false) && m.waitTime == Gaps(h, false, true)
        && m.cpuTime + m.waitTime <= h[|h| - 1].now - h[0].now < U64
        && (m.cpuTime + m.waitTime == h[|h| - 1].now - h[0].now <==> forall i: nat :: i + 1 < |h| ==> !LosesAt(h, i))
  {
    hide After, Since, Replay, Gaps;
    EntriesAreHistories(s, trace, pid);
    SinceIsOrdered(s, trace, pid, U64 - 1);
    hide Clocked, NotLater;
    var log := Since(s, trace, pid);
    if pid in After(s, trace).metrics {
      TimesAreGaps(pid, log.tgid, log.touches);
      TimeIsConserved(pid, log.tgid, log.touches);
    }
  }

  /** The events of one task come at strictly increasing times. */
  ghost predicate StrictFor(trace: seq<Event>, pid: nat)
  {
    forall i, j :: 0 <= i < j < |trace| && Timed(trace[i]) && Timed(trace[j]) && trace[i].pid == trace[j].pid == pid ==>
      trace[i].now < trace[j].now
  }

  ghost predicate Below(h: seq<Touch>, now: nat) { forall i :: 0 <= i < |h| ==> h[i].now < now }
  ghost predicate Strict(h: seq<Touch>) { forall i, j :: 0 <= i < j < |h| ==> h[i].now < h[j].now }

  ghost predicate AllBefore(trace: seq<Event>, pid: nat, now: nat)
  {
    forall i :: 0 <= i < |trace| && Timed(trace[i]) && trace[i].pid == pid ==> trace[i].now < now
  }

  lemma {:induction false} SinceIsStrict(s: State, trace: seq<Event>, pid: nat, now: nat)
    requires StrictFor(trace, pid) && AllBefore(trace, pid, now)
    ensures Strict(Since(s, trace, pid).touches) && Below(Since(s, trace, pid).touches, now)
  {
    if trace != [] {
      var init, e := trace[..|trace| - 1], trace[|trace| - 1];
      SinceIsStrict(s, init, pid, if Timed(e) && e.pid == pid then e.now else now);
      SinceGrows(s, trace, pid);
      assert Timed(e) && e.pid == pid ==> e.now < now;
      hide Since, StrictFor, AllBefore;
    }
  }

  /** In every such run an entry's times fill its span iff its switch-ins and switch-outs alternate. */
  lemma EveryStrictRunConservesTimeIff(s: State, trace: seq<Event>, pid: nat)
    requires s.metrics == map[] && Clocked(trace) && StrictFor(trace, pid)
    ensures
      var metrics, h := After(s, trace).metrics, Since(s, trace, pid).touches;
      pid in metrics ==>
        h != [] &&
        (metrics[pid].cpuTime + metrics[pid].waitTime == h[|h| - 1].now - h[0].now
         <==> forall i: nat :: i + 1 < |h| ==> Alternates(h, i))
  {
    hide After, Since, Replay, Ordered, StrictFor;
    EntriesAreHistories(s, trace, pid);
    SinceIsOrdered(s, trace, pid, U64 - 1);
    SinceIsStrict(s, trace, pid, U64);
    hide Clocked, NotLater, AllBefore;
    var log := Since(s, trace, pid);
    if pid in After(s, trace).metrics { StrictTimeIsConservedIff(pid, log.tgid, log.touches); }
  }

  /** In every run each entry's counters are the counts of its history, and its migrations add up. */
  lemma EveryRunCounts(s: State, trace: seq<Event>, pid: nat)
    requires s.metrics == map[] && |trace| < U64
    ensures
      var metrics, h := After(s, trace).metrics, Since(s, trace, pid).touches;
      pid in metrics ==>
        var m := metrics[pid];
        && m.pid == pid && Counts(m, h) && Balanced(m)
        && m.migrations <= if m.runCount == 0 then 0 else m.runCount - 1
  {
    EntriesAreHistories(s, trace, pid);
    SinceIsShort(s, trace, pid);
    if pid in After(s, trace).metrics {
      var log := Since(s, trace, pid);
      CountersAreCounts(pid, log.tgid, log.touches);
      MigrationsBalance(pid, log.tgid, log.touches);
      MigrationsBelowRuns(pid, log.tgid, log.touches);
      ReplayKeepsPid(Fresh(pid, log.tgid), log.touches);
      hide After, Since, Replay, Counts, Balanced;
    }
  }

  lemma {:induction false} SinceIsShort(s: State, trace: seq<Event>, pid: nat)
    ensures |Since(s, trace, pid).touches| <= |trace|
  {
    if trace != [] {
      SinceIsShort(s, trace[..|trace| - 1], pid);
      hide Records, After;
    }
  }

  lemma {:induction false} ReplayKeepsPid(m: Metrics, h: seq<Touch>)
    ensures Replay(m, h).pid == m.pid && Replay(m, h).tgid == m.tgid
  {
    if h != [] {
      ReplayKeepsPid(m, h[..|h| - 1]);
      hide Add64, Add32, LevelOf, Elapsed;
    }
  }

  /** The map never outgrows its capacity. */
  lemma {:induction false} MapStaysBounded(s: State, trace: seq<Event>)
    requires |s.metrics| <= CAPACITY
    ensures |After(s, trace).metrics| <= CAPACITY
  {
    if trace != [] {
      MapStaysBounded(s, trace[..|trace| - 1]);
      hide Next;
      NextStaysBounded(After(s, trace[..|trace| - 1]), trace[|trace| - 1]);
    }
  }

  lemma NextStaysBounded(s: State, e: Event)
    requires |s.metrics| <= CAPACITY
    ensures |Next(s, e).metrics| <= CAPACITY
  {
    hide Touched, ShouldMonitor;
    if e.Exit? {
      assert (s.metrics - {e.pid}).Keys <= s.metrics.Keys;
      SubsetIsNoBigger((s.metrics - {e.pid}).Keys, s.metrics.Keys);
    }
  }

  lemma {:induction false} SubsetIsNoBigger<T>(a: set<T>, b: set<T>)
    requires a <= b
    ensures |a| <= |b|
  {
    if a != {} {
      var x :| x in a;
      SubsetIsNoBigger(a - {x}, b - {x});
    }
  }

  // ---------------------------------------------------------------- the hooks in place

  class Monitor {
    var metrics: map<nat, Metrics>
    const monitorAll: bool
    var pids: set<nat>
    var tgids: set<nat>
    var topology: map<nat, Topology>

    ghost function View(): State
      reads this
    {
      State(metrics, monitorAll, pids, tgids, topology)
    }

    constructor (all: bool)
      ensures View() == State(map[], all, {}, {}, map[])
    {
      metrics, monitorAll, pids, tgids, topology := map[], all, {}, {}, map[];
    }

    predicate Monitored(pid: nat, tgid: nat)
      reads this
    {
      monitorAll || pid in pids || tgid in tgids
    }

    /** Looks the entry up, creating it when there is room. */
    method GetOrInit(pid: nat, tgid: nat) returns (found: bool)
      modifies this`metrics
      ensures found <==> old(Admits(View(), pid))
      ensures metrics == if found then old(metrics)[pid := old(EntryOf(View(), pid, tgid))] else old(metrics)
    {
      if pid !in metrics {
        if |metrics| >= CAPACITY { return false; }
        metrics := metrics[pid := Fresh(pid, tgid)];
      }
      return true;
    }

    method HandleSwitchOut(pid: nat, tgid: nat, now: nat, prevState: nat)
      modifies this`metrics
      ensures View() == Next(old(View()), SwitchOut(pid, tgid, now, prevState))
    {
      if pid == 0 || !Monitored(pid, tgid) { return; }
      var found := GetOrInit(pid, tgid);
      if !found { return; }
      var m := metrics[pid];
      var delta := 0;
      if m.lastRun != 0 && now > m.lastRun { delta := now - m.lastRun; }
      m := m.(cpuTime := Add64(m.cpuTime, delta), lastRun := 0);
      if prevState == 0 {
        m := m.(involuntary := Add64(m.involuntary, 1));
      } else {
        m := m.(voluntary := Add64(m.voluntary, 1));
      }
      m := m.(lastEnqueue := now);
      metrics := metrics[pid := m];
    }

    method HandleSwitchIn(pid: nat, tgid: nat, now: nat, cpu: nat)
      modifies this`metrics
      ensures View() == Next(old(View()), SwitchIn(pid, tgid, now, cpu))
    {
      if pid == 0 || !Monitored(pid, tgid) { return; }
      var found := GetOrInit(pid, tgid);
      if !found { return; }
      var m := metrics[pid];
      m := m.(lastRun := now, runCount := Add64(m.runCount, 1));
      if m.lastEnqueue != 0 && now > m.lastEnqueue {
        m := m.(waitTime := Add64(m.waitTime, now - m.lastEnqueue));
      }
      m := m.(lastEnqueue := 0);
      if m.runCount > 1 && m.lastCpu != cpu {
        m := Migrated(m, LevelOf(topology, m.lastCpu, cpu));
      }
      m := m.(lastCpu := cpu);
      metrics := metrics[pid := m];
    }

    /** sched_switch: one thread leaves the CPU, then another takes it. */
    method HandleSwitch(prev: nat, prevTgid: nat, next: nat, nextTgid: nat, prevState: nat, cpu: nat, now: nat)
      modifies this`metrics
      ensures View() == Next(Next(old(View()), SwitchOut(prev, prevTgid, now, prevState)),
                             SwitchIn(next, nextTgid, now, cpu))
    {
      HandleSwitchOut(prev, prevTgid, now, prevState);
      HandleSwitchIn(next, nextTgid, now, cpu);
    }

    /** sched_process_exit. */
    method HandleExit(pid: nat, tgid: nat)
      modifies this`metrics
      ensures View() == Next(old(View()), Exit(pid, tgid))
    {
      if !Monitored(pid, tgid) { return; }
      metrics := metrics - {pid};
    }
  }
}
