/**
 The pod mapper as goroutines share it: a lookup reads the cache, then looks up each cgroup line under its own
 read lock, then stores; a scan does the same for many processes and swaps the cache at the end; the index can
 be replaced between any two of those steps.
 */
module SharedMapper {
  import opened Options
  import PodMapper

  type PodRef = PodMapper.PodRef
  type Proc = PodMapper.Proc
  type Index = map<string, PodRef>

  function LinesOf(proc: Proc, pid: nat): seq<string> { if pid in proc then proc[pid] else [] }
  function Uid(line: string): string { PodMapper.ExtractPodUid(line) }
  function Resolution(proc: Proc, index: Index, pid: nat): Option<PodRef> { PodMapper.Resolve(proc, index, pid) }

  /** The line names a pod of the index. */
  predicate Names(line: string, index: Index) { Uid(line) != "" && Uid(line) in index }

  // ---------------------------------------------------------------- state and steps

  /** What a call found: on which line, under which version of the index, and the version it began with. */
  datatype Entry = Entry(ref: PodRef, since: nat, at: nat, line: nat)

  /** A lookup of one process or a scan of many; `missed` is the version under which it last missed. */
  datatype Call = Call(scan: bool, pid: nat, since: nat, todo: seq<nat>, line: nat, missed: nat, found: map<nat, Entry>)

  /** A finished lookup: the call that resolved it began at version `since` and decided at version `at`. */
  datatype Answer = Answer(pid: nat, ref: Option<PodRef>, since: nat, at: nat, hit: bool)

  datatype State = State(
    history: seq<Index>,              // every index there has been; the last one is current
    cache: map<nat, Entry>,
    calls: map<nat, Call>,
    answers: seq<Answer>)

  const INITIAL := State([map[]], map[], map[], [])

  datatype Step =
    | SetIndex(pods: Index)
    | Hit(pid: nat)
    | Miss(c: nat, pid: nat)
    | StartScan(c: nat, pids: seq<nat>)
    | Look(c: nat)
    | Store(c: nat)

  function Now(s: State): nat
    requires s.history != []
  {
    |s.history| - 1
  }

  predicate Enabled(s: State, step: Step)
  {
    && s.history != []
    && match step
       case SetIndex(_) => true
       case Hit(pid) => pid in s.cache
       case Miss(c, pid) => c !in s.calls && pid !in s.cache
       case StartScan(c, _) => c !in s.calls
       case Look(c) => c in s.calls && s.calls[c].todo != []
       case Store(c) => c in s.calls && s.calls[c].todo == []
  }

  /** One look at the next line of the process at hand; past the last line the process is given up. */
  function Looked(proc: Proc, k: Call, index: Index, now: nat): Call
    requires k.todo != []
  {
    var pid, lines := k.todo[0], LinesOf(proc, k.todo[0]);
    if k.line >= |lines| then k.(todo := k.todo[1..], line := 0)
    else if Names(lines[k.line], index) then
      k.(todo := k.todo[1..], line := 0,
         found := k.found[pid := Entry(index[Uid(lines[k.line])], k.since, now, k.line)])
    else k.(line := k.line + 1, missed := if Uid(lines[k.line]) != "" then now else k.missed)
  }

  function AnswerOf(k: Call): Answer
  {
    if k.pid in k.found then Answer(k.pid, Some(k.found[k.pid].ref), k.since, k.found[k.pid].at, false)
    else Answer(k.pid, None, k.since, k.missed, false)
  }

  function Apply(proc: Proc, s: State, step: Step): State
    requires Enabled(s, step)
  {
    match step
    case SetIndex(pods) => s.(history := s.history + [pods], cache := map[])
    case Hit(pid) =>
      var e := s.cache[pid];
      s.(answers := s.answers + [Answer(pid, Some(e.ref), e.since, e.at, true)])
    case Miss(c, pid) => s.(calls := s.calls[c := Call(false, pid, Now(s), [pid], 0, Now(s), map[])])
    case StartScan(c, pids) => s.(calls := s.calls[c := Call(true, 0, Now(s), pids, 0, Now(s), map[])])
    case Look(c) => s.(calls := s.calls[c := Looked(proc, s.calls[c], s.history[Now(s)], Now(s))])
    case Store(c) =>
      var k := s.calls[c];
      if k.scan then s.(cache := k.found, calls := s.calls - {c})
      else s.(cache := s.cache + k.found, calls := s.calls - {c}, answers := s.answers + [AnswerOf(k)])
  }

  /** The state after an interleaving of steps, if every step was enabled when taken. */
  function After(proc: Proc, init: State, steps: seq<Step>): Option<State>
  {
    if steps == [] then Some(init)
    else
      var before, last := After(proc, init, steps[..|steps| - 1]), steps[|steps| - 1];
      if before.Some? && Enabled(before.value, last) then Some(Apply(proc, before.value, last)) else None
  }

  ghost predicate Reachable(proc: Proc, steps: seq<Step>, s: State) { After(proc, INITIAL, steps) == Some(s) }

  // ---------------------------------------------------------------- answers were current

  /** All lines of the process that name a pod name the same one. */
  ghost predicate OneUid(lines: seq<string>)
  {
    forall i, j :: 0 <= i < |lines| && 0 <= j < |lines| && Uid(lines[i]) != "" && Uid(lines[j]) != "" ==>
      Uid(lines[i]) == Uid(lines[j])
  }

  /** Found on a line of the process, under a version current during the call. */
  ghost predicate EntryOk(proc: Proc, history: seq<Index>, pid: nat, e: Entry)
  {
    && e.since <= e.at < |history| && e.line < |LinesOf(proc, pid)|
    && Names(LinesOf(proc, pid)[e.line], history[e.at])
    && e.ref == history[e.at][Uid(LinesOf(proc, pid)[e.line])]
  }

  ghost predicate MissedAll(lines: seq<string>, n: nat, index: Index)
    requires n <= |lines|
  {
    forall i :: 0 <= i < n ==> !Names(lines[i], index)
  }

  ghost predicate CallOk(proc: Proc, history: seq<Index>, k: Call)
  {
    && k.since <= k.missed < |history|
    && (forall pid :: pid in k.found ==> EntryOk(proc, history, pid, k.found[pid]) && k.found[pid].since == k.since)
    && (k.todo != [] ==>
          var lines := LinesOf(proc, k.todo[0]);
          k.line <= |lines| && (OneUid(lines) ==> MissedAll(lines, k.line, history[k.missed])))
    && (!k.scan ==> k.todo == [k.pid] || k.todo == [])
    && (!k.scan && k.todo == [] && k.pid !in k.found ==>
          var lines := LinesOf(proc, k.pid);
          OneUid(lines) ==> MissedAll(lines, |lines|, history[k.missed]))
  }

  /** For a process of one pod, the answer is the resolution under an index current during the call that resolved it. */
  ghost predicate AnswerOk(proc: Proc, history: seq<Index>, a: Answer)
  {
    && a.since <= a.at < |history|
    && (OneUid(LinesOf(proc, a.pid)) ==> a.ref == Resolution(proc, history[a.at], a.pid))
  }

  ghost predicate Inv(proc: Proc, s: State)
  {
    && s.history != []
    && (forall pid :: pid in s.cache ==> EntryOk(proc, s.history, pid, s.cache[pid]))
    && (forall c :: c in s.calls ==> CallOk(proc, s.history, s.calls[c]))
    && (forall i :: 0 <= i < |s.answers| ==> AnswerOk(proc, s.history, s.answers[i]))
  }

  lemma {:induction false} AllMissedResolvesToNone(lines: seq<string>, index: Index)
    requires MissedAll(lines, |lines|, index)
    ensures PodMapper.ResolveLines(lines, index) == None
  {
    hide PodMapper.ExtractPodUid;
    if lines != [] {
      assert !Names(lines[0], index);
      assert forall i :: 0 <= i < |lines| - 1 ==> lines[1..][i] == lines[i + 1];
      AllMissedResolvesToNone(lines[1..], index);
    }
  }

  /** The first line that names a known pod decides. */
  lemma {:induction false} FirstNamedResolves(lines: seq<string>, index: Index, n: nat)
    requires n < |lines| && MissedAll(lines, n, index) && Names(lines[n], index)
    ensures PodMapper.ResolveLines(lines, index) == Some(index[Uid(lines[n])])
  {
    hide PodMapper.ExtractPodUid;
    if n > 0 {
      assert !Names(lines[0], index);
      assert forall i :: 0 <= i < |lines| - 1 ==> lines[1..][i] == lines[i + 1];
      FirstNamedResolves(lines[1..], index, n - 1);
    }
  }

  lemma {:induction false} SomeFirstNamed(lines: seq<string>, index: Index, n: nat) returns (first: nat)
    requires n < |lines| && Names(lines[n], index)
    ensures first <= n && MissedAll(lines, first, index) && Names(lines[first], index)
  {
    hide Names;
    if i :| 0 <= i < n && Names(lines[i], index) {
      first := SomeFirstNamed(lines, index, i);
    } else {
      first := n;
    }
  }

  /** For a process of one pod any line that names a known pod gives the resolution. */
  lemma EntryResolves(proc: Proc, index: Index, pid: nat, n: nat)
    requires n < |LinesOf(proc, pid)| && Names(LinesOf(proc, pid)[n], index) && OneUid(LinesOf(proc, pid))
    ensures Resolution(proc, index, pid) == Some(index[Uid(LinesOf(proc, pid)[n])])
  {
    var lines := LinesOf(proc, pid);
    var first := SomeFirstNamed(lines, index, n);
    FirstNamedResolves(lines, index, first);
    hide PodMapper.ExtractPodUid;
  }

  lemma LookedIsOk(proc: Proc, history: seq<Index>, k: Call)
    requires history != [] && CallOk(proc, history, k) && k.todo != []
    ensures CallOk(proc, history, Looked(proc, k, history[|history| - 1], |history| - 1))
  {
    var index, lines := history[|history| - 1], LinesOf(proc, k.todo[0]);
    if k.line >= |lines| {
      hide EntryOk, OneUid, Names;
    } else if Names(lines[k.line], index) {
      FoundIsOk(proc, history, k);
    } else {
      MissIsOk(proc, history, k);
    }
    hide PodMapper.ExtractPodUid, EntryOk, CallOk, LinesOf;
  }

  lemma FoundIsOk(proc: Proc, history: seq<Index>, k: Call)
    requires history != [] && CallOk(proc, history, k) && k.todo != [] && k.line < |LinesOf(proc, k.todo[0])|
    requires Names(LinesOf(proc, k.todo[0])[k.line], history[|history| - 1])
    ensures CallOk(proc, history, Looked(proc, k, history[|history| - 1], |history| - 1))
  {
    hide PodMapper.ExtractPodUid, LinesOf, OneUid;
    var now := |history| - 1;
    assert EntryOk(proc, history, k.todo[0], Looked(proc, k, history[now], now).found[k.todo[0]]);
    hide EntryOk, Names;
  }

  lemma MissIsOk(proc: Proc, history: seq<Index>, k: Call)
    requires history != [] && CallOk(proc, history, k) && k.todo != [] && k.line < |LinesOf(proc, k.todo[0])|
    requires !Names(LinesOf(proc, k.todo[0])[k.line], history[|history| - 1])
    ensures CallOk(proc, history, Looked(proc, k, history[|history| - 1], |history| - 1))
  {
    hide PodMapper.ExtractPodUid, LinesOf, EntryOk;
    var lines, index := LinesOf(proc, k.todo[0]), history[|history| - 1];
    if Uid(lines[k.line]) != "" && OneUid(lines) {
      forall i | 0 <= i < k.line + 1
        ensures !Names(lines[i], index)
      {
        assert Uid(lines[i]) != "" ==> Uid(lines[i]) == Uid(lines[k.line]);
      }
    }
  }

  lemma AnswerOfIsOk(proc: Proc, history: seq<Index>, k: Call)
    requires CallOk(proc, history, k) && !k.scan && k.todo == []
    ensures AnswerOk(proc, history, AnswerOf(k))
  {
    var lines := LinesOf(proc, k.pid);
    if OneUid(lines) {
      if k.pid in k.found {
        assert EntryOk(proc, history, k.pid, k.found[k.pid]);
        EntryResolves(proc, history[k.found[k.pid].at], k.pid, k.found[k.pid].line);
      } else {
        AllMissedResolvesToNone(lines, history[k.missed]);
      }
    }
    hide PodMapper.ExtractPodUid, PodMapper.ResolveLines, OneUid;
  }

  lemma HitIsOk(proc: Proc, history: seq<Index>, pid: nat, e: Entry)
    requires EntryOk(proc, history, pid, e)
    ensures AnswerOk(proc, history, Answer(pid, Some(e.ref), e.since, e.at, true))
  {
    if OneUid(LinesOf(proc, pid)) { EntryResolves(proc, history[e.at], pid, e.line); }
    hide PodMapper.ExtractPodUid, Resolution, OneUid;
  }

  lemma LongerHistory(proc: Proc, history: seq<Index>, pods: Index)
    ensures forall pid, e :: EntryOk(proc, history, pid, e) ==> EntryOk(proc, history + [pods], pid, e)
    ensures forall a :: AnswerOk(proc, history, a) ==> AnswerOk(proc, history + [pods], a)
  {
    hide Names, Resolution, OneUid, LinesOf;
  }

  lemma LongerCall(proc: Proc, history: seq<Index>, pods: Index, k: Call)
    requires CallOk(proc, history, k)
    ensures CallOk(proc, history + [pods], k)
  {
    LongerHistory(proc, history, pods);
    hide EntryOk, MissedAll, OneUid, LinesOf;
  }

  lemma SetIndexKeepsInv(proc: Proc, s: State, pods: Index)
    requires Inv(proc, s)
    ensures Inv(proc, Apply(proc, s, SetIndex(pods)))
  {
    hide EntryOk, CallOk, AnswerOk;
    LongerHistory(proc, s.history, pods);
    forall c | c in s.calls
      ensures CallOk(proc, s.history + [pods], s.calls[c])
    {
      LongerCall(proc, s.history, pods, s.calls[c]);
    }
  }

  lemma NewCallIsOk(proc: Proc, history: seq<Index>, scan: bool, pid: nat, todo: seq<nat>)
    requires history != [] && (scan || todo == [pid])
    ensures CallOk(proc, history, Call(scan, pid, |history| - 1, todo, 0, |history| - 1, map[]))
  {
  }

  lemma StoreKeepsInv(proc: Proc, s: State, c: nat)
    requires Inv(proc, s) && Enabled(s, Store(c))
    ensures Inv(proc, Apply(proc, s, Store(c)))
  {
    hide EntryOk, AnswerOk, CallOk, AnswerOf;
    var k := s.calls[c];
    FoundEntries(proc, s.history, k);
    if !k.scan { AnswerOfIsOk(proc, s.history, k); }
  }

  lemma FoundEntries(proc: Proc, history: seq<Index>, k: Call)
    requires CallOk(proc, history, k)
    ensures forall pid :: pid in k.found ==> EntryOk(proc, history, pid, k.found[pid])
  {
    hide EntryOk, OneUid, MissedAll;
  }

  lemma StepKeepsInv(proc: Proc, s: State, step: Step)
    requires Inv(proc, s) && Enabled(s, step)
    ensures Inv(proc, Apply(proc, s, step))
  {
    hide EntryOk, CallOk, AnswerOk, Looked, AnswerOf;
    match step
    case SetIndex(pods) => SetIndexKeepsInv(proc, s, pods);
    case Hit(pid) => HitIsOk(proc, s.history, pid, s.cache[pid]);
    case Miss(_, pid) => NewCallIsOk(proc, s.history, false, pid, [pid]);
    case StartScan(_, pids) => NewCallIsOk(proc, s.history, true, 0, pids);
    case Look(c) => LookedIsOk(proc, s.history, s.calls[c]);
    case Store(c) => StoreKeepsInv(proc, s, c);
  }

  /**
   In every interleaving, for a process whose cgroup names one pod, every answer, cached or not, is the resolution
   under an index that was current during the call that resolved it.
   */
  lemma {:induction false} AnswersWereCurrent(proc: Proc, steps: seq<Step>, s: State)
    requires Reachable(proc, steps, s)
    ensures Inv(proc, s)
    decreases |steps|
  {
    if steps != [] {
      var t := After(proc, INITIAL, steps[..|steps| - 1]).value;
      AnswersWereCurrent(proc, steps[..|steps| - 1], t);
      StepKeepsInv(proc, t, steps[|steps| - 1]);
    }
  }

  // ---------------------------------------------------------------- runs of one lookup

  lemma AfterOneMore(proc: Proc, init: State, steps: seq<Step>, step: Step)
    ensures
      var before := After(proc, init, steps);
      After(proc, init, steps + [step]) ==
        if before.Some? && Enabled(before.value, step) then Some(Apply(proc, before.value, step)) else None
  {
    assert (steps + [step])[..|steps|] == steps;
  }

  function Looks(c: nat, n: nat): seq<Step> { if n == 0 then [] else Looks(c, n - 1) + [Look(c)] }

  /** The state in which lookup `c` of a process has read its first n lines and found nothing. */
  function Reading(s: State, c: nat, pid: nat, n: nat): State
    requires s.history != []
  {
    s.(calls := s.calls[c := Call(false, pid, Now(s), [pid], n, Now(s), map[])])
  }

  lemma OneLookMisses(proc: Proc, s: State, c: nat, pid: nat, n: nat)
    requires s.history != [] && n < |LinesOf(proc, pid)| && !Names(LinesOf(proc, pid)[n], s.history[Now(s)])
    ensures Enabled(Reading(s, c, pid, n), Look(c))
    ensures Apply(proc, Reading(s, c, pid, n), Look(c)) == Reading(s, c, pid, n + 1)
  {
    hide Names, LinesOf;
    var r := Reading(s, c, pid, n);
    assert r.calls[c].todo[0] == pid;
    assert Looked(proc, r.calls[c], s.history[Now(s)], Now(s)) == r.calls[c].(line := n + 1);
    assert r.calls[c := r.calls[c].(line := n + 1)] == Reading(s, c, pid, n + 1).calls;
  }

  /** While no line names a known pod, a lookup that began under the current index just reads on. */
  lemma {:induction false} LooksMiss(proc: Proc, s: State, c: nat, pid: nat, n: nat, steps: seq<Step>)
    requires s.history != [] && n <= |LinesOf(proc, pid)|
    requires MissedAll(LinesOf(proc, pid), n, s.history[Now(s)])
    requires Reachable(proc, steps, Reading(s, c, pid, 0))
    ensures Reachable(proc, steps + Looks(c, n), Reading(s, c, pid, n))
  {
    hide Names, LinesOf, After, Enabled, Apply, Reading;
    if n == 0 {
      assert steps + Looks(c, 0) == steps;
    } else {
      LooksMiss(proc, s, c, pid, n - 1, steps);
      OneLookMisses(proc, s, c, pid, n - 1);
      Then(proc, steps + Looks(c, n - 1), Reading(s, c, pid, n - 1), Look(c));
      assert steps + Looks(c, n) == steps + Looks(c, n - 1) + [Look(c)];
    }
  }

  /** A run that reaches a state can go on with any step enabled there. */
  lemma Then(proc: Proc, steps: seq<Step>, s: State, step: Step)
    requires Reachable(proc, steps, s) && Enabled(s, step)
    ensures Reachable(proc, steps + [step], Apply(proc, s, step))
  {
    hide Enabled, Apply;
    AfterOneMore(proc, INITIAL, steps, step);
  }

  /** The look at a line that names a known pod, then the store: the pod is cached and answered. */
  lemma LookFinds(proc: Proc, s: State, c: nat, pid: nat, n: nat, steps: seq<Step>)
    requires s.history != [] && Reachable(proc, steps, s) && c in s.calls && pid !in s.cache
    requires s.calls[c].todo == [pid] && s.calls[c].line == n < |LinesOf(proc, pid)|
    requires Names(LinesOf(proc, pid)[n], s.history[Now(s)])
    ensures
      var e := Entry(s.history[Now(s)][Uid(LinesOf(proc, pid)[n])], s.calls[c].since, Now(s), n);
      Reachable(proc, steps + [Look(c)], s.(calls := s.calls[c := s.calls[c].(
        todo := [], line := 0, found := s.calls[c].found[pid := e])]))
  {
    hide LinesOf, PodMapper.ExtractPodUid, After;
    Then(proc, steps, s, Look(c));
    assert [pid][1..] == [];
  }

  // ---------------------------------------------------------------- exactly which processes get current answers

  /** The answer is the resolution under some index current since the call that resolved it began. */
  ghost predicate WasCurrent(proc: Proc, history: seq<Index>, a: Answer)
  {
    exists v :: a.since <= v < |history| && Resolution(proc, history[v], a.pid) == a.ref
  }

  ghost predicate AlwaysCurrent(proc: Proc, pid: nat)
  {
    forall steps, s, i | Reachable(proc, steps, s) && 0 <= i < |s.answers| ::
      s.answers[i].pid == pid ==> WasCurrent(proc, s.history, s.answers[i])
  }

  /** A lookup that reads two lines under two indices can answer what neither index says. */
  lemma MixedLookup(proc: Proc, pid: nat, a: nat, b: nat, r1: PodRef, r2: PodRef) returns (steps: seq<Step>, s: State)
    requires a < b < |LinesOf(proc, pid)| && r1 != r2
    requires
      var lines := LinesOf(proc, pid);
      Uid(lines[a]) != "" && Uid(lines[b]) != "" && Uid(lines[a]) != Uid(lines[b])
      && forall i :: 0 <= i < a ==> Uid(lines[i]) == ""
    ensures Reachable(proc, steps, s) && s.answers == [Answer(pid, Some(r2), 0, 1, false)] && |s.history| == 2
    ensures Resolution(proc, s.history[0], pid) == None && Resolution(proc, s.history[1], pid) == Some(r1)
  {
    hide PodMapper.ExtractPodUid, LinesOf;
    var lines := LinesOf(proc, pid);
    var pods := map[Uid(lines[a]) := r1, Uid(lines[b]) := r2];
    AllMissedResolvesToNone(lines, map[]);
    FirstNamedResolves(lines, pods, a);
    ResolutionOfLines(proc, map[], pid);
    ResolutionOfLines(proc, pods, pid);
    steps, s := ReadUnderTwo(proc, pid, b, pods);
  }

  lemma ResolutionOfLines(proc: Proc, index: Index, pid: nat)
    ensures Resolution(proc, index, pid) == PodMapper.ResolveLines(LinesOf(proc, pid), index)
  {
  }

  lemma FirstMiss(proc: Proc, pid: nat)
    ensures Reachable(proc, [Miss(0, pid)], Reading(INITIAL, 0, pid, 0))
  {
    AfterOneMore(proc, INITIAL, [], Miss(0, pid));
    assert [] + [Miss(0, pid)] == [Miss(0, pid)];
  }

  /** A lookup that misses its first lines under the empty index, then finds one under the next. */
  lemma ReadUnderTwo(proc: Proc, pid: nat, n: nat, pods: Index) returns (steps: seq<Step>, s: State)
    requires n < |LinesOf(proc, pid)| && Names(LinesOf(proc, pid)[n], pods)
    ensures Reachable(proc, steps, s) && s.history == [map[], pods]
    ensures s.answers == [Answer(pid, Some(pods[Uid(LinesOf(proc, pid)[n])]), 0, 1, false)]
  {
    hide PodMapper.ExtractPodUid, LinesOf, After;
    FirstMiss(proc, pid);
    LooksMiss(proc, INITIAL, 0, pid, n, [Miss(0, pid)]);
    steps, s := [Miss(0, pid)] + Looks(0, n), Reading(INITIAL, 0, pid, n);
    Then(proc, steps, s, SetIndex(pods));
    steps, s := steps + [SetIndex(pods)], Apply(proc, s, SetIndex(pods));
    LookFinds(proc, s, 0, pid, n, steps);
    var e := Entry(pods[Uid(LinesOf(proc, pid)[n])], 0, 1, n);
    steps := steps + [Look(0)];
    s := s.(calls := s.calls[0 := s.calls[0].(todo := [], line := 0, found := s.calls[0].found[pid := e])]);
    Then(proc, steps, s, Store(0));
    steps, s := steps + [Store(0)], Apply(proc, s, Store(0));
  }

  /**
   Every answer for a process was current during its call, in every interleaving, iff its cgroup lines name one
   pod: each line is looked up under its own lock, so a lookup of two names can mix two indices.
   */
  lemma AlwaysCurrentIff(proc: Proc, pid: nat)
    ensures AlwaysCurrent(proc, pid) <==> OneUid(LinesOf(proc, pid))
  {
    hide PodMapper.ExtractPodUid, Resolution, Reachable;
    var lines := LinesOf(proc, pid);
    if OneUid(lines) {
      forall steps, s, i | Reachable(proc, steps, s) && 0 <= i < |s.answers| && s.answers[i].pid == pid
        ensures WasCurrent(proc, s.history, s.answers[i])
      {
        AnswersWereCurrent(proc, steps, s);
        assert AnswerOk(proc, s.history, s.answers[i]);
      }
    } else {
      var i, j :| 0 <= i < |lines| && 0 <= j < |lines|
                  && Uid(lines[i]) != "" && Uid(lines[j]) != "" && Uid(lines[i]) != Uid(lines[j]);
      var a := FirstNamedLine(lines, i);
      var b := if Uid(lines[i]) != Uid(lines[a]) then i else j;
      var r1 := PodMapper.PodRef(PodMapper.PodId("a", "", "", ""), map[]);
      var r2 := PodMapper.PodRef(PodMapper.PodId("b", "", "", ""), map[]);
      var steps, s := MixedLookup(proc, pid, a, b, r1, r2);
      assert !WasCurrent(proc, s.history, s.answers[0]);
    }
  }

  lemma {:induction false} FirstNamedLine(lines: seq<string>, n: nat) returns (first: nat)
    requires n < |lines| && Uid(lines[n]) != ""
    ensures first <= n && Uid(lines[first]) != "" && forall i :: 0 <= i < first ==> Uid(lines[i]) == ""
  {
    hide Uid;
    if i :| 0 <= i < n && Uid(lines[i]) != "" {
      first := FirstNamedLine(lines, i);
    } else {
      first := n;
    }
  }

  // ---------------------------------------------------------------- coherence with the current index

  ghost predicate Coherent(proc: Proc, s: State)
    requires s.history != []
  {
    forall pid :: pid in s.cache ==> Resolution(proc, s.history[Now(s)], pid) == Some(s.cache[pid].ref)
  }

  /**
   A lookup that finds its pod, waits while another index is set, and then stores: the next lookup hits the cache,
   and its answer agrees with the current index iff that index resolves the process to the pod found before.
   */
  lemma LateStore(proc: Proc, pods: Index, later: Index, pid: nat) returns (steps: seq<Step>, s: State)
    requires Resolution(proc, pods, pid).Some?
    ensures Reachable(proc, steps, s) && s.calls == map[] && s.history == [map[], pods, later]
    ensures |s.answers| == 2 && s.answers[1].hit && s.answers[1].ref == Resolution(proc, pods, pid)
    ensures Coherent(proc, s) <==> Resolution(proc, later, pid) == Resolution(proc, pods, pid)
  {
    var n, e;
    steps, s, n, e := FoundUnder(proc, pods, pid);
    hide PodMapper.ExtractPodUid, LinesOf, Reachable, Resolution;
    Then(proc, steps, s, SetIndex(later));
    steps, s := steps + [SetIndex(later)], Apply(proc, s, SetIndex(later));
    Then(proc, steps, s, Store(0));
    steps, s := steps + [Store(0)], Apply(proc, s, Store(0));
    Then(proc, steps, s, Hit(pid));
    steps, s := steps + [Hit(pid)], Apply(proc, s, Hit(pid));
  }

  /** A run in which one lookup has found its pod under `pods` and not stored it yet. */
  lemma FoundUnder(proc: Proc, pods: Index, pid: nat) returns (steps: seq<Step>, s: State, n: nat, e: Entry)
    requires Resolution(proc, pods, pid).Some?
    ensures Reachable(proc, steps, s) && Some(e.ref) == Resolution(proc, pods, pid)
    ensures s == State([map[], pods], map[], map[0 := Call(false, pid, 1, [], 0, 1, map[pid := e])], [])
  {
    n := FoundLine(proc, pods, pid);
    hide PodMapper.ExtractPodUid, LinesOf, Reachable, Resolution;
    steps, s := [SetIndex(pods)], INITIAL.(history := [map[], pods]);
    Start(proc, pods);
    Then(proc, steps, s, Miss(0, pid));
    steps := steps + [Miss(0, pid)];
    LooksMiss(proc, s, 0, pid, n, steps);
    steps, s := steps + Looks(0, n), Reading(s, 0, pid, n);
    LookFinds(proc, s, 0, pid, n, steps);
    e := Entry(pods[Uid(LinesOf(proc, pid)[n])], 1, 1, n);
    steps := steps + [Look(0)];
    s := s.(calls := s.calls[0 := s.calls[0].(todo := [], line := 0, found := s.calls[0].found[pid := e])]);
  }

  lemma Start(proc: Proc, pods: Index)
    ensures Reachable(proc, [SetIndex(pods)], INITIAL.(history := [map[], pods]))
  {
    AfterOneMore(proc, INITIAL, [], SetIndex(pods));
    assert [] + [SetIndex(pods)] == [SetIndex(pods)];
    assert INITIAL.history + [pods] == [map[], pods];
  }

  lemma FoundLine(proc: Proc, index: Index, pid: nat) returns (n: nat)
    requires Resolution(proc, index, pid).Some?
    ensures n < |LinesOf(proc, pid)| && Names(LinesOf(proc, pid)[n], index) && MissedAll(LinesOf(proc, pid), n, index)
    ensures Resolution(proc, index, pid) == Some(index[Uid(LinesOf(proc, pid)[n])])
  {
    var lines := LinesOf(proc, pid);
    ResolutionOfLines(proc, index, pid);
    if MissedAll(lines, |lines|, index) { AllMissedResolvesToNone(lines, index); }
    hide Names, PodMapper.ResolveLines, LinesOf;
    var i :| 0 <= i < |lines| && Names(lines[i], index);
    n := SomeFirstNamed(lines, index, i);
    FirstNamedResolves(lines, index, n);
  }

  /** For instance, once the index is emptied: the hit answers a pod that no longer exists. */
  lemma StaleHit(proc: Proc, pods: Index, pid: nat) returns (steps: seq<Step>, s: State)
    requires Resolution(proc, pods, pid).Some?
    ensures Reachable(proc, steps, s) && s.calls == map[] && s.history[Now(s)] == map[]
    ensures |s.answers| == 2 && s.answers[1].hit && s.answers[1].ref.Some? && Resolution(proc, map[], pid) == None
  {
    var lines := LinesOf(proc, pid);
    AllMissedResolvesToNone(lines, map[]);
    ResolutionOfLines(proc, map[], pid);
    assert Resolution(proc, map[], pid) == None;
    hide Resolution, Reachable, PodMapper.ResolveLines, LinesOf;
    steps, s := LateStore(proc, pods, map[], pid);
  }

  // ---------------------------------------------------------------- when the cache stays coherent

  /** The call has neither found anything nor begun to read the process at hand. */
  predicate Untouched(k: Call) { k.line == 0 && k.found == map[] }

  /** The index is only replaced while no call is between its first look and its store. */
  ghost predicate Guarded(proc: Proc, steps: seq<Step>)
  {
    forall i | 0 <= i < |steps| && steps[i].SetIndex? :: CallsUntouched(After(proc, INITIAL, steps[..i]))
  }

  ghost predicate CallsUntouched(s: Option<State>)
  {
    s.Some? ==> forall c :: c in s.value.calls ==> Untouched(s.value.calls[c])
  }

  /** What a call has found and read so far agrees with the current index. */
  ghost predicate CallAgrees(proc: Proc, index: Index, k: Call)
  {
    && (forall pid :: pid in k.found ==> Resolution(proc, index, pid) == Some(k.found[pid].ref))
    && (k.todo != [] ==> k.line <= |LinesOf(proc, k.todo[0])| && MissedAll(LinesOf(proc, k.todo[0]), k.line, index))
  }

  ghost predicate Agrees(proc: Proc, s: State)
  {
    s.history != [] && Coherent(proc, s) && forall c :: c in s.calls ==> CallAgrees(proc, s.history[Now(s)], s.calls[c])
  }

  lemma LookedAgrees(proc: Proc, index: Index, k: Call, now: nat)
    requires CallAgrees(proc, index, k) && k.todo != []
    ensures CallAgrees(proc, index, Looked(proc, k, index, now))
  {
    hide PodMapper.ExtractPodUid, PodMapper.ResolveLines, LinesOf, Resolution;
    var pid, lines := k.todo[0], LinesOf(proc, k.todo[0]);
    if k.line < |lines| && Names(lines[k.line], index) {
      FirstNamedResolves(lines, index, k.line);
      ResolutionOfLines(proc, index, pid);
    }
  }

  lemma UntouchedAgrees(proc: Proc, index: Index, k: Call)
    requires Untouched(k)
    ensures CallAgrees(proc, index, k)
  {
    hide LinesOf;
  }

  lemma StepKeepsAgreement(proc: Proc, s: State, step: Step)
    requires Agrees(proc, s) && Enabled(s, step) && (step.SetIndex? ==> CallsUntouched(Some(s)))
    ensures Agrees(proc, Apply(proc, s, step))
  {
    hide CallAgrees, Resolution, Looked, Untouched, AnswerOf;
    var index := s.history[Now(s)];
    match step
    case SetIndex(pods) =>
      forall c | c in s.calls ensures CallAgrees(proc, pods, s.calls[c]) { UntouchedAgrees(proc, pods, s.calls[c]); }
    case Hit(_) =>
    case Miss(_, pid) => NewCallAgrees(proc, index, Call(false, pid, Now(s), [pid], 0, Now(s), map[]));
    case StartScan(_, pids) => NewCallAgrees(proc, index, Call(true, 0, Now(s), pids, 0, Now(s), map[]));
    case Look(c) => LookedAgrees(proc, index, s.calls[c], Now(s));
    case Store(c) => FoundAgrees(proc, index, s.calls[c]);
  }

  lemma NewCallAgrees(proc: Proc, index: Index, k: Call)
    requires k.line == 0 && k.found == map[]
    ensures CallAgrees(proc, index, k)
  {
    UntouchedAgrees(proc, index, k);
  }

  lemma FoundAgrees(proc: Proc, index: Index, k: Call)
    requires CallAgrees(proc, index, k)
    ensures forall pid :: pid in k.found ==> Resolution(proc, index, pid) == Some(k.found[pid].ref)
  {
    hide Resolution, LinesOf;
  }

  /** Under that guard every cached pod is the resolution under the current index, for processes of any cgroup. */
  lemma {:induction false} GuardedIsCoherent(proc: Proc, steps: seq<Step>, s: State)
    requires Reachable(proc, steps, s) && Guarded(proc, steps)
    ensures Agrees(proc, s)
    decreases |steps|
  {
    if steps != [] {
      var init, last := steps[..|steps| - 1], steps[|steps| - 1];
      var t := After(proc, INITIAL, init).value;
      assert Guarded(proc, init) by {
        forall i | 0 <= i < |init| && init[i].SetIndex? ensures CallsUntouched(After(proc, INITIAL, init[..i])) {
          assert init[i] == steps[i] && init[..i] == steps[..i];
        }
      }
      GuardedIsCoherent(proc, init, t);
      assert last.SetIndex? ==> CallsUntouched(After(proc, INITIAL, steps[..|init|]));
      hide Agrees, Apply, Enabled, Untouched;
      StepKeepsAgreement(proc, t, last);
    }
  }
}
