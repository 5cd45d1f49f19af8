/**
 The mtime-keyed cache in front of the runtime configuration file. A status reader copies the
 cache, stats the file, and on a mismatch loads the file and stores what it loaded under the mtime
 it had seen; writers rename a new file into place at any moment. Each of those is a step.
 */
module ConfigCache {
  import opened Options

  /** One version of the file, as a writer renamed it into place. */
  datatype File = File(content: int, mtime: int)

  /** A cached configuration; `statAt` and `loadAt` index the versions it was stamped with and loaded from. */
  datatype Entry = Entry(content: int, mtime: int, statAt: nat, loadAt: nat)

  datatype Reader =
    | Copied(since: nat, cached: Option<Entry>)       // cache fields copied under the read lock
    | Missed(since: nat, mtime: int, statAt: nat)     // file statted, mtime differs from the copy
    | Loaded(since: nat, entry: Entry)                // file decoded, cache not yet updated

  /** A finished read: it began at version `since` and answered for version `at`. */
  datatype Answer = Answer(content: int, since: nat, at: nat, hit: bool)

  datatype State = State(
    history: seq<File>,               // every version the file has had; the last one is current
    cache: Option<Entry>,
    readers: map<nat, Reader>,
    answers: seq<Answer>)

  datatype Step =
    | Write(content: int, mtime: int)
    | Copy(r: nat)
    | StatMiss(r: nat)
    | StatHit(r: nat)
    | Load(r: nat)
    | LoadFails(r: nat)               // unreadable or malformed file: the reader gives up
    | Store(r: nat)

  predicate Init(s: State)
  {
    |s.history| == 1 && s.cache == None && s.readers == map[] && s.answers == []
  }

  function Now(s: State): nat
    requires s.history != []
  {
    |s.history| - 1
  }

  predicate Hits(s: State, c: Option<Entry>)
    requires s.history != []
  {
    c.Some? && c.value.mtime == s.history[Now(s)].mtime
  }

  predicate Enabled(s: State, step: Step)
  {
    && s.history != []
    && match step
       case Write(_, _) => true
       case Copy(r) => r !in s.readers
       case StatMiss(r) => r in s.readers && s.readers[r].Copied? && !Hits(s, s.readers[r].cached)
       case StatHit(r) => r in s.readers && s.readers[r].Copied? && Hits(s, s.readers[r].cached)
       case Load(r) => r in s.readers && s.readers[r].Missed?
       case LoadFails(r) => r in s.readers && s.readers[r].Missed?
       case Store(r) => r in s.readers && s.readers[r].Loaded?
  }

  function Apply(s: State, step: Step): State
    requires Enabled(s, step)
  {
    match step
    case Write(content, mtime) => s.(history := s.history + [File(content, mtime)])
    case Copy(r) => s.(readers := s.readers[r := Copied(Now(s), s.cache)])
    case StatMiss(r) =>
      s.(readers := s.readers[r := Missed(s.readers[r].since, s.history[Now(s)].mtime, Now(s))])
    case StatHit(r) =>
      s.(readers := s.readers - {r},
         answers := s.answers + [Answer(s.readers[r].cached.value.content, s.readers[r].since, Now(s), true)])
    case Load(r) =>
      var entry := Entry(s.history[Now(s)].content, s.readers[r].mtime, s.readers[r].statAt, Now(s));
      s.(readers := s.readers[r := Loaded(s.readers[r].since, entry)])
    case LoadFails(r) => s.(readers := s.readers - {r})
    case Store(r) =>
      var e := s.readers[r].entry;
      s.(cache := Some(e), readers := s.readers - {r},
         answers := s.answers + [Answer(e.content, s.readers[r].since, e.loadAt, false)])
  }

  function After(init: State, steps: seq<Step>): Option<State>
  {
    if steps == [] then Some(init)
    else
      var before, last := After(init, steps[..|steps| - 1]), steps[|steps| - 1];
      if before.Some? && Enabled(before.value, last) then Some(Apply(before.value, last)) else None
  }

  ghost predicate Reachable(init: State, steps: seq<Step>, s: State)
  {
    Init(init) && After(init, steps) == Some(s)
  }

  // ---------------------------------------------------------------- what every step keeps

  /** No two versions of the file carry the same modification time. */
  ghost predicate FreshMtimes(history: seq<File>)
  {
    forall i, j :: 0 <= i < j < |history| ==> history[i].mtime != history[j].mtime
  }

  /** Between two versions with the same modification time, and at both, the contents are the same. */
  ghost predicate MtimesTell(history: seq<File>)
  {
    forall i, k, j :: 0 <= i <= k <= j < |history| && history[i].mtime == history[j].mtime ==>
      history[k].content == history[j].content
  }

  lemma FreshMtimesTell(history: seq<File>)
    requires FreshMtimes(history)
    ensures MtimesTell(history)
  {
  }

  /** Stamped with the mtime of one version and loaded from that one or a later one. */
  ghost predicate EntryOk(history: seq<File>, e: Entry)
  {
    && e.statAt <= e.loadAt < |history|
    && history[e.statAt].mtime == e.mtime
    && history[e.loadAt].content == e.content
  }

  ghost predicate ReaderOk(history: seq<File>, r: Reader)
  {
    && r.since < |history|
    && match r
       case Copied(_, cached) => cached.Some? ==> EntryOk(history, cached.value)
       case Missed(since, mtime, statAt) => since <= statAt < |history| && history[statAt].mtime == mtime
       case Loaded(since, e) => EntryOk(history, e) && since <= e.statAt
  }

  /** The answer is the content the file had at version `at`, which was current during the call. */
  ghost predicate AnswerOk(history: seq<File>, a: Answer)
  {
    a.since <= a.at < |history| && history[a.at].content == a.content
  }

  ghost predicate Inv(s: State)
  {
    && s.history != []
    && (s.cache.Some? ==> EntryOk(s.history, s.cache.value))
    && (forall r :: r in s.readers ==> ReaderOk(s.history, s.readers[r]))
    && (forall i :: 0 <= i < |s.answers| ==> AnswerOk(s.history, s.answers[i]))
  }

  /** Then an entry that matches the current mtime holds the current contents. */
  lemma MatchIsCurrent(history: seq<File>, e: Entry)
    requires MtimesTell(history) && history != [] && EntryOk(history, e) && e.mtime == history[|history| - 1].mtime
    ensures e.content == history[|history| - 1].content
  {
    assert history[e.statAt].mtime == history[|history| - 1].mtime;
  }

  lemma WriteKeepsInv(s: State, f: File)
    requires Inv(s)
    ensures Inv(s.(history := s.history + [f]))
  {
    var longer := s.history + [f];
    forall r | r in s.readers ensures ReaderOk(longer, s.readers[r]) { assert ReaderOk(s.history, s.readers[r]); }
    forall i | 0 <= i < |s.answers| ensures AnswerOk(longer, s.answers[i]) { assert AnswerOk(s.history, s.answers[i]); }
  }

  lemma HitKeepsInv(s: State, r: nat)
    requires Inv(s) && Enabled(s, StatHit(r)) && MtimesTell(s.history)
    ensures Inv(Apply(s, StatHit(r)))
  {
    assert ReaderOk(s.history, s.readers[r]);
    MatchIsCurrent(s.history, s.readers[r].cached.value);
    hide MtimesTell;
  }

  lemma ReaderStepKeepsInv(s: State, step: Step)
    requires Inv(s) && Enabled(s, step) && !step.Write? && !step.StatHit?
    ensures Inv(Apply(s, step))
  {
    if step.r in s.readers { assert ReaderOk(s.history, s.readers[step.r]); }
  }

  lemma StepKeepsInv(s: State, step: Step)
    requires Inv(s) && Enabled(s, step) && MtimesTell(Apply(s, step).history)
    ensures Inv(Apply(s, step))
  {
    hide Inv, MtimesTell;
    match step
    case Write(content, mtime) => WriteKeepsInv(s, File(content, mtime));
    case StatHit(r) => HitKeepsInv(s, r);
    case _ => ReaderStepKeepsInv(s, step);
  }

  lemma HistoryOnlyGrows(s: State, step: Step)
    requires Enabled(s, step)
    ensures |s.history| <= |Apply(s, step).history| && Apply(s, step).history[..|s.history|] == s.history
  {
  }

  lemma PrefixTells(history: seq<File>, n: nat)
    requires n <= |history| && MtimesTell(history)
    ensures MtimesTell(history[..n])
  {
  }

  /**
   Under every interleaving whose mtimes tell, every finished read, cache hit or not, answers with contents the
   file had while the call was running.
   */
  lemma {:induction false} ReadsAreCurrent(init: State, steps: seq<Step>, s: State)
    requires Reachable(init, steps, s) && MtimesTell(s.history)
    ensures Inv(s)
    decreases |steps|
  {
    if steps != [] {
      var t, last := After(init, steps[..|steps| - 1]).value, steps[|steps| - 1];
      HistoryOnlyGrows(t, last);
      PrefixTells(s.history, |t.history|);
      hide MtimesTell, Inv;
      ReadsAreCurrent(init, steps[..|steps| - 1], t);
      StepKeepsInv(t, last);
    }
  }

  /** In particular when every write gets a fresh mtime. */
  lemma FreshReadsAreCurrent(init: State, steps: seq<Step>, s: State)
    requires Reachable(init, steps, s) && FreshMtimes(s.history)
    ensures forall i :: 0 <= i < |s.answers| ==> AnswerOk(s.history, s.answers[i])
  {
    FreshMtimesTell(s.history);
    ReadsAreCurrent(init, steps, s);
  }

  // ---------------------------------------------------------------- the exact condition

  /** Every run in which the file takes exactly these versions has only current answers. */
  ghost predicate AlwaysCurrent(history: seq<File>)
  {
    forall init, steps, s | Reachable(init, steps, s) && s.history == history :: AnswersOk(s)
  }

  ghost predicate AnswersOk(s: State) { forall i :: 0 <= i < |s.answers| ==> AnswerOk(s.history, s.answers[i]) }

  function Writes(history: seq<File>, n: nat, m: nat): seq<Step>
    requires n <= m <= |history|
  {
    if n == m then [] else Writes(history, n, m - 1) + [Write(history[m - 1].content, history[m - 1].mtime)]
  }

  /** A run that reaches a state can go on with any step enabled there. */
  lemma Then(init: State, steps: seq<Step>, s: State, step: Step)
    requires Reachable(init, steps, s) && Enabled(s, step)
    ensures Reachable(init, steps + [step], Apply(s, step))
  {
    hide Enabled, Apply;
    assert (steps + [step])[..|steps|] == steps;
  }

  lemma {:induction false} WritesRun(init: State, steps: seq<Step>, s: State, history: seq<File>, n: nat, m: nat)
    requires Reachable(init, steps, s) && 0 < n <= m <= |history| && s.history == history[..n]
    ensures Reachable(init, steps + Writes(history, n, m), s.(history := history[..m]))
  {
    hide Reachable;
    if n == m {
      assert steps + Writes(history, n, m) == steps;
    } else {
      WritesRun(init, steps, s, history, n, m - 1);
      var step := Write(history[m - 1].content, history[m - 1].mtime);
      Then(init, steps + Writes(history, n, m - 1), s.(history := history[..m - 1]), step);
      assert steps + Writes(history, n, m) == steps + Writes(history, n, m - 1) + [step];
      assert history[..m - 1] + [File(step.content, step.mtime)] == history[..m];
    }
  }

  /** A reader stats version i and loads version k: its entry has the mtime of the one and the contents of the other. */
  lemma MixedEntry(history: seq<File>, i: nat, k: nat) returns (init: State, steps: seq<Step>, s: State)
    requires i <= k < |history|
    ensures Reachable(init, steps, s) && s.history == history[..k + 1] && s.readers == map[] && |s.answers| == 1
    ensures s.cache == Some(Entry(history[k].content, history[i].mtime, i, k))
  {
    init, steps, s := StattedAt(history, i);
    hide Reachable;
    WritesRun(init, steps, s, history, i + 1, k + 1);
    steps, s := steps + Writes(history, i + 1, k + 1), s.(history := history[..k + 1]);
    Then(init, steps, s, Load(0));
    steps, s := steps + [Load(0)], Apply(s, Load(0));
    Then(init, steps, s, Store(0));
    steps, s := steps + [Store(0)], Apply(s, Store(0));
  }

  lemma StattedAt(history: seq<File>, i: nat) returns (init: State, steps: seq<Step>, s: State)
    requires i < |history|
    ensures Reachable(init, steps, s)
    ensures s == State(history[..i + 1], None, map[0 := Missed(i, history[i].mtime, i)], [])
  {
    init, steps := State(history[..1], None, map[], []), [];
    s := init;
    assert Reachable(init, steps, s);
    hide Reachable;
    WritesRun(init, steps, s, history, 1, i + 1);
    steps, s := steps + Writes(history, 1, i + 1), s.(history := history[..i + 1]);
    Then(init, steps, s, Copy(0));
    steps, s := steps + [Copy(0)], Apply(s, Copy(0));
    Then(init, steps, s, StatMiss(0));
    steps, s := steps + [StatMiss(0)], Apply(s, StatMiss(0));
  }

  /** Once the file carries that mtime again, the next read hits the entry, whatever the file holds by then. */
  lemma MixedHit(history: seq<File>, i: nat, k: nat, j: nat) returns (init: State, steps: seq<Step>, s: State)
    requires i <= k <= j < |history| && history[i].mtime == history[j].mtime
    ensures Reachable(init, steps, s) && s.history == history && |s.answers| == 2
    ensures s.answers[1] == Answer(history[k].content, j, j, true)
  {
    init, steps, s := MixedEntry(history, i, k);
    hide Reachable;
    WritesRun(init, steps, s, history, k + 1, j + 1);
    steps, s := steps + Writes(history, k + 1, j + 1), s.(history := history[..j + 1]);
    Then(init, steps, s, Copy(1));
    steps, s := steps + [Copy(1)], Apply(s, Copy(1));
    Then(init, steps, s, StatHit(1));
    steps, s := steps + [StatHit(1)], Apply(s, StatHit(1));
    WritesRun(init, steps, s, history, j + 1, |history|);
    steps, s := steps + Writes(history, j + 1, |history|), s.(history := history[..|history|]);
    assert history[..|history|] == history;
  }

  /** All runs over a history of the file have only current answers iff its modification times tell its contents. */
  lemma AlwaysCurrentIff(history: seq<File>)
    requires history != []
    ensures AlwaysCurrent(history) <==> MtimesTell(history)
  {
    hide Reachable;
    if MtimesTell(history) {
      forall init, steps, s | Reachable(init, steps, s) && s.history == history
        ensures AnswersOk(s)
      {
        ReadsAreCurrent(init, steps, s);
      }
    } else {
      var i, k, j :| 0 <= i <= k <= j < |history| && history[i].mtime == history[j].mtime
                     && history[k].content != history[j].content;
      var init, steps, s := MixedHit(history, i, k, j);
      assert !AnswerOk(s.history, s.answers[1]);
    }
  }

  /**
   For instance, in every state with a filled cache: if a write reuses the cached mtime, the very next read begins
   and ends after that write and still answers with the old contents.
   */
  lemma ReusedMtimeIsStale(s: State, r: nat, content: int)
    requires s.history != [] && s.cache.Some? && r !in s.readers && content != s.cache.value.content
    ensures var run := [Write(content, s.cache.value.mtime), Copy(r), StatHit(r)];
            After(s, run).Some?
            && var t := After(s, run).value;
               && |t.answers| == |s.answers| + 1 && |t.history| == |s.history| + 1
               && t.answers[|s.answers|] == Answer(s.cache.value.content, |s.history|, |s.history|, true)
               && !AnswerOk(t.history, t.answers[|s.answers|])
  {
    var run := [Write(content, s.cache.value.mtime), Copy(r), StatHit(r)];
    Extend(s, run, 0, s);
    var s1 := Apply(s, run[0]);
    Extend(s, run, 1, s1);
    Extend(s, run, 2, Apply(s1, run[1]));
    assert run[..3] == run;
  }

  lemma Extend(init: State, run: seq<Step>, n: nat, s: State)
    requires n < |run| && After(init, run[..n]) == Some(s) && Enabled(s, run[n])
    ensures After(init, run[..n + 1]) == Some(Apply(s, run[n]))
  {
    assert run[..n + 1][..n] == run[..n];
  }
}
