/** What of a list of policies decides how it resolves, and when two services resolve every snapshot alike. */
module PolicyTable {
  import opened Options
  import opened Text
  import opened NodePolicy
  import Merkle

  // ---------------------------------------------------------------- the table of an order

  /** What is left of a policy once it is resolved. */
  datatype Row = Row(pattern: string, priority: int, time: nat)

  function RowOf(p: Policy): Row
  {
    Row(p.commandRegex, p.priority, p.executionTime % 0x1_0000_0000_0000_0000)
  }

  function Dropping(rows: seq<Row>, pattern: string): seq<Row>
  {
    if rows == [] then []
    else
      var last := rows[|rows| - 1];
      Dropping(rows[..|rows| - 1], pattern) + if last.pattern == pattern then [] else [last]
  }

  /** The policies that have a pattern, each pattern where it occurs last. */
  function Table(order: seq<Policy>): seq<Row>
  {
    if order == [] then []
    else
      var init, p := Table(order[..|order| - 1]), order[|order| - 1];
      if p.commandRegex == "" then init else Dropping(init, p.commandRegex) + [RowOf(p)]
  }

  ghost predicate Tabular(rows: seq<Row>)
  {
    && (forall i :: 0 <= i < |rows| ==> rows[i].pattern != "")
    && (forall i, j :: 0 <= i < j < |rows| ==> rows[i].pattern != rows[j].pattern)
  }

  lemma {:induction false} DroppingKeeps(rows: seq<Row>, pattern: string)
    ensures forall r :: r in Dropping(rows, pattern) <==> r in rows && r.pattern != pattern
    ensures Tabular(rows) ==> Tabular(Dropping(rows, pattern))
  {
    if rows != [] {
      var init, last := rows[..|rows| - 1], rows[|rows| - 1];
      assert rows == init + [last];
      DroppingKeeps(init, pattern);
      if Tabular(rows) && last.pattern != pattern {
        var kept := Dropping(init, pattern);
        forall i | 0 <= i < |kept| ensures kept[i].pattern != last.pattern {
          assert kept[i] in init;
        }
      }
    }
  }

  lemma {:induction false} TableIsTabular(order: seq<Policy>)
    ensures Tabular(Table(order))
  {
    if order != [] {
      var init, p := order[..|order| - 1], order[|order| - 1];
      TableIsTabular(init);
      DroppingKeeps(Table(init), p.commandRegex);
      var kept := Dropping(Table(init), p.commandRegex);
      assert forall i :: 0 <= i < |kept| ==> kept[i] in kept;
    }
  }

  // ---------------------------------------------------------------- resolving from the table

  predicate Reaches(eng: Engine, pattern: string, tasks: seq<Task>, tid: int)
  {
    && pattern != "" && eng.compiles(pattern)
    && exists i :: 0 <= i < |tasks| && tasks[i].tid == tid && tasks[i].comm != "pause"
                   && eng.matches(pattern, tasks[i].comm)
  }

  lemma AppliesByPattern(eng: Engine, p: Policy, tasks: seq<Task>, tid: int)
    ensures Applies(eng, p, tasks, tid) <==> Reaches(eng, p.commandRegex, tasks, tid)
  {
  }

  /** The last row that reaches a thread. */
  function Reached(eng: Engine, rows: seq<Row>, tasks: seq<Task>, tid: int): Option<Row>
  {
    if rows == [] then None
    else
      var last := rows[|rows| - 1];
      if Reaches(eng, last.pattern, tasks, tid) then Some(last) else Reached(eng, rows[..|rows| - 1], tasks, tid)
  }

  lemma ReachedLast(eng: Engine, rows: seq<Row>, last: Row, tasks: seq<Task>, tid: int)
    ensures Reached(eng, rows + [last], tasks, tid)
         == if Reaches(eng, last.pattern, tasks, tid) then Some(last) else Reached(eng, rows, tasks, tid)
  {
    hide Reaches;
    assert (rows + [last])[..|rows|] == rows;
  }

  lemma {:induction false} DroppingUnreached(eng: Engine, rows: seq<Row>, pattern: string, tasks: seq<Task>, tid: int)
    requires !Reaches(eng, pattern, tasks, tid)
    ensures Reached(eng, Dropping(rows, pattern), tasks, tid) == Reached(eng, rows, tasks, tid)
  {
    hide Reaches;
    if rows != [] {
      var init, last := rows[..|rows| - 1], rows[|rows| - 1];
      DroppingUnreached(eng, init, pattern, tasks, tid);
      ReachedLast(eng, Dropping(init, pattern), last, tasks, tid);
      assert Dropping(init, pattern) + [] == Dropping(init, pattern);
    }
  }

  /** The winner of an order is the last row of its table that reaches the thread. */
  lemma {:induction false} WinnerFromTable(eng: Engine, order: seq<Policy>, tasks: seq<Task>, tid: int)
    ensures
      var w := Winner(eng, order, tasks, tid);
      Reached(eng, Table(order), tasks, tid) == if w.Some? then Some(RowOf(w.value)) else None
  {
    hide Reaches, Applies, RowOf;
    if order != [] {
      var init, p := order[..|order| - 1], order[|order| - 1];
      WinnerFromTable(eng, init, tasks, tid);
      AppliesByPattern(eng, p, tasks, tid);
      NoPattern(eng, tasks, tid);
      PatternOfRow(p);
      ReachedLast(eng, Dropping(Table(init), p.commandRegex), RowOf(p), tasks, tid);
      if !Applies(eng, p, tasks, tid) { DroppingUnreached(eng, Table(init), p.commandRegex, tasks, tid); }
    }
  }

  lemma NoPattern(eng: Engine, tasks: seq<Task>, tid: int)
    ensures !Reaches(eng, "", tasks, tid)
  {
  }

  lemma PatternOfRow(p: Policy)
    ensures RowOf(p).pattern == p.commandRegex
  {
  }

  function IntentOfRow(row: Option<Row>, tid: int): (i: Option<Intent>)
  {
    if row.Some? then Some(Intent(row.value.priority, row.value.time, tid, row.value.pattern)) else None
  }

  lemma IntentFromTable(eng: Engine, order: seq<Policy>, tasks: seq<Task>, tid: int)
    ensures IntentFor(eng, order, tasks, tid) == IntentOfRow(Reached(eng, Table(order), tasks, tid), tid)
  {
    WinnerFromTable(eng, order, tasks, tid);
    hide Winner, Reached, Table;
  }

  // ---------------------------------------------------------------- the table is all that can be seen

  /** The last row with one of two patterns. */
  function Pick(rows: seq<Row>, x: string, y: string): Option<Row>
  {
    if rows == [] then None
    else
      var last := rows[|rows| - 1];
      if last.pattern == x || last.pattern == y then Some(last) else Pick(rows[..|rows| - 1], x, y)
  }

  lemma {:induction false} PickIsThere(rows: seq<Row>, x: string, y: string)
    ensures
      var r := Pick(rows, x, y);
      r.Some? ==> r.value in rows && (r.value.pattern == x || r.value.pattern == y)
  {
    if rows != [] {
      PickIsThere(rows[..|rows| - 1], x, y);
    }
  }

  lemma {:induction false} PickAbsent(rows: seq<Row>, x: string, y: string)
    requires forall i :: 0 <= i < |rows| ==> rows[i].pattern != x
    ensures Pick(rows, x, y) == Pick(rows, y, y) == Pick(rows, y, x)
  {
    if rows != [] {
      PickAbsent(rows[..|rows| - 1], x, y);
    }
  }

  /** Without its last row a table still picks alike, wherever it did. */
  lemma PicksBefore(t: seq<Row>, u: seq<Row>, x: string, y: string)
    requires t != [] && u != [] && t[|t| - 1] == u[|u| - 1] && Tabular(t) && Tabular(u)
    requires forall a, b :: Pick(t, a, b) == Pick(u, a, b)
    ensures Pick(t[..|t| - 1], x, y) == Pick(u[..|u| - 1], x, y)
  {
    var t1, u1, z := t[..|t| - 1], u[..|u| - 1], t[|t| - 1].pattern;
    PickAbsent(t1, z, x);
    PickAbsent(u1, z, x);
    PickAbsent(t1, z, y);
    PickAbsent(u1, z, y);
    PickNone(t1, z);
    PickNone(u1, z);
    assert Pick(t, x, y) == Pick(u, x, y) && Pick(t, x, x) == Pick(u, x, x) && Pick(t, y, y) == Pick(u, y, y);
  }

  lemma {:induction false} PickNone(rows: seq<Row>, z: string)
    requires forall i :: 0 <= i < |rows| ==> rows[i].pattern != z
    ensures Pick(rows, z, z) == None
  {
    if rows != [] { PickNone(rows[..|rows| - 1], z); }
  }

  /** Two tables that pick the same row for any two patterns are equal. */
  lemma {:induction false} EqualByPicks(t: seq<Row>, u: seq<Row>)
    requires Tabular(t) && Tabular(u)
    requires forall x, y :: Pick(t, x, y) == Pick(u, x, y)
    ensures t == u
    decreases |t|
  {
    PicksLast(t);
    PicksLast(u);
    if t != [] && u != [] {
      var t1, l, u1, m := t[..|t| - 1], t[|t| - 1], u[..|u| - 1], u[|u| - 1];
      assert Pick(t, l.pattern, m.pattern) == Some(l) && Pick(u, l.pattern, m.pattern) == Some(m);
      forall x, y ensures Pick(t1, x, y) == Pick(u1, x, y) { PicksBefore(t, u, x, y); }
      EqualByPicks(t1, u1);
      assert t == t1 + [l] && u == u1 + [m];
    }
  }

  lemma PicksLast(rows: seq<Row>)
    ensures rows != [] ==> var last := rows[|rows| - 1]; Pick(rows, last.pattern, last.pattern) == Some(last)
  {
  }

  /** An engine under which two patterns match every command and no other pattern compiles. */
  function Either(x: string, y: string): Engine { Engine(r => r == x || r == y, (r, c) => true) }

  const WORKER: seq<Task> := [Task(1, "worker")]

  lemma {:induction false} EitherPicks(rows: seq<Row>, x: string, y: string)
    requires Tabular(rows)
    ensures Reached(Either(x, y), rows, WORKER, 1) == Pick(rows, x, y)
  {
    if rows != [] {
      EitherPicks(rows[..|rows| - 1], x, y);
      EitherReaches(x, y, rows[|rows| - 1].pattern);
      hide Reaches;
    }
  }

  lemma EitherReaches(x: string, y: string, pattern: string)
    ensures Reaches(Either(x, y), pattern, WORKER, 1) <==> pattern != "" && (pattern == x || pattern == y)
  {
    assert WORKER[0].tid == 1 && WORKER[0].comm != "pause";
  }

  lemma {:induction false} NoOtherThread(eng: Engine, order: seq<Policy>, tid: int)
    requires tid != 1
    ensures Winner(eng, order, WORKER, tid) == None
  {
    if order != [] { NoOtherThread(eng, order[..|order| - 1], tid); }
  }

  function OfWorker(eng: Engine, order: seq<Policy>): seq<Intent>
  {
    var i := IntentFor(eng, order, WORKER, 1);
    if i.Some? then [i.value] else []
  }

  /** A snapshot of one thread has a resolution. */
  lemma WorkerResolves(eng: Engine, order: seq<Policy>)
    ensures IsResolution(OfWorker(eng, order), eng, order, WORKER)
  {
    var r := OfWorker(eng, order);
    forall tid
      ensures Lists(r, tid) <==> Winner(eng, order, WORKER, tid).Some?
    {
      if tid != 1 { NoOtherThread(eng, order, tid); }
      hide Winner;
      if r != [] { assert r[0].tid == 1; }
    }
    hide Winner;
  }

  /** Every snapshot is resolved the same under both orders. */
  ghost predicate OrdersAlike(a: seq<Policy>, b: seq<Policy>)
  {
    forall eng, tasks, r, u | IsResolution(r, eng, a, tasks) && IsResolution(u, eng, b, tasks) :: r == u
  }

  /** Two orders resolve every snapshot alike iff their tables are equal. */
  lemma OrdersAlikeIff(a: seq<Policy>, b: seq<Policy>)
    ensures OrdersAlike(a, b) <==> Table(a) == Table(b)
  {
    hide IsResolution, Table;
    if Table(a) == Table(b) {
      forall eng, tasks, r, u | IsResolution(r, eng, a, tasks) && IsResolution(u, eng, b, tasks)
        ensures r == u
      {
        SameTableSameIntents(eng, a, b, tasks);
        SameIntents(eng, a, b, tasks, r, u);
      }
    }
    if OrdersAlike(a, b) {
      forall x, y
        ensures Pick(Table(a), x, y) == Pick(Table(b), x, y)
      {
        WorkerResolves(Either(x, y), a);
        WorkerResolves(Either(x, y), b);
        assert OfWorker(Either(x, y), a) == OfWorker(Either(x, y), b);
        SameWorkerSamePick(a, b, x, y);
      }
      TableIsTabular(a);
      TableIsTabular(b);
      EqualByPicks(Table(a), Table(b));
    }
  }

  lemma SameTableSameIntents(eng: Engine, a: seq<Policy>, b: seq<Policy>, tasks: seq<Task>)
    requires Table(a) == Table(b)
    ensures forall tid :: IntentFor(eng, a, tasks, tid) == IntentFor(eng, b, tasks, tid)
  {
    hide IntentFor, Table;
    forall tid ensures IntentFor(eng, a, tasks, tid) == IntentFor(eng, b, tasks, tid) {
      IntentFromTable(eng, a, tasks, tid);
      IntentFromTable(eng, b, tasks, tid);
    }
  }

  lemma SameWorkerSamePick(a: seq<Policy>, b: seq<Policy>, x: string, y: string)
    requires OfWorker(Either(x, y), a) == OfWorker(Either(x, y), b)
    ensures Pick(Table(a), x, y) == Pick(Table(b), x, y)
  {
    hide IntentFor, Table, Reached, Either;
    TableIsTabular(a);
    TableIsTabular(b);
    IntentFromTable(Either(x, y), a, WORKER, 1);
    IntentFromTable(Either(x, y), b, WORKER, 1);
    EitherPicks(Table(a), x, y);
    EitherPicks(Table(b), x, y);
  }

  // ---------------------------------------------------------------- services

  /** Whatever sort either service uses, they resolve every snapshot to the same list. */
  ghost predicate ResolveAlike(s: State, t: State)
  {
    forall eng, tasks, r, u | Resolves(s, eng, tasks, r) && Resolves(t, eng, tasks, u) :: r == u
  }

  lemma SortsResolveAlike(s: State, t: State, a: seq<Policy>, b: seq<Policy>)
    requires ResolveAlike(s, t) && IsSort(a, s.cache) && IsSort(b, t.cache)
    ensures OrdersAlike(a, b)
  {
    hide IsSort, IsResolution;
    forall eng, tasks, r, u | IsResolution(r, eng, a, tasks) && IsResolution(u, eng, b, tasks)
      ensures r == u
    {
      assert Resolves(s, eng, tasks, r) && Resolves(t, eng, tasks, u);
    }
  }

  /** Two services resolve every snapshot alike iff every sort of the one has the table of every sort of the other. */
  lemma ResolveAlikeIff(s: State, t: State)
    ensures ResolveAlike(s, t) <==>
      forall a, b | IsSort(a, s.cache) && IsSort(b, t.cache) :: Table(a) == Table(b)
  {
    hide IsSort, IsResolution, Table, OrdersAlike;
    if ResolveAlike(s, t) {
      forall a, b | IsSort(a, s.cache) && IsSort(b, t.cache) ensures Table(a) == Table(b) {
        SortsResolveAlike(s, t, a, b);
        OrdersAlikeIff(a, b);
      }
    }
    if forall a, b | IsSort(a, s.cache) && IsSort(b, t.cache) :: Table(a) == Table(b) {
      forall eng, tasks, r, u | Resolves(s, eng, tasks, r) && Resolves(t, eng, tasks, u)
        ensures r == u
      {
        var a :| IsSort(a, s.cache) && IsResolution(r, eng, a, tasks);
        var b :| IsSort(b, t.cache) && IsResolution(u, eng, b, tasks);
        OrdersAlikeIff(a, b);
        AlikeOrders(a, b, eng, tasks, r, u);
      }
    }
  }

  lemma AlikeOrders(a: seq<Policy>, b: seq<Policy>, eng: Engine, tasks: seq<Task>, r: seq<Intent>, u: seq<Intent>)
    requires OrdersAlike(a, b) && IsResolution(r, eng, a, tasks) && IsResolution(u, eng, b, tasks)
    ensures r == u
  {
    hide IsResolution;
  }

  // ---------------------------------------------------------------- when the sort cannot be seen

  /** Both policies can apply, and to different effect. */
  predicate OrderMatters(p: Policy, q: Policy)
  {
    p.commandRegex != q.commandRegex && p.commandRegex != "" && q.commandRegex != ""
  }

  /** A policy with the same pattern comes later in every sort. */
  ghost predicate Outranked(cache: seq<Policy>, p: Policy)
  {
    exists q :: q in cache && q.commandRegex == p.commandRegex
                && Leq(SortKey(p), SortKey(q)) && SortKey(q) != SortKey(p)
  }

  ghost predicate Contest(cache: seq<Policy>, p: Policy, q: Policy)
  {
    && p in cache && q in cache && SortKey(p) == SortKey(q) && OrderMatters(p, q)
    && !Outranked(cache, p) && !Outranked(cache, q)
  }

  /** Two policies whose order matters share their key, and neither is outranked. */
  ghost predicate Contested(cache: seq<Policy>) { exists p, q :: Contest(cache, p, q) }

  lemma PickFromTable(order: seq<Policy>, x: string, y: string)
    ensures
      var w := Winner(Either(x, y), order, WORKER, 1);
      Pick(Table(order), x, y) == if w.Some? then Some(RowOf(w.value)) else None
  {
    TableIsTabular(order);
    WinnerFromTable(Either(x, y), order, WORKER, 1);
    EitherPicks(Table(order), x, y);
    hide *;
  }

  lemma EitherApplies(x: string, y: string, p: Policy)
    ensures Applies(Either(x, y), p, WORKER, 1)
      <==> p.commandRegex != "" && (p.commandRegex == x || p.commandRegex == y)
  {
    AppliesByPattern(Either(x, y), p, WORKER, 1);
    EitherReaches(x, y, p.commandRegex);
    hide Applies, Reaches, Either;
  }

  /** The policy that a sort picks for two patterns: none of the cache with either pattern has a greater key. */
  lemma PickedIsGreatest(order: seq<Policy>, x: string, y: string, q: Policy)
    requires Sorted(order)
    ensures
      var w := Winner(Either(x, y), order, WORKER, 1);
      && (w.Some? ==> w.value in order && w.value.commandRegex != ""
                      && (w.value.commandRegex == x || w.value.commandRegex == y))
      && (q in order && q.commandRegex != "" && (q.commandRegex == x || q.commandRegex == y) ==>
            w.Some? && Leq(SortKey(q), SortKey(w.value)))
  {
    hide Applies, Winner, Either, SortKey, Leq;
    var w := Winner(Either(x, y), order, WORKER, 1);
    WinnerIsGreatest(Either(x, y), order, WORKER, 1, q);
    EitherApplies(x, y, q);
    if w.Some? { EitherApplies(x, y, w.value); }
  }

  lemma NotOutranked(order: seq<Policy>, cache: seq<Policy>, x: string, y: string)
    requires Sorted(order) && forall p :: p in order <==> p in cache
    ensures
      var w := Winner(Either(x, y), order, WORKER, 1);
      w.Some? ==> !Outranked(cache, w.value)
  {
    hide Winner, Either, SortKey, Leq;
    var w := Winner(Either(x, y), order, WORKER, 1);
    PickedIsGreatest(order, x, y, Policy("", "", "", 0, 0));
    if w.Some? && Outranked(cache, w.value) {
      var q :| q in cache && q.commandRegex == w.value.commandRegex && Leq(SortKey(w.value), SortKey(q))
               && SortKey(q) != SortKey(w.value);
      PickedIsGreatest(order, x, y, q);
      LeqIsAntisymmetric(SortKey(q), SortKey(w.value));
    }
  }

  /** Sorts of the same policies, repetitions aside, pick alike when nothing is contested. */
  lemma UncontestedPick(a: seq<Policy>, b: seq<Policy>, cache: seq<Policy>, x: string, y: string)
    requires Sorted(a) && Sorted(b) && (forall p :: p in a <==> p in cache) && (forall p :: p in b <==> p in cache)
    requires !Contested(cache)
    ensures Pick(Table(a), x, y) == Pick(Table(b), x, y)
  {
    hide Winner, Either, SortKey, Leq, Sorted, Pick, Table, Outranked;
    var none := Policy("", "", "", 0, 0);
    var v, w := Winner(Either(x, y), a, WORKER, 1), Winner(Either(x, y), b, WORKER, 1);
    PickFromTable(a, x, y);
    PickFromTable(b, x, y);
    PickedIsGreatest(a, x, y, if w.Some? then w.value else none);
    PickedIsGreatest(b, x, y, if v.Some? then v.value else none);
    if v.Some? {
      PickedIsGreatest(a, x, y, w.value);
      LeqIsAntisymmetric(SortKey(v.value), SortKey(w.value));
      SameKeySameNumbers(v.value, w.value);
      NotOutranked(a, cache, x, y);
      NotOutranked(b, cache, x, y);
      assert !Contest(cache, v.value, w.value);
    }
  }

  lemma UncontestedTables(a: seq<Policy>, b: seq<Policy>, cache: seq<Policy>)
    requires Sorted(a) && Sorted(b) && (forall p :: p in a <==> p in cache) && (forall p :: p in b <==> p in cache)
    requires !Contested(cache)
    ensures Table(a) == Table(b)
  {
    hide Sorted, Contested, Table;
    forall x, y ensures Pick(Table(a), x, y) == Pick(Table(b), x, y) { UncontestedPick(a, b, cache, x, y); }
    TableIsTabular(a);
    TableIsTabular(b);
    EqualByPicks(Table(a), Table(b));
  }

  // ---------------------------------------------------------------- when it can

  lemma {:induction false} SortExists(ps: seq<Policy>) returns (order: seq<Policy>)
    ensures IsSort(order, ps)
  {
    hide SortKey, Leq, Inserted;
    if ps == [] {
      order := [];
    } else {
      var init := SortExists(ps[..|ps| - 1]);
      InsertedIsSorted(ps[|ps| - 1], init);
      order := Inserted(ps[|ps| - 1], init);
      assert ps == ps[..|ps| - 1] + [ps[|ps| - 1]];
    }
  }

  /** The last policy of an order with one of two patterns is the one picked. */
  lemma {:induction false} PickedAt(order: seq<Policy>, x: string, y: string, k: nat)
    requires k < |order| && order[k].commandRegex != "" && (order[k].commandRegex == x || order[k].commandRegex == y)
    requires forall i :: k < i < |order| ==> order[i].commandRegex != x && order[i].commandRegex != y
    ensures Winner(Either(x, y), order, WORKER, 1) == Some(order[k])
  {
    hide Applies, Either;
    EitherApplies(x, y, order[|order| - 1]);
    if k < |order| - 1 { PickedAt(order[..|order| - 1], x, y, k); }
  }

  lemma {:induction false} LastWith(order: seq<Policy>, x: string, y: string, i: nat) returns (k: nat)
    requires i < |order| && (order[i].commandRegex == x || order[i].commandRegex == y)
    ensures i <= k < |order| && (order[k].commandRegex == x || order[k].commandRegex == y)
    ensures forall j :: k < j < |order| ==> order[j].commandRegex != x && order[j].commandRegex != y
  {
    var n := |order| - 1;
    if order[n].commandRegex == x || order[n].commandRegex == y {
      k := n;
    } else {
      k := LastWith(order[..n], x, y, i);
    }
  }

  function Swapped(order: seq<Policy>, i: nat, j: nat): seq<Policy>
    requires i < |order| && j < |order|
  {
    order[i := order[j]][j := order[i]]
  }

  lemma SwapSorts(order: seq<Policy>, cache: seq<Policy>, i: nat, j: nat)
    requires IsSort(order, cache) && i < |order| && j < |order| && SortKey(order[i]) == SortKey(order[j])
    ensures IsSort(Swapped(order, i, j), cache)
  {
    hide SortKey, Leq;
    var s := Swapped(order, i, j);
    assert forall k :: 0 <= k < |s| ==> SortKey(s[k]) == SortKey(order[k]);
    assert multiset(s) == multiset(order);
  }

  /** In a sort, the last policy with the pattern of one of two contestants has their key. */
  lemma LastHasTheKey(order: seq<Policy>, cache: seq<Policy>, p: Policy, q: Policy, i: nat, k: nat)
    requires IsSort(order, cache) && Contest(cache, p, q) && i <= k < |order| && order[i] == p
    requires order[k].commandRegex == p.commandRegex || order[k].commandRegex == q.commandRegex
    ensures SortKey(order[k]) == SortKey(p)
  {
    hide SortKey, Leq;
    PermutedIsSameSet(order, cache);
    assert order[k] in cache;
    if i < k { assert Leq(SortKey(order[i]), SortKey(order[k])); }
    assert !Outranked(cache, p) && !Outranked(cache, q);
  }

  /** A contested cache has two sorts that pick differently. */
  lemma ContestedTables(cache: seq<Policy>, p: Policy, q: Policy) returns (a: seq<Policy>, b: seq<Policy>)
    requires Contest(cache, p, q)
    ensures IsSort(a, cache) && IsSort(b, cache) && Table(a) != Table(b)
  {
    hide SortKey, Leq, Sorted, Table, Pick, Either, Winner, RowOf, Outranked;
    var x, y := p.commandRegex, q.commandRegex;
    a := SortExists(cache);
    PermutedIsSameSet(a, cache);
    var i :| 0 <= i < |a| && a[i] == p;
    var j :| 0 <= j < |a| && a[j] == q;
    var k := LastWith(a, x, y, i);
    assert k >= j;
    LastHasTheKey(a, cache, p, q, i, k);
    var other := if a[k].commandRegex == x then j else i;
    SwapSorts(a, cache, k, other);
    b := Swapped(a, k, other);
    PickedAt(a, x, y, k);
    PickedAt(b, x, y, k);
    PickFromTable(a, x, y);
    PickFromTable(b, x, y);
    PatternOfRow(a[k]);
    PatternOfRow(b[k]);
  }

  lemma IsSortOfItself(s: State, a: seq<Policy>)
    requires IsSort(a, s.cache)
    ensures Sorted(a) && forall p :: p in a <==> p in s.cache
  {
    PermutedIsSameSet(a, s.cache);
    hide Sorted;
  }

  /** Services with the same policies, repetitions aside, resolve every snapshot alike iff nothing is contested. */
  lemma SamePoliciesResolveAlikeIff(s: State, t: State)
    requires forall p :: p in s.cache <==> p in t.cache
    ensures ResolveAlike(s, t) <==> !Contested(s.cache)
  {
    hide IsSort, Sorted, Table, ResolveAlike, Contest;
    ResolveAlikeIff(s, t);
    if Contested(s.cache) {
      var p, q :| Contest(s.cache, p, q);
      var a, b := ContestedTables(s.cache, p, q);
      var c := SortExists(t.cache);
      assert Table(a) != Table(c) || Table(b) != Table(c);
    } else {
      forall a, b | IsSort(a, s.cache) && IsSort(b, t.cache) ensures Table(a) == Table(b) {
        IsSortOfItself(s, a);
        IsSortOfItself(t, b);
        UncontestedTables(a, b, s.cache);
      }
    }
  }

  /** In particular a service resolves the same way each time iff nothing in its cache is contested. */
  lemma ResolvesOneWayIff(s: State)
    ensures ResolveAlike(s, s) <==> !Contested(s.cache)
  {
    hide *;
    SamePoliciesResolveAlikeIff(s, s);
  }

  /**
   After any two runs, services with equal roots whose policies are told apart by text resolve every snapshot
   alike iff nothing is contested; told apart by key, nothing is.
   */
  lemma EqualRootsResolveAlikeIff(c: seq<Command>, d: seq<Command>)
    requires After(c).Some? && After(d).Some? && After(c).value.root == After(d).value.root
    requires TextsDecide(After(c).value.cache + After(d).value.cache)
    ensures ResolveAlike(After(c).value, After(d).value) <==> !Contested(After(c).value.cache)
    ensures KeysDecide(After(c).value.cache) ==> ResolveAlike(After(c).value, After(d).value)
  {
    hide *;
    EqualRootsEqualPolicies(c, d);
    SamePoliciesResolveAlikeIff(After(c).value, After(d).value);
    DecidedIsUncontested(After(c).value.cache);
  }

  lemma DecidedIsUncontested(cache: seq<Policy>)
    ensures KeysDecide(cache) ==> !Contested(cache)
  {
    hide SortKey, Outranked;
  }

  // ---------------------------------------------------------------- when the sort shows in the root

  /** Any sort can be brought to begin like another without moving a key. */
  lemma Fronted(a: seq<Policy>, b: seq<Policy>) returns (c: seq<Policy>)
    requires Sorted(a) && IsSort(b, a) && a != []
    ensures IsSort(c, a) && |a| == |b| == |c| && c[0] == a[0]
    ensures forall i :: 0 <= i < |b| ==> SortKey(c[i]) == SortKey(b[i])
  {
    SameLength(a, b);
    PermutedIsSameSet(a, b);
    assert a[0] in b && b[0] in a;
    FirstIsLeast(a, b[0]);
    FirstIsLeast(b, a[0]);
    hide SortKey, Leq, Sorted;
    LeqIsAntisymmetric(SortKey(a[0]), SortKey(b[0]));
    var j :| 0 <= j < |b| && b[j] == a[0];
    SwapSorts(b, a, 0, j);
    c := Swapped(b, 0, j);
  }

  lemma TailSorts(a: seq<Policy>, c: seq<Policy>)
    requires Sorted(a) && IsSort(c, a) && a != [] && c != [] && c[0] == a[0]
    ensures Sorted(a[1..]) && IsSort(c[1..], a[1..])
  {
    hide SortKey, Leq;
    DropFirst(a);
    DropFirst(c);
  }

  /** All sorts of the same policies have the same keys in the same places. */
  lemma {:induction false} SameKeys(a: seq<Policy>, b: seq<Policy>)
    requires Sorted(a) && IsSort(b, a)
    ensures |a| == |b| && forall i :: 0 <= i < |a| ==> SortKey(a[i]) == SortKey(b[i])
    decreases |a|
  {
    SameLength(a, b);
    if a != [] {
      hide SortKey, IsSort, Sorted;
      var c := Fronted(a, b);
      TailSorts(a, c);
      SameKeys(a[1..], c[1..]);
      KeysFromTails(a, b, c);
    }
  }

  lemma KeysFromTails(a: seq<Policy>, b: seq<Policy>, c: seq<Policy>)
    requires |a| == |b| == |c| > 0 && a[0] == c[0]
    requires forall i :: 0 <= i < |b| ==> SortKey(c[i]) == SortKey(b[i])
    requires forall i :: 0 <= i < |a[1..]| ==> SortKey(a[1..][i]) == SortKey(c[1..][i])
    ensures forall i :: 0 <= i < |a| ==> SortKey(a[i]) == SortKey(b[i])
  {
    hide SortKey;
    forall i | 1 <= i < |a| ensures SortKey(a[i]) == SortKey(b[i]) {
      assert a[1..][i - 1] == a[i] && c[1..][i - 1] == c[i];
    }
  }

  /** Policies of the list with the same key have the same hashed text. */
  ghost predicate KeysTellTexts(ps: seq<Policy>)
  {
    forall p, q :: p in ps && q in ps && SortKey(p) == SortKey(q) ==> Serialized(p) == Serialized(q)
  }

  lemma SameTextsSameRoot(a: seq<Policy>, b: seq<Policy>)
    requires |a| == |b| && forall i :: 0 <= i < |a| ==> Serialized(a[i]) == Serialized(b[i])
    ensures RootOf(a) == RootOf(b)
  {
    hide Serialized;
    assert LeafHashes(a) == LeafHashes(b);
  }

  lemma SameRootSameText(a: seq<Policy>, b: seq<Policy>, i: nat)
    requires |a| == |b| && i < |a|
    ensures RootOf(a) == RootOf(b) ==> Serialized(a[i]) == Serialized(b[i])
  {
    hide Serialized, Merkle.Root;
    if RootOf(a) == RootOf(b) {
      Merkle.EqualRootsEqualListsIff(LeafHashes(a), LeafHashes(b));
      assert LeafHashes(a)[i] == LeafHashes(b)[i];
    }
  }

  /** The root is decided by the policies, and not by the sort, iff policies with the same key have the same text. */
  lemma OneRootIff(cache: seq<Policy>)
    ensures (forall a, b | IsSort(a, cache) && IsSort(b, cache) :: RootOf(a) == RootOf(b)) <==> KeysTellTexts(cache)
  {
    hide RootOf, Sorted, SortKey, Serialized;
    if KeysTellTexts(cache) {
      forall a, b | IsSort(a, cache) && IsSort(b, cache) ensures RootOf(a) == RootOf(b) {
        ToldSortsHaveOneRoot(cache, a, b);
      }
    } else {
      var p, q :| p in cache && q in cache && SortKey(p) == SortKey(q) && Serialized(p) != Serialized(q);
      var a := SortExists(cache);
      PermutedIsSameSet(a, cache);
      var i :| 0 <= i < |a| && a[i] == p;
      var j :| 0 <= j < |a| && a[j] == q;
      SwapSorts(a, cache, i, j);
      SameRootSameText(a, Swapped(a, i, j), i);
    }
  }

  lemma ToldSortsHaveOneRoot(cache: seq<Policy>, a: seq<Policy>, b: seq<Policy>)
    requires KeysTellTexts(cache) && IsSort(a, cache) && IsSort(b, cache)
    ensures RootOf(a) == RootOf(b)
  {
    hide RootOf, Sorted, SortKey, Serialized;
    SameKeys(a, b);
    PermutedIsSameSet(a, cache);
    PermutedIsSameSet(b, cache);
    forall i | 0 <= i < |a| ensures Serialized(a[i]) == Serialized(b[i]) {
      assert a[i] in cache && b[i] in cache;
    }
    SameTextsSameRoot(a, b);
  }
}
