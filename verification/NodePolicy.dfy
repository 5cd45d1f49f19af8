/** Node-level scheduling policies: their canonical order, drift detection by Merkle root, and resolution to threads. */
module NodePolicy {
  import opened Options
  import opened Text
  import Merkle
  import Ints

  datatype Policy = Policy(policyId: string, nodeId: string, commandRegex: string, priority: int, executionTime: int)

  // ---------------------------------------------------------------- the sort key and the hashed text

  function Joined(a: string, b: string, c: string, d: string, e: string): string
  {
    a + ['|'] + (b + ['|'] + (c + ['|'] + d + ['|'] + e))
  }

  function SortKey(p: Policy): string
  {
    Joined(p.policyId, p.nodeId, p.commandRegex, Itoa(p.priority), Itoa(p.executionTime))
  }

  function Serialized(p: Policy): string
  {
    Joined("policyID=" + p.policyId, "nodeID=" + p.nodeId, "commandRegex=" + p.commandRegex,
           "priority=" + Itoa(p.priority), "executionTime=" + Itoa(p.executionTime))
  }

  /** The IDs do not contain the separator; the regular expression may. */
  predicate Plain(p: Policy) { '|' !in p.policyId && '|' !in p.nodeId }

  lemma JoinedIsInjective(a: string, b: string, c: string, d: string, e: string,
                          v: string, w: string, x: string, y: string, z: string)
    requires Joined(a, b, c, d, e) == Joined(v, w, x, y, z)
    requires forall s :: s in {a, b, d, e, v, w, y, z} ==> '|' !in s
    ensures a == v && b == w && c == x && d == y && e == z
  {
    CutLeft('|', a, b + ['|'] + (c + ['|'] + d + ['|'] + e), v, w + ['|'] + (x + ['|'] + y + ['|'] + z));
    CutLeft('|', b, c + ['|'] + d + ['|'] + e, w, x + ['|'] + y + ['|'] + z);
    CutRight('|', c + ['|'] + d, e, x + ['|'] + y, z);
    CutRight('|', c, d, x, y);
  }

  /** Among plain policies the sort key determines the policy. */
  lemma SortKeyIsInjective(p: Policy, q: Policy)
    requires Plain(p) && Plain(q) && SortKey(p) == SortKey(q)
    ensures p == q
  {
    ItoaRoundTrip(p.priority);
    ItoaRoundTrip(p.executionTime);
    ItoaRoundTrip(q.priority);
    ItoaRoundTrip(q.executionTime);
    hide Itoa, Atoi, Joined;
    JoinedIsInjective(p.policyId, p.nodeId, p.commandRegex, Itoa(p.priority), Itoa(p.executionTime),
                      q.policyId, q.nodeId, q.commandRegex, Itoa(q.priority), Itoa(q.executionTime));
  }

  lemma SerializedIsInjective(p: Policy, q: Policy)
    requires Plain(p) && Plain(q) && Serialized(p) == Serialized(q)
    ensures p == q
  {
    ItoaRoundTrip(p.priority);
    ItoaRoundTrip(p.executionTime);
    ItoaRoundTrip(q.priority);
    ItoaRoundTrip(q.executionTime);
    hide Itoa, Atoi, Joined;
    JoinedIsInjective("policyID=" + p.policyId, "nodeID=" + p.nodeId, "commandRegex=" + p.commandRegex,
                      "priority=" + Itoa(p.priority), "executionTime=" + Itoa(p.executionTime),
                      "policyID=" + q.policyId, "nodeID=" + q.nodeId, "commandRegex=" + q.commandRegex,
                      "priority=" + Itoa(q.priority), "executionTime=" + Itoa(q.executionTime));
    Unprefix("policyID=", p.policyId, q.policyId);
    Unprefix("nodeID=", p.nodeId, q.nodeId);
    Unprefix("commandRegex=", p.commandRegex, q.commandRegex);
    Unprefix("priority=", Itoa(p.priority), Itoa(q.priority));
    Unprefix("executionTime=", Itoa(p.executionTime), Itoa(q.executionTime));
  }

  /** No other policy has the same key iff the separator is in none of the text fields. */
  lemma SortKeyIsUniqueIff(p: Policy)
    ensures (forall q :: SortKey(q) == SortKey(p) ==> q == p)
      <==> '|' !in p.policyId && '|' !in p.nodeId && '|' !in p.commandRegex
  {
    if '|' in p.policyId || '|' in p.nodeId || '|' in p.commandRegex {
      TwinHasTheSameKey(p);
    } else {
      forall q | SortKey(q) == SortKey(p)
        ensures q == p
      {
        SeparatorsAgree(p, q);
        SortKeyIsInjective(p, q);
      }
    }
  }

  function SplitAtBar(s: string): (r: (string, string))
    requires '|' in s
    ensures s == r.0 + ['|'] + r.1
  {
    if s[0] == '|' then ("", s[1..])
    else
      var (a, b) := SplitAtBar(s[1..]);
      ([s[0]] + a, b)
  }

  lemma ShiftId(a: string, b: string, n: string, r: string, d: string, e: string)
    ensures Joined(a + ['|'] + b, n, r, d, e) == Joined(a, b, n + ['|'] + r, d, e)
  {
    var rest := r + ['|'] + d + ['|'] + e;
    assert n + ['|'] + rest == n + ['|'] + r + ['|'] + d + ['|'] + e;
    assert (a + ['|'] + b) + ['|'] + (n + ['|'] + rest) == a + ['|'] + (b + ['|'] + (n + ['|'] + rest));
  }

  lemma ShiftNode(i: string, a: string, b: string, r: string, d: string, e: string)
    ensures Joined(i, a + ['|'] + b, r, d, e) == Joined(i, a, b + ['|'] + r, d, e)
  {
    var rest := ['|'] + d + ['|'] + e;
    assert r + ['|'] + d + ['|'] + e == r + rest && b + ['|'] + r + ['|'] + d + ['|'] + e == b + ['|'] + r + rest;
    assert (a + ['|'] + b) + ['|'] + (r + rest) == a + ['|'] + (b + ['|'] + r + rest);
  }

  /** A separator inside a field can be read as the end of that field. */
  function Twin(p: Policy): Policy
    requires '|' in p.policyId || '|' in p.nodeId || '|' in p.commandRegex
  {
    if '|' in p.policyId then
      var (a, b) := SplitAtBar(p.policyId);
      p.(policyId := a, nodeId := b, commandRegex := p.nodeId + ['|'] + p.commandRegex)
    else if '|' in p.nodeId then
      var (a, b) := SplitAtBar(p.nodeId);
      p.(nodeId := a, commandRegex := b + ['|'] + p.commandRegex)
    else
      var (a, b) := SplitAtBar(p.commandRegex);
      p.(nodeId := p.nodeId + ['|'] + a, commandRegex := b)
  }

  lemma TwinHasTheSameKey(p: Policy)
    requires '|' in p.policyId || '|' in p.nodeId || '|' in p.commandRegex
    ensures Twin(p) != p && SortKey(Twin(p)) == SortKey(p)
  {
    hide Joined, Itoa, SplitAtBar;
    var d, e := Itoa(p.priority), Itoa(p.executionTime);
    if '|' in p.policyId {
      var (a, b) := SplitAtBar(p.policyId);
      ShiftId(a, b, p.nodeId, p.commandRegex, d, e);
      assert |a| < |p.policyId|;
    } else if '|' in p.nodeId {
      var (a, b) := SplitAtBar(p.nodeId);
      ShiftNode(p.policyId, a, b, p.commandRegex, d, e);
      assert |a| < |p.nodeId|;
    } else {
      var (a, b) := SplitAtBar(p.commandRegex);
      ShiftNode(p.policyId, p.nodeId, a, b, d, e);
      assert |b| < |p.commandRegex|;
    }
  }

  /** Every key has four separators of its own; the rest come from the text fields. */
  lemma KeySeparators(p: Policy)
    ensures CountOf(SortKey(p), '|')
         == 4 + CountOf(p.policyId, '|') + CountOf(p.nodeId, '|') + CountOf(p.commandRegex, '|')
  {
    var d, e := Itoa(p.priority), Itoa(p.executionTime);
    ItoaRoundTrip(p.priority);
    ItoaRoundTrip(p.executionTime);
    assert CountOf(['|'], '|') == 1;
    CountOfJoin(d, e, '|');
    CountOfJoin(e, d, '|');
    CountOfJoin(p.commandRegex, ['|'], '|');
    CountOfJoin(p.commandRegex + ['|'], d, '|');
    CountOfJoin(p.commandRegex + ['|'] + d, ['|'], '|');
    CountOfJoin(p.commandRegex + ['|'] + d + ['|'], e, '|');
    CountOfJoin(p.nodeId, ['|'], '|');
    CountOfJoin(p.nodeId + ['|'], p.commandRegex + ['|'] + d + ['|'] + e, '|');
    CountOfJoin(p.policyId, ['|'], '|');
    CountOfJoin(p.policyId + ['|'], p.nodeId + ['|'] + (p.commandRegex + ['|'] + d + ['|'] + e), '|');
    hide CountOf, Itoa, Atoi;
  }

  lemma SeparatorsAgree(p: Policy, q: Policy)
    requires SortKey(q) == SortKey(p)
    requires '|' !in p.policyId && '|' !in p.nodeId && '|' !in p.commandRegex
    ensures Plain(q)
  {
    KeySeparators(p);
    KeySeparators(q);
    CountOfJoin(p.policyId, "", '|');
    CountOfJoin(p.nodeId, "", '|');
    CountOfJoin(p.commandRegex, "", '|');
    CountOfJoin(q.policyId, "", '|');
    CountOfJoin(q.nodeId, "", '|');
    hide CountOf, SortKey;
  }

  lemma KeyFromTheRight(p: Policy)
    ensures SortKey(p) == ((p.policyId + ['|'] + (p.nodeId + ['|'] + p.commandRegex)) + ['|'] + Itoa(p.priority))
                          + ['|'] + Itoa(p.executionTime)
  {
    hide Itoa;
    var d, e := Itoa(p.priority), Itoa(p.executionTime);
    assert p.policyId + ['|'] + (p.nodeId + ['|'] + (p.commandRegex + ['|'] + d + ['|'] + e))
        == ((p.policyId + ['|'] + (p.nodeId + ['|'] + p.commandRegex)) + ['|'] + d) + ['|'] + e;
  }

  /** Policies with the same key have the same numbers; their text fields may be divided differently. */
  lemma SameKeySameNumbers(p: Policy, q: Policy)
    requires SortKey(p) == SortKey(q)
    ensures p.priority == q.priority && p.executionTime == q.executionTime
  {
    KeyFromTheRight(p);
    KeyFromTheRight(q);
    ItoaRoundTrip(p.priority);
    ItoaRoundTrip(p.executionTime);
    ItoaRoundTrip(q.priority);
    ItoaRoundTrip(q.executionTime);
    hide SortKey, Itoa, Atoi;
    var x := p.policyId + ['|'] + (p.nodeId + ['|'] + p.commandRegex);
    var y := q.policyId + ['|'] + (q.nodeId + ['|'] + q.commandRegex);
    CutRight('|', x + ['|'] + Itoa(p.priority), Itoa(p.executionTime),
             y + ['|'] + Itoa(q.priority), Itoa(q.executionTime));
    CutRight('|', x, Itoa(p.priority), y, Itoa(q.priority));
  }

  // ---------------------------------------------------------------- canonical order

  ghost predicate Sorted(ps: seq<Policy>)
  {
    forall i, j :: 0 <= i < j < |ps| ==> Leq(SortKey(ps[i]), SortKey(ps[j]))
  }

  /** What sorting by key may return: it is not stable, so policies with equal keys come in any order. */
  ghost predicate IsSort(out: seq<Policy>, ps: seq<Policy>) { multiset(out) == multiset(ps) && Sorted(out) }

  /** Different policies of the list have different sort keys. */
  ghost predicate KeysDecide(ps: seq<Policy>)
  {
    forall p, q :: p in ps && q in ps && SortKey(p) == SortKey(q) ==> p == q
  }

  /** Different policies of the list have different hashed texts. */
  ghost predicate TextsDecide(ps: seq<Policy>)
  {
    forall p, q :: p in ps && q in ps && Serialized(p) == Serialized(q) ==> p == q
  }

  /** Both hold of any policies whose IDs have no separator. */
  lemma PlainPoliciesDecide(ps: seq<Policy>)
    requires forall p :: p in ps ==> Plain(p)
    ensures KeysDecide(ps) && TextsDecide(ps)
  {
    hide Plain, SortKey, Serialized;
    forall p, q | p in ps && q in ps && SortKey(p) == SortKey(q) ensures p == q { SortKeyIsInjective(p, q); }
    forall p, q | p in ps && q in ps && Serialized(p) == Serialized(q) ensures p == q { SerializedIsInjective(p, q); }
  }

  lemma FirstIsLeast(a: seq<Policy>, p: Policy)
    requires Sorted(a) && p in a
    ensures Leq(SortKey(a[0]), SortKey(p))
  {
    var i :| 0 <= i < |a| && a[i] == p;
    if i == 0 { LeqIsTotal(SortKey(p), SortKey(p)); }
  }

  /** Policies told apart by their keys have one canonical order, whatever order they were pushed in. */
  lemma {:induction false} SortIsUnique(a: seq<Policy>, b: seq<Policy>)
    requires Sorted(a) && Sorted(b) && multiset(a) == multiset(b) && KeysDecide(a)
    ensures a == b
  {
    hide SortKey, Leq;
    SameLength(a, b);
    if a != [] {
      SameFirst(a, b);
      DropFirst(a);
      DropFirst(b);
      SortIsUnique(a[1..], b[1..]);
    }
  }

  lemma SameLength(a: seq<Policy>, b: seq<Policy>)
    requires multiset(a) == multiset(b)
    ensures |a| == |b|
  {
    assert |a| == |multiset(a)| == |multiset(b)| == |b|;
  }

  lemma DropFirst(a: seq<Policy>)
    requires a != []
    ensures a == [a[0]] + a[1..] && multiset(a[1..]) == multiset(a) - multiset{a[0]}
  {
    assert a == [a[0]] + a[1..];
  }

  lemma SameFirst(a: seq<Policy>, b: seq<Policy>)
    requires Sorted(a) && Sorted(b) && multiset(a) == multiset(b) && KeysDecide(a) && a != [] && b != []
    ensures a[0] == b[0]
  {
    hide SortKey, Leq;
    assert a[0] in multiset(b) && b[0] in multiset(a);
    FirstIsLeast(a, b[0]);
    FirstIsLeast(b, a[0]);
    LeqIsAntisymmetric(SortKey(a[0]), SortKey(b[0]));
  }

  /** Otherwise the order is not determined by the policies: a clash can be sorted either way. */
  lemma ClashSortsBothWays(p: Policy, q: Policy)
    requires SortKey(p) == SortKey(q)
    ensures IsSort([p, q], [p, q]) && IsSort([q, p], [p, q])
  {
    hide SortKey;
    LeqIsTotal(SortKey(p), SortKey(q));
    assert multiset([q, p]) == multiset([p, q]);
  }

  // ---------------------------------------------------------------- resolution

  datatype Task = Task(tid: int, comm: string)
  datatype Intent = Intent(priority: int, executionTime: nat, tid: int, commandRegex: string)

  /** The regular expression engine: which patterns compile and which commands they match. */
  datatype Engine = Engine(compiles: string -> bool, matches: (string, string) -> bool)

  predicate Active(eng: Engine, p: Policy) { p.commandRegex != "" && eng.compiles(p.commandRegex) }

  predicate Hits(eng: Engine, p: Policy, t: Task) { t.comm != "pause" && eng.matches(p.commandRegex, t.comm) }

  predicate Applies(eng: Engine, p: Policy, tasks: seq<Task>, tid: int)
  {
    Active(eng, p) && exists i :: 0 <= i < |tasks| && tasks[i].tid == tid && Hits(eng, p, tasks[i])
  }

  /** The last policy of the list that applies to a thread. */
  function Winner(eng: Engine, ps: seq<Policy>, tasks: seq<Task>, tid: int): Option<Policy>
  {
    if ps == [] then None
    else if Applies(eng, ps[|ps| - 1], tasks, tid) then Some(ps[|ps| - 1])
    else Winner(eng, ps[..|ps| - 1], tasks, tid)
  }

  /** The execution time is converted to an unsigned 64-bit number. */
  function IntentOf(p: Policy, tid: int): Intent
  {
    Intent(p.priority, p.executionTime % 0x1_0000_0000_0000_0000, tid, p.commandRegex)
  }

  ghost predicate Lists(r: seq<Intent>, tid: int) { exists i :: 0 <= i < |r| && r[i].tid == tid }

  /** One intent per thread some policy applies to, from the last such policy, by increasing thread. */
  ghost predicate IsResolution(r: seq<Intent>, eng: Engine, ps: seq<Policy>, tasks: seq<Task>)
  {
    && (forall i, j :: 0 <= i < j < |r| ==> r[i].tid < r[j].tid)
    && (forall tid :: Lists(r, tid) <==> Winner(eng, ps, tasks, tid).Some?)
    && (forall i :: 0 <= i < |r| ==> Some(r[i]) == IntentFor(eng, ps, tasks, r[i].tid))
  }

  function IntentFor(eng: Engine, ps: seq<Policy>, tasks: seq<Task>, tid: int): Option<Intent>
  {
    var w := Winner(eng, ps, tasks, tid);
    if w.Some? then Some(IntentOf(w.value, tid)) else None
  }

  /** In a sorted list the winner has the greatest key among the policies that apply. */
  lemma {:induction false} WinnerIsGreatest(eng: Engine, ps: seq<Policy>, tasks: seq<Task>, tid: int, q: Policy)
    requires Sorted(ps)
    ensures
      var w := Winner(eng, ps, tasks, tid);
      && (w.Some? ==> w.value in ps && Applies(eng, w.value, tasks, tid))
      && (q in ps && Applies(eng, q, tasks, tid) ==> w.Some? && Leq(SortKey(q), SortKey(w.value)))
  {
    hide SortKey, Applies;
    if ps != [] {
      var init, last := ps[..|ps| - 1], ps[|ps| - 1];
      WinnerIsGreatest(eng, init, tasks, tid, q);
      if q in ps {
        var i :| 0 <= i < |ps| && ps[i] == q;
        if i == |ps| - 1 {
          LeqIsTotal(SortKey(q), SortKey(q));
        } else {
          assert q == init[i];
        }
      }
    }
  }

  /** Two sorted lists of the same policies, repetitions aside, have the same winners. */
  lemma SameWinner(eng: Engine, a: seq<Policy>, b: seq<Policy>, tasks: seq<Task>, tid: int)
    requires Sorted(a) && Sorted(b) && KeysDecide(a) && (forall p :: p in a <==> p in b)
    ensures Winner(eng, a, tasks, tid) == Winner(eng, b, tasks, tid)
  {
    var v, w := Winner(eng, a, tasks, tid), Winner(eng, b, tasks, tid);
    var any := Policy("", "", "", 0, 0);
    WinnerIsGreatest(eng, a, tasks, tid, if w.Some? then w.value else any);
    WinnerIsGreatest(eng, b, tasks, tid, if v.Some? then v.value else any);
    hide SortKey, Applies, Winner;
    if v.Some? {
      LeqIsAntisymmetric(SortKey(v.value), SortKey(w.value));
    }
  }

  lemma {:induction false} ResolutionIsDetermined(r: seq<Intent>, s: seq<Intent>)
    requires forall i, j :: 0 <= i < j < |r| ==> r[i].tid < r[j].tid
    requires forall i, j :: 0 <= i < j < |s| ==> s[i].tid < s[j].tid
    requires forall x :: x in r <==> x in s
    ensures r == s
  {
    FirstIsMember(s);
    if r != [] {
      assert r[0] in s && s != [];
      assert s[0] in r;
      assert r[0] == s[0];
      assert r == [r[0]] + r[1..] && s == [s[0]] + s[1..];
      forall x
        ensures x in r[1..] <==> x in s[1..]
      {
        TailMembers(r, x);
        TailMembers(s, x);
      }
      ResolutionIsDetermined(r[1..], s[1..]);
    }
  }

  lemma FirstIsMember(s: seq<Intent>)
    ensures s != [] ==> s[0] in s
  {
  }

  lemma TailMembers(r: seq<Intent>, x: Intent)
    requires r != [] && forall i, j :: 0 <= i < j < |r| ==> r[i].tid < r[j].tid
    ensures x in r[1..] <==> x in r && x != r[0]
  {
    if x in r[1..] {
      var i :| 0 <= i < |r[1..]| && r[1..][i] == x;
      assert r[i + 1] == x;
    }
    if x in r && x != r[0] {
      var i :| 0 <= i < |r| && r[i] == x;
      assert r[1..][i - 1] == x;
    }
  }

  /** Resolution depends on the set of policies alone: not on push order, nor on which sort was used, nor on repeats. */
  lemma ResolutionIsCanonical(eng: Engine, a: seq<Policy>, b: seq<Policy>, tasks: seq<Task>,
                              r: seq<Intent>, s: seq<Intent>)
    requires Sorted(a) && Sorted(b) && KeysDecide(a) && (forall p :: p in a <==> p in b)
    requires IsResolution(r, eng, a, tasks) && IsResolution(s, eng, b, tasks)
    ensures r == s
  {
    forall tid
      ensures Winner(eng, a, tasks, tid) == Winner(eng, b, tasks, tid)
    {
      SameWinner(eng, a, b, tasks, tid);
    }
    hide Sorted, KeysDecide, Winner;
    SameIntents(eng, a, b, tasks, r, s);
  }

  /** A resolution lists the intents of the threads, and nothing else decides it. */
  lemma SameIntents(eng: Engine, a: seq<Policy>, b: seq<Policy>, tasks: seq<Task>, r: seq<Intent>, s: seq<Intent>)
    requires forall tid :: IntentFor(eng, a, tasks, tid) == IntentFor(eng, b, tasks, tid)
    requires IsResolution(r, eng, a, tasks) && IsResolution(s, eng, b, tasks)
    ensures r == s
  {
    forall x | x in r ensures x in s { ListedElsewhere(eng, a, b, tasks, r, s, x); }
    forall x | x in s ensures x in r { ListedElsewhere(eng, b, a, tasks, s, r, x); }
    hide IntentFor;
    ResolutionIsDetermined(r, s);
  }

  lemma ListedElsewhere(eng: Engine, a: seq<Policy>, b: seq<Policy>, tasks: seq<Task>,
                        r: seq<Intent>, s: seq<Intent>, x: Intent)
    requires forall tid :: IntentFor(eng, a, tasks, tid) == IntentFor(eng, b, tasks, tid)
    requires IsResolution(r, eng, a, tasks) && IsResolution(s, eng, b, tasks) && x in r
    ensures x in s
  {
    hide Winner;
    var i :| 0 <= i < |r| && r[i] == x;
    assert Lists(r, x.tid);
    assert Lists(s, x.tid);
    var j :| 0 <= j < |s| && s[j].tid == x.tid;
    assert Some(s[j]) == Some(r[i]);
  }

  // ---------------------------------------------------------------- the Merkle root of the cache

  function LeafHashes(ps: seq<Policy>): seq<Merkle.Digest>
  {
    seq(|ps|, i requires 0 <= i < |ps| => Merkle.Text(Serialized(ps[i])))
  }

  function RootOf(sorted: seq<Policy>): Merkle.Digest { Merkle.Root(LeafHashes(sorted)) }

  lemma {:induction false} LeavesOfPolicies(ps: seq<Policy>, text: string)
    ensures text in Merkle.AllLeaves(LeafHashes(ps)) <==> exists i :: 0 <= i < |ps| && Serialized(ps[i]) == text
  {
    hide Serialized;
    if ps != [] {
      LeavesOfPolicies(ps[1..], text);
      assert LeafHashes(ps)[1..] == LeafHashes(ps[1..]);
      assert forall i :: 1 <= i < |ps| ==> ps[1..][i - 1] == ps[i];
    }
  }

  lemma SerializedIsNotEmpty(p: Policy)
    ensures Serialized(p) != ""
  {
  }

  lemma CommitsTo(ps: seq<Policy>, text: string)
    ensures text in Merkle.Leaves(RootOf(ps)) <==>
      if ps == [] then text == "" else exists i :: 0 <= i < |ps| && Serialized(ps[i]) == text
  {
    hide Serialized;
    if ps != [] {
      Merkle.RootKeepsLeaves(LeafHashes(ps));
      LeavesOfPolicies(ps, text);
    }
  }

  /** Equal roots of policies told apart by their texts mean equal sets of policies, though not equal lists. */
  lemma EqualRootsEqualSets(a: seq<Policy>, b: seq<Policy>, p: Policy)
    requires TextsDecide(a + b) && RootOf(a) == RootOf(b)
    ensures p in a ==> p in b
  {
    hide Serialized, RootOf;
    if p in a {
      var i :| 0 <= i < |a| && a[i] == p;
      CommitsTo(a, Serialized(p));
      CommitsTo(b, Serialized(p));
      SerializedIsNotEmpty(p);
      var j :| 0 <= j < |b| && Serialized(b[j]) == Serialized(p);
      assert p in a + b && b[j] in a + b;
    }
  }

  // ---------------------------------------------------------------- the service over whole runs

  /** The root is absent until the first command. */
  datatype State = State(cache: seq<Policy>, root: Option<Merkle.Digest>)

  const FRESH := State([], None)

  /** Each command comes with the canonical order its sort returned. */
  datatype Command =
    | Push(policies: seq<Option<Policy>>, order: seq<Policy>)
    | DeleteById(id: string, order: seq<Policy>)
    | DeleteAll(order: seq<Policy>)

  function Present(policies: seq<Option<Policy>>): seq<Policy>
  {
    if policies == [] then []
    else
      var last := policies[|policies| - 1];
      Present(policies[..|policies| - 1]) + if last.Some? then [last.value] else []
  }

  function Without(ps: seq<Policy>, id: string): seq<Policy>
  {
    if ps == [] then []
    else Without(ps[..|ps| - 1], id) + if ps[|ps| - 1].policyId == id then [] else [ps[|ps| - 1]]
  }

  function CacheAfter(cache: seq<Policy>, c: Command): seq<Policy>
  {
    match c
    case Push(policies, _) => Present(policies)
    case DeleteById(id, _) => Without(cache, id)
    case DeleteAll(_) => []
  }

  ghost function After(commands: seq<Command>): Option<State>
  {
    if commands == [] then Some(FRESH)
    else
      var before, c := After(commands[..|commands| - 1]), commands[|commands| - 1];
      if before.None? || !IsSort(c.order, CacheAfter(before.value.cache, c)) then None
      else Some(State(CacheAfter(before.value.cache, c), Some(RootOf(c.order))))
  }

  /** The stored root is that of the stored cache in canonical order. */
  ghost predicate RootMatches(s: State)
  {
    s == FRESH || (s.root.Some? && exists order :: IsSort(order, s.cache) && s.root.value == RootOf(order))
  }

  lemma RootAlwaysMatches(commands: seq<Command>)
    ensures After(commands).Some? ==> RootMatches(After(commands).value)
  {
    hide IsSort, RootOf;
  }

  /** What a service resolves: its cache sorted again, matched against a snapshot of threads. */
  ghost predicate Resolves(s: State, eng: Engine, tasks: seq<Task>, r: seq<Intent>)
  {
    exists order :: IsSort(order, s.cache) && IsResolution(r, eng, order, tasks)
  }

  lemma PermutedIsSameSet(a: seq<Policy>, b: seq<Policy>)
    requires multiset(a) == multiset(b)
    ensures forall p :: p in a <==> p in b
    ensures KeysDecide(b) ==> KeysDecide(a)
  {
    hide SortKey;
    assert forall p :: p in a <==> p in multiset(a);
    assert forall p :: p in b <==> p in multiset(b);
  }

  lemma SameSetsDecide(x: seq<Policy>, y: seq<Policy>, a: seq<Policy>, b: seq<Policy>)
    requires TextsDecide(x + y) && (forall p :: p in a <==> p in x) && (forall p :: p in b <==> p in y)
    ensures TextsDecide(a + b) && TextsDecide(b + a)
  {
    hide Serialized;
    assert forall p :: p in a + b ==> p in x + y;
    assert forall p :: p in b + a ==> p in x + y;
  }

  lemma RootOfOrder(s: State) returns (order: seq<Policy>)
    requires RootMatches(s) && s.root.Some?
    ensures IsSort(order, s.cache) && s.root.value == RootOf(order) && forall p :: p in order <==> p in s.cache
  {
    hide RootOf, Sorted;
    order :| IsSort(order, s.cache) && s.root.value == RootOf(order);
    PermutedIsSameSet(order, s.cache);
  }

  /** After any two runs, services with equal roots whose policies are told apart by text hold the same policies. */
  lemma EqualRootsEqualPolicies(c: seq<Command>, d: seq<Command>)
    requires After(c).Some? && After(d).Some? && After(c).value.root == After(d).value.root
    requires TextsDecide(After(c).value.cache + After(d).value.cache)
    ensures forall p :: p in After(c).value.cache <==> p in After(d).value.cache
  {
    hide RootOf, IsSort, TextsDecide, After;
    var x, y := After(c).value, After(d).value;
    RootAlwaysMatches(c);
    RootAlwaysMatches(d);
    if x.root.Some? {
      var a := RootOfOrder(x);
      var b := RootOfOrder(y);
      SameSetsDecide(x.cache, y.cache, a, b);
      forall p ensures p in a <==> p in b {
        EqualRootsEqualSets(a, b, p);
        EqualRootsEqualSets(b, a, p);
      }
    }
  }

  /** After any two runs, services whose policies are told apart by key and text resolve alike under equal roots. */
  lemma EqualRootsResolveAlike(c: seq<Command>, d: seq<Command>, eng: Engine, tasks: seq<Task>,
                               r: seq<Intent>, s: seq<Intent>)
    requires After(c).Some? && After(d).Some? && After(c).value.root == After(d).value.root
    requires KeysDecide(After(c).value.cache) && KeysDecide(After(d).value.cache)
    requires TextsDecide(After(c).value.cache + After(d).value.cache)
    requires Resolves(After(c).value, eng, tasks, r) && Resolves(After(d).value, eng, tasks, s)
    ensures r == s
  {
    hide IsResolution, KeysDecide, TextsDecide, Sorted, After;
    var x, y := After(c).value, After(d).value;
    EqualRootsEqualPolicies(c, d);
    var a :| IsSort(a, x.cache) && IsResolution(r, eng, a, tasks);
    var b :| IsSort(b, y.cache) && IsResolution(s, eng, b, tasks);
    PermutedIsSameSet(a, x.cache);
    PermutedIsSameSet(b, y.cache);
    ResolutionIsCanonical(eng, a, b, tasks, r, s);
  }

  /** The root does not depend on push order: caches that are permutations of each other have equal roots. */
  lemma PermutedCachesHaveEqualRoots(s: State, t: State)
    requires RootMatches(s) && RootMatches(t) && s.root.Some? && t.root.Some?
    requires multiset(s.cache) == multiset(t.cache) && KeysDecide(s.cache)
    ensures s.root == t.root
  {
    hide RootOf, KeysDecide, Sorted;
    var a :| IsSort(a, s.cache) && s.root.value == RootOf(a);
    var b :| IsSort(b, t.cache) && t.root.value == RootOf(b);
    SameRoots(a, b, s.cache);
  }

  lemma FreshHasNoRoot(c: seq<Command>)
    ensures After(c).Some? ==> (After(c).value.root.None? <==> c == [])
  {
    hide RootOf, IsSort, CacheAfter;
  }

  /**
   After any two runs, services whose caches are permutations of each other, told apart by key, have equal roots
   iff both or neither have received a command: only a service that never did has no root.
   */
  lemma EqualRootsIff(c: seq<Command>, d: seq<Command>)
    requires After(c).Some? && After(d).Some?
    requires multiset(After(c).value.cache) == multiset(After(d).value.cache) && KeysDecide(After(c).value.cache)
    ensures After(c).value.root == After(d).value.root <==> (c == [] <==> d == [])
  {
    hide After, RootMatches, KeysDecide;
    FreshHasNoRoot(c);
    FreshHasNoRoot(d);
    RootAlwaysMatches(c);
    RootAlwaysMatches(d);
    if c != [] && d != [] { PermutedCachesHaveEqualRoots(After(c).value, After(d).value); }
  }

  function Dropped(policies: seq<Option<Policy>>, id: string): seq<Option<Policy>>
  {
    if policies == [] then []
    else
      var last := policies[|policies| - 1];
      Dropped(policies[..|policies| - 1], id) + if last.Some? && last.value.policyId == id then [] else [last]
  }

  lemma {:induction false} DeleteIsFilteredPush(policies: seq<Option<Policy>>, id: string)
    ensures Without(Present(policies), id) == Present(Dropped(policies, id))
  {
    if policies != [] {
      var init, last := policies[..|policies| - 1], policies[|policies| - 1];
      DeleteIsFilteredPush(init, id);
      if last.Some? { WithoutAppend(Present(init), last.value, id); }
      PresentAppend(Dropped(init, id), last);
      assert Dropped(init, id) + [] == Dropped(init, id) && Present(init) + [] == Present(init);
    }
  }

  lemma PresentAppend(policies: seq<Option<Policy>>, o: Option<Policy>)
    ensures Present(policies + [o]) == Present(policies) + if o.Some? then [o.value] else []
  {
    assert (policies + [o])[..|policies|] == policies;
  }

  lemma WithoutAppend(ps: seq<Policy>, p: Policy, id: string)
    ensures Without(ps + [p], id) == Without(ps, id) + if p.policyId == id then [] else [p]
  {
    assert (ps + [p])[..|ps|] == ps;
  }

  /** Deleting an ID after a push leaves the cache, and if keys decide the root, of pushing the filtered list. */
  lemma DeleteAfterPush(c: seq<Command>, policies: seq<Option<Policy>>, id: string,
                        o1: seq<Policy>, o2: seq<Policy>, o3: seq<Policy>)
    requires After(c + [Push(policies, o1)] + [DeleteById(id, o2)]).Some?
    requires After(c + [Push(Dropped(policies, id), o3)]).Some?
    ensures
      var deleted := After(c + [Push(policies, o1)] + [DeleteById(id, o2)]).value;
      var pushed := After(c + [Push(Dropped(policies, id), o3)]).value;
      && deleted.cache == pushed.cache == Present(Dropped(policies, id))
      && (KeysDecide(pushed.cache) ==> deleted == pushed)
  {
    hide *;
    AfterAppend(c, Push(policies, o1));
    AfterAppend(c + [Push(policies, o1)], DeleteById(id, o2));
    AfterAppend(c, Push(Dropped(policies, id), o3));
    DeleteIsFilteredPush(policies, id);
    var cache := Present(Dropped(policies, id));
    if KeysDecide(cache) { SameRoots(o2, o3, cache); }
  }

  lemma AfterAppend(commands: seq<Command>, c: Command)
    ensures After(commands + [c]).Some? ==>
      && After(commands).Some?
      && IsSort(c.order, CacheAfter(After(commands).value.cache, c))
      && After(commands + [c]).value == State(CacheAfter(After(commands).value.cache, c), Some(RootOf(c.order)))
    ensures forall policies, order, cache :: CacheAfter(cache, Push(policies, order)) == Present(policies)
    ensures forall id, order, cache :: CacheAfter(cache, DeleteById(id, order)) == Without(cache, id)
  {
    hide RootOf, IsSort, Present, Without;
    assert (commands + [c])[..|commands|] == commands;
  }

  lemma SameRoots(a: seq<Policy>, b: seq<Policy>, cache: seq<Policy>)
    requires IsSort(a, cache) && IsSort(b, cache) && KeysDecide(cache)
    ensures RootOf(a) == RootOf(b)
  {
    hide RootOf, KeysDecide, Sorted;
    PermutedIsSameSet(a, cache);
    SortIsUnique(a, b);
  }

  // ---------------------------------------------------------------- the service in place

  function Inserted(p: Policy, ps: seq<Policy>): seq<Policy>
  {
    if ps == [] || Leq(SortKey(p), SortKey(ps[0])) then [p] + ps else [ps[0]] + Inserted(p, ps[1..])
  }

  lemma {:induction false} InsertedIsSorted(p: Policy, ps: seq<Policy>)
    requires Sorted(ps)
    ensures Sorted(Inserted(p, ps)) && multiset(Inserted(p, ps)) == multiset(ps) + multiset{p}
  {
    hide SortKey;
    if ps == [] {
    } else if Leq(SortKey(p), SortKey(ps[0])) {
      forall i | 1 <= i < |ps| ensures Leq(SortKey(p), SortKey(ps[i])) {
        LeqIsTransitive(SortKey(p), SortKey(ps[0]), SortKey(ps[i]));
      }
    } else {
      InsertedIsSorted(p, ps[1..]);
      LeqIsTotal(SortKey(p), SortKey(ps[0]));
      assert ps == [ps[0]] + ps[1..];
      InsertedKeepsLeast(ps[0], p, ps[1..]);
    }
  }

  lemma InsertedKeepsLeast(least: Policy, p: Policy, ps: seq<Policy>)
    requires Leq(SortKey(least), SortKey(p)) && forall i :: 0 <= i < |ps| ==> Leq(SortKey(least), SortKey(ps[i]))
    requires Sorted(Inserted(p, ps)) && multiset(Inserted(p, ps)) == multiset(ps) + multiset{p}
    ensures Sorted([least] + Inserted(p, ps))
  {
    hide SortKey, Inserted;
    var out := Inserted(p, ps);
    forall i | 0 <= i < |out| ensures Leq(SortKey(least), SortKey(out[i])) {
      assert out[i] in multiset(out);
      assert out[i] == p || out[i] in ps;
    }
  }

  method SortByKey(ps: seq<Policy>) returns (out: seq<Policy>)
    ensures IsSort(out, ps)
  {
    hide SortKey, Leq;
    out := [];
    var i := 0;
    while i < |ps|
      invariant 0 <= i <= |ps| && IsSort(out, ps[..i])
    {
      InsertedIsSorted(ps[i], out);
      out := Inserted(ps[i], out);
      assert ps[..i + 1] == ps[..i] + [ps[i]];
      i := i + 1;
    }
    assert ps[..|ps|] == ps;
  }

  ghost predicate HitsSome(eng: Engine, p: Policy, tasks: seq<Task>, tid: int)
  {
    exists i :: 0 <= i < |tasks| && tasks[i].tid == tid && Hits(eng, p, tasks[i])
  }

  lemma HitsOneMore(eng: Engine, p: Policy, tasks: seq<Task>, t: Task, tid: int)
    ensures HitsSome(eng, p, tasks + [t], tid) <==> HitsSome(eng, p, tasks, tid) || (t.tid == tid && Hits(eng, p, t))
  {
    var all := tasks + [t];
    assert all[|tasks|] == t;
    if HitsSome(eng, p, tasks, tid) {
      var i :| 0 <= i < |tasks| && tasks[i].tid == tid && Hits(eng, p, tasks[i]);
      assert all[i] == tasks[i];
    }
  }

  /** Every thread the policy hits takes its intent from it; the others keep theirs. */
  method MatchTasks(eng: Engine, p: Policy, tasks: seq<Task>, before: map<int, Intent>)
    returns (after: map<int, Intent>)
    ensures forall tid :: tid in after <==> tid in before || HitsSome(eng, p, tasks, tid)
    ensures forall tid :: tid in after ==>
      after[tid] == if HitsSome(eng, p, tasks, tid) then IntentOf(p, tid) else before[tid]
  {
    hide IntentOf, HitsSome;
    after := before;
    assert forall tid :: !HitsSome(eng, p, tasks[..0], tid) by { NoTasks(eng, p); assert tasks[..0] == []; }
    var i := 0;
    while i < |tasks|
      invariant 0 <= i <= |tasks|
      invariant forall tid :: tid in after <==> tid in before || HitsSome(eng, p, tasks[..i], tid)
      invariant forall tid :: tid in after ==>
        after[tid] == if HitsSome(eng, p, tasks[..i], tid) then IntentOf(p, tid) else before[tid]
    {
      var t := tasks[i];
      assert tasks[..i + 1] == tasks[..i] + [t];
      forall tid { HitsOneMore(eng, p, tasks[..i], t, tid); }
      if t.comm != "pause" && eng.matches(p.commandRegex, t.comm) {
        after := after[t.tid := IntentOf(p, t.tid)];
      }
      i := i + 1;
    }
    assert tasks[..i] == tasks;
  }

  lemma NoTasks(eng: Engine, p: Policy)
    ensures forall tid :: !HitsSome(eng, p, [], tid)
  {
  }

  method MatchPolicies(eng: Engine, order: seq<Policy>, tasks: seq<Task>) returns (byTid: map<int, Intent>)
    ensures forall tid :: IntentFor(eng, order, tasks, tid) == if tid in byTid then Some(byTid[tid]) else None
  {
    hide IntentOf;
    byTid := map[];
    var i := 0;
    while i < |order|
      invariant 0 <= i <= |order|
      invariant forall tid :: IntentFor(eng, order[..i], tasks, tid) == if tid in byTid then Some(byTid[tid]) else None
    {
      var p := order[i];
      assert order[..i + 1][..i] == order[..i];
      if p.commandRegex != "" && eng.compiles(p.commandRegex) {
        byTid := MatchTasks(eng, p, tasks, byTid);
      }
      i := i + 1;
    }
    assert order[..i] == order;
  }

  method Resolve(eng: Engine, order: seq<Policy>, tasks: seq<Task>) returns (r: seq<Intent>)
    ensures IsResolution(r, eng, order, tasks)
  {
    var byTid := MatchPolicies(eng, order, tasks);
    hide Winner;
    IntentTid(eng, order, tasks);
    var tids := Ints.SortInts(byTid.Keys);
    r := [];
    var i := 0;
    while i < |tids|
      invariant 0 <= i == |r| <= |tids|
      invariant forall k :: 0 <= k < i ==> tids[k] in byTid && r[k] == byTid[tids[k]] && r[k].tid == tids[k]
    {
      assert tids[i] in tids;
      r := r + [byTid[tids[i]]];
      i := i + 1;
    }
    forall tid
      ensures Lists(r, tid) <==> tid in byTid
    {
      if tid in byTid {
        var k :| 0 <= k < |tids| && tids[k] == tid;
        assert r[k].tid == tid;
      }
    }
  }

  lemma IntentTid(eng: Engine, order: seq<Policy>, tasks: seq<Task>)
    ensures forall tid :: IntentFor(eng, order, tasks, tid).Some? ==> IntentFor(eng, order, tasks, tid).value.tid == tid
  {
  }

  datatype TaskSource = Missing | Failing | Snapshot(tasks: seq<Task>)

  class Service {
    var cache: seq<Policy>
    var root: Option<Merkle.Digest>

    ghost function View(): State
      reads this
    {
      State(cache, root)
    }

    constructor ()
      ensures View() == FRESH
    {
      cache, root := [], None;
    }

    method HashAll(sorted: seq<Policy>) returns (digest: Merkle.Digest)
      ensures digest == RootOf(sorted)
    {
      var leaves: seq<Merkle.Digest> := [];
      var i := 0;
      while i < |sorted|
        invariant 0 <= i == |leaves| <= |sorted|
        invariant forall k :: 0 <= k < i ==> leaves[k] == Merkle.Text(Serialized(sorted[k]))
      {
        leaves := leaves + [Merkle.Text(Serialized(sorted[i]))];
        i := i + 1;
      }
      assert leaves == LeafHashes(sorted);
      var tree := Merkle.BuildMerkleTree(leaves);
      return tree.hash;
    }

    /** Rebuilds the root from the cache. */
    method Rebuild()
      modifies this`root
      ensures RootMatches(View()) && root.Some?
    {
      var sorted := SortByKey(cache);
      var digest := HashAll(sorted);
      root := Some(digest);
    }

    method ProcessNodePolicies(policies: seq<Option<Policy>>)
      modifies this
      ensures cache == Present(policies)
      ensures RootMatches(View()) && root.Some?
    {
      var normalized: seq<Policy> := [];
      var i := 0;
      while i < |policies|
        invariant 0 <= i <= |policies| && normalized == Present(policies[..i])
      {
        assert policies[..i + 1][..i] == policies[..i];
        if policies[i].Some? { normalized := normalized + [policies[i].value]; }
        i := i + 1;
      }
      assert policies[..i] == policies;
      cache := normalized;
      Rebuild();
    }

    method DeleteNodePolicyById(id: string)
      modifies this
      ensures cache == Without(old(cache), id)
      ensures RootMatches(View()) && root.Some?
    {
      var remaining: seq<Policy> := [];
      var i := 0;
      while i < |cache|
        invariant 0 <= i <= |cache| && cache == old(cache) && remaining == Without(cache[..i], id)
      {
        assert cache[..i + 1][..i] == cache[..i];
        if cache[i].policyId != id { remaining := remaining + [cache[i]]; }
        i := i + 1;
      }
      assert cache[..i] == cache;
      cache := remaining;
      Rebuild();
    }

    method DeleteAllNodePolicies()
      modifies this
      ensures cache == [] && root == Some(Merkle.Text(""))
    {
      cache := [];
      var digest := HashAll([]);
      root := Some(digest);
    }

    /** An empty cache or a missing task source resolves to nothing; otherwise the cache is sorted again and matched. */
    method ResolveNodeSchedulingIntents(eng: Engine, source: TaskSource) returns (r: Option<seq<Intent>>)
      ensures r.None? <==> cache != [] && source.Failing?
      ensures cache == [] || source.Missing? ==> r == Some([])
      ensures r.Some? && source.Snapshot? ==> Resolves(View(), eng, source.tasks, r.value)
    {
      if cache == [] {
        assert IsSort([], cache);
        assert source.Snapshot? ==> IsResolution([], eng, [], source.tasks);
        return Some([]);
      }
      if source.Missing? { return Some([]); }
      if source.Failing? { return None; }
      var order := SortByKey(cache);
      var intents := Resolve(eng, order, source.tasks);
      return Some(intents);
    }
  }
}
