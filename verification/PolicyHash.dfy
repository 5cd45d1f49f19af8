/** Which policies share their hashed text, and what a shared hash hides. */
module PolicyHash {
  import opened Options
  import opened Text
  import opened NodePolicy
  import opened PolicyTable

  const NODE := "|nodeID="
  const REGEX := "|commandRegex="

  // ---------------------------------------------------------------- reading the text back

  /** The text of the three string fields, between the first label and the two numbers. */
  function Body(id: string, node: string, regex: string): string { id + NODE + (node + REGEX + regex) }

  function BodyOf(p: Policy): string { Body(p.policyId, p.nodeId, p.commandRegex) }

  lemma SerializedAsBody(p: Policy)
    ensures Serialized(p) == (("policyID=" + BodyOf(p)) + ['|'] + ("priority=" + Itoa(p.priority)))
                             + ['|'] + ("executionTime=" + Itoa(p.executionTime))
  {
    hide Itoa;
    Relabel(p.policyId, "nodeID=" + p.nodeId, "commandRegex=" + p.commandRegex,
            "priority=" + Itoa(p.priority), "executionTime=" + Itoa(p.executionTime));
    assert NODE == ['|'] + "nodeID=" && REGEX == ['|'] + "commandRegex=";
    Labels(p.policyId, "nodeID=", p.nodeId, "commandRegex=", p.commandRegex);
  }

  lemma Relabel(id: string, n: string, r: string, d: string, e: string)
    ensures Joined("policyID=" + id, n, r, d, e)
         == (("policyID=" + (id + ['|'] + (n + ['|'] + r))) + ['|'] + d) + ['|'] + e
  {
    var first := "policyID=";
    assert first + id + ['|'] + (n + ['|'] + (r + ['|'] + d + ['|'] + e))
        == ((first + (id + ['|'] + (n + ['|'] + r))) + ['|'] + d) + ['|'] + e;
  }

  lemma Labels(id: string, nl: string, n: string, rl: string, r: string)
    ensures id + (['|'] + nl) + (n + (['|'] + rl) + r) == id + ['|'] + ((nl + n) + ['|'] + (rl + r))
  {
  }

  /** Equal texts have equal numbers and equal bodies; the bodies may be divided differently. */
  lemma SameTextIff(p: Policy, q: Policy)
    ensures Serialized(p) == Serialized(q) <==>
      BodyOf(p) == BodyOf(q) && p.priority == q.priority && p.executionTime == q.executionTime
  {
    SerializedAsBody(p);
    SerializedAsBody(q);
    ItoaRoundTrip(p.priority);
    ItoaRoundTrip(p.executionTime);
    ItoaRoundTrip(q.priority);
    ItoaRoundTrip(q.executionTime);
    hide Serialized, BodyOf, Itoa, Atoi;
    if Serialized(p) == Serialized(q) {
      CutRight('|', ("policyID=" + BodyOf(p)) + ['|'] + ("priority=" + Itoa(p.priority)),
               "executionTime=" + Itoa(p.executionTime),
               ("policyID=" + BodyOf(q)) + ['|'] + ("priority=" + Itoa(q.priority)),
               "executionTime=" + Itoa(q.executionTime));
      CutRight('|', "policyID=" + BodyOf(p), "priority=" + Itoa(p.priority),
               "policyID=" + BodyOf(q), "priority=" + Itoa(q.priority));
      Unprefix("policyID=", BodyOf(p), BodyOf(q));
      Unprefix("priority=", Itoa(p.priority), Itoa(q.priority));
      Unprefix("executionTime=", Itoa(p.executionTime), Itoa(q.executionTime));
    }
  }

  // ---------------------------------------------------------------- where a label can occur

  lemma OccursInSuffix(a: string, b: string, p: string, i: nat)
    ensures OccursAt(a + b, p, |a| + i) <==> OccursAt(b, p, i)
  {
    if i + |p| <= |b| { assert (a + b)[|a| + i..|a| + i + |p|] == b[i..i + |p|]; }
  }

  /** Labels that begin with the same separator cannot overlap: one occurs before, at, or after another. */
  lemma Located(a: string, m: string, b: string, p: string, i: nat)
    requires StartsOnce(m) && StartsOnce(p) && m[0] == p[0]
    ensures OccursAt(a + m + b, p, i) ==>
      OccursAt(a, p, i) || i == |a| || (i >= |a| + |m| && OccursAt(b, p, i - |a| - |m|))
  {
    var s := a + m + b;
    assert s == a + (m + b) && s[|a|] == m[0];
    OccursInPrefix(a, m + b, p, i);
    OccursLetter(s, p, i, 0);
    if i < |a| { OccursLetter(s, p, i, |a| - i); }
    if |a| <= i < |a| + |m| { assert s[i] == m[i - |a|]; }
    if i >= |a| + |m| { OccursInSuffix(a + m, b, p, i - |a| - |m|); }
  }

  /** No label hides in a field where it could be read as the end of that field. */
  ghost predicate Legible(p: Policy)
  {
    && !Contains(p.policyId, NODE) && !Contains(p.nodeId, NODE)
    && !Contains(p.nodeId, REGEX) && !Contains(p.commandRegex, REGEX)
  }

  lemma LabelAt(id: string, node: string, regex: string)
    ensures OccursAt(Body(id, node, regex), NODE, |id|)
    ensures OccursAt(node + REGEX + regex, REGEX, |node|)
    ensures OccursAt(Body(id, node, regex), REGEX, |id| + |NODE| + |node|)
  {
    OccursInSuffix(id + NODE, node + REGEX + regex, REGEX, |node|);
  }

  lemma NodeLabelPastRegex(node: string, regex: string, i: nat)
    ensures OccursAt(node + REGEX + regex, NODE, i) && !Contains(node, NODE) ==> i >= |node| + |REGEX|
  {
    var t := node + REGEX + regex;
    Located(node, REGEX, regex, NODE, i);
    OccursLetter(t, NODE, i, 1);
    assert t[|node| + 1] == 'c' && NODE[1] == 'n';
  }

  lemma RegexLabelAt(node: string, regex: string, i: nat)
    ensures OccursAt(node + REGEX + regex, REGEX, i) && !Contains(node, REGEX) && !Contains(regex, REGEX) ==>
      i == |node|
  {
    Located(node, REGEX, regex, REGEX, i);
  }

  /** A legible body ends its first field at one place only. */
  lemma IdsEndTogether(p: Policy, q: Policy)
    requires Legible(p) && BodyOf(p) == BodyOf(q)
    ensures |p.policyId| == |q.policyId|
  {
    var tail, i := p.nodeId + REGEX + p.commandRegex, |q.policyId|;
    LabelAt(q.policyId, q.nodeId, q.commandRegex);
    Located(p.policyId, NODE, tail, NODE, i);
    if i != |p.policyId| {
      var o := i - |p.policyId| - |NODE|;
      NodeLabelPastRegex(p.nodeId, p.commandRegex, o);
      OccursInSuffix(p.policyId + NODE, tail, REGEX, o + |NODE| + |q.nodeId|);
      RegexLabelAt(p.nodeId, p.commandRegex, o + |NODE| + |q.nodeId|);
    }
  }

  /** A legible policy is the only one with its text. */
  lemma LegibleIsUnique(p: Policy, q: Policy)
    requires Legible(p) && Serialized(p) == Serialized(q)
    ensures p == q
  {
    SameTextIff(p, q);
    IdsEndTogether(p, q);
    SplitAt(p.policyId, NODE, p.nodeId + REGEX + p.commandRegex, q.policyId, q.nodeId + REGEX + q.commandRegex);
    LabelAt(q.policyId, q.nodeId, q.commandRegex);
    RegexLabelAt(p.nodeId, p.commandRegex, |q.nodeId|);
    SplitAt(p.nodeId, REGEX, p.commandRegex, q.nodeId, q.commandRegex);
  }

  lemma SplitAt(a: string, m: string, b: string, x: string, y: string)
    requires |a| == |x| && a + m + b == x + m + y
    ensures a == x && b == y
  {
    assert a == (a + m + b)[..|a|] && x == (x + m + y)[..|x|];
    assert b == (a + m + b)[|a| + |m|..] && y == (x + m + y)[|x| + |m|..];
  }

  // ---------------------------------------------------------------- the other way to read it

  lemma Divide(s: string, p: string) returns (a: string, b: string)
    requires Contains(s, p)
    ensures s == a + p + b
  {
    var i: nat :| OccursAt(s, p, i);
    a, b := s[..i], s[i + |p|..];
  }

  /** A policy that is not legible shares its text with another: a label inside a field can end that field. */
  lemma IllegibleHasTwin(p: Policy) returns (q: Policy)
    requires !Legible(p)
    ensures q != p && Serialized(q) == Serialized(p)
  {
    var a, b;
    if Contains(p.policyId, NODE) {
      a, b := Divide(p.policyId, NODE);
      q := p.(policyId := a, nodeId := b + NODE + p.nodeId);
      Regrouped(a, NODE, b, NODE, p.nodeId, REGEX, p.commandRegex);
    } else if Contains(p.nodeId, NODE) {
      a, b := Divide(p.nodeId, NODE);
      q := p.(policyId := p.policyId + NODE + a, nodeId := b);
      Regrouped(p.policyId, NODE, a, NODE, b, REGEX, p.commandRegex);
    } else if Contains(p.nodeId, REGEX) {
      a, b := Divide(p.nodeId, REGEX);
      q := p.(nodeId := a, commandRegex := b + REGEX + p.commandRegex);
      Regrouped(p.policyId, NODE, a, REGEX, b, REGEX, p.commandRegex);
    } else {
      a, b := Divide(p.commandRegex, REGEX);
      q := p.(nodeId := p.nodeId + REGEX + a, commandRegex := b);
      Regrouped(p.policyId, NODE, p.nodeId, REGEX, a, REGEX, b);
    }
    SameTextIff(p, q);
    assert |q.nodeId| != |p.nodeId|;
    hide Serialized, Contains;
  }

  /** Four pieces joined by three labels, divided in the ways that matter. */
  lemma Regrouped(a: string, l: string, b: string, m: string, c: string, n: string, d: string)
    ensures (a + l + b) + m + (c + n + d) == a + l + (b + m + c + n + d) == a + l + (b + m + (c + n + d))
    ensures a + l + ((b + m + c) + n + d) == a + l + (b + m + (c + n + d))
  {
  }

  /** No other policy has the same hashed text iff no label hides in a field. */
  lemma SerializedIsUniqueIff(p: Policy)
    ensures (forall q :: Serialized(q) == Serialized(p) ==> q == p) <==> Legible(p)
  {
    hide Serialized, Legible;
    if Legible(p) {
      forall q | Serialized(q) == Serialized(p) ensures q == p { LegibleIsUnique(p, q); }
    } else {
      var q := IllegibleHasTwin(p);
    }
  }

  // ---------------------------------------------------------------- what a shared hash hides

  /** A service that holds one policy. */
  function One(p: Policy): State { State([p], Some(RootOf([p]))) }

  function OnePush(p: Policy): seq<Command> { [Push([Some(p)], [p])] }

  lemma AfterOnePush(p: Policy)
    ensures After(OnePush(p)) == Some(One(p))
  {
    hide RootOf, SortKey;
    assert OnePush(p)[..0] == [];
    assert Present([Some(p)]) == [p] by { assert [Some(p)][..0] == []; }
  }

  lemma OnlyOrder(order: seq<Policy>, p: Policy)
    requires IsSort(order, [p])
    ensures order == [p]
  {
    hide Sorted;
    SameLength(order, [p]);
    assert order[0] in multiset(order);
  }

  lemma TableOfOne(p: Policy)
    ensures Table([p]) == if p.commandRegex == "" then [] else [RowOf(p)]
  {
    assert [p][..0] == [];
  }

  /**
   Two services that were each sent one of two policies with the same hash report equal roots, and resolve every
   task snapshot alike iff the policies have the same pattern.
   */
  lemma DriftGoesUnseen(p: Policy, q: Policy)
    requires Serialized(p) == Serialized(q)
    ensures
      var s, t := After(OnePush(p)), After(OnePush(q));
      && s.Some? && t.Some? && s.value.root == t.value.root
      && (ResolveAlike(s.value, t.value) <==> p.commandRegex == q.commandRegex)
  {
    AfterOnePush(p);
    AfterOnePush(q);
    SameTextIff(p, q);
    SameRoot(p, q);
    hide *;
    OneAlikeIff(p, q);
  }

  lemma SameRoot(p: Policy, q: Policy)
    requires Serialized(p) == Serialized(q)
    ensures One(p).root == One(q).root
  {
    hide Serialized;
    assert LeafHashes([p]) == LeafHashes([q]);
  }

  lemma OneAlikeIff(p: Policy, q: Policy)
    requires p.priority == q.priority && p.executionTime == q.executionTime
    ensures ResolveAlike(One(p), One(q)) <==> p.commandRegex == q.commandRegex
  {
    TableOfOne(p);
    TableOfOne(q);
    PatternOfRow(p);
    PatternOfRow(q);
    assert IsSort([p], [p]) && IsSort([q], [q]);
    assert [RowOf(p)][0] == RowOf(p) && [RowOf(q)][0] == RowOf(q);
    hide RootOf, Table, IsSort, ResolveAlike;
    ResolveAlikeIff(One(p), One(q));
    forall a, b | IsSort(a, [p]) && IsSort(b, [q]) ensures a == [p] && b == [q] {
      OnlyOrder(a, p);
      OnlyOrder(b, q);
    }
  }

  /** Such a pair exists: a label inside the node ID moves the start of the pattern. */
  lemma HiddenPattern(id: string, node: string, x: string, y: string, priority: int, time: int)
    ensures
      var p := Policy(id, node + REGEX + x, y, priority, time);
      var q := Policy(id, node, x + REGEX + y, priority, time);
      Serialized(p) == Serialized(q) && p.commandRegex != q.commandRegex
  {
    var p := Policy(id, node + REGEX + x, y, priority, time);
    var q := Policy(id, node, x + REGEX + y, priority, time);
    Regrouped(id, NODE, node, REGEX, x, REGEX, y);
    SameTextIff(p, q);
    assert |p.commandRegex| < |q.commandRegex|;
    hide Serialized;
  }

  // ---------------------------------------------------------------- what a shared sort key hides

  /**
   A service that was sent two policies with the same sort key resolves every snapshot the same way each time iff
   the order of the two does not matter.
   */
  lemma KeyClashIsHarmlessIff(p: Policy, q: Policy)
    requires SortKey(p) == SortKey(q)
    ensures
      var s := State([p, q], Some(RootOf([p, q])));
      ResolveAlike(s, s) <==> !OrderMatters(p, q)
  {
    var s := State([p, q], Some(RootOf([p, q])));
    hide RootOf, SortKey, ResolveAlike;
    ResolvesOneWayIff(s);
    if OrderMatters(p, q) { assert Contest(s.cache, p, q); }
  }

  /** That service is reachable, in either order of its sort. */
  lemma AfterPushOfTwo(p: Policy, q: Policy)
    requires SortKey(p) == SortKey(q)
    ensures After([Push([Some(p), Some(q)], [p, q])]) == Some(State([p, q], Some(RootOf([p, q]))))
  {
    hide RootOf, SortKey;
    var push := [Push([Some(p), Some(q)], [p, q])];
    assert push[..0] == [];
    assert [Some(p), Some(q)][..1] == [Some(p)] && [Some(p)][..0] == [];
    assert Present([Some(p)]) == [p];
    assert Present([Some(p), Some(q)]) == [p, q];
    ClashSortsBothWays(p, q);
  }
}
