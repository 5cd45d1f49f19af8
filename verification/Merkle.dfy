/**
 The Merkle tree the Manager and the Decision Makers compare. SHA-256 is idealised as a free constructor:
 a digest remembers the text or the pair of digests it was computed from.
 */
module Merkle {
  datatype Digest = Text(s: string) | Pair(left: Digest, right: Digest)

  datatype Tree = Leaf(hash: Digest) | Node(hash: Digest, left: Tree, right: Tree)

  /** One level up: neighbours are paired, and an odd last node with itself. */
  function Level(ds: seq<Digest>): (up: seq<Digest>)
    ensures |up| == (|ds| + 1) / 2
  {
    if ds == [] then []
    else if |ds| == 1 then [Pair(ds[0], ds[0])]
    else [Pair(ds[0], ds[1])] + Level(ds[2..])
  }

  function Root(ds: seq<Digest>): Digest
    decreases |ds|
  {
    if ds == [] then Text("") else if |ds| == 1 then ds[0] else Root(Level(ds))
  }

  /** The texts a digest commits to. */
  function Leaves(d: Digest): set<string>
  {
    match d
    case Text(s) => {s}
    case Pair(l, r) => Leaves(l) + Leaves(r)
  }

  function AllLeaves(ds: seq<Digest>): set<string>
  {
    if ds == [] then {} else Leaves(ds[0]) + AllLeaves(ds[1..])
  }

  lemma {:induction false} LevelKeepsLeaves(ds: seq<Digest>)
    ensures AllLeaves(Level(ds)) == AllLeaves(ds)
  {
    if |ds| >= 2 {
      LevelKeepsLeaves(ds[2..]);
      assert Level(ds)[1..] == Level(ds[2..]);
      assert ds[1..][1..] == ds[2..];
    }
  }

  /** The root commits to exactly the texts of the leaves, whatever the shape of the tree. */
  lemma {:induction false} RootKeepsLeaves(ds: seq<Digest>)
    requires ds != []
    ensures Leaves(Root(ds)) == AllLeaves(ds)
    decreases |ds|
  {
    if |ds| > 1 {
      RootKeepsLeaves(Level(ds));
      LevelKeepsLeaves(ds);
    }
  }

  /** Equal roots do not mean equal lists: an odd last leaf is paired with itself. */
  lemma RepeatedLastLeaf(a: Digest, b: Digest, c: Digest)
    ensures Root([a, b, c]) == Root([a, b, c, c])
  {
    assert [a, b, c][2..] == [c] && [a, b, c, c][2..] == [c, c];
    assert Level([a, b, c]) == Level([a, b, c, c]);
  }

  /** Lists with equal roots are equal iff they have the same length: only the length is not committed to. */
  lemma {:induction false} EqualRootsEqualListsIff(a: seq<Digest>, b: seq<Digest>)
    requires Root(a) == Root(b)
    ensures a == b <==> |a| == |b|
    decreases |a|
  {
    if |a| == |b| && |a| > 1 {
      EqualRootsEqualListsIff(Level(a), Level(b));
      hide Level, Root;
      forall k: nat | 2 * k < |a|
        ensures a[2 * k] == b[2 * k] && (2 * k + 1 < |a| ==> a[2 * k + 1] == b[2 * k + 1])
      {
        LevelAt(a, k);
        LevelAt(b, k);
      }
      EvenAndOdd(a, b);
    }
  }

  lemma EvenAndOdd(a: seq<Digest>, b: seq<Digest>)
    requires |a| == |b|
    requires forall k: nat :: 2 * k < |a| ==> a[2 * k] == b[2 * k] && (2 * k + 1 < |a| ==> a[2 * k + 1] == b[2 * k + 1])
    ensures a == b
  {
    forall i | 0 <= i < |a|
      ensures a[i] == b[i]
    {
      assert i == 2 * (i / 2) || i == 2 * (i / 2) + 1;
    }
  }

  function Hashes(nodes: seq<Tree>): seq<Digest>
  {
    seq(|nodes|, i requires 0 <= i < |nodes| => nodes[i].hash)
  }

  lemma {:induction false} LevelAt(ds: seq<Digest>, k: nat)
    requires 2 * k < |ds|
    ensures Level(ds)[k] == Pair(ds[2 * k], if 2 * k + 1 < |ds| then ds[2 * k + 1] else ds[2 * k])
  {
    if k > 0 { LevelAt(ds[2..], k - 1); }
  }

  method NextLevel(nodes: seq<Tree>) returns (up: seq<Tree>)
    ensures Hashes(up) == Level(Hashes(nodes))
  {
    up := [];
    var i := 0;
    while i < |nodes|
      invariant i == 2 * |up| <= |nodes| + 1
      invariant forall k :: 0 <= k < |up| ==> up[k].hash == Level(Hashes(nodes))[k]
    {
      var left := nodes[i];
      var right := left;
      if i + 1 < |nodes| { right := nodes[i + 1]; }
      LevelAt(Hashes(nodes), |up|);
      up := up + [Node(Pair(left.hash, right.hash), left, right)];
      i := i + 2;
    }
  }

  method BuildMerkleTree(leaves: seq<Digest>) returns (root: Tree)
    ensures root.hash == Root(leaves)
  {
    if leaves == [] { return Leaf(Text("")); }
    var nodes := seq(|leaves|, i requires 0 <= i < |leaves| => Leaf(leaves[i]));
    assert Hashes(nodes) == leaves;
    while |nodes| > 1
      invariant nodes != [] && Root(Hashes(nodes)) == Root(leaves)
      decreases |nodes|
    {
      var up := NextLevel(nodes);
      assert |up| == |Hashes(up)| && |Hashes(nodes)| == |nodes|;
      nodes := up;
    }
    return nodes[0];
  }
}
