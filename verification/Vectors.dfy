/** Feature vectors of the classifier and the distance between them. */
module Vectors {
  import opened RealArith

  const FEATURES: nat := 6

  /** One scheduling sample: six features, over the reals. */
  type Vec = v: seq<real> | |v| == FEATURES witness [0.0, 0.0, 0.0, 0.0, 0.0, 0.0]

  /** Feature `f` of every vector. */
  function Column(vs: seq<Vec>, f: nat): (c: seq<real>)
    requires f < FEATURES
    ensures |c| == |vs|
  {
    seq(|vs|, i requires 0 <= i < |vs| => vs[i][f])
  }

  /** Squared distance over the first `m` features. */
  function DistTo(a: Vec, b: Vec, m: nat): (d: real)
    requires m <= FEATURES
    ensures d >= 0.0
  {
    if m == 0 then 0.0
    else DistTo(a, b, m - 1) + Sq(a[m - 1] - b[m - 1])
  }

  function SqDist(a: Vec, b: Vec): (d: real)
  {
    DistTo(a, b, FEATURES)
  }

  method SquaredDistance(a: Vec, b: Vec) returns (total: real)
    ensures total == SqDist(a, b)
  {
    total := 0.0;
    for i := 0 to FEATURES
      invariant total == DistTo(a, b, i)
    {
      var d := a[i] - b[i];
      total := total + d * d;
    }
  }
}
