/**
 The per-pod down-sampling buffer: raw samples, and three tiers of summaries over
 2, 10 and 60 samples, each tier bounded to its most recent entries.
 */
module TieredBuffer {
  import opened RealArith
  import opened Vectors

  datatype Sample = Sample(v: Vec, ts: int)

  datatype Summary = Summary(mean: Vec, std: Vec, timestamp: int, count: nat)

  const ZERO: Vec := [0.0, 0.0, 0.0, 0.0, 0.0, 0.0]
  const EMPTY: Summary := Summary(ZERO, ZERO, 0, 0)

  const RAW_BOUND := 10
  const TIER1_BOUND := 10
  const TIER2_BOUND := 6
  const TIER3_BOUND := 6
  const PAIR := 2
  const FIVE := 5
  const SIX := 6

  function RawSummary(s: Sample): Summary { Summary(s.v, ZERO, s.ts, 1) }

  // ---------------------------------------------------------------- summarising

  function CountSum(items: seq<Summary>, n: nat): nat
    requires n <= |items|
  {
    if n == 0 then 0 else CountSum(items, n - 1) + items[n - 1].count
  }

  function WeightedSum(items: seq<Summary>, f: nat, n: nat): real
    requires n <= |items| && f < FEATURES
  {
    if n == 0 then 0.0 else WeightedSum(items, f, n - 1) + items[n - 1].mean[f] * items[n - 1].count as real
  }

  /** The latest timestamp, but never below zero. */
  function Latest(items: seq<Summary>, n: nat): (t: int)
    requires n <= |items|
    ensures t >= 0
  {
    if n == 0 then 0
    else var t := Latest(items, n - 1); if items[n - 1].timestamp > t then items[n - 1].timestamp else t
  }

  function DeviationSum(items: seq<Summary>, f: nat, mean: real, n: nat): real
    requires n <= |items| && f < FEATURES
  {
    if n == 0 then 0.0 else DeviationSum(items, f, mean, n - 1) + Sq(items[n - 1].mean[f] - mean)
  }

  function TotalCount(items: seq<Summary>): nat
  {
    if CountSum(items, |items|) == 0 then |items| else CountSum(items, |items|)
  }

  function MeanOf(items: seq<Summary>): Vec
    requires items != []
  {
    seq(FEATURES, f requires 0 <= f < FEATURES => WeightedSum(items, f, |items|) / TotalCount(items) as real)
  }

  function SummaryOf(items: seq<Summary>, sqrt: real -> real): (s: Summary)
  {
    if items == [] then EMPTY
    else
      var mean := MeanOf(items);
      Summary(mean,
              seq(FEATURES, f requires 0 <= f < FEATURES =>
                sqrt(DeviationSum(items, f, mean[f], |items|) / |items| as real)),
              Latest(items, |items|),
              TotalCount(items))
  }

  method WeightedMean(items: seq<Summary>) returns (mean: Vec, timestamp: int, total: nat)
    requires items != []
    ensures mean == MeanOf(items) && timestamp == Latest(items, |items|) && total == TotalCount(items)
  {
    mean, timestamp, total := ZERO, 0, 0;
    for k := 0 to |items|
      invariant total == CountSum(items, k) && timestamp == Latest(items, k)
      invariant forall f :: 0 <= f < FEATURES ==> mean[f] == WeightedSum(items, f, k)
    {
      total := total + items[k].count;
      ghost var before := mean;
      for i := 0 to FEATURES
        invariant forall f :: 0 <= f < i ==> mean[f] == before[f] + items[k].mean[f] * items[k].count as real
        invariant forall f :: i <= f < FEATURES ==> mean[f] == before[f]
      {
        mean := mean[i := mean[i] + items[k].mean[i] * items[k].count as real];
      }
      if items[k].timestamp > timestamp {
        timestamp := items[k].timestamp;
      }
    }
    if total == 0 {
      total := |items|;
    }
    ghost var sums := mean;
    for i := 0 to FEATURES
      invariant forall f :: 0 <= f < i ==> mean[f] == MeanOf(items)[f]
      invariant forall f :: i <= f < FEATURES ==> mean[f] == sums[f]
    {
      mean := mean[i := mean[i] / total as real];
    }
  }

  method Summarize(items: seq<Summary>, sqrt: real -> real) returns (out: Summary)
    ensures out == SummaryOf(items, sqrt)
  {
    if items == [] {
      return EMPTY;
    }
    var mean, timestamp, total := WeightedMean(items);
    var std: Vec := ZERO;
    for k := 0 to |items|
      invariant forall f :: 0 <= f < FEATURES ==> std[f] == DeviationSum(items, f, mean[f], k)
    {
      ghost var before := std;
      for i := 0 to FEATURES
        invariant forall f :: 0 <= f < i ==> std[f] == before[f] + Sq(items[k].mean[f] - mean[f])
        invariant forall f :: i <= f < FEATURES ==> std[f] == before[f]
      {
        std := std[i := std[i] + Sq(items[k].mean[i] - mean[i])];
      }
    }
    ghost var sums := std;
    for i := 0 to FEATURES
      invariant forall f :: 0 <= f < i ==> std[f] == SummaryOf(items, sqrt).std[f]
      invariant forall f :: i <= f < FEATURES ==> std[f] == sums[f]
    {
      std := std[i := sqrt(std[i] / |items| as real)];
    }
    out := Summary(mean, std, timestamp, total);
  }

  // ---------------------------------------------------------------- bounded tails

  function Last<T>(xs: seq<T>, k: nat): (r: seq<T>)
    ensures |r| == if |xs| <= k then |xs| else k
  {
    if |xs| <= k then xs else xs[|xs| - k..]
  }

  function AppendBounded<T>(xs: seq<T>, x: T, bound: nat): seq<T>
    requires bound > 0
  {
    if |xs| >= bound then xs[1..] + [x] else xs + [x]
  }

  lemma AppendKeepsLast<T>(xs: seq<T>, x: T, k: nat)
    requires k > 0
    ensures AppendBounded(Last(xs, k), x, k) == Last(xs + [x], k)
  {
  }

  // ---------------------------------------------------------------- the buffer as a value

  datatype Tiers = Tiers(
    raw: seq<Summary>, tier1: seq<Summary>, tier2: seq<Summary>, tier3: seq<Summary>,
    pending1: seq<Summary>, pending2: seq<Summary>, pending3: seq<Summary>)

  const NO_TIERS: Tiers := Tiers([], [], [], [], [], [], [])

  function Cascade1(t: Tiers, sqrt: real -> real): Tiers
  {
    if |t.pending1| >= PAIR then
      var s := SummaryOf(t.pending1, sqrt);
      t.(pending1 := [], tier1 := AppendBounded(t.tier1, s, TIER1_BOUND), pending2 := t.pending2 + [s])
    else t
  }

  function Cascade2(t: Tiers, sqrt: real -> real): Tiers
  {
    if |t.pending2| >= FIVE then
      var s := SummaryOf(t.pending2, sqrt);
      t.(pending2 := [], tier2 := AppendBounded(t.tier2, s, TIER2_BOUND), pending3 := t.pending3 + [s])
    else t
  }

  function Cascade3(t: Tiers, sqrt: real -> real): Tiers
  {
    if |t.pending3| >= SIX then
      t.(pending3 := [], tier3 := AppendBounded(t.tier3, SummaryOf(t.pending3, sqrt), TIER3_BOUND))
    else t
  }

  function Pushed(t: Tiers, s: Sample, sqrt: real -> real): Tiers
  {
    var r := RawSummary(s);
    var t0 := t.(raw := AppendBounded(t.raw, r, RAW_BOUND), pending1 := t.pending1 + [r]);
    Cascade3(Cascade2(Cascade1(t0, sqrt), sqrt), sqrt)
  }

  // ---------------------------------------------------------------- what the buffer means

  /** Summaries of the consecutive complete groups of `size` items; an incomplete last group is left out. */
  function Groups(items: seq<Summary>, size: nat, sqrt: real -> real): (g: seq<Summary>)
    requires size > 0
    ensures |g| == |items| / size
  {
    seq(|items| / size, j requires 0 <= j < |items| / size => GroupAt(items, size, j, sqrt))
  }

  function GroupAt(items: seq<Summary>, size: nat, j: nat, sqrt: real -> real): Summary
    requires size > 0 && j < |items| / size
  {
    GroupInRange(items, size, j);
    SummaryOf(items[j * size..j * size + size], sqrt)
  }

  lemma GroupInRange(items: seq<Summary>, size: nat, j: nat)
    requires size > 0 && j < |items| / size
    ensures j * size + size <= |items|
  {
    assert (j + 1) * size <= (|items| / size) * size <= |items|;
  }

  function Rest(items: seq<Summary>, size: nat): (r: seq<Summary>)
    requires size > 0
    ensures |r| == |items| % size
  {
    items[|items| - |items| % size..]
  }

  function Level0(hist: seq<Sample>): (l: seq<Summary>)
    ensures |l| == |hist|
  {
    seq(|hist|, i requires 0 <= i < |hist| => RawSummary(hist[i]))
  }

  function Level1(hist: seq<Sample>, sqrt: real -> real): seq<Summary> { Groups(Level0(hist), PAIR, sqrt) }
  function Level2(hist: seq<Sample>, sqrt: real -> real): seq<Summary> { Groups(Level1(hist, sqrt), FIVE, sqrt) }
  function Level3(hist: seq<Sample>, sqrt: real -> real): seq<Summary> { Groups(Level2(hist, sqrt), SIX, sqrt) }

  /** `t` is what the buffer must hold after the pushes `hist`. */
  ghost predicate Holds(t: Tiers, hist: seq<Sample>, sqrt: real -> real)
  {
    && t.raw == Last(Level0(hist), RAW_BOUND)
    && t.tier1 == Last(Level1(hist, sqrt), TIER1_BOUND)
    && t.tier2 == Last(Level2(hist, sqrt), TIER2_BOUND)
    && t.tier3 == Last(Level3(hist, sqrt), TIER3_BOUND)
    && t.pending1 == Rest(Level0(hist), PAIR)
    && t.pending2 == Rest(Level1(hist, sqrt), FIVE)
    && t.pending3 == Rest(Level2(hist, sqrt), SIX)
  }

  /** Adding an item that does not complete a group leaves the groups alone. */
  lemma GroupsOpen(items: seq<Summary>, x: Summary, size: nat, sqrt: real -> real)
    requires size > 0 && |items| % size + 1 < size
    ensures Groups(items + [x], size, sqrt) == Groups(items, size, sqrt)
    ensures Rest(items + [x], size) == Rest(items, size) + [x]
  {
    var q := |items| / size;
    QuotientIs(|items| + 1, size, q, |items| % size + 1);
    forall j | 0 <= j < q
      ensures Groups(items + [x], size, sqrt)[j] == Groups(items, size, sqrt)[j]
    {
      GroupUnchanged(items, x, size, j, sqrt);
    }
  }

  /** Adding the item that completes a group appends that group's summary. */
  lemma GroupsComplete(items: seq<Summary>, x: Summary, size: nat, sqrt: real -> real)
    requires size > 0 && |items| % size + 1 == size
    ensures Groups(items + [x], size, sqrt) == Groups(items, size, sqrt) + [SummaryOf(Rest(items, size) + [x], sqrt)]
    ensures Rest(items + [x], size) == []
  {
    var more, q := items + [x], |items| / size;
    assert (q + 1) * size == q * size + size;
    QuotientIs(|items| + 1, size, q + 1, 0);
    assert more[q * size..q * size + size] == Rest(items, size) + [x];
    forall j | 0 <= j < q
      ensures Groups(more, size, sqrt)[j] == Groups(items, size, sqrt)[j]
    {
      GroupUnchanged(items, x, size, j, sqrt);
    }
  }

  lemma GroupUnchanged(items: seq<Summary>, x: Summary, size: nat, j: nat, sqrt: real -> real)
    requires size > 0 && j < |items| / size
    ensures j < |items + [x]| / size
    ensures GroupAt(items + [x], size, j, sqrt) == GroupAt(items, size, j, sqrt)
  {
    hide SummaryOf;
    GroupInRange(items, size, j);
    NoFewerGroups(|items|, size);
    assert (items + [x])[j * size..j * size + size] == items[j * size..j * size + size];
  }

  lemma NoFewerGroups(n: nat, size: nat)
    requires size > 0
    ensures n / size <= (n + 1) / size
  {
    if n % size + 1 < size {
      QuotientIs(n + 1, size, n / size, n % size + 1);
    } else {
      assert (n / size + 1) * size == (n / size) * size + size;
      QuotientIs(n + 1, size, n / size + 1, 0);
    }
  }

  lemma AtLeastSize(d: int, size: nat)
    requires d >= 1
    ensures d * size >= size
  {
  }

  lemma QuotientIs(n: nat, size: nat, q: nat, r: nat)
    requires size > 0 && n == q * size + r && r < size
    ensures n / size == q && n % size == r
  {
    var d := n / size - q;
    assert n == (n / size) * size + n % size;
    assert d * size == r - n % size;
    if d >= 1 {
      AtLeastSize(d, size);
    } else if d <= -1 {
      AtLeastSize(-d, size);
    }
  }

  /** One push keeps the buffer equal to the summaries of everything pushed so far. */
  lemma PushedHolds(t: Tiers, hist: seq<Sample>, s: Sample, sqrt: real -> real)
    requires Holds(t, hist, sqrt)
    ensures Holds(Pushed(t, s, sqrt), hist + [s], sqrt)
  {
    var h := hist + [s];
    var r := RawSummary(s);
    var l0, l1, l2, l3 := Level0(hist), Level1(hist, sqrt), Level2(hist, sqrt), Level3(hist, sqrt);
    assert Level0(h) == l0 + [r];
    AppendKeepsLast(l0, r, RAW_BOUND);
    if |l0| % PAIR + 1 < PAIR {
      GroupsOpen(l0, r, PAIR, sqrt);
    } else {
      GroupsComplete(l0, r, PAIR, sqrt);
      var s1 := SummaryOf(Rest(l0, PAIR) + [r], sqrt);
      AppendKeepsLast(l1, s1, TIER1_BOUND);
      if |l1| % FIVE + 1 < FIVE {
        GroupsOpen(l1, s1, FIVE, sqrt);
      } else {
        GroupsComplete(l1, s1, FIVE, sqrt);
        var s2 := SummaryOf(Rest(l1, FIVE) + [s1], sqrt);
        AppendKeepsLast(l2, s2, TIER2_BOUND);
        if |l2| % SIX + 1 < SIX {
          GroupsOpen(l2, s2, SIX, sqrt);
        } else {
          GroupsComplete(l2, s2, SIX, sqrt);
          AppendKeepsLast(l3, SummaryOf(Rest(l2, SIX) + [s2], sqrt), TIER3_BOUND);
        }
      }
    }
  }

  /** The buffer after the pushes `hist`, starting empty. */
  function PushAll(hist: seq<Sample>, sqrt: real -> real): Tiers
  {
    if hist == [] then NO_TIERS else Pushed(PushAll(hist[..|hist| - 1], sqrt), hist[|hist| - 1], sqrt)
  }

  /** After any pushes the buffer holds exactly the summaries of what was pushed. */
  lemma {:induction false} PushAllHolds(hist: seq<Sample>, sqrt: real -> real)
    ensures Holds(PushAll(hist, sqrt), hist, sqrt)
  {
    if hist != [] {
      var init, last := hist[..|hist| - 1], hist[|hist| - 1];
      PushAllHolds(init, sqrt);
      PushedHolds(PushAll(init, sqrt), init, last, sqrt);
      hide Holds, Pushed;
      assert hist == init + [last];
    }
  }

  /** After n pushes the pending buffers are the digits of n in the radices 2, 5 and 6, and the tiers are bounded. */
  lemma PendingIsMixedRadix(hist: seq<Sample>, sqrt: real -> real)
    ensures
      var t, n := PushAll(hist, sqrt), |hist|;
      && |t.pending1| == n % 2 && |t.pending2| == n / 2 % 5 && |t.pending3| == n / 10 % 6
      && |t.tier1| == Min(n / 2, 10) && |t.tier2| == Min(n / 10, 6) && |t.tier3| == Min(n / 60, 6)
  {
    PushAllHolds(hist, sqrt);
    hide PushAll;
    LevelSizes(hist, sqrt);
  }

  function Min(a: nat, b: nat): nat { if a <= b then a else b }

  lemma LevelSizes(hist: seq<Sample>, sqrt: real -> real)
    ensures |Level1(hist, sqrt)| == |hist| / 2
    ensures |Level2(hist, sqrt)| == |hist| / 10
    ensures |Level3(hist, sqrt)| == |hist| / 60
  {
  }

  // ---------------------------------------------------------------- exact block means

  function RawSum(hist: seq<Sample>, f: nat, lo: nat, hi: nat): real
    requires lo <= hi <= |hist| && f < FEATURES
  {
    if lo == hi then 0.0 else RawSum(hist, f, lo, hi - 1) + hist[hi - 1].v[f]
  }

  /** `s` stands for the raw samples lo, ..., hi-1: their number, and their exact average. */
  ghost predicate IsBlock(s: Summary, hist: seq<Sample>, lo: nat, hi: nat)
    requires lo <= hi <= |hist|
  {
    && s.count == hi - lo
    && forall f :: 0 <= f < FEATURES ==> s.mean[f] * (hi - lo) as real == RawSum(hist, f, lo, hi)
  }

  lemma {:induction false} RawSumSplit(hist: seq<Sample>, f: nat, lo: nat, mid: nat, hi: nat)
    requires lo <= mid <= hi <= |hist| && f < FEATURES
    ensures RawSum(hist, f, lo, hi) == RawSum(hist, f, lo, mid) + RawSum(hist, f, mid, hi)
  {
    if mid < hi {
      RawSumSplit(hist, f, lo, mid, hi - 1);
    }
  }

  /** `items` are consecutive blocks of `w` raw samples starting at `lo`. */
  ghost predicate AreBlocks(items: seq<Summary>, hist: seq<Sample>, lo: nat, w: nat)
  {
    && lo + |items| * w <= |hist|
    && forall j :: 0 <= j < |items| ==> BlockAt(items[j], hist, lo, w, j)
  }

  ghost predicate BlockAt(s: Summary, hist: seq<Sample>, lo: nat, w: nat, j: nat)
  {
    lo + j * w + w <= |hist| && IsBlock(s, hist, lo + j * w, lo + j * w + w)
  }

  lemma OneLess(n: nat, w: nat)
    requires n > 0
    ensures n * w == (n - 1) * w + w
  {
  }

  lemma PrefixFits(n: nat, m: nat, w: nat)
    requires n <= m
    ensures n * w <= m * w
  {
  }

  lemma {:induction false} BlocksCount(items: seq<Summary>, hist: seq<Sample>, lo: nat, w: nat, n: nat)
    requires AreBlocks(items, hist, lo, w) && n <= |items|
    ensures CountSum(items, n) == n * w
  {
    if n > 0 {
      BlocksCount(items, hist, lo, w, n - 1);
      OneLess(n, w);
      assert BlockAt(items[n - 1], hist, lo, w, n - 1);
    }
  }

  lemma {:induction false} BlocksAddUp(items: seq<Summary>, hist: seq<Sample>, lo: nat, w: nat, n: nat, hi: nat)
    requires AreBlocks(items, hist, lo, w) && n <= |items| && hi == lo + n * w
    ensures hi <= |hist|
    ensures forall f :: 0 <= f < FEATURES ==> WeightedSum(items, f, n) == RawSum(hist, f, lo, hi)
  {
    PrefixFits(n, |items|, w);
    if n > 0 {
      OneLess(n, w);
      BlocksAddUp(items, hist, lo, w, n - 1, hi - w);
      assert BlockAt(items[n - 1], hist, lo, w, n - 1);
      AddBlock(items, hist, lo, n, hi - w, hi);
    }
  }

  lemma AddBlock(items: seq<Summary>, hist: seq<Sample>, lo: nat, n: nat, mid: nat, hi: nat)
    requires 0 < n <= |items| && lo <= mid <= hi <= |hist|
    requires IsBlock(items[n - 1], hist, mid, hi)
    requires forall f :: 0 <= f < FEATURES ==> WeightedSum(items, f, n - 1) == RawSum(hist, f, lo, mid)
    ensures forall f :: 0 <= f < FEATURES ==> WeightedSum(items, f, n) == RawSum(hist, f, lo, hi)
  {
    forall f | 0 <= f < FEATURES
      ensures WeightedSum(items, f, n) == RawSum(hist, f, lo, hi)
    {
      RawSumSplit(hist, f, lo, mid, hi);
    }
  }

  /** A summary of consecutive blocks is itself an exact block. */
  lemma SummaryOfBlocks(items: seq<Summary>, hist: seq<Sample>, lo: nat, w: nat, sqrt: real -> real)
    requires items != [] && w > 0 && AreBlocks(items, hist, lo, w)
    ensures IsBlock(SummaryOf(items, sqrt), hist, lo, lo + |items| * w)
  {
    var n := |items| * w;
    BlocksCount(items, hist, lo, w, |items|);
    BlocksAddUp(items, hist, lo, w, |items|, lo + n);
    hide AreBlocks;
    NonEmptyProduct(|items|, w);
    SummaryIsBlock(items, hist, lo, n, sqrt);
  }

  lemma NonEmptyProduct(a: nat, b: nat)
    requires a > 0 && b > 0
    ensures a * b > 0
  {
  }

  lemma SummaryIsBlock(items: seq<Summary>, hist: seq<Sample>, lo: nat, n: nat, sqrt: real -> real)
    requires items != [] && n > 0 && CountSum(items, |items|) == n && lo + n <= |hist|
    requires forall f :: 0 <= f < FEATURES ==> WeightedSum(items, f, |items|) == RawSum(hist, f, lo, lo + n)
    ensures IsBlock(SummaryOf(items, sqrt), hist, lo, lo + n)
  {
    hide WeightedSum, CountSum, RawSum;
    forall f | 0 <= f < FEATURES
      ensures SummaryOf(items, sqrt).mean[f] * n as real == RawSum(hist, f, lo, lo + n)
    {
      DivideBack(WeightedSum(items, f, |items|), n as real);
    }
  }

  lemma DivideBack(s: real, n: real)
    requires n > 0.0
    ensures (s / n) * n == s
  {
  }

  lemma GroupsOfBlocks(items: seq<Summary>, hist: seq<Sample>, w: nat, size: nat, sqrt: real -> real)
    requires w > 0 && size > 0 && AreBlocks(items, hist, 0, w)
    ensures AreBlocks(Groups(items, size, sqrt), hist, 0, size * w)
  {
    var groups := Groups(items, size, sqrt);
    forall j | 0 <= j < |groups|
      ensures BlockAt(groups[j], hist, 0, size * w, j)
    {
      GroupInRange(items, size, j);
      GroupIsBlock(items, hist, w, size, sqrt, j);
    }
    GroupsFit(|items|, |groups|, size, w);
  }

  lemma GroupsFit(n: nat, q: nat, size: nat, w: nat)
    requires size > 0 && q == n / size
    ensures q * (size * w) <= n * w
  {
    assert q * size <= n;
    assert q * (size * w) == (q * size) * w;
    assert (n - q * size) * w >= 0;
  }

  lemma GroupIsBlock(items: seq<Summary>, hist: seq<Sample>, w: nat, size: nat, sqrt: real -> real, j: nat)
    requires w > 0 && size > 0 && AreBlocks(items, hist, 0, w) && j * size + size <= |items|
    ensures BlockAt(SummaryOf(items[j * size..j * size + size], sqrt), hist, 0, size * w, j)
  {
    var part, lo := items[j * size..j * size + size], (j * size) * w;
    assert lo == j * (size * w);
    assert (j * size + size) * w == lo + size * w;
    assert (|items| - (j * size + size)) * w >= 0;
    forall i | 0 <= i < |part|
      ensures BlockAt(part[i], hist, lo, w, i)
    {
      assert BlockAt(items[j * size + i], hist, 0, w, j * size + i);
      assert (j * size + i) * w == lo + i * w;
    }
    SummaryOfBlocks(part, hist, lo, w, sqrt);
  }

  lemma RawAreBlocks(hist: seq<Sample>)
    ensures AreBlocks(Level0(hist), hist, 0, 1)
  {
    forall j | 0 <= j < |hist|
      ensures BlockAt(Level0(hist)[j], hist, 0, 1, j)
    {
      forall f | 0 <= f < FEATURES
        ensures RawSum(hist, f, j, j + 1) == hist[j].v[f]
      {
        assert RawSum(hist, f, j, j) == 0.0;
      }
    }
  }

  /** Every summary of tier 1, 2 and 3 is the exact block of 2, 10 or 60 consecutive raw samples. */
  lemma LevelsAreExactBlocks(hist: seq<Sample>, sqrt: real -> real)
    ensures AreBlocks(Level1(hist, sqrt), hist, 0, 2)
    ensures AreBlocks(Level2(hist, sqrt), hist, 0, 10)
    ensures AreBlocks(Level3(hist, sqrt), hist, 0, 60)
  {
    RawAreBlocks(hist);
    GroupsOfBlocks(Level0(hist), hist, 1, 2, sqrt);
    GroupsOfBlocks(Level1(hist, sqrt), hist, 2, 5, sqrt);
    GroupsOfBlocks(Level2(hist, sqrt), hist, 10, 6, sqrt);
  }

  /** Position `i` of a bounded tier holds the block of `w` samples that is |tier| - i blocks from the end. */
  ghost predicate RecentBlocks(tier: seq<Summary>, hist: seq<Sample>, w: nat)
    requires w > 0
  {
    |tier| <= |hist| / w && forall i :: 0 <= i < |tier| ==> BlockAt(tier[i], hist, 0, w, |hist| / w - |tier| + i)
  }

  /** After any pushes, each tier holds the most recent exact blocks of the history, in order. */
  lemma TiersAreRecentBlocks(hist: seq<Sample>, sqrt: real -> real)
    ensures
      var t := PushAll(hist, sqrt);
      RecentBlocks(t.tier1, hist, 2) && RecentBlocks(t.tier2, hist, 10) && RecentBlocks(t.tier3, hist, 60)
  {
    hide *;
    PushAllHolds(hist, sqrt);
    HeldTiers(PushAll(hist, sqrt), hist, sqrt);
    LevelsAreExactBlocks(hist, sqrt);
    LevelSizes(hist, sqrt);
    LastOfBlocks(Level1(hist, sqrt), hist, 2, TIER1_BOUND);
    LastOfBlocks(Level2(hist, sqrt), hist, 10, TIER2_BOUND);
    LastOfBlocks(Level3(hist, sqrt), hist, 60, TIER3_BOUND);
  }

  lemma HeldTiers(t: Tiers, hist: seq<Sample>, sqrt: real -> real)
    requires Holds(t, hist, sqrt)
    ensures t.tier1 == Last(Level1(hist, sqrt), TIER1_BOUND)
    ensures t.tier2 == Last(Level2(hist, sqrt), TIER2_BOUND)
    ensures t.tier3 == Last(Level3(hist, sqrt), TIER3_BOUND)
  {
  }

  lemma LastOfBlocks(items: seq<Summary>, hist: seq<Sample>, w: nat, k: nat)
    requires w > 0 && AreBlocks(items, hist, 0, w) && |items| == |hist| / w
    ensures RecentBlocks(Last(items, k), hist, w)
  {
    var tail := Last(items, k);
    forall i | 0 <= i < |tail|
      ensures BlockAt(tail[i], hist, 0, w, |items| - |tail| + i)
    {
      assert tail[i] == items[|items| - |tail| + i];
    }
  }

  // ---------------------------------------------------------------- the object

  class Buffer {
    var raw: seq<Summary>
    var tier1: seq<Summary>
    var tier2: seq<Summary>
    var tier3: seq<Summary>
    var pending1: seq<Summary>
    var pending2: seq<Summary>
    var pending3: seq<Summary>

    function View(): Tiers
      reads this
    {
      Tiers(raw, tier1, tier2, tier3, pending1, pending2, pending3)
    }

    constructor ()
      ensures View() == NO_TIERS
    {
      raw, tier1, tier2, tier3 := [], [], [], [];
      pending1, pending2, pending3 := [], [], [];
    }

    method Push(v: Vec, ts: int, sqrt: real -> real)
      modifies this
      ensures View() == Pushed(old(View()), Sample(v, ts), sqrt)
    {
      hide SummaryOf;
      var rawSample := RawSummary(Sample(v, ts));
      raw := AppendBounded(raw, rawSample, RAW_BOUND);
      pending1 := pending1 + [rawSample];
      if |pending1| >= PAIR {
        var s1 := Summarize(pending1, sqrt);
        pending1 := [];
        tier1 := AppendBounded(tier1, s1, TIER1_BOUND);
        pending2 := pending2 + [s1];
      }
      if |pending2| >= FIVE {
        var s2 := Summarize(pending2, sqrt);
        pending2 := [];
        tier2 := AppendBounded(tier2, s2, TIER2_BOUND);
        pending3 := pending3 + [s2];
      }
      if |pending3| >= SIX {
        var s3 := Summarize(pending3, sqrt);
        pending3 := [];
        tier3 := AppendBounded(tier3, s3, TIER3_BOUND);
      }
    }
  }
}
