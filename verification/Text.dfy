/** The string functions of Go's standard library that the modelled code relies on. */
module Text {
  import opened Options

  // ---------------------------------------------------------------- trimming

  predicate IsSpace(c: char)
  {
    || '\t' <= c <= '\r' || c == ' ' || c == 0x85 as char || c == 0xA0 as char || c == 0x1680 as char
    || 0x2000 as char <= c <= 0x200A as char || c == 0x2028 as char || c == 0x2029 as char
    || c == 0x202F as char || c == 0x205F as char || c == 0x3000 as char
  }

  function TrimLeft(s: string): string
  {
    if s != "" && IsSpace(s[0]) then TrimLeft(s[1..]) else s
  }

  function TrimRight(s: string): string
  {
    if s != "" && IsSpace(s[|s| - 1]) then TrimRight(s[..|s| - 1]) else s
  }

  function TrimSpace(s: string): string { TrimRight(TrimLeft(s)) }

  /** A string without space at either end is left alone. */
  lemma TrimSpaceKeeps(s: string)
    requires s != "" ==> !IsSpace(s[0]) && !IsSpace(s[|s| - 1])
    ensures TrimSpace(s) == s
  {
  }

  /** The trimmed string has no space at either end. */
  lemma {:induction false} TrimRightEnds(s: string)
    ensures TrimRight(s) <= s
    ensures TrimRight(s) != "" ==> !IsSpace(TrimRight(s)[|TrimRight(s)| - 1])
  {
    if s != "" && IsSpace(s[|s| - 1]) {
      TrimRightEnds(s[..|s| - 1]);
    }
  }

  lemma {:induction false} TrimLeftStarts(s: string)
    ensures TrimLeft(s) != "" ==> !IsSpace(TrimLeft(s)[0])
  {
    if s != "" && IsSpace(s[0]) {
      TrimLeftStarts(s[1..]);
    }
  }

  lemma TrimIsIdempotent(s: string)
    ensures TrimSpace(TrimSpace(s)) == TrimSpace(s)
  {
    TrimLeftStarts(s);
    TrimRightEnds(TrimLeft(s));
    TrimSpaceKeeps(TrimSpace(s));
  }

  // ---------------------------------------------------------------- searching

  predicate OccursAt(s: string, p: string, i: nat) { i + |p| <= |s| && s[i..i + |p|] == p }

  ghost predicate Contains(s: string, p: string) { exists i: nat :: OccursAt(s, p, i) }

  /** The index of the first occurrence of p in s. */
  function Index(s: string, p: string): Option<nat>
  {
    if p <= s then Some(0)
    else if s == "" then None
    else
      var rest := Index(s[1..], p);
      if rest.Some? then Some(rest.value + 1) else None
  }

  lemma OccursInTail(s: string, p: string, i: nat)
    requires s != "" && i > 0
    ensures OccursAt(s, p, i) <==> OccursAt(s[1..], p, i - 1)
  {
    if i + |p| <= |s| { assert s[i..i + |p|] == s[1..][i - 1..i - 1 + |p|]; }
  }

  lemma ContainsTail(s: string, p: string)
    requires s != ""
    ensures Contains(s, p) <==> p <= s || Contains(s[1..], p)
  {
    if p <= s {
      assert OccursAt(s, p, 0);
    } else if i: nat :| OccursAt(s, p, i) {
      OccursInTail(s, p, i);
    } else if i: nat :| OccursAt(s[1..], p, i) {
      OccursInTail(s, p, i + 1);
    }
  }

  lemma {:induction false} IndexIsFirst(s: string, p: string)
    ensures Index(s, p).Some? <==> Contains(s, p)
    ensures Index(s, p).Some? ==>
      OccursAt(s, p, Index(s, p).value) && forall i: nat :: i < Index(s, p).value ==> !OccursAt(s, p, i)
  {
    if p <= s {
      assert OccursAt(s, p, 0);
    } else if s != "" {
      IndexIsFirst(s[1..], p);
      ContainsTail(s, p);
      forall i: nat | i > 0
        ensures OccursAt(s, p, i) <==> OccursAt(s[1..], p, i - 1)
      {
        OccursInTail(s, p, i);
      }
      hide Contains;
    }
  }

  lemma OccursLetter(s: string, p: string, i: nat, j: nat)
    ensures OccursAt(s, p, i) && j < |p| ==> s[i + j] == p[j]
  {
    if OccursAt(s, p, i) && j < |p| { assert s[i..i + |p|][j] == s[i + j]; }
  }

  lemma OccursInPrefix(a: string, b: string, p: string, i: nat)
    ensures OccursAt(a + b, p, i) && i + |p| <= |a| ==> OccursAt(a, p, i)
  {
    if i + |p| <= |a| { assert a[i..i + |p|] == (a + b)[i..i + |p|]; }
  }

  /** No proper suffix of p can start p again, because its first character occurs only once. */
  predicate StartsOnce(p: string) { p != "" && forall i :: 1 <= i < |p| ==> p[i] != p[0] }

  /** Then p is found right after any text that does not contain it. */
  lemma IndexAfter(before: string, p: string, rest: string)
    requires StartsOnce(p) && !Contains(before, p)
    ensures Index(before + p + rest, p) == Some(|before|)
  {
    var s := before + p + rest;
    assert OccursAt(s, p, |before|);
    assert s == before + (p + rest);
    assert s[|before|] == p[0];
    IndexIsFirst(s, p);
    forall i: nat | i < |before|
      ensures !OccursAt(s, p, i)
    {
      OccursLetter(s, p, i, |before| - i);
      OccursInPrefix(before, p + rest, p, i);
    }
  }

  function ReplaceAll(s: string, a: char, b: char): string
  {
    seq(|s|, i requires 0 <= i < |s| => if s[i] == a then b else s[i])
  }

  // ---------------------------------------------------------------- order

  /** Lexicographic order, as Go compares strings. */
  predicate Leq(a: string, b: string)
  {
    a == "" || (b != "" && (a[0] < b[0] || (a[0] == b[0] && Leq(a[1..], b[1..]))))
  }

  lemma {:induction false} LeqIsTotal(a: string, b: string)
    ensures Leq(a, b) || Leq(b, a)
  {
    if a != "" && b != "" { LeqIsTotal(a[1..], b[1..]); }
  }

  lemma {:induction false} LeqIsAntisymmetric(a: string, b: string)
    requires Leq(a, b) && Leq(b, a)
    ensures a == b
  {
    if a != "" {
      LeqIsAntisymmetric(a[1..], b[1..]);
      assert a == [a[0]] + a[1..] && b == [b[0]] + b[1..];
    }
  }

  lemma {:induction false} LeqIsTransitive(a: string, b: string, c: string)
    requires Leq(a, b) && Leq(b, c)
    ensures Leq(a, c)
  {
    if a != "" && a[0] == b[0] == c[0] { LeqIsTransitive(a[1..], b[1..], c[1..]); }
  }

  // ---------------------------------------------------------------- decimal numbers

  function Digits(n: nat): string
  {
    var last := ['0' + (n % 10) as char];
    if n < 10 then last else Digits(n / 10) + last
  }

  function Itoa(n: int): string { if n < 0 then "-" + Digits(-n) else Digits(n) }

  function Value(s: string): int
  {
    if s == "" then 0 else 10 * Value(s[..|s| - 1]) + s[|s| - 1] as int - '0' as int
  }

  function Atoi(s: string): int { if s != "" && s[0] == '-' then -Value(s[1..]) else Value(s) }

  lemma {:induction false} DigitsAreDigits(n: nat)
    ensures Digits(n) != "" && forall c :: c in Digits(n) ==> '0' <= c <= '9'
    ensures Value(Digits(n)) == n
  {
    if n >= 10 {
      DigitsAreDigits(n / 10);
      assert Digits(n)[..|Digits(n)| - 1] == Digits(n / 10);
    }
  }

  /** Decimal text determines the number, and has none of the separators. */
  lemma ItoaRoundTrip(n: int)
    ensures Atoi(Itoa(n)) == n
    ensures forall c :: c in Itoa(n) ==> c == '-' || '0' <= c <= '9'
  {
    DigitsAreDigits(if n < 0 then -n else n);
    var ds := Digits(if n < 0 then -n else n);
    assert ds[0] in ds;
    assert n < 0 ==> Itoa(n)[1..] == ds;
  }

  // ---------------------------------------------------------------- joined fields

  predicate FirstAt(s: string, c: char, i: nat) { i < |s| && s[i] == c && forall j :: 0 <= j < i ==> s[j] != c }
  predicate LastAt(s: string, c: char, i: nat) { i < |s| && s[i] == c && forall j :: i < j < |s| ==> s[j] != c }

  lemma OnlyPlace(s: string, c: char, i: nat, j: nat)
    requires (FirstAt(s, c, i) && FirstAt(s, c, j)) || (LastAt(s, c, i) && LastAt(s, c, j))
    ensures i == j
  {
  }

  /** Text cut at its first separator. */
  lemma CutLeft(c: char, a: string, b: string, x: string, y: string)
    requires a + [c] + b == x + [c] + y && c !in a && c !in x
    ensures a == x && b == y
  {
    var s := a + [c] + b;
    assert FirstAt(s, c, |a|) && FirstAt(s, c, |x|);
    OnlyPlace(s, c, |a|, |x|);
    assert a == s[..|a|] && x == s[..|x|];
    assert b == s[|a| + 1..] && y == s[|x| + 1..];
  }

  /** Text cut at its last separator. */
  lemma CutRight(c: char, a: string, b: string, x: string, y: string)
    requires a + [c] + b == x + [c] + y && c !in b && c !in y
    ensures a == x && b == y
  {
    var s := a + [c] + b;
    assert LastAt(s, c, |a|) && LastAt(s, c, |x|);
    OnlyPlace(s, c, |a|, |x|);
    assert a == s[..|a|] && x == s[..|x|];
    assert b == s[|a| + 1..] && y == s[|x| + 1..];
  }

  lemma Unprefix(p: string, a: string, b: string)
    requires p + a == p + b
    ensures a == b
  {
    assert a == (p + a)[|p|..] && b == (p + b)[|p|..];
  }

  function CountOf(s: string, c: char): nat { multiset(s)[c] }

  lemma CountOfJoin(s: string, t: string, c: char)
    ensures CountOf(s + t, c) == CountOf(s, c) + CountOf(t, c)
    ensures CountOf(s, c) == 0 <==> c !in s
  {
    assert c in s <==> c in multiset(s);
  }
}
