/** Resolving a process to the Kubernetes pod that owns it, through its cgroup path and a cache. */
module PodMapper {
  import opened Options
  import opened Text

  datatype PodId = PodId(name: string, uid: string, namespace: string, node: string)
  datatype PodRef = PodRef(id: PodId, labels: map<string, string>)

  // ---------------------------------------------------------------- the pod UID in a cgroup line

  function Normalized(raw: string): string { ReplaceAll(raw, '_', '-') }

  function ExtractPodUid(line: string): string
  {
    var v2 := Index(line, "/pod");
    var v1 := Index(line, "-pod");
    if v2.Some? then
      IndexIsFirst(line, "/pod");
      var rest := line[v2.value + 4..];
      var end := Index(rest, "/");
      if end.Some? then (IndexIsFirst(rest, "/"); Normalized(rest[..end.value])) else Normalized(rest)
    else if v1.Some? then
      IndexIsFirst(line, "-pod");
      var rest := line[v1.value + 4..];
      var end := Index(rest, ".slice");
      if end.Some? then (IndexIsFirst(rest, ".slice"); Normalized(rest[..end.value])) else ""
    else ""
  }

  predicate PlainUid(uid: string) { '/' !in uid && '_' !in uid }

  lemma NormalizedKeeps(uid: string)
    requires PlainUid(uid)
    ensures Normalized(uid) == uid
    ensures Normalized(ReplaceAll(uid, '-', '_')) == uid
  {
  }

  lemma NoSlash(uid: string)
    requires '/' !in uid
    ensures !Contains(uid, "/")
  {
    forall i: nat
      ensures !OccursAt(uid, "/", i)
    {
      OccursLetter(uid, "/", i, 0);
    }
  }

  /** The cgroupfs spelling: the UID is the rest of the path component after the first pod marker. */
  lemma ExtractsFromPath(before: string, uid: string, after: string)
    requires PlainUid(uid) && !Contains(before, "/pod")
    requires after != "" ==> after[0] == '/'
    ensures ExtractPodUid(before + "/pod" + uid + after) == uid
  {
    var line, rest := before + "/pod" + uid + after, uid + after;
    assert line == before + "/pod" + rest;
    IndexAfter(before, "/pod", rest);
    assert line[|before| + 4..] == rest;
    NormalizedKeeps(uid);
    NoSlash(uid);
    if after == "" {
      assert rest == uid;
      IndexIsFirst(rest, "/");
    } else {
      assert rest == uid + "/" + after[1..];
      IndexAfter(uid, "/", after[1..]);
      assert rest[..|uid|] == uid;
    }
  }

  /** The systemd spelling: dashes are escaped, and the UID ends where the slice does. */
  lemma ExtractsFromSlice(before: string, uid: string, after: string)
    requires PlainUid(uid) && !Contains(before, "-pod")
    requires
      var raw := ReplaceAll(uid, '-', '_');
      !Contains(raw, ".slice") && !Contains(before + "-pod" + raw + ".slice" + after, "/pod")
    ensures ExtractPodUid(before + "-pod" + ReplaceAll(uid, '-', '_') + ".slice" + after) == uid
  {
    var raw := ReplaceAll(uid, '-', '_');
    var line, rest := before + "-pod" + raw + ".slice" + after, raw + ".slice" + after;
    assert line == before + "-pod" + rest;
    IndexIsFirst(line, "/pod");
    IndexAfter(before, "-pod", rest);
    assert line[|before| + 4..] == rest;
    IndexAfter(raw, ".slice", after);
    assert rest[..|raw|] == raw;
    NormalizedKeeps(uid);
  }

  // ---------------------------------------------------------------- resolution and its cache

  /** /proc: the cgroup lines of each process; a process whose file cannot be opened has none. */
  type Proc = map<nat, seq<string>>

  function ResolveLines(lines: seq<string>, index: map<string, PodRef>): Option<PodRef>
  {
    if lines == [] then None
    else
      var uid := ExtractPodUid(lines[0]);
      if uid != "" && uid in index then Some(index[uid]) else ResolveLines(lines[1..], index)
  }

  function Resolve(proc: Proc, index: map<string, PodRef>, pid: nat): Option<PodRef>
  {
    if pid in proc then ResolveLines(proc[pid], index) else None
  }

  datatype State = State(index: map<string, PodRef>, cache: map<nat, PodRef>)

  datatype Call =
    | SetPodIndex(pods: map<string, PodRef>)
    | GetPodForPid(pid: nat)
    | ScanAllPids(listed: bool)

  function Scanned(proc: Proc, index: map<string, PodRef>): map<nat, PodRef>
  {
    map pid | pid in proc && Resolve(proc, index, pid).Some? :: Resolve(proc, index, pid).value
  }

  /** Each call is atomic; a scan whose directory listing fails changes nothing. */
  function Next(proc: Proc, s: State, call: Call): State
  {
    match call
    case SetPodIndex(pods) => State(pods, map[])
    case GetPodForPid(pid) =>
      var ref := Resolve(proc, s.index, pid);
      if pid !in s.cache && ref.Some? then s.(cache := s.cache[pid := ref.value]) else s
    case ScanAllPids(listed) => if listed then s.(cache := Scanned(proc, s.index)) else s
  }

  function After(proc: Proc, calls: seq<Call>): State
  {
    if calls == [] then State(map[], map[]) else Next(proc, After(proc, calls[..|calls| - 1]), calls[|calls| - 1])
  }

  /** What the mapper answers for a process. */
  function Answer(proc: Proc, s: State, pid: nat): Option<PodRef>
  {
    if pid in s.cache then Some(s.cache[pid]) else Resolve(proc, s.index, pid)
  }

  ghost predicate Coherent(proc: Proc, s: State)
  {
    forall pid :: pid in s.cache ==> Resolve(proc, s.index, pid) == Some(s.cache[pid])
  }

  lemma NextIsCoherent(proc: Proc, s: State, call: Call)
    requires Coherent(proc, s)
    ensures Coherent(proc, Next(proc, s, call))
  {
    hide Resolve;
  }

  /** After any calls, for every process, the cached answer is the uncached one under the index set last. */
  lemma {:induction false} CacheAgrees(proc: Proc, calls: seq<Call>)
    ensures Coherent(proc, After(proc, calls))
    ensures forall pid :: Answer(proc, After(proc, calls), pid) == Resolve(proc, After(proc, calls).index, pid)
  {
    hide Resolve, Next;
    if calls != [] {
      CacheAgrees(proc, calls[..|calls| - 1]);
      NextIsCoherent(proc, After(proc, calls[..|calls| - 1]), calls[|calls| - 1]);
    }
  }

  /** A successful scan maps exactly the processes that resolve. */
  lemma ScanIsComplete(proc: Proc, calls: seq<Call>, pid: nat)
    ensures
      var s := After(proc, calls + [ScanAllPids(true)]);
      pid in s.cache <==> Resolve(proc, s.index, pid).Some?
  {
    assert (calls + [ScanAllPids(true)])[..|calls|] == calls;
  }

  class Mapper {
    const proc: Proc
    var index: map<string, PodRef>
    var cache: map<nat, PodRef>

    ghost function View(): State
      reads this
    {
      State(index, cache)
    }

    constructor (proc: Proc)
      ensures View() == After(proc, []) && this.proc == proc
    {
      this.proc := proc;
      index, cache := map[], map[];
    }

    method SetIndex(pods: map<string, PodRef>)
      modifies this
      ensures View() == Next(proc, old(View()), SetPodIndex(pods))
    {
      index := pods;
      cache := map[];
    }

    /** Reads the cgroup file line by line until a known pod turns up. */
    method ResolvePid(pid: nat) returns (ref: Option<PodRef>)
      ensures ref == Resolve(proc, index, pid)
    {
      if pid !in proc { return None; }
      var lines := proc[pid];
      var i := 0;
      while i < |lines|
        invariant 0 <= i <= |lines|
        invariant ResolveLines(lines, index) == ResolveLines(lines[i..], index)
      {
        assert lines[i..][1..] == lines[i + 1..];
        var uid := ExtractPodUid(lines[i]);
        if uid != "" && uid in index { return Some(index[uid]); }
        i := i + 1;
      }
      return None;
    }

    /** In a coherent state the answer is the resolution, cached or not. */
    method Get(pid: nat) returns (ref: Option<PodRef>)
      modifies this
      ensures View() == Next(proc, old(View()), GetPodForPid(pid))
      ensures ref == old(Answer(proc, View(), pid))
      ensures old(Coherent(proc, View())) ==> ref == Resolve(proc, index, pid)
    {
      if pid in cache { return Some(cache[pid]); }
      ref := ResolvePid(pid);
      if ref.Some? { cache := cache[pid := ref.value]; }
    }

    method Scan(listed: bool)
      modifies this
      ensures View() == Next(proc, old(View()), ScanAllPids(listed))
    {
      if !listed { return; }
      hide Resolve;
      var scanned: map<nat, PodRef> := map[];
      var todo := proc.Keys;
      while todo != {}
        invariant View() == old(View()) && todo <= proc.Keys
        invariant forall pid :: pid in scanned <==> pid in proc && pid !in todo && Resolve(proc, index, pid).Some?
        invariant forall pid :: pid in scanned ==> scanned[pid] == Resolve(proc, index, pid).value
        decreases |todo|
      {
        var pid :| pid in todo;
        todo := todo - {pid};
        var ref := ResolvePid(pid);
        if ref.Some? { scanned := scanned[pid := ref.value]; }
      }
      assert scanned == Scanned(proc, index);
      cache := scanned;
    }
  }
}
