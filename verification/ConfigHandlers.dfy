/**
 The control API's handlers side by side. Nothing guards a handler from its version check to its version record:
 the check, reading the file, renaming the new file into place and recording the version are separate steps, and
 another handler may take steps in between.
 */
module ConfigHandlers {
  import opened Options
  import opened RuntimeConfig

  // ---------------------------------------------------------------- state and steps

  datatype Handler =
    | Checked(version: string, r: Request)             // passed the same-version check
    | Loaded(version: string, r: Request, doc: Doc)    // read the file
    | Applied(version: string)                         // the file is written or left alone, version not recorded

  /** A request as it was answered. */
  datatype Call = Call(version: string, r: Request, bins: set<string>, writable: bool)

  /** The log lists the requests whose outcome is fixed, in that order. */
  datatype State = State(file: Doc, control: Control, handlers: map<nat, Handler>, log: seq<Call>)

  datatype Step =
    | Begin(h: nat, version: string, r: Request)
    | LoadFile(h: nat)
    | Finish(h: nat, bins: set<string>, writable: bool)
    | Record(h: nat)

  predicate Enabled(s: State, step: Step)
  {
    match step
    case Begin(h, _, _) => h !in s.handlers
    case LoadFile(h) => h in s.handlers && s.handlers[h].Checked?
    case Finish(h, _, _) => h in s.handlers && s.handlers[h].Loaded?
    case Record(h) => h in s.handlers && s.handlers[h].Applied?
  }

  predicate AnsweredAtOnce(c: Control, version: string) { version == "" || (c.applied && c.version == version) }

  function Taken(s: State, step: Step): State
    requires Enabled(s, step)
  {
    match step
    case Begin(h, version, r) =>
      if AnsweredAtOnce(s.control, version) then s.(log := s.log + [Call(version, r, {}, false)])
      else s.(handlers := s.handlers[h := Checked(version, r)])
    case LoadFile(h) =>
      var x := s.handlers[h];
      s.(handlers := s.handlers[h := Loaded(x.version, x.r, s.file)])
    case Finish(h, bins, writable) =>
      var x := s.handlers[h];
      var (outcome, after) := Apply(x.doc, x.r, bins, writable);
      s.(file := if outcome == Written then after else s.file,
         handlers := if TookEffect(outcome) then s.handlers[h := Applied(x.version)] else s.handlers - {h},
         log := s.log + [Call(x.version, x.r, bins, writable)])
    case Record(h) =>
      s.(control := Control(true, s.handlers[h].version), handlers := s.handlers - {h})
  }

  function Start(file: Doc, control: Control): State { State(file, control, map[], []) }

  function After(init: State, steps: seq<Step>): Option<State>
  {
    if steps == [] then Some(init)
    else
      var before, last := After(init, steps[..|steps| - 1]), steps[|steps| - 1];
      if before.Some? && Enabled(before.value, last) then Some(Taken(before.value, last)) else None
  }

  /** No request begins while another is in flight. */
  predicate OneAtATime(init: State, steps: seq<Step>)
  {
    if steps == [] then true
    else
      var before, last := After(init, steps[..|steps| - 1]), steps[|steps| - 1];
      && OneAtATime(init, steps[..|steps| - 1])
      && (before.Some? && last.Begin? ==> before.value.handlers == map[])
  }

  // ---------------------------------------------------------------- one at a time is serial

  /** What serving the calls one after the other leaves. */
  function Served(file: Doc, control: Control, calls: seq<Call>): (Doc, Control)
  {
    if calls == [] then (file, control)
    else
      var (f, c) := Served(file, control, calls[..|calls| - 1]);
      var k := calls[|calls| - 1];
      var reply := Serve(f, c, k.version, k.r, k.bins, k.writable);
      (reply.file, reply.control)
  }

  lemma ServedMore(file: Doc, control: Control, calls: seq<Call>, k: Call)
    ensures
      var (f, c) := Served(file, control, calls);
      var reply := Serve(f, c, k.version, k.r, k.bins, k.writable);
      Served(file, control, calls + [k]) == (reply.file, reply.control)
  {
    hide Serve;
    assert (calls + [k])[..|calls|] == calls;
  }

  /** At most one request is in flight, and what it has seen is still so. */
  ghost predicate Serial(init: State, s: State)
  {
    var (f, c) := Served(init.file, init.control, s.log);
    && s.file == f
    && (forall g, h :: g in s.handlers && h in s.handlers ==> g == h)
    && (s.handlers == map[] ==> s.control == c)
    && (forall h :: h in s.handlers ==>
          match s.handlers[h]
          case Checked(version, _) => s.control == c && !AnsweredAtOnce(c, version)
          case Loaded(version, _, doc) => s.control == c && !AnsweredAtOnce(c, version) && doc == s.file
          case Applied(version) => c == Control(true, version))
  }

  lemma BeginIsSerial(init: State, s: State, step: Step)
    requires Serial(init, s) && step.Begin? && Enabled(s, step) && s.handlers == map[]
    ensures Serial(init, Taken(s, step))
  {
    hide Served, Apply;
    ServedMore(init.file, init.control, s.log, Call(step.version, step.r, {}, false));
  }

  lemma FinishIsSerial(init: State, s: State, step: Step)
    requires Serial(init, s) && step.Finish? && Enabled(s, step)
    ensures Serial(init, Taken(s, step))
  {
    hide Served, Apply;
    var x := s.handlers[step.h];
    ApplyKeepsFile(x.doc, x.r, step.bins, step.writable);
    ServedMore(init.file, init.control, s.log, Call(x.version, x.r, step.bins, step.writable));
    assert forall h :: h in s.handlers ==> h == step.h;
    var t := Taken(s, step);
    if TookEffect(Apply(x.doc, x.r, step.bins, step.writable).0) {
      assert step.h in t.handlers && t.handlers[step.h] == Applied(x.version);
      assert forall h :: h in t.handlers ==> h == step.h;
    } else {
      assert t.handlers == map[];
    }
  }

  lemma ApplyKeepsFile(file: Doc, r: Request, bins: set<string>, writable: bool)
    ensures
      var (outcome, after) := Apply(file, r, bins, writable);
      outcome != Written ==> after == file
  {
    hide Load, Marshal, Overlay, Accepts;
  }

  lemma RecordIsSerial(init: State, s: State, step: Step)
    requires Serial(init, s) && (step.Record? || step.LoadFile?) && Enabled(s, step)
    ensures Serial(init, Taken(s, step))
  {
    hide Served;
    assert forall h :: h in s.handlers ==> h == step.h;
    if step.Record? { assert Taken(s, step).handlers == map[]; }
  }

  /** Every run without overlapping requests is at each point a serial one. */
  lemma {:induction false} OneAtATimeIsSerial(init: State, steps: seq<Step>)
    requires init.handlers == map[] && init.log == []
    requires OneAtATime(init, steps) && After(init, steps).Some?
    ensures Serial(init, After(init, steps).value)
  {
    hide Serial, Taken;
    if steps == [] {
      SerialAtStart(init);
    } else {
      var last := steps[|steps| - 1];
      OneAtATimeIsSerial(init, steps[..|steps| - 1]);
      var before := After(init, steps[..|steps| - 1]).value;
      match last
      case Begin(_, _, _) => BeginIsSerial(init, before, last);
      case Finish(_, _, _) => FinishIsSerial(init, before, last);
      case _ => RecordIsSerial(init, before, last);
    }
  }

  lemma SerialAtStart(init: State)
    requires init.handlers == map[] && init.log == []
    ensures Serial(init, init)
  {
  }

  /** Request `i` took effect when served in turn, and no later one did. */
  ghost predicate LastEffect(file: Doc, control: Control, calls: seq<Call>, i: nat)
    requires i < |calls|
  {
    && EffectAt(file, control, calls, i)
    && forall j :: i < j < |calls| ==> !EffectAt(file, control, calls, j)
  }

  predicate EffectAt(file: Doc, control: Control, calls: seq<Call>, i: nat)
    requires i < |calls|
  {
    var (f, c) := Served(file, control, calls[..i]);
    TookEffect(Serve(f, c, calls[i].version, calls[i].r, calls[i].bins, calls[i].writable).outcome)
  }

  /** Only requests that take effect leave a trace. */
  lemma ServedLast(file: Doc, control: Control, calls: seq<Call>)
    requires calls != []
    ensures
      var n := |calls| - 1;
      var (f, c) := Served(file, control, calls[..n]);
      var k := calls[n];
      Served(file, control, calls) ==
        if EffectAt(file, control, calls, n) then (Apply(f, k.r, k.bins, k.writable).1, Control(true, k.version))
        else (f, c)
  {
    var n := |calls| - 1;
    var (f, c) := Served(file, control, calls[..n]);
    ApplyKeepsFile(f, calls[n].r, calls[n].bins, calls[n].writable);
    hide Apply;
  }

  /** The file is what request `i` made of the file its predecessors left, and the version recorded is its own. */
  ghost predicate LeftBy(file: Doc, control: Control, calls: seq<Call>, i: nat, f: Doc, c: Control)
  {
    && i < |calls| && LastEffect(file, control, calls, i)
    && c == Control(true, calls[i].version)
    && f == Apply(Served(file, control, calls[..i]).0, calls[i].r, calls[i].bins, calls[i].writable).1
  }

  lemma LeftByStill(file: Doc, control: Control, calls: seq<Call>, i: nat, f: Doc, c: Control)
    requires calls != [] && !EffectAt(file, control, calls, |calls| - 1)
    requires LeftBy(file, control, calls[..|calls| - 1], i, f, c)
    ensures LeftBy(file, control, calls, i, f, c)
  {
    hide Apply, Serve, Served;
    var n := |calls| - 1;
    var init := calls[..n];
    forall j: nat | j < n
      ensures init[..j] == calls[..j] && (EffectAt(file, control, init, j) <==> EffectAt(file, control, calls, j))
    {
      assert init[..j] == calls[..j];
    }
    hide EffectAt;
  }

  lemma LeftByLast(file: Doc, control: Control, calls: seq<Call>)
    requires calls != [] && EffectAt(file, control, calls, |calls| - 1)
    ensures LeftBy(file, control, calls, |calls| - 1, Served(file, control, calls).0, Served(file, control, calls).1)
  {
    ServedLast(file, control, calls);
    hide Apply, Serve, Served, EffectAt;
  }

  lemma {:induction false} ServedIsOfVersion(file: Doc, control: Control, calls: seq<Call>)
    ensures
      var (f, c) := Served(file, control, calls);
      (f == file && c == control) || exists i :: LeftBy(file, control, calls, i, f, c)
  {
    if calls != [] {
      hide Serve, LeftBy, EffectAt;
      var n := |calls| - 1;
      var (f, c) := Served(file, control, calls[..n]);
      ServedIsOfVersion(file, control, calls[..n]);
      ServedLast(file, control, calls);
      hide Served, Apply;
      if EffectAt(file, control, calls, n) {
        LeftByLast(file, control, calls);
      } else if f != file || c != control {
        var i :| LeftBy(file, control, calls[..n], i, f, c);
        LeftByStill(file, control, calls, i, f, c);
      }
    }
  }

  /**
   So without overlapping requests an idle daemon's file is what the request of its recorded version left: that
   request was served on the file its predecessors left, and none after it took effect.
   */
  lemma IdleFileIsOfVersion(init: State, steps: seq<Step>)
    requires init.handlers == map[] && init.log == []
    requires OneAtATime(init, steps) && After(init, steps).Some? && After(init, steps).value.handlers == map[]
    ensures
      var s := After(init, steps).value;
      || (s.file == init.file && s.control == init.control)
      || exists i :: LeftBy(init.file, init.control, s.log, i, s.file, s.control)
  {
    hide After, OneAtATime, LeftBy, Served;
    OneAtATimeIsSerial(init, steps);
    ServedIsOfVersion(init.file, init.control, After(init, steps).value.log);
  }

  // ---------------------------------------------------------------- overlapping requests

  lemma AfterMore(init: State, steps: seq<Step>, s: State, step: Step)
    requires After(init, steps) == Some(s) && Enabled(s, step)
    ensures After(init, steps + [step]) == Some(Taken(s, step))
  {
    hide Taken;
    assert (steps + [step])[..|steps|] == steps;
  }

  /** Both requests read the file before either writes it; the first to write is the last to record its version. */
  function Overlap(a: Call, b: Call): seq<Step>
  {
    [Begin(1, a.version, a.r)] + [Begin(2, b.version, b.r)] + [LoadFile(1)] + [LoadFile(2)]
    + [Finish(1, a.bins, a.writable)] + [Finish(2, b.bins, b.writable)] + [Record(2)] + [Record(1)]
  }

  /** Both requests have read the file. */
  function BothLoaded(file: Doc, c: Control, a: Call, b: Call): State
  {
    State(file, c, map[1 := Loaded(a.version, a.r, file), 2 := Loaded(b.version, b.r, file)], [])
  }

  lemma BothLoad(file: Doc, c: Control, a: Call, b: Call)
    requires !AnsweredAtOnce(c, a.version) && !AnsweredAtOnce(c, b.version)
    ensures
      var steps := [Begin(1, a.version, a.r)] + [Begin(2, b.version, b.r)] + [LoadFile(1)] + [LoadFile(2)];
      After(Start(file, c), steps) == Some(BothLoaded(file, c, a, b))
  {
    hide After;
    var init := Start(file, c);
    var s1 := init.(handlers := map[1 := Checked(a.version, a.r)]);
    var s2 := init.(handlers := map[1 := Checked(a.version, a.r), 2 := Checked(b.version, b.r)]);
    var s3 := init.(handlers := map[1 := Loaded(a.version, a.r, file), 2 := Checked(b.version, b.r)]);
    NoSteps(init);
    var one := [Begin(1, a.version, a.r)];
    assert [] + one == one;
    Path(init, [], init, Begin(1, a.version, a.r), s1);
    Path(init, one, s1, Begin(2, b.version, b.r), s2);
    Path(init, one + [Begin(2, b.version, b.r)], s2, LoadFile(1), s3);
    Path(init, one + [Begin(2, b.version, b.r)] + [LoadFile(1)], s3, LoadFile(2), BothLoaded(file, c, a, b));
  }

  lemma BothFinish(init: State, steps: seq<Step>, file: Doc, c: Control, a: Call, b: Call)
    requires After(init, steps) == Some(BothLoaded(file, c, a, b))
    requires Apply(file, a.r, a.bins, a.writable).0 == Written && Apply(file, b.r, b.bins, b.writable).0 == Written
    ensures
      After(init, steps + [Finish(1, a.bins, a.writable)] + [Finish(2, b.bins, b.writable)] + [Record(2)] + [Record(1)])
      == Some(State(Apply(file, b.r, b.bins, b.writable).1, Control(true, a.version), map[], [a, b]))
  {
    hide After, Apply;
    var fa, fb := Apply(file, a.r, a.bins, a.writable).1, Apply(file, b.r, b.bins, b.writable).1;
    var s1 := State(fa, c, map[1 := Applied(a.version), 2 := Loaded(b.version, b.r, file)], [a]);
    var s2 := State(fb, c, map[1 := Applied(a.version), 2 := Applied(b.version)], [a, b]);
    var s3 := State(fb, Control(true, b.version), map[1 := Applied(a.version)], [a, b]);
    var s4 := State(fb, Control(true, a.version), map[], [a, b]);
    Path(init, steps, BothLoaded(file, c, a, b), Finish(1, a.bins, a.writable), s1);
    var five := steps + [Finish(1, a.bins, a.writable)];
    Path(init, five, s1, Finish(2, b.bins, b.writable), s2);
    var six := five + [Finish(2, b.bins, b.writable)];
    Path(init, six, s2, Record(2), s3);
    Path(init, six + [Record(2)], s3, Record(1), s4);
  }

  /** Both are answered with success, the file is the second's, and the recorded version is the first's. */
  lemma OverlapLeaves(file: Doc, c: Control, a: Call, b: Call)
    requires !AnsweredAtOnce(c, a.version) && !AnsweredAtOnce(c, b.version)
    requires Apply(file, a.r, a.bins, a.writable).0 == Written && Apply(file, b.r, b.bins, b.writable).0 == Written
    ensures After(Start(file, c), Overlap(a, b)) ==
      Some(State(Apply(file, b.r, b.bins, b.writable).1, Control(true, a.version), map[], [a, b]))
  {
    hide After, Apply, AnsweredAtOnce, BothLoaded;
    BothLoad(file, c, a, b);
    var steps := [Begin(1, a.version, a.r)] + [Begin(2, b.version, b.r)] + [LoadFile(1)] + [LoadFile(2)];
    BothFinish(Start(file, c), steps, file, c, a, b);
  }

  lemma NoSteps(init: State)
    ensures After(init, []) == Some(init)
  {
  }

  lemma Path(init: State, steps: seq<Step>, s: State, step: Step, t: State)
    requires After(init, steps) == Some(s) && Enabled(s, step) && Taken(s, step) == t
    ensures After(init, steps + [step]) == Some(t)
  {
    hide Taken;
    AfterMore(init, steps, s, step);
  }

  /**
   Two requests that overlap like this end as if served one after the other iff the first asks for nothing that
   the second did not leave; otherwise one of the two updates is lost.
   */
  lemma OverlapIsHarmlessIff(file: Doc, c: Control, a: Call, b: Call)
    requires !AnsweredAtOnce(c, a.version) && !AnsweredAtOnce(c, b.version) && a.version != b.version
    requires Apply(file, a.r, a.bins, a.writable).0 == Written && Apply(file, b.r, b.bins, b.writable).0 == Written
    ensures
      var s := After(Start(file, c), Overlap(a, b));
      && s.Some?
      && ((s.value.file, s.value.control) == Served(file, c, [a, b])
          || (s.value.file, s.value.control) == Served(file, c, [b, a])
          <==> var (outcome, after) := Apply(s.value.file, a.r, a.bins, a.writable);
               TookEffect(outcome) && after == s.value.file)
  {
    hide After, Served, Apply, Overlap, Start, AnsweredAtOnce;
    OverlapLeaves(file, c, a, b);
    ServedTwo(file, c, a, b);
    ServedTwo(file, c, b, a);
    AcceptedAgain(file, b.r, b.bins, b.writable);
    ApplyKeepsFile(Apply(file, a.r, a.bins, a.writable).1, b.r, b.bins, b.writable);
  }

  /** What was written once is accepted again on top of itself. */
  lemma AcceptedAgain(file: Doc, r: Request, bins: set<string>, writable: bool)
    requires Apply(file, r, bins, writable).0 == Written
    ensures TookEffect(Apply(Apply(file, r, bins, writable).1, r, bins, writable).0)
  {
    var next := Overlay(Load(file), r);
    RoundTripKeeps(next);
    var again := RequestedScheduler(Load(Marshal(next)).scheduler, r);
    assert again.mode == next.scheduler.mode && again.schedulerName == next.scheduler.schedulerName;
    hide Load, Marshal, RequestedScheduler, ValidScheduler;
  }

  lemma ServedTwo(file: Doc, c: Control, a: Call, b: Call)
    requires !AnsweredAtOnce(c, a.version) && !AnsweredAtOnce(c, b.version) && a.version != b.version
    requires Apply(file, a.r, a.bins, a.writable).0 == Written
    ensures
      var fa := Apply(file, a.r, a.bins, a.writable).1;
      var (outcome, after) := Apply(fa, b.r, b.bins, b.writable);
      Served(file, c, [a, b]) == (after, Control(true, if TookEffect(outcome) then b.version else a.version))
  {
    hide Apply;
    assert [a, b] == [] + [a] + [b];
    ServedMore(file, c, [], a);
    ServedMore(file, c, [] + [a], b);
  }

  /**
   For instance, one request turns the scheduler on while another turns it off. Both succeed, the daemon records the
   version that turned it on, the file says off, and sending the first request again is ignored.
   */
  lemma LostUpdate(file: Doc, c: Control, a: Call, b: Call)
    requires !AnsweredAtOnce(c, a.version) && !AnsweredAtOnce(c, b.version)
    requires a.r.mode == "gthulhu" && b.r.mode == "none" && a.writable && b.writable
    requires Load(file).scheduler.mode != "gthulhu" && Load(file).scheduler.mode != "none"
    ensures
      var s := After(Start(file, c), Overlap(a, b));
      && s.Some? && s.value.handlers == map[] && s.value.control == Control(true, a.version)
      && Load(s.value.file).scheduler.mode == "none"
      && Serve(s.value.file, s.value.control, a.version, a.r, a.bins, a.writable)
         == Reply(Ignored, s.value.file, s.value.control)
  {
    ModeIsWritten(file, a);
    ModeIsWritten(file, b);
    hide After, Apply, Load;
    OverlapLeaves(file, c, a, b);
  }

  lemma ModeIsWritten(file: Doc, k: Call)
    requires (k.r.mode == "gthulhu" || k.r.mode == "none") && k.writable
    requires Load(file).scheduler.mode != k.r.mode
    ensures
      var (outcome, after) := Apply(file, k.r, k.bins, k.writable);
      outcome == Written && Load(after).scheduler.mode == k.r.mode
  {
    var next := Overlay(Load(file), k.r);
    RoundTripKeeps(next);
    hide Load, Marshal;
    assert next.scheduler.mode == k.r.mode;
  }
}
