/**
 The daemon: HTTP handlers that rewrite the runtime configuration file and drop a token into a
 one-slot channel, and one supervisor loop that resolves the file and owns a child process.
 Files are told apart by a stamp that each rename raises, so reading the file and renaming the new one
 into place are one step here; module ConfigHandlers takes them apart. Every other statement that other
 goroutines can observe is a step of its own.
 */
module Supervisor {
  import opened Options

  // ---------------------------------------------------------------- state

  datatype Pc =
    | NeedResolve      // top of the loop
    | Starting         // resolved to a command, child not yet started
    | Waiting          // disabled or unsupported: blocked on the restart channel
    | Running          // blocked on the restart channel, a signal, or the child's exit
    | Stopping         // took a token: waiting for the child to be gone
    | Delaying         // sleeping before the next round
    | Terminating      // took a signal: waiting for the child to be gone
    | Exited

  datatype Handler =
    | Checked(version: string)                  // passed the same-version check
    | Applied(version: string, changed: bool)   // the file is written (changed) or left alone
    | Sending                                   // state recorded, token not yet offered

  datatype State = State(
    file: nat,                      // stamp of the current file contents; every write gets a new one
    lastStamp: nat,                 // the highest stamp handed out
    resolved: nat,                  // stamp the supervisor last resolved
    token: bool,                    // the restart channel holds its one token
    pc: Pc,
    children: set<nat>,             // live child processes
    started: map<nat, nat>,         // for each child ever started, the stamp it was started from
    handlers: map<nat, Handler>,    // requests in flight
    configVersion: string, applied: bool,
    restartCount: nat)

  predicate Init(s: State)
  {
    && s.pc == NeedResolve && !s.token && s.children == {} && s.started == map[] && s.handlers == map[]
    && s.configVersion == "bootstrap" && !s.applied && s.restartCount == 0
    && s.file == s.lastStamp == s.resolved == 0
  }

  // ---------------------------------------------------------------- steps

  datatype Step =
    // handlers
    | Begin(h: nat, version: string)      // the same-version check
    | ApplyFails(h: nat)                  // load, validation or write error: nothing is written
    | ApplyUnchanged(h: nat)              // the request matches the file
    | ApplyWrites(h: nat)                 // the new file is renamed into place
    | RecordState(h: nat)                 // state.set
    | Send(h: nat)                        // non-blocking send: a full channel drops the token
    // supervisor
    | ResolveFatal                        // resolve error: the daemon returns
    | ResolveIdle                         // disabled, or sched_ext unsupported
    | ResolveCommand
    | StartChild(child: nat)
    | StartFails
    | TakeTokenWaiting
    | TakeTokenRunning
    | TakeSignal
    | TakeDoneRestart                     // the child exited: delay and start over
    | TakeDoneUnsupported                 // the child exited reporting sched_ext unsupported: wait
    | StopDone
    | DelayDone
    | TerminateDone
    // environment
    | ChildExits(child: nat)

  predicate Enabled(s: State, step: Step)
  {
    match step
    case Begin(h, _) => h !in s.handlers
    case ApplyFails(h) => h in s.handlers && s.handlers[h].Checked?
    case ApplyUnchanged(h) => h in s.handlers && s.handlers[h].Checked?
    case ApplyWrites(h) => h in s.handlers && s.handlers[h].Checked?
    case RecordState(h) => h in s.handlers && s.handlers[h].Applied?
    case Send(h) => h in s.handlers && s.handlers[h].Sending?
    case ResolveFatal => s.pc == NeedResolve
    case ResolveIdle => s.pc == NeedResolve
    case ResolveCommand => s.pc == NeedResolve
    case StartChild(c) => s.pc == Starting && c !in s.started
    case StartFails => s.pc == Starting
    case TakeTokenWaiting => s.pc == Waiting && s.token
    case TakeTokenRunning => s.pc == Running && s.token
    case TakeSignal => s.pc == Waiting || s.pc == Running
    case TakeDoneRestart => s.pc == Running && s.children == {}
    case TakeDoneUnsupported => s.pc == Running && s.children == {}
    case StopDone => s.pc == Stopping && s.children == {}
    case DelayDone => s.pc == Delaying
    case TerminateDone => s.pc == Terminating && s.children == {}
    case ChildExits(c) => c in s.children
  }

  function Apply(s: State, step: Step): State
    requires Enabled(s, step)
  {
    match step
    case Begin(h, version) =>
      if s.applied && s.configVersion == version then s else s.(handlers := s.handlers[h := Checked(version)])
    case ApplyFails(h) => s.(handlers := s.handlers - {h})
    case ApplyUnchanged(h) => s.(handlers := s.handlers[h := Applied(s.handlers[h].version, false)])
    case ApplyWrites(h) =>
      s.(file := s.lastStamp + 1, lastStamp := s.lastStamp + 1,
         handlers := s.handlers[h := Applied(s.handlers[h].version, true)])
    case RecordState(h) =>
      var next := if s.handlers[h].changed then s.handlers[h := Sending] else s.handlers - {h};
      s.(configVersion := s.handlers[h].version, applied := true, handlers := next)
    case Send(h) => s.(token := true, handlers := s.handlers - {h})
    case ResolveFatal => s.(resolved := s.file, pc := Exited)
    case ResolveIdle => s.(resolved := s.file, pc := Waiting)
    case ResolveCommand => s.(resolved := s.file, pc := Starting)
    case StartChild(c) => s.(pc := Running, children := s.children + {c}, started := s.started[c := s.resolved])
    case StartFails => s.(pc := Exited)
    case TakeTokenWaiting => s.(token := false, pc := NeedResolve)
    case TakeTokenRunning => s.(token := false, pc := Stopping)
    case TakeSignal => s.(pc := if s.pc == Waiting then Exited else Terminating)
    case TakeDoneRestart => s.(restartCount := s.restartCount + 1, pc := Delaying)
    case TakeDoneUnsupported => s.(restartCount := s.restartCount + 1, pc := Waiting)
    case StopDone => s.(pc := Delaying)
    case DelayDone => s.(pc := NeedResolve)
    case TerminateDone => s.(pc := Exited)
    case ChildExits(c) => s.(children := s.children - {c})
  }

  /** The state after an interleaving of steps, if every step was enabled when taken. */
  function After(init: State, steps: seq<Step>): Option<State>
  {
    if steps == [] then Some(init)
    else
      var before, last := After(init, steps[..|steps| - 1]), steps[|steps| - 1];
      if before.Some? && Enabled(before.value, last) then Some(Apply(before.value, last)) else None
  }

  ghost predicate Reachable(init: State, steps: seq<Step>, s: State)
  {
    Init(init) && After(init, steps) == Some(s)
  }

  // ---------------------------------------------------------------- no lost restart

  /** Some handler has written the file and not yet offered its token. */
  ghost predicate BetweenWriteAndSend(s: State)
  {
    exists h :: h in s.handlers && (s.handlers[h].Sending? || (s.handlers[h].Applied? && s.handlers[h].changed))
  }

  /** The supervisor has resolved the file and will not look at it again on its own. */
  predicate Settled(pc: Pc) { pc == Starting || pc == Waiting || pc == Running }

  ghost predicate NoLostRestart(s: State)
  {
    Settled(s.pc) && s.file != s.resolved ==> s.token || BetweenWriteAndSend(s)
  }

  ghost predicate OneChild(s: State)
  {
    && |s.children| <= 1
    && (s.children != {} ==> s.pc == Running || s.pc == Stopping || s.pc == Terminating)
    && (forall c :: c in s.children ==> c in s.started && s.started[c] == s.resolved)
  }

  ghost predicate Inv(s: State)
  {
    NoLostRestart(s) && OneChild(s) && s.file <= s.lastStamp && s.resolved <= s.lastStamp
  }

  lemma HandlerStepKeepsNoLostRestart(s: State, step: Step)
    requires NoLostRestart(s) && Enabled(s, step)
    requires step.ApplyFails? || step.ApplyUnchanged? || step.ApplyWrites? || step.RecordState?
    ensures NoLostRestart(Apply(s, step))
  {
    var t := Apply(s, step);
    if step.ApplyWrites? {
      assert t.handlers[step.h].Applied? && t.handlers[step.h].changed;
    } else if BetweenWriteAndSend(s) {
      var g :| g in s.handlers && (s.handlers[g].Sending? || (s.handlers[g].Applied? && s.handlers[g].changed));
      assert g in t.handlers && (t.handlers[g].Sending? || (t.handlers[g].Applied? && t.handlers[g].changed));
    }
  }

  lemma BeginKeepsNoLostRestart(s: State, step: Step)
    requires NoLostRestart(s) && Enabled(s, step) && step.Begin?
    ensures NoLostRestart(Apply(s, step))
  {
    if BetweenWriteAndSend(s) {
      var g :| g in s.handlers && (s.handlers[g].Sending? || (s.handlers[g].Applied? && s.handlers[g].changed));
      assert g in Apply(s, step).handlers && Apply(s, step).handlers[g] == s.handlers[g];
    }
  }

  lemma StepKeepsInv(s: State, step: Step)
    requires Inv(s) && Enabled(s, step)
    ensures Inv(Apply(s, step))
  {
    if step.ApplyFails? || step.ApplyUnchanged? || step.ApplyWrites? || step.RecordState? {
      HandlerStepKeepsNoLostRestart(s, step);
    } else if step.Begin? {
      BeginKeepsNoLostRestart(s, step);
    }
  }

  /** In every reachable state no restart is lost and at most one child is alive. */
  lemma {:induction false} ReachableIsSound(init: State, steps: seq<Step>, s: State)
    requires Reachable(init, steps, s)
    ensures Inv(s)
    decreases |steps|
  {
    if steps != [] {
      var t := After(init, steps[..|steps| - 1]).value;
      ReachableIsSound(init, steps[..|steps| - 1], t);
      StepKeepsInv(t, steps[|steps| - 1]);
    }
  }

  /**
   Once every request has finished and the channel is empty, a settled supervisor is up to date:
   it resolved the current file, and its child, if any, was started from it.
   */
  lemma QuiescentIsUpToDate(init: State, steps: seq<Step>, s: State)
    requires Reachable(init, steps, s)
    requires s.handlers == map[] && !s.token && Settled(s.pc)
    ensures s.resolved == s.file
    ensures forall c :: c in s.children ==> c in s.started && s.started[c] == s.file
  {
    ReachableIsSound(init, steps, s);
  }

  // ---------------------------------------------------------------- progress

  predicate IsResolve(step: Step) { step.ResolveFatal? || step.ResolveIdle? || step.ResolveCommand? }

  predicate IsSupervisorStep(step: Step)
  {
    || IsResolve(step) || step.StartChild? || step.StartFails? || step.TakeTokenWaiting? || step.TakeTokenRunning?
    || step.TakeDoneRestart? || step.TakeDoneUnsupported? || step.StopDone? || step.DelayDone?
  }

  /** Supervisor steps left until the file is read again. */
  function Rank(pc: Pc): nat
  {
    match pc
    case NeedResolve => 1
    case Delaying => 2
    case Waiting => 2
    case Stopping => 3
    case Running => 4
    case Starting => 5
    case Terminating => 0
    case Exited => 0
  }

  /** With a token pending, a daemon that is not on its way out has a step, or waits only for its child to exit. */
  lemma PendingTokenIsNeverStuck(init: State, steps: seq<Step>, s: State)
    requires Reachable(init, steps, s) && s.token && s.pc != Exited && s.pc != Terminating
    ensures (exists next: Step :: IsSupervisorStep(next) && Enabled(s, next))
            || (s.pc == Stopping && exists c :: c in s.children && Enabled(s, ChildExits(c)))
  {
    match s.pc
    case NeedResolve => assert IsSupervisorStep(ResolveIdle) && Enabled(s, ResolveIdle);
    case Starting => assert IsSupervisorStep(StartFails) && Enabled(s, StartFails);
    case Waiting => assert IsSupervisorStep(TakeTokenWaiting) && Enabled(s, TakeTokenWaiting);
    case Running => assert IsSupervisorStep(TakeTokenRunning) && Enabled(s, TakeTokenRunning);
    case Delaying => assert IsSupervisorStep(DelayDone) && Enabled(s, DelayDone);
    case Stopping =>
      if s.children == {} {
        assert IsSupervisorStep(StopDone) && Enabled(s, StopDone);
      } else {
        var c :| c in s.children;
        assert Enabled(s, ChildExits(c));
      }
  }

  /** Every supervisor step either reads the current file, ends the daemon, or brings the next reading closer. */
  lemma EveryStepApproachesTheFile(s: State, step: Step)
    requires IsSupervisorStep(step) && Enabled(s, step)
    ensures var t := Apply(s, step);
            if IsResolve(step) then t.resolved == t.file == s.file
            else t.pc == Exited || 0 < Rank(t.pc) < Rank(s.pc)
  {
  }

  /** Steps after which the daemon is gone or on its way out. */
  predicate Ends(step: Step) { step.ResolveFatal? || step.StartFails? || step.TakeSignal? || step.TerminateDone? }

  function SupervisorSteps(steps: seq<Step>): nat
  {
    if steps == [] then 0
    else SupervisorSteps(steps[..|steps| - 1]) + if IsSupervisorStep(steps[|steps| - 1]) then 1 else 0
  }

  ghost predicate NoneIs(steps: seq<Step>, p: Step -> bool) { forall i :: 0 <= i < |steps| ==> !p(steps[i]) }

  lemma StepUsesUpRank(s: State, step: Step)
    requires Enabled(s, step) && Rank(s.pc) > 0 && !Ends(step) && !IsResolve(step)
    ensures 0 < Rank(Apply(s, step).pc) <= Rank(s.pc) - if IsSupervisorStep(step) then 1 else 0
  {
  }

  lemma StepKeepsStamps(s: State, step: Step)
    requires Enabled(s, step) && s.file <= s.lastStamp
    ensures s.file <= Apply(s, step).file <= Apply(s, step).lastStamp
    ensures IsResolve(step) ==> Apply(s, step).resolved == s.file
  {
  }

  /** Without a reading of the file, every supervisor step uses up one of the few that can come before it. */
  lemma {:induction false} StepsUseUpRank(s: State, steps: seq<Step>)
    requires After(s, steps).Some? && Rank(s.pc) > 0 && NoneIs(steps, Ends) && NoneIs(steps, IsResolve)
    ensures 0 < Rank(After(s, steps).value.pc) <= Rank(s.pc) - SupervisorSteps(steps)
  {
    if steps != [] {
      var init, last := steps[..|steps| - 1], steps[|steps| - 1];
      assert NoneIs(init, Ends) && NoneIs(init, IsResolve) by {
        assert forall i :: 0 <= i < |init| ==> init[i] == steps[i];
      }
      StepsUseUpRank(s, init);
      assert !Ends(last) && !IsResolve(last);
      hide Ends, IsResolve, IsSupervisorStep, Enabled, Apply, Rank;
      StepUsesUpRank(After(s, init).value, last);
    }
  }

  lemma {:induction false} FileStampsGrow(s: State, steps: seq<Step>)
    requires After(s, steps).Some? && s.file <= s.lastStamp
    ensures s.file <= After(s, steps).value.file <= After(s, steps).value.lastStamp
  {
    hide Enabled, Apply;
    if steps != [] {
      FileStampsGrow(s, steps[..|steps| - 1]);
      StepKeepsStamps(After(s, steps[..|steps| - 1]).value, steps[|steps| - 1]);
    }
  }

  /** Step i reads the file, at a version no older than the given one. */
  ghost predicate ReadsAt(s: State, steps: seq<Step>, i: nat, version: nat)
  {
    && i < |steps| && IsResolve(steps[i])
    && After(s, steps[..i + 1]).Some? && After(s, steps[..i + 1]).value.resolved >= version
  }

  /**
   From any reachable state, with or without a token, any continuation with five supervisor steps that does not end
   the daemon reads the file again, and reads at least the version there was.
   */
  lemma FiveStepsReadTheFile(init: State, before: seq<Step>, s: State, steps: seq<Step>)
    requires Reachable(init, before, s) && s.pc != Exited && s.pc != Terminating
    requires After(s, steps).Some? && NoneIs(steps, Ends) && SupervisorSteps(steps) >= 5
    ensures exists i: nat :: ReadsAt(s, steps, i, s.file)
  {
    ReachableIsSound(init, before, s);
    assert 0 < Rank(s.pc) <= 5;
    hide Enabled, Apply, Rank, Ends, IsResolve, Reachable;
    if NoneIs(steps, IsResolve) {
      StepsUseUpRank(s, steps);
    } else {
      var i: nat :| i < |steps| && IsResolve(steps[i]);
      PrefixRuns(s, steps, i + 1);
      var prefix := steps[..i + 1];
      assert prefix[..i] == steps[..i];
      FileStampsGrow(s, steps[..i]);
      StepKeepsStamps(After(s, steps[..i]).value, steps[i]);
      assert ReadsAt(s, steps, i, s.file);
    }
  }

  lemma {:induction false} PrefixRuns(s: State, steps: seq<Step>, n: nat)
    requires After(s, steps).Some? && n <= |steps|
    ensures After(s, steps[..n]).Some?
  {
    hide Enabled, Apply;
    if n < |steps| {
      PrefixRuns(s, steps[..|steps| - 1], n);
      assert steps[..|steps| - 1][..n] == steps[..n];
    } else {
      assert steps[..n] == steps;
    }
  }
}
