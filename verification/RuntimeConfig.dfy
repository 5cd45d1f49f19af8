/**
 The daemon's runtime configuration: the YAML file with its omitempty tags and defaults, the control
 API's partial updates, and the command the supervisor resolves from the file.
 */
module RuntimeConfig {
  import opened Options
  import opened Text

  // ---------------------------------------------------------------- the file format

  datatype Scheduler = Scheduler(
    sliceNsDefault: nat, sliceNsMin: nat, mode: string, schedulerName: string, kernelMode: bool, maxTimeWatchdog: bool)

  datatype Monitor = Monitor(
    enabled: bool, bpfObjectPath: string, collectionIntervalSec: int, monitorAll: bool, streamEvents: bool,
    prometheusPort: int, enableCrdWatcher: bool, kubeConfigPath: string)

  datatype Mtls = Mtls(enable: bool, certPem: string, keyPem: string, caPem: string)

  datatype Api = Api(url: string, interval: int, publicKeyPath: string, enabled: bool, authEnabled: bool, mtls: Mtls)

  datatype Config = Config(
    scheduler: Scheduler, enableFifo: bool, monitor: Monitor, debug: bool, earlyProcessing: bool,
    builtinIdle: bool, api: Api)

  const NO_MTLS := Mtls(false, "", "", "")

  const DEFAULT := Config(
    Scheduler(20000000, 1000000, "", "", false, true), false,
    Monitor(true, "sched_monitor.bpf.o", 10, false, false, 9090, false, ""),
    false, false, false, Api("", 0, "", false, false, NO_MTLS))

  /** A document: None is a key the file does not mention. */
  datatype SchedulerDoc = SchedulerDoc(
    sliceNsDefault: Option<nat>, sliceNsMin: Option<nat>, mode: Option<string>, schedulerName: Option<string>,
    kernelMode: Option<bool>, maxTimeWatchdog: Option<bool>)

  datatype MonitorDoc = MonitorDoc(
    enabled: Option<bool>, bpfObjectPath: Option<string>, collectionIntervalSec: Option<int>, monitorAll: Option<bool>,
    streamEvents: Option<bool>, prometheusPort: Option<int>, enableCrdWatcher: Option<bool>,
    kubeConfigPath: Option<string>)

  datatype ApiDoc = ApiDoc(
    url: Option<string>, interval: Option<int>, publicKeyPath: Option<string>, enabled: Option<bool>,
    authEnabled: Option<bool>, mtls: Option<Mtls>)

  datatype Doc = Doc(
    scheduler: SchedulerDoc, enableFifo: Option<bool>, monitor: MonitorDoc, debug: Option<bool>,
    earlyProcessing: Option<bool>, builtinIdle: Option<bool>, api: ApiDoc)

  /** An omitempty key is written unless it holds the zero value of its type. */
  function OmitEmpty<T(==)>(x: T, zero: T): Option<T> { if x == zero then None else Some(x) }

  function Or<T>(o: Option<T>, default: T): T { if o.Some? then o.value else default }

  function MarshalScheduler(s: Scheduler): SchedulerDoc
  {
    SchedulerDoc(Some(s.sliceNsDefault), Some(s.sliceNsMin), OmitEmpty(s.mode, ""), OmitEmpty(s.schedulerName, ""),
                 OmitEmpty(s.kernelMode, false), OmitEmpty(s.maxTimeWatchdog, false))
  }

  function MarshalMonitor(m: Monitor): MonitorDoc
  {
    MonitorDoc(Some(m.enabled), OmitEmpty(m.bpfObjectPath, ""), OmitEmpty(m.collectionIntervalSec, 0),
               OmitEmpty(m.monitorAll, false), OmitEmpty(m.streamEvents, false), OmitEmpty(m.prometheusPort, 0),
               OmitEmpty(m.enableCrdWatcher, false), OmitEmpty(m.kubeConfigPath, ""))
  }

  function MarshalApi(a: Api): ApiDoc
  {
    ApiDoc(Some(a.url), Some(a.interval), Some(a.publicKeyPath), OmitEmpty(a.enabled, false),
           OmitEmpty(a.authEnabled, false), OmitEmpty(a.mtls, NO_MTLS))
  }

  function Marshal(c: Config): Doc
  {
    Doc(MarshalScheduler(c.scheduler), OmitEmpty(c.enableFifo, false), MarshalMonitor(c.monitor),
        OmitEmpty(c.debug, false), OmitEmpty(c.earlyProcessing, false), OmitEmpty(c.builtinIdle, false),
        MarshalApi(c.api))
  }

  function LoadScheduler(d: SchedulerDoc): Scheduler
  {
    var z := DEFAULT.scheduler;
    Scheduler(Or(d.sliceNsDefault, z.sliceNsDefault), Or(d.sliceNsMin, z.sliceNsMin), Or(d.mode, z.mode),
              Or(d.schedulerName, z.schedulerName), Or(d.kernelMode, z.kernelMode),
              Or(d.maxTimeWatchdog, z.maxTimeWatchdog))
  }

  function LoadMonitor(d: MonitorDoc): Monitor
  {
    var z := DEFAULT.monitor;
    Monitor(Or(d.enabled, z.enabled), Or(d.bpfObjectPath, z.bpfObjectPath),
            Or(d.collectionIntervalSec, z.collectionIntervalSec), Or(d.monitorAll, z.monitorAll),
            Or(d.streamEvents, z.streamEvents), Or(d.prometheusPort, z.prometheusPort),
            Or(d.enableCrdWatcher, z.enableCrdWatcher), Or(d.kubeConfigPath, z.kubeConfigPath))
  }

  function LoadApi(d: ApiDoc): Api
  {
    var z := DEFAULT.api;
    Api(Or(d.url, z.url), Or(d.interval, z.interval), Or(d.publicKeyPath, z.publicKeyPath), Or(d.enabled, z.enabled),
        Or(d.authEnabled, z.authEnabled), Or(d.mtls, z.mtls))
  }

  /** Decoding lays the document over the defaults. */
  function Load(d: Doc): Config
  {
    Config(LoadScheduler(d.scheduler), Or(d.enableFifo, DEFAULT.enableFifo), LoadMonitor(d.monitor),
           Or(d.debug, DEFAULT.debug), Or(d.earlyProcessing, DEFAULT.earlyProcessing),
           Or(d.builtinIdle, DEFAULT.builtinIdle), LoadApi(d.api))
  }

  /** No key holds a zero that would be dropped when written and come back as a non-zero default. */
  predicate Lossless(c: Config)
  {
    && c.scheduler.maxTimeWatchdog
    && c.monitor.bpfObjectPath != ""
    && c.monitor.collectionIntervalSec != 0
    && c.monitor.prometheusPort != 0
  }

  /** Writing and loading gives back the configuration exactly when no key is lost, and is stable from then on. */
  lemma RoundTripIff(c: Config)
    ensures Load(Marshal(c)) == c <==> Lossless(c)
    ensures Lossless(Load(Marshal(c)))
  {
    assert "sched_monitor.bpf.o" != "";
  }

  /** Whatever is lost, a write and a load change nothing but the four keys that can be lost. */
  lemma RoundTripKeeps(c: Config)
    ensures var back := Load(Marshal(c));
      && back == c.(scheduler := back.scheduler, monitor := back.monitor)
      && back.scheduler == c.scheduler.(maxTimeWatchdog := true)
      && back.monitor == c.monitor.(bpfObjectPath := back.monitor.bpfObjectPath,
                                    collectionIntervalSec := back.monitor.collectionIntervalSec,
                                    prometheusPort := back.monitor.prometheusPort)
  {
  }

  // ---------------------------------------------------------------- validation

  predicate Allowed(name: string)
  {
    name in {
      "scx_beerland", "scx_bpfland", "scx_cake", "scx_chaos", "scx_cosmos", "scx_flash", "scx_lavd",
      "scx_layered", "scx_mitosis", "scx_p2dq", "scx_pandemonium", "scx_rlfifo", "scx_rustland",
      "scx_rusty", "scx_tickless", "scx_timely", "scx_wd40"}
  }

  predicate ValidScheduler(mode: string, name: string)
  {
    var m := TrimSpace(mode);
    || m == "" || m == "none" || m == "gthulhu" || m == "simple"
    || (m == "scx" && '/' !in TrimSpace(name) && Allowed(TrimSpace(name)))
  }

  /** bins holds the names that resolve to an executable file beside the scheduler binary. */
  predicate Accepts(s: Scheduler, bins: set<string>)
  {
    && ValidScheduler(s.mode, s.schedulerName)
    && (s.mode == "scx" ==> s.schedulerName in bins)
  }

  // ---------------------------------------------------------------- partial updates

  datatype Request = Request(
    mode: string, schedulerName: string, sliceNsDefault: nat, sliceNsMin: nat,
    kernelMode: Option<bool>, maxTimeWatchdog: Option<bool>, earlyProcessing: Option<bool>,
    builtinIdle: Option<bool>, schedulerEnabled: Option<bool>, monitoringEnabled: Option<bool>)

  function RequestedMode(mode: string, r: Request): string
  {
    if r.mode != "" then r.mode
    else if mode == "" && r.schedulerEnabled.Some? then (if r.schedulerEnabled.value then "gthulhu" else "none")
    else mode
  }

  function RequestedScheduler(s: Scheduler, r: Request): Scheduler
  {
    Scheduler(if r.sliceNsDefault != 0 then r.sliceNsDefault else s.sliceNsDefault,
              if r.sliceNsMin != 0 then r.sliceNsMin else s.sliceNsMin,
              RequestedMode(s.mode, r),
              if r.schedulerName != "" then r.schedulerName else s.schedulerName,
              Or(r.kernelMode, s.kernelMode), Or(r.maxTimeWatchdog, s.maxTimeWatchdog))
  }

  /** The configuration once the request is laid over it. */
  function Overlay(c: Config, r: Request): Config
  {
    c.(scheduler := RequestedScheduler(c.scheduler, r),
       monitor := c.monitor.(enabled := Or(r.monitoringEnabled, c.monitor.enabled)),
       earlyProcessing := Or(r.earlyProcessing, c.earlyProcessing),
       builtinIdle := Or(r.builtinIdle, c.builtinIdle))
  }

  datatype Outcome = Rejected | Unchanged | Written | WriteFailed | Ignored

  /** The request is now what the file says. */
  predicate TookEffect(o: Outcome) { o == Unchanged || o == Written }

  /** One update of the runtime file; writable says whether replacing the file succeeds. */
  function Apply(file: Doc, r: Request, bins: set<string>, writable: bool): (Outcome, Doc)
  {
    var next := Overlay(Load(file), r);
    if !Accepts(next.scheduler, bins) then (Rejected, file)
    else if next == Load(file) then (Unchanged, file)
    else if writable then (Written, Marshal(next))
    else (WriteFailed, file)
  }

  /** The nine fields the handler compares to decide whether to write. */
  predicate Differs(p: Config, c: Config)
  {
    || p.scheduler.mode != c.scheduler.mode
    || p.scheduler.schedulerName != c.scheduler.schedulerName
    || p.scheduler.sliceNsDefault != c.scheduler.sliceNsDefault
    || p.scheduler.sliceNsMin != c.scheduler.sliceNsMin
    || p.scheduler.kernelMode != c.scheduler.kernelMode
    || p.scheduler.maxTimeWatchdog != c.scheduler.maxTimeWatchdog
    || p.earlyProcessing != c.earlyProcessing
    || p.builtinIdle != c.builtinIdle
    || p.monitor.enabled != c.monitor.enabled
  }

  /** No other field can change, so comparing nine decides equality of the whole. */
  lemma DiffersIff(c: Config, r: Request)
    ensures Differs(c, Overlay(c, r)) <==> Overlay(c, r) != c
  {
    hide RequestedScheduler;
    assert Overlay(c, r).monitor == c.monitor.(enabled := Overlay(c, r).monitor.enabled);
  }

  method OverrideScheduler(s: Scheduler, r: Request) returns (t: Scheduler)
    ensures t == RequestedScheduler(s, r)
  {
    var mode, name, sliceDefault, sliceMin := s.mode, s.schedulerName, s.sliceNsDefault, s.sliceNsMin;
    var kernelMode, watchdog := s.kernelMode, s.maxTimeWatchdog;
    if r.mode != "" { mode := r.mode; }
    if r.schedulerName != "" { name := r.schedulerName; }
    if r.sliceNsDefault != 0 { sliceDefault := r.sliceNsDefault; }
    if r.sliceNsMin != 0 { sliceMin := r.sliceNsMin; }
    if r.kernelMode.Some? { kernelMode := r.kernelMode.value; }
    assert kernelMode == Or(r.kernelMode, s.kernelMode);
    if r.maxTimeWatchdog.Some? { watchdog := r.maxTimeWatchdog.value; }
    assert watchdog == Or(r.maxTimeWatchdog, s.maxTimeWatchdog);
    if r.schedulerEnabled.Some? {
      if !r.schedulerEnabled.value && mode == "" { mode := "none"; }
      if r.schedulerEnabled.value && mode == "" { mode := "gthulhu"; }
    }
    assert mode == RequestedMode(s.mode, r);
    t := Scheduler(sliceDefault, sliceMin, mode, name, kernelMode, watchdog);
  }

  /** The handler's own order: read, override field by field, validate, compare nine fields, write. */
  method ApplyToFile(file: Doc, r: Request, bins: set<string>, writable: bool) returns (outcome: Outcome, after: Doc)
    ensures (outcome, after) == Apply(file, r, bins, writable)
  {
    hide Load, Marshal, Accepts, RequestedScheduler, Differs;
    var prev := Load(file);
    var sched := OverrideScheduler(prev.scheduler, r);
    var early, idle, monitoring := prev.earlyProcessing, prev.builtinIdle, prev.monitor.enabled;
    if r.earlyProcessing.Some? { early := r.earlyProcessing.value; }
    assert early == Or(r.earlyProcessing, prev.earlyProcessing);
    if r.builtinIdle.Some? { idle := r.builtinIdle.value; }
    assert idle == Or(r.builtinIdle, prev.builtinIdle);
    if !Accepts(sched, bins) { return Rejected, file; }
    if r.monitoringEnabled.Some? { monitoring := r.monitoringEnabled.value; }
    assert monitoring == Or(r.monitoringEnabled, prev.monitor.enabled);
    var next := prev.(scheduler := sched, monitor := prev.monitor.(enabled := monitoring),
                      earlyProcessing := early, builtinIdle := idle);
    assert next == Overlay(prev, r);
    DiffersIff(prev, r);
    if !Differs(prev, next) { return Unchanged, file; }
    if !writable { return WriteFailed, file; }
    return Written, Marshal(next);
  }

  // ---------------------------------------------------------------- runs of the runtime file

  datatype Update = Update(r: Request, bins: set<string>, writable: bool)

  /** The runtime file: the bootstrap file loaded and written once, then any updates. */
  function FileAfter(boot: Doc, updates: seq<Update>): Doc
  {
    if updates == [] then Marshal(Load(boot))
    else
      var u := updates[|updates| - 1];
      Apply(FileAfter(boot, updates[..|updates| - 1]), u.r, u.bins, u.writable).1
  }

  lemma {:induction false} RuntimeFileIsLossless(boot: Doc, updates: seq<Update>)
    ensures Lossless(Load(FileAfter(boot, updates)))
  {
    hide Load, Marshal, Lossless, Overlay, Accepts;
    if updates == [] {
      RoundTripIff(Load(boot));
    } else {
      var u := updates[|updates| - 1];
      var before := FileAfter(boot, updates[..|updates| - 1]);
      RuntimeFileIsLossless(boot, updates[..|updates| - 1]);
      RoundTripIff(Overlay(Load(before), u.r));
    }
  }

  lemma OverlayIsIdempotent(c: Config, r: Request)
    ensures Overlay(Overlay(c, r), r) == Overlay(c, r)
  {
    var s := RequestedScheduler(c.scheduler, r);
    assert RequestedMode(s.mode, r) == s.mode;
    assert RequestedScheduler(s, r) == s;
  }

  lemma OverlayLossless(c: Config, r: Request)
    requires Lossless(c)
    ensures Lossless(Overlay(c, r)) <==> r.maxTimeWatchdog != Some(false)
  {
  }

  /**
   An accepted update that is sent again reports no change, unless it turns the watchdog off: that zero is
   dropped on writing, reads back as on, and the same request is a change every time.
   */
  lemma ReapplyIff(boot: Doc, updates: seq<Update>, r: Request, bins: set<string>)
    ensures
      var first := Apply(FileAfter(boot, updates), r, bins, true);
      var again := Apply(first.1, r, bins, true);
      first.0 != Rejected ==>
        && (again.0 == Unchanged <==> r.maxTimeWatchdog != Some(false))
        && (again.0 != Unchanged ==> again == (Written, first.1))
  {
    var file := FileAfter(boot, updates);
    var c := Load(file);
    RuntimeFileIsLossless(boot, updates);
    ReapplyStep(file, r, bins);
  }

  lemma ReapplyStep(file: Doc, r: Request, bins: set<string>)
    requires Lossless(Load(file))
    ensures
      var first := Apply(file, r, bins, true);
      var again := Apply(first.1, r, bins, true);
      first.0 != Rejected ==>
        && (again.0 == Unchanged <==> r.maxTimeWatchdog != Some(false))
        && (again.0 != Unchanged ==> again == (Written, first.1))
  {
    var c := Load(file);
    var next := Overlay(c, r);
    OverlayIsIdempotent(c, r);
    OverlayLossless(c, r);
    RoundTripIff(next);
    WatchdogReverts(c, r);
    hide Load, Marshal, Lossless, Overlay, Accepts;
  }

  /** Turning the watchdog off is a change, and is undone by the write that stores it. */
  lemma WatchdogReverts(c: Config, r: Request)
    requires Lossless(c)
    ensures r.maxTimeWatchdog == Some(false) ==>
      var next := Overlay(c, r);
      next != c && Load(Marshal(next)) != next && Overlay(Load(Marshal(next)), r) == next
  {
    if r.maxTimeWatchdog == Some(false) {
      var next := Overlay(c, r);
      OverlayIsIdempotent(c, r);
      RoundTripKeeps(next);
    }
  }

  // ---------------------------------------------------------------- validity over runs

  predicate ValidFile(file: Doc)
  {
    ValidScheduler(Load(file).scheduler.mode, Load(file).scheduler.schedulerName)
  }

  predicate WrittenAt(boot: Doc, updates: seq<Update>, i: nat)
    requires i < |updates|
  {
    Apply(FileAfter(boot, updates[..i]), updates[i].r, updates[i].bins, updates[i].writable).0 == Written
  }

  lemma MarshalKeepsValid(c: Config)
    ensures ValidFile(Marshal(c)) <==> ValidScheduler(c.scheduler.mode, c.scheduler.schedulerName)
  {
    hide ValidScheduler;
    RoundTripKeeps(c);
  }

  /** The scheduler settings of the runtime file are valid iff the bootstrap's were, or an update was written since. */
  lemma {:induction false} RuntimeFileIsValidIff(boot: Doc, updates: seq<Update>)
    ensures ValidFile(FileAfter(boot, updates)) <==>
      ValidFile(boot) || exists i: nat :: i < |updates| && WrittenAt(boot, updates, i)
  {
    hide Load, Marshal, Overlay, ValidScheduler, RequestedScheduler;
    if updates == [] {
      MarshalKeepsValid(Load(boot));
    } else {
      var n := |updates| - 1;
      var init, u := updates[..n], updates[n];
      RuntimeFileIsValidIff(boot, init);
      MarshalKeepsValid(Overlay(Load(FileAfter(boot, init)), u.r));
      assert forall i: nat :: i < n ==> init[..i] == updates[..i];
      assert forall i: nat :: i < n ==> (WrittenAt(boot, init, i) <==> WrittenAt(boot, updates, i));
      if WrittenAt(boot, updates, n) {
        assert ValidFile(FileAfter(boot, updates));
      } else {
        assert FileAfter(boot, updates) == FileAfter(boot, init);
      }
    }
  }

  // ---------------------------------------------------------------- the command the supervisor runs

  datatype Command = RunGthulhu | RunScx(name: string) | Idle | Unsupported | Fatal

  /** schedExt says whether the kernel supports sched_ext. */
  function Resolve(c: Config, bins: set<string>, schedExt: bool): Command
  {
    var trimmed := TrimSpace(c.scheduler.mode);
    var mode := if trimmed == "" then "gthulhu" else trimmed;
    if mode == "none" then (if c.monitor.enabled then RunGthulhu else Idle)
    else if !ValidScheduler(mode, c.scheduler.schedulerName) then Fatal
    else if !schedExt then (if c.monitor.enabled then RunGthulhu else Unsupported)
    else if mode == "gthulhu" || mode == "simple" then RunGthulhu
    else if c.scheduler.schedulerName in bins then RunScx(c.scheduler.schedulerName)
    else Fatal
  }

  /** Validation before a restart refuses what the restart cannot run, except when the scx mode is padded with space. */
  predicate PaddedScx(s: Scheduler, bins: set<string>)
  {
    s.mode != "scx" && TrimSpace(s.mode) == "scx" && s.schedulerName !in bins
  }

  lemma ResolveAccepted(c: Config, bins: set<string>, schedExt: bool)
    requires Accepts(c.scheduler, bins)
    ensures Resolve(c, bins, schedExt) == Fatal <==> schedExt && PaddedScx(c.scheduler, bins)
  {
    TrimIsIdempotent(c.scheduler.mode);
    TrimSpaceKeeps("gthulhu");
    TrimSpaceKeeps("scx");
    hide TrimSpace, Allowed;
  }

  /** An update is accepted and then fails the restart outright exactly when it asks for that on top of the file. */
  lemma RestartFailsIff(file: Doc, r: Request, bins: set<string>, schedExt: bool)
    ensures
      var (outcome, after) := Apply(file, r, bins, true);
      var asked := RequestedScheduler(Load(file).scheduler, r);
      outcome != Rejected ==>
        (Resolve(Load(after), bins, schedExt) == Fatal <==> schedExt && PaddedScx(asked, bins))
  {
    var (outcome, after) := Apply(file, r, bins, true);
    if outcome != Rejected {
      var next := Overlay(Load(file), r);
      RoundTripKeeps(next);
      assert next.scheduler == RequestedScheduler(Load(file).scheduler, r);
      hide Overlay, Load, Marshal, Resolve, ValidScheduler, RequestedScheduler;
      assert Load(after).scheduler.mode == next.scheduler.mode;
      assert Load(after).scheduler.schedulerName == next.scheduler.schedulerName;
      ResolveAccepted(Load(after), bins, schedExt);
    }
  }

  lemma TrimPaddedScx()
    ensures TrimSpace(" scx") == "scx"
  {
    assert " scx"[1..] == "scx";
    assert TrimLeft(" scx") == TrimLeft("scx");
    TrimSpaceKeeps("scx");
  }

  /** For instance, a missing binary asked for with a space before the mode is written to any file and then fails. */
  lemma PaddedModeFails(file: Doc, r: Request)
    requires r.mode == " scx" && r.schedulerName == "scx_rusty"
    ensures
      var (outcome, after) := Apply(file, r, {}, true);
      outcome != Rejected && Resolve(Load(after), {}, true) == Fatal
  {
    var s := RequestedScheduler(Load(file).scheduler, r);
    TrimPaddedScx();
    TrimSpaceKeeps("scx_rusty");
    hide TrimSpace, Load, Marshal;
    assert s.schedulerName == "scx_rusty" && Accepts(s, {});
    hide ValidScheduler, Allowed;
    RestartFailsIff(file, r, {}, true);
  }

  // ---------------------------------------------------------------- the control API

  /** What the daemon remembers of the request applied last. */
  datatype Control = Control(applied: bool, version: string)

  datatype Reply = Reply(outcome: Outcome, file: Doc, control: Control)

  /** A request that repeats the applied version is answered at once, before its body is looked at. */
  function Serve(file: Doc, c: Control, version: string, r: Request, bins: set<string>, writable: bool): Reply
  {
    if version == "" then Reply(Rejected, file, c)
    else if c.applied && c.version == version then Reply(Ignored, file, c)
    else
      var (outcome, after) := Apply(file, r, bins, writable);
      Reply(outcome, after, if TookEffect(outcome) then Control(true, version) else c)
  }

  class ControlApi {
    var file: Doc
    var applied: bool
    var configVersion: string

    constructor (boot: Doc)
      ensures file == FileAfter(boot, []) && !applied && configVersion == "bootstrap"
    {
      file, applied, configVersion := Marshal(Load(boot)), false, "bootstrap";
    }

    method HandleRuntimeConfig(version: string, r: Request, bins: set<string>, writable: bool)
      returns (outcome: Outcome)
      modifies this
      ensures Reply(outcome, file, Control(applied, configVersion))
           == old(Serve(file, Control(applied, configVersion), version, r, bins, writable))
    {
      hide Apply;
      if version == "" { return Rejected; }
      var sameVersion := applied && configVersion == version;
      if sameVersion { return Ignored; }
      outcome, file := ApplyToFile(file, r, bins, writable);
      if TookEffect(outcome) { configVersion, applied := version, true; }
    }
  }

  // ---------------------------------------------------------------- the Decision Maker's requests

  datatype Desired = Desired(
    configVersion: string, mode: string, schedulerName: string, sliceNsDefault: nat, sliceNsMin: nat,
    kernelMode: bool, maxTimeWatchdog: bool, earlyProcessing: bool, builtinIdle: bool,
    schedulerEnabled: bool, monitoringEnabled: bool)

  function NormalMode(d: Desired): string
  {
    var m := TrimSpace(d.mode);
    if m != "" then m else if d.schedulerEnabled then "gthulhu" else "none"
  }

  predicate PlainMode(mode: string) { mode == "none" || mode == "gthulhu" || mode == "simple" }

  function Normalize(d: Desired): Desired
  {
    var m := NormalMode(d);
    d.(mode := m,
       schedulerName := if PlainMode(m) then "" else TrimSpace(d.schedulerName),
       schedulerEnabled := m != "none" && (d.schedulerEnabled || PlainMode(m) || m == "scx"))
  }

  predicate Wellformed(d: Desired)
  {
    var name := d.schedulerName;
    || PlainMode(d.mode)
    || (d.mode == "scx" && name != "" && '/' !in name && '\\' !in name && "scx_" <= name)
  }

  function OmitFalse(b: bool): Option<bool> { if b then Some(true) else None }

  /** The JSON body: a false flag tagged omitempty is not sent, the two enabled flags always are. */
  function Encode(d: Desired): Request
  {
    Request(d.mode, d.schedulerName, d.sliceNsDefault, d.sliceNsMin, OmitFalse(d.kernelMode),
            OmitFalse(d.maxTimeWatchdog), OmitFalse(d.earlyProcessing), OmitFalse(d.builtinIdle),
            Some(d.schedulerEnabled), Some(d.monitoringEnabled))
  }

  /** None when the Decision Maker itself refuses; otherwise what the daemon makes of its request. */
  function Forward(file: Doc, c: Control, d: Desired, bins: set<string>): Option<Reply>
  {
    if d.configVersion == "" || !Wellformed(Normalize(d)) then None
    else Some(Serve(file, c, d.configVersion, Encode(Normalize(d)), bins, true))
  }

  predicate NewVersion(c: Control, d: Desired) { !(c.applied && c.version == d.configVersion) }

  /** The daemon can run what the normalised request asks for. */
  predicate Runnable(n: Desired, bins: set<string>)
  {
    n.mode == "scx" ==> Allowed(n.schedulerName) && n.schedulerName in bins
  }

  /** What the Decision Maker lets through is ignored under a repeated version and rejected if it cannot be run. */
  lemma ForwardOutcome(file: Doc, c: Control, d: Desired, bins: set<string>)
    ensures
      var f := Forward(file, c, d, bins);
      f.Some? ==>
        && (f.value.outcome == Ignored <==> !NewVersion(c, d))
        && (f.value.outcome == Rejected <==> NewVersion(c, d) && !Runnable(Normalize(d), bins))
        && (TookEffect(f.value.outcome) <==> NewVersion(c, d) && Runnable(Normalize(d), bins))
        && (!TookEffect(f.value.outcome) ==> f.value == Reply(f.value.outcome, file, c))
  {
    var n := Normalize(d);
    if Forward(file, c, d, bins).Some? && NewVersion(c, d) {
      NormalizedIsTrimmed(d);
      hide Normalize, TrimSpace, Allowed, Load, Marshal;
      var s := RequestedScheduler(Load(file).scheduler, Encode(n));
      assert s.mode == n.mode;
      assert n.mode == "scx" ==> s.schedulerName == n.schedulerName;
    }
  }

  lemma NormalizedIsTrimmed(d: Desired)
    ensures
      var n := Normalize(d);
      TrimSpace(n.mode) == n.mode != "" && TrimSpace(n.schedulerName) == n.schedulerName
  {
    TrimIsIdempotent(d.mode);
    TrimIsIdempotent(d.schedulerName);
    TrimSpaceKeeps("gthulhu");
    TrimSpaceKeeps("none");
    TrimSpaceKeeps("");
    hide TrimSpace;
  }

  /** The configuration a normalised request leads to, laid over `c`. */
  function Merged(c: Config, n: Desired): Config
  {
    var s := c.scheduler;
    c.(scheduler := Scheduler(if n.sliceNsDefault != 0 then n.sliceNsDefault else s.sliceNsDefault,
                              if n.sliceNsMin != 0 then n.sliceNsMin else s.sliceNsMin,
                              n.mode,
                              if n.schedulerName != "" then n.schedulerName else s.schedulerName,
                              s.kernelMode || n.kernelMode,
                              true),
       monitor := c.monitor.(enabled := n.monitoringEnabled),
       earlyProcessing := c.earlyProcessing || n.earlyProcessing,
       builtinIdle := c.builtinIdle || n.builtinIdle)
  }

  /**
   What the Decision Maker can and cannot change with a new version: mode and monitoring end up exactly as asked,
   slices and the scheduler name when given; flags can be raised but never lowered, the watchdog is always on, and
   nothing else changes.
   */
  lemma ForwardSets(file: Doc, c: Control, d: Desired, bins: set<string>)
    requires Lossless(Load(file))
    ensures
      var f := Forward(file, c, d, bins);
      f.Some? && NewVersion(c, d) && Runnable(Normalize(d), bins) ==>
        Load(f.value.file) == Merged(Load(file), Normalize(d)) && f.value.control == Control(true, d.configVersion)
  {
    var f := Forward(file, c, d, bins);
    ForwardOutcome(file, c, d, bins);
    if f.Some? && NewVersion(c, d) && Runnable(Normalize(d), bins) {
      var n, cfg := Normalize(d), Load(file);
      NormalizedIsTrimmed(d);
      OverlayLossless(cfg, Encode(n));
      RoundTripIff(Overlay(cfg, Encode(n)));
      hide Normalize, TrimSpace, Allowed, Load, Marshal, Accepts;
      assert Load(f.value.file) == Overlay(cfg, Encode(n));
      OverlayIsMerged(cfg, n);
    }
  }

  lemma OverlayIsMerged(c: Config, n: Desired)
    requires n.mode != "" && c.scheduler.maxTimeWatchdog
    ensures Overlay(c, Encode(n)) == Merged(c, n)
  {
    assert RequestedScheduler(c.scheduler, Encode(n)) == Merged(c, n).scheduler;
    hide RequestedScheduler;
  }

  /** Its requests never lead to a restart that fails outright. */
  lemma ForwardNeverFails(file: Doc, c: Control, d: Desired, bins: set<string>, schedExt: bool)
    ensures
      var f := Forward(file, c, d, bins);
      f.Some? && NewVersion(c, d) && Runnable(Normalize(d), bins) ==>
        Resolve(Load(f.value.file), bins, schedExt) != Fatal
  {
    var f := Forward(file, c, d, bins);
    ForwardOutcome(file, c, d, bins);
    if f.Some? && NewVersion(c, d) && Runnable(Normalize(d), bins) {
      NormalizedIsTrimmed(d);
      RestartFailsIff(file, Encode(Normalize(d)), bins, schedExt);
      hide Normalize, TrimSpace, Load, Apply, Resolve, Allowed;
    }
  }

  /** The configuration says what the request asks for, where it asks. */
  predicate SaysAsAsked(c: Config, n: Desired)
  {
    && c.scheduler.mode == n.mode && c.monitor.enabled == n.monitoringEnabled
    && (n.schedulerName != "" ==> c.scheduler.schedulerName == n.schedulerName)
    && (n.sliceNsDefault != 0 ==> c.scheduler.sliceNsDefault == n.sliceNsDefault)
    && (n.sliceNsMin != 0 ==> c.scheduler.sliceNsMin == n.sliceNsMin)
    && c.scheduler.kernelMode == n.kernelMode && c.scheduler.maxTimeWatchdog == n.maxTimeWatchdog
    && c.earlyProcessing == n.earlyProcessing && c.builtinIdle == n.builtinIdle
  }

  /** No flag has to be lowered, and the watchdog is asked for. */
  predicate OnlyRaises(c: Config, n: Desired)
  {
    && n.maxTimeWatchdog && (c.scheduler.kernelMode ==> n.kernelMode)
    && (c.earlyProcessing ==> n.earlyProcessing) && (c.builtinIdle ==> n.builtinIdle)
  }

  /**
   When the version is new and the scheduler can be run, the file ends as asked iff the request only raises flags;
   otherwise it is not touched, and ends as asked iff it already said so.
   */
  lemma EndsAsAskedIff(file: Doc, c: Control, d: Desired, bins: set<string>)
    requires Lossless(Load(file))
    ensures
      var n := Normalize(d);
      var f := Forward(file, c, d, bins);
      f.Some? ==>
        (SaysAsAsked(Load(f.value.file), n) <==>
           if NewVersion(c, d) && Runnable(n, bins) then OnlyRaises(Load(file), n) else SaysAsAsked(Load(file), n))
  {
    ForwardOutcome(file, c, d, bins);
    ForwardSets(file, c, d, bins);
    var n, f := Normalize(d), Forward(file, c, d, bins);
    hide Normalize, Load, Forward, Runnable, NewVersion;
    if f.Some? && NewVersion(c, d) && Runnable(n, bins) {
      assert SaysAsAsked(Merged(Load(file), n), n) <==> OnlyRaises(Load(file), n);
    }
  }

  /** A second request under the version just applied is ignored, whatever it asks for. */
  lemma RepeatedVersionIsIgnored(file: Doc, c: Control, first: Desired, second: Desired, bins: set<string>)
    requires first.configVersion == second.configVersion
    ensures
      var f := Forward(file, c, first, bins);
      f.Some? && TookEffect(f.value.outcome) ==>
        var g := Forward(f.value.file, f.value.control, second, bins);
        g.Some? ==> g.value == Reply(Ignored, f.value.file, f.value.control)
  {
    hide Normalize, Apply;
  }

  /** For instance, turning the scheduler off under the version that turned it on leaves it on. */
  lemma IgnoredRequestKeepsMode(file: Doc, c: Control, on: Desired, off: Desired, bins: set<string>)
    requires Lossless(Load(file)) && on.configVersion == off.configVersion != "" && NewVersion(c, on)
    requires on.mode == "gthulhu" && off.mode == "none"
    ensures
      var f := Forward(file, c, on, bins);
      f.Some? &&
      var g := Forward(f.value.file, f.value.control, off, bins);
      g.Some? && g.value.outcome == Ignored && Load(g.value.file).scheduler.mode == "gthulhu"
      && !SaysAsAsked(Load(g.value.file), Normalize(off))
  {
    TrimSpaceKeeps("gthulhu");
    TrimSpaceKeeps("none");
    assert Normalize(on).mode == "gthulhu" && Normalize(off).mode == "none";
    assert Forward(file, c, on, bins).Some? by { hide TrimSpace, Serve; }
    ForwardOutcome(file, c, on, bins);
    ForwardSets(file, c, on, bins);
    RepeatedVersionIsIgnored(file, c, on, off, bins);
    hide Normalize, Serve, Load, TrimSpace;
  }
}
