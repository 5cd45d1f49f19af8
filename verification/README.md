# Gthulhu in Dafny

A model of the parts of Gthulhu whose behaviour spans many calls: the adaptive pod classifier, the daemon
that supervises the scheduler, the eBPF scheduling monitor with its user-space aggregation and PID filter,
node-policy resolution with drift detection, and the store of scheduling intents. `dafny verify dfyconfig.toml`
checks everything.

## How it is organised

| module | what it models |
|---|---|
| `Vectors`, `KMeans`, `Ewma`, `TieredBuffer`, `Clustering`, `PodClassifier` | the adaptive classifier: k-means, twin moving averages, the down-sampling buffer, the shared model, the per-pod phase automaton and the classifier over many pods |
| `Supervisor` | control API handlers, the one-slot restart channel and the supervisor loop, as interleaved steps |
| `ConfigCache` | status readers with an mtime-keyed cache against writers that rename, as interleaved steps |
| `RuntimeConfig`, `ConfigHandlers` | the configuration file with its tags and defaults, partial updates, the Decision Maker's requests and the command resolved from the file; handlers side by side, from version check to version record, as interleaved steps |
| `SchedMonitor`, `Collector` | the kernel hooks over the bounded map of task counters, and the poll that adds them up by pod |
| `PodMapper`, `SharedMapper`, `Watcher` | resolving processes to pods through a cache, once with atomic calls and once lock by lock, and reconciling the monitored set with the kernel map |
| `Merkle`, `NodePolicy`, `PolicyTable`, `PolicyHash` | the Merkle root, the canonical order of node policies, drift detection and resolution to threads, what of a list of policies decides its resolution, and which policies share a hash or a key |
| `ObjectId`, `IntentStore` | object IDs, intents as labelled custom resources, transactional inserts and label queries |
| `Options`, `Text`, `Ints`, `RealArith` | shared helpers: strings, decimal numbers, sorting, real arithmetic |

State that the source updates in place is a class whose methods are proved equal to a function on values
(`View() == ...`); the laws are lemmas about that function over all inputs and all runs. Concurrent code is a
step relation, and its laws hold for every interleaving.

Calls into the outside world are parameters: which API, file or kernel-map calls fail, the clock, generated IDs,
which binaries are executable, the regular expression engine, the iteration order of Go maps.

## Where the code does not do what one would expect

- `RuntimeConfig.ReapplyIff`: turning the watchdog off never survives, because the zero is dropped on writing and the default is on.
- `RuntimeConfig.RestartFailsIff`: a scheduler mode padded with space passes validation without the executable check that a restart makes.
- `ConfigCache.AlwaysCurrentIff`: the cache compares mtimes alone, so it may serve old contents whenever an mtime returns and the contents did not stay the same in between.
- `ConfigHandlers.LostUpdate`: no lock is held from reading the file to recording the version, so of two overlapping requests one can be lost although both succeed; `ConfigHandlers.IdleFileIsOfVersion` holds when requests do not overlap, and `ConfigHandlers.OverlapIsHarmlessIff` says when an overlap does no harm.
- `IntentStore.LostCreateLeavesOrphan`: the rollback does not delete an intent whose create erred after the API server stored it.
- `RuntimeConfig.RepeatedVersionIsIgnored`: a request that repeats the applied version is answered with success and ignored; `RuntimeConfig.EndsAsAskedIff` says exactly when a request is carried out.
- `SchedMonitor.EqualTimesNeedNotAlternate`: time is conserved iff no neighbours lose time; alternation is the exact condition only for strictly increasing times.
- `Merkle.RepeatedLastLeaf`: equal roots do not mean equal policy lists unless the lists have the same length.
- `PolicyTable.EqualRootsResolveAlikeIff`: equal roots mean equal resolution, as the comment at api/decisionmaker/service/node_policy_svc.go:44-50 promises, when hashed texts tell the policies apart and nothing is contested; IDs without the separator guarantee both. `PolicyHash.SerializedIsUniqueIff` says which policies can share their hashed text. For any two services `PolicyTable.ResolveAlikeIff` is the exact condition, and `PolicyHash.DriftGoesUnseen` and `PolicyHash.KeyClashIsHarmlessIff` are what it says of one shared hash and one shared key.
- `PolicyTable.OneRootIff`: two services with the same policies may report different roots when policies share a key and not their hashed text.
- `Watcher.LeakedIff`: a vanished process whose removal fails is forgotten and stays in the kernel map until it is wanted again.
- `SharedMapper.AlwaysCurrentIff`: each cgroup line is looked up under its own lock, so an answer may mix two indices if the lines name two pods; `SharedMapper.LateStore`: an answer found before the index changed may be cached after it.
- `NodePolicy.EqualRootsIff`: a service that never received a command has no root at all, while one whose policies were deleted has the root of no leaves, so the two differ although both hold nothing.

## Model

| member | source | states |
|---|---|---|
| `Vectors.SquaredDistance` | api/manager/rest/classifier_engine.go:427-434 | the loop returns the sum of the six squared feature differences |
| `KMeans.FindNearest` | api/manager/rest/classifier_engine.go:308-322 | the index returned is the lowest one among the centres at least distance (strict comparison keeps the first) |
| `KMeans.NearestUnique` | api/manager/rest/classifier_engine.go:340-348 | that index is unique, so the scan has exactly one possible answer |
| `KMeans.AssignIsOptimalTo` | api/manager/rest/classifier_engine.go:339-353 | assigning every point to its nearest centre costs no more than any other assignment |
| `KMeans.MeanIsOptimal` | api/manager/rest/classifier_engine.go:359-375 | for any cluster and any candidate centre, the mean of the members costs no more than the candidate |
| `KMeans.RoundLowersInertia` | api/manager/rest/classifier_engine.go:337-376 | one assign-then-recompute round never raises the total squared distance, empty clusters included |
| `KMeans.LloydLowersInertia` | api/manager/rest/classifier_engine.go:337-376 | any number of rounds from any centres never ends with a higher total than it started with |
| `KMeans.LloydFixedPoint` | api/manager/rest/classifier_engine.go:355-357 | leaving the loop early means every point sits with its nearest centre and every non-empty cluster is centred on its mean |
| `KMeans.FixedPointIsStable` | api/manager/rest/classifier_engine.go:337-376 | at such a fixed point another round changes neither assignment nor centres |
| `KMeans.ClusteredIsSound` | api/manager/rest/classifier_engine.go:324-378 | for all data, k and iteration counts the result costs no more than the seeding; an early exit is a fixed point |
| `KMeans.Reassign` | api/manager/rest/classifier_engine.go:338-353 | the assignment loop computes the nearest centre of every point and reports whether any changed |
| `KMeans.AddMembers` | api/manager/rest/classifier_engine.go:359-367 | the accumulation loop computes size and coordinate sums of every cluster |
| `KMeans.MoveCenters` | api/manager/rest/classifier_engine.go:359-375 | non-empty clusters move to their mean, empty ones stay |
| `KMeans.Run` | api/manager/rest/classifier_engine.go:324-378 | the whole loop returns what the recursive definition says, empty data and non-positive k included, at no higher cost than its seeds |
| `Ewma.MeanClosedForm` | api/manager/rest/classifier_engine.go:118-141 | the incremental mean of any sample sequence is the explicit weighted sum, the first sample keeping the remaining weight |
| `Ewma.VarClosedForm` | api/manager/rest/classifier_engine.go:118-141 | the incremental variance is the weighted second moment minus the squared mean plus the decayed 1e-6 seed |
| `Ewma.WeightsSumToOne` | api/manager/rest/classifier_engine.go:118-141 | those weights add up to one for every length |
| `Ewma.MeanInHull` | api/manager/rest/classifier_engine.go:118-141 | the mean never leaves any interval that contains the samples |
| `Ewma.VarAtLeastSeed` | api/manager/rest/classifier_engine.go:118-141 | the variance is at least the decayed seed, hence strictly positive |
| `Ewma.SecondMomentDominates` | api/manager/rest/classifier_engine.go:118-141 | the weighted second moment is at least the square of the weighted mean |
| `Ewma.UpdatedSummarises` | api/manager/rest/classifier_engine.go:118-141 | each update keeps both estimators equal, feature by feature, to their definition over the whole history |
| `Ewma.UpdateAllSummarises` | api/manager/rest/classifier_engine.go:118-141 | after any history, from a fresh estimator, both estimators are their definition over that history |
| `Ewma.EveryHistoryHasClosedForm` | api/manager/rest/classifier_engine.go:118-141 | after any history each mean and variance has its closed form and every variance is positive |
| `Ewma.EveryHistoryIsSound` | api/manager/rest/classifier_engine.go:107-116 | after any history no normalisation or drift score divides by zero |
| `Ewma.DriftZeroIff` | api/manager/rest/classifier_engine.go:155-164 | the drift score is non-negative and zero iff short and long means agree on every feature |
| `Ewma.EwmaState.Normalize` | api/manager/rest/classifier_engine.go:107-116 | the loop returns the z-scores against the long-term estimate, or the sample itself before the first update |
| `Ewma.EwmaState.Update` | api/manager/rest/classifier_engine.go:118-141 | in place, the object moves to the updated estimator, each variance stepped with the mean before it moved |
| `Ewma.EwmaState.DriftScore` | api/manager/rest/classifier_engine.go:155-164 | the loop returns the average gap between short and long means in long-term standard deviations |
| `TieredBuffer.WeightedMean` | api/manager/rest/classifier_engine.go:217-237 | the first loop returns the count-weighted mean, the total count and the latest timestamp |
| `TieredBuffer.Summarize` | api/manager/rest/classifier_engine.go:217-249 | the two loops return the mean and deviation summary, the zero summary for no items |
| `TieredBuffer.AppendKeepsLast` | api/manager/rest/classifier_engine.go:208-215 | appending with a bound keeps exactly the most recent items |
| `TieredBuffer.PushedHolds` | api/manager/rest/classifier_engine.go:183-206 | every push keeps all tiers and pending buffers equal to the block summaries of the whole history |
| `TieredBuffer.PushAllHolds` | api/manager/rest/classifier_engine.go:183-206 | after any pushes, from an empty buffer, all tiers and pending buffers are the block summaries of the history |
| `TieredBuffer.PendingIsMixedRadix` | api/manager/rest/classifier_engine.go:183-206 | after n pushes the pending sizes are n mod 2, n/2 mod 5, n/10 mod 6, and each tier holds its bounded number of blocks |
| `TieredBuffer.SummaryOfBlocks` | api/manager/rest/classifier_engine.go:217-249 | summarising consecutive exact blocks gives the exact average and count of the merged block |
| `TieredBuffer.LevelsAreExactBlocks` | api/manager/rest/classifier_engine.go:183-249 | every summary of the three levels carries count 2, 10 or 60 and the exact mean of those consecutive raw samples |
| `TieredBuffer.TiersAreRecentBlocks` | api/manager/rest/classifier_engine.go:183-215 | after any pushes position i of a bounded tier is the exact block that far from the end of the history |
| `TieredBuffer.Buffer.Push` | api/manager/rest/classifier_engine.go:183-206 | in place, one push moves the buffer to the pushed value, cascading through the three tiers |
| `Clustering.SemanticsPartition` | api/manager/rest/classifier_engine.go:380-425 | for any non-empty centres each of the six semantic tags is on exactly one cluster and no cluster is untagged |
| `Clustering.SemanticTagIff` | api/manager/rest/classifier_engine.go:380-425 | a cluster carries a tag iff its centre is the first largest in that tag's feature |
| `Clustering.FindMax` | api/manager/rest/classifier_engine.go:386-397 | the scan returns the first index of the largest value of a feature |
| `Clustering.ClusterTags` | api/manager/rest/classifier_engine.go:399-423 | the tags of one cluster are those it leads, without repeats, or balanced alone |
| `Clustering.InferSemantics` | api/manager/rest/classifier_engine.go:380-425 | the loops build exactly that map, empty for no centres |
| `Clustering.PartialFitKeepsOk` | api/manager/rest/classifier_engine.go:267-286 | adding a sample keeps the model sound, never changes the number of centres and bounds the sample buffer |
| `Clustering.RelabelKeepsOk` | api/manager/rest/classifier_engine.go:288-306 | relabelling keeps the model sound, never loses a centre, and fits any model with two samples |
| `Clustering.ClusteringModel.Predict` | api/manager/rest/classifier_engine.go:308-322 | returns the nearest centre, or -1 before fitting |
| `Clustering.ClusteringModel.PartialFit` | api/manager/rest/classifier_engine.go:267-286 | in place, buffers the sample and moves the nearest centre of a fitted model a twentieth of the way towards it |
| `Clustering.ClusteringModel.SnapshotAndRelabel` | api/manager/rest/classifier_engine.go:288-306 | in place, recomputes centres and tags from the buffered samples |
| `PodClassifier.FeaturesInRange` | api/manager/rest/classifier_engine.go:851-865 | for all metrics every feature is non-negative and the two shares stay within [0, 1] |
| `PodClassifier.ProfileIsProper` | api/manager/rest/classifier_engine.go:537-583 | the profile is the cluster tags plus every exceeded threshold; balanced appears iff nothing else does, and nothing repeats |
| `PodClassifier.ApplyProfileTags` | api/manager/rest/classifier_engine.go:537-564 | the step-by-step tagging computes that profile |
| `PodClassifier.Filter` | api/manager/rest/classifier_engine.go:575-583 | the loop removes exactly one tag and keeps the order |
| `PodClassifier.UpdateKeepsOk` | api/manager/rest/classifier_engine.go:469-535 | one sample of one pod keeps that pod and the shared model sound |
| `PodClassifier.PhaseLaws` | api/manager/rest/classifier_engine.go:469-535 | over every run the phase is cold_start below 10 samples, warming_up below 30, neither after; driftConfirmed is below 3 and positive iff drifting |
| `PodClassifier.DriftCounts` | api/manager/rest/classifier_engine.go:507-529 | each drifting sample raises the drift counter by one and a transition needs the counter at two |
| `PodClassifier.TransitionIsPreceded` | api/manager/rest/classifier_engine.go:509-526 | every transitioning sample directly follows two drifting ones, so none comes before sample 32 |
| `PodClassifier.ConstantPodIsStable` | api/manager/rest/classifier_engine.go:469-535 | a pod with constant features is stable from its 30th sample on, whatever other pods do to the model |
| `PodClassifier.NextKeepsOk` | api/manager/rest/classifier_engine.go:699-757 | a sample of any pod, or an eviction, keeps every pod and the model sound |
| `PodClassifier.EveryRunIsSound` | api/manager/rest/classifier_engine.go:699-757 | over every interleaving of pods: cluster IDs stay in [-1, centres), centres never shrink, tags partition, pods past 30 samples see a fitted model |
| `PodClassifier.PodsFollowTheAutomaton` | api/manager/rest/classifier_engine.go:699-717 | a pod inside the shared system is exactly the automaton run on its own samples since its last eviction |
| `PodClassifier.PodRemembersItsSamples` | api/manager/rest/classifier_engine.go:469-476 | a pod's estimator and buffer are folds over its own samples, whatever the shared model does |
| `PodClassifier.EveryPodHoldsItsHistory` | api/manager/rest/classifier_engine.go:699-717 | in every reachable state every pod has closed-form means and variances, a mixed-radix pending counter and tiers of recent exact blocks of its own samples |
| `PodClassifier.SelectSurvivors` | api/manager/rest/classifier_engine.go:726-757 | drops every expired pod, then the oldest beyond the limit, and nothing else |
| `PodClassifier.PodState.constructor` | api/manager/rest/classifier_engine.go:457-467 | a new pod is in cold_start, collecting, with no cluster |
| `PodClassifier.PodState.Transition` | api/manager/rest/classifier_engine.go:511-522 | in place, remembers the old cluster and its tags, relabels, reclassifies and clears the drift counter |
| `PodClassifier.PodState.Decide` | api/manager/rest/classifier_engine.go:503-535 | in place, the stable-or-later branch moves pod and model to their specified values |
| `PodClassifier.PodState.Update` | api/manager/rest/classifier_engine.go:469-535 | in place, one sample moves pod, estimator, buffer and shared model to their specified values |
| `PodClassifier.AdaptiveClassifier.CleanupLocked` | api/manager/rest/classifier_engine.go:726-757 | in place, keeps exactly the survivors and leaves them and the model untouched |
| `PodClassifier.AdaptiveClassifier.Sample` | api/manager/rest/classifier_engine.go:708-716 | in place, one sample changes one pod and the model and no other pod |
| `PodClassifier.AdaptiveClassifier.Ingest` | api/manager/rest/classifier_engine.go:699-717 | in place, evicts exactly by the survivor rule, then samples, with a non-positive timestamp replaced by the current time |
| `Supervisor.StepKeepsInv` | internal/daemon/daemon.go:62-151 | every step of handlers, supervisor and children keeps: no lost restart, at most one child, child started from the resolved file |
| `Supervisor.ReachableIsSound` | internal/daemon/http_adapter.go:57-110 | hence in every reachable interleaving a settled supervisor with a newer file has a pending token or a handler between write and send |
| `Supervisor.QuiescentIsUpToDate` | internal/daemon/daemon.go:71-151 | with no request in flight and no token, a settled supervisor has resolved the current file and its child runs from it |
| `Supervisor.PendingTokenIsNeverStuck` | internal/daemon/daemon.go:71-166 | with a token pending the supervisor always has a step or waits only for its child to exit |
| `Supervisor.EveryStepApproachesTheFile` | internal/daemon/daemon.go:71-166 | every supervisor step reads the current file, ends the daemon, or strictly lowers the number of steps until the next read |
| `Supervisor.FiveStepsReadTheFile` | internal/daemon/daemon.go:71-166 | from any reachable state every continuation with five supervisor steps that does not end the daemon reads the file, at a version no older than the one there was |
| `ConfigCache.StepKeepsInv` | internal/daemon/state.go:25-69 | every step of readers and writers keeps each cached entry tied to versions of the file |
| `ConfigCache.ReadsAreCurrent` | internal/daemon/state.go:25-69 | under any interleaving whose mtimes tell the contents, repeated mtimes included, every finished read, cache hit or not, answers with contents current during the call |
| `ConfigCache.FreshReadsAreCurrent` | internal/daemon/state.go:25-69 | in particular when every write gets an mtime of its own |
| `ConfigCache.AlwaysCurrentIff` | internal/daemon/state.go:25-69 | all runs over a history of the file have only current answers iff between and at two versions with the same mtime the contents never differ |
| `ConfigCache.MixedHit` | internal/daemon/state.go:36-66 | the run behind it: an entry stamped before one write and loaded after it is hit by a whole later call once the mtime returns |
| `ConfigCache.MatchIsCurrent` | internal/daemon/state.go:36-43 | an entry whose mtime matches the file was loaded from the current contents |
| `ConfigCache.ReusedMtimeIsStale` | internal/daemon/daemon.go:385-416 | for instance in any state with a filled cache, a write of other contents under the cached mtime makes the very next read stale |
| `RuntimeConfig.RoundTripIff` | internal/config/config.go:18-123 | write-then-load returns the same configuration iff no omitempty key with a non-zero default holds zero; the loaded result always survives |
| `RuntimeConfig.RoundTripKeeps` | internal/config/config.go:18-123 | whatever is lost, a write and a load change nothing but those keys |
| `RuntimeConfig.DiffersIff` | internal/daemon/daemon.go:260-268 | comparing nine fields decides whether the whole configuration changed |
| `RuntimeConfig.OverrideScheduler` | internal/daemon/daemon.go:216-247 | the field-by-field overrides compute the requested scheduler settings |
| `RuntimeConfig.ApplyToFile` | internal/daemon/daemon.go:188-278 | the handler's steps compute the specified outcome and file, rejected and failed writes included |
| `RuntimeConfig.RuntimeFileIsLossless` | internal/daemon/daemon.go:173-186 | after initialisation and any updates the runtime file loads to a configuration that survives writing |
| `RuntimeConfig.ReapplyIff` | internal/daemon/daemon.go:188-278 | over all runs, applying an accepted request again reports unchanged iff it does not turn the watchdog off; otherwise it writes the same file every time |
| `RuntimeConfig.WatchdogReverts` | internal/config/config.go:24-24 | turning the watchdog off is always a change and is undone by the write that stores it |
| `RuntimeConfig.RuntimeFileIsValidIff` | internal/daemon/daemon.go:188-278 | over all runs the file's scheduler settings are valid iff the bootstrap's were or some update has been written |
| `RuntimeConfig.RestartFailsIff` | internal/daemon/daemon.go:288-350 | an accepted update leads to a restart that fails outright iff the scheduler it asks for on top of the file is a padded scx mode with a missing binary |
| `RuntimeConfig.PaddedModeFails` | internal/daemon/daemon.go:248-255 | a concrete padded request is accepted by every file and then fails |
| `RuntimeConfig.ControlApi.constructor` | internal/daemon/daemon.go:62-65 | starts from the bootstrap file written once, with nothing applied |
| `RuntimeConfig.ControlApi.HandleRuntimeConfig` | internal/daemon/http_adapter.go:57-110 | in place, one request at a time, refuses an empty version, ignores a repeated one before looking at the body, else applies and remembers the version unless that failed |
| `RuntimeConfig.ForwardOutcome` | internal/daemon/http_adapter.go:74-104 | what the Decision Maker lets through is ignored iff the version repeats, rejected iff it is new and the scheduler cannot be run, and takes effect otherwise |
| `RuntimeConfig.ForwardSets` | api/decisionmaker/domain/runtime_config.go:15-69 | with a new version and a scheduler that can be run, mode and monitoring end exactly as asked, slices and name when given, flags old-or-requested, watchdog on, and every other setting unchanged |
| `RuntimeConfig.ForwardNeverFails` | api/decisionmaker/service/service.go:524-552 | no request that takes effect on that path leads to a restart that fails outright |
| `RuntimeConfig.EndsAsAskedIff` | api/decisionmaker/service/service.go:524-552 | the exact condition, on file, version and request beforehand, for the file to end as asked |
| `RuntimeConfig.RepeatedVersionIsIgnored` | internal/daemon/http_adapter.go:79-85 | a second request under the version just applied changes nothing, whatever it asks for |
| `RuntimeConfig.IgnoredRequestKeepsMode` | internal/daemon/http_adapter.go:79-85 | for instance turning the scheduler off under the version that turned it on leaves it on |
| `ConfigHandlers.OneAtATimeIsSerial` | internal/daemon/http_adapter.go:57-110 | over every run in which no request begins while another is in flight, file and recorded version are at each point what serving the answered requests in order gives |
| `ConfigHandlers.IdleFileIsOfVersion` | internal/daemon/http_adapter.go:57-110 | hence an idle daemon's file is what the request of its configVersion made of the file its predecessors left, and no later request took effect |
| `ConfigHandlers.OverlapLeaves` | internal/daemon/daemon.go:188-278 | two requests that both load before either renames, and record in the other order, both succeed and leave the second's file under the first's version |
| `ConfigHandlers.OverlapIsHarmlessIff` | internal/daemon/daemon.go:188-278 | that run ends as one of the two serial orders would iff the first request asks for nothing the second did not leave |
| `ConfigHandlers.LostUpdate` | internal/daemon/http_adapter.go:79-97 | for instance one request turns the scheduler on and one off: the daemon records the version of on, the file says off, and sending on again is ignored |
| `SchedMonitor.GapsTelescope` | monitor/bpf/sched_monitor.bpf.c:156-210 | running, waiting and lost gaps of any ordered history are non-negative and add up to its span |
| `SchedMonitor.TimesAreGaps` | monitor/bpf/sched_monitor.bpf.c:156-210 | an entry's CPU and wait times are exactly its running and waiting gaps; the 64-bit sums never wrap |
| `SchedMonitor.TimeIsConserved` | monitor/bpf/sched_monitor.bpf.c:156-210 | their sum is at most the span, and equals it iff no two neighbours of one kind are at different times |
| `SchedMonitor.StrictTimeIsConservedIff` | monitor/bpf/sched_monitor.bpf.c:156-210 | with strictly increasing times it equals the span iff switch-ins and switch-outs alternate |
| `SchedMonitor.EqualTimesNeedNotAlternate` | monitor/bpf/sched_monitor.bpf.c:199-205 | with equal times allowed alternation is not necessary |
| `SchedMonitor.MovesNeedRuns` | monitor/bpf/sched_monitor.bpf.c:207-210 | a history has fewer CPU moves than switch-ins |
| `SchedMonitor.CountersAreCounts` | monitor/bpf/sched_monitor.bpf.c:106-228 | all counters are the counts of the history in the width of their fields |
| `SchedMonitor.MigrationsBalance` | monitor/bpf/sched_monitor.bpf.c:106-128 | migrations equal smt plus l3 plus numa, modulo 2^32, for every history |
| `SchedMonitor.MigrationsBelowRuns` | monitor/bpf/sched_monitor.bpf.c:207-210 | migrations are at most the larger of run_count - 1 and 0 |
| `SchedMonitor.EntriesAreHistories` | monitor/bpf/sched_monitor.bpf.c:80-257 | in every run with arbitrary filter and topology changes an entry exists iff its history since the last seen exit is non-empty, and is its replay |
| `SchedMonitor.EveryRunConservesTime` | monitor/bpf/sched_monitor.bpf.c:141-257 | in every run with a positive non-decreasing clock each entry's times stay within its span, with the exact equality condition |
| `SchedMonitor.EveryStrictRunConservesTimeIff` | monitor/bpf/sched_monitor.bpf.c:141-257 | in every run in which a task's events come at strictly increasing times, its times fill its span iff switch-ins and switch-outs alternate |
| `SchedMonitor.EveryRunCounts` | monitor/bpf/sched_monitor.bpf.c:80-257 | in every run each entry's counters are its counts and its migrations balance and stay below its runs |
| `SchedMonitor.MapStaysBounded` | monitor/bpf/sched_monitor.bpf.c:91-104 | the map never outgrows its 65536 entries |
| `SchedMonitor.Monitor.GetOrInit` | monitor/bpf/sched_monitor.bpf.c:91-104 | finds the entry or creates it zeroed, failing iff the map is full |
| `SchedMonitor.Monitor.HandleSwitchOut` | monitor/bpf/sched_monitor.bpf.c:156-193 | in place, the switch-out half moves the map to its specified value; pid 0 and unmonitored tasks change nothing |
| `SchedMonitor.Monitor.HandleSwitchIn` | monitor/bpf/sched_monitor.bpf.c:196-226 | in place, the switch-in half moves the map to its specified value, classifying a CPU change |
| `SchedMonitor.Monitor.HandleSwitch` | monitor/bpf/sched_monitor.bpf.c:141-228 | in place, a context switch is the switch-out followed by the switch-in at one time |
| `SchedMonitor.Monitor.HandleExit` | monitor/bpf/sched_monitor.bpf.c:231-257 | in place, a monitored exit removes exactly that task's entry |
| `Collector.TotalOfLast` | monitor/collector/collector.go:284-293 | wrapped totals over a set do not depend on the order of addition |
| `Collector.TotalOfUnion` | monitor/collector/collector.go:284-293 | the total of disjoint sets is the sum of their totals |
| `Collector.AggregateStep` | monitor/collector/collector.go:269-294 | adding one more task keeps the partial aggregation exact |
| `Collector.Aggregate` | monitor/collector/collector.go:267-294 | in any iteration order the loop aggregates exactly the entries that map to a pod: totals, process counts and pod identity |
| `Collector.Collector.Poll` | monitor/collector/collector.go:230-301 | in place, a poll publishes the exact aggregation of the entries it could read |
| `Collector.PollConserves` | monitor/collector/collector.go:267-294 | all pods together hold the counters of all mapped tasks |
| `Collector.EveryPodBalances` | monitor/collector/collector.go:267-294 | after any run of the kernel hooks every pod's migrations are the sum of its levels |
| `Collector.PollIsDeterministic` | monitor/collector/collector.go:267-294 | when a UID names one pod, any two iteration orders publish the same metrics |
| `PodMapper.ExtractsFromPath` | monitor/collector/pod_mapper.go:170-180 | any UID without slash or underscore is recovered from the cgroupfs spelling when no pod marker precedes it |
| `PodMapper.ExtractsFromSlice` | monitor/collector/pod_mapper.go:182-194 | and from the systemd spelling when no earlier marker, no path marker and no slice suffix interferes |
| `PodMapper.NextIsCoherent` | monitor/collector/pod_mapper.go:59-116 | each atomic call keeps every cached answer equal to its resolution |
| `PodMapper.CacheAgrees` | monitor/collector/pod_mapper.go:59-160 | after any calls the answer for every process is its uncached resolution under the index set last |
| `PodMapper.ScanIsComplete` | monitor/collector/pod_mapper.go:88-116 | after a successful scan the cache holds exactly the processes that resolve |
| `PodMapper.Mapper.SetIndex` | monitor/collector/pod_mapper.go:59-65 | in place, replaces the index and empties the cache |
| `PodMapper.Mapper.ResolvePid` | monitor/collector/pod_mapper.go:136-160 | the loop returns the pod of the first line whose UID is known |
| `PodMapper.Mapper.Get` | monitor/collector/pod_mapper.go:68-84 | in place, answers from the cache or resolves and stores; in a coherent state the answer is the resolution |
| `PodMapper.Mapper.Scan` | monitor/collector/pod_mapper.go:88-116 | in place, rebuilds the cache from /proc, or changes nothing when listing fails |
| `SharedMapper.StepKeepsInv` | monitor/collector/pod_mapper.go:59-160 | every step of concurrent lookups, scans and index changes keeps each found pod tied to a line and to an index version of its call |
| `SharedMapper.AnswersWereCurrent` | monitor/collector/pod_mapper.go:59-160 | in every interleaving, for a process whose cgroup names one pod, every answer, cached or not, is the resolution under an index current during the call that resolved it |
| `SharedMapper.AlwaysCurrentIff` | monitor/collector/pod_mapper.go:136-160 | that holds in all interleavings iff the cgroup lines of the process name one pod |
| `SharedMapper.MixedLookup` | monitor/collector/pod_mapper.go:145-158 | with two names a lookup, whose lines are each read under their own lock, answers what neither index says |
| `SharedMapper.LateStore` | monitor/collector/pod_mapper.go:68-84 | a run in which the index changes between finding and storing: the next hit agrees with the current index iff that index resolves the process the same way |
| `SharedMapper.StaleHit` | monitor/collector/pod_mapper.go:68-84 | for instance the hit answers a pod after the index was emptied |
| `SharedMapper.GuardedIsCoherent` | monitor/collector/pod_mapper.go:59-160 | if the index only changes while no call is between its first look and its store, the cache is always the resolution under the current index |
| `Watcher.MatchesPod` | monitor/crdwatcher/watcher.go:213-245 | the loops decide namespace membership and every keyed label selector |
| `Watcher.GatherPods` | monitor/crdwatcher/watcher.go:161-173 | the loops collect exactly the known pods that some enabled spec selects |
| `Watcher.ShadowStaysInKernel` | monitor/crdwatcher/watcher.go:175-208 | whatever calls fail, the shadow set stays within the kernel map |
| `Watcher.CleanReconcile` | monitor/crdwatcher/watcher.go:151-210 | without failures the shadow becomes the wanted set, the kernel map that plus earlier leaks; exact when nothing leaked; repeating changes nothing |
| `Watcher.WantedIff` | monitor/crdwatcher/watcher.go:175-184 | the wanted processes are the mapped ones of pods some enabled spec selects |
| `Watcher.LeakAfter` | monitor/crdwatcher/watcher.go:198-208 | the exact set of processes left in the kernel map unknown to the watcher: only failed removals of vanished ones add to it |
| `Watcher.LeakPersists` | monitor/crdwatcher/watcher.go:198-208 | a leaked process is never removed by a later reconciliation that does not want it |
| `Watcher.LeakedIff` | monitor/crdwatcher/watcher.go:120-210 | over every run a process is in the kernel map unknown to the watcher iff a failed removal leaked it and no later step added it back |
| `Watcher.ShadowIsExactIff` | monitor/crdwatcher/watcher.go:120-210 | the two sets are equal after a run iff every leaked process has been recovered since |
| `Watcher.LeakingRun` | monitor/crdwatcher/watcher.go:198-208 | a concrete run that leaks |
| `Watcher.EveryRunIsSound` | monitor/crdwatcher/watcher.go:120-210 | over every run of spec events, ticks and failures the shadow stays within the kernel map |
| `Watcher.ShadowIsExact` | monitor/crdwatcher/watcher.go:120-210 | if no removal ever failed the two sets are equal throughout, whatever additions failed |
| `Watcher.RunConvergesIff` | monitor/crdwatcher/watcher.go:120-210 | after any run one clean reconciliation makes both exactly the wanted processes iff it wants all leaked ones |
| `Watcher.CrdWatcher.AddMonitoredPid` | monitor/collector/collector.go:121-127 | in place, adds the process or changes nothing on failure |
| `Watcher.CrdWatcher.RemoveMonitoredPid` | monitor/collector/collector.go:132-140 | in place, removes the process if present; absence is success |
| `Watcher.CrdWatcher.SyncMapped` | monitor/crdwatcher/watcher.go:175-197 | in place, the first loop adds and removes exactly what it should in any order |
| `Watcher.CrdWatcher.DropVanished` | monitor/crdwatcher/watcher.go:198-208 | in place, the second loop forgets every vanished process, removed or not |
| `Watcher.CrdWatcher.ReconcilePids` | monitor/crdwatcher/watcher.go:151-210 | in place, one reconciliation moves both sets to their specified values |
| `Watcher.CrdWatcher.HandleEvent` | monitor/crdwatcher/watcher.go:120-147 | in place, an event updates the specs and reconciles; a malformed one changes nothing |
| `Merkle.RootKeepsLeaves` | api/pkg/util/merkle.go:23-52 | the root commits to exactly the set of leaf texts, whatever the shape of the tree |
| `Merkle.RepeatedLastLeaf` | api/pkg/util/merkle.go:33-49 | equal roots do not mean equal lists: an odd last leaf is paired with itself |
| `Merkle.EqualRootsEqualListsIff` | api/pkg/util/merkle.go:23-52 | lists with equal roots are equal iff they have the same length |
| `Merkle.LevelAt` | api/pkg/util/merkle.go:35-47 | the k-th node of a level pairs nodes 2k and 2k+1, or 2k with itself |
| `Merkle.NextLevel` | api/pkg/util/merkle.go:34-48 | the loop builds exactly the next level |
| `Merkle.BuildMerkleTree` | api/pkg/util/merkle.go:23-52 | the tree's root hash is the recursive definition, the hash of the empty text for no leaves |
| `NodePolicy.SortKeyIsInjective` | api/decisionmaker/service/node_policy_svc.go:187-195 | among policies whose IDs have no separator the key determines the policy, even if the regex has separators |
| `NodePolicy.SortKeyIsUniqueIff` | api/decisionmaker/service/node_policy_svc.go:187-195 | no other policy at all shares the key iff the separator is in none of the three text fields |
| `NodePolicy.SerializedIsInjective` | api/decisionmaker/service/node_policy_svc.go:197-206 | among such policies the hashed text determines the policy |
| `NodePolicy.PlainPoliciesDecide` | api/decisionmaker/service/node_policy_svc.go:187-206 | so in any list of such policies different ones have different keys and different hashed texts |
| `NodePolicy.SortIsUnique` | api/decisionmaker/service/node_policy_svc.go:178-185 | policies with different keys have one canonical order, whatever sort and whatever push order |
| `NodePolicy.ClashSortsBothWays` | api/decisionmaker/service/node_policy_svc.go:178-185 | policies with equal keys can be returned in either order |
| `NodePolicy.WinnerIsGreatest` | api/decisionmaker/service/node_policy_svc.go:68-95 | the last matching policy in order is the matching one with the greatest key |
| `NodePolicy.SameWinner` | api/decisionmaker/service/node_policy_svc.go:68-95 | two sorted lists of the same policies, repeats aside, give every thread the same policy if keys tell policies apart |
| `NodePolicy.ResolutionIsCanonical` | api/decisionmaker/service/node_policy_svc.go:51-110 | then resolution depends on the set of policies alone |
| `NodePolicy.EqualRootsEqualSets` | api/decisionmaker/service/node_policy_svc.go:143-156 | equal roots mean equal sets of policies if hashed texts tell them apart |
| `NodePolicy.RootAlwaysMatches` | api/decisionmaker/service/node_policy_svc.go:21-42 | after any pushes and deletes the stored root is that of the stored cache |
| `NodePolicy.EqualRootsResolveAlike` | api/decisionmaker/service/node_policy_svc.go:44-110 | after any two runs, services with equal roots resolve every task snapshot to the same list, if in their caches no two different policies share a key or a hashed text |
| `NodePolicy.EqualRootsEqualPolicies` | api/decisionmaker/service/node_policy_svc.go:44-50 | after any two runs, services with equal roots hold the same policies, repeats aside, if hashed texts tell them apart |
| `NodePolicy.PermutedCachesHaveEqualRoots` | api/decisionmaker/service/node_policy_svc.go:21-42 | caches that are permutations of each other and whose keys differ have equal roots, once there is a root |
| `NodePolicy.EqualRootsIff` | api/decisionmaker/service/node_policy_svc.go:21-42 | after any two runs, services whose caches are such permutations have equal roots iff both or neither have received a command |
| `NodePolicy.SameKeySameNumbers` | api/decisionmaker/service/node_policy_svc.go:187-195 | policies with the same key have the same priority and execution time |
| `PolicyTable.OrdersAlikeIff` | api/decisionmaker/service/node_policy_svc.go:68-110 | two orders of policies resolve every snapshot under every regex engine alike iff their tables are equal: rows with a pattern, each pattern where it occurs last, with priority and 64-bit time |
| `PolicyTable.IntentFromTable` | api/decisionmaker/service/node_policy_svc.go:68-95 | the intent of every thread is that of the last table row whose pattern matches it |
| `PolicyTable.EqualByPicks` | api/decisionmaker/service/node_policy_svc.go:68-95 | tables that pick the same row for any two patterns are equal, so engines that match two patterns tell all tables apart |
| `PolicyTable.ResolveAlikeIff` | api/decisionmaker/service/node_policy_svc.go:51-110 | two services, whatever they hold, resolve every snapshot alike iff every sort of the one cache has the table of every sort of the other |
| `PolicyTable.SamePoliciesResolveAlikeIff` | api/decisionmaker/service/node_policy_svc.go:51-110 | services that hold the same policies, repeats aside, resolve alike iff nothing is contested: no two policies with one key, different non-empty patterns and no greater key for either pattern |
| `PolicyTable.ResolvesOneWayIff` | api/decisionmaker/service/node_policy_svc.go:51-110 | so a service resolves the same way each time iff nothing in its cache is contested |
| `PolicyTable.EqualRootsResolveAlikeIff` | api/decisionmaker/service/node_policy_svc.go:44-110 | after any two runs, services with equal roots and policies told apart by text resolve alike iff nothing is contested; if keys differ nothing is |
| `PolicyTable.OneRootIff` | api/decisionmaker/service/node_policy_svc.go:143-185 | the root is the same for every sort of a cache iff its policies with the same key have the same hashed text |
| `PolicyTable.SameKeys` | api/decisionmaker/service/node_policy_svc.go:178-185 | all sorts of the same policies have the same keys in the same places |
| `NodePolicy.DeleteAfterPush` | api/decisionmaker/service/node_policy_svc.go:113-128 | deleting an ID after a push leaves the cache and root of pushing the filtered list |
| `PolicyHash.SameTextIff` | api/decisionmaker/service/node_policy_svc.go:197-206 | two policies have the same hashed text iff their numbers agree and their string fields, joined by the labels, read the same |
| `PolicyHash.SerializedIsUniqueIff` | api/decisionmaker/service/node_policy_svc.go:197-206 | no other policy has the same hashed text iff no label hides in a field where it could end that field |
| `PolicyHash.IllegibleHasTwin` | api/decisionmaker/service/node_policy_svc.go:197-206 | otherwise another policy with the same hashed text exists |
| `PolicyHash.HiddenPattern` | api/decisionmaker/service/node_policy_svc.go:197-206 | a regex label inside a node ID gives two policies with the same hash and different patterns |
| `PolicyHash.DriftGoesUnseen` | api/decisionmaker/service/node_policy_svc.go:21-110 | two services each sent one of two policies with the same hash report equal roots, and resolve every snapshot alike iff the patterns are equal |
| `PolicyHash.KeyClashIsHarmlessIff` | api/decisionmaker/service/node_policy_svc.go:51-110 | a service holding two policies with the same key resolves the same way every time iff their order cannot matter: equal patterns, or one empty |
| `PolicyHash.AfterPushOfTwo` | api/decisionmaker/service/node_policy_svc.go:21-42 | that service is reached by one push |
| `NodePolicy.SortByKey` | api/decisionmaker/service/node_policy_svc.go:178-185 | returns a sorted permutation |
| `NodePolicy.MatchTasks` | api/decisionmaker/service/node_policy_svc.go:78-94 | the inner loop gives every matched thread the policy's intent and leaves the others alone |
| `NodePolicy.MatchPolicies` | api/decisionmaker/service/node_policy_svc.go:68-95 | the outer loop maps every thread to the intent of the last policy that applies, skipping empty and uncompilable patterns |
| `NodePolicy.Resolve` | api/decisionmaker/service/node_policy_svc.go:68-110 | the result lists exactly the threads with a winner, by strictly increasing thread ID |
| `NodePolicy.Service.ProcessNodePolicies` | api/decisionmaker/service/node_policy_svc.go:21-42 | in place, the cache is the non-nil policies in push order and the root matches it |
| `NodePolicy.Service.DeleteNodePolicyById` | api/decisionmaker/service/node_policy_svc.go:113-128 | in place, the cache loses exactly that ID and the root matches it |
| `NodePolicy.Service.DeleteAllNodePolicies` | api/decisionmaker/service/node_policy_svc.go:131-139 | in place, the cache is empty and the root is that of no leaves |
| `NodePolicy.Service.ResolveNodeSchedulingIntents` | api/decisionmaker/service/node_policy_svc.go:51-110 | fails iff there are policies and the snapshot fails; nothing for an empty cache or missing source; else the resolution of the sorted cache |
| `ObjectId.HexRoundTrip` | api/manager/repository/cr_strategy_repo.go:623-640 | every object ID is recovered from its hexadecimal text |
| `IntentStore.ResourceRoundTrip` | api/manager/repository/cr_strategy_repo.go:420-514 | what is stored under an intent's name reads back as that intent |
| `IntentStore.PassingIsSelected` | api/manager/repository/cr_strategy_repo.go:235-246 | the label selector never hides an intent that passes the filter |
| `IntentStore.LabelQueryIsExact` | api/manager/repository/cr_strategy_repo.go:209-262 | in a store whose labels agree with the specs, label selection plus filter is the brute-force filter |
| `IntentStore.StrategyLabelIsExact` | api/manager/repository/cr_strategy_repo.go:302-314 | selecting by strategy label finds exactly the intents of that strategy |
| `IntentStore.FailedInsertLeavesNothing` | api/manager/repository/cr_strategy_repo.go:42-102 | a failed insert whose rollback deletes succeed leaves the store exactly as it was iff the create that failed did not take effect; taken and repeated names included |
| `IntentStore.FailedRollbackLeavesOnlyItsOwn` | api/manager/repository/cr_strategy_repo.go:81-98 | whatever fails, earlier objects are untouched and what remains is this insert's undeleted objects and the one whose create erred after being stored |
| `IntentStore.LostCreateLeavesOrphan` | api/manager/repository/cr_strategy_repo.go:81-99 | an intent whose create erred after being stored is not rolled back: it alone stays, its strategy deleted |
| `IntentStore.InsertSucceedsIff` | api/manager/repository/cr_strategy_repo.go:42-102 | it succeeds iff no call fails and no name is taken or repeated; then the store gains exactly the strategy and the intents |
| `IntentStore.InsertedReadsBack` | api/manager/repository/cr_strategy_repo.go:69-80 | every inserted intent reads back as given, tagged with the strategy's ID |
| `IntentStore.WithStateIsFaithful` | api/manager/repository/cr_strategy_repo.go:143-157 | changing state and label together keeps labels and spec in agreement |
| `IntentStore.BatchUpdateIsSound` | api/manager/repository/cr_strategy_repo.go:127-163 | so does a batch update that stops at any call |
| `IntentStore.NextIsSound` | api/manager/repository/cr_strategy_repo.go:42-314 | every operation keeps labels and specs in agreement, whatever fails |
| `IntentStore.EveryRunIsSound` | api/manager/repository/cr_strategy_repo.go:42-314 | in every reachable store each resource's labels agree with its spec |
| `IntentStore.EveryQueryIsExact` | api/manager/repository/cr_strategy_repo.go:209-262 | in every reachable store the label-selected query answers what filtering everything would |
| `IntentStore.ListIntents` | api/manager/repository/cr_strategy_repo.go:235-261 | the list path returns each passing intent exactly once, in any list order |
| `IntentStore.FetchIntents` | api/manager/repository/cr_strategy_repo.go:214-233 | the by-ID path returns the found and passing intents in the order asked for, failing iff a get fails |
| `IntentStore.Repository.CreateIntents` | api/manager/repository/cr_strategy_repo.go:69-100 | in place, creates in order up to the first failure, which may have stored its object, and says how many creates succeeded |
| `IntentStore.Repository.Rollback` | api/manager/repository/cr_strategy_repo.go:82-88 | in place, removes what was created as far as deletes succeed |
| `IntentStore.Repository.InsertAll` | api/manager/repository/cr_strategy_repo.go:58-101 | in place, strategy, intents and rollback give the specified store and outcome |
| `IntentStore.Repository.InsertStrategyAndIntents` | api/manager/repository/cr_strategy_repo.go:42-102 | in place, stamps IDs and times and inserts; nil arguments are refused |
| `IntentStore.Repository.BatchUpdateIntentsState` | api/manager/repository/cr_strategy_repo.go:127-163 | in place, updates in order, skips missing intents, stops at the first failing call |
| `IntentStore.Repository.QueryIntents` | api/manager/repository/cr_strategy_repo.go:209-262 | dispatches between the two paths with their exact answers and error conditions |
| `IntentStore.Repository.DeleteIntentsByStrategyId` | api/manager/repository/cr_strategy_repo.go:302-314 | in place, removes only selected intents; succeeds iff the list call and the delete of every selected intent do, and then all are gone |

## Left out

- HTTP routing and encoding, authentication, the front end, command line, logging, metrics export: wiring without deep behaviour.
- The qumun core, the scheduler plugin and `internal/scheduler`: they depend on code that is not part of this model.
- MongoDB repositories, `cr_node_policy_repo.go`, `cr_psm_repo.go`: near copies of the intent store.
- Floating point: the classifier is modelled over reals, so rounding, NaN and infinities are not captured; the square root is any function that is non-negative with the right square.
- KMeans.FindNearest: the initial best distance (the largest float) is taken to be above every distance, so the first centre always replaces it.
- `Confidence`, `Recommendation`, `Get`, `List` of the classifier: read-only formatting that would only add easy members.
- PodClassifier.FeaturesInRange: the sum of L3 and NUMA migrations is not wrapped at 64 bits.
- PodClassifier.SelectSurvivors: pods with equal timestamps may be evicted in any order, as the source's sort allows.
- Supervisor.ReachableIsSound: process signals are reduced to "the child eventually exits"; error strings and the restart delay are not modelled.
- RuntimeConfig.ControlApi.HandleRuntimeConfig: serves one request at a time, and so do the lemmas about the Decision Maker's requests (RuntimeConfig.ForwardSets and its neighbours); overlapping requests are in ConfigHandlers.
- Supervisor.StepKeepsInv: reading the file and renaming the new one into place are one step, since only the file's stamp matters there; ConfigHandlers takes them apart.
- ConfigHandlers.OverlapIsHarmlessIff: is about the overlap of two requests that both load before either renames and record in the other order; about other overlaps only the step relation itself is given.
- RuntimeConfig.ApplyToFile: YAML syntax and its decoding errors are left out; a document is the set of keys it mentions, and values beyond the machine's integer width do not occur.
- SchedMonitor.EntriesAreHistories: hooks run one at a time; two CPUs updating one entry at the same moment are not modelled.
- SchedMonitor.CountersAreCounts: histories of 2^64 or more touches are excluded, because the run counter wraps there and the first-run test misfires.
- SchedMonitor.Monitor.HandleSwitch: the optional event stream through the ring buffer.
- Collector.Collector.Poll: malformed keys shorter than four bytes do not occur.
- PodMapper.CacheAgrees: calls are atomic; SharedMapper.GuardedIsCoherent and its neighbours cover interleaved ones. In both /proc does not change.
- Watcher.CleanReconcile: assumes every mapped process resolves, as it does when the index does not change during the call.
- Merkle.RootKeepsLeaves: SHA-256 is idealised as a free constructor, so collisions do not exist; searching and truncating trees is left out.
- NodePolicy.SortByKey: stands for the library sort; every use relies only on its contract, which allows any order of equal keys.
- IntentStore.EveryRunIsSound: resources written by other clients do not occur; the strategy queries and updates, which do not touch intents, are one command that may set the strategies freely.
- IntentStore.LabelQueryIsExact: label selectors are modelled by their meaning, not by their text.
- Pod intents of the Decision Maker, which are resolved in push order: a simpler variant of node policies.
