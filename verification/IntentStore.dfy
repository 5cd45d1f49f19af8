/**
 Strategies and intents kept as Kubernetes custom resources. An intent's labels repeat part of its spec so
 that list queries can be narrowed by the API server.
 */
module IntentStore {
  import opened Options
  import opened ObjectId
  import opened Text

  const CREATOR := "gthulhu.io/creator-id"
  const STRATEGY := "gthulhu.io/strategy-id"
  const STATE := "gthulhu.io/state"

  // ---------------------------------------------------------------- intents and their resources

  type StateCode = n: int | -128 <= n < 128

  datatype Payload = Payload(
    podName: string, nodeId: string, commandRegex: string, priority: int, executionTime: int,
    podLabels: map<string, string>)

  datatype Intent = Intent(
    id: Id, created: int, updated: int, creator: Id, updater: Id, strategy: Id, podId: string, namespace: string,
    state: StateCode, payload: Payload)

  datatype Spec = Spec(
    created: int, updated: int, creator: string, updater: string, strategy: string, podId: string, namespace: string,
    state: int, payload: Payload)

  datatype Resource = Resource(labels: map<string, string>, spec: Spec)

  function SpecOf(i: Intent): Spec
  {
    Spec(i.created, i.updated, Hex(i.creator), Hex(i.updater), Hex(i.strategy), i.podId, i.namespace, i.state,
         i.payload)
  }

  function LabelsOf(s: Spec): map<string, string>
  {
    map[CREATOR := s.creator, STRATEGY := s.strategy, STATE := Itoa(s.state)]
  }

  function ToResource(i: Intent): Resource { Resource(LabelsOf(SpecOf(i)), SpecOf(i)) }

  /** The stored state is truncated to eight bits. */
  function Truncated(n: int): StateCode { (n + 128) % 256 - 128 }

  function FromResource(name: string, r: Resource): Option<Intent>
  {
    var id, creator, updater, strategy :=
      FromHex(name), FromHex(r.spec.creator), FromHex(r.spec.updater), FromHex(r.spec.strategy);
    if id.None? || creator.None? || updater.None? || strategy.None? then None
    else
      Some(Intent(id.value, r.spec.created, r.spec.updated, creator.value, updater.value, strategy.value, r.spec.podId,
                  r.spec.namespace, Truncated(r.spec.state), r.spec.payload))
  }

  /** What is stored under an intent's name reads back as that intent. */
  lemma ResourceRoundTrip(i: Intent)
    ensures FromResource(Hex(i.id), ToResource(i)) == Some(i)
  {
    HexRoundTrip(i.id);
    HexRoundTrip(i.creator);
    HexRoundTrip(i.updater);
    HexRoundTrip(i.strategy);
    hide Hex, FromHex, LabelsOf;
  }

  /** A resource that stands for an intent: its labels repeat its spec. */
  ghost predicate StandsFor(name: string, r: Resource, i: Intent) { name == Hex(i.id) && r == ToResource(i) }

  ghost predicate Faithful(name: string, r: Resource)
  {
    FromResource(name, r).Some? && StandsFor(name, r, FromResource(name, r).value)
  }

  lemma FaithfulIntent(i: Intent)
    ensures Faithful(Hex(i.id), ToResource(i))
  {
    ResourceRoundTrip(i);
    hide FromResource, ToResource, Hex;
  }

  ghost predicate Sound(intents: map<string, Resource>)
  {
    forall name :: name in intents ==> Faithful(name, intents[name])
  }

  // ---------------------------------------------------------------- queries

  datatype Query = Query(
    ids: seq<Id>, namespaces: seq<string>, strategies: seq<Id>, states: seq<StateCode>, podIds: seq<string>,
    creators: seq<Id>)

  predicate Among<T(==)>(list: seq<T>, x: T) { list == [] || x in list }

  predicate Passes(i: Intent, q: Query)
  {
    && Among(q.creators, i.creator) && Among(q.strategies, i.strategy) && Among(q.namespaces, i.namespace)
    && Among(q.states, i.state) && Among(q.podIds, i.podId)
  }

  /** One clause of a label selector: the label is present with one of the values. */
  datatype Requirement = Requirement(key: string, values: seq<string>)

  function Hexes(ids: seq<Id>): seq<string> { seq(|ids|, k requires 0 <= k < |ids| => Hex(ids[k])) }
  function Itoas(states: seq<StateCode>): seq<string> { seq(|states|, k requires 0 <= k < |states| => Itoa(states[k])) }

  function SelectorOf(q: Query): seq<Requirement>
  {
    (if q.creators == [] then [] else [Requirement(CREATOR, Hexes(q.creators))])
    + (if q.strategies == [] then [] else [Requirement(STRATEGY, Hexes(q.strategies))])
    + (if q.states == [] then [] else [Requirement(STATE, Itoas(q.states))])
  }

  predicate Meets(labels: map<string, string>, r: Requirement) { r.key in labels && labels[r.key] in r.values }

  predicate Selected(labels: map<string, string>, sel: seq<Requirement>)
  {
    forall k :: 0 <= k < |sel| ==> Meets(labels, sel[k])
  }

  /** The label index never hides an intent that passes the filter. */
  lemma PassingIsSelected(i: Intent, q: Query)
    requires Passes(i, q)
    ensures Selected(ToResource(i).labels, SelectorOf(q))
  {
    var labels := ToResource(i).labels;
    assert CREATOR != STRATEGY && STRATEGY != STATE && CREATOR != STATE;
    assert labels[CREATOR] == Hex(i.creator) && labels[STRATEGY] == Hex(i.strategy) && labels[STATE] == Itoa(i.state);
    if q.creators != [] {
      var k :| 0 <= k < |q.creators| && q.creators[k] == i.creator;
      assert Hexes(q.creators)[k] == Hex(i.creator);
    }
    if q.strategies != [] {
      var k :| 0 <= k < |q.strategies| && q.strategies[k] == i.strategy;
      assert Hexes(q.strategies)[k] == Hex(i.strategy);
    }
    if q.states != [] {
      var k :| 0 <= k < |q.states| && q.states[k] == i.state;
      assert Itoas(q.states)[k] == Itoa(i.state);
    }
    hide Hexes, Itoas, Hex, Itoa, ToResource;
  }

  /** The brute-force answer: the intents of all resources that pass the filter. */
  ghost predicate Answers(intents: map<string, Resource>, q: Query, i: Intent)
  {
    Hex(i.id) in intents && FromResource(Hex(i.id), intents[Hex(i.id)]) == Some(i) && Passes(i, q)
  }

  /** In a sound store, the resources selected by label and then filtered are exactly the brute-force answer. */
  lemma LabelQueryIsExact(intents: map<string, Resource>, q: Query, name: string)
    requires Sound(intents)
    ensures name in intents ==>
      var i := FromResource(name, intents[name]);
      && i.Some? && name == Hex(i.value.id)
      && (Selected(intents[name].labels, SelectorOf(q)) && Passes(i.value, q) <==> Answers(intents, q, i.value))
  {
    if name in intents {
      assert Faithful(name, intents[name]);
      var i := FromResource(name, intents[name]).value;
      hide FromResource, ToResource, SelectorOf, Selected, Hex, Sound;
      if Passes(i, q) { PassingIsSelected(i, q); }
    }
  }

  // ---------------------------------------------------------------- creating in batches

  datatype Strategy = Strategy(id: Id, created: int, updated: int, creator: Id, updater: Id, body: StrategyBody)

  datatype StrategyBody = StrategyBody(
    namespace: string, selectors: seq<(string, string)>, k8sNamespaces: seq<string>, commandRegex: string,
    priority: int, executionTime: int)

  datatype Store = Store(strategies: map<string, Strategy>, intents: map<string, Resource>)

  /** A resource and the name it is created under. */
  datatype Entry = Entry(name: string, resource: Resource)

  function EntryOf(i: Intent): Entry { Entry(Hex(i.id), ToResource(i)) }

  function EntriesOf(intents: seq<Intent>): seq<Entry>
  {
    seq(|intents|, k requires 0 <= k < |intents| => EntryOf(intents[k]))
  }

  /** The intents after the first k of a batch have been created. */
  function CreatedUpTo(intents: map<string, Resource>, batch: seq<Entry>, k: nat): map<string, Resource>
    requires k <= |batch|
  {
    if k == 0 then intents
    else CreatedUpTo(intents, batch, k - 1)[batch[k - 1].name := batch[k - 1].resource]
  }

  predicate Free(intents: map<string, Resource>, batch: seq<Entry>, k: nat)
    requires k < |batch|
  {
    batch[k].name !in CreatedUpTo(intents, batch, k)
  }

  /** A create fails when the name is taken, and may fail for any other reason. */
  predicate CreateOk(intents: map<string, Resource>, batch: seq<Entry>, fails: set<nat>, k: nat)
    requires k < |batch|
  {
    Free(intents, batch, k) && k !in fails
  }

  /** How many of the batch are created before the first failure, given that k are. */
  function Progress(intents: map<string, Resource>, batch: seq<Entry>, fails: set<nat>, k: nat): (n: nat)
    requires k <= |batch|
    ensures k <= n <= |batch|
    decreases |batch| - k
  {
    if k == |batch| || !CreateOk(intents, batch, fails, k) then k else Progress(intents, batch, fails, k + 1)
  }

  lemma {:induction false} ProgressStops(intents: map<string, Resource>, batch: seq<Entry>, fails: set<nat>, k: nat)
    requires k <= |batch|
    ensures
      var n := Progress(intents, batch, fails, k);
      && (forall j :: k <= j < n ==> CreateOk(intents, batch, fails, j))
      && (n < |batch| ==> !CreateOk(intents, batch, fails, n))
    decreases |batch| - k
  {
    hide CreateOk;
    if k < |batch| && CreateOk(intents, batch, fails, k) { ProgressStops(intents, batch, fails, k + 1); }
  }

  /** The first failing create took effect all the same: its name was free, and the object is stored. */
  predicate Lost(intents: map<string, Resource>, batch: seq<Entry>, fails: set<nat>, lost: set<nat>)
  {
    var n := Progress(intents, batch, fails, 0);
    n < |batch| && n in fails && n in lost && Free(intents, batch, n)
  }

  /** How many of the batch are stored when the creating stops. */
  function Stored(intents: map<string, Resource>, batch: seq<Entry>, fails: set<nat>, lost: set<nat>): (n: nat)
    ensures n <= |batch|
  {
    Progress(intents, batch, fails, 0) + if Lost(intents, batch, fails, lost) then 1 else 0
  }

  lemma StoredWereFree(intents: map<string, Resource>, batch: seq<Entry>, fails: set<nat>, lost: set<nat>)
    ensures forall j :: 0 <= j < Stored(intents, batch, fails, lost) ==> Free(intents, batch, j)
  {
    hide CreatedUpTo;
    ProgressStops(intents, batch, fails, 0);
    hide Progress;
    forall j | 0 <= j < Stored(intents, batch, fails, lost)
      ensures Free(intents, batch, j)
    {
      if j < Progress(intents, batch, fails, 0) { assert CreateOk(intents, batch, fails, j); }
    }
  }

  function Names(batch: seq<Entry>): set<string> { set k | 0 <= k < |batch| :: batch[k].name }

  lemma {:induction false} CreatedNames(intents: map<string, Resource>, batch: seq<Entry>, k: nat)
    requires k <= |batch|
    ensures CreatedUpTo(intents, batch, k).Keys == intents.Keys + Names(batch[..k])
    ensures forall name :: name in intents && name !in Names(batch[..k]) ==>
      CreatedUpTo(intents, batch, k)[name] == intents[name]
  {
    if k > 0 {
      CreatedNames(intents, batch, k - 1);
      NamesOneMore(batch, k - 1);
    } else {
      assert Names(batch[..0]) == {};
    }
  }

  lemma NamesOneMore(batch: seq<Entry>, k: nat)
    requires k < |batch|
    ensures Names(batch[..k + 1]) == Names(batch[..k]) + {batch[k].name}
  {
    assert forall j :: 0 <= j < k ==> batch[..k + 1][j] == batch[..k][j];
    assert batch[..k + 1][k] == batch[k];
  }

  /** What was created one by one was not there before. */
  lemma {:induction false} CreatedIsNew(intents: map<string, Resource>, batch: seq<Entry>, k: nat)
    requires k <= |batch| && forall j :: 0 <= j < k ==> Free(intents, batch, j)
    ensures intents.Keys !! Names(batch[..k])
  {
    if k > 0 {
      hide Names, CreatedUpTo;
      assert Free(intents, batch, k - 1);
      CreatedIsNew(intents, batch, k - 1);
      CreatedNames(intents, batch, k - 1);
      NamesOneMore(batch, k - 1);
    }
  }

  lemma CreatedRemoved(intents: map<string, Resource>, batch: seq<Entry>, k: nat, removed: set<string>)
    requires k <= |batch| && forall j :: 0 <= j < k ==> Free(intents, batch, j)
    requires removed <= Names(batch[..k])
    ensures
      var after := CreatedUpTo(intents, batch, k) - removed;
      && after.Keys == intents.Keys + (Names(batch[..k]) - removed)
      && (forall name :: name in intents ==> after[name] == intents[name])
      && (removed == Names(batch[..k]) ==> after == intents)
  {
    CreatedIsNew(intents, batch, k);
    CreatedNames(intents, batch, k);
    hide Names, CreatedUpTo, Free;
    var after := CreatedUpTo(intents, batch, k) - removed;
    assert after.Keys == intents.Keys + (Names(batch[..k]) - removed);
    if removed == Names(batch[..k]) { assert after.Keys == intents.Keys; }
  }

  // ---------------------------------------------------------------- a strategy with its intents

  /**
   Which calls fail: creating the strategy, creating the k-th intent, and the rollback's deletes that leave their
   object behind. A create that fails may have stored its object all the same: those are the lost ones.
   */
  datatype Faults = Faults(
    strategy: bool, strategyLost: bool, creates: set<nat>, lost: set<nat>, deletes: set<string>, strategyDelete: bool)

  function Stamped(i: Intent, strategy: Id, now: int, generated: Id): Intent
  {
    i.(id := if i.id == ZERO then generated else i.id, strategy := strategy,
       created := if i.created == 0 then now else i.created, updated := if i.updated == 0 then now else i.updated)
  }

  function StampedAll(intents: seq<Intent>, strategy: Id, now: int, generated: seq<Id>): seq<Intent>
    requires |generated| == |intents|
  {
    seq(|intents|, k requires 0 <= k < |intents| => Stamped(intents[k], strategy, now, generated[k]))
  }

  function StampedStrategy(s: Strategy, now: int, generated: Id): Strategy
  {
    s.(id := if s.id == ZERO then generated else s.id, created := if s.created == 0 then now else s.created,
       updated := now)
  }

  /** The rollback deletes the intents whose creates returned without error, and no other. */
  function Inserted(store: Store, name: string, s: Strategy, batch: seq<Entry>, f: Faults): (bool, Store)
  {
    var with := store.strategies[name := s];
    if name in store.strategies then (false, store)
    else if f.strategy then (false, Store(if f.strategyLost then with else store.strategies, store.intents))
    else
      var n := Progress(store.intents, batch, f.creates, 0);
      if n == |batch| then (true, Store(with, CreatedUpTo(store.intents, batch, n)))
      else
        var stored := CreatedUpTo(store.intents, batch, Stored(store.intents, batch, f.creates, f.lost));
        (false, Store(if f.strategyDelete then with else store.strategies,
                      stored - (Names(batch[..n]) - f.deletes)))
  }

  /** The create that ended the insert stored its object although it returned an error. */
  predicate TookEffect(store: Store, name: string, batch: seq<Entry>, f: Faults)
  {
    name !in store.strategies &&
    if f.strategy then f.strategyLost else Lost(store.intents, batch, f.creates, f.lost)
  }

  /**
   All or nothing: a failed insert whose rollback succeeds leaves the store exactly as it was, if and only if the
   create that failed did not take effect.
   */
  lemma FailedInsertLeavesNothing(store: Store, name: string, s: Strategy, batch: seq<Entry>, f: Faults)
    requires !f.strategyDelete && f.deletes !! Names(batch)
    ensures
      var (ok, after) := Inserted(store, name, s, batch, f);
      !ok ==> (after == store <==> !TookEffect(store, name, batch, f))
  {
    if name !in store.strategies && !f.strategy {
      var n := Progress(store.intents, batch, f.creates, 0);
      var m := Stored(store.intents, batch, f.creates, f.lost);
      NamesOfPrefix(batch, n);
      StoredNames(store.intents, batch, f.creates, f.lost);
      assert Names(batch[..n]) - f.deletes == Names(batch[..n]);
      StoredWereFree(store.intents, batch, f.creates, f.lost);
      CreatedIsNew(store.intents, batch, m);
      CreatedRemoved(store.intents, batch, m, Names(batch[..n]));
      hide Names, CreatedUpTo, Progress, Free;
    } else {
      assert name in store.strategies[name := s];
    }
  }

  /** A lost intent outlives the rollback: it stays behind alone, its strategy deleted. */
  lemma LostCreateLeavesOrphan(store: Store, name: string, s: Strategy, batch: seq<Entry>, f: Faults)
    requires !f.strategyDelete && f.deletes !! Names(batch) && !f.strategy && name !in store.strategies
    requires Lost(store.intents, batch, f.creates, f.lost)
    ensures
      var e := batch[Progress(store.intents, batch, f.creates, 0)];
      Inserted(store, name, s, batch, f) == (false, store.(intents := store.intents[e.name := e.resource]))
  {
    var n := Progress(store.intents, batch, f.creates, 0);
    var kept, all := Names(batch[..n]), CreatedUpTo(store.intents, batch, n + 1);
    NamesOfPrefix(batch, n);
    StoredNames(store.intents, batch, f.creates, f.lost);
    assert kept - f.deletes == kept;
    StoredWereFree(store.intents, batch, f.creates, f.lost);
    CreatedRemoved(store.intents, batch, n + 1, kept);
    assert all[batch[n].name] == batch[n].resource;
    hide Names, CreatedUpTo, Progress, Free;
    assert all - kept == store.intents[batch[n].name := batch[n].resource];
  }

  /** What is stored when the creating stops: what was created, and the object of a lost create. */
  lemma StoredNames(intents: map<string, Resource>, batch: seq<Entry>, fails: set<nat>, lost: set<nat>)
    ensures
      var n := Progress(intents, batch, fails, 0);
      var now, before := Names(batch[..Stored(intents, batch, fails, lost)]), Names(batch[..n]);
      && (!Lost(intents, batch, fails, lost) ==> now == before)
      && (Lost(intents, batch, fails, lost) ==> now == before + {batch[n].name} && batch[n].name !in before)
  {
    var n := Progress(intents, batch, fails, 0);
    hide Progress;
    if Lost(intents, batch, fails, lost) {
      NamesOneMore(batch, n);
      CreatedNames(intents, batch, n);
      hide Names, CreatedUpTo;
    }
  }

  lemma NamesOfPrefix(batch: seq<Entry>, n: nat)
    requires n <= |batch|
    ensures Names(batch[..n]) <= Names(batch)
  {
    assert forall k :: 0 <= k < n ==> batch[..n][k] == batch[k];
  }

  /**
   If rollback deletes fail too, earlier objects are untouched, and only objects of this insert are left: those
   whose delete failed and the one whose create was lost.
   */
  lemma FailedRollbackLeavesOnlyItsOwn(store: Store, name: string, s: Strategy, batch: seq<Entry>, f: Faults)
    ensures
      var (ok, after) := Inserted(store, name, s, batch, f);
      var n := Progress(store.intents, batch, f.creates, 0);
      var lost := if Lost(store.intents, batch, f.creates, f.lost) then {batch[n].name} else {};
      !ok ==>
        && store.intents.Keys <= after.intents.Keys <= store.intents.Keys + (Names(batch) * f.deletes) + lost
        && (forall n :: n in store.intents ==> after.intents[n] == store.intents[n])
        && (after.strategies == store.strategies
            || (name !in store.strategies && after.strategies == store.strategies[name := s]
                && if f.strategy then f.strategyLost else f.strategyDelete))
  {
    if name !in store.strategies && !f.strategy {
      var n := Progress(store.intents, batch, f.creates, 0);
      var m := Stored(store.intents, batch, f.creates, f.lost);
      NamesOfPrefix(batch, n);
      StoredNames(store.intents, batch, f.creates, f.lost);
      StoredWereFree(store.intents, batch, f.creates, f.lost);
      CreatedRemoved(store.intents, batch, m, Names(batch[..n]) - f.deletes);
      hide Names, CreatedUpTo, Progress, Free;
      assert Names(batch[..n]) - (Names(batch[..n]) - f.deletes) <= Names(batch) * f.deletes;
    }
  }

  ghost predicate Distinct(batch: seq<Entry>)
  {
    forall j, k :: 0 <= j < k < |batch| ==> batch[j].name != batch[k].name
  }

  /** It succeeds iff no call fails and no name is taken or repeated; then the store gains exactly the new objects. */
  lemma InsertSucceedsIff(store: Store, name: string, s: Strategy, batch: seq<Entry>, f: Faults)
    ensures
      var (ok, after) := Inserted(store, name, s, batch, f);
      && (ok <==> name !in store.strategies && !f.strategy && Distinct(batch)
                  && Names(batch) !! store.intents.Keys && forall k :: 0 <= k < |batch| ==> k !in f.creates)
      && (ok ==> after.strategies == store.strategies[name := s]
                 && after.intents.Keys == store.intents.Keys + Names(batch)
                 && (forall n :: n in store.intents ==> after.intents[n] == store.intents[n])
                 && (forall k :: 0 <= k < |batch| ==> after.intents[batch[k].name] == batch[k].resource))
  {
    hide Names, CreatedUpTo, Progress, CreateOk, Stored, Distinct;
    var n := Progress(store.intents, batch, f.creates, 0);
    ProgressStops(store.intents, batch, f.creates, 0);
    if n == |batch| {
      AllCreated(store.intents, batch, f.creates);
    } else {
      StoppedBecause(store.intents, batch, f.creates, n);
      NamedInBatch(batch, n);
    }
  }

  lemma NamedInBatch(batch: seq<Entry>, n: nat)
    requires n < |batch|
    ensures batch[n].name in Names(batch)
  {
  }

  lemma StoppedBecause(intents: map<string, Resource>, batch: seq<Entry>, fails: set<nat>, n: nat)
    requires n < |batch| && !CreateOk(intents, batch, fails, n)
    ensures n in fails || batch[n].name in intents || !Distinct(batch)
  {
    CreatedNames(intents, batch, n);
    hide CreatedUpTo;
    if batch[n].name in Names(batch[..n]) {
      var j :| 0 <= j < |batch[..n]| && batch[..n][j].name == batch[n].name;
      assert batch[j].name == batch[n].name;
    }
  }

  lemma AllCreated(intents: map<string, Resource>, batch: seq<Entry>, fails: set<nat>)
    requires forall j :: 0 <= j < |batch| ==> CreateOk(intents, batch, fails, j)
    ensures Distinct(batch) && Names(batch) !! intents.Keys && forall k :: 0 <= k < |batch| ==> k !in fails
    ensures forall k :: 0 <= k < |batch| ==>
      batch[k].name in CreatedUpTo(intents, batch, |batch|)
      && CreatedUpTo(intents, batch, |batch|)[batch[k].name] == batch[k].resource
    ensures CreatedUpTo(intents, batch, |batch|).Keys == intents.Keys + Names(batch)
    ensures forall n :: n in intents ==> CreatedUpTo(intents, batch, |batch|)[n] == intents[n]
  {
    assert batch[..|batch|] == batch;
    assert forall k :: 0 <= k < |batch| ==> CreateOk(intents, batch, fails, k) ==> Free(intents, batch, k);
    hide CreatedUpTo;
    CreatedIsNew(intents, batch, |batch|);
    CreatedNames(intents, batch, |batch|);
    FreeAreDistinct(intents, batch);
    hide Distinct, Names;
    forall k | 0 <= k < |batch|
      ensures k !in fails
      ensures batch[k].name in CreatedUpTo(intents, batch, |batch|)
      ensures CreatedUpTo(intents, batch, |batch|)[batch[k].name] == batch[k].resource
    {
      assert CreateOk(intents, batch, fails, k);
      StaysCreated(intents, batch, k, |batch|);
    }
  }

  lemma FreeAreDistinct(intents: map<string, Resource>, batch: seq<Entry>)
    requires forall k :: 0 <= k < |batch| ==> Free(intents, batch, k)
    ensures Distinct(batch)
  {
    hide CreatedUpTo;
    forall j, k | 0 <= j < k < |batch|
      ensures batch[j].name != batch[k].name
    {
      assert Free(intents, batch, k);
      CreatedNames(intents, batch, k);
      assert batch[..k][j] == batch[j];
    }
  }

  lemma {:induction false} StaysCreated(intents: map<string, Resource>, batch: seq<Entry>, k: nat, n: nat)
    requires k < n <= |batch| && Distinct(batch)
    ensures batch[k].name in CreatedUpTo(intents, batch, n)
    ensures CreatedUpTo(intents, batch, n)[batch[k].name] == batch[k].resource
  {
    if k < n - 1 { StaysCreated(intents, batch, k, n - 1); }
  }

  /** On success every new intent reads back as given, tagged with the strategy's ID. */
  lemma InsertedReadsBack(intents: seq<Intent>, strategy: Id, now: int, generated: seq<Id>, k: nat)
    requires |generated| == |intents| && k < |intents|
    ensures
      var e := EntriesOf(StampedAll(intents, strategy, now, generated))[k];
      var i := FromResource(e.name, e.resource);
      && i == Some(Stamped(intents[k], strategy, now, generated[k])) && i.value.strategy == strategy
      && Faithful(e.name, e.resource)
  {
    var i := Stamped(intents[k], strategy, now, generated[k]);
    ResourceRoundTrip(i);
    FaithfulIntent(i);
    hide FromResource, ToResource, Faithful, Hex;
  }

  // ---------------------------------------------------------------- updates and deletes

  /** What happens to one read and write: an update that errs may have been stored all the same. */
  datatype Fault = NoFault | GetFails | UpdateFails | UpdateLost

  /** The new state and its label are written together. */
  function WithState(r: Resource, state: StateCode, now: int): Resource
  {
    Resource(r.labels[STATE := Itoa(state)], r.spec.(state := state, updated := now))
  }

  /** A batch update skips missing intents and stops at the first call that fails. */
  function BatchUpdated(intents: map<string, Resource>, names: seq<string>, state: StateCode, now: int,
                        faults: seq<Fault>): (bool, map<string, Resource>)
    requires |faults| == |names|
    decreases |names|
  {
    if names == [] then (true, intents)
    else if faults[0] == GetFails then (false, intents)
    else if names[0] !in intents then BatchUpdated(intents, names[1..], state, now, faults[1..])
    else if faults[0] == UpdateFails then (false, intents)
    else
      var next := intents[names[0] := WithState(intents[names[0]], state, now)];
      if faults[0] == UpdateLost then (false, next) else BatchUpdated(next, names[1..], state, now, faults[1..])
  }

  lemma WithStateIsFaithful(name: string, r: Resource, state: StateCode, now: int)
    requires Faithful(name, r)
    ensures Faithful(name, WithState(r, state, now))
  {
    var i := FromResource(name, r).value;
    var j := i.(state := state, updated := now);
    assert WithState(r, state, now) == ToResource(j) by {
      hide Hex, Itoa, FromResource;
      assert LabelsOf(SpecOf(j)) == LabelsOf(SpecOf(i))[STATE := Itoa(state)];
    }
    hide WithState, ToResource, FromResource, Hex;
    FaithfulIntent(j);
  }

  lemma {:induction false} BatchUpdateIsSound(intents: map<string, Resource>, names: seq<string>, state: StateCode,
                                              now: int, faults: seq<Fault>)
    requires |faults| == |names| && Sound(intents)
    ensures Sound(BatchUpdated(intents, names, state, now, faults).1)
    decreases |names|
  {
    hide Faithful, WithState;
    if names != [] && faults[0] != GetFails {
      if names[0] !in intents {
        BatchUpdateIsSound(intents, names[1..], state, now, faults[1..]);
      } else if faults[0] != UpdateFails {
        WithStateIsFaithful(names[0], intents[names[0]], state, now);
        var next := intents[names[0] := WithState(intents[names[0]], state, now)];
        if faults[0] != UpdateLost { BatchUpdateIsSound(next, names[1..], state, now, faults[1..]); }
      }
    }
  }

  function StrategySelector(strategy: Id): seq<Requirement> { [Requirement(STRATEGY, [Hex(strategy)])] }

  function SelectedNames(intents: map<string, Resource>, sel: seq<Requirement>): set<string>
  {
    set name | name in intents && Selected(intents[name].labels, sel)
  }

  /** Selecting by the strategy label finds exactly the intents of that strategy. */
  lemma StrategyLabelIsExact(intents: map<string, Resource>, strategy: Id, name: string)
    requires Sound(intents) && name in intents
    ensures name in SelectedNames(intents, StrategySelector(strategy))
      <==> FromResource(name, intents[name]).value.strategy == strategy
  {
    assert Faithful(name, intents[name]);
    var r := intents[name];
    var i := FromResource(name, r).value;
    HexRoundTrip(i.strategy);
    HexRoundTrip(strategy);
    assert r.labels[STRATEGY] == Hex(i.strategy) by {
      assert CREATOR != STRATEGY && STRATEGY != STATE;
    }
    hide FromResource, ToResource, Hex, FromHex, Sound;
    var sel := StrategySelector(strategy);
    assert Meets(r.labels, sel[0]) <==> Hex(i.strategy) == Hex(strategy);
  }

  // ---------------------------------------------------------------- whole runs

  datatype Command =
    | Insert(name: string, strategy: Strategy, intents: seq<Intent>, faults: Faults)
    | InsertIntents(intents: seq<Intent>, creates: set<nat>, lost: set<nat>)
    | UpdateState(names: seq<string>, state: StateCode, now: int, updates: seq<Fault>)
    | DeleteIntents(gone: set<string>)
    | DeleteByStrategy(id: Id, gone: set<string>)
    | SetStrategies(strategies: map<string, Strategy>)

  predicate Wellformed(c: Command) { c.UpdateState? ==> |c.updates| == |c.names| }

  /** Deletes that stop midway remove only some of what they select. */
  function Next(store: Store, c: Command): Store
    requires Wellformed(c)
  {
    match c
    case Insert(name, strategy, intents, faults) => Inserted(store, name, strategy, EntriesOf(intents), faults).1
    case InsertIntents(intents, creates, lost) =>
      var batch := EntriesOf(intents);
      store.(intents := CreatedUpTo(store.intents, batch, Stored(store.intents, batch, creates, lost)))
    case UpdateState(names, state, now, updates) =>
      store.(intents := BatchUpdated(store.intents, names, state, now, updates).1)
    case DeleteIntents(gone) => store.(intents := store.intents - gone)
    case DeleteByStrategy(id, gone) =>
      store.(intents := store.intents - (SelectedNames(store.intents, StrategySelector(id)) * gone))
    case SetStrategies(strategies) => store.(strategies := strategies)
  }

  ghost predicate AllWellformed(commands: seq<Command>) { forall i :: 0 <= i < |commands| ==> Wellformed(commands[i]) }

  function After(commands: seq<Command>): Store
    requires AllWellformed(commands)
  {
    if commands == [] then Store(map[], map[]) else Next(After(commands[..|commands| - 1]), commands[|commands| - 1])
  }

  ghost predicate FaithfulBatch(batch: seq<Entry>)
  {
    forall k :: 0 <= k < |batch| ==> Faithful(batch[k].name, batch[k].resource)
  }

  lemma {:induction false} CreatingIsSound(intents: map<string, Resource>, batch: seq<Entry>, k: nat)
    requires k <= |batch| && Sound(intents) && FaithfulBatch(batch)
    ensures Sound(CreatedUpTo(intents, batch, k))
  {
    hide Faithful;
    if k > 0 { CreatingIsSound(intents, batch, k - 1); }
  }

  lemma EntriesAreFaithful(intents: seq<Intent>)
    ensures FaithfulBatch(EntriesOf(intents))
  {
    hide Faithful;
    forall k | 0 <= k < |intents|
      ensures Faithful(EntriesOf(intents)[k].name, EntriesOf(intents)[k].resource)
    {
      FaithfulIntent(intents[k]);
    }
  }

  lemma RemovingIsSound(intents: map<string, Resource>, gone: set<string>)
    requires Sound(intents)
    ensures Sound(intents - gone)
  {
    hide Faithful;
  }

  lemma NextIsSound(store: Store, c: Command)
    requires Wellformed(c) && Sound(store.intents)
    ensures Sound(Next(store, c).intents)
  {
    hide Sound, FaithfulBatch, CreatedUpTo, Progress, Stored, BatchUpdated, SelectedNames;
    match c
    case Insert(name, strategy, intents, faults) =>
      var batch := EntriesOf(intents);
      var n := Progress(store.intents, batch, faults.creates, 0);
      var m := Stored(store.intents, batch, faults.creates, faults.lost);
      EntriesAreFaithful(intents);
      CreatingIsSound(store.intents, batch, n);
      CreatingIsSound(store.intents, batch, m);
      RemovingIsSound(CreatedUpTo(store.intents, batch, m), Names(batch[..n]) - faults.deletes);
    case InsertIntents(intents, creates, lost) =>
      EntriesAreFaithful(intents);
      CreatingIsSound(store.intents, EntriesOf(intents), Stored(store.intents, EntriesOf(intents), creates, lost));
    case UpdateState(names, state, now, updates) => BatchUpdateIsSound(store.intents, names, state, now, updates);
    case DeleteIntents(gone) => RemovingIsSound(store.intents, gone);
    case DeleteByStrategy(id, gone) =>
      RemovingIsSound(store.intents, SelectedNames(store.intents, StrategySelector(id)) * gone);
    case SetStrategies(strategies) =>
  }

  /** In every reachable store, whatever calls failed on the way, each resource's labels agree with its spec. */
  lemma {:induction false} EveryRunIsSound(commands: seq<Command>)
    requires AllWellformed(commands)
    ensures Sound(After(commands).intents)
  {
    hide Next, Faithful;
    if commands != [] {
      EveryRunIsSound(commands[..|commands| - 1]);
      NextIsSound(After(commands[..|commands| - 1]), commands[|commands| - 1]);
    }
  }

  /** Hence in every reachable store the label-selected query answers what filtering everything would. */
  lemma EveryQueryIsExact(commands: seq<Command>, q: Query, name: string)
    requires AllWellformed(commands) && name in After(commands).intents
    ensures
      var r := After(commands).intents[name];
      var i := FromResource(name, r);
      && i.Some?
      && (Selected(r.labels, SelectorOf(q)) && Passes(i.value, q) <==> Answers(After(commands).intents, q, i.value))
  {
    EveryRunIsSound(commands);
    hide After, FromResource, Selected, SelectorOf, Passes;
    LabelQueryIsExact(After(commands).intents, q, name);
  }

  // ---------------------------------------------------------------- the repository in place

  /** The intents found under the given IDs that pass the filter, in the order asked for. */
  function Fetched(intents: map<string, Resource>, ids: seq<Id>, q: Query): seq<Intent>
  {
    if ids == [] then []
    else
      var name := Hex(ids[|ids| - 1]);
      var i := if name in intents then FromResource(name, intents[name]) else None;
      Fetched(intents, ids[..|ids| - 1], q) + if i.Some? && Passes(i.value, q) then [i.value] else []
  }

  ghost predicate NoRepeats(s: seq<Intent>) { forall i, j :: 0 <= i < j < |s| ==> s[i].id != s[j].id }

  /** The list is selected by label, read back and filtered, in whatever order the API server returns it. */
  method ListIntents(intents: map<string, Resource>, q: Query) returns (ok: bool, result: seq<Intent>)
    ensures Sound(intents) ==> ok && NoRepeats(result) && forall i :: i in result <==> Answers(intents, q, i)
  {
    var sel := SelectorOf(q);
    var todo := SelectedNames(intents, sel);
    result := [];
    ghost var sound := Sound(intents);
    if sound { SelectionIsExact(intents, q); }
    hide Sound, SelectedNames, FromResource, Passes, Hex, Answers, SelectorOf;
    while todo != {}
      invariant todo <= SelectedNames(intents, sel)
      invariant sound ==> NoRepeats(result)
      invariant sound ==> forall i :: i in result <==> Answers(intents, q, i) && Hex(i.id) !in todo
      decreases |todo|
    {
      var name :| name in todo;
      SelectedAreStored(intents, sel);
      var i := FromResource(name, intents[name]);
      if sound { ListStep(intents, q, name, todo, result); }
      if i.None? { return false, result; }
      todo := todo - {name};
      if Passes(i.value, q) { result := result + [i.value]; }
    }
    return true, result;
  }

  method FetchIntents(intents: map<string, Resource>, q: Query, getFails: set<nat>)
    returns (ok: bool, result: seq<Intent>)
    ensures Sound(intents) ==>
      && (ok <==> forall k :: 0 <= k < |q.ids| ==> k !in getFails)
      && (ok ==> result == Fetched(intents, q.ids, q))
  {
    hide *;
    result := [];
    FetchNone(intents, q);
    var k := 0;
    while k < |q.ids|
      invariant 0 <= k <= |q.ids| && (forall j :: 0 <= j < k ==> j !in getFails)
      invariant Sound(intents) ==> result == Fetched(intents, q.ids[..k], q)
    {
      FetchStep(intents, q, k);
      if k in getFails { return false, result; }
      var name := Hex(q.ids[k]);
      if name in intents {
        var i := FromResource(name, intents[name]);
        if i.None? { return false, result; }
        if Passes(i.value, q) { result := result + [i.value]; }
      }
      k := k + 1;
    }
    assert q.ids[..k] == q.ids;
    return true, result;
  }

  class Repository {
    var strategies: map<string, Strategy>
    var intents: map<string, Resource>

    ghost function View(): Store
      reads this
    {
      Store(strategies, intents)
    }

    constructor ()
      ensures View() == After([])
    {
      strategies, intents := map[], map[];
    }

    /** A create that errs leaves nothing, unless its object was stored before the error. */
    method CreateIntent(e: Entry, fails: bool, lost: bool) returns (ok: bool)
      modifies this`intents
      ensures ok <==> e.name !in old(intents) && !fails
      ensures intents == if e.name !in old(intents) && (!fails || lost) then old(intents)[e.name := e.resource]
                         else old(intents)
    {
      if e.name in intents { return false; }
      if fails && !lost { return false; }
      intents := intents[e.name := e.resource];
      return !fails;
    }

    /** Creates in order until one fails; says how many creates returned without error. */
    method CreateIntents(batch: seq<Entry>, fails: set<nat>, lost: set<nat>) returns (n: nat)
      modifies this`intents
      ensures n == Progress(old(intents), batch, fails, 0)
      ensures intents == CreatedUpTo(old(intents), batch, Stored(old(intents), batch, fails, lost))
    {
      n := 0;
      while n < |batch|
        invariant n <= |batch| && intents == CreatedUpTo(old(intents), batch, n)
        invariant Progress(old(intents), batch, fails, 0) == Progress(old(intents), batch, fails, n)
      {
        var ok := CreateIntent(batch[n], n in fails, n in lost);
        if !ok { return; }
        n := n + 1;
      }
    }

    /** Deletes what was created, as far as the deletes succeed. */
    method Rollback(created: seq<Entry>, fails: set<string>)
      modifies this`intents
      ensures intents == old(intents) - (Names(created) - fails)
    {
      var i := 0;
      assert Names(created[..0]) == {};
      while i < |created|
        invariant 0 <= i <= |created| && intents == old(intents) - (Names(created[..i]) - fails)
      {
        NamesOneMore(created, i);
        if created[i].name !in fails { intents := intents - {created[i].name}; }
        i := i + 1;
      }
      assert created[..i] == created;
    }

    method InsertAll(name: string, s: Strategy, batch: seq<Entry>, f: Faults) returns (ok: bool)
      modifies this
      ensures (ok, View()) == Inserted(old(View()), name, s, batch, f)
    {
      hide CreatedUpTo, Progress, Names, Lost, Free;
      if name in strategies { return false; }
      ghost var before := strategies;
      if f.strategy {
        if f.strategyLost { strategies := strategies[name := s]; }
        return false;
      }
      strategies := strategies[name := s];
      var n := CreateIntents(batch, f.creates, f.lost);
      if n == |batch| { return true; }
      Rollback(batch[..n], f.deletes);
      if !f.strategyDelete {
        strategies := strategies - {name};
        assert strategies == before;
      }
      return false;
    }

    method InsertStrategyAndIntents(strategy: Option<Strategy>, given: Option<seq<Intent>>, newId: Id, newIds: seq<Id>,
                                    now: int, f: Faults) returns (ok: bool)
      requires given.Some? ==> |newIds| == |given.value|
      modifies this
      ensures strategy.None? || given.None? ==> !ok && View() == old(View())
      ensures strategy.Some? && given.Some? ==>
        var s := StampedStrategy(strategy.value, now, newId);
        (ok, View()) == Inserted(old(View()), Hex(s.id), s, EntriesOf(StampedAll(given.value, s.id, now, newIds)), f)
    {
      if strategy.None? || given.None? { return false; }
      hide *;
      var s := StampedStrategy(strategy.value, now, newId);
      ok := InsertAll(Hex(s.id), s, EntriesOf(StampedAll(given.value, s.id, now, newIds)), f);
    }

    method BatchUpdateIntentsState(ids: seq<Id>, state: StateCode, now: int, faults: seq<Fault>) returns (ok: bool)
      requires |faults| == |ids|
      modifies this`intents
      ensures (ok, intents) == BatchUpdated(old(intents), Hexes(ids), state, now, faults)
    {
      var names := Hexes(ids);
      assert |names| == |faults|;
      hide WithState, Hexes;
      var i := 0;
      while i < |names|
        invariant 0 <= i <= |names| == |faults|
        invariant BatchUpdated(old(intents), names, state, now, faults)
               == BatchUpdated(intents, names[i..], state, now, faults[i..])
      {
        assert names[i..][1..] == names[i + 1..] && faults[i..][1..] == faults[i + 1..];
        if faults[i] == GetFails { return false; }
        if names[i] in intents {
          if faults[i] == UpdateFails { return false; }
          intents := intents[names[i] := WithState(intents[names[i]], state, now)];
          if faults[i] == UpdateLost { return false; }
        }
        i := i + 1;
      }
      return true;
    }

    /** Intents are fetched by name when IDs are given; otherwise the list is searched. */
    method QueryIntents(q: Query, getFails: set<nat>, listFails: bool) returns (ok: bool, result: seq<Intent>)
      ensures Sound(intents) && q.ids == [] ==>
        ok == !listFails && (ok ==> NoRepeats(result) && forall i :: i in result <==> Answers(intents, q, i))
      ensures Sound(intents) && q.ids != [] ==>
        && (ok <==> forall k :: 0 <= k < |q.ids| ==> k !in getFails)
        && (ok ==> result == Fetched(intents, q.ids, q))
    {
      hide *;
      if q.ids != [] {
        ok, result := FetchIntents(intents, q, getFails);
      } else if listFails {
        ok, result := false, [];
      } else {
        ok, result := ListIntents(intents, q);
      }
    }

    /** Deletes what was listed until a delete errs; one that errs may have taken effect. */
    method DeleteListed(listed: set<string>, fails: set<string>, lost: set<string>)
      returns (ok: bool, ghost gone: set<string>)
      modifies this`intents
      ensures gone <= listed && intents == old(intents) - gone
      ensures ok <==> listed !! fails
      ensures ok ==> gone == listed
    {
      gone := {};
      var todo := listed;
      while todo != {}
        invariant todo <= listed && gone == listed - todo && gone !! fails && intents == old(intents) - gone
        decreases |todo|
      {
        var name :| name in todo;
        if name !in fails || name in lost {
          gone := gone + {name};
          intents := intents - {name};
          assert intents == old(intents) - gone;
        }
        if name in fails { return false, gone; }
        todo := todo - {name};
      }
      return true, gone;
    }

    /** Without failures, exactly the intents of the strategy are gone. */
    method DeleteIntentsByStrategyId(strategy: Id, listFails: bool, fails: set<string>, lost: set<string>)
      returns (ok: bool)
      modifies this`intents
      ensures exists gone :: intents == old(intents) - (SelectedNames(old(intents), StrategySelector(strategy)) * gone)
      ensures ok ==> intents == old(intents) - SelectedNames(old(intents), StrategySelector(strategy))
      ensures ok <==> !listFails && SelectedNames(old(intents), StrategySelector(strategy)) !! fails
      ensures listFails ==> intents == old(intents)
    {
      var listed := SelectedNames(intents, StrategySelector(strategy));
      hide SelectedNames, StrategySelector;
      if listFails {
        SomeAreGone(intents, listed, {});
        assert intents == old(intents) - {};
        return false;
      }
      ghost var gone;
      ok, gone := DeleteListed(listed, fails, lost);
      SomeAreGone(old(intents), listed, gone);
    }
  }

  lemma SomeAreGone(intents: map<string, Resource>, listed: set<string>, gone: set<string>)
    requires gone <= listed
    ensures intents - gone == intents - (listed * gone)
  {
    assert listed * gone == gone;
  }

  lemma SelectionIsExact(intents: map<string, Resource>, q: Query)
    requires Sound(intents)
    ensures forall i :: Answers(intents, q, i) ==> Hex(i.id) in SelectedNames(intents, SelectorOf(q))
  {
    hide Sound, FromResource, Selected, SelectorOf, Passes, Hex;
    forall i | Answers(intents, q, i)
      ensures Hex(i.id) in SelectedNames(intents, SelectorOf(q))
    {
      LabelQueryIsExact(intents, q, Hex(i.id));
    }
  }

  lemma FetchNone(intents: map<string, Resource>, q: Query)
    ensures Fetched(intents, q.ids[..0], q) == []
  {
  }

  lemma FetchStep(intents: map<string, Resource>, q: Query, k: nat)
    requires k < |q.ids|
    ensures
      var name := Hex(q.ids[k]);
      var i := if name in intents then FromResource(name, intents[name]) else None;
      && (Sound(intents) && name in intents ==> i.Some?)
      && Fetched(intents, q.ids[..k + 1], q)
      == Fetched(intents, q.ids[..k], q) + if i.Some? && Passes(i.value, q) then [i.value] else []
  {
    assert q.ids[..k + 1][..k] == q.ids[..k];
    var name := Hex(q.ids[k]);
    if Sound(intents) && name in intents { assert Faithful(name, intents[name]); }
    hide Sound, FromResource, Passes, Hex;
  }

  lemma SelectedAreStored(intents: map<string, Resource>, sel: seq<Requirement>)
    ensures SelectedNames(intents, sel) <= intents.Keys
  {
  }

  lemma ListStep(intents: map<string, Resource>, q: Query, name: string, todo: set<string>, result: seq<Intent>)
    requires Sound(intents) && todo <= SelectedNames(intents, SelectorOf(q)) && NoRepeats(result)
    requires forall i :: i in result <==> Answers(intents, q, i) && Hex(i.id) !in todo
    ensures name in todo ==> name in intents
    ensures name in todo ==>
      var i := FromResource(name, intents[name]);
      i.Some? &&
      var next := if Passes(i.value, q) then result + [i.value] else result;
      NoRepeats(next) && forall j :: j in next <==> Answers(intents, q, j) && Hex(j.id) !in todo - {name}
  {
    hide Sound, FromResource, Passes, Hex, SelectorOf, Selected, Answers;
    LabelQueryIsExact(intents, q, name);
    if name in todo {
      assert Selected(intents[name].labels, SelectorOf(q));
      AnswerUnderName(intents, q, name);
      hide SelectedNames;
      var i := FromResource(name, intents[name]).value;
      forall k | 0 <= k < |result| ensures result[k].id != i.id {
        assert result[k] in result;
      }
    }
  }

  lemma AnswerUnderName(intents: map<string, Resource>, q: Query, name: string)
    requires name in intents
    ensures forall j :: Answers(intents, q, j) && Hex(j.id) == name ==> Some(j) == FromResource(name, intents[name])
  {
    hide FromResource, Passes, Hex;
  }
}
