/** What reconciling promises over single attempts and over whole runs of attempts. */
module ReconcileRuns {
  import opened Common
  import opened ApiTypes
  import opened ApiServer
  import opened Flags
  import opened Reconcile
  import opened ManagedObjects
  import opened Walks

  ghost predicate Present(request: Key, vpa: VpaController, store: Store) {
    request.kind == VpaKind && Lookup(store, request) == Some(VpaObject(vpa))
  }

  /** The resource may own the objects, or none is missing. */
  ghost predicate Creatable(vpa: VpaController, cfg: Config, store: Store) {
    || vpa.meta.namespace in {"", cfg.namespace}
    || forall i :: 0 <= i < |SLOTS| ==> SlotKey(SLOTS[i], vpa, cfg) in store
  }

  // One attempt

  /** Progress n over the ten objects, stopping at slot f; a failure costs a fault, unless the slot's object is
      missing and the resource cannot own it. */
  ghost predicate Outcome(vpa: VpaController, s: ApiState, a: Attempt, n: nat, f: nat) {
    && Progress(Items(SLOTS, vpa, a.cfg, s.store), s, a.api, n)
    && f <= |SLOTS|
    && (forall i :: 0 <= i < f ==> ConformsAt(SLOTS[i], vpa, a.cfg, a.api.store))
    && (forall i :: f < i < |SLOTS| ==>
         Lookup(a.api.store, SlotKey(SLOTS[i], vpa, a.cfg)) == Lookup(s.store, SlotKey(SLOTS[i], vpa, a.cfg)))
    && FaultCount(a.api.fates) <= FaultCount(s.fates)
    && (a.error == None ==>
         && f == |SLOTS| && n == |Todo(vpa, a.cfg, s.store)|
         && forall i :: 0 <= i < |SLOTS| ==> SlotKey(SLOTS[i], vpa, a.cfg) in s.store || CanOwn(vpa, a.cfg))
    && (a.error != None ==>
         && f < |SLOTS|
         && (FaultCount(a.api.fates) < FaultCount(s.fates)
             || (!CanOwn(vpa, a.cfg) && SlotKey(SLOTS[f], vpa, a.cfg) !in s.store)))
  }

  lemma SlotsInPlace(vpa: VpaController, cfg: Config, before: ApiState, after: ApiState, n: nat, f: nat)
    requires f <= |SLOTS|
    requires var items := Items(SLOTS, vpa, cfg, before.store);
      && Progress(items, before, after, n)
      && forall i :: 0 <= i < f ==> items[i].done || items[i].key in Keys(Work(items)[..n])
    ensures forall i :: 0 <= i < f ==> ConformsAt(SLOTS[i], vpa, cfg, after.store)
  {
    var items := Items(SLOTS, vpa, cfg, before.store);
    TenObjects(vpa, cfg);
    DistinctKeysDistinctItems(SLOTS, vpa, cfg, before.store);
    forall i | 0 <= i < f
      ensures ItemAt(SLOTS[i], vpa, cfg, after.store).done
    {
      if items[i].key in Keys(Work(items)[..n]) {
        WrittenTarget(items, n, i, after.store);
        ItemWritten(SLOTS[i], vpa, cfg, before.store, after.store);
      } else {
        ItemReads(SLOTS[i], vpa, cfg, before.store, after.store);
      }
    }
  }

  lemma ItemKeys(vpa: VpaController, cfg: Config, store: Store)
    ensures var items := Items(SLOTS, vpa, cfg, store);
      forall i :: 0 <= i < |items| ==> items[i].key == SlotKey(SLOTS[i], vpa, cfg)
  {
  }

  lemma ProgressFrom(items: seq<Item>, s: ApiState, later: ApiState, after: ApiState, n: nat)
    requires later.store == s.store && later.writes == s.writes && Progress(items, later, after, n)
    ensures Progress(items, s, after, n)
  {
  }

  lemma NoProgress(items: seq<Item>, s: ApiState, after: ApiState)
    requires after.store == s.store && after.writes == s.writes
    ensures Progress(items, s, after, 0)
  {
    assert Keys(Work(items)[..0]) == [];
    assert s.writes + [] == s.writes;
  }

  /** A walk over the ten objects that starts after some calls of the same attempt. */
  lemma Walked(vpa: VpaController, cfg: Config, s: ApiState, later: ApiState) returns (n: nat, f: nat)
    requires later.store == s.store && later.writes == s.writes && FaultCount(later.fates) <= FaultCount(s.fates)
    ensures var r := EnsuredSlots(SLOTS, vpa, cfg, later); Outcome(vpa, s, Attempt(r.api, cfg, r.error), n, f)
  {
    hide EnsuredSlots, ConformsAt, SlotKey, CanOwn, FaultCount, DistinctKeys, Progress, Work, ItemAt;
    var items, after := Items(SLOTS, vpa, cfg, s.store), EnsuredSlots(SLOTS, vpa, cfg, later).api;
    TenObjects(vpa, cfg);
    n, f := WalkSlots(SLOTS, vpa, cfg, later);
    SlotsInPlace(vpa, cfg, later, after, n, f);
    ProgressFrom(items, s, later, after, n);
    ItemKeys(vpa, cfg, s.store);
  }

  /** A managed attempt does not touch any object outside the ten. */
  lemma OthersUntouched(vpa: VpaController, cfg: Config, before: ApiState, after: ApiState, n: nat, k: Key)
    requires Progress(Items(SLOTS, vpa, cfg, before.store), before, after, n) && k !in SlotKeys(vpa, cfg)
    ensures Lookup(after.store, k) == Lookup(before.store, k)
  {
    hide ItemAt, SlotKey;
    var work := Work(Items(SLOTS, vpa, cfg, before.store));
    TodoManaged(vpa, cfg, before.store);
    assert Keys(work[..n]) == Keys(work)[..n];
    assert forall x :: x in Keys(work)[..n] ==> x in Keys(work);
  }

  lemma Attempted(request: Key, vpa: VpaController, cfg: Config, s: ApiState) returns (n: nat, f: nat)
    requires Present(request, vpa, s.store)
    ensures Outcome(vpa, s, Reconciled(request, cfg, s), n, f)
    ensures Present(request, vpa, Reconciled(request, cfg, s).api.store)
  {
    hide EnsuredSlots, ConformsAt, SlotKey, CanOwn, FaultCount, Items, Progress;
    var cfg' := WithTls(cfg, SyncedTls(s).reading);
    var s1, s2 := Consume(s), Consume(Consume(s));
    ConsumeCounts(s);
    ConsumeCounts(s1);
    if NextFate(s1) != Served {
      n, f := 0, 0;
      NoProgress(Items(SLOTS, vpa, cfg', s.store), s, s2);
    } else {
      n, f := Walked(vpa, cfg', s, s2);
      ManagedKinds(vpa, cfg');
      OthersUntouched(vpa, cfg', s, EnsuredSlots(SLOTS, vpa, cfg', s2).api, n, request);
    }
  }

  /** A nil return, whatever faults there were on the way, means that all ten objects conform. */
  lemma NilMeansConforming(request: Key, vpa: VpaController, cfg: Config, s: ApiState)
    requires Present(request, vpa, s.store)
    ensures var a := Reconciled(request, cfg, s); a.error == None ==> AllConform(vpa, a.cfg, a.api.store)
  {
    hide Reconciled, ConformsAt, Progress;
    var n, f := Attempted(request, vpa, cfg, s);
  }

  ghost predicate AllConform(vpa: VpaController, cfg: Config, store: Store) {
    forall i :: 0 <= i < |SLOTS| ==> ConformsAt(SLOTS[i], vpa, cfg, store)
  }

  lemma NothingTodo(vpa: VpaController, cfg: Config, store: Store)
    ensures Todo(vpa, cfg, store) == [] <==> AllConform(vpa, cfg, store)
    ensures Distinct(Todo(vpa, cfg, store))
  {
    var items := Items(SLOTS, vpa, cfg, store);
    WorkMembers(items);
    TodoManaged(vpa, cfg, store);
    assert AllConform(vpa, cfg, store) <==> forall i :: 0 <= i < |items| ==> items[i].done;
  }

  lemma SameLookups(a: Store, b: Store)
    requires forall k :: Lookup(a, k) == Lookup(b, k)
    ensures a == b
  {
    assert forall k :: k in a <==> Lookup(a, k).Some?;
    assert forall k :: k in b <==> Lookup(b, k).Some?;
    assert forall k :: k in a ==> a[k] == Lookup(a, k).value;
    assert forall k :: k in b ==> b[k] == Lookup(b, k).value;
  }

  /** No progress means no change at all. */
  lemma ZeroProgress(items: seq<Item>, before: ApiState, after: ApiState)
    requires Progress(items, before, after, 0)
    ensures after.store == before.store && after.writes == before.writes
  {
    assert Keys(Work(items)[..0]) == [];
    forall k
      ensures Lookup(after.store, k) == Lookup(before.store, k)
    {
      assert k !in Keys(Work(items)[..0]);
    }
    SameLookups(after.store, before.store);
  }

  /** Reading the APIServer configuration would not change the profile in use. */
  predicate SettledTls(cfg: Config, store: Store) {
    API_SERVER_KEY in store ==> WithTls(cfg, ReadTls(store[API_SERVER_KEY].apiServer)) == cfg
  }

  lemma SettledStays(request: Key, cfg: Config, s: ApiState)
    requires request.kind == VpaKind && SettledTls(cfg, s.store)
    ensures Reconciled(request, cfg, s).cfg == cfg
  {
  }

  lemma ServedSettles(request: Key, cfg: Config, s: ApiState)
    requires request.kind == VpaKind && NextFate(s) == Served
    ensures SettledTls(Reconciled(request, cfg, s).cfg, s.store)
  {
  }

  /** When all ten conform, an attempt writes nothing, whatever the fates; without faults it succeeds. */
  lemma QuietAttempt(request: Key, vpa: VpaController, cfg: Config, s: ApiState)
    requires Present(request, vpa, s.store) && SettledTls(cfg, s.store) && AllConform(vpa, cfg, s.store)
    ensures var a := Reconciled(request, cfg, s);
      && a.cfg == cfg && a.api.writes == s.writes && a.api.store == s.store
      && (FaultCount(s.fates) == 0 ==> a.error == None)
  {
    var a := Reconciled(request, cfg, s);
    SettledStays(request, cfg, s);
    var n, f := Attempted(request, vpa, cfg, s);
    NothingTodo(vpa, cfg, s.store);
    ZeroProgress(Items(SLOTS, vpa, cfg, s.store), s, a.api);
    if a.error != None {
      assert ConformsAt(SLOTS[f], vpa, cfg, s.store);
    }
  }

  lemma NamesDoNotDependOnTls(vpa: VpaController, cfg: Config, later: Config)
    requires later == cfg.(tls := later.tls)
    ensures forall i :: 0 <= i < |SLOTS| ==> SlotKey(SLOTS[i], vpa, later) == SlotKey(SLOTS[i], vpa, cfg)
    ensures CanOwn(vpa, later) == CanOwn(vpa, cfg)
  {
  }

  lemma NoFaultServed(s: ApiState)
    requires FaultCount(s.fates) == 0
    ensures NextFate(s) == Served
  {
  }

  lemma TlsOnly(request: Key, cfg: Config, s: ApiState)
    requires request.kind == VpaKind
    ensures Reconciled(request, cfg, s).cfg == cfg.(tls := Reconciled(request, cfg, s).cfg.tls)
  {
  }

  /** An attempt without faults succeeds if and only if the resource may own the objects or none of them is missing.
      If it succeeds it has written exactly the objects that did not conform, each once, and all ten conform. */
  lemma ExactWrites(request: Key, vpa: VpaController, cfg: Config, s: ApiState)
    requires Present(request, vpa, s.store) && FaultCount(s.fates) == 0
    ensures var a := Reconciled(request, cfg, s);
      && (a.error == None <==> Creatable(vpa, cfg, s.store))
      && (a.error == None ==>
           && a.api.writes == s.writes + Todo(vpa, a.cfg, s.store)
           && Distinct(Todo(vpa, a.cfg, s.store))
           && AllConform(vpa, a.cfg, a.api.store))
  {
    hide Reconciled, ConformsAt, SlotKey, Progress, Todo;
    var a := Reconciled(request, cfg, s);
    var n, f := Attempted(request, vpa, cfg, s);
    TlsOnly(request, cfg, s);
    NamesDoNotDependOnTls(vpa, cfg, a.cfg);
    NothingTodo(vpa, a.cfg, s.store);
    ProgressMade(vpa, a.cfg, s, a.api, n);
  }

  /** After an attempt without faults that succeeded, the next one writes nothing. */
  lemma SecondAttemptQuiet(request: Key, vpa: VpaController, cfg: Config, s: ApiState)
    requires Present(request, vpa, s.store) && FaultCount(s.fates) == 0
    requires Reconciled(request, cfg, s).error == None
    ensures var a := Reconciled(request, cfg, s);
      var again := Reconciled(request, a.cfg, a.api);
      again.error == None && again.cfg == a.cfg && again.api.writes == a.api.writes && again.api.store == a.api.store
  {
    var a := Reconciled(request, cfg, s);
    var n, f := Attempted(request, vpa, cfg, s);
    ExactWrites(request, vpa, cfg, s);
    NoFaultServed(s);
    ServedSettles(request, cfg, s);
    ManagedKinds(vpa, a.cfg);
    OthersUntouched(vpa, a.cfg, s, a.api, n, API_SERVER_KEY);
    SettledElsewhere(a.cfg, s.store, a.api.store);
    QuietAttempt(request, vpa, a.cfg, a.api);
  }

  lemma SettledElsewhere(cfg: Config, a: Store, b: Store)
    requires SettledTls(cfg, a) && Lookup(a, API_SERVER_KEY) == Lookup(b, API_SERVER_KEY)
    ensures SettledTls(cfg, b)
  {
  }

  /** Whatever fails, the objects before the failing one conform and the objects after it are as they were; only managed
      objects are written. */
  lemma FailedAttempt(request: Key, vpa: VpaController, cfg: Config, s: ApiState) returns (f: nat)
    requires Present(request, vpa, s.store) && Reconciled(request, cfg, s).error != None
    ensures var a := Reconciled(request, cfg, s);
      && f < |SLOTS|
      && (forall i :: 0 <= i < f ==> ConformsAt(SLOTS[i], vpa, a.cfg, a.api.store))
      && (forall i :: f < i < |SLOTS| ==>
            Lookup(a.api.store, SlotKey(SLOTS[i], vpa, a.cfg)) == Lookup(s.store, SlotKey(SLOTS[i], vpa, a.cfg)))
      && (Creatable(vpa, cfg, s.store) ==> FaultCount(a.api.fates) < FaultCount(s.fates))
  {
    hide Reconciled, ConformsAt, FaultCount, Progress, SlotKey;
    var n;
    n, f := Attempted(request, vpa, cfg, s);
    TlsOnly(request, cfg, s);
    NamesDoNotDependOnTls(vpa, cfg, Reconciled(request, cfg, s).cfg);
  }

  // Runs

  datatype RunState = RunState(api: ApiState, cfg: Config, failures: nat)

  ghost function Run(request: Key, cfg: Config, s: ApiState, attempts: nat): RunState
    requires request.kind == VpaKind
  {
    if attempts == 0 then RunState(s, cfg, 0)
    else
      var before := Run(request, cfg, s, attempts - 1);
      var a := Reconciled(request, before.cfg, before.api);
      NextRunState(before, a)
  }

  function NextRunState(before: RunState, a: Attempt): RunState {
    RunState(a.api, a.cfg, before.failures + if a.error == None then 0 else 1)
  }

  /** The first k of the objects to do have been written, each once, and nothing else has changed. */
  ghost predicate Made(todo: seq<Key>, before: ApiState, after: ApiState, k: nat) {
    && k <= |todo|
    && after.writes == before.writes + todo[..k]
    && forall key :: key !in todo[..k] ==> Lookup(after.store, key) == Lookup(before.store, key)
  }

  lemma MadeMore(todo: seq<Key>, s: ApiState, before: ApiState, after: ApiState, j: nat, n: nat)
    requires Made(todo, s, before, j) && Made(todo[j..], before, after, n)
    ensures Made(todo, s, after, j + n) && todo[j..][n..] == todo[j + n..]
  {
    assert todo[..j] + todo[j..][..n] == todo[..j + n];
    assert s.writes + todo[..j] + todo[j..][..n] == s.writes + (todo[..j] + todo[j..][..n]);
    forall key | key !in todo[..j + n]
      ensures key !in todo[..j] && key !in todo[j..][..n]
    {
    }
  }

  /** Where a run stands: k of the objects found non-conforming at the start have been written, each once; every failed
      attempt has used up a fault; and either no attempt has succeeded yet or nothing is left to do. */
  ghost predicate Standing(vpa: VpaController, s: ApiState, r: RunState, attempts: nat, k: nat) {
    var todo := Todo(vpa, r.cfg, s.store);
    && Made(todo, s, r.api, k)
    && Todo(vpa, r.cfg, r.api.store) == todo[k..]
    && r.failures + FaultCount(r.api.fates) <= FaultCount(s.fates)
    && (r.failures == attempts || k == |todo|)
  }

  /** The premises that a run keeps. */
  ghost predicate Steady(request: Key, vpa: VpaController, cfg: Config, store: Store) {
    Present(request, vpa, store) && SettledTls(cfg, store) && Creatable(vpa, cfg, store)
  }

  lemma NothingDeleted(vpa: VpaController, cfg: Config, before: ApiState, after: ApiState, n: nat)
    requires Progress(Items(SLOTS, vpa, cfg, before.store), before, after, n)
    ensures Creatable(vpa, cfg, before.store) ==> Creatable(vpa, cfg, after.store)
  {
    hide Items, SlotKey, CanOwn, Work;
    var work := Work(Items(SLOTS, vpa, cfg, before.store));
    forall k | k in before.store
      ensures k in after.store
    {
      var keys := Keys(work[..n]);
      if k in keys {
        var j :| 0 <= j < |keys| && keys[j] == k;
        assert Lookup(after.store, work[j].key).Some?;
      } else {
        assert Lookup(after.store, k) == Lookup(before.store, k);
      }
    }
  }

  ghost predicate SteadyStep(vpa: VpaController, cfg: Config, s: ApiState, a: Attempt, n: nat) {
    var todo := Todo(vpa, cfg, s.store);
    && a.cfg == cfg
    && Made(todo, s, a.api, n) && Todo(vpa, cfg, a.api.store) == todo[n..]
    && (a.error == None ==> n == |todo|)
    && FaultCount(a.api.fates) + (if a.error == None then 0 else 1) <= FaultCount(s.fates)
  }

  lemma ProgressMade(vpa: VpaController, cfg: Config, s: ApiState, after: ApiState, n: nat)
    requires Progress(Items(SLOTS, vpa, cfg, s.store), s, after, n)
    ensures Made(Todo(vpa, cfg, s.store), s, after, n)
  {
    hide Items, Work;
    var work := Work(Items(SLOTS, vpa, cfg, s.store));
    assert Keys(work[..n]) == Keys(work)[..n];
  }

  lemma SteadyAttempt(request: Key, vpa: VpaController, cfg: Config, s: ApiState) returns (n: nat)
    requires Steady(request, vpa, cfg, s.store)
    ensures Steady(request, vpa, cfg, Reconciled(request, cfg, s).api.store)
    ensures SteadyStep(vpa, cfg, s, Reconciled(request, cfg, s), n)
  {
    hide Reconciled, ConformsAt, SlotKey, FaultCount, Progress, Made, Todo;
    var a := Reconciled(request, cfg, s);
    SettledStays(request, cfg, s);
    var f;
    n, f := Attempted(request, vpa, cfg, s);
    ManagedKinds(vpa, cfg);
    OthersUntouched(vpa, cfg, s, a.api, n, API_SERVER_KEY);
    SettledElsewhere(cfg, s.store, a.api.store);
    ProgressLeaves(vpa, cfg, s, a.api, n);
    ProgressMade(vpa, cfg, s, a.api, n);
    NothingDeleted(vpa, cfg, s, a.api, n);
  }

  lemma StandingNext(vpa: VpaController, s: ApiState, before: RunState, a: Attempt, attempts: nat, j: nat, n: nat)
    requires Standing(vpa, s, before, attempts, j) && SteadyStep(vpa, before.cfg, before.api, a, n)
    ensures Standing(vpa, s, NextRunState(before, a), attempts + 1, j + n)
  {
    MadeMore(Todo(vpa, before.cfg, s.store), s, before.api, a.api, j, n);
  }

  ghost predicate Converging(request: Key, vpa: VpaController, cfg: Config, s: ApiState, r: RunState, attempts: nat,
                             k: nat) {
    r.cfg == cfg && Steady(request, vpa, cfg, r.api.store) && Standing(vpa, s, r, attempts, k)
  }

  lemma ConvergingNext(request: Key, vpa: VpaController, cfg: Config, s: ApiState, before: RunState, attempts: nat,
                       j: nat)
    returns (k: nat)
    requires Converging(request, vpa, cfg, s, before, attempts, j)
    ensures Converging(request, vpa, cfg, s, NextRunState(before, Reconciled(request, before.cfg, before.api)),
      attempts + 1, k)
  {
    hide Reconciled, Standing, SettledTls, Creatable, Made, Todo, FaultCount;
    var n := SteadyAttempt(request, vpa, cfg, before.api);
    StandingNext(vpa, s, before, Reconciled(request, cfg, before.api), attempts, j, n);
    k := j + n;
  }

  lemma ConvergingStart(request: Key, vpa: VpaController, cfg: Config, s: ApiState)
    requires Steady(request, vpa, cfg, s.store)
    ensures Converging(request, vpa, cfg, s, RunState(s, cfg, 0), 0, 0)
  {
    hide Steady, Todo, FaultCount;
    assert s.writes + Todo(vpa, cfg, s.store)[..0] == s.writes;
  }

  lemma EnoughAttempts(request: Key, vpa: VpaController, cfg: Config, s: ApiState, r: RunState, attempts: nat, k: nat)
    requires Converging(request, vpa, cfg, s, r, attempts, k) && attempts > FaultCount(s.fates)
    ensures AllConform(vpa, cfg, r.api.store)
  {
    NothingTodo(vpa, cfg, r.api.store);
  }

  /** Convergence, over every run of attempts with any fates: a conforming object is never written again, every failure
      uses up a fault, and once there have been more attempts than faults, all ten objects conform. */
  lemma {:induction false} RunConverges(request: Key, vpa: VpaController, cfg: Config, s: ApiState, attempts: nat)
    returns (k: nat)
    requires Steady(request, vpa, cfg, s.store)
    ensures Converging(request, vpa, cfg, s, Run(request, cfg, s, attempts), attempts, k)
    ensures attempts > FaultCount(s.fates) ==> AllConform(vpa, cfg, Run(request, cfg, s, attempts).api.store)
  {
    hide Reconciled, Converging, AllConform, SettledTls, Creatable;
    if attempts == 0 {
      k := 0;
      ConvergingStart(request, vpa, cfg, s);
    } else {
      var j := RunConverges(request, vpa, cfg, s, attempts - 1);
      k := ConvergingNext(request, vpa, cfg, s, Run(request, cfg, s, attempts - 1), attempts - 1, j);
    }
    if attempts > FaultCount(s.fates) {
      EnoughAttempts(request, vpa, cfg, s, Run(request, cfg, s, attempts), attempts, k);
    }
  }

  /** A conforming object is not touched again in any run. */
  lemma ConformingStays(request: Key, vpa: VpaController, cfg: Config, s: ApiState, attempts: nat, i: nat)
    requires Steady(request, vpa, cfg, s.store) && i < |SLOTS| && ConformsAt(SLOTS[i], vpa, cfg, s.store)
    ensures Lookup(Run(request, cfg, s, attempts).api.store, SlotKey(SLOTS[i], vpa, cfg)) ==
      Lookup(s.store, SlotKey(SLOTS[i], vpa, cfg))
  {
    hide Run, ConformsAt, SlotKey, Todo, Steady;
    var k := RunConverges(request, vpa, cfg, s, attempts);
    DoneIsNotTodo(vpa, cfg, s.store, i);
  }

  /** Under any fates, an attempt does not touch an object that conforms. */
  lemma ConformingUntouched(request: Key, vpa: VpaController, cfg: Config, s: ApiState, i: nat)
    requires Present(request, vpa, s.store) && i < |SLOTS|
    requires ConformsAt(SLOTS[i], vpa, Reconciled(request, cfg, s).cfg, s.store)
    ensures var a := Reconciled(request, cfg, s);
      Lookup(a.api.store, SlotKey(SLOTS[i], vpa, a.cfg)) == Lookup(s.store, SlotKey(SLOTS[i], vpa, a.cfg))
  {
    hide Reconciled, ConformsAt, SlotKey, Progress, Todo;
    var a := Reconciled(request, cfg, s);
    var n, f := Attempted(request, vpa, cfg, s);
    ProgressMade(vpa, a.cfg, s, a.api, n);
    DoneIsNotTodo(vpa, a.cfg, s.store, i);
  }
}
