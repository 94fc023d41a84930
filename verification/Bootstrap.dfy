/** The one-shot creation of the default resource.  It runs outside the work queue, as four separate calls, in every
    operator instance that starts, while users and other operators change the cluster in between. */
module Bootstrap {
  import opened Common
  import opened ApiTypes
  import opened ApiServer
  import opened Flags

  const CREATED_ANNOTATION := "autoscaling.openshift.io/default-vpa-controller-created"

  function ResourceKey(cfg: Config): Key {
    Key(VpaKind, cfg.namespace, cfg.name)
  }

  function NamespaceKey(cfg: Config): Key {
    Key(NamespaceKind, "", cfg.namespace)
  }

  const NO_OVERRIDE := DeploymentOverride([], Resources(None, None), map[], [])

  function DefaultVPAController(cfg: Config): (vpa: VpaController)
    ensures VpaObject(vpa).GetKey() == ResourceKey(cfg)
  {
    VpaController(EmptyMeta(cfg.namespace, cfg.name),
                  VpaSpec(Some("0.15"), Some("25"), Some("250"), Some(false), Some("2"), NO_OVERRIDE, NO_OVERRIDE,
                    NO_OVERRIDE))
  }

  // One instance

  /** How far an instance is: `seen` is the namespace as it read it, which it does not read again. */
  datatype Phase = Starting | Checking(seen: Namespace) | Creating(seen: Namespace) | Patching(seen: Namespace)
                 | Done(error: Option<Error>)

  /** The annotations of a strategic merge patch from one version of an object to another that has lost none. */
  function Additions(original: StringMap, modified: StringMap): map<string, string> {
    map k | k in Entries(modified) && (k !in Entries(original) || Entries(original)[k] != Entries(modified)[k]) ::
      Entries(modified)[k]
  }

  function Marked(annotations: StringMap): StringMap {
    Put(annotations, CREATED_ANNOTATION, "true")
  }

  datatype BootReply = BootReply(api: ApiState, phase: Phase)

  /** One call of an instance, and where it goes from there. */
  function BootStep(phase: Phase, cfg: Config, s: ApiState): BootReply {
    match phase
    case Starting =>
      var got := Fetched(s, NamespaceKey(cfg));
      BootReply(got.api, match got.result
                         case Err(e) => Done(Some(e))
                         case Ok(o) =>
                           if CREATED_ANNOTATION in Entries(o.namespace.meta.annotations) then Done(None)
                           else Checking(o.namespace))
    case Checking(seen) =>
      var got := Fetched(s, ResourceKey(cfg));
      BootReply(got.api, match got.result
                         case Ok(_) => Patching(seen)
                         case Err(e) => if e == NotFound then Creating(seen) else Done(Some(e)))
    case Creating(seen) =>
      var created := Created(s, VpaObject(DefaultVPAController(cfg)));
      BootReply(created.api,
                if created.error == None || created.error == Some(AlreadyExists) then Patching(seen)
                  else Done(created.error))
    case Patching(seen) =>
      var annotations := seen.meta.annotations;
      var patched := Patched(s, seen.meta.name, Additions(annotations, Marked(annotations)));
      BootReply(patched.api, Done(patched.error))
    case Done(_) => BootReply(s, phase)
  }

  function CallsLeft(phase: Phase): nat {
    match phase
    case Starting => 4
    case Checking(_) => 3
    case Creating(_) => 2
    case Patching(_) => 1
    case Done(_) => 0
  }

  /** An instance that nobody interrupts. */
  function Finished(phase: Phase, cfg: Config, s: ApiState): WriteReply
    decreases CallsLeft(phase)
  {
    match phase
    case Done(error) => WriteReply(s, error)
    case _ => var step := BootStep(phase, cfg, s); Finished(step.phase, cfg, step.api)
  }

  /** The end of the run: the patch is computed against the namespace as it was read. */
  method MarkNamespace(client: Client, seen: Namespace, cfg: Config) returns (error: Option<Error>)
    modifies client
    ensures WriteReply(client.State(), error) == Finished(Patching(seen), cfg, old(client.State()))
  {
    hide Patched, Additions, Entries;
    error := client.PatchNamespace(seen.meta.name, Additions(seen.meta.annotations, Marked(seen.meta.annotations)));
  }

  method EnsureVPAController(client: Client, cfg: Config) returns (error: Option<Error>)
    modifies client
    ensures WriteReply(client.State(), error) == Finished(Starting, cfg, old(client.State()))
  {
    hide Created, DefaultVPAController, Entries, Patched;
    var namespace := client.Get(NamespaceKey(cfg));
    if namespace.Err? {
      return Some(namespace.error);
    }
    var seen := namespace.value.namespace;
    var annotations := seen.meta.annotations;
    if CREATED_ANNOTATION !in Entries(annotations) {
      ghost var checking := client.State();
      assert Finished(Starting, cfg, old(client.State())) == Finished(Checking(seen), cfg, checking);
      var found := client.Get(ResourceKey(cfg));
      if found.Err? {
        if found.error == NotFound {
          ghost var creating := client.State();
          assert Finished(Checking(seen), cfg, checking) == Finished(Creating(seen), cfg, creating);
          var vpa := DefaultVPAController(cfg);
          error := client.Create(VpaObject(vpa));
          if error != None && error != Some(AlreadyExists) {
            assert Finished(Creating(seen), cfg, creating) == WriteReply(client.State(), error);
            return;
          }
        } else {
          return Some(found.error);
        }
      }
      assert Finished(Checking(seen), cfg, checking) == Finished(Patching(seen), cfg, client.State());
      error := MarkNamespace(client, seen, cfg);
      return;
    }
    return None;
  }

  // Many instances

  /** Operator instances by number; one that is not in the map has not started. */
  datatype Sys = Sys(store: Store, phases: map<nat, Phase>)

  /** `Others` is everybody else leaving the store as given. */
  datatype Event = Step(instance: nat, fate: Fate) | Others(store: Store)

  function PhaseOf(s: Sys, i: nat): Phase {
    if i in s.phases then s.phases[i] else Starting
  }

  function Stepped(s: Sys, i: nat, fate: Fate, cfg: Config): BootReply {
    BootStep(PhaseOf(s, i), cfg, ApiState(s.store, [fate], []))
  }

  function Next(s: Sys, e: Event, cfg: Config): Sys {
    match e
    case Step(i, fate) => Sys(Stepped(s, i, fate, cfg).api.store, s.phases[i := Stepped(s, i, fate, cfg).phase])
    case Others(store) => s.(store := store)
  }

  function After(s: Sys, events: seq<Event>, cfg: Config): Sys
    decreases |events|
  {
    if events == [] then s else Next(After(s, events[..|events| - 1], cfg), events[|events| - 1], cfg)
  }

  predicate IsMarked(store: Store, cfg: Config) {
    NamespaceKey(cfg) in store && CREATED_ANNOTATION in Entries(store[NamespaceKey(cfg)].namespace.meta.annotations)
  }

  /** What an instance has seen is the unmarked operator namespace. */
  predicate PhaseOk(phase: Phase, cfg: Config) {
    match phase
    case Starting => true
    case Done(_) => true
    case _ => phase.seen.meta.name == cfg.namespace && CREATED_ANNOTATION !in Entries(phase.seen.meta.annotations)
  }

  ghost predicate PhasesOk(s: Sys, cfg: Config) {
    forall i: nat :: PhaseOk(PhaseOf(s, i), cfg)
  }

  // What one call does

  lemma MarkIsTheOnlyAddition(annotations: StringMap)
    requires CREATED_ANNOTATION !in Entries(annotations)
    ensures Additions(annotations, Marked(annotations)) == map[CREATED_ANNOTATION := "true"]
  {
  }

  /** The object a call leaves under a key: what was there, except that the default resource may be created where none
      was, and that the namespace of now may gain the annotation, whatever was read before. */
  ghost predicate CallEffect(k: Key, before: Option<Object>, after: Option<Object>, creating: bool, cfg: Config) {
    || after == before
    || (k == ResourceKey(cfg) && creating && before == None && after == Some(VpaObject(DefaultVPAController(cfg))))
    || (k == NamespaceKey(cfg) && before.Some? && before.value.NamespaceObject?
        && after == Some(NamespaceObject(WithAnnotations(before.value.namespace, map[CREATED_ANNOTATION := "true"]))))
  }

  /** In every state: no existing resource is overwritten or deleted, and every other annotation of the namespace is
      kept, also one that somebody added after the instance read it. */
  lemma StepFrame(s: Sys, i: nat, fate: Fate, cfg: Config, k: Key)
    requires PhaseOk(PhaseOf(s, i), cfg)
    ensures var step := Stepped(s, i, fate, cfg);
      && CallEffect(k, Lookup(s.store, k), Lookup(step.api.store, k), PhaseOf(s, i).Creating?, cfg)
      && (IsMarked(s.store, cfg) ==> IsMarked(step.api.store, cfg))
      && PhaseOk(step.phase, cfg)
      && (step.phase == Done(None) && PhaseOf(s, i) != Done(None) ==> IsMarked(step.api.store, cfg))
  {
    hide DefaultVPAController, Patched, WithAnnotations;
    var phase := PhaseOf(s, i);
    if phase.Patching? {
      PatchStep(phase.seen, cfg, ApiState(s.store, [fate], []));
    }
  }

  lemma PatchStep(seen: Namespace, cfg: Config, s: ApiState)
    requires PhaseOk(Patching(seen), cfg)
    ensures var step, k := BootStep(Patching(seen), cfg, s), NamespaceKey(cfg);
      && step.phase.Done?
      && if k in s.store && step.api.store != s.store then
           && step.api.store ==
                s.store[k := NamespaceObject(WithAnnotations(s.store[k].namespace, map[CREATED_ANNOTATION := "true"]))]
           && IsMarked(step.api.store, cfg)
         else step.api.store == s.store && (step.phase == Done(None) ==> IsMarked(s.store, cfg))
  {
    MarkIsTheOnlyAddition(seen.meta.annotations);
  }

  lemma NextOk(s: Sys, e: Event, cfg: Config)
    requires PhasesOk(s, cfg)
    ensures PhasesOk(Next(s, e, cfg), cfg)
    ensures e.Step? && IsMarked(s.store, cfg) ==> IsMarked(Next(s, e, cfg).store, cfg)
  {
    hide CallEffect, Stepped, PhaseOk, IsMarked;
    if e.Step? {
      StepFrame(s, e.instance, e.fate, cfg, ResourceKey(cfg));
    }
    PhasesNext(s, e, cfg);
  }

  lemma PhasesNext(s: Sys, e: Event, cfg: Config)
    ensures forall j: nat ::
      PhaseOf(Next(s, e, cfg), j) ==
        (if e.Step? && e.instance == j then Stepped(s, e.instance, e.fate, cfg).phase else PhaseOf(s, j))
  {
    hide Stepped;
  }

  lemma {:induction false} RunOk(s: Sys, events: seq<Event>, cfg: Config)
    requires PhasesOk(s, cfg)
    ensures PhasesOk(After(s, events, cfg), cfg)
    decreases |events|
  {
    hide PhasesOk, Next;
    if events != [] {
      RunOk(s, events[..|events| - 1], cfg);
      NextOk(After(s, events[..|events| - 1], cfg), events[|events| - 1], cfg);
    }
  }

  // The annotation

  /** Instance i returns nil in the n-th event. */
  ghost predicate ReturnsNil(s: Sys, events: seq<Event>, n: nat, i: nat, cfg: Config) {
    && n < |events|
    && PhaseOf(After(s, events[..n], cfg), i) != Done(None)
    && PhaseOf(After(s, events[..n + 1], cfg), i) == Done(None)
  }

  /** From the n-th event on, nobody takes the annotation away. */
  ghost predicate MarkKeptFrom(s: Sys, events: seq<Event>, n: nat, cfg: Config) {
    forall m :: n <= m < |events| && events[m].Others? && IsMarked(After(s, events[..m], cfg).store, cfg) ==>
      IsMarked(events[m].store, cfg)
  }

  lemma AfterOneMore(s: Sys, events: seq<Event>, n: nat, cfg: Config)
    requires n < |events|
    ensures After(s, events[..n + 1], cfg) == Next(After(s, events[..n], cfg), events[n], cfg)
  {
    assert events[..n + 1][..n] == events[..n];
  }

  lemma NilStep(s: Sys, e: Event, i: nat, cfg: Config)
    requires PhasesOk(s, cfg) && PhaseOf(s, i) != Done(None) && PhaseOf(Next(s, e, cfg), i) == Done(None)
    ensures IsMarked(Next(s, e, cfg).store, cfg)
  {
    hide CallEffect, Stepped, PhaseOk, IsMarked;
    PhasesNext(s, e, cfg);
    if e.Step? {
      StepFrame(s, e.instance, e.fate, cfg, ResourceKey(cfg));
    }
  }

  /** In every interleaving, whatever happened to the annotation before: from the event in which an instance returns
      nil, the annotation is in place until somebody else takes it away. */
  lemma {:induction false} NilReturnMeansMarked(s: Sys, events: seq<Event>, n: nat, i: nat, m: nat, cfg: Config)
    requires PhasesOk(s, cfg) && ReturnsNil(s, events, n, i, cfg) && MarkKeptFrom(s, events, n + 1, cfg)
    requires n < m <= |events|
    ensures IsMarked(After(s, events[..m], cfg).store, cfg)
    decreases m
  {
    hide PhasesOk, IsMarked, Next, PhaseOf, After;
    AfterOneMore(s, events, m - 1, cfg);
    RunOk(s, events[..m - 1], cfg);
    if m == n + 1 {
      NilStep(After(s, events[..n], cfg), events[n], i, cfg);
    } else {
      NilReturnMeansMarked(s, events, n, i, m - 1, cfg);
      MarkStep(After(s, events[..m - 1], cfg), events[m - 1], cfg);
    }
  }

  lemma MarkStep(s: Sys, e: Event, cfg: Config)
    requires PhasesOk(s, cfg) && IsMarked(s.store, cfg) && (e.Others? ==> IsMarked(e.store, cfg))
    ensures IsMarked(Next(s, e, cfg).store, cfg)
  {
    hide PhasesOk, IsMarked, Stepped;
    NextOk(s, e, cfg);
  }

  // Getting to the end

  /** The calls that an instance has made in the events. */
  function CallsMade(events: seq<Event>, i: nat): nat
    decreases |events|
  {
    if events == [] then 0
    else
      var last := events[|events| - 1];
      CallsMade(events[..|events| - 1], i) + if last.Step? && last.instance == i then 1 else 0
  }

  /** Every call of the instance is served, with the namespace there. */
  ghost predicate Undisturbed(s: Sys, events: seq<Event>, i: nat, cfg: Config) {
    forall n :: 0 <= n < |events| && events[n].Step? && events[n].instance == i ==>
      events[n].fate == Served && NamespaceKey(cfg) in After(s, events[..n], cfg).store
  }

  /** A served call brings the instance nearer to its end, and the end is without an error. */
  lemma ServedStep(s: Sys, i: nat, cfg: Config)
    requires PhaseOk(PhaseOf(s, i), cfg) && NamespaceKey(cfg) in s.store
    ensures var phase, phase' := PhaseOf(s, i), Stepped(s, i, Served, cfg).phase;
      && (phase.Done? ==> phase' == phase)
      && (!phase.Done? ==> phase' == Done(None) || CallsLeft(phase') < CallsLeft(phase))
      && (!phase.Done? && phase'.Done? ==> phase' == Done(None))
  {
  }

  /** In every interleaving, whatever others do to the resource in between: an instance whose own calls are served,
      with the namespace there at each of them, has returned nil after four calls at the latest. */
  lemma {:induction false} FourCallsSuffice(s: Sys, events: seq<Event>, i: nat, cfg: Config)
    requires PhasesOk(s, cfg) && PhaseOf(s, i) == Starting && Undisturbed(s, events, i, cfg)
    ensures var phase := PhaseOf(After(s, events, cfg), i);
      phase == Done(None) || (!phase.Done? && CallsLeft(phase) + CallsMade(events, i) <= 4)
    decreases |events|
  {
    hide PhasesOk, Next, Stepped, PhaseOk, After;
    if events == [] {
      NoEvents(s, cfg);
    } else {
      var n := |events| - 1;
      assert forall m :: 0 <= m < n ==> events[..n][..m] == events[..m];
      FourCallsSuffice(s, events[..n], i, cfg);
      RunOk(s, events[..n], cfg);
      var before := After(s, events[..n], cfg);
      AfterOneMore(s, events, n, cfg);
      assert events[..n + 1] == events;
      PhasesNext(before, events[n], cfg);
      if events[n].Step? && events[n].instance == i {
        PhaseIsOk(before, i, cfg);
        ServedStep(before, i, cfg);
      }
    }
  }

  lemma NoEvents(s: Sys, cfg: Config)
    ensures After(s, [], cfg) == s
  {
  }

  /** So after four calls it has returned nil, and at that moment the annotation was in place. */
  lemma UndisturbedInstanceFinishes(s: Sys, events: seq<Event>, i: nat, cfg: Config) returns (n: nat)
    requires PhasesOk(s, cfg) && PhaseOf(s, i) == Starting && Undisturbed(s, events, i, cfg)
    requires CallsMade(events, i) >= 4
    ensures PhaseOf(After(s, events, cfg), i) == Done(None)
    ensures ReturnsNil(s, events, n, i, cfg) && IsMarked(After(s, events[..n + 1], cfg).store, cfg)
  {
    hide PhasesOk, Next, After, IsMarked;
    FourCallsSuffice(s, events, i, cfg);
    NoEvents(s, cfg);
    assert events[..|events|] == events && events[..0] == [];
    n := FirstNil(s, events, |events|, i, cfg);
    NilAtReturn(s, events, n, i, cfg);
  }

  lemma FirstNil(s: Sys, events: seq<Event>, m: nat, i: nat, cfg: Config) returns (n: nat)
    requires m <= |events| && PhaseOf(After(s, events[..m], cfg), i) == Done(None)
    requires PhaseOf(After(s, events[..0], cfg), i) != Done(None)
    ensures ReturnsNil(s, events, n, i, cfg)
  {
    hide After;
    if PhaseOf(After(s, events[..m - 1], cfg), i) == Done(None) {
      n := FirstNil(s, events, m - 1, i, cfg);
    } else {
      n := m - 1;
    }
  }

  lemma NilAtReturn(s: Sys, events: seq<Event>, n: nat, i: nat, cfg: Config)
    requires PhasesOk(s, cfg) && ReturnsNil(s, events, n, i, cfg)
    ensures IsMarked(After(s, events[..n + 1], cfg).store, cfg)
  {
    hide PhasesOk, Next, After, IsMarked;
    RunOk(s, events[..n], cfg);
    AfterOneMore(s, events, n, cfg);
    NilStep(After(s, events[..n], cfg), events[n], i, cfg);
  }

  /** A call that is refused or lost ends the instance with an error; and an instance goes on to the patch only when the
      resource is there, whoever created it. */
  lemma StepOutcome(s: Sys, i: nat, fate: Fate, cfg: Config)
    ensures var phase, phase' := PhaseOf(s, i), Stepped(s, i, fate, cfg).phase;
      && (!phase.Done? && fate != Served ==> phase' == Done(Some(Unavailable)))
      && (!phase.Patching? && phase'.Patching? ==> ResourceKey(cfg) in Stepped(s, i, fate, cfg).api.store)
  {
  }

  // Who creates the resource

  predicate Harmless(phase: Phase) {
    phase.Starting? || phase.Done?
  }

  ghost predicate OthersMark(events: seq<Event>, cfg: Config) {
    forall i :: 0 <= i < |events| && events[i].Others? ==> IsMarked(events[i].store, cfg)
  }

  /** In a marked cluster an instance that has not begun, or is done, does nothing. */
  lemma HarmlessStep(s: Sys, i: nat, fate: Fate, cfg: Config)
    requires IsMarked(s.store, cfg) && Harmless(PhaseOf(s, i))
    ensures Stepped(s, i, fate, cfg).api.store == s.store && Harmless(Stepped(s, i, fate, cfg).phase)
  {
  }

  lemma DoneStep(s: Sys, i: nat, fate: Fate, cfg: Config)
    requires PhaseOf(s, i).Done?
    ensures Stepped(s, i, fate, cfg).api.store == s.store && Stepped(s, i, fate, cfg).phase == PhaseOf(s, i)
  {
  }

  lemma MarkedRead(s: Sys, i: nat, fate: Fate, cfg: Config)
    requires IsMarked(s.store, cfg) && PhaseOf(s, i) == Starting
    ensures Stepped(s, i, fate, cfg).api.store == s.store && Stepped(s, i, fate, cfg).phase.Done?
  {
  }

  lemma {:induction false} DoneStays(s: Sys, events: seq<Event>, n: nat, m: nat, i: nat, cfg: Config)
    requires n <= m <= |events| && PhaseOf(After(s, events[..n], cfg), i).Done?
    ensures PhaseOf(After(s, events[..m], cfg), i).Done?
    decreases m
  {
    hide After, Next, Stepped;
    if n < m {
      DoneStays(s, events, n, m - 1, i, cfg);
      AfterOneMore(s, events, m - 1, cfg);
      var before := After(s, events[..m - 1], cfg);
      PhasesNext(before, events[m - 1], cfg);
      if events[m - 1].Step? && events[m - 1].instance == i {
        DoneStep(before, i, events[m - 1].fate, cfg);
      }
    }
  }

  /** In every interleaving: an instance whose read of the namespace, event n, finds the annotation changes nothing by
      that call or by any later one, under any fate, whatever anybody does to the annotation afterwards. */
  lemma LateInstanceDoesNothing(s: Sys, events: seq<Event>, n: nat, m: nat, i: nat, cfg: Config)
    requires n <= m < |events|
    requires events[n].Step? && events[n].instance == i && events[m].Step? && events[m].instance == i
    requires var read := After(s, events[..n], cfg); IsMarked(read.store, cfg) && PhaseOf(read, i) == Starting
    ensures After(s, events[..m + 1], cfg).store == After(s, events[..m], cfg).store
  {
    hide After, Stepped, IsMarked;
    var read, before := After(s, events[..n], cfg), After(s, events[..m], cfg);
    AfterOneMore(s, events, n, cfg);
    AfterOneMore(s, events, m, cfg);
    MarkedRead(read, i, events[n].fate, cfg);
    if n < m {
      PhasesNext(read, events[n], cfg);
      DoneStays(s, events, n + 1, m, i, cfg);
      DoneStep(before, i, events[m].fate, cfg);
    }
  }

  /** Whoever creates the resource has read the namespace without the annotation: a call that changes the resource is
      made by an instance in an earlier event of which the namespace was not marked. */
  lemma CreatorsReadUnmarked(s: Sys, events: seq<Event>, n: nat, m: nat, cfg: Config)
    requires n <= m < |events| && events[n].Step? && events[m].Step? && events[n].instance == events[m].instance
    requires PhaseOf(After(s, events[..n], cfg), events[n].instance) == Starting
    requires var before, after := After(s, events[..m], cfg).store, After(s, events[..m + 1], cfg).store;
      Lookup(after, ResourceKey(cfg)) != Lookup(before, ResourceKey(cfg))
    ensures !IsMarked(After(s, events[..n], cfg).store, cfg)
  {
    hide After, IsMarked;
    if IsMarked(After(s, events[..n], cfg).store, cfg) {
      LateInstanceDoesNothing(s, events, n, m, events[n].instance, cfg);
    }
  }

  /** So as long as the others leave the annotation in place, an instance that has not started when it is set never
      changes anything. */
  lemma {:induction false} NothingWhileMarked(s: Sys, events: seq<Event>, i: nat, fate: Fate, cfg: Config)
    requires PhasesOk(s, cfg) && IsMarked(s.store, cfg) && PhaseOf(s, i) == Starting && OthersMark(events, cfg)
    ensures var s' := After(s, events, cfg);
      && IsMarked(s'.store, cfg) && Harmless(PhaseOf(s', i))
      && Next(s', Step(i, fate), cfg).store == s'.store
    decreases |events|
  {
    hide PhasesOk, IsMarked, Stepped;
    if events != [] {
      var n := |events| - 1;
      NothingWhileMarked(s, events[..n], i, fate, cfg);
      var before := After(s, events[..n], cfg);
      RunOk(s, events[..n], cfg);
      NextOk(before, events[n], cfg);
      PhasesNext(before, events[n], cfg);
      if events[n].Step? && events[n].instance == i {
        HarmlessStep(before, i, events[n].fate, cfg);
      }
    }
    HarmlessStep(After(s, events, cfg), i, fate, cfg);
  }

  /** The others keep the annotation and do not create the resource. */
  ghost predicate OthersRespect(events: seq<Event>, cfg: Config) {
    forall i :: 0 <= i < |events| && events[i].Others? ==>
      IsMarked(events[i].store, cfg) && ResourceKey(cfg) !in events[i].store
  }

  ghost predicate AllHarmlessOrPatching(s: Sys) {
    forall i: nat :: Harmless(PhaseOf(s, i)) || PhaseOf(s, i).Patching?
  }

  ghost predicate Reappears(s: Sys, events: seq<Event>, cfg: Config) {
    ResourceKey(cfg) in After(s, events, cfg).store
  }

  lemma FinalStep(s: Sys, e: Event, cfg: Config)
    requires PhasesOk(s, cfg) && IsMarked(s.store, cfg) && AllHarmlessOrPatching(s) && ResourceKey(cfg) !in s.store
    requires e.Others? ==> IsMarked(e.store, cfg) && ResourceKey(cfg) !in e.store
    ensures var s' := Next(s, e, cfg);
      IsMarked(s'.store, cfg) && AllHarmlessOrPatching(s') && ResourceKey(cfg) !in s'.store
  {
    hide Stepped, PhaseOk, IsMarked, ResourceKey;
    PhasesNext(s, e, cfg);
    if e.Step? {
      StepFrame(s, e.instance, e.fate, cfg, ResourceKey(cfg));
      if Harmless(PhaseOf(s, e.instance)) {
        HarmlessStep(s, e.instance, e.fate, cfg);
      } else {
        PatchingEnds(s, e.instance, e.fate, cfg);
      }
    }
  }

  lemma PatchingEnds(s: Sys, i: nat, fate: Fate, cfg: Config)
    requires PhaseOf(s, i).Patching?
    ensures Stepped(s, i, fate, cfg).phase.Done?
  {
  }

  lemma {:induction false} FinalRun(s: Sys, events: seq<Event>, cfg: Config)
    requires PhasesOk(s, cfg) && IsMarked(s.store, cfg) && AllHarmlessOrPatching(s) && ResourceKey(cfg) !in s.store
    requires OthersRespect(events, cfg)
    ensures var s' := After(s, events, cfg);
      IsMarked(s'.store, cfg) && AllHarmlessOrPatching(s') && ResourceKey(cfg) !in s'.store
    decreases |events|
  {
    hide PhasesOk, IsMarked, Next, AllHarmlessOrPatching, ResourceKey;
    if events != [] {
      var n := |events| - 1;
      FinalRun(s, events[..n], cfg);
      RunOk(s, events[..n], cfg);
      FinalStep(After(s, events[..n], cfg), events[n], cfg);
    }
  }

  /** Once the annotation is set, a deletion of the resource is final, whatever happens later, if and only if no
      instance is between reading the unmarked namespace and its attempt to create. */
  lemma DeletionIsFinal(s: Sys, cfg: Config)
    requires PhasesOk(s, cfg) && IsMarked(s.store, cfg) && ResourceKey(cfg) !in s.store
    ensures (forall events :: OthersRespect(events, cfg) ==> !Reappears(s, events, cfg)) <==> AllHarmlessOrPatching(s)
  {
    if AllHarmlessOrPatching(s) {
      forall events | OthersRespect(events, cfg)
        ensures !Reappears(s, events, cfg)
      {
        FinalRun(s, events, cfg);
      }
    } else {
      var i: nat :| !Harmless(PhaseOf(s, i)) && !PhaseOf(s, i).Patching?;
      var events := PendingCreates(s, i, cfg);
    }
  }

  lemma PendingCreates(s: Sys, i: nat, cfg: Config) returns (events: seq<Event>)
    requires ResourceKey(cfg) !in s.store && (PhaseOf(s, i).Checking? || PhaseOf(s, i).Creating?)
    ensures OthersRespect(events, cfg) && Reappears(s, events, cfg)
  {
    hide PhaseOf, Stepped;
    var step := Step(i, Served);
    var one, two := [step], [step, step];
    assert one[..0] == [] && two[..1] == one;
    var s1 := Next(s, step, cfg);
    PhasesNext(s, step, cfg);
    assert After(s, one, cfg) == s1;
    assert After(s, two, cfg) == Next(s1, step, cfg);
    if PhaseOf(s, i).Creating? {
      CreatingCreates(s, i, cfg);
      events := one;
    } else {
      CheckingFindsNone(s, i, cfg);
      CreatingCreates(s1, i, cfg);
      events := two;
    }
  }

  /** The system with one more event. */
  lemma AfterAppend(s: Sys, events: seq<Event>, e: Event, cfg: Config)
    ensures After(s, events + [e], cfg) == Next(After(s, events, cfg), e, cfg)
  {
    assert (events + [e])[..|events|] == events;
  }

  /** The first call of an instance where the namespace is not marked. */
  lemma ReadsUnmarked(s: Sys, i: nat, cfg: Config)
    requires PhaseOf(s, i) == Starting && NamespaceKey(cfg) in s.store && !IsMarked(s.store, cfg)
    ensures Next(s, Step(i, Served), cfg) == Sys(s.store, s.phases[i := Checking(s.store[NamespaceKey(cfg)].namespace)])
  {
  }

  lemma CreatesDefault(s: Sys, i: nat, cfg: Config)
    requires PhaseOf(s, i).Creating? && ResourceKey(cfg) !in s.store
    ensures Next(s, Step(i, Served), cfg) ==
            Sys(s.store[ResourceKey(cfg) := VpaObject(DefaultVPAController(cfg))],
              s.phases[i := Patching(PhaseOf(s, i).seen)])
  {
  }

  lemma Marks(s: Sys, i: nat, cfg: Config)
    requires PhaseOf(s, i).Patching? && PhaseOk(PhaseOf(s, i), cfg) && NamespaceKey(cfg) in s.store
    ensures var s' := Next(s, Step(i, Served), cfg);
      IsMarked(s'.store, cfg) && s'.phases == s.phases[i := Done(None)]
  {
    MarkIsTheOnlyAddition(PhaseOf(s, i).seen.meta.annotations);
  }

  lemma ChecksNone(s: Sys, i: nat, cfg: Config)
    requires PhaseOf(s, i).Checking? && ResourceKey(cfg) !in s.store
    ensures Next(s, Step(i, Served), cfg) == Sys(s.store, s.phases[i := Creating(PhaseOf(s, i).seen)])
  {
  }

  /** The condition of DeletionIsFinal does fail in runs that begin with nothing started: instance 0 reads the
      namespace; instance 1 creates the resource and sets the annotation; a user deletes the resource, in the state
      `deleted`; and instance 0 creates it again.  No call fails. */
  lemma DeletionUndone(store: Store, cfg: Config) returns (deleted: Sys, events: seq<Event>, again: seq<Event>)
    requires NamespaceKey(cfg) in store && !IsMarked(store, cfg) && ResourceKey(cfg) !in store
    ensures After(Sys(store, map[]), events, cfg) == deleted
    ensures PhasesOk(deleted, cfg) && IsMarked(deleted.store, cfg) && ResourceKey(cfg) !in deleted.store
    ensures OthersRespect(again, cfg) && Reappears(deleted, again, cfg)
  {
    hide Next, IsMarked, After, PhasesOk, DefaultVPAController, WithAnnotations;
    var start := Sys(store, map[]);
    var seen := store[NamespaceKey(cfg)].namespace;
    var s1 := Next(start, Step(0, Served), cfg);
    ReadsUnmarked(start, 0, cfg);
    var s2 := Next(s1, Step(1, Served), cfg);
    ReadsUnmarked(s1, 1, cfg);
    var s3 := Next(s2, Step(1, Served), cfg);
    ChecksNone(s2, 1, cfg);
    var s4 := Next(s3, Step(1, Served), cfg);
    CreatesDefault(s3, 1, cfg);
    FreshPhases(start, cfg);
    events := [Step(0, Served), Step(1, Served), Step(1, Served), Step(1, Served)];
    FourEvents(start, events, cfg);
    RunOk(start, events, cfg);
    PhaseIsOk(s4, 1, cfg);
    var s5 := Next(s4, Step(1, Served), cfg);
    Marks(s4, 1, cfg);
    AfterAppend(start, events, Step(1, Served), cfg);
    events := events + [Step(1, Served)];
    deleted := Next(s5, Others(s5.store - {ResourceKey(cfg)}), cfg);
    Deletes(s5, cfg);
    AfterAppend(start, events, Others(s5.store - {ResourceKey(cfg)}), cfg);
    events := events + [Others(s5.store - {ResourceKey(cfg)})];
    RunOk(start, events, cfg);
    again := PendingCreates(deleted, 0, cfg);
  }

  lemma FreshPhases(s: Sys, cfg: Config)
    requires s.phases == map[]
    ensures PhasesOk(s, cfg) && forall i: nat :: PhaseOf(s, i) == Starting
  {
  }

  lemma PhaseIsOk(s: Sys, i: nat, cfg: Config)
    requires PhasesOk(s, cfg)
    ensures PhaseOk(PhaseOf(s, i), cfg)
  {
  }

  lemma Deletes(s: Sys, cfg: Config)
    requires IsMarked(s.store, cfg)
    ensures var s' := Next(s, Others(s.store - {ResourceKey(cfg)}), cfg);
      IsMarked(s'.store, cfg) && ResourceKey(cfg) !in s'.store && s'.phases == s.phases
  {
  }

  lemma FourEvents(s: Sys, events: seq<Event>, cfg: Config)
    requires |events| == 4
    ensures After(s, events, cfg) ==
            Next(Next(Next(Next(s, events[0], cfg), events[1], cfg), events[2], cfg), events[3], cfg)
  {
    hide Next;
    assert events[..0] == [] && events[..4] == events;
    AfterOneMore(s, events, 0, cfg);
    AfterOneMore(s, events, 1, cfg);
    AfterOneMore(s, events, 2, cfg);
    AfterOneMore(s, events, 3, cfg);
  }

  lemma CreatingCreates(s: Sys, i: nat, cfg: Config)
    requires ResourceKey(cfg) !in s.store && PhaseOf(s, i).Creating?
    ensures ResourceKey(cfg) in Stepped(s, i, Served, cfg).api.store
  {
  }

  lemma CheckingFindsNone(s: Sys, i: nat, cfg: Config)
    requires ResourceKey(cfg) !in s.store && PhaseOf(s, i).Checking?
    ensures Stepped(s, i, Served, cfg).api.store == s.store && Stepped(s, i, Served, cfg).phase.Creating?
  {
  }

  /** An instance on its own and without faults succeeds if there is a namespace; the annotation is in place after it,
      and the resource exists unless the annotation was there before; a second instance then changes nothing. */
  lemma AloneWithoutFaults(s: ApiState, cfg: Config)
    requires FaultCount(s.fates) == 0
    ensures var r := Finished(Starting, cfg, s);
      && (r.error == None <==> NamespaceKey(cfg) in s.store)
      && (r.error == None ==>
            && IsMarked(r.api.store, cfg)
            && (IsMarked(s.store, cfg) ==> r.api.store == s.store)
            && (!IsMarked(s.store, cfg) ==>
                  Lookup(r.api.store, ResourceKey(cfg)) ==
                    Some(Lookup(s.store, ResourceKey(cfg)).GetOr(VpaObject(DefaultVPAController(cfg)))))
            && Finished(Starting, cfg, r.api) == WriteReply(Consume(r.api), None))
  {
    hide BootStep, Finished, DefaultVPAController, Entries;
    ConsumeCounts(s);
    SoloRead(s, cfg);
    if NamespaceKey(cfg) in s.store && !IsMarked(s.store, cfg) {
      SoloCheck(s.store[NamespaceKey(cfg)].namespace, cfg, Consume(s));
    }
    SoloRead(Finished(Starting, cfg, s).api, cfg);
  }

  lemma SoloRead(s: ApiState, cfg: Config)
    requires NextFate(s) == Served
    ensures Finished(Starting, cfg, s) ==
      if NamespaceKey(cfg) !in s.store then WriteReply(Consume(s), Some(NotFound))
      else if IsMarked(s.store, cfg) then WriteReply(Consume(s), None)
      else Finished(Checking(s.store[NamespaceKey(cfg)].namespace), cfg, Consume(s))
  {
  }

  /** What an instance without faults makes of a namespace that is not marked. */
  ghost predicate SoloDone(cfg: Config, s: ApiState, r: WriteReply) {
    && r.error == None && IsMarked(r.api.store, cfg) && FaultCount(r.api.fates) == 0
    && Lookup(r.api.store, ResourceKey(cfg)) ==
         Some(Lookup(s.store, ResourceKey(cfg)).GetOr(VpaObject(DefaultVPAController(cfg))))
  }

  lemma SoloCheck(seen: Namespace, cfg: Config, s: ApiState)
    requires FaultCount(s.fates) == 0 && Lookup(s.store, NamespaceKey(cfg)) == Some(NamespaceObject(seen))
    requires CREATED_ANNOTATION !in Entries(seen.meta.annotations)
    ensures SoloDone(cfg, s, Finished(Checking(seen), cfg, s))
  {
    hide IsMarked, DefaultVPAController;
    ConsumeCounts(s);
    if ResourceKey(cfg) in s.store {
      assert Finished(Checking(seen), cfg, s) == Finished(Patching(seen), cfg, Consume(s));
      SoloPatch(seen, cfg, Consume(s));
    } else {
      assert Finished(Checking(seen), cfg, s) == Finished(Creating(seen), cfg, Consume(s));
      SoloCreate(seen, cfg, Consume(s));
    }
  }

  lemma SoloCreate(seen: Namespace, cfg: Config, s: ApiState)
    requires FaultCount(s.fates) == 0 && Lookup(s.store, NamespaceKey(cfg)) == Some(NamespaceObject(seen))
    requires CREATED_ANNOTATION !in Entries(seen.meta.annotations) && ResourceKey(cfg) !in s.store
    ensures SoloDone(cfg, s, Finished(Creating(seen), cfg, s))
  {
    hide IsMarked;
    ConsumeCounts(s);
    var created := Apply(Consume(s), VpaObject(DefaultVPAController(cfg)));
    assert Finished(Creating(seen), cfg, s) == Finished(Patching(seen), cfg, created);
    SoloPatch(seen, cfg, created);
  }

  lemma SoloPatch(seen: Namespace, cfg: Config, s: ApiState)
    requires FaultCount(s.fates) == 0 && Lookup(s.store, NamespaceKey(cfg)) == Some(NamespaceObject(seen))
    requires CREATED_ANNOTATION !in Entries(seen.meta.annotations)
    ensures var r := Finished(Patching(seen), cfg, s);
      && r.error == None && IsMarked(r.api.store, cfg) && FaultCount(r.api.fates) == 0
      && Lookup(r.api.store, ResourceKey(cfg)) == Lookup(s.store, ResourceKey(cfg))
  {
    ConsumeCounts(s);
    MarkIsTheOnlyAddition(seen.meta.annotations);
  }
}
