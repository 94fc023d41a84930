/** What an edit of the resource costs in a cluster where everything conforms: exactly the deployments it changes. */
module Interference {
  import opened Common
  import opened ApiTypes
  import opened ApiServer
  import opened Flags
  import opened PodSpecs
  import opened Reconcile
  import opened ManagedObjects
  import opened ReconcileRuns
  import opened Walks

  /** The two resources ask for different deployments of the component, up to nil and empty resource lists. */
  predicate Differs(c: Component, a: VpaController, b: VpaController, cfg: Config) {
    || !SamePodSpec(ExpectedPodSpec(c, a.spec, cfg), ExpectedPodSpec(c, b.spec, cfg))
    || Replicas(c, a) != Replicas(c, b)
  }

  /** The comparison of pod specs is an equivalence. */
  lemma SamePodSpecEquivalence(x: PodSpec, y: PodSpec, z: PodSpec)
    ensures SamePodSpec(x, x)
    ensures SamePodSpec(x, y) ==> SamePodSpec(y, x)
    ensures SamePodSpec(x, y) ==> (SamePodSpec(x, z) <==> SamePodSpec(y, z))
  {
    hide NormalContainer;
  }

  lemma ConformsToTheOther(slot: Slot, o: Object, a: VpaController, b: VpaController, cfg: Config)
    requires a.meta.name == b.meta.name
    requires o.GetKind() == SlotKey(slot, a, cfg).kind && Conforms(slot, o, a, cfg)
    ensures SlotKey(slot, b, cfg) == SlotKey(slot, a, cfg)
    ensures Conforms(slot, o, b, cfg) <==> !(slot.DeploymentSlot? && Differs(slot.component, a, b, cfg))
  {
    hide ExpectedPodSpec, SamePodSpec, Replicas;
    if slot.DeploymentSlot? {
      SamePodSpecEquivalence(o.deployment.template.spec, ExpectedPodSpec(slot.component, a.spec, cfg),
                             ExpectedPodSpec(slot.component, b.spec, cfg));
    }
  }

  ghost predicate EditedKey(a: VpaController, b: VpaController, cfg: Config, k: Key) {
    exists c :: Differs(c, a, b, cfg) && k == SlotKey(DeploymentSlot(c), b, cfg)
  }

  /** After any edit of the spec, what is left to do are exactly the deployments it changes. */
  lemma EditTodo(a: VpaController, b: VpaController, cfg: Config, store: Store)
    requires a.meta.name == b.meta.name && AllConform(a, cfg, store)
    ensures forall k :: k in Todo(b, cfg, store) <==> EditedKey(a, b, cfg, k)
  {
    hide Conforms, SlotKey, Differs, Target;
    var items := Items(SLOTS, b, cfg, store);
    WorkMembers(items);
    forall i | 0 <= i < |SLOTS|
      ensures items[i].done <==> !(SLOTS[i].DeploymentSlot? && Differs(SLOTS[i].component, a, b, cfg))
    {
      ConformsToTheOther(SLOTS[i], store[SlotKey(SLOTS[i], a, cfg)], a, b, cfg);
    }
    forall k
      ensures k in Todo(b, cfg, store) <==> EditedKey(a, b, cfg, k)
    {
      if k in Todo(b, cfg, store) {
        var item := TodoItem(b, cfg, store, k);
        var i :| 0 <= i < |items| && items[i] == item;
        assert Differs(SLOTS[i].component, a, b, cfg);
      }
      if EditedKey(a, b, cfg, k) {
        var c :| Differs(c, a, b, cfg) && k == SlotKey(DeploymentSlot(c), b, cfg);
        var i := DeploymentSlotIndex(c);
        ItemIsTodo(items, i);
      }
    }
  }

  lemma AllThere(a: VpaController, b: VpaController, cfg: Config, store: Store)
    requires a.meta.name == b.meta.name && AllConform(a, cfg, store)
    ensures Creatable(b, cfg, store)
  {
    hide Conforms, CanOwn, SlotKey;
    forall i | 0 <= i < |SLOTS|
      ensures SlotKey(SLOTS[i], b, cfg) in store
    {
      assert ConformsAt(SLOTS[i], a, cfg, store);
      ConformsToTheOther(SLOTS[i], store[SlotKey(SLOTS[i], a, cfg)], a, b, cfg);
    }
  }

  /** The first attempt after an edit, without faults, writes exactly the deployments the edit changes, each once. */
  lemma EditWrites(request: Key, a: VpaController, b: VpaController, cfg: Config, s: ApiState)
    returns (written: seq<Key>)
    requires a.meta.name == b.meta.name && AllConform(a, cfg, s.store)
    requires Present(request, b, s.store) && SettledTls(cfg, s.store) && FaultCount(s.fates) == 0
    ensures var attempt := Reconciled(request, cfg, s);
      attempt.error == None && attempt.api.writes == s.writes + written
    ensures Distinct(written) && forall k :: k in written <==> EditedKey(a, b, cfg, k)
  {
    hide Reconciled, Conforms, SettledTls, Todo, EditedKey, Creatable;
    SettledStays(request, cfg, s);
    ExactWrites(request, b, cfg, s);
    AllThere(a, b, cfg, s.store);
    EditTodo(a, b, cfg, s.store);
    written := Todo(b, cfg, s.store);
  }

  /** Since `before`, the first n of the given keys have been written, each once, and no other object has changed. */
  ghost predicate WroteOnly(edited: seq<Key>, before: ApiState, after: ApiState, n: nat) {
    && n <= |edited|
    && after.writes == before.writes + edited[..n]
    && forall k :: k !in edited ==> Lookup(after.store, k) == Lookup(before.store, k)
  }

  lemma MadeWroteOnly(todo: seq<Key>, before: ApiState, after: ApiState, n: nat)
    requires Made(todo, before, after, n)
    ensures WroteOnly(todo, before, after, n)
  {
    assert forall k :: k !in todo ==> k !in todo[..n];
  }

  /** Over every run after an edit, with any fates: only deployments that the edit changes are written, in order
      and each once; after more attempts than faults these are all of them, and everything conforms to the new
      resource. */
  lemma EditRuns(request: Key, a: VpaController, b: VpaController, cfg: Config, s: ApiState, attempts: nat)
    returns (edited: seq<Key>, n: nat)
    requires a.meta.name == b.meta.name && AllConform(a, cfg, s.store)
    requires Present(request, b, s.store) && SettledTls(cfg, s.store)
    ensures Distinct(edited) && (forall k :: k in edited <==> EditedKey(a, b, cfg, k))
    ensures var r := Run(request, cfg, s, attempts);
      && WroteOnly(edited, s, r.api, n)
      && (attempts > FaultCount(s.fates) ==> n == |edited| && AllConform(b, cfg, r.api.store))
  {
    hide Run, SettledTls, Todo, Creatable, AllConform, EditedKey, FaultCount, Made;
    AllThere(a, b, cfg, s.store);
    EditTodo(a, b, cfg, s.store);
    NothingTodo(b, cfg, s.store);
    n := RunConverges(request, b, cfg, s, attempts);
    edited := Todo(b, cfg, s.store);
    MadeWroteOnly(edited, s, Run(request, cfg, s, attempts).api, n);
  }

  lemma AtMostOne(keys: seq<Key>, k: Key)
    requires Distinct(keys) && forall x :: x in keys ==> x == k
    ensures keys == if k in keys then [k] else []
  {
    EmptyOrMember(keys);
    assert forall i :: 0 <= i < |keys| ==> keys[i] in keys;
    assert |keys| > 1 ==> keys[0] != keys[1];
  }

  /** Only what the component c is built from has been edited: its overrides, and the numbers only its arguments use. */
  ghost predicate EditOf(c: Component, a: VpaController, b: VpaController) {
    a.meta.name == b.meta.name && forall other :: other != c ==> ViewOf(other, a.spec) == ViewOf(other, b.spec)
  }

  function OwnEdit(c: Component, a: VpaController, b: VpaController, cfg: Config): seq<Key> {
    if Differs(c, a, b, cfg) then [SlotKey(DeploymentSlot(c), b, cfg)] else []
  }

  lemma OnlyOwnEdit(c: Component, a: VpaController, b: VpaController, cfg: Config, edited: seq<Key>)
    requires EditOf(c, a, b) && Distinct(edited) && forall k :: k in edited <==> EditedKey(a, b, cfg, k)
    ensures edited == OwnEdit(c, a, b, cfg)
  {
    hide SlotKey, Differs, ViewOf;
    var k := SlotKey(DeploymentSlot(c), b, cfg);
    forall other | other != c
      ensures !Differs(other, a, b, cfg)
    {
      SameView(other, a, b, cfg);
    }
    AtMostOne(edited, k);
    if k in edited {
      DeploymentKeysDiffer(b, cfg);
    }
  }

  /** Components do not interfere, over every run after an edit of one component and with any fates: its own
      deployment is written at most once, and only if what it asks for differs; no other object changes; and after
      more attempts than faults it has been written exactly if it differs. */
  lemma OnlyItsOwnDeployment(request: Key, c: Component, a: VpaController, b: VpaController, cfg: Config, s: ApiState,
                             attempts: nat) returns (n: nat)
    requires EditOf(c, a, b) && AllConform(a, cfg, s.store)
    requires Present(request, b, s.store) && SettledTls(cfg, s.store)
    ensures var r := Run(request, cfg, s, attempts);
      && WroteOnly(OwnEdit(c, a, b, cfg), s, r.api, n)
      && (attempts > FaultCount(s.fates) ==> n == |OwnEdit(c, a, b, cfg)| && AllConform(b, cfg, r.api.store))
  {
    hide Run, AllConform, SettledTls, SlotKey, Differs, ViewOf, WroteOnly, EditedKey, OwnEdit;
    var edited;
    edited, n := EditRuns(request, a, b, cfg, s, attempts);
    OnlyOwnEdit(c, a, b, cfg, edited);
  }

  /** The same for a single attempt: whatever fails, it writes its own deployment or nothing; without faults it
      succeeds and has written it exactly if it differs. */
  lemma OneAttemptAfterAnEdit(request: Key, c: Component, a: VpaController, b: VpaController, cfg: Config, s: ApiState)
    requires EditOf(c, a, b) && AllConform(a, cfg, s.store)
    requires Present(request, b, s.store) && SettledTls(cfg, s.store)
    ensures var attempt, own := Reconciled(request, cfg, s), OwnEdit(c, a, b, cfg);
      && (attempt.api.writes == s.writes || attempt.api.writes == s.writes + own)
      && (forall k :: k !in own ==> Lookup(attempt.api.store, k) == Lookup(s.store, k))
      && (FaultCount(s.fates) == 0 ==> attempt.error == None && attempt.api.writes == s.writes + own)
  {
    hide Reconciled, AllConform, SettledTls, SlotKey, Differs, ViewOf, EditedKey;
    var n := OnlyItsOwnDeployment(request, c, a, b, cfg, s, 1);
    assert Run(request, cfg, s, 1).api == Reconciled(request, cfg, s).api by {
      assert Run(request, cfg, s, 0) == RunState(s, cfg, 0);
    }
    if FaultCount(s.fates) == 0 {
      var written := EditWrites(request, a, b, cfg, s);
      OnlyOwnEdit(c, a, b, cfg, written);
    }
  }

  lemma SameView(c: Component, a: VpaController, b: VpaController, cfg: Config)
    requires ViewOf(c, a.spec) == ViewOf(c, b.spec)
    ensures !Differs(c, a, b, cfg)
  {
    hide ExpectedPodSpec, SamePodSpec;
    PodSpecReadsItsView(c, a.spec, b.spec, cfg);
    SamePodSpecEquivalence(ExpectedPodSpec(c, a.spec, cfg), ExpectedPodSpec(c, b.spec, cfg),
      ExpectedPodSpec(c, b.spec, cfg));
  }

  lemma DeploymentKeysDiffer(vpa: VpaController, cfg: Config)
    ensures forall c, d :: SlotKey(DeploymentSlot(c), vpa, cfg) == SlotKey(DeploymentSlot(d), vpa, cfg) ==> c == d
  {
    DeploymentNamesDiffer(vpa.meta.name);
  }
}
