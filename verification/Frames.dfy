/** What attempts and runs of attempts keep of the objects they find, and what becomes of those they create. */
module Frames {
  import opened Common
  import opened ApiTypes
  import opened ApiServer
  import opened Flags
  import opened PodSpecs
  import opened Policies
  import opened Reconcile
  import opened ManagedObjects
  import opened ReconcileRuns
  import opened Util
  import opened Walks

  // Existing objects

  /** Annotations other than the operator's own. */
  ghost predicate SameForeign(a: StringMap, b: StringMap, own: set<string>) {
    forall k :: k !in own ==>
      (k in Entries(a) <==> k in Entries(b)) && (k in Entries(a) ==> Entries(a)[k] == Entries(b)[k])
  }

  /** The annotations the operator writes on an object of a kind; the first set is also written on pod templates. */
  function OwnAnnotations(kind: Kind): set<string> {
    match kind
    case DeploymentKind => {RELEASE_VERSION_ANNOTATION}
    case ServiceKind => {RELEASE_VERSION_ANNOTATION, WEBHOOK_CERT_ANNOTATION}
    case ConfigMapKind => {RELEASE_VERSION_ANNOTATION, CA_CERT_ANNOTATION}
    case _ => {}
  }

  /** What reconciling leaves alone in an existing object: everything but its own annotations and, of a deployment,
      replicas and pod spec, and of a service, ports and selector.  Network policies are replaced whole. */
  ghost predicate Kept(a: Object, b: Object) {
    && a.GetKey() == b.GetKey()
    && (!a.PolicyObject? ==>
         && a.GetMeta() == b.GetMeta().(annotations := a.GetMeta().annotations)
         && SameForeign(a.GetMeta().annotations, b.GetMeta().annotations, OwnAnnotations(a.GetKind())))
    && match a
       case DeploymentObject(d) =>
         var e := b.deployment;
         && d.selector == e.selector && d.other == e.other && d.status == e.status
         && d.template.labels == e.template.labels
         && SameForeign(d.template.annotations, e.template.annotations, OwnAnnotations(DeploymentKind))
       case ServiceObject(x) => x.other == b.service.other
       case ConfigMapObject(x) => x.data == b.configMap.data
       case PolicyObject(_) => true
       case _ => a == b
  }

  lemma RepairKeeps(slot: Slot, vpa: VpaController, cfg: Config, store: Store)
    requires SlotKey(slot, vpa, cfg) in store
    ensures Kept(store[SlotKey(slot, vpa, cfg)], Target(slot, vpa, cfg, store))
    ensures slot.PolicySlot? && !ConformsAt(slot, vpa, cfg, store) ==>
      Target(slot, vpa, cfg, store).GetMeta().owners == []
  {
    hide ExpectedPodSpec, PolicySpecs, Conforms, SameForeign, VersionAnnotations, ServiceAnnotations,
         ConfigMapAnnotations;
    var o := store[SlotKey(slot, vpa, cfg)];
    KeptReflexive(o);
    OnlyOwnAnnotations(o.GetMeta().annotations, cfg);
    if o.DeploymentObject? {
      OnlyOwnAnnotations(o.deployment.template.annotations, cfg);
    }
  }

  lemma OnlyOwnAnnotations(a: StringMap, cfg: Config)
    ensures SameForeign(a, VersionAnnotations(a, cfg), OwnAnnotations(DeploymentKind))
    ensures SameForeign(a, ServiceAnnotations(a, cfg), OwnAnnotations(ServiceKind))
    ensures SameForeign(a, ConfigMapAnnotations(a, cfg), OwnAnnotations(ConfigMapKind))
  {
  }

  lemma KeptReflexive(o: Object)
    ensures Kept(o, o)
  {
  }

  lemma KeptTransitive(a: Object, b: Object, c: Object)
    requires Kept(a, b) && Kept(b, c)
    ensures Kept(a, c)
  {
  }

  // Created objects

  /** An object as it was created for a slot, up to later updates. */
  ghost predicate CreatedFor(slot: Slot, o: Object, vpa: VpaController, cfg: Config) {
    && o.GetKey() == SlotKey(slot, vpa, cfg)
    && o.GetMeta().owners == [OwnerReference("autoscaling.openshift.io", "v1", "VerticalPodAutoscalerController",
                                             vpa.meta.name, vpa.meta.uid, Some(true), Some(true))]
    && match slot
       case DeploymentSlot(c) =>
         o.deployment.selector == PodLabels(c, vpa.meta.name)
           && o.deployment.template.labels == Some(PodLabels(c, vpa.meta.name))
       case ServiceSlot => true
       case ConfigMapSlot => o.configMap.data == map[]
       case PolicySlot(i) => o.policy.spec == PolicySpecs(vpa.meta.name)[i]
  }

  lemma NewIsCreated(slot: Slot, vpa: VpaController, cfg: Config, store: Store)
    requires SlotKey(slot, vpa, cfg) !in store
    ensures CreatedFor(slot, Target(slot, vpa, cfg, store), vpa, cfg)
  {
    hide ExpectedPodSpec, PolicySpecs, PodLabels, VersionAnnotations, ServiceAnnotations, ConfigMapAnnotations;
  }

  lemma CreatedThenKept(slot: Slot, a: Object, b: Object, vpa: VpaController, cfg: Config)
    requires CreatedFor(slot, a, vpa, cfg) && Kept(a, b) && (slot.PolicySlot? ==> a == b)
    ensures CreatedFor(slot, b, vpa, cfg)
  {
    hide PodLabels, PolicySpecs, SameForeign, DeploymentName;
  }

  // Any key, over an attempt and over a run

  ghost predicate CreatedAt(k: Key, o: Object, vpa: VpaController, cfg: Config) {
    exists i :: 0 <= i < |SLOTS| && k == SlotKey(SLOTS[i], vpa, cfg) && CreatedFor(SLOTS[i], o, vpa, cfg)
  }

  /** An existing object is kept, and stays the same if it is not one of the ten; a new one is one of the ten, as
      created. */
  ghost predicate Framed(k: Key, before: Store, after: Store, vpa: VpaController, cfg: Config) {
    if k in before then
      k in after && Kept(before[k], after[k]) && (k !in SlotKeys(vpa, cfg) ==> after[k] == before[k])
    else
      k in after ==> k in SlotKeys(vpa, cfg) && CreatedAt(k, after[k], vpa, cfg)
  }

  /** No existing object is deleted or loses what is not the operator's, in any attempt with any fates; and an object
      that did not exist before is one of the ten, owned by the resource. */
  lemma AttemptKeeps(request: Key, vpa: VpaController, cfg: Config, s: ApiState, k: Key)
    requires Present(request, vpa, s.store)
    ensures Framed(k, s.store, Reconciled(request, cfg, s).api.store, vpa, Reconciled(request, cfg, s).cfg)
  {
    hide Reconciled, Target, Kept, ConformsAt, Items, CreatedFor;
    var a := Reconciled(request, cfg, s);
    var n, f := Attempted(request, vpa, cfg, s);
    if k in SlotKeys(vpa, a.cfg) {
      var i :| 0 <= i < |SLOTS| && k == SlotKey(SLOTS[i], vpa, a.cfg);
      SlotOutcome(vpa, a.cfg, s, a.api, n, i);
      if k in s.store {
        RepairKeeps(SLOTS[i], vpa, a.cfg, s.store);
        KeptReflexive(s.store[k]);
      } else {
        NewIsCreated(SLOTS[i], vpa, a.cfg, s.store);
      }
    } else {
      if k in s.store {
        KeptReflexive(s.store[k]);
      }
      OthersUntouched(vpa, a.cfg, s, a.api, n, k);
    }
  }

  lemma SlotOutcome(vpa: VpaController, cfg: Config, before: ApiState, after: ApiState, n: nat, i: nat)
    requires i < |SLOTS| && Progress(Items(SLOTS, vpa, cfg, before.store), before, after, n)
    ensures var k := SlotKey(SLOTS[i], vpa, cfg);
      Lookup(after.store, k) == Lookup(before.store, k)
        || Lookup(after.store, k) == Some(Target(SLOTS[i], vpa, cfg, before.store))
  {
    var items := Items(SLOTS, vpa, cfg, before.store);
    TenObjects(vpa, cfg);
    DistinctKeysDistinctItems(SLOTS, vpa, cfg, before.store);
    if items[i].key in Keys(Work(items)[..n]) {
      WrittenTarget(items, n, i, after.store);
    }
  }

  /** A created object stays as created: a policy because it conforms, the others because updates keep it. */
  lemma CreatedStays(request: Key, vpa: VpaController, cfg: Config, s: ApiState, k: Key)
    requires Present(request, vpa, s.store) && k in s.store
      && CreatedAt(k, s.store[k], vpa, Reconciled(request, cfg, s).cfg)
    ensures var a := Reconciled(request, cfg, s); k in a.api.store && CreatedAt(k, a.api.store[k], vpa, a.cfg)
  {
    hide Reconciled, Kept, CreatedFor, SlotKey;
    var a := Reconciled(request, cfg, s);
    var i :| 0 <= i < |SLOTS| && k == SlotKey(SLOTS[i], vpa, a.cfg) && CreatedFor(SLOTS[i], s.store[k], vpa, a.cfg);
    AttemptKeeps(request, vpa, cfg, s, k);
    if SLOTS[i].PolicySlot? {
      CreatedPolicyConforms(SLOTS[i], vpa, a.cfg, s.store);
      ConformingUntouched(request, vpa, cfg, s, i);
    }
    CreatedThenKept(SLOTS[i], s.store[k], a.api.store[k], vpa, a.cfg);
  }

  lemma CreatedPolicyConforms(slot: Slot, vpa: VpaController, cfg: Config, store: Store)
    requires slot.PolicySlot? && SlotKey(slot, vpa, cfg) in store
    requires CreatedFor(slot, store[SlotKey(slot, vpa, cfg)], vpa, cfg)
    ensures ConformsAt(slot, vpa, cfg, store)
  {
    hide PolicySpecs;
  }

  lemma TlsDoesNotMatter(k: Key, before: Store, after: Store, vpa: VpaController, cfg: Config, later: Config)
    requires later == cfg.(tls := later.tls)
    ensures Framed(k, before, after, vpa, later) <==> Framed(k, before, after, vpa, cfg)
    ensures forall o :: CreatedAt(k, o, vpa, later) <==> CreatedAt(k, o, vpa, cfg)
  {
    hide Kept, PolicySpecs, PodLabels;
    NamesDoNotDependOnTls(vpa, cfg, later);
    assert SlotKeys(vpa, later) == SlotKeys(vpa, cfg);
    forall o, i | 0 <= i < |SLOTS|
      ensures CreatedFor(SLOTS[i], o, vpa, later) <==> CreatedFor(SLOTS[i], o, vpa, cfg)
    {
      assert SlotKey(SLOTS[i], vpa, later) == SlotKey(SLOTS[i], vpa, cfg);
    }
  }

  /** Over every run of attempts: nothing outside the ten objects appears, changes or goes, existing objects are kept,
      and whatever was created on the way still has its owner, its labels and its selector. */
  lemma {:induction false} RunKeeps(request: Key, vpa: VpaController, cfg: Config, s: ApiState, attempts: nat, k: Key)
    requires Present(request, vpa, s.store)
    ensures var r := Run(request, cfg, s, attempts);
      && Present(request, vpa, r.api.store) && r.cfg == cfg.(tls := r.cfg.tls)
      && Framed(k, s.store, r.api.store, vpa, cfg)
  {
    hide Reconciled, Kept, Framed;
    if attempts == 0 {
      FramedStart(k, s.store, vpa, cfg);
    } else {
      RunKeeps(request, vpa, cfg, s, attempts - 1, k);
      KeepOn(request, vpa, cfg, s.store, Run(request, cfg, s, attempts - 1), k);
    }
  }

  lemma FramedStart(k: Key, store: Store, vpa: VpaController, cfg: Config)
    ensures Framed(k, store, store, vpa, cfg)
  {
    hide Kept;
    if k in store {
      KeptReflexive(store[k]);
    }
  }

  lemma KeepOn(request: Key, vpa: VpaController, cfg: Config, start: Store, before: RunState, k: Key)
    requires Present(request, vpa, before.api.store) && before.cfg == cfg.(tls := before.cfg.tls)
    requires Framed(k, start, before.api.store, vpa, cfg)
    ensures var a := Reconciled(request, before.cfg, before.api);
      && Present(request, vpa, a.api.store) && a.cfg == cfg.(tls := a.cfg.tls)
      && Framed(k, start, a.api.store, vpa, cfg)
  {
    hide Reconciled, Kept, SlotKey, FaultCount, ConformsAt, Progress, CreatedAt, SlotKeys;
    var a := Reconciled(request, before.cfg, before.api);
    var n, f := Attempted(request, vpa, before.cfg, before.api);
    TlsOnly(request, before.cfg, before.api);
    AttemptKeeps(request, vpa, before.cfg, before.api, k);
    TlsDoesNotMatter(k, before.api.store, a.api.store, vpa, cfg, a.cfg);
    if k in start {
      KeptTransitive(start[k], before.api.store[k], a.api.store[k]);
    } else if k in before.api.store {
      CreatedStays(request, vpa, before.cfg, before.api, k);
    }
  }
}
