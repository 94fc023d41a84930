/** What a nil return leaves of each of the ten objects, and which drift the code's comparison does not see. */
module Repairs {
  import opened Common
  import opened ApiTypes
  import opened ApiServer
  import opened Flags
  import opened PodSpecs
  import opened Policies
  import opened Reconcile
  import opened ManagedObjects
  import opened ReconcileRuns
  import opened Frames
  import opened Util
  import opened Walks

  /** After a nil return, whatever failed on the way, each object is what its slot should hold given what it held. */
  lemma NilMeansTargets(request: Key, vpa: VpaController, cfg: Config, s: ApiState, i: nat)
    requires Present(request, vpa, s.store) && i < |SLOTS| && Reconciled(request, cfg, s).error == None
    ensures var a := Reconciled(request, cfg, s);
      Lookup(a.api.store, SlotKey(SLOTS[i], vpa, a.cfg)) == Some(Target(SLOTS[i], vpa, a.cfg, s.store))
  {
    hide Reconciled, Conforms, SlotKey, Desired, Repaired, Owned, Work, Keys, FaultCount, CanOwn;
    var a := Reconciled(request, cfg, s);
    var items := Items(SLOTS, vpa, a.cfg, s.store);
    var n, f := Attempted(request, vpa, cfg, s);
    TenObjects(vpa, a.cfg);
    if ConformsAt(SLOTS[i], vpa, a.cfg, s.store) {
      ConformingUntouched(request, vpa, cfg, s, i);
    } else {
      DistinctKeysDistinctItems(SLOTS, vpa, a.cfg, s.store);
      ItemIsTodo(items, i);
      assert Work(items)[..n] == Work(items);
      WrittenTarget(items, n, i, a.api.store);
    }
  }

  function DeploymentAt(c: Component, vpa: VpaController, cfg: Config, store: Store): Option<Deployment> {
    var k := SlotKey(DeploymentSlot(c), vpa, cfg);
    if k in store then Some(store[k].deployment) else None
  }

  predicate TemplateHasRelease(d: Option<Deployment>, cfg: Config) {
    d.Some? && ReleaseVersionMatches(d.value.template.annotations, cfg.releaseVersion)
  }

  lemma TargetTemplate(c: Component, vpa: VpaController, cfg: Config, before: Store, after: Store)
    requires Lookup(after, SlotKey(DeploymentSlot(c), vpa, cfg)) == Some(Target(DeploymentSlot(c), vpa, cfg, before))
    ensures TemplateHasRelease(DeploymentAt(c, vpa, cfg, after), cfg) <==>
            !ConformsAt(DeploymentSlot(c), vpa, cfg, before)
              || TemplateHasRelease(DeploymentAt(c, vpa, cfg, before), cfg)
  {
    hide ExpectedPodSpec, SamePodSpec, PodLabels, DeploymentName;
  }

  /** After a nil return, the pods of a component carry the release if and only if its deployment was absent or did not
      conform before, or their template carried it already: drift of the template's annotation alone is not repaired. */
  lemma TemplateCarriesRelease(request: Key, vpa: VpaController, cfg: Config, s: ApiState, c: Component)
    requires Present(request, vpa, s.store) && Reconciled(request, cfg, s).error == None
    ensures var a := Reconciled(request, cfg, s);
      TemplateHasRelease(DeploymentAt(c, vpa, a.cfg, a.api.store), a.cfg) <==>
        || DeploymentAt(c, vpa, a.cfg, s.store) == None
        || !ConformsAt(DeploymentSlot(c), vpa, a.cfg, s.store)
        || TemplateHasRelease(DeploymentAt(c, vpa, a.cfg, s.store), a.cfg)
  {
    hide Reconciled, Target, Conforms, ReleaseVersionMatches;
    var a := Reconciled(request, cfg, s);
    var i := DeploymentSlotIndex(c);
    NilMeansTargets(request, vpa, cfg, s, i);
    TargetTemplate(c, vpa, a.cfg, s.store, a.api.store);
  }

  /** The labels that pods of a component get: those of its deployment's template. */
  function PodLabelsIn(d: Option<Deployment>, c: Component, vpa: VpaController): map<string, string> {
    if d.Some? then Entries(d.value.template.labels) else PodLabels(c, vpa.meta.name)
  }

  function SelectorIn(d: Option<Deployment>, c: Component, vpa: VpaController): map<string, string> {
    if d.Some? then d.value.selector else PodLabels(c, vpa.meta.name)
  }

  lemma FramedLabels(c: Component, vpa: VpaController, cfg: Config, before: Store, after: Store)
    requires Framed(SlotKey(DeploymentSlot(c), vpa, cfg), before, after, vpa, cfg)
    ensures var d, e := DeploymentAt(c, vpa, cfg, before), DeploymentAt(c, vpa, cfg, after);
      && PodLabelsIn(e, c, vpa) == PodLabelsIn(d, c, vpa) && SelectorIn(e, c, vpa) == SelectorIn(d, c, vpa)
  {
    hide SameForeign, PolicySpecs, PodLabels, DeploymentName;
    var k := SlotKey(DeploymentSlot(c), vpa, cfg);
    if k !in before && k in after {
      var i :| 0 <= i < |SLOTS| && k == SlotKey(SLOTS[i], vpa, cfg) && CreatedFor(SLOTS[i], after[k], vpa, cfg);
      var j := DeploymentSlotIndex(c);
      TenObjects(vpa, cfg);
      assert i == j;
    }
  }

  /** Over every run with any fates, pod labels and selector of a deployment are what they were before it, or, if it was
      absent, the ones that the operator gives it: they are never repaired, and never lost. */
  lemma LabelsOverRuns(request: Key, vpa: VpaController, cfg: Config, s: ApiState, attempts: nat, c: Component)
    requires Present(request, vpa, s.store)
    ensures var before, after := DeploymentAt(c, vpa, cfg, s.store),
      DeploymentAt(c, vpa, cfg, Run(request, cfg, s, attempts).api.store);
      && PodLabelsIn(after, c, vpa) == PodLabelsIn(before, c, vpa)
      && SelectorIn(after, c, vpa) == SelectorIn(before, c, vpa)
  {
    hide Run, Framed, PodLabelsIn, SelectorIn, DeploymentAt;
    RunKeeps(request, vpa, cfg, s, attempts, SlotKey(DeploymentSlot(c), vpa, cfg));
    FramedLabels(c, vpa, cfg, s.store, Run(request, cfg, s, attempts).api.store);
  }

  /** After a nil return, a network policy has the resource as its owner if it was absent, has kept its owners if it
      conformed, and has none otherwise. */
  lemma PolicyOwners(request: Key, vpa: VpaController, cfg: Config, s: ApiState, i: PolicyIndex)
    requires Present(request, vpa, s.store) && Reconciled(request, cfg, s).error == None
    ensures var a, k := Reconciled(request, cfg, s), SlotKey(PolicySlot(i), vpa, cfg);
      && k in a.api.store
      && a.api.store[k].GetMeta().owners ==
           if k !in s.store then
             [OwnerReference("autoscaling.openshift.io", "v1", "VerticalPodAutoscalerController", vpa.meta.name,
                             vpa.meta.uid, Some(true), Some(true))]
           else if ConformsAt(PolicySlot(i), vpa, cfg, s.store) then s.store[k].GetMeta().owners
           else []
  {
    hide Reconciled, PolicySpecs, Annotated;
    assert SLOTS[5 + i] == PolicySlot(i);
    TlsOnly(request, cfg, s);
    NilMeansTargets(request, vpa, cfg, s, 5 + i);
  }

  // Drift that is not seen

  /** A deployment whose selector, template labels and template annotations have been changed. */
  function Drifted(d: Deployment, selector: map<string, string>, labels: StringMap,
                   annotations: StringMap): Deployment {
    d.(selector := selector, template := d.template.(labels := labels, annotations := annotations))
  }

  function WithDrift(c: Component, vpa: VpaController, cfg: Config, store: Store, selector: map<string, string>,
                     labels: StringMap, annotations: StringMap): Store
    requires SlotKey(DeploymentSlot(c), vpa, cfg) in store
  {
    var k := SlotKey(DeploymentSlot(c), vpa, cfg);
    store[k := DeploymentObject(Drifted(store[k].deployment, selector, labels, annotations))]
  }

  lemma DriftConforms(c: Component, vpa: VpaController, cfg: Config, store: Store, selector: map<string, string>,
                      labels: StringMap, annotations: StringMap)
    requires AllConform(vpa, cfg, store) && SlotKey(DeploymentSlot(c), vpa, cfg) in store
    ensures AllConform(vpa, cfg, WithDrift(c, vpa, cfg, store, selector, labels, annotations))
  {
    hide ExpectedPodSpec, SamePodSpec, ReleaseVersionMatches, MergedService, MergedConfigMap, PolicySpecs, SlotKey;
    var drifted := WithDrift(c, vpa, cfg, store, selector, labels, annotations);
    var j := DeploymentSlotIndex(c);
    TenObjects(vpa, cfg);
    forall i | 0 <= i < |SLOTS|
      ensures ConformsAt(SLOTS[i], vpa, cfg, drifted)
    {
      assert ConformsAt(SLOTS[i], vpa, cfg, store);
      if i != j {
        assert SlotKey(SLOTS[i], vpa, cfg) != SlotKey(SLOTS[j], vpa, cfg);
      }
    }
  }

  lemma SlotsPresent(vpa: VpaController, cfg: Config, store: Store, c: Component)
    requires AllConform(vpa, cfg, store)
    ensures SlotKey(DeploymentSlot(c), vpa, cfg) in store
  {
    hide Conforms, SlotKey;
    var i := DeploymentSlotIndex(c);
    assert ConformsAt(SLOTS[i], vpa, cfg, store);
  }

  /** A cluster as an attempt without faults leaves it that starts from the resource alone. */
  function Alone(vpa: VpaController): ApiState {
    ApiState(map[VpaObject(vpa).GetKey() := VpaObject(vpa)], [], [])
  }

  lemma Installed(vpa: VpaController, cfg: Config) returns (store: Store)
    requires CanOwn(vpa, cfg)
    ensures Present(VpaObject(vpa).GetKey(), vpa, store) && SettledTls(cfg, store) && AllConform(vpa, cfg, store)
  {
    hide Reconciled, AllConform, Progress, Kept, CreatedAt;
    var request, s := VpaObject(vpa).GetKey(), Alone(vpa);
    var a := Reconciled(request, cfg, s);
    ExactWrites(request, vpa, cfg, s);
    var n, f := Attempted(request, vpa, cfg, s);
    ManagedKinds(vpa, a.cfg);
    AttemptKeeps(request, vpa, cfg, s, API_SERVER_KEY);
    SettledStays(request, cfg, s);
    store := a.api.store;
  }

  /** For every resource that can own the objects, every component, and every selector, labels and annotations, there
      is a cluster whose deployment has drifted to them, and in which an attempt without faults succeeds and changes
      nothing. */
  lemma DriftStays(vpa: VpaController, cfg: Config, c: Component, selector: map<string, string>, labels: StringMap,
                   annotations: StringMap) returns (s: ApiState)
    requires CanOwn(vpa, cfg)
    ensures Present(VpaObject(vpa).GetKey(), vpa, s.store) && AllConform(vpa, cfg, s.store)
    ensures var d := DeploymentAt(c, vpa, cfg, s.store);
      d.Some? && d.value.selector == selector && d.value.template.labels == labels
        && d.value.template.annotations == annotations
    ensures var a := Reconciled(VpaObject(vpa).GetKey(), cfg, s); a.error == None && a.api.store == s.store
  {
    hide Reconciled, AllConform, ReadTls, WithTls;
    var store := Installed(vpa, cfg);
    SlotsPresent(vpa, cfg, store, c);
    DriftConforms(c, vpa, cfg, store, selector, labels, annotations);
    s := ApiState(WithDrift(c, vpa, cfg, store, selector, labels, annotations), [], []);
    QuietAttempt(VpaObject(vpa).GetKey(), vpa, cfg, s);
  }
}
