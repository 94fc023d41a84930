/** The reconciler and the status reporter agree on when the operands are up to date. */
module Agreement {
  import opened Common
  import opened ApiTypes
  import opened ApiServer
  import opened Flags
  import opened PodSpecs
  import opened Reconcile
  import opened ManagedObjects
  import opened ReconcileRuns
  import opened Util
  import opened ResourceMerge
  import opened Status
  import opened TransitionTimes
  import opened Reporting
  import opened PollRuns

  /** The reporter looks for the resource and the release that the reconciler works for. */
  predicate SameOperator(vpa: VpaController, cfg: Config, reporter: ReporterConfig) {
    && vpa.meta.name == reporter.name
    && vpa.meta.namespace == cfg.namespace == reporter.namespace
    && cfg.releaseVersion == reporter.releaseVersion
  }

  function StoredRecommender(store: Store, reporter: ReporterConfig): Option<Deployment> {
    if RecommenderKey(reporter) in store then Some(store[RecommenderKey(reporter)].deployment) else None
  }

  predicate HasRelease(d: Option<Deployment>, version: string) {
    && d.Some? && d.value.meta.annotations.Some?
    && "release.openshift.io/version" in d.value.meta.annotations.value
    && d.value.meta.annotations.value["release.openshift.io/version"] == version
  }

  predicate RolledOut(d: Option<Deployment>) {
    && d.Some?
    && d.value.status.observedGeneration >= d.value.meta.generation
    && d.value.status.updatedReplicas == d.value.status.replicas
    && d.value.status.availableReplicas != 0
  }

  predicate SameAnnotations(a: Option<Deployment>, b: Option<Deployment>) {
    a.Some? && b.Some? && a.value.meta.annotations == b.value.meta.annotations
  }

  /** Since `before`, the resource has not gone and the annotations of the recommender are the same; all else is free,
      the progress of its rollout in particular. */
  ghost predicate StillThere(before: Store, after: Store, reporter: ReporterConfig) {
    && VpaKey(reporter) in after
    && SameAnnotations(StoredRecommender(before, reporter), StoredRecommender(after, reporter))
  }

  /** A reconcile of the resource returned nil and left the store as given. */
  ghost predicate ReconciledTo(request: Key, vpa: VpaController, cfg: Config, s: ApiState, after: Store) {
    && Present(request, vpa, s.store)
    && Reconciled(request, cfg, s).error == None
    && Reconciled(request, cfg, s).api.store == after
  }

  lemma ReconciledIsAnnotated(request: Key, vpa: VpaController, cfg: Config, s: ApiState, store: Store,
                              reporter: ReporterConfig)
    requires ReconciledTo(request, vpa, cfg, s, store) && SameOperator(vpa, cfg, reporter)
    ensures VpaKey(reporter) in store && HasRelease(StoredRecommender(store, reporter), reporter.releaseVersion)
  {
    hide Reconciled, SamePodSpec, ExpectedPodSpec;
    var a := Reconciled(request, cfg, s);
    var n, f := Attempted(request, vpa, cfg, s);
    TlsOnly(request, cfg, s);
    assert VpaObject(vpa).GetKey() == request;
    assert SLOTS[0] == DeploymentSlot(Recommender);
    assert ConformsAt(SLOTS[0], vpa, a.cfg, a.api.store);
    assert SlotKey(SLOTS[0], vpa, a.cfg) == RecommenderKey(reporter);
  }

  lemma StillUpToDate(before: Store, after: Store, reporter: ReporterConfig)
    requires StillThere(before, after, reporter)
    requires HasRelease(StoredRecommender(before, reporter), reporter.releaseVersion)
    ensures UpToDate(after, reporter) <==> RolledOut(StoredRecommender(after, reporter))
  {
    hide DeploymentUpdated;
  }

  /** After a reconcile that returned nil, for any fates of its calls, the check answers, if it can read at all,
      whether the rollout of the recommender is complete. */
  lemma CheckSeesTheRollout(request: Key, vpa: VpaController, cfg: Config, s: ApiState, before: Store,
                            reporter: ReporterConfig, later: ApiState)
    requires ReconciledTo(request, vpa, cfg, s, before) && SameOperator(vpa, cfg, reporter)
    requires StillThere(before, later.store, reporter)
    ensures match Checked(later, reporter).result
      case Ok(answer) => answer <==> RolledOut(StoredRecommender(later.store, reporter))
      case Err(_) => FaultCount(later.fates) > 0
  {
    hide ReconciledTo, Checked, UpToDate, RolledOut, HasRelease, StoredRecommender;
    ReconciledIsAnnotated(request, vpa, cfg, s, before, reporter);
    StillUpToDate(before, later.store, reporter);
    CheckIsTruthful(later, reporter);
  }

  lemma AppliedWithoutFaults(s: ReporterState, status: OperatorStatus, related: seq<ObjectReference>)
    requires FaultCount(s.api.fates) == 0
    ensures Applied(s, status, related).error == None
  {
    hide DesiredStatus, Satisfied, EnsuredStatus, MergedOwners, MergedMap, TimedFor;
    var got := GotOrCreated(s.api);
    GotStored(s.api);
    ConsumeCounts(s.api);
    ConsumeCounts(Consume(s.api));
  }

  /** The whole upgrade: after a reconcile that returned nil and a completed rollout, a poll without faults is
      done, and the operator is stored as available, neither progressing nor degraded, at the release that was
      reconciled. */
  lemma UpgradeIsReported(request: Key, vpa: VpaController, cfg: Config, s: ApiState, before: Store,
                          reporter: ReporterConfig, r: ReporterState, cluster: Store)
    requires ReconciledTo(request, vpa, cfg, s, before) && SameOperator(vpa, cfg, reporter)
    requires StillThere(before, cluster, reporter)
    requires RolledOut(StoredRecommender(cluster, reporter)) && FaultCount(r.api.fates) == 0
    ensures var polled := Polled(r, Poll(cluster, reporter));
      var status := StoredStatus(polled.state.api);
      && polled.done
      && WellReported(status.conditions)
      && status.conditions[1].status == FALSE && status.conditions[2].status == FALSE
      && VersionList(status.versions) == Claim(cfg.releaseVersion)
  {
    hide ReconciledTo, Checked, RolledOut, Applied, ChosenStatus, WellReported;
    var poll := Poll(cluster, reporter);
    var interfered := Interfered(r.api, cluster);
    CheckSeesTheRollout(request, vpa, cfg, s, before, reporter, interfered);
    CheckSpendsNothing(interfered, reporter);
    var check := Checked(interfered, reporter);
    AppliedWithoutFaults(r.(api := check.api), ChosenStatus(check.result, reporter.releaseVersion),
      reporter.relatedObjects);
    DoneMeansAvailable(r, poll);
  }

  lemma CheckSpendsNothing(s: ApiState, cfg: ReporterConfig)
    requires FaultCount(s.fates) == 0
    ensures FaultCount(Checked(s, cfg).api.fates) == 0
  {
    hide FaultCount;
    ConsumeCounts(s);
    ConsumeCounts(Consume(s));
  }
}
