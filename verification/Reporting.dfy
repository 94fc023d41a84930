/** The three reports of the operator, the check that chooses between them, and the poll loop. */
module Reporting {
  import opened Common
  import opened ApiTypes
  import opened ApiServer
  import opened Status
  import opened Util

  const REASON_EMPTY := ""
  const REASON_SYNCING := "SyncingResources"
  const REASON_CHECK_AUTOSCALER := "UnableToCheckAutoscalers"

  function Reported(available: Condition, progressing: Condition, degraded: Condition,
                    versions: Option<seq<OperandVersion>>): OperatorStatus {
    OperatorStatus([available, progressing, degraded], versions, "", None, [])
  }

  function Claim(version: string): seq<OperandVersion> {
    [OperandVersion("operator", version)]
  }

  function AvailableStatus(reason: string, message: string, version: string): OperatorStatus {
    Reported(Condition(AVAILABLE, TRUE, reason, message, 0), Condition(PROGRESSING, FALSE, "", "", 0),
             Condition(DEGRADED, FALSE, "", "", 0), Some(Claim(version)))
  }

  function DegradedStatus(reason: string, message: string): OperatorStatus {
    Reported(Condition(AVAILABLE, TRUE, "", "", 0), Condition(PROGRESSING, FALSE, "", "", 0),
             Condition(DEGRADED, TRUE, reason, message, 0), None)
  }

  function ProgressingStatus(reason: string, message: string): OperatorStatus {
    Reported(Condition(AVAILABLE, TRUE, "", "", 0), Condition(PROGRESSING, TRUE, reason, message, 0),
             Condition(DEGRADED, FALSE, "", "", 0), None)
  }

  function ErrorText(e: Error): string {
    match e
    case NotFound => "not found"
    case AlreadyExists => "already exists"
    case Unavailable => "unavailable"
    case CrossNamespace => "cross-namespace owner"
  }

  // The check

  function VpaKey(cfg: ReporterConfig): Key {
    Key(VpaKind, cfg.namespace, cfg.name)
  }

  function RecommenderKey(cfg: ReporterConfig): Key {
    Key(DeploymentKind, cfg.namespace, "vpa-recommender-" + cfg.name)
  }

  datatype CheckReply = CheckReply(api: ApiState, result: Result<bool, Error>)

  function Checked(s: ApiState, cfg: ReporterConfig): CheckReply {
    var vpa := Fetched(s, VpaKey(cfg));
    match vpa.result
    case Err(e) => CheckReply(vpa.api, if e == NotFound then Ok(true) else Err(e))
    case Ok(_) =>
      var found := Fetched(vpa.api, RecommenderKey(cfg));
      match found.result
      case Err(e) => CheckReply(found.api, if e == NotFound then Ok(false) else Err(e))
      case Ok(o) =>
        CheckReply(found.api, Ok(ReleaseVersionMatches(o.deployment.meta.annotations, cfg.releaseVersion)
                                 && DeploymentUpdated(o.deployment)))
  }

  /** The deployment carries the release, and its controller has seen its latest generation, has updated every replica
      and has some available. */
  predicate Serves(d: Deployment, version: string) {
    && d.meta.annotations.Some?
    && "release.openshift.io/version" in d.meta.annotations.value
    && d.meta.annotations.value["release.openshift.io/version"] == version
    && d.status.observedGeneration >= d.meta.generation
    && d.status.updatedReplicas == d.status.replicas
    && d.status.availableReplicas != 0
  }

  /** What the check is supposed to find out, read off the store. */
  predicate UpToDate(store: Store, cfg: ReporterConfig) {
    var recommender := Key(DeploymentKind, cfg.namespace, "vpa-recommender-" + cfg.name);
    || Key(VpaKind, cfg.namespace, cfg.name) !in store
    || (recommender in store && Serves(store[recommender].deployment, cfg.releaseVersion))
  }

  /** The reads that the check takes. */
  function ReadsNeeded(store: Store, cfg: ReporterConfig): nat {
    if Key(VpaKind, cfg.namespace, cfg.name) in store then 2 else 1
  }

  /** The check fails if and only if one of its reads is refused or lost. */
  lemma CheckFailsWhen(s: ApiState, cfg: ReporterConfig)
    ensures Checked(s, cfg).result.Ok? <==> FirstServed(s.fates, ReadsNeeded(s.store, cfg))
  {
    hide FirstServed, ReleaseVersionMatches, DeploymentUpdated;
    FirstServedStep(s, 0);
    FirstServedStep(s, 1);
    FirstServedStep(Consume(s), 0);
    NoneServed(Consume(s).fates);
    NoneServed(Consume(Consume(s)).fates);
  }

  /** The check answers yes only when that is so, and no only when it is not; else a call failed. */
  lemma CheckIsTruthful(s: ApiState, cfg: ReporterConfig)
    ensures Checked(s, cfg).api.store == s.store && Checked(s, cfg).api.writes == s.writes
    ensures match Checked(s, cfg).result
      case Ok(answer) => answer <==> UpToDate(s.store, cfg)
      case Err(e) => e == Unavailable && FaultCount(Checked(s, cfg).api.fates) < FaultCount(s.fates)
  {
    hide FaultCount;
    ConsumeCounts(s);
    ConsumeCounts(Consume(s));
  }

  // One report

  datatype ReportReply = ReportReply(state: ReporterState, done: bool, error: Option<Error>)

  function ChosenStatus(check: Result<bool, Error>, version: string): OperatorStatus {
    match check
    case Err(e) => DegradedStatus(REASON_CHECK_AUTOSCALER, "error checking VPA controllers status: " + ErrorText(e))
    case Ok(ok) =>
      if ok then AvailableStatus(REASON_EMPTY, "at version " + version, version)
      else ProgressingStatus(REASON_SYNCING, "updating to " + version)
  }

  ghost function ReportedOnce(s: ReporterState, cfg: ReporterConfig): ReportReply {
    var check := Checked(s.api, cfg);
    var applied := Applied(s.(api := check.api), ChosenStatus(check.result, cfg.releaseVersion), cfg.relatedObjects);
    ReportReply(applied.state, check.result == Ok(true) && applied.error == None, applied.error)
  }

  method CheckVPARecommender(client: Client, cfg: ReporterConfig) returns (result: Result<bool, Error>)
    modifies client
    ensures CheckReply(client.State(), result) == Checked(old(client.State()), cfg)
  {
    var vpa := client.Get(VpaKey(cfg));
    if vpa.Err? {
      return if vpa.error == NotFound then Ok(true) else Err(vpa.error);
    }
    var found := client.Get(RecommenderKey(cfg));
    if found.Err? {
      return if found.error == NotFound then Ok(false) else Err(found.error);
    }
    var deployment := found.value.deployment;
    if !ReleaseVersionMatches(deployment.meta.annotations, cfg.releaseVersion) {
      return Ok(false);
    }
    if !DeploymentUpdated(deployment) {
      return Ok(false);
    }
    return Ok(true);
  }

  method ReportStatus(reporter: StatusReporter) returns (done: bool, error: Option<Error>)
    modifies reporter.client, reporter.clock
    ensures ReportReply(reporter.State(), done, error) == ReportedOnce(old(reporter.State()), reporter.config)
  {
    var version := reporter.config.releaseVersion;
    var ok := CheckVPARecommender(reporter.client, reporter.config);
    ghost var issued;
    if ok.Err? {
      issued, error := reporter.ApplyStatus(
        DegradedStatus(REASON_CHECK_AUTOSCALER, "error checking VPA controllers status: " + ErrorText(ok.error)));
      return false, error;
    }
    if !ok.value {
      issued, error := reporter.ApplyStatus(ProgressingStatus(REASON_SYNCING, "updating to " + version));
      return false, error;
    }
    issued, error := reporter.ApplyStatus(AvailableStatus(REASON_EMPTY, "at version " + version, version));
    return error == None, error;
  }

  // Polling

  /** The rest of the cluster as somebody left it before a poll; nobody else writes the ClusterOperator. */
  function Interfered(api: ApiState, cluster: Store): ApiState {
    var others := cluster - {OPERATOR_KEY};
    api.(store := if OPERATOR_KEY in api.store then others[OPERATOR_KEY := api.store[OPERATOR_KEY]] else others)
  }

  method Interfere(client: Client, cluster: Store)
    modifies client
    ensures client.State() == Interfered(old(client.State()), cluster)
  {
    var others := cluster - {OPERATOR_KEY};
    client.store := if OPERATOR_KEY in client.store then others[OPERATOR_KEY := client.store[OPERATOR_KEY]] else others;
  }

  /** A poll by an operator of some configuration: the operator may have been upgraded or restarted in between. */
  datatype Poll = Poll(cluster: Store, cfg: ReporterConfig)

  ghost function Polled(s: ReporterState, poll: Poll): ReportReply {
    ReportedOnce(s.(api := Interfered(s.api, poll.cluster)), poll.cfg)
  }

  ghost function AfterPolls(s: ReporterState, polls: seq<Poll>): ReporterState
    decreases |polls|
  {
    if polls == [] then s else Polled(AfterPolls(s, polls[..|polls| - 1]), polls[|polls| - 1]).state
  }

  /** One reporter polling the given clusters. */
  function PollsOf(clusters: seq<Store>, cfg: ReporterConfig): seq<Poll> {
    seq(|clusters|, i requires 0 <= i < |clusters| => Poll(clusters[i], cfg))
  }

  /** What the reporter's k-th poll comes to. */
  ghost function PollAt(s: ReporterState, clusters: seq<Store>, cfg: ReporterConfig, k: nat): ReportReply
    requires k < |clusters|
  {
    Polled(AfterPolls(s, PollsOf(clusters[..k], cfg)), Poll(clusters[k], cfg))
  }

  /** Polls until a report is done or fails, or until the context is cancelled, which is when `clusters` runs out.
      `polls` counts the reports made: the last one of them is the first that is done or fails, if there is one. */
  method Start(reporter: StatusReporter, clusters: seq<Store>) returns (polls: nat, done: bool, error: Option<Error>)
    modifies reporter.client, reporter.clock
    ensures polls <= |clusters|
    ensures reporter.State() == AfterPolls(old(reporter.State()), PollsOf(clusters[..polls], reporter.config))
    ensures !done && error == None ==> polls == |clusters|
    ensures forall k :: 0 <= k < polls ==>
      var poll := PollAt(old(reporter.State()), clusters, reporter.config, k);
      if k == polls - 1 then poll.done == done && poll.error == error else !poll.done && poll.error == None
    ensures done || error != None ==> polls > 0
  {
    hide ReportedOnce, Interfered;
    polls, done, error := 0, false, None;
    while polls < |clusters| && !done && error == None
      invariant polls <= |clusters|
      invariant reporter.State() == AfterPolls(old(reporter.State()), PollsOf(clusters[..polls], reporter.config))
      invariant forall k :: 0 <= k < polls ==>
        var poll := PollAt(old(reporter.State()), clusters, reporter.config, k);
        if k == polls - 1 then poll.done == done && poll.error == error else !poll.done && poll.error == None
      invariant done || error != None ==> polls > 0
      decreases |clusters| - polls, !done && error == None
    {
      Interfere(reporter.client, clusters[polls]);
      done, error := ReportStatus(reporter);
      assert clusters[..polls + 1][..polls] == clusters[..polls];
      assert PollsOf(clusters[..polls + 1], reporter.config)[..polls] == PollsOf(clusters[..polls], reporter.config);
      polls := polls + 1;
    }
  }
}
