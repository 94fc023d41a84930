/** One reconcile attempt: it brings ten objects, in a fixed order, to what the resource and the configuration ask for,
    and stops at the first call that fails. */
module Reconcile {
  import opened Common
  import opened ApiTypes
  import opened ApiServer
  import opened Flags
  import opened PodSpecs
  import opened Policies
  import opened Util

  const WEBHOOK_SERVICE := "vpa-webhook"
  const WEBHOOK_CERT_ANNOTATION := "service.beta.openshift.io/serving-cert-secret-name"
  const CA_CERT_ANNOTATION := "service.beta.openshift.io/inject-cabundle"
  const VPA_GROUP := "autoscaling.openshift.io"
  const VPA_KIND := "VerticalPodAutoscalerController"

  // The ten managed objects

  type PolicyIndex = i: nat | i < 5

  datatype Slot = DeploymentSlot(component: Component) | ServiceSlot | ConfigMapSlot | PolicySlot(index: PolicyIndex)

  const DEPLOYMENT_SLOTS := [DeploymentSlot(Recommender), DeploymentSlot(Updater), DeploymentSlot(Admission)]
  const POLICY_SLOTS := [PolicySlot(0), PolicySlot(1), PolicySlot(2), PolicySlot(3), PolicySlot(4)]
  const SLOTS := DEPLOYMENT_SLOTS + ([ServiceSlot] + ([ConfigMapSlot] + POLICY_SLOTS))

  function DeploymentName(c: Component, vpaName: string): string {
    match c
    case Recommender => "vpa-recommender-" + vpaName
    case Updater => "vpa-updater-" + vpaName
    case Admission => "vpa-admission-plugin-" + vpaName
  }

  function SlotKey(slot: Slot, vpa: VpaController, cfg: Config): Key
  {
    match slot
    case DeploymentSlot(c) => Key(DeploymentKind, cfg.namespace, DeploymentName(c, vpa.meta.name))
    case ServiceSlot => Key(ServiceKind, cfg.namespace, WEBHOOK_SERVICE)
    case ConfigMapSlot => Key(ConfigMapKind, cfg.namespace, CA_CONFIG_MAP)
    case PolicySlot(i) => Key(PolicyKind, cfg.namespace, POLICY_NAMES[i])
  }

  // Expected objects

  function Replicas(c: Component, vpa: VpaController): int {
    if Enabled(c, vpa.spec) then 1 else 0
  }

  function Annotated(meta: ObjectMeta, annotations: StringMap): ObjectMeta {
    meta.(annotations := annotations)
  }

  function VersionAnnotations(annotations: StringMap, cfg: Config): StringMap {
    Put(annotations, RELEASE_VERSION_ANNOTATION, cfg.releaseVersion)
  }

  function ServiceAnnotations(annotations: StringMap, cfg: Config): StringMap {
    Put(VersionAnnotations(annotations, cfg), WEBHOOK_CERT_ANNOTATION, WEBHOOK_CERT_SECRET)
  }

  function ConfigMapAnnotations(annotations: StringMap, cfg: Config): StringMap {
    Put(VersionAnnotations(annotations, cfg), CA_CERT_ANNOTATION, "true")
  }

  function PodLabels(c: Component, vpaName: string): map<string, string> {
    map[VPA_LABEL := vpaName, APP_LABEL := AppName(c)]
  }

  function AutoscalerDeployment(c: Component, vpa: VpaController, cfg: Config): Deployment {
    var labels, annotations := PodLabels(c, vpa.meta.name), VersionAnnotations(None, cfg);
    Deployment(Annotated(EmptyMeta(cfg.namespace, DeploymentName(c, vpa.meta.name)), annotations),
               Some(Replicas(c, vpa)), labels,
               PodTemplate(Some(labels), annotations, ExpectedPodSpec(c, vpa.spec, cfg)),
               "", DeploymentStatus(0, 0, 0, 0))
  }

  const WEBHOOK_SERVICE_PORTS := [ServicePort("", 443, IntPort(WEBHOOK_PORT), TCP, 0)]
  const WEBHOOK_SELECTOR := map[APP_LABEL := AppName(Admission)]

  function WebhookService(cfg: Config): Service {
    Service(Annotated(EmptyMeta(cfg.namespace, WEBHOOK_SERVICE), ServiceAnnotations(None, cfg)),
            WEBHOOK_SERVICE_PORTS, WEBHOOK_SELECTOR, "")
  }

  function CAConfigMap(cfg: Config): ConfigMap {
    ConfigMap(Annotated(EmptyMeta(cfg.namespace, CA_CONFIG_MAP), ConfigMapAnnotations(None, cfg)), map[])
  }

  function Desired(slot: Slot, vpa: VpaController, cfg: Config): (o: Object)
    ensures o.GetKey() == SlotKey(slot, vpa, cfg)
  {
    match slot
    case DeploymentSlot(c) => DeploymentObject(AutoscalerDeployment(c, vpa, cfg))
    case ServiceSlot => ServiceObject(WebhookService(cfg))
    case ConfigMapSlot => ConfigMapObject(CAConfigMap(cfg))
    case PolicySlot(i) => PolicyObject(NetworkPolicies(vpa.meta.name, cfg.namespace)[i])
  }

  // Ownership

  function OwnerOf(vpa: VpaController): OwnerReference {
    OwnerReference(VPA_GROUP, "v1", VPA_KIND, vpa.meta.name, vpa.meta.uid, Some(true), Some(true))
  }

  function WithMeta(o: Object, meta: ObjectMeta): Object {
    match o
    case DeploymentObject(x) => DeploymentObject(x.(meta := meta))
    case ServiceObject(x) => ServiceObject(x.(meta := meta))
    case ConfigMapObject(x) => ConfigMapObject(x.(meta := meta))
    case PolicyObject(x) => PolicyObject(x.(meta := meta))
    case VpaObject(x) => VpaObject(x.(meta := meta))
    case NamespaceObject(x) => NamespaceObject(x.(meta := meta))
    case ApiServerObject(x) => ApiServerObject(x.(meta := meta))
    case ClusterOperatorObject(x) => ClusterOperatorObject(x.(meta := meta))
  }

  /** An object of another namespace cannot be owned. */
  predicate CanOwn(vpa: VpaController, cfg: Config) {
    vpa.meta.namespace == "" || vpa.meta.namespace == cfg.namespace
  }

  /** The library's SetControllerReference on an object that has no owner yet. */
  function Owned(o: Object, vpa: VpaController): Object {
    WithMeta(o, o.GetMeta().(owners := [OwnerOf(vpa)]))
  }

  // Comparison and repair

  /** The code's own comparison of an existing object with the expected one. */
  predicate Conforms(slot: Slot, o: Object, vpa: VpaController, cfg: Config)
    requires o.GetKind() == SlotKey(slot, vpa, cfg).kind
  {
    match slot
    case DeploymentSlot(c) =>
      && SamePodSpec(o.deployment.template.spec, ExpectedPodSpec(c, vpa.spec, cfg))
      && o.deployment.replicas == Some(Replicas(c, vpa))
      && ReleaseVersionMatches(o.deployment.meta.annotations, cfg.releaseVersion)
    case ServiceSlot => o.service == MergedService(o.service, cfg)
    case ConfigMapSlot => o.configMap == MergedConfigMap(o.configMap, cfg)
    case PolicySlot(i) => o.policy.spec == PolicySpecs(vpa.meta.name)[i]
  }

  function RepairedDeployment(d: Deployment, c: Component, vpa: VpaController, cfg: Config): Deployment {
    d.(meta := Annotated(d.meta, VersionAnnotations(d.meta.annotations, cfg)),
       replicas := Some(Replicas(c, vpa)),
       template := d.template.(annotations := VersionAnnotations(d.template.annotations, cfg),
                               spec := ExpectedPodSpec(c, vpa.spec, cfg)))
  }

  function MergedService(s: Service, cfg: Config): Service {
    s.(ports := WebhookService(cfg).ports, selector := WebhookService(cfg).selector,
       meta := Annotated(s.meta, ServiceAnnotations(s.meta.annotations, cfg)))
  }

  function MergedConfigMap(c: ConfigMap, cfg: Config): ConfigMap {
    c.(meta := Annotated(c.meta, ConfigMapAnnotations(c.meta.annotations, cfg)))
  }

  /** What is written over an object that does not conform.  A network policy is replaced by a fresh one without
      owner. */
  function Repaired(slot: Slot, o: Object, vpa: VpaController, cfg: Config): (r: Object)
    requires o.GetKey() == SlotKey(slot, vpa, cfg)
    ensures r.GetKey() == SlotKey(slot, vpa, cfg)
  {
    match slot
    case DeploymentSlot(c) => DeploymentObject(RepairedDeployment(o.deployment, c, vpa, cfg))
    case ServiceSlot => ServiceObject(MergedService(o.service, cfg))
    case ConfigMapSlot => ConfigMapObject(MergedConfigMap(o.configMap, cfg))
    case PolicySlot(_) => Desired(slot, vpa, cfg)
  }

  // Steps

  datatype UpdateReply = UpdateReply(api: ApiState, updated: bool, error: Option<Error>)

  function CreatedSlot(slot: Slot, vpa: VpaController, cfg: Config, s: ApiState): WriteReply
  {
    if CanOwn(vpa, cfg) then Created(s, Owned(Desired(slot, vpa, cfg), vpa)) else WriteReply(s, Some(CrossNamespace))
  }

  function RepairedSlot(slot: Slot, existing: Object, vpa: VpaController, cfg: Config, s: ApiState): UpdateReply
    requires existing.GetKey() == SlotKey(slot, vpa, cfg)
  {
    if Conforms(slot, existing, vpa, cfg) then UpdateReply(s, false, None)
    else
      var w := Updated(s, Repaired(slot, existing, vpa, cfg));
      UpdateReply(w.api, w.error == None, w.error)
  }

  /** Update helpers read the object again. */
  function UpdatedSlot(slot: Slot, vpa: VpaController, cfg: Config, s: ApiState): UpdateReply
  {
    var got := Fetched(s, SlotKey(slot, vpa, cfg));
    match got.result
    case Err(e) => UpdateReply(got.api, false, Some(e))
    case Ok(existing) => RepairedSlot(slot, existing, vpa, cfg, got.api)
  }

  function EnsuredSlot(slot: Slot, vpa: VpaController, cfg: Config, s: ApiState): WriteReply
  {
    var got := Fetched(s, SlotKey(slot, vpa, cfg));
    match got.result
    case Err(e) => if e == NotFound then CreatedSlot(slot, vpa, cfg, got.api) else WriteReply(got.api, Some(e))
    case Ok(existing) =>
      var u := if slot.PolicySlot? then RepairedSlot(slot, existing, vpa, cfg, got.api)
        else UpdatedSlot(slot, vpa, cfg, got.api);
      WriteReply(u.api, u.error)
  }

  function EnsuredSlots(slots: seq<Slot>, vpa: VpaController, cfg: Config, s: ApiState): WriteReply
  {
    if slots == [] then WriteReply(s, None)
    else
      var first := EnsuredSlot(slots[0], vpa, cfg, s);
      if first.error != None then first else EnsuredSlots(slots[1..], vpa, cfg, first.api)
  }

  lemma {:induction false} EnsuredConcat(a: seq<Slot>, b: seq<Slot>, vpa: VpaController, cfg: Config, s: ApiState)
    ensures EnsuredSlots(a + b, vpa, cfg, s) ==
            var first := EnsuredSlots(a, vpa, cfg, s);
            if first.error != None then first else EnsuredSlots(b, vpa, cfg, first.api)
  {
    if a == [] {
      assert a + b == b;
    } else {
      EnsuredConcat(a[1..], b, vpa, cfg, EnsuredSlot(a[0], vpa, cfg, s).api);
      assert (a + b)[1..] == a[1..] + b;
    }
  }

  lemma EnsuredInOrder(a: seq<Slot>, x: Slot, y: Slot, b: seq<Slot>, vpa: VpaController, cfg: Config, s: ApiState)
    ensures var all := a + ([x] + ([y] + b));
      EnsuredSlots(all, vpa, cfg, s) ==
           var r1 := EnsuredSlots(a, vpa, cfg, s);
           if r1.error != None then r1 else
           var r2 := EnsuredSlot(x, vpa, cfg, r1.api);
           if r2.error != None then r2 else
           var r3 := EnsuredSlot(y, vpa, cfg, r2.api);
           if r3.error != None then r3 else EnsuredSlots(b, vpa, cfg, r3.api)
  {
    EnsuredConcat(a, [x] + ([y] + b), vpa, cfg, s);
    assert ([x] + ([y] + b))[1..] == [y] + b;
    assert ([y] + b)[1..] == b;
  }

  // The TLS profile

  const API_SERVER_KEY := Key(ApiServerKind, "", "cluster")

  /** What reading the cluster's APIServer configuration leads to. */
  datatype TlsReading = Keep | Use(profile: Option<TlsProfile>)

  function ReadTls(o: ApiServerConfig): TlsReading {
    if !o.honoured then Use(None) else if o.resolved.Some? then Use(o.resolved) else Keep
  }

  function WithTls(cfg: Config, reading: TlsReading): Config {
    match reading
    case Keep => cfg
    case Use(profile) => cfg.(tls := profile)
  }

  datatype SyncReply = SyncReply(api: ApiState, reading: TlsReading)

  function SyncedTls(s: ApiState): SyncReply {
    var got := Fetched(s, API_SERVER_KEY);
    SyncReply(got.api, match got.result case Ok(o) => ReadTls(o.apiServer) case Err(_) => Keep)
  }

  // The whole attempt

  datatype Attempt = Attempt(api: ApiState, cfg: Config, error: Option<Error>)

  function Reconciled(request: Key, cfg: Config, s: ApiState): Attempt
    requires request.kind == VpaKind
  {
    var synced := SyncedTls(s);
    var cfg' := WithTls(cfg, synced.reading);
    var got := Fetched(synced.api, request);
    match got.result
    case Err(e) => Attempt(got.api, cfg', if e == NotFound then None else Some(e))
    case Ok(o) =>
      var ensured := EnsuredSlots(SLOTS, o.vpa, cfg', got.api);
      Attempt(ensured.api, cfg', ensured.error)
  }

  class Reconciler {
    const client: Client
    var config: Config

    constructor (client: Client, config: Config)
      ensures this.client == client && this.config == config
    {
      this.client, this.config := client, config;
    }

    method SyncTLSProfile()
      modifies this, client
      ensures client.State() == SyncedTls(old(client.State())).api
      ensures config == WithTls(old(config), SyncedTls(old(client.State())).reading)
    {
      var got := client.Get(API_SERVER_KEY);
      if got.Err? {
        return;
      }
      var apiServer := got.value.apiServer;
      if apiServer.honoured {
        if apiServer.resolved != None {
          config := config.(tls := apiServer.resolved);
        }
      } else {
        config := config.(tls := None);
      }
    }

    method SetControllerReference(vpa: VpaController, o: Object) returns (owned: Result<Object, Error>)
      requires o.GetMeta().namespace == config.namespace && o.GetMeta().owners == []
      ensures owned == if CanOwn(vpa, config) then Ok(Owned(o, vpa)) else Err(CrossNamespace)
    {
      if vpa.meta.namespace != "" && vpa.meta.namespace != o.GetMeta().namespace {
        return Err(CrossNamespace);
      }
      assert o.GetMeta().owners + [OwnerOf(vpa)] == [OwnerOf(vpa)];
      return Ok(WithMeta(o, o.GetMeta().(owners := o.GetMeta().owners + [OwnerOf(vpa)])));
    }

    method CreateOwned(vpa: VpaController, o: Object) returns (error: Option<Error>)
      requires o.GetMeta().namespace == config.namespace && o.GetMeta().owners == []
      modifies client
      ensures WriteReply(client.State(), error) ==
              if CanOwn(vpa, config) then Created(old(client.State()), Owned(o, vpa))
              else WriteReply(old(client.State()), Some(CrossNamespace))
    {
      var owned := SetControllerReference(vpa, o);
      if owned.Err? {
        return Some(owned.error);
      }
      error := client.Create(owned.value);
    }

    method CreateAutoscaler(vpa: VpaController, c: Component) returns (error: Option<Error>)
      modifies client
      ensures WriteReply(client.State(), error) == CreatedSlot(DeploymentSlot(c), vpa, config, old(client.State()))
    {
      var podSpec := BuildPodSpec(c, vpa.spec, config);
      var labels, annotations := PodLabels(c, vpa.meta.name),
        Some(map[RELEASE_VERSION_ANNOTATION := config.releaseVersion]);
      var replicas := 1;
      if !Enabled(c, vpa.spec) {
        replicas := 0;
      }
      var meta := EmptyMeta(config.namespace, DeploymentName(c, vpa.meta.name)).(annotations := annotations);
      var deployment := Deployment(meta, Some(replicas), labels, PodTemplate(Some(labels), annotations, podSpec), "",
                                   DeploymentStatus(0, 0, 0, 0));
      assert deployment == AutoscalerDeployment(c, vpa, config);
      error := CreateOwned(vpa, DeploymentObject(deployment));
    }

    method UpdateAutoscaler(vpa: VpaController, c: Component) returns (updated: bool, error: Option<Error>)
      modifies client
      ensures UpdateReply(client.State(), updated, error) ==
        UpdatedSlot(DeploymentSlot(c), vpa, config, old(client.State()))
    {
      var got := client.Get(SlotKey(DeploymentSlot(c), vpa, config));
      if got.Err? {
        return false, Some(got.error);
      }
      var existing := got.value.deployment;
      var expectedSpec := BuildPodSpec(c, vpa.spec, config);
      var expectedReplicas := 1;
      if !Enabled(c, vpa.spec) {
        expectedReplicas := 0;
      }
      if && SamePodSpec(existing.template.spec, expectedSpec)
         && existing.replicas == Some(expectedReplicas)
         && ReleaseVersionMatches(existing.meta.annotations, config.releaseVersion)
      {
        return false, None;
      }
      existing := existing.(template := existing.template.(spec := expectedSpec), replicas := Some(expectedReplicas));
      existing := existing.(meta := Annotated(existing.meta, VersionAnnotations(existing.meta.annotations, config)));
      var annotations := VersionAnnotations(existing.template.annotations, config);
      existing := existing.(template := existing.template.(annotations := annotations));
      error := client.Update(DeploymentObject(existing));
      updated := error == None;
    }

    method CreateWebhookService(vpa: VpaController) returns (error: Option<Error>)
      modifies client
      ensures WriteReply(client.State(), error) == CreatedSlot(ServiceSlot, vpa, config, old(client.State()))
    {
      error := CreateOwned(vpa, ServiceObject(WebhookService(config)));
    }

    method UpdateWebhookService(vpa: VpaController) returns (updated: bool, error: Option<Error>)
      modifies client
      ensures UpdateReply(client.State(), updated, error) == UpdatedSlot(ServiceSlot, vpa, config, old(client.State()))
    {
      var got := client.Get(SlotKey(ServiceSlot, vpa, config));
      if got.Err? {
        return false, Some(got.error);
      }
      var merged, expected := got.value.service, WebhookService(config);
      merged := merged.(ports := expected.ports, selector := expected.selector);
      merged := merged.(meta := Annotated(merged.meta, ServiceAnnotations(merged.meta.annotations, config)));
      if got.value.service == merged {
        return false, None;
      }
      error := client.Update(ServiceObject(merged));
      updated := error == None;
    }

    method CreateCAConfigMap(vpa: VpaController) returns (error: Option<Error>)
      modifies client
      ensures WriteReply(client.State(), error) == CreatedSlot(ConfigMapSlot, vpa, config, old(client.State()))
    {
      error := CreateOwned(vpa, ConfigMapObject(CAConfigMap(config)));
    }

    method UpdateCAConfigMap(vpa: VpaController) returns (updated: bool, error: Option<Error>)
      modifies client
      ensures UpdateReply(client.State(), updated, error) ==
        UpdatedSlot(ConfigMapSlot, vpa, config, old(client.State()))
    {
      var got := client.Get(SlotKey(ConfigMapSlot, vpa, config));
      if got.Err? {
        return false, Some(got.error);
      }
      var merged := got.value.configMap;
      merged := merged.(meta := Annotated(merged.meta, ConfigMapAnnotations(merged.meta.annotations, config)));
      if got.value.configMap == merged {
        return false, None;
      }
      error := client.Update(ConfigMapObject(merged));
      updated := error == None;
    }

    /** One turn of the loop over the network policies. */
    method EnsurePolicy(vpa: VpaController, i: nat, policy: NetworkPolicy) returns (error: Option<Error>)
      requires i < 5 && policy == NetworkPolicies(vpa.meta.name, config.namespace)[i]
      modifies client
      ensures WriteReply(client.State(), error) == EnsuredSlot(PolicySlot(i), vpa, config, old(client.State()))
    {
      hide PolicySpecs, Created, Updated;
      var got := client.Get(Key(PolicyKind, config.namespace, policy.meta.name));
      if got.Err? && got.error != NotFound {
        return Some(got.error);
      }
      if got.Err? {
        error := CreateOwned(vpa, PolicyObject(policy));
      } else {
        if policy.spec == got.value.policy.spec {
          return None;
        }
        error := client.Update(PolicyObject(policy));
      }
    }

    /** One turn of the loop over the operands. */
    method EnsureAutoscaler(vpa: VpaController, c: Component) returns (error: Option<Error>)
      modifies client
      ensures WriteReply(client.State(), error) == EnsuredSlot(DeploymentSlot(c), vpa, config, old(client.State()))
    {
      var got := client.Get(SlotKey(DeploymentSlot(c), vpa, config));
      if got.Err? && got.error != NotFound {
        return Some(got.error);
      }
      if got.Err? {
        error := CreateAutoscaler(vpa, c);
        return;
      }
      var updated;
      updated, error := UpdateAutoscaler(vpa, c);
    }

    method EnsureWebhookService(vpa: VpaController) returns (error: Option<Error>)
      modifies client
      ensures WriteReply(client.State(), error) == EnsuredSlot(ServiceSlot, vpa, config, old(client.State()))
    {
      var got := client.Get(SlotKey(ServiceSlot, vpa, config));
      if got.Err? && got.error != NotFound {
        return Some(got.error);
      }
      var updated;
      if got.Err? {
        error := CreateWebhookService(vpa);
      } else {
        updated, error := UpdateWebhookService(vpa);
      }
    }

    method EnsureCAConfigMap(vpa: VpaController) returns (error: Option<Error>)
      modifies client
      ensures WriteReply(client.State(), error) == EnsuredSlot(ConfigMapSlot, vpa, config, old(client.State()))
    {
      var got := client.Get(SlotKey(ConfigMapSlot, vpa, config));
      if got.Err? && got.error != NotFound {
        return Some(got.error);
      }
      var updated;
      if got.Err? {
        error := CreateCAConfigMap(vpa);
      } else {
        updated, error := UpdateCAConfigMap(vpa);
      }
    }

    method EnsureAutoscalers(vpa: VpaController) returns (error: Option<Error>)
      modifies client
      ensures WriteReply(client.State(), error) == EnsuredSlots(DEPLOYMENT_SLOTS, vpa, config, old(client.State()))
    {
      var components := [Recommender, Updater, Admission];
      for i := 0 to |components|
        invariant EnsuredSlots(DEPLOYMENT_SLOTS, vpa, config, old(client.State())) ==
                  EnsuredSlots(DEPLOYMENT_SLOTS[i..], vpa, config, client.State())
      {
        assert DEPLOYMENT_SLOTS[i..][1..] == DEPLOYMENT_SLOTS[i + 1..];
        error := EnsureAutoscaler(vpa, components[i]);
        if error != None {
          return;
        }
      }
      return None;
    }

    method EnsurePolicies(vpa: VpaController) returns (error: Option<Error>)
      modifies client
      ensures WriteReply(client.State(), error) == EnsuredSlots(POLICY_SLOTS, vpa, config, old(client.State()))
    {
      hide EnsuredSlot, PolicySpecs;
      var policies := NetworkPolicies(vpa.meta.name, config.namespace);
      for i := 0 to |policies|
        invariant EnsuredSlots(POLICY_SLOTS, vpa, config, old(client.State())) ==
                  EnsuredSlots(POLICY_SLOTS[i..], vpa, config, client.State())
      {
        assert POLICY_SLOTS[i..][1..] == POLICY_SLOTS[i + 1..];
        error := EnsurePolicy(vpa, i, policies[i]);
        if error != None {
          return;
        }
      }
      return None;
    }

    method EnsureAll(vpa: VpaController) returns (error: Option<Error>)
      modifies client
      ensures WriteReply(client.State(), error) == EnsuredSlots(SLOTS, vpa, config, old(client.State()))
    {
      EnsuredInOrder(DEPLOYMENT_SLOTS, ServiceSlot, ConfigMapSlot, POLICY_SLOTS, vpa, config, client.State());
      error := EnsureAutoscalers(vpa);
      if error != None {
        return;
      }
      error := EnsureWebhookService(vpa);
      if error != None {
        return;
      }
      error := EnsureCAConfigMap(vpa);
      if error != None {
        return;
      }
      error := EnsurePolicies(vpa);
    }

    method Reconcile(request: Key) returns (error: Option<Error>)
      requires request.kind == VpaKind
      modifies this, client
      ensures Attempt(client.State(), config, error) == Reconciled(request, old(config), old(client.State()))
    {
      SyncTLSProfile();
      var found := client.Get(request);
      if found.Err? {
        return if found.error == NotFound then None else Some(found.error);
      }
      error := EnsureAll(found.value.vpa);
    }
  }
}
