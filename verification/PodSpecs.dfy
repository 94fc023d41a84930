/** The pod specs of the three operands: defaults, then the user's overrides, built up in place. */
module PodSpecs {
  import opened Common
  import opened ApiTypes
  import opened Flags
  import opened GoHeap

  datatype Component = Recommender | Updater | Admission

  function Command(c: Component): string {
    match c
    case Recommender => "recommender"
    case Updater => "updater"
    case Admission => "admission-controller"
  }

  /** Also the name of the service account. */
  function AppName(c: Component): string {
    match c
    case Recommender => "vpa-recommender"
    case Updater => "vpa-updater"
    case Admission => "vpa-admission-controller"
  }

  function DefaultResources(c: Component): Resources {
    Resources(Some(map["cpu" := "25m", "memory" := if c == Admission then "50Mi" else "100Mi"]), None)
  }

  function Enabled(c: Component, vpa: VpaSpec): bool {
    c == Recommender || vpa.recommendationOnly != Some(true)
  }

  function OverrideOf(c: Component, vpa: VpaSpec): DeploymentOverride {
    match c
    case Recommender => vpa.recommender
    case Updater => vpa.updater
    case Admission => vpa.admission
  }

  function DefaultNodeSelector(cfg: Config): map<string, string> {
    if cfg.externalControlPlane then map["kubernetes.io/os" := "linux"]
    else map["node-role.kubernetes.io/control-plane" := "", "kubernetes.io/os" := "linux"]
  }

  function DefaultTolerations(cfg: Config): seq<Toleration> {
    [Toleration("CriticalAddonsOnly", "Exists", "", "", None)] +
    if cfg.externalControlPlane then []
    else [Toleration("node-role.kubernetes.io/master", "Exists", "", "NoSchedule", None),
          Toleration("node-role.kubernetes.io/control-plane", "Exists", "", "NoSchedule", None)]
  }

  function GeneratedArgs(c: Component, vpa: VpaSpec, cfg: Config): seq<string> {
    match c
    case Recommender => RecommenderArgs(vpa, cfg)
    case Updater => UpdaterArgs(vpa, cfg)
    case Admission => AdmissionPluginArgs(vpa, cfg)
  }

  function ExtraArgs(cfg: Config): seq<string> {
    if cfg.extraArgs == "" then [] else [cfg.extraArgs]
  }

  const WEBHOOK_PORT := 8000
  const WEBHOOK_CERT_SECRET := "vpa-tls-certs"
  const CA_CONFIG_MAP := "vpa-tls-ca-certs"
  const SYSTEM_PRIORITY := "system-cluster-critical"

  // The fields that are the same in every pod, the environment and the security settings among them, stand as one
  // value.
  const FIXED_CONTAINER_FIELDS := "container defaults"
  const FIXED_POD_FIELDS := "pod defaults"

  const WEBHOOK_PORTS := [ContainerPort(WEBHOOK_PORT, TCP, "")]
  const WEBHOOK_MOUNTS := [VolumeMount("tls-certs", "/data/tls-certs", true),
    VolumeMount("tls-ca-certs", "/data/tls-ca-certs", true)]
  const WEBHOOK_VOLUMES := [Volume("tls-certs", SecretVolume(WEBHOOK_CERT_SECRET, 420)),
                            Volume("tls-ca-certs", ConfigMapVolume(CA_CONFIG_MAP, 420))]

  /** The pod spec a component should have, field by field. */
  function ExpectedPodSpec(c: Component, vpa: VpaSpec, cfg: Config): PodSpec {
    var o := OverrideOf(c, vpa);
    PodSpec(
      AppName(c), SYSTEM_PRIORITY,
      if o.nodeSelector == map[] then DefaultNodeSelector(cfg) else o.nodeSelector,
      [Container("vertical-pod-autoscaler", cfg.image, [Command(c)],
                 GeneratedArgs(c, vpa, cfg) + ExtraArgs(cfg) + o.args,
                 if o.resources == Resources(None, None) then DefaultResources(c) else o.resources,
                 if c == Admission then WEBHOOK_PORTS else [],
                 if c == Admission then WEBHOOK_MOUNTS else [],
                 FIXED_CONTAINER_FIELDS)],
      if o.tolerations == [] then DefaultTolerations(cfg) else o.tolerations,
      if c == Admission then WEBHOOK_VOLUMES else [],
      FIXED_POD_FIELDS)
  }

  /** The spec with the port, the mounts and the volumes of the webhook added. */
  function WithWebhook(spec: PodSpec): PodSpec
    requires |spec.containers| == 1
  {
    var c := spec.containers[0];
    spec.(containers := [c.(ports := c.ports + WEBHOOK_PORTS, mounts := c.mounts + WEBHOOK_MOUNTS)],
          volumes := spec.volumes + WEBHOOK_VOLUMES)
  }

  lemma AddsToNothing(bare: PodSpec, expected: PodSpec)
    requires |bare.containers| == |expected.containers| == 1 && bare.volumes == []
      && expected.volumes == WEBHOOK_VOLUMES
    requires bare.containers[0].ports == [] && bare.containers[0].mounts == []
    requires expected.containers[0].ports == WEBHOOK_PORTS && expected.containers[0].mounts == WEBHOOK_MOUNTS
    requires bare.containers[0] == expected.containers[0].(ports := [], mounts := [])
    requires bare == expected.(containers := bare.containers, volumes := [])
    ensures WithWebhook(bare) == expected
  {
    assert [] + WEBHOOK_PORTS == WEBHOOK_PORTS && [] + WEBHOOK_MOUNTS == WEBHOOK_MOUNTS;
    assert [] + WEBHOOK_VOLUMES == WEBHOOK_VOLUMES;
  }

  /** A pod spec with its one container, while it is being built.  Its node selector may be the resource's own map. */
  class LivePodSpec {
    var serviceAccount: string
    var nodeSelector: Ref<map<string, string>>
    var tolerations: seq<Toleration>
    var volumes: seq<Volume>
    var image: string
    var command: seq<string>
    var args: Slice<string>
    var resources: Resources
    var ports: seq<ContainerPort>
    var mounts: seq<VolumeMount>

    function Value(): PodSpec
      requires args.Valid()
      reads this, args.data, nodeSelector
    {
      PodSpec(serviceAccount, SYSTEM_PRIORITY, nodeSelector.value,
              [Container("vertical-pod-autoscaler", image, command, args.Elements(), resources, ports, mounts,
                         FIXED_CONTAINER_FIELDS)],
              tolerations, volumes, FIXED_POD_FIELDS)
    }

    /** The spec common to the components; it takes over the arguments. */
    constructor (c: Component, args: Slice<string>, cfg: Config)
      requires args.Valid()
      modifies args.data
      ensures this.serviceAccount == AppName(c) && this.image == cfg.image && this.command == [Command(c)]
      ensures this.args.Valid() && this.args.Elements() == old(args.Elements()) + ExtraArgs(cfg)
      ensures this.args.data == args.data || fresh(this.args.data)
      ensures fresh(nodeSelector) && nodeSelector.value == DefaultNodeSelector(cfg)
      ensures tolerations == DefaultTolerations(cfg)
      ensures resources == DefaultResources(c) && ports == [] && mounts == [] && volumes == []
    {
      hide DefaultNodeSelector, DefaultTolerations, DefaultResources, AppName, Command;
      this.args := args;
      serviceAccount, image, command := AppName(c), cfg.image, [Command(c)];
      tolerations := DefaultTolerations(cfg);
      nodeSelector := new Ref(DefaultNodeSelector(cfg));
      resources, ports, mounts, volumes := DefaultResources(c), [], [], [];
      new;
      if cfg.extraArgs != "" {
        this.args := Append(this.args, [cfg.extraArgs]);
      }
    }

    /** The user's arguments are copied to the end; the user's node selector is shared from here on. */
    method ApplyOverrides(o: LiveOverride)
      requires args.Valid() && o.args.Valid() && o.args.data != args.data
      modifies this, args.data
      ensures unchanged(`serviceAccount, `image, `command, `ports, `mounts, `volumes)
      ensures o.Value() == old(o.Value())
      ensures args.Valid() && args.Elements() == old(args.Elements()) + o.args.Elements()
      ensures args.data == old(args.data) || fresh(args.data)
      ensures resources == if o.resources == Resources(None, None) then old(resources) else o.resources
      ensures nodeSelector == if o.nodeSelector.value == map[] then old(nodeSelector) else o.nodeSelector
      ensures tolerations == if o.tolerations == [] then old(tolerations) else o.tolerations
    {
      if o.resources != Resources(None, None) {
        resources := o.resources;
      }
      if o.args.len > 0 {
        args := Append(args, o.args.Elements());
      }
      if |o.nodeSelector.value| > 0 {
        nodeSelector := o.nodeSelector;
      }
      if |o.tolerations| > 0 {
        tolerations := o.tolerations;
      }
    }

    method AddWebhook()
      requires args.Valid()
      modifies this
      ensures unchanged(`args, `nodeSelector)
      ensures Value() == WithWebhook(old(Value()))
    {
      ports := ports + [ContainerPort(WEBHOOK_PORT, TCP, "")];
      mounts := mounts + [VolumeMount("tls-certs", "/data/tls-certs", true)];
      mounts := mounts + [VolumeMount("tls-ca-certs", "/data/tls-ca-certs", true)];
      volumes := volumes + [Volume("tls-certs", SecretVolume(WEBHOOK_CERT_SECRET, 420))];
      volumes := volumes + [Volume("tls-ca-certs", ConfigMapVolume(CA_CONFIG_MAP, 420))];
      assert ports == old(ports) + WEBHOOK_PORTS && mounts == old(mounts) + WEBHOOK_MOUNTS;
      assert volumes == old(volumes) + WEBHOOK_VOLUMES && args.Elements() == old(args.Elements());
    }
  }

  /** Writes to no memory that existed before, the resource's in particular; only the node selector may be shared with
      it. */
  method RecommenderControllerPodSpec(vpa: LiveSpec, cfg: Config) returns (spec: LivePodSpec)
    requires vpa.Valid()
    ensures fresh(spec) && spec.args.Valid() && fresh(spec.args.data)
    ensures spec.Value() == ExpectedPodSpec(Recommender, vpa.Value(), cfg)
    ensures fresh(spec.nodeSelector) || spec.nodeSelector == vpa.recommender.nodeSelector
  {
    var args := BuildRecommenderArgs(vpa, cfg);
    spec := new LivePodSpec(Recommender, args, cfg);
    spec.ApplyOverrides(vpa.recommender);
  }

  method UpdaterControllerPodSpec(vpa: LiveSpec, cfg: Config) returns (spec: LivePodSpec)
    requires vpa.Valid()
    ensures fresh(spec) && spec.args.Valid() && fresh(spec.args.data)
    ensures spec.Value() == ExpectedPodSpec(Updater, vpa.Value(), cfg)
    ensures fresh(spec.nodeSelector) || spec.nodeSelector == vpa.updater.nodeSelector
  {
    var args := BuildUpdaterArgs(vpa, cfg);
    spec := new LivePodSpec(Updater, args, cfg);
    spec.ApplyOverrides(vpa.updater);
  }

  method AdmissionControllerPodSpec(vpa: LiveSpec, cfg: Config) returns (spec: LivePodSpec)
    requires vpa.Valid()
    ensures fresh(spec) && spec.args.Valid() && fresh(spec.args.data)
    ensures spec.Value() == ExpectedPodSpec(Admission, vpa.Value(), cfg)
    ensures fresh(spec.nodeSelector) || spec.nodeSelector == vpa.admission.nodeSelector
  {
    hide AdmissionPluginArgs, DefaultNodeSelector, DefaultTolerations, DefaultResources;
    var args := BuildAdmissionPluginArgs(vpa, cfg);
    spec := new LivePodSpec(Admission, args, cfg);
    spec.ApplyOverrides(vpa.admission);
    ghost var bare, expected := spec.Value(), ExpectedPodSpec(Admission, vpa.Value(), cfg);
    assert bare.containers[0].args == expected.containers[0].args;
    AddsToNothing(bare, expected);
    spec.AddWebhook();
  }

  /** The resource is loaded into memory, and is still the same after the build. */
  method BuildPodSpec(c: Component, vpa: VpaSpec, cfg: Config) returns (spec: PodSpec)
    ensures spec == ExpectedPodSpec(c, vpa, cfg)
  {
    var live: LivePodSpec;
    var loaded := LoadSpec(vpa);
    match c {
      case Recommender => live := RecommenderControllerPodSpec(loaded, cfg);
      case Updater => live := UpdaterControllerPodSpec(loaded, cfg);
      case Admission => live := AdmissionControllerPodSpec(loaded, cfg);
    }
    assert loaded.Value() == vpa;
    spec := live.Value();
  }

  // Semantic equality

  function NormalContainer(c: Container): Container {
    c.(resources := Resources(Some(Entries(c.resources.requests)), Some(Entries(c.resources.limits))))
  }

  /** Nil and empty resource lists are the same. */
  predicate SamePodSpec(a: PodSpec, b: PodSpec) {
    && a == b.(containers := a.containers)
    && |a.containers| == |b.containers|
    && forall i :: 0 <= i < |a.containers| ==> NormalContainer(a.containers[i]) == NormalContainer(b.containers[i])
  }

  // Which flags take effect

  function ContainerArgs(c: Component, vpa: VpaSpec, cfg: Config): seq<string> {
    ExpectedPodSpec(c, vpa, cfg).containers[0].args
  }

  function Else(a: Option<string>, b: Option<string>): Option<string> {
    if a.Some? then a else b
  }

  /** Neither the user nor the extra argument sets the key. */
  predicate NotOverridden(c: Component, vpa: VpaSpec, cfg: Config, key: string) {
    Effective(OverrideOf(c, vpa).args, key) == None && Effective(ExtraArgs(cfg), key) == None
  }

  /** A flag the user gives decides its key; failing that, the operator's extra argument; failing that, what the
      operator generated. */
  lemma UserDecides(c: Component, vpa: VpaSpec, cfg: Config, key: string)
    ensures Effective(ContainerArgs(c, vpa, cfg), key) ==
            Else(Effective(OverrideOf(c, vpa).args, key),
                 Else(Effective(ExtraArgs(cfg), key), Effective(GeneratedArgs(c, vpa, cfg), key)))
  {
    EffectiveAppend(GeneratedArgs(c, vpa, cfg) + ExtraArgs(cfg), OverrideOf(c, vpa).args, key);
    EffectiveAppend(GeneratedArgs(c, vpa, cfg), ExtraArgs(cfg), key);
  }

  /** The setting of the resource that a flag of the recommender or the updater stands for. */
  function SettingOf(c: Component, vpa: VpaSpec, cfg: Config, key: string): Option<string> {
    if key == VERBOSITY then Some(cfg.verbosity)
    else if c == Recommender && key == SAFETY_MARGIN_FRACTION then vpa.safetyMarginFraction
    else if c == Recommender && key == POD_MIN_CPU then vpa.podMinCpu
    else if c == Recommender && key == POD_MIN_MEMORY then vpa.podMinMemory
    else if c == Updater && key == MIN_REPLICAS then vpa.minReplicas
    else None
  }

  /** The recommender and the updater run with each setting of the resource under its own key, unless the user's
      arguments or the extra argument say otherwise. */
  lemma OperandSettings(c: Component, vpa: VpaSpec, cfg: Config, key: string)
    requires c != Admission && key in OPERAND_KEYS[1..]
    ensures Effective(ContainerArgs(c, vpa, cfg), key) ==
            Else(Effective(OverrideOf(c, vpa).args, key),
              Else(Effective(ExtraArgs(cfg), key), SettingOf(c, vpa, cfg, key)))
  {
    hide Effective, ContainerArgs, RecommenderArgs, UpdaterArgs;
    OperandKeysDistinct();
    UserDecides(c, vpa, cfg, key);
    if c == Recommender {
      RecommenderEffective(vpa, cfg, key);
    } else {
      UpdaterEffective(vpa, cfg, key);
    }
  }

  /** The API rate limits always have a value, and the default is generated exactly when the user gave none; the TLS
      settings are those of the profile unless the user or the extra argument sets them. */
  lemma AdmissionSettings(vpa: VpaSpec, cfg: Config)
    ensures forall key :: key in ADMISSION_KEYS[6..] ==>
      var user := Effective(vpa.admission.args, key);
      && (key == KUBE_API_QPS || key == KUBE_API_BURST ==>
            (Effective(AdmissionPluginArgs(vpa, cfg), key).Some? <==> user == None))
      && Effective(ContainerArgs(Admission, vpa, cfg), key) ==
           Else(user, Else(Effective(ExtraArgs(cfg), key),
             if key == KUBE_API_QPS then Some("25.0")
             else if key == KUBE_API_BURST then Some("50.0")
             else if key == MIN_TLS_VERSION then MinTlsVersion(cfg)
             else TlsCiphers(cfg)))
  {
    AdmissionKeysDistinct();
    forall key | key in ADMISSION_KEYS[6..]
      ensures Effective(AdmissionPluginArgs(vpa, cfg), key) ==
            if key == KUBE_API_QPS then Default(vpa.admission.args, KUBE_API_QPS, "25.0")
            else if key == KUBE_API_BURST then Default(vpa.admission.args, KUBE_API_BURST, "50.0")
            else if key == MIN_TLS_VERSION then MinTlsVersion(cfg)
            else TlsCiphers(cfg)
      ensures ArgExists(vpa.admission.args, key) <==> Effective(vpa.admission.args, key).Some?
      ensures Effective(ContainerArgs(Admission, vpa, cfg), key) ==
            Else(Effective(vpa.admission.args, key),
                 Else(Effective(ExtraArgs(cfg), key), Effective(AdmissionPluginArgs(vpa, cfg), key)))
    {
      AdmissionEffective(vpa, cfg, key);
      ArgExistsIsEffective(vpa.admission.args, key);
      UserDecides(Admission, vpa, cfg, key);
    }
  }

  // What a component depends on

  /** The parts of the resource that a component's deployment is built from. */
  datatype View = View(override_: DeploymentOverride, numbers: seq<Option<Printed>>, enabled: bool)

  function ViewOf(c: Component, vpa: VpaSpec): View {
    View(OverrideOf(c, vpa),
         match c
         case Recommender => [vpa.safetyMarginFraction, vpa.podMinCpu, vpa.podMinMemory]
         case Updater => [vpa.minReplicas]
         case Admission => [],
         Enabled(c, vpa))
  }

  lemma PodSpecReadsItsView(c: Component, a: VpaSpec, b: VpaSpec, cfg: Config)
    requires ViewOf(c, a) == ViewOf(c, b)
    ensures ExpectedPodSpec(c, a, cfg) == ExpectedPodSpec(c, b, cfg)
  {
    match c
    case Recommender =>
      assert ViewOf(c, a).numbers[0] == ViewOf(c, b).numbers[0];
      assert ViewOf(c, a).numbers[1] == ViewOf(c, b).numbers[1];
      assert ViewOf(c, a).numbers[2] == ViewOf(c, b).numbers[2];
    case Updater =>
      assert ViewOf(c, a).numbers[0] == ViewOf(c, b).numbers[0];
    case Admission =>
  }
}
