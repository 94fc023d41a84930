/** What the resource and the configuration ask of each of the ten objects, spelled out on its own, and that this is
    what the code compares, leaves behind and writes. */
module Asked {
  import opened Common
  import opened ApiTypes
  import opened ApiServer
  import opened Bootstrap
  import opened Flags
  import opened PodSpecs
  import opened Policies
  import opened Reconcile
  import opened ManagedObjects
  import opened ReconcileRuns
  import opened Repairs
  import opened Tls
  import opened TlsHistory
  import opened Util

  // Pod specs

  ghost predicate SameContainer(x: Container, y: Container) {
    && x.name == y.name && x.image == y.image && x.command == y.command && x.args == y.args
    && x.ports == y.ports && x.mounts == y.mounts && x.other == y.other
    && Entries(x.resources.requests) == Entries(y.resources.requests)
    && Entries(x.resources.limits) == Entries(y.resources.limits)
  }

  /** The code's comparison sees every field; of the resource lists it sees the entries. */
  lemma SamePodSpecMeans(x: PodSpec, y: PodSpec)
    ensures SamePodSpec(x, y) <==>
      && x.serviceAccount == y.serviceAccount && x.priorityClass == y.priorityClass
      && x.nodeSelector == y.nodeSelector && x.tolerations == y.tolerations
      && x.volumes == y.volumes && x.other == y.other
      && |x.containers| == |y.containers|
      && forall i :: 0 <= i < |x.containers| ==> SameContainer(x.containers[i], y.containers[i])
  {
    forall i | 0 <= i < |x.containers| && |x.containers| == |y.containers|
      ensures NormalContainer(x.containers[i]) == NormalContainer(y.containers[i]) <==>
              SameContainer(x.containers[i], y.containers[i])
    {
      var a, b := NormalContainer(x.containers[i]), NormalContainer(y.containers[i]);
      assert a.resources.requests.value == Entries(x.containers[i].resources.requests);
      assert b.resources.requests.value == Entries(y.containers[i].resources.requests);
    }
  }

  /** The names of the components. */
  datatype Names = Names(app: string, command: string, deployment: string)

  function NamesOf(c: Component): Names {
    match c
    case Recommender => Names("vpa-recommender", "recommender", "vpa-recommender-")
    case Updater => Names("vpa-updater", "updater", "vpa-updater-")
    case Admission => Names("vpa-admission-controller", "admission-controller", "vpa-admission-plugin-")
  }

  function OverridesFor(c: Component, spec: VpaSpec): DeploymentOverride {
    match c
    case Recommender => spec.recommender
    case Updater => spec.updater
    case Admission => spec.admission
  }

  ghost predicate ResourcesAsked(c: Component, asked: Resources, r: Resources) {
    if asked.requests == None && asked.limits == None then
      && Entries(r.requests) == map["cpu" := "25m", "memory" := if c == Admission then "50Mi" else "100Mi"]
      && Entries(r.limits) == map[]
    else
      Entries(r.requests) == Entries(asked.requests) && Entries(r.limits) == Entries(asked.limits)
  }

  ghost predicate PlacementAsked(o: DeploymentOverride, external: bool, spec: PodSpec) {
    && (o.nodeSelector != map[] ==> spec.nodeSelector == o.nodeSelector)
    && (o.nodeSelector == map[] ==>
          spec.nodeSelector ==
            if external then map["kubernetes.io/os" := "linux"]
            else map["node-role.kubernetes.io/control-plane" := "", "kubernetes.io/os" := "linux"])
    && (o.tolerations != [] ==> spec.tolerations == o.tolerations)
    && (o.tolerations == [] ==>
          spec.tolerations ==
            if external then [Toleration("CriticalAddonsOnly", "Exists", "", "", None)]
            else [Toleration("CriticalAddonsOnly", "Exists", "", "", None),
                  Toleration("node-role.kubernetes.io/master", "Exists", "", "NoSchedule", None),
                  Toleration("node-role.kubernetes.io/control-plane", "Exists", "", "NoSchedule", None)])
  }

  /** The webhook's port, mounts and volumes for the admission plugin, none for the others. */
  ghost predicate WebhookAsked(c: Component, spec: PodSpec)
    requires |spec.containers| == 1
  {
    var container := spec.containers[0];
    if c == Admission then
      && container.ports == [ContainerPort(8000, TCP, "")]
      && container.mounts == [VolumeMount("tls-certs", "/data/tls-certs", true),
                              VolumeMount("tls-ca-certs", "/data/tls-ca-certs", true)]
      && spec.volumes == [Volume("tls-certs", SecretVolume("vpa-tls-certs", 420)),
                          Volume("tls-ca-certs", ConfigMapVolume("vpa-tls-ca-certs", 420))]
    else
      container.ports == [] && container.mounts == [] && spec.volumes == []
  }

  /** The arguments are the generated ones, whose meaning is said by their effect, then the extra one, then the
      user's. */
  ghost predicate PodSpecAsked(c: Component, vpa: VpaController, cfg: Config, spec: PodSpec) {
    var o := OverridesFor(c, vpa.spec);
    && spec.serviceAccount == NamesOf(c).app && spec.priorityClass == "system-cluster-critical"
    && spec.other == FIXED_POD_FIELDS
    && PlacementAsked(o, cfg.externalControlPlane, spec)
    && |spec.containers| == 1 && WebhookAsked(c, spec)
    && var container := spec.containers[0];
       && container.name == "vertical-pod-autoscaler" && container.image == cfg.image
       && container.command == [NamesOf(c).command] && container.other == FIXED_CONTAINER_FIELDS
       && ResourcesAsked(c, o.resources, container.resources)
       && container.args == GeneratedArgs(c, vpa.spec, cfg) + (if cfg.extraArgs == "" then [] else [cfg.extraArgs]) +
            o.args
  }

  lemma ComparedWithAsked(c: Component, vpa: VpaController, cfg: Config, spec: PodSpec)
    ensures SamePodSpec(spec, ExpectedPodSpec(c, vpa.spec, cfg)) <==> PodSpecAsked(c, vpa, cfg, spec)
  {
    hide GeneratedArgs, SamePodSpec;
    SamePodSpecMeans(spec, ExpectedPodSpec(c, vpa.spec, cfg));
  }

  // Objects

  /** The replicas a component should have: none for updater and admission plugin if only recommendations are wanted. */
  function ReplicasAsked(c: Component, vpa: VpaController): int {
    if c != Recommender && vpa.spec.recommendationOnly == Some(true) then 0 else 1
  }

  ghost predicate HasAnnotation(meta: ObjectMeta, key: string, value: string) {
    meta.annotations.Some? && key in meta.annotations.value && meta.annotations.value[key] == value
  }

  /** What a slot's object should be like, whatever else it has. */
  ghost predicate AsAsked(slot: Slot, o: Object, vpa: VpaController, cfg: Config) {
    match slot
    case DeploymentSlot(c) =>
      && o.DeploymentObject?
      && PodSpecAsked(c, vpa, cfg, o.deployment.template.spec)
      && o.deployment.replicas == Some(ReplicasAsked(c, vpa))
      && HasAnnotation(o.deployment.meta, "release.openshift.io/version", cfg.releaseVersion)
    case ServiceSlot =>
      && o.ServiceObject?
      && o.service.ports == [ServicePort("", 443, IntPort(8000), TCP, 0)]
      && o.service.selector == map["app" := "vpa-admission-controller"]
      && HasAnnotation(o.service.meta, "release.openshift.io/version", cfg.releaseVersion)
      && HasAnnotation(o.service.meta, "service.beta.openshift.io/serving-cert-secret-name", "vpa-tls-certs")
    case ConfigMapSlot =>
      && o.ConfigMapObject?
      && HasAnnotation(o.configMap.meta, "release.openshift.io/version", cfg.releaseVersion)
      && HasAnnotation(o.configMap.meta, "service.beta.openshift.io/inject-cabundle", "true")
    case PolicySlot(i) => o.PolicyObject? && o.policy.spec == PolicySpecs(vpa.meta.name)[i]
  }

  /** Where a slot's object is. */
  function PlaceOf(slot: Slot, vpa: VpaController, cfg: Config): Key {
    match slot
    case DeploymentSlot(c) => Key(DeploymentKind, cfg.namespace, NamesOf(c).deployment + vpa.meta.name)
    case ServiceSlot => Key(ServiceKind, cfg.namespace, "vpa-webhook")
    case ConfigMapSlot => Key(ConfigMapKind, cfg.namespace, "vpa-tls-ca-certs")
    case PolicySlot(i) =>
      Key(PolicyKind, cfg.namespace,
          ["vpa-default-deny", "vpa-allow-egress-to-dns", "vpa-allow-egress-to-api-server",
           "vpa-allow-ingress-to-admission-webhook", "vpa-allow-ingress-to-metrics"][i])
  }

  ghost predicate AsAskedAt(slot: Slot, vpa: VpaController, cfg: Config, store: Store) {
    var k := PlaceOf(slot, vpa, cfg); k in store && AsAsked(slot, store[k], vpa, cfg)
  }

  lemma AnnotationsWhen(a: StringMap, cfg: Config)
    ensures var meta := EmptyMeta("", "").(annotations := a);
      && (a == ServiceAnnotations(a, cfg) <==>
            && HasAnnotation(meta, "release.openshift.io/version", cfg.releaseVersion)
            && HasAnnotation(meta, "service.beta.openshift.io/serving-cert-secret-name", "vpa-tls-certs"))
      && (a == ConfigMapAnnotations(a, cfg) <==>
            && HasAnnotation(meta, "release.openshift.io/version", cfg.releaseVersion)
            && HasAnnotation(meta, "service.beta.openshift.io/inject-cabundle", "true"))
  {
    var release, cert, bundle := RELEASE_VERSION_ANNOTATION, WEBHOOK_CERT_ANNOTATION, CA_CERT_ANNOTATION;
    assert |release| != |cert| && |release| != |bundle|;
    var entries := Entries(a);
    if a.Some? && release in entries && entries[release] == cfg.releaseVersion {
      if cert in entries && entries[cert] == WEBHOOK_CERT_SECRET {
        assert entries[release := cfg.releaseVersion][cert := WEBHOOK_CERT_SECRET] == entries;
      }
      if bundle in entries && entries[bundle] == "true" {
        assert entries[release := cfg.releaseVersion][bundle := "true"] == entries;
      }
    }
    assert entries[release := cfg.releaseVersion][cert := WEBHOOK_CERT_SECRET][release] == cfg.releaseVersion;
    assert entries[release := cfg.releaseVersion][bundle := "true"][release] == cfg.releaseVersion;
  }

  lemma ServiceWhen(s: Service, cfg: Config)
    ensures s == MergedService(s, cfg) <==>
      && s.ports == [ServicePort("", 443, IntPort(8000), TCP, 0)]
      && s.selector == map["app" := "vpa-admission-controller"]
      && s.meta.annotations == ServiceAnnotations(s.meta.annotations, cfg)
  {
    hide ServiceAnnotations;
  }

  /** The code's own comparison of an object is exactly this. */
  lemma ConformsMeans(slot: Slot, vpa: VpaController, cfg: Config, store: Store)
    ensures SlotKey(slot, vpa, cfg) == PlaceOf(slot, vpa, cfg)
    ensures ConformsAt(slot, vpa, cfg, store) <==> AsAskedAt(slot, vpa, cfg, store)
  {
    hide SamePodSpec, ExpectedPodSpec, PodSpecAsked, PolicySpecs, ServiceAnnotations, ConfigMapAnnotations,
         MergedService;
    var k := SlotKey(slot, vpa, cfg);
    if k in store {
      var o := store[k];
      match slot
      case DeploymentSlot(c) => ComparedWithAsked(c, vpa, cfg, o.deployment.template.spec);
      case ServiceSlot =>
        ServiceWhen(o.service, cfg);
        AnnotationsWhen(o.service.meta.annotations, cfg);
      case ConfigMapSlot => AnnotationsWhen(o.configMap.meta.annotations, cfg);
      case PolicySlot(_) =>
    }
  }

  /** After a nil return, whatever failed on the way, each of the ten objects is as asked; and it has been written if
      and only if it was not as asked before. */
  lemma NilMeansAsAsked(request: Key, vpa: VpaController, cfg: Config, s: ApiState, i: nat)
    requires Present(request, vpa, s.store) && i < |SLOTS| && Reconciled(request, cfg, s).error == None
    ensures var a := Reconciled(request, cfg, s);
      && AsAskedAt(SLOTS[i], vpa, a.cfg, a.api.store)
      && |s.writes| <= |a.api.writes|
      && (PlaceOf(SLOTS[i], vpa, cfg) in a.api.writes[|s.writes|..] <==> !AsAskedAt(SLOTS[i], vpa, a.cfg, s.store))
  {
    hide Reconciled, ConformsAt, AsAskedAt, PlaceOf, SlotKey, Todo;
    var a := Reconciled(request, cfg, s);
    NilMeansConforming(request, vpa, cfg, s);
    ConformsMeans(SLOTS[i], vpa, a.cfg, a.api.store);
    ConformsMeans(SLOTS[i], vpa, a.cfg, s.store);
    ConformsMeans(SLOTS[i], vpa, cfg, s.store);
    NilWritesTodo(request, vpa, cfg, s);
    TlsOnly(request, cfg, s);
    NamesDoNotDependOnTls(vpa, cfg, a.cfg);
    if ConformsAt(SLOTS[i], vpa, a.cfg, s.store) {
      DoneIsNotTodo(vpa, a.cfg, s.store, i);
    } else {
      UndoneIsTodo(vpa, a.cfg, s.store, i);
    }
  }

  lemma NilWritesTodo(request: Key, vpa: VpaController, cfg: Config, s: ApiState)
    requires Present(request, vpa, s.store) && Reconciled(request, cfg, s).error == None
    ensures var a := Reconciled(request, cfg, s); a.api.writes == s.writes + Todo(vpa, a.cfg, s.store)
  {
    hide Reconciled, ConformsAt, SlotKey, Todo;
    var a := Reconciled(request, cfg, s);
    var n, f := Attempted(request, vpa, cfg, s);
    ProgressMade(vpa, a.cfg, s, a.api, n);
  }

  lemma UndoneIsTodo(vpa: VpaController, cfg: Config, store: Store, i: nat)
    requires i < |SLOTS| && !ConformsAt(SLOTS[i], vpa, cfg, store)
    ensures SlotKey(SLOTS[i], vpa, cfg) in Todo(vpa, cfg, store)
  {
    hide ConformsAt, SlotKey, Target;
    ItemIsTodo(Items(SLOTS, vpa, cfg, store), i);
  }

  // Settings

  /** What the operator sets a flag to, by the flag's name, when nobody overrides it. */
  function SettingAsked(c: Component, spec: VpaSpec, cfg: Config, key: string): Option<string> {
    if key == "--v" then Some(cfg.verbosity)
    else match c
    case Recommender =>
      (match key
       case "--recommendation-margin-fraction" => spec.safetyMarginFraction
       case "--pod-recommendation-min-cpu-millicores" => spec.podMinCpu
       case "--pod-recommendation-min-memory-mb" => spec.podMinMemory
       case _ => None)
    case Updater => if key == "--min-replicas" then spec.minReplicas else None
    case Admission =>
      (match key
       case "--tls-cert-file" => Some("/data/tls-certs/tls.crt")
       case "--tls-private-key" => Some("/data/tls-certs/tls.key")
       case "--client-ca-file" => Some("/data/tls-ca-certs/service-ca.crt")
       case "--webhook-timeout-seconds" => Some("10")
       case "--kube-api-qps" => Some("25.0")
       case "--kube-api-burst" => Some("50.0")
       case "--min-tls-version" => VersionOf(cfg.tls)
       case _ => None)
  }

  /** The flags that SettingAsked speaks of. */
  const SETTINGS: map<Component, seq<string>> := map[
    Recommender := ["--v", "--recommendation-margin-fraction", "--pod-recommendation-min-cpu-millicores",
                    "--pod-recommendation-min-memory-mb", "--min-replicas"],
    Updater := ["--v", "--recommendation-margin-fraction", "--pod-recommendation-min-cpu-millicores",
                "--pod-recommendation-min-memory-mb", "--min-replicas"],
    Admission := ["--v", "--tls-cert-file", "--tls-private-key", "--client-ca-file", "--webhook-timeout-seconds",
                  "--kube-api-qps", "--kube-api-burst", "--min-tls-version"]]

  function FirstOf(a: Option<string>, b: Option<string>, c: Option<string>): Option<string> {
    if a.Some? then a else if b.Some? then b else c
  }

  lemma OperandSettingsAsked(c: Component, spec: VpaSpec, cfg: Config, key: string)
    requires c != Admission && key in SETTINGS[c]
    ensures Effective(ContainerArgs(c, spec, cfg), key) ==
            FirstOf(Effective(OverridesFor(c, spec).args, key), Effective(ExtraArgs(cfg), key),
              SettingAsked(c, spec, cfg, key))
  {
    hide Effective, ContainerArgs;
    assert OPERAND_KEYS[1..] == SETTINGS[c];
    OperandKeysDistinct();
    OperandSettings(c, spec, cfg, key);
  }

  lemma AdmissionSettingsAsked(spec: VpaSpec, cfg: Config, key: string)
    requires key in SETTINGS[Admission]
    ensures Effective(ContainerArgs(Admission, spec, cfg), key) ==
            FirstOf(Effective(spec.admission.args, key), Effective(ExtraArgs(cfg), key),
              SettingAsked(Admission, spec, cfg, key))
  {
    hide Effective, ContainerArgs, AdmissionPluginArgs, TlsCiphers, TLSVersionToArg;
    UserDecides(Admission, spec, cfg, key);
    if key in SETTINGS[Admission][..5] {
      AdmissionFiles(spec, cfg);
    } else {
      assert ADMISSION_KEYS[6..9] == SETTINGS[Admission][5..];
      assert key in ADMISSION_KEYS[6..];
      AdmissionSettings(spec, cfg);
      VersionNames();
      TlsKeys();
    }
  }

  /** Every setting takes effect in the component's arguments under its own flag: the user's, else the extra
      argument's, else the operator's. */
  lemma SettingsTakeEffect(c: Component, spec: VpaSpec, cfg: Config, key: string)
    requires key in SETTINGS[c]
    ensures Effective(ContainerArgs(c, spec, cfg), key) ==
            FirstOf(Effective(OverridesFor(c, spec).args, key), Effective(ExtraArgs(cfg), key),
              SettingAsked(c, spec, cfg, key))
  {
    hide Effective, ContainerArgs, SettingAsked;
    if c == Admission {
      AdmissionSettingsAsked(spec, cfg, key);
    } else {
      OperandSettingsAsked(c, spec, cfg, key);
    }
  }

  /** All components log to the standard error stream. */
  lemma AllLogToStderr(c: Component, spec: VpaSpec, cfg: Config)
    ensures "--logtostderr" in ContainerArgs(c, spec, cfg)
  {
    hide TlsCiphers, MinTlsVersion, Flag;
    assert ContainerArgs(c, spec, cfg)[0] == "--logtostderr";
  }

  /** The operator's value is in effect unless the extra argument sets the flag. */
  ghost predicate InEffect(c: Component, spec: VpaSpec, cfg: Config, key: string, value: string) {
    Effective(ExtraArgs(cfg), key) == None ==> Effective(ContainerArgs(c, spec, cfg), key) == Some(value)
  }

  /** The resource that the bootstrap creates: all three components run, with these numbers in effect. */
  lemma DefaultResourceInEffect(cfg: Config)
    ensures var vpa := DefaultVPAController(cfg);
      && vpa.meta.name == cfg.name && vpa.meta.namespace == cfg.namespace
      && (forall c :: ReplicasAsked(c, vpa) == 1)
      && InEffect(Recommender, vpa.spec, cfg, "--recommendation-margin-fraction", "0.15")
      && InEffect(Recommender, vpa.spec, cfg, "--pod-recommendation-min-cpu-millicores", "25")
      && InEffect(Recommender, vpa.spec, cfg, "--pod-recommendation-min-memory-mb", "250")
      && InEffect(Updater, vpa.spec, cfg, "--min-replicas", "2")
  {
    hide Effective, ContainerArgs;
    var spec := DefaultVPAController(cfg).spec;
    NoArgsNoEffect();
    assert SETTINGS[Recommender][1] == "--recommendation-margin-fraction";
    assert SETTINGS[Recommender][2] == "--pod-recommendation-min-cpu-millicores";
    assert SETTINGS[Recommender][3] == "--pod-recommendation-min-memory-mb" && SETTINGS[Updater][4] == "--min-replicas";
    SettingsTakeEffect(Recommender, spec, cfg, SETTINGS[Recommender][1]);
    SettingsTakeEffect(Recommender, spec, cfg, SETTINGS[Recommender][2]);
    SettingsTakeEffect(Recommender, spec, cfg, SETTINGS[Recommender][3]);
    SettingsTakeEffect(Updater, spec, cfg, SETTINGS[Updater][4]);
  }

  lemma NoArgsNoEffect()
    ensures forall key :: Effective([], key) == None
  {
  }
}
