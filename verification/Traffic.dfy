/** What the stored policies, service and certificates mean for the pods of the stored deployments. */
module Traffic {
  import opened Common
  import opened ApiTypes
  import opened ApiServer
  import opened Flags
  import opened PodSpecs
  import opened Policies
  import opened Reconcile
  import opened ManagedObjects
  import opened ReconcileRuns
  import opened Frames
  import opened Repairs
  import opened Util

  // Policies

  /** The policy specs under the five names. */
  function StoredPolicies(cfg: Config, store: Store): seq<PolicySpec> {
    seq(|POLICY_NAMES|, i requires 0 <= i < |POLICY_NAMES| =>
      var k := Key(PolicyKind, cfg.namespace, POLICY_NAMES[i]);
      if k in store && store[k].PolicyObject? then store[k].policy.spec else PolicySpec(map[], [], [], []))
  }

  lemma PoliciesInPlace(vpa: VpaController, cfg: Config, store: Store)
    requires AllConform(vpa, cfg, store)
    ensures StoredPolicies(cfg, store) == PolicySpecs(vpa.meta.name)
  {
    hide PolicySpecs;
    forall i | 0 <= i < |POLICY_NAMES|
      ensures StoredPolicies(cfg, store)[i] == PolicySpecs(vpa.meta.name)[i]
    {
      assert SLOTS[5 + i] == PolicySlot(i);
      assert ConformsAt(SLOTS[5 + i], vpa, cfg, store);
    }
  }

  lemma LabelsOfOperands(c: Component, vpaName: string)
    ensures IsOperand(PodLabels(c, vpaName), vpaName)
    ensures IsWebhook(PodLabels(c, vpaName)) <==> c == Admission
  {
    assert APP_LABEL != VPA_LABEL by {
      assert |APP_LABEL| == 3 && |VPA_LABEL| == 23;
    }
    assert AppName(Recommender)[4] == 'r' && AppName(Updater)[4] == 'u' && AppName(Admission)[4] == 'a';
  }

  /** The labels by which policies and service know the pods of a component. */
  predicate ProperLabels(labels: map<string, string>, c: Component, vpaName: string) {
    IsOperand(labels, vpaName) && (IsWebhook(labels) <==> c == Admission)
  }

  /** The connections that a component is meant to receive: the metrics ports, and the webhook port for the admission
      plugin. */
  predicate MeantToReceive(c: Component, conn: Connection) {
    conn.protocol == TCP && (conn.port in {8942, 8943, 8944} || (conn.port == 8000 && c == Admission))
  }

  /** When all ten objects conform, the stored policies leave pods with the given labels exactly these connections. */
  lemma StoredTraffic(vpa: VpaController, cfg: Config, store: Store, labels: map<string, string>, conn: Connection)
    requires AllConform(vpa, cfg, store)
    ensures Allowed(StoredPolicies(cfg, store), labels, Ingress, conn) <==>
      !IsOperand(labels, vpa.meta.name) || MayReceive(labels, conn)
    ensures Allowed(StoredPolicies(cfg, store), labels, Egress, conn) <==>
      !IsOperand(labels, vpa.meta.name) || MaySend(conn)
  {
    hide Allowed, StoredPolicies, AllConform, MaySend, MayReceive, IsOperand;
    PoliciesInPlace(vpa, cfg, store);
    EffectiveTraffic(vpa.meta.name, labels, conn);
  }

  /** When all ten objects conform, the pods of the stored deployment are free if and only if its template lacks the
      operand label; they may receive exactly what the component is meant to if and only if the template has the
      proper labels, and send exactly to API servers and the cluster DNS if and only if it has the operand label. */
  lemma OperandTraffic(vpa: VpaController, cfg: Config, store: Store, c: Component, d: Deployment)
    requires AllConform(vpa, cfg, store) && DeploymentAt(c, vpa, cfg, store) == Some(d)
    ensures var policies, labels := StoredPolicies(cfg, store), Entries(d.template.labels);
      && ((forall dir, conn :: Allowed(policies, labels, dir, conn)) <==> !IsOperand(labels, vpa.meta.name))
      && ((forall conn :: Allowed(policies, labels, Ingress, conn) <==> MeantToReceive(c, conn)) <==>
            ProperLabels(labels, c, vpa.meta.name))
      && ((forall conn :: Allowed(policies, labels, Egress, conn) <==> MaySend(conn)) <==>
           IsOperand(labels, vpa.meta.name))
  {
    hide Allowed, StoredPolicies, AllConform, IsOperand, IsWebhook, PeerAllows;
    var policies, labels := StoredPolicies(cfg, store), Entries(d.template.labels);
    forall conn
      ensures Allowed(policies, labels, Ingress, conn) <==>
        !IsOperand(labels, vpa.meta.name) || MayReceive(labels, conn)
      ensures Allowed(policies, labels, Egress, conn) <==> !IsOperand(labels, vpa.meta.name) || MaySend(conn)
    {
      StoredTraffic(vpa, cfg, store, labels, conn);
    }
    var odd, webhook := Connection(SCTP, 0, true, map[], map[], ""), Connection(TCP, 8000, true, map[], map[], "");
    assert !MayReceive(labels, odd) && !MaySend(odd) && !MeantToReceive(c, odd);
    assert Allowed(policies, labels, Ingress, odd) <==> !IsOperand(labels, vpa.meta.name);
    assert Allowed(policies, labels, Egress, odd) <==> !IsOperand(labels, vpa.meta.name);
    assert MayReceive(labels, webhook) <==> IsWebhook(labels);
    assert MeantToReceive(c, webhook) <==> c == Admission;
    forall dir, conn | !IsOperand(labels, vpa.meta.name)
      ensures Allowed(policies, labels, dir, conn)
    {
      match dir case Ingress => case Egress =>
    }
  }

  // The service

  /** The service sends what it receives to this port of the pods it selects. */
  ghost predicate SendsTo(service: Service, conn: Connection) {
    exists i :: 0 <= i < |service.ports|
      && service.ports[i].targetPort == IntPort(conn.port) && service.ports[i].protocol == conn.protocol
  }

  ghost predicate ListensOn(spec: PodSpec, conn: Connection) {
    |spec.containers| == 1 &&
    exists i :: 0 <= i < |spec.containers[0].ports|
      && spec.containers[0].ports[i].port == conn.port && spec.containers[0].ports[i].protocol == conn.protocol
  }

  lemma StoredService(vpa: VpaController, cfg: Config, store: Store, service: Service)
    requires AllConform(vpa, cfg, store)
    requires Lookup(store, SlotKey(ServiceSlot, vpa, cfg)) == Some(ServiceObject(service))
    ensures service.ports == WEBHOOK_SERVICE_PORTS && service.selector == WEBHOOK_SELECTOR
  {
    assert SLOTS[3] == ServiceSlot && ConformsAt(SLOTS[3], vpa, cfg, store);
  }

  lemma StoredPodSpec(vpa: VpaController, cfg: Config, store: Store, c: Component, d: Deployment)
    requires AllConform(vpa, cfg, store) && DeploymentAt(c, vpa, cfg, store) == Some(d)
    ensures SamePodSpec(d.template.spec, ExpectedPodSpec(c, vpa.spec, cfg))
  {
    hide SamePodSpec, ExpectedPodSpec, DeploymentName, ReleaseVersionMatches;
    var i := DeploymentSlotIndex(c);
    assert ConformsAt(SLOTS[i], vpa, cfg, store);
  }

  /** When all ten objects conform, the stored service selects the pods of the stored deployment if and only if its
      template has the app label of the admission plugin; what it sends to pods it selects is let through by the
      stored policies; and only the admission plugin listens there. */
  lemma ServiceReachesTheWebhook(vpa: VpaController, cfg: Config, store: Store, c: Component, d: Deployment,
                                 service: Service, conn: Connection)
    requires AllConform(vpa, cfg, store) && DeploymentAt(c, vpa, cfg, store) == Some(d)
    requires Lookup(store, SlotKey(ServiceSlot, vpa, cfg)) == Some(ServiceObject(service)) && SendsTo(service, conn)
    ensures var policies, labels := StoredPolicies(cfg, store), Entries(d.template.labels);
      && (Matches(service.selector, labels) <==> IsWebhook(labels))
      && (Allowed(policies, labels, Ingress, conn) <==>
            !IsOperand(labels, vpa.meta.name) || Matches(service.selector, labels))
      && (ListensOn(d.template.spec, conn) <==> c == Admission)
  {
    hide Allowed, StoredPolicies, IsOperand, AllConform, ExpectedPodSpec, SamePodSpec, Desired, DeploymentAt;
    StoredService(vpa, cfg, store, service);
    StoredTraffic(vpa, cfg, store, Entries(d.template.labels), conn);
    StoredPodSpec(vpa, cfg, store, c, d);
    StoredPorts(c, vpa, cfg, d.template.spec, conn);
  }

  lemma StoredPorts(c: Component, vpa: VpaController, cfg: Config, spec: PodSpec, conn: Connection)
    requires SamePodSpec(spec, ExpectedPodSpec(c, vpa.spec, cfg)) && conn.protocol == TCP && conn.port == 8000
    ensures ListensOn(spec, conn) <==> c == Admission
  {
    hide GeneratedArgs, DefaultResources, DefaultNodeSelector, DefaultTolerations;
    assert NormalContainer(spec.containers[0]).ports == if c == Admission then WEBHOOK_PORTS else [];
    if c == Admission {
      assert spec.containers[0].ports[0].port == conn.port;
    }
  }

  /** Over every run with any fates that ends with all ten objects conforming: each deployment is there, with the
      labels it had at the start, or the proper ones if it was absent; so a component whose deployment the operator
      created is confined to what it is meant to do, and is selected by the service exactly if it is the admission
      plugin. */
  lemma TrafficAfterRuns(request: Key, vpa: VpaController, cfg: Config, s: ApiState, attempts: nat, c: Component)
    returns (d: Deployment)
    requires Present(request, vpa, s.store)
    requires AllConform(vpa, Run(request, cfg, s, attempts).cfg, Run(request, cfg, s, attempts).api.store)
    ensures var r, old_ := Run(request, cfg, s, attempts), DeploymentAt(c, vpa, cfg, s.store);
      var policies, labels := StoredPolicies(cfg, r.api.store), Entries(d.template.labels);
      && DeploymentAt(c, vpa, cfg, r.api.store) == Some(d)
      && labels == PodLabelsIn(old_, c, vpa)
      && ((forall conn :: Allowed(policies, labels, Ingress, conn) <==> MeantToReceive(c, conn)) <==>
            ProperLabels(PodLabelsIn(old_, c, vpa), c, vpa.meta.name))
      && ((forall conn :: Allowed(policies, labels, Egress, conn) <==> MaySend(conn)) <==>
            IsOperand(PodLabelsIn(old_, c, vpa), vpa.meta.name))
      && (old_ == None ==>
            ProperLabels(labels, c, vpa.meta.name) && (Matches(WEBHOOK_SELECTOR, labels) <==> c == Admission))
  {
    hide Run, Allowed, AllConform, ProperLabels, PodLabels, MeantToReceive, DeploymentName, StoredPolicies;
    var r := Run(request, cfg, s, attempts);
    RunKeeps(request, vpa, cfg, s, attempts, request);
    LabelsOverRuns(request, vpa, cfg, s, attempts, c);
    SlotsPresent(vpa, r.cfg, r.api.store, c);
    SameNames(vpa, cfg, r.cfg, r.api.store, c);
    d := DeploymentAt(c, vpa, r.cfg, r.api.store).value;
    OperandTraffic(vpa, r.cfg, r.api.store, c, d);
    CreatedLabels(c, vpa.meta.name);
  }

  lemma SameNames(vpa: VpaController, cfg: Config, later: Config, store: Store, c: Component)
    requires later == cfg.(tls := later.tls)
    ensures DeploymentAt(c, vpa, later, store) == DeploymentAt(c, vpa, cfg, store)
    ensures StoredPolicies(later, store) == StoredPolicies(cfg, store)
  {
  }

  lemma CreatedLabels(c: Component, vpaName: string)
    ensures ProperLabels(PodLabels(c, vpaName), c, vpaName)
    ensures Matches(WEBHOOK_SELECTOR, PodLabels(c, vpaName)) <==> c == Admission
  {
    hide PodLabels;
    LabelsOfOperands(c, vpaName);
  }

  /** The labels are decisive: for every resource that can own the objects there is a cluster in which all ten
      conform, an attempt changes nothing, and the pods of the component may do anything. */
  lemma UnlabelledPodsAreFree(vpa: VpaController, cfg: Config, c: Component) returns (s: ApiState, d: Deployment)
    requires CanOwn(vpa, cfg)
    ensures AllConform(vpa, cfg, s.store) && DeploymentAt(c, vpa, cfg, s.store) == Some(d)
    ensures var a := Reconciled(VpaObject(vpa).GetKey(), cfg, s); a.error == None && a.api.store == s.store
    ensures forall dir, conn :: Allowed(StoredPolicies(cfg, s.store), Entries(d.template.labels), dir, conn)
  {
    hide Reconciled, AllConform, Allowed, StoredPolicies, DeploymentAt;
    s := DriftStays(vpa, cfg, c, map[], None, None);
    d := DeploymentAt(c, vpa, cfg, s.store).value;
    OperandTraffic(vpa, cfg, s.store, c, d);
  }

  // Certificates

  /** A file in a directory where a volume with the given source is mounted. */
  ghost predicate Mounted(spec: PodSpec, path: string, source: VolumeSource) {
    |spec.containers| == 1 &&
    exists i, j :: 0 <= i < |spec.containers[0].mounts| && 0 <= j < |spec.volumes|
      && spec.containers[0].mounts[i].name == spec.volumes[j].name
      && spec.containers[0].mounts[i].mountPath + "/" <= path
      && spec.volumes[j].source == source
  }

  function AnnotationAt(store: Store, k: Key, annotation: string): Option<string> {
    if k in store && annotation in Entries(store[k].GetMeta().annotations)
    then Some(Entries(store[k].GetMeta().annotations)[annotation]) else None
  }

  const CERTIFICATES := "/data/tls-certs/"
  const AUTHORITIES := "/data/tls-ca-certs/"

  lemma MountNames()
    ensures WEBHOOK_MOUNTS[0].name == WEBHOOK_VOLUMES[0].name && WEBHOOK_MOUNTS[1].name == WEBHOOK_VOLUMES[1].name
    ensures WEBHOOK_MOUNTS[0].name != WEBHOOK_VOLUMES[1].name && WEBHOOK_MOUNTS[1].name != WEBHOOK_VOLUMES[0].name
    ensures WEBHOOK_MOUNTS[0].mountPath + "/" == CERTIFICATES && WEBHOOK_MOUNTS[1].mountPath + "/" == AUTHORITIES
  {
    assert |WEBHOOK_MOUNTS[0].name| != |WEBHOOK_VOLUMES[1].name|;
  }

  lemma WebhookMounts(vpa: VpaController, cfg: Config, spec: PodSpec, path: string)
    requires SamePodSpec(spec, ExpectedPodSpec(Admission, vpa.spec, cfg))
    ensures Mounted(spec, path, SecretVolume(WEBHOOK_CERT_SECRET, 420)) <==> CERTIFICATES <= path
    ensures Mounted(spec, path, ConfigMapVolume(CA_CONFIG_MAP, 420)) <==> AUTHORITIES <= path
  {
    hide GeneratedArgs, DefaultResources, DefaultNodeSelector, DefaultTolerations;
    assert NormalContainer(spec.containers[0]).mounts == WEBHOOK_MOUNTS && spec.volumes == WEBHOOK_VOLUMES;
    MountNames();
    assert spec.containers[0].mounts[0] == WEBHOOK_MOUNTS[0] && spec.volumes[0] == WEBHOOK_VOLUMES[0];
    assert spec.containers[0].mounts[1] == WEBHOOK_MOUNTS[1] && spec.volumes[1] == WEBHOOK_VOLUMES[1];
  }

  lemma WebhookArgs(vpa: VpaController, cfg: Config, spec: PodSpec)
    requires SamePodSpec(spec, ExpectedPodSpec(Admission, vpa.spec, cfg))
    ensures |spec.containers| == 1 && spec.containers[0].args == ContainerArgs(Admission, vpa.spec, cfg)
  {
    hide GeneratedArgs, DefaultResources, DefaultNodeSelector, DefaultTolerations;
    assert NormalContainer(spec.containers[0]).args == ContainerArgs(Admission, vpa.spec, cfg);
  }

  /** The flag takes effect with the generated file unless it is overridden, and what it names lies in the directory
      exactly when it comes from the volume. */
  ghost predicate ReadsFrom(spec: PodSpec, key: string, directory: string, source: VolumeSource, overridden: bool) {
    |spec.containers| == 1 &&
    var file := Effective(spec.containers[0].args, key);
    && file.Some?
    && (Mounted(spec, file.value, source) <==> directory <= file.value)
    && (!overridden ==> Mounted(spec, file.value, source))
  }

  lemma CertificateFile(vpa: VpaController, cfg: Config, spec: PodSpec, key: string)
    requires SamePodSpec(spec, ExpectedPodSpec(Admission, vpa.spec, cfg))
    requires key in {TLS_CERT_FILE, TLS_KEY_FILE, TLS_CA_CERT_FILE}
    ensures ReadsFrom(spec, key, if key == TLS_CA_CERT_FILE then AUTHORITIES else CERTIFICATES,
              if key == TLS_CA_CERT_FILE then ConfigMapVolume(CA_CONFIG_MAP, 420)
                else SecretVolume(WEBHOOK_CERT_SECRET, 420),
              !NotOverridden(Admission, vpa.spec, cfg, key))
  {
    hide SamePodSpec, ExpectedPodSpec, ContainerArgs, Effective, Mounted, AdmissionPluginArgs;
    WebhookArgs(vpa, cfg, spec);
    UserDecides(Admission, vpa.spec, cfg, key);
    AdmissionFiles(vpa.spec, cfg);
    assert "/data/tls-certs/tls.crt"[..16] == CERTIFICATES && "/data/tls-certs/tls.key"[..16] == CERTIFICATES;
    assert "/data/tls-ca-certs/service-ca.crt"[..19] == AUTHORITIES;
    WebhookMounts(vpa, cfg, spec, Effective(spec.containers[0].args, key).value);
  }

  /** When all ten objects conform, the certificate chain of the stored deployment is closed: unless overridden, the
      key pair that its container reads is the secret that the stored service asks to be issued, and the authority
      file is the stored config map, which asks to have the bundle injected.  An override keeps the chain closed
      exactly when it names a file in the same directory. */
  lemma CertificatesAreMounted(vpa: VpaController, cfg: Config, store: Store, d: Deployment)
    requires AllConform(vpa, cfg, store) && DeploymentAt(Admission, vpa, cfg, store) == Some(d)
    ensures var spec, secret := d.template.spec,
      AnnotationAt(store, SlotKey(ServiceSlot, vpa, cfg), WEBHOOK_CERT_ANNOTATION);
      && secret.Some?
      && AnnotationAt(store, SlotKey(ConfigMapSlot, vpa, cfg), CA_CERT_ANNOTATION) == Some("true")
      && (forall key :: key in {TLS_CERT_FILE, TLS_KEY_FILE} ==>
            ReadsFrom(spec, key, CERTIFICATES, SecretVolume(secret.value, 420),
              !NotOverridden(Admission, vpa.spec, cfg, key)))
      && ReadsFrom(spec, TLS_CA_CERT_FILE, AUTHORITIES, ConfigMapVolume(SlotKey(ConfigMapSlot, vpa, cfg).name, 420),
                   !NotOverridden(Admission, vpa.spec, cfg, TLS_CA_CERT_FILE))
  {
    hide AllConform, ExpectedPodSpec, SamePodSpec, ReadsFrom, NotOverridden, DeploymentAt, AnnotationAt;
    StoredPodSpec(vpa, cfg, store, Admission, d);
    CertificateAnnotations(vpa, cfg, store);
    CertificateFile(vpa, cfg, d.template.spec, TLS_CERT_FILE);
    CertificateFile(vpa, cfg, d.template.spec, TLS_KEY_FILE);
    CertificateFile(vpa, cfg, d.template.spec, TLS_CA_CERT_FILE);
    assert |TLS_CERT_FILE| != |TLS_CA_CERT_FILE| && |TLS_KEY_FILE| != |TLS_CERT_FILE|
      && TLS_KEY_FILE[2] != TLS_CA_CERT_FILE[2];
  }

  lemma CertificateAnnotations(vpa: VpaController, cfg: Config, store: Store)
    requires AllConform(vpa, cfg, store)
    ensures AnnotationAt(store, SlotKey(ServiceSlot, vpa, cfg), WEBHOOK_CERT_ANNOTATION) == Some(WEBHOOK_CERT_SECRET)
    ensures AnnotationAt(store, SlotKey(ConfigMapSlot, vpa, cfg), CA_CERT_ANNOTATION) == Some("true")
  {
    assert SLOTS[3] == ServiceSlot && ConformsAt(SLOTS[3], vpa, cfg, store);
    assert SLOTS[4] == ConfigMapSlot && ConformsAt(SLOTS[4], vpa, cfg, store);
    var service := store[SlotKey(ServiceSlot, vpa, cfg)].service;
    assert WEBHOOK_CERT_ANNOTATION in Entries(ServiceAnnotations(service.meta.annotations, cfg));
    var configMap := store[SlotKey(ConfigMapSlot, vpa, cfg)].configMap;
    assert CA_CERT_ANNOTATION in Entries(ConfigMapAnnotations(configMap.meta.annotations, cfg));
  }
}
