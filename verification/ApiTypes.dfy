/** The Kubernetes objects the operator reads and writes, as plain values.
    Fields the operator never inspects are kept as opaque text, so that "left unchanged" can be stated. */
module ApiTypes {
  import opened Common

  datatype OwnerReference = OwnerReference(group: string, version: string, kind: string, name: string, uid: string,
                                           controller: Option<bool>, blockOwnerDeletion: Option<bool>)

  datatype ObjectMeta = ObjectMeta(namespace: string, name: string, uid: string, labels: StringMap,
                                   annotations: StringMap, owners: seq<OwnerReference>, generation: int)

  // Workloads

  datatype Resources = Resources(requests: StringMap, limits: StringMap)

  datatype Toleration = Toleration(key: string, operator: string, value: string, effect: string, seconds: Option<int>)

  datatype Port = IntPort(number: int) | NamedPort(name: string)

  datatype Protocol = TCP | UDP | SCTP

  datatype ContainerPort = ContainerPort(port: int, protocol: Protocol, other: string)

  datatype VolumeMount = VolumeMount(name: string, mountPath: string, readOnly: bool)

  datatype VolumeSource = SecretVolume(secret: string, mode: int) | ConfigMapVolume(configMap: string, mode: int)
                        | OtherVolume(text: string)

  datatype Volume = Volume(name: string, source: VolumeSource)

  datatype Container = Container(name: string, image: string, command: seq<string>, args: seq<string>,
                                 resources: Resources, ports: seq<ContainerPort>, mounts: seq<VolumeMount>,
                                 other: string)

  datatype PodSpec = PodSpec(serviceAccount: string, priorityClass: string, nodeSelector: map<string, string>,
                             containers: seq<Container>, tolerations: seq<Toleration>, volumes: seq<Volume>,
                             other: string)

  datatype PodTemplate = PodTemplate(labels: StringMap, annotations: StringMap, spec: PodSpec)

  datatype DeploymentStatus = DeploymentStatus(observedGeneration: int, replicas: int, updatedReplicas: int,
                                               availableReplicas: int)

  datatype Deployment = Deployment(meta: ObjectMeta, replicas: Option<int>, selector: map<string, string>,
                                   template: PodTemplate, other: string, status: DeploymentStatus)

  // Networking

  datatype ServicePort = ServicePort(name: string, port: int, targetPort: Port, protocol: Protocol, nodePort: int)

  datatype Service = Service(meta: ObjectMeta, ports: seq<ServicePort>, selector: map<string, string>, other: string)

  /** Absent `port` means every port; `endPort` turns a number into a range. */
  datatype PolicyPort = PolicyPort(protocol: Protocol, port: Option<Port>, endPort: Option<int>)

  /** Without a namespace selector, a pod selector speaks of the policy's own namespace. */
  datatype PolicyPeer = PolicyPeer(namespaceLabels: Option<map<string, string>>, podLabels: Option<map<string, string>>)

  /** No peer listed means every peer; no port listed means every port. */
  datatype PolicyRule = PolicyRule(peers: seq<PolicyPeer>, ports: seq<PolicyPort>)

  datatype Direction = Ingress | Egress

  datatype PolicySpec = PolicySpec(podSelector: map<string, string>, ingress: seq<PolicyRule>, egress: seq<PolicyRule>,
                                   types: seq<Direction>)

  datatype NetworkPolicy = NetworkPolicy(meta: ObjectMeta, spec: PolicySpec)

  // Configuration

  datatype ConfigMap = ConfigMap(meta: ObjectMeta, data: map<string, string>)

  datatype Namespace = Namespace(meta: ObjectMeta)

  datatype TlsProfile = TlsProfile(minVersion: string, ciphers: seq<string>)

  /** The cluster's APIServer configuration, reduced to what the TLS library answers about it: whether its adherence
      policy is honoured, and the profile it resolves to (None when it cannot be resolved). */
  datatype ApiServerConfig = ApiServerConfig(meta: ObjectMeta, honoured: bool, resolved: Option<TlsProfile>)

  /** A number as the fmt package prints it; the arithmetic of floats plays no role. */
  type Printed = string

  datatype DeploymentOverride = DeploymentOverride(args: seq<string>, resources: Resources,
                                                   nodeSelector: map<string, string>, tolerations: seq<Toleration>)

  datatype VpaSpec = VpaSpec(safetyMarginFraction: Option<Printed>, podMinCpu: Option<Printed>,
                             podMinMemory: Option<Printed>, recommendationOnly: Option<bool>,
                             minReplicas: Option<Printed>, admission: DeploymentOverride,
                             recommender: DeploymentOverride, updater: DeploymentOverride)

  datatype VpaController = VpaController(meta: ObjectMeta, spec: VpaSpec)

  // Status reporting

  /** An instant; 0 is the zero time. */
  type Time = nat

  datatype Condition = Condition(ctype: string, status: string, reason: string, message: string, time: Time)

  datatype OperandVersion = OperandVersion(name: string, version: string)

  datatype ObjectReference = ObjectReference(group: string, resource: string, namespace: string, name: string)

  /** `versions` keeps nil apart from empty because the reporter tests for nil. */
  datatype OperatorStatus = OperatorStatus(conditions: seq<Condition>, versions: Option<seq<OperandVersion>>,
                                           extensionRaw: string, extensionObject: Option<string>,
                                           relatedObjects: seq<ObjectReference>)

  datatype ClusterOperator = ClusterOperator(meta: ObjectMeta, status: OperatorStatus)

  // The object store

  datatype Kind = DeploymentKind | ServiceKind | ConfigMapKind | PolicyKind | VpaKind | NamespaceKind | ApiServerKind
                | ClusterOperatorKind

  datatype Key = Key(kind: Kind, namespace: string, name: string)

  datatype Object =
    | DeploymentObject(deployment: Deployment)
    | ServiceObject(service: Service)
    | ConfigMapObject(configMap: ConfigMap)
    | PolicyObject(policy: NetworkPolicy)
    | VpaObject(vpa: VpaController)
    | NamespaceObject(namespace: Namespace)
    | ApiServerObject(apiServer: ApiServerConfig)
    | ClusterOperatorObject(clusterOperator: ClusterOperator)
  {
    function GetMeta(): ObjectMeta {
      match this
      case DeploymentObject(o) => o.meta
      case ServiceObject(o) => o.meta
      case ConfigMapObject(o) => o.meta
      case PolicyObject(o) => o.meta
      case VpaObject(o) => o.meta
      case NamespaceObject(o) => o.meta
      case ApiServerObject(o) => o.meta
      case ClusterOperatorObject(o) => o.meta
    }

    function GetKind(): Kind {
      match this
      case DeploymentObject(_) => DeploymentKind
      case ServiceObject(_) => ServiceKind
      case ConfigMapObject(_) => ConfigMapKind
      case PolicyObject(_) => PolicyKind
      case VpaObject(_) => VpaKind
      case NamespaceObject(_) => NamespaceKind
      case ApiServerObject(_) => ApiServerKind
      case ClusterOperatorObject(_) => ClusterOperatorKind
    }

    function GetKey(): Key {
      Key(GetKind(), GetMeta().namespace, GetMeta().name)
    }
  }

  /** Every object is filed under its own kind, namespace and name. */
  type Store = m: map<Key, Object> | forall k :: k in m ==> m[k].GetKey() == k

  function Lookup(store: Store, k: Key): Option<Object> {
    if k in store then Some(store[k]) else None
  }

  function EmptyMeta(namespace: string, name: string): ObjectMeta {
    ObjectMeta(namespace, name, "", None, None, [], 0)
  }
}
