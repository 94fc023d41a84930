/** The five network policies, and the traffic they let through when a pod may do what any policy selecting it
    allows. */
module Policies {
  import opened Common
  import opened ApiTypes
  import opened PodSpecs

  const VPA_LABEL := "vertical-pod-autoscaler"
  const APP_LABEL := "app"

  function MakePort(protocol: Protocol, port: Port, endPort: int): PolicyPort {
    PolicyPort(protocol,
               if port != IntPort(0) && port != NamedPort("") && port != NamedPort("0") then Some(port) else None,
               if endPort != 0 then Some(endPort) else None)
  }

  function Policy(namespace: string, name: string, spec: PolicySpec): NetworkPolicy {
    NetworkPolicy(EmptyMeta(namespace, name), spec)
  }

  const POLICY_NAMES := ["vpa-default-deny", "vpa-allow-egress-to-dns", "vpa-allow-egress-to-api-server",
                         "vpa-allow-ingress-to-admission-webhook", "vpa-allow-ingress-to-metrics"]

  const DNS_PEER := PolicyPeer(Some(map["kubernetes.io/metadata.name" := "openshift-dns"]),
                               Some(map["dns.operator.openshift.io/daemonset-dns" := "default"]))

  function PolicySpecs(vpaName: string): (specs: seq<PolicySpec>)
    ensures |specs| == |POLICY_NAMES|
  {
    var pods := map[VPA_LABEL := vpaName];
    [PolicySpec(pods, [], [], [Egress, Ingress]),
     PolicySpec(pods, [], [PolicyRule([DNS_PEER], [MakePort(TCP, IntPort(5353), 0), MakePort(UDP, IntPort(5353), 0)])],
       [Egress]),
     PolicySpec(pods, [], [PolicyRule([], [MakePort(TCP, IntPort(6443), 0)])], [Egress]),
     PolicySpec(map[VPA_LABEL := vpaName, APP_LABEL := AppName(Admission)],
                [PolicyRule([], [MakePort(TCP, IntPort(WEBHOOK_PORT), 0)])], [], [Ingress]),
     PolicySpec(pods, [PolicyRule([], [MakePort(TCP, IntPort(8942), 0), MakePort(TCP, IntPort(8943), 0),
                                       MakePort(TCP, IntPort(8944), 0)])], [], [Ingress])]
  }

  function NetworkPolicies(vpaName: string, namespace: string): (policies: seq<NetworkPolicy>)
    ensures |policies| == |POLICY_NAMES|
    ensures forall i :: 0 <= i < |policies| ==>
      policies[i] == Policy(namespace, POLICY_NAMES[i], PolicySpecs(vpaName)[i])
  {
    var specs := PolicySpecs(vpaName);
    [Policy(namespace, POLICY_NAMES[0], specs[0]), Policy(namespace, POLICY_NAMES[1], specs[1]),
     Policy(namespace, POLICY_NAMES[2], specs[2]), Policy(namespace, POLICY_NAMES[3], specs[3]),
     Policy(namespace, POLICY_NAMES[4], specs[4])]
  }

  // What policies mean

  /** One connection of a pod: its port is the receiving one, and the remote end has labels and a namespace of its own,
      which may be that of the pod, and an address. */
  datatype Connection = Connection(protocol: Protocol, port: int, sameNamespace: bool,
                                   remoteNamespace: map<string, string>,
                                   remotePod: map<string, string>, remoteAddress: string)

  predicate Matches(selector: map<string, string>, labels: map<string, string>) {
    forall k :: k in selector ==> k in labels && labels[k] == selector[k]
  }

  /** Named ports stand for no particular number here. */
  predicate PortAllows(p: PolicyPort, c: Connection) {
    && p.protocol == c.protocol
    && match p.port
       case None => true
       case Some(NamedPort(_)) => false
       case Some(IntPort(n)) => if p.endPort == None then c.port == n else n <= c.port <= p.endPort.value
  }

  /** A nil pod selector does not constrain; pods without a namespace selector are those of the policy's own
      namespace. */
  predicate PeerAllows(p: PolicyPeer, c: Connection) {
    && (p.namespaceLabels.Some? ==> Matches(p.namespaceLabels.value, c.remoteNamespace))
    && (p.namespaceLabels == None && p.podLabels.Some? ==> c.sameNamespace)
    && (p.podLabels.Some? ==> Matches(p.podLabels.value, c.remotePod))
  }

  predicate RuleAllows(r: PolicyRule, c: Connection) {
    && (r.peers == [] || exists i :: 0 <= i < |r.peers| && PeerAllows(r.peers[i], c))
    && (r.ports == [] || exists i :: 0 <= i < |r.ports| && PortAllows(r.ports[i], c))
  }

  function Rules(p: PolicySpec, d: Direction): seq<PolicyRule> {
    if d == Ingress then p.ingress else p.egress
  }

  predicate AppliesTo(p: PolicySpec, labels: map<string, string>, d: Direction) {
    d in p.types && Matches(p.podSelector, labels)
  }

  predicate PolicyAllows(p: PolicySpec, d: Direction, c: Connection) {
    exists i :: 0 <= i < |Rules(p, d)| && RuleAllows(Rules(p, d)[i], c)
  }

  /** A pod that no policy applies to is free; any other pod may do what one of its policies allows. */
  predicate Allowed(policies: seq<PolicySpec>, labels: map<string, string>, d: Direction, c: Connection) {
    || (forall i :: 0 <= i < |policies| ==> !AppliesTo(policies[i], labels, d))
    || (exists i :: 0 <= i < |policies| && AppliesTo(policies[i], labels, d) && PolicyAllows(policies[i], d, c))
  }

  // What the five policies amount to

  predicate IsOperand(labels: map<string, string>, vpaName: string) {
    VPA_LABEL in labels && labels[VPA_LABEL] == vpaName
  }

  predicate IsWebhook(labels: map<string, string>) {
    APP_LABEL in labels && labels[APP_LABEL] == AppName(Admission)
  }

  predicate MayReceive(labels: map<string, string>, c: Connection) {
    c.protocol == TCP && (c.port in {8942, 8943, 8944} || (c.port == WEBHOOK_PORT && IsWebhook(labels)))
  }

  predicate MaySend(c: Connection) {
    || (c.protocol == TCP && c.port == 6443)
    || (c.protocol in {TCP, UDP} && c.port == 5353 && PeerAllows(DNS_PEER, c))
  }

  /** What a made port lets through: the one port, or the range up to the end port if there is one; port 0 stands for
      every port. */
  lemma MadePortAllows(protocol: Protocol, n: int, endPort: int, c: Connection)
    ensures PortAllows(MakePort(protocol, IntPort(n), endPort), c) <==>
      && c.protocol == protocol
      && (n == 0 || if endPort == 0 then c.port == n else n <= c.port <= endPort)
  {
  }

  lemma SingleRule(p: PolicySpec, d: Direction, r: PolicyRule, c: Connection)
    requires Rules(p, d) == [r]
    ensures PolicyAllows(p, d, c) <==> RuleAllows(r, c)
  {
    assert Rules(p, d)[0] == r;
  }

  lemma WhatEgressPoliciesAllow(vpaName: string, c: Connection)
    ensures var p := PolicySpecs(vpaName);
      && !PolicyAllows(p[0], Egress, c)
      && (PolicyAllows(p[1], Egress, c) <==> c.protocol in {TCP, UDP} && c.port == 5353 && PeerAllows(DNS_PEER, c))
      && (PolicyAllows(p[2], Egress, c) <==> c.protocol == TCP && c.port == 6443)
  {
    hide PeerAllows;
    var p := PolicySpecs(vpaName);
    SingleRule(p[1], Egress, p[1].egress[0], c);
    SingleRule(p[2], Egress, p[2].egress[0], c);
    var dns := p[1].egress[0];
    assert RuleAllows(dns, c) <==>
      PeerAllows(dns.peers[0], c) && (PortAllows(dns.ports[0], c) || PortAllows(dns.ports[1], c));
    assert RuleAllows(p[2].egress[0], c) <==> PortAllows(p[2].egress[0].ports[0], c);
  }

  lemma WhatIngressPoliciesAllow(vpaName: string, c: Connection)
    ensures var p := PolicySpecs(vpaName);
      && !PolicyAllows(p[0], Ingress, c)
      && (PolicyAllows(p[3], Ingress, c) <==> c.protocol == TCP && c.port == WEBHOOK_PORT)
      && (PolicyAllows(p[4], Ingress, c) <==> c.protocol == TCP && c.port in {8942, 8943, 8944})
  {
    hide PeerAllows;
    var p := PolicySpecs(vpaName);
    SingleRule(p[3], Ingress, p[3].ingress[0], c);
    SingleRule(p[4], Ingress, p[4].ingress[0], c);
    assert RuleAllows(p[3].ingress[0], c) <==> PortAllows(p[3].ingress[0].ports[0], c);
    var metrics := p[4].ingress[0];
    assert RuleAllows(metrics, c) <==>
      PortAllows(metrics.ports[0], c) || PortAllows(metrics.ports[1], c) || PortAllows(metrics.ports[2], c);
  }

  lemma WhomPoliciesSelect(vpaName: string, labels: map<string, string>)
    ensures var p := PolicySpecs(vpaName);
      && (forall d :: AppliesTo(p[0], labels, d) <==> IsOperand(labels, vpaName))
      && (forall i, d :: 0 < i < 5 ==>
            (AppliesTo(p[i], labels, d) <==>
              d == (if i < 3 then Egress else Ingress) && IsOperand(labels, vpaName) && (i == 3 ==> IsWebhook(labels))))
  {
    var p := PolicySpecs(vpaName);
    assert forall i :: 0 <= i < 5 && i != 3 ==> (Matches(p[i].podSelector, labels) <==> IsOperand(labels, vpaName));
    assert Matches(p[3].podSelector, labels) <==> IsOperand(labels, vpaName) && IsWebhook(labels);
    forall d
      ensures d in p[0].types
    {
      match d case Ingress => case Egress =>
    }
  }

  /** For every set of labels and every connection: pods without the label are not touched; pods with it receive only on
      the metrics ports, and the webhook on its port, and send only to API servers and to the cluster DNS. */
  lemma EffectiveTraffic(vpaName: string, labels: map<string, string>, c: Connection)
    ensures Allowed(PolicySpecs(vpaName), labels, Ingress, c) <==> !IsOperand(labels, vpaName) || MayReceive(labels, c)
    ensures Allowed(PolicySpecs(vpaName), labels, Egress, c) <==> !IsOperand(labels, vpaName) || MaySend(c)
  {
    hide PolicySpecs, AppliesTo, PolicyAllows, PeerAllows;
    WhomPoliciesSelect(vpaName, labels);
    WhatIngressPoliciesAllow(vpaName, c);
    WhatEgressPoliciesAllow(vpaName, c);
    var p := PolicySpecs(vpaName);
    assert |p| == 5;
  }

  /** Any other policy, by what it does: whom it applies to and what it allows.  Label expressions, address blocks and
      named ports come under this as well. */
  datatype OtherPolicy = OtherPolicy(applies: (map<string, string>, Direction) -> bool,
                                     allows: (Direction, Connection) -> bool)

  predicate AllowedByOthers(others: seq<OtherPolicy>, labels: map<string, string>, d: Direction, c: Connection) {
    exists i :: 0 <= i < |others| && others[i].applies(labels, d) && others[i].allows(d, c)
  }

  /** The rule of Allowed for the operator's policies and others in the same namespace. */
  predicate AllowedTogether(policies: seq<PolicySpec>, others: seq<OtherPolicy>, labels: map<string, string>,
                            d: Direction, c: Connection)
  {
    || ((forall i :: 0 <= i < |policies| ==> !AppliesTo(policies[i], labels, d))
        && (forall i :: 0 <= i < |others| ==> !others[i].applies(labels, d)))
    || (exists i :: 0 <= i < |policies| && AppliesTo(policies[i], labels, d) && PolicyAllows(policies[i], d, c))
    || AllowedByOthers(others, labels, d, c)
  }

  /** Other policies in the namespace can only add to what an operand may do, and the operator's policies say nothing
      about other pods. */
  lemma OtherPoliciesAdd(vpaName: string, others: seq<OtherPolicy>, labels: map<string, string>, d: Direction,
                         c: Connection)
    ensures AllowedTogether(PolicySpecs(vpaName), others, labels, d, c) <==>
      if IsOperand(labels, vpaName) then Allowed(PolicySpecs(vpaName), labels, d, c)
        || AllowedByOthers(others, labels, d, c)
      else AllowedByOthers(others, labels, d, c) || forall i :: 0 <= i < |others| ==> !others[i].applies(labels, d)
  {
    hide PolicySpecs, AppliesTo, PolicyAllows, IsOperand, IsWebhook;
    WhomPoliciesSelect(vpaName, labels);
    var p := PolicySpecs(vpaName);
    assert AppliesTo(p[0], labels, d) <==> IsOperand(labels, vpaName);
    assert forall i :: 0 <= i < |p| && AppliesTo(p[i], labels, d) ==> IsOperand(labels, vpaName);
  }
}
