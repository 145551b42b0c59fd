/** The generated network-policy rules and their meaning under the Kubernetes
    networking/v1 semantics. */
module NetworkPolicies {
  import opened Strings
  import opened ModelServices

  const NAMESPACE_NAME_LABEL := "kubernetes.io/metadata.name"

  /** Only selectors by labels are generated. */
  datatype Peer = Peer(podSelector: Option<Labels>, namespaceSelector: Option<Labels>)
  datatype PolicyPort = PolicyPort(protocol: string, port: int)
  datatype Rule = Rule(peers: seq<Peer>, ports: seq<PolicyPort>)

  function IngressRules(port: int, exposure: Exposure, isolation: Isolation): seq<Rule> {
    var peers :=
      (if isolation.allowSameNamespaceIngress then [Peer(Some(map[]), None)] else [])
      + (if exposure.enabled then [Peer(None, Some(map[NAMESPACE_NAME_LABEL := exposure.gatewayDataPlaneNamespace]))]
         else []);
    if peers == [] then [] else [Rule(peers, [PolicyPort("TCP", port)])]
  }

  function EgressRules(isolation: Isolation): seq<Rule> {
    if !isolation.allowDNSEgress then []
    else [Rule([Peer(Some(map["k8s-app" := "kube-dns"]), Some(map[NAMESPACE_NAME_LABEL := "kube-system"]))],
               [PolicyPort("UDP", 53), PolicyPort("TCP", 53)])]
  }

  // ---------------------------------------------------------------------
  // Semantics
  // ---------------------------------------------------------------------

  /** The other end of a connection. */
  datatype Endpoint = Pod(namespace: string, namespaceLabels: Labels, labels: Labels) | Outside

  predicate Selects(selector: Labels, labels: Labels) {
    forall k :: k in selector ==> k in labels && labels[k] == selector[k]
  }

  /** The API server labels every namespace with its own name. */
  predicate WellLabelled(e: Endpoint) {
    e.Pod? ==> NAMESPACE_NAME_LABEL in e.namespaceLabels && e.namespaceLabels[NAMESPACE_NAME_LABEL] == e.namespace
  }

  /** A pod selector alone is relative to the policy's namespace. */
  predicate PeerMatches(policyNamespace: string, p: Peer, e: Endpoint) {
    && e.Pod?
    && (p.podSelector.Some? || p.namespaceSelector.Some?)
    && (p.podSelector.Some? ==> Selects(p.podSelector.value, e.labels))
    && (if p.namespaceSelector.Some? then Selects(p.namespaceSelector.value, e.namespaceLabels)
        else e.namespace == policyNamespace)
  }

  /** An empty peer list admits every endpoint and an empty port list every port. */
  predicate RuleAllows(policyNamespace: string, r: Rule, e: Endpoint, protocol: string, port: int) {
    && (r.peers == [] || exists i :: 0 <= i < |r.peers| && PeerMatches(policyNamespace, r.peers[i], e))
    && (r.ports == [] || PolicyPort(protocol, port) in r.ports)
  }

  /** A pod isolated by a policy accepts what some rule allows. */
  predicate Allows(policyNamespace: string, rules: seq<Rule>, e: Endpoint, protocol: string, port: int) {
    exists i :: 0 <= i < |rules| && RuleAllows(policyNamespace, rules[i], e, protocol, port)
  }

  /** The generated ingress rules admit exactly TCP to the service port from the
      same namespace, when that is allowed, or from the gateway data plane, when
      exposed; with neither, nothing is admitted. */
  lemma IngressMeaning(namespace: string, port: int, exposure: Exposure, isolation: Isolation,
                       source: Endpoint, protocol: string, target: int)
    requires WellLabelled(source)
    ensures Allows(namespace, IngressRules(port, exposure, isolation), source, protocol, target)
      <==> (&& protocol == "TCP" && target == port && source.Pod?
            && (|| (isolation.allowSameNamespaceIngress && source.namespace == namespace)
                || (exposure.enabled && source.namespace == exposure.gatewayDataPlaneNamespace)))
  {
    var rules := IngressRules(port, exposure, isolation);
    if rules != [] {
      var r := rules[0];
      assert Allows(namespace, rules, source, protocol, target) <==> RuleAllows(namespace, r, source, protocol, target);
      if isolation.allowSameNamespaceIngress {
        assert r.peers[0] == Peer(Some(map[]), None);
        assert PeerMatches(namespace, r.peers[0], source) <==> source.Pod? && source.namespace == namespace;
      }
      if exposure.enabled {
        var gateway := r.peers[|r.peers| - 1];
        assert gateway == Peer(None, Some(map[NAMESPACE_NAME_LABEL := exposure.gatewayDataPlaneNamespace]));
        assert PeerMatches(namespace, gateway, source)
          <==> source.Pod? && source.namespace == exposure.gatewayDataPlaneNamespace;
      }
    }
  }

  /** The generated egress rules admit exactly DNS to the cluster DNS pods. */
  lemma EgressMeaning(namespace: string, isolation: Isolation, target: Endpoint, protocol: string, port: int)
    requires WellLabelled(target)
    ensures Allows(namespace, EgressRules(isolation), target, protocol, port)
      <==> (&& isolation.allowDNSEgress && port == 53 && protocol in {"UDP", "TCP"}
            && target.Pod? && target.namespace == "kube-system"
            && "k8s-app" in target.labels && target.labels["k8s-app"] == "kube-dns")
  {
    var rules := EgressRules(isolation);
    if rules != [] {
      var r := rules[0];
      assert Allows(namespace, rules, target, protocol, port) <==> RuleAllows(namespace, r, target, protocol, port);
      assert RuleAllows(namespace, r, target, protocol, port)
        <==> PeerMatches(namespace, r.peers[0], target) && PolicyPort(protocol, port) in r.ports;
    }
  }
}
