/** The generated resources agree with each other: the path of a request from
    the gateway to the model container, and its absence when exposure is off. */
module ExposedPath {
  import opened Strings
  import opened ModelServices
  import opened NetworkPolicies
  import opened Children
  import opened Clusters
  import opened Reconciler
  import opened ReconcilerLaws

  /** After a successful run every child holds exactly what was wanted, is
      controlled by the ModelService and carries its labels, and every unwanted
      child is gone unless something else controls it. */
  lemma RunEstablishes(p: Parent, plan: Plan, kinds: seq<Kind>, c: Cluster, kind: Kind)
    requires Distinct(kinds) && kind in kinds && RunChildren(p, plan, kinds, c).1.Done?
    ensures var after := RunChildren(p, plan, kinds, c).0.children;
            var k := ChildKey(kind, p.key);
            && (plan(kind).Ensure? ==>
                  && k in after && after[k].body == plan(kind).body
                  && after[k].owner == Some(OwnerRef("ModelService", p.key.name, p.uid))
                  && (forall l :: l in LabelsFor(p.key.name) ==>
                        l in after[k].labels && after[k].labels[l] == LabelsFor(p.key.name)[l]))
            && (plan(kind).Remove? ==> k !in after || !ControlledBy(after[k], p.uid))
  {
    RunSettles(p, plan, kinds, c);
    var i :| 0 <= i < |kinds| && kinds[i] == kind;
    var after := RunChildren(p, plan, kinds, c).0.children;
    var v := Get(after, ChildKey(kind, p.key));
    assert Settle(p, kind, plan(kind), v) == (v, Done);
  }

  // ---------------------------------------------------------------------
  // What the spec asks for
  // ---------------------------------------------------------------------

  predicate Exposed(spec: Spec) {
    spec.exposure.Some? && spec.exposure.value.enabled
  }

  /** Isolation is on unless the section says otherwise. */
  predicate Isolated(spec: Spec) {
    spec.networkPolicy.Some? ==> spec.networkPolicy.value.enabled
  }

  predicate AdmitsOwnNamespace(spec: Spec) {
    spec.networkPolicy.Some? ==> spec.networkPolicy.value.allowSameNamespaceIngress
  }

  predicate AdmitsDNS(spec: Spec) {
    spec.networkPolicy.Some? ==> spec.networkPolicy.value.allowDNSEgress
  }

  /** What is used where the spec gives this text, or nothing. */
  predicate Uses(given: string, fallback: string, used: string) {
    if given == "" then used == fallback else used == given
  }

  /** The connections that an isolated service is to accept. */
  predicate Admitted(p: Parent, source: Endpoint, protocol: string, port: int) {
    && protocol == "TCP" && port == p.spec.port && source.Pod?
    && (|| (AdmitsOwnNamespace(p.spec) && source.namespace == p.key.namespace)
        || (Exposed(p.spec)
            && Uses(p.spec.exposure.value.gatewayDataPlaneNamespace, "envoy-gateway-system", source.namespace)))
  }

  /** The connections that it is to open: DNS, where allowed. */
  predicate Released(p: Parent, target: Endpoint, protocol: string, port: int) {
    && AdmitsDNS(p.spec) && port == 53 && protocol in {"UDP", "TCP"}
    && target.Pod? && target.namespace == "kube-system"
    && "k8s-app" in target.labels && target.labels["k8s-app"] == "kube-dns"
  }

  // ---------------------------------------------------------------------
  // What traffic does
  // ---------------------------------------------------------------------

  /** The route sends requests to this port of this Service. */
  predicate RoutesTo(route: Body, service: string, port: int) {
    route.RouteBody?
    && exists i, j :: 0 <= i < |route.rules| && 0 <= j < |route.rules[i].backends|
                      && route.rules[i].backends[j].kind == "Service"
                      && route.rules[i].backends[j].name == service && route.rules[i].backends[j].port == port
  }

  /** The Service forwards this port to a named container port. */
  predicate Forwards(service: Body, port: int, targetPort: string) {
    service.ServiceBody?
    && exists i :: 0 <= i < |service.ports|
                   && service.ports[i].port == port && service.ports[i].targetPort == targetPort
  }

  /** Pods of the Deployment listen under this port name on this number. */
  predicate Listens(deployment: Body, portName: string, number: int) {
    deployment.DeploymentBody?
    && exists i, j :: 0 <= i < |deployment.pod.containers| && 0 <= j < |deployment.pod.containers[i].ports|
                      && deployment.pod.containers[i].ports[j].name == portName
                      && deployment.pod.containers[i].ports[j].port == number
  }

  /** One hop after the other, from the route to a container port. */
  predicate Path(route: Body, service: Body, deployment: Body, name: string, port: int, portName: string, number: int) {
    RoutesTo(route, name, port) && Forwards(service, port, portName) && Listens(deployment, portName, number)
  }

  /** The policy isolates these pods and still lets this connection out. */
  predicate Releases(policy: Body, namespace: string, podLabels: Labels, target: Endpoint, protocol: string, port: int)
  {
    policy.PolicyBody? && "Egress" in policy.policyTypes && Selects(policy.selector, podLabels)
    && Allows(namespace, policy.egress, target, protocol, port)
  }

  /** The policy isolates these pods and still accepts this connection. */
  predicate Accepts(policy: Body, namespace: string, podLabels: Labels, source: Endpoint, protocol: string, port: int) {
    policy.PolicyBody? && "Ingress" in policy.policyTypes && Selects(policy.selector, podLabels)
    && Allows(namespace, policy.ingress, source, protocol, port)
  }

  ghost predicate Reconcilable(lib: Library, p: Parent, c: Cluster) {
    p.spec.backend != "KServe" && RunChildren(p, PlanFor(lib, p), KindsFor(p.spec), c).1.Done?
  }

  function ChildBody(lib: Library, p: Parent, c: Cluster, kind: Kind): Option<Body> {
    var after := RunChildren(p, PlanFor(lib, p), KindsFor(p.spec), c).0.children;
    var k := ChildKey(kind, p.key);
    if k in after then Some(after[k].body) else None
  }

  lemma WantedBody(lib: Library, p: Parent, c: Cluster, kind: Kind)
    requires Reconcilable(lib, p, c) && kind in KindsFor(p.spec) && IntentFor(lib, p, kind).Ensure?
    ensures ChildBody(lib, p, c, kind) == Some(IntentFor(lib, p, kind).body)
  {
    KindsDistinct(p.spec);
    RunEstablishes(p, PlanFor(lib, p), KindsFor(p.spec), c, kind);
  }

  /** Hop by hop, the three generated resources have exactly one path, and it
      ends at the port of the spec. */
  lemma GeneratedPath(lib: Library, p: Parent, port: int, portName: string, number: int)
    ensures Path(RouteFor(p), IntentFor(lib, p, ServiceKind).body, DeploymentFor(lib, p), p.key.name, port,
                 portName, number)
            <==> port == p.spec.port == number && portName == "http"
  {
    var route, service, deployment := RouteFor(p), IntentFor(lib, p, ServiceKind).body, DeploymentFor(lib, p);
    assert RoutesTo(route, p.key.name, port) <==> port == p.spec.port by {
      assert route.rules[0].backends[0] == BackendRef("Service", p.key.name, p.spec.port, 1);
    }
    assert Forwards(service, port, portName) <==> port == p.spec.port && portName == "http" by {
      assert service.ports[0] == ServicePort("http", p.spec.port, "http", "TCP");
    }
    assert Listens(deployment, portName, number) <==> portName == "http" && number == p.spec.port by {
      assert deployment.pod.containers[0].ports[0] == ContainerPort("http", p.spec.port, "TCP");
    }
  }

  /** The policy governs exactly the templated pods, which then accept and open
      exactly the connections that the spec asks for. */
  ghost predicate Governs(p: Parent, policy: Body, deployment: Body) {
    && policy.PolicyBody? && deployment.DeploymentBody? && policy.selector == deployment.templateLabels
    && (forall source, protocol, port :: WellLabelled(source) ==>
          (Accepts(policy, p.key.namespace, deployment.templateLabels, source, protocol, port)
           <==> Admitted(p, source, protocol, port)))
    && (forall target, protocol, port :: WellLabelled(target) ==>
          (Releases(policy, p.key.namespace, deployment.templateLabels, target, protocol, port)
           <==> Released(p, target, protocol, port)))
  }

  lemma GeneratedPolicy(lib: Library, p: Parent)
    requires Isolated(p.spec)
    ensures IntentFor(lib, p, PolicyKind).Ensure?
    ensures Governs(p, IntentFor(lib, p, PolicyKind).body, DeploymentFor(lib, p))
  {
    var policy, labels := IntentFor(lib, p, PolicyKind).body, LabelsFor(p.key.name);
    var exposure, isolation := ExposureFor(p.spec), IsolationFor(p.spec);
    SelectorsSeparate(p.key.name, p.key.name);
    forall source, protocol, port | WellLabelled(source)
      ensures Accepts(policy, p.key.namespace, labels, source, protocol, port) <==> Admitted(p, source, protocol, port)
    {
      IngressMeaning(p.key.namespace, p.spec.port, exposure, isolation, source, protocol, port);
    }
    forall target, protocol, port | WellLabelled(target)
      ensures Releases(policy, p.key.namespace, labels, target, protocol, port) <==> Released(p, target, protocol, port)
    {
      EgressMeaning(p.key.namespace, isolation, target, protocol, port);
    }
  }

  /** After a successful reconcile, from any cluster: an isolated service has a
      policy that governs its pods, and any other service has none of its own. */
  lemma PolicyGoverns(lib: Library, p: Parent, c: Cluster)
    requires Reconcilable(lib, p, c)
    ensures var policy, deployment := ChildBody(lib, p, c, PolicyKind), ChildBody(lib, p, c, DeploymentKind);
            Isolated(p.spec) ==> policy.Some? && deployment.Some? && Governs(p, policy.value, deployment.value)
    ensures !Isolated(p.spec) ==> Relinquished(lib, p, c, PolicyKind)
  {
    if Isolated(p.spec) {
      GeneratedPolicy(lib, p);
      WantedBody(lib, p, c, PolicyKind);
      WantedBody(lib, p, c, DeploymentKind);
    } else {
      UnwantedGone(lib, p, c, PolicyKind);
    }
  }

  /** No child of this kind is controlled by the ModelService any more. */
  ghost predicate Relinquished(lib: Library, p: Parent, c: Cluster, kind: Kind) {
    var after := RunChildren(p, PlanFor(lib, p), KindsFor(p.spec), c).0.children;
    var k := ChildKey(kind, p.key);
    k !in after || !ControlledBy(after[k], p.uid)
  }

  lemma UnwantedGone(lib: Library, p: Parent, c: Cluster, kind: Kind)
    requires Reconcilable(lib, p, c) && kind in KindsFor(p.spec) && IntentFor(lib, p, kind).Remove?
    ensures Relinquished(lib, p, c, kind)
  {
    KindsDistinct(p.spec);
    RunEstablishes(p, PlanFor(lib, p), KindsFor(p.spec), c, kind);
  }

  /** The route is attached to the gateway of the spec and matches its host and
      prefix. */
  predicate Routed(p: Parent, route: Body)
    requires Exposed(p.spec)
  {
    var e := p.spec.exposure.value;
    && route.RouteBody? && e.hostname != "" && route.hostnames == [e.hostname]
    && |route.parents| == 1 && |route.rules| == 1
    && Uses(e.pathPrefix, "/", route.rules[0].pathPrefix)
    && Uses(e.gatewayName, "shared-gateway", route.parents[0].name)
    && Uses(e.gatewayNamespace, "gateway-system", route.parents[0].namespace)
    && Uses(e.gatewaySectionName, "http", route.parents[0].sectionName)
  }

  /** The resources of an exposed service agree: the route is where the spec says
      and leads to the container port of the spec and nowhere else, and Service
      and Deployment select exactly the templated pods. */
  ghost predicate Agreement(p: Parent, route: Body, service: Body, deployment: Body)
    requires Exposed(p.spec)
  {
    && Routed(p, route) && service.ServiceBody? && deployment.DeploymentBody?
    && service.selector == deployment.templateLabels == deployment.selector
    && (forall port, portName, number ::
          Path(route, service, deployment, p.key.name, port, portName, number)
          <==> port == p.spec.port == number && portName == "http")
  }

  lemma GeneratedAgreement(lib: Library, p: Parent)
    requires Exposed(p.spec) && p.spec.exposure.value.hostname != ""
    ensures Agreement(p, RouteFor(p), IntentFor(lib, p, ServiceKind).body, DeploymentFor(lib, p))
  {
    var service := IntentFor(lib, p, ServiceKind).body;
    forall port, portName, number
      ensures Path(RouteFor(p), service, DeploymentFor(lib, p), p.key.name, port, portName, number)
              <==> port == p.spec.port == number && portName == "http"
    {
      GeneratedPath(lib, p, port, portName, number);
    }
  }

  lemma ExposedIntents(lib: Library, p: Parent)
    requires p.spec.backend != "KServe" && Exposed(p.spec) && !IntentFor(lib, p, RouteKind).Reject?
    ensures {RouteKind, ServiceKind, DeploymentKind, PolicyKind} <= set kind | kind in KindsFor(p.spec)
    ensures IntentFor(lib, p, RouteKind) == Ensure(RouteFor(p)) && p.spec.exposure.value.hostname != ""
    ensures IntentFor(lib, p, DeploymentKind) == Ensure(DeploymentFor(lib, p))
    ensures IntentFor(lib, p, ServiceKind).Ensure?
  {
  }

  /** After a successful reconcile of an exposed service, whatever the cluster
      held before, route, Service and Deployment exist and agree; if it is
      isolated too, its policy accepts the data plane of the gateway at the very
      port the route leads to. */
  lemma ExposedPathAgrees(lib: Library, p: Parent, c: Cluster)
    requires Reconcilable(lib, p, c) && Exposed(p.spec)
    ensures var route, service := ChildBody(lib, p, c, RouteKind), ChildBody(lib, p, c, ServiceKind);
            var deployment, policy := ChildBody(lib, p, c, DeploymentKind), ChildBody(lib, p, c, PolicyKind);
            && route.Some? && service.Some? && deployment.Some?
            && Agreement(p, route.value, service.value, deployment.value)
            && (Isolated(p.spec) ==> policy.Some? && Governs(p, policy.value, deployment.value))
  {
    NothingRejected(lib, p, c, RouteKind);
    ExposedIntents(lib, p);
    WantedBody(lib, p, c, RouteKind);
    WantedBody(lib, p, c, ServiceKind);
    WantedBody(lib, p, c, DeploymentKind);
    GeneratedAgreement(lib, p);
    PolicyGoverns(lib, p, c);
  }

  /** A reconcile succeeds only if the controller rejects no kind. */
  lemma NothingRejected(lib: Library, p: Parent, c: Cluster, kind: Kind)
    requires Reconcilable(lib, p, c) && kind in KindsFor(p.spec)
    ensures !IntentFor(lib, p, kind).Reject?
  {
    var plan, kinds := PlanFor(lib, p), KindsFor(p.spec);
    KindsDistinct(p.spec);
    RunSettles(p, plan, kinds, c);
    var i :| 0 <= i < |kinds| && kinds[i] == kind;
    var v := Get(RunChildren(p, plan, kinds, c).0.children, ChildKey(kind, p.key));
    assert Settle(p, kind, plan(kind), v) == (v, Done);
  }

  /** With exposure off, no route of this ModelService remains and its policy
      admits nothing from outside the namespace. */
  lemma UnexposedIsClosed(lib: Library, p: Parent, c: Cluster, source: Endpoint, protocol: string, port: int)
    requires Reconcilable(lib, p, c) && !Exposed(p.spec) && WellLabelled(source)
    ensures Relinquished(lib, p, c, RouteKind)
    ensures Isolated(p.spec) && (source.Outside? || source.namespace != p.key.namespace) ==>
              var policy := ChildBody(lib, p, c, PolicyKind);
              policy.Some? && policy.value.PolicyBody? && "Ingress" in policy.value.policyTypes
              && !Allows(p.key.namespace, policy.value.ingress, source, protocol, port)
  {
    UnwantedGone(lib, p, c, RouteKind);
    if Isolated(p.spec) {
      WantedBody(lib, p, c, PolicyKind);
      IngressMeaning(p.key.namespace, p.spec.port, ExposureFor(p.spec), IsolationFor(p.spec), source, protocol, port);
    }
  }

  /** No selector generated for one ModelService matches the pods of another:
      Service, disruption budget, policy and Deployment selectors alike. */
  lemma SelectorsNeverCross(lib: Library, p: Parent, q: Parent, kind: Kind)
    requires kind in {DeploymentKind, ServiceKind, BudgetKind, PolicyKind} && IntentFor(lib, p, kind).Ensure?
    ensures Selects(IntentFor(lib, p, kind).body.selector, DeploymentFor(lib, q).templateLabels)
            <==> p.key.name == q.key.name
  {
    SelectorsSeparate(p.key.name, q.key.name);
  }
}
