/** The resources a ModelService owns and what the operator wants in them. */
module Children {
  import opened Strings
  import opened ModelServices
  import opened NetworkPolicies

  datatype Kind =
    | ServiceAccountKind | DeploymentKind | ServiceKind | ClaimKind | BudgetKind | PolicyKind | RouteKind
    | InferenceServiceKind

  // ---------------------------------------------------------------------
  // Contents the operator manages, kind by kind
  // ---------------------------------------------------------------------

  datatype ContainerPort = ContainerPort(name: string, port: int, protocol: string)
  datatype Mount = Mount(volume: string, path: string)
  datatype Volume = Volume(name: string, claim: Option<string>)
  datatype Probe = Probe(path: string, portName: string, initialDelay: int, period: int, timeout: int,
                         failureThreshold: int)
  datatype ContainerSecurity = ContainerSecurity(allowPrivilegeEscalation: bool, readOnlyRootFilesystem: bool,
                                                 drop: seq<string>)

  datatype Container = Container(
    name: string, image: string, pullPolicy: string, resources: Resources, mounts: seq<Mount>,
    security: ContainerSecurity, preStop: Option<seq<string>>, ports: seq<ContainerPort>,
    startup: Probe, readiness: Probe, liveness: Probe)

  datatype PodSecurity = PodSecurity(
    runAsNonRoot: bool, runAsUser: Option<int>, runAsGroup: Option<int>, fsGroup: int, seccompProfile: string)

  datatype PodSpec = PodSpec(
    terminationGracePeriodSeconds: int, serviceAccountName: string, automountServiceAccountToken: bool,
    security: PodSecurity, containers: seq<Container>, volumes: seq<Volume>)

  datatype ServicePort = ServicePort(name: string, port: int, targetPort: string, protocol: string)
  datatype ParentRef = ParentRef(name: string, namespace: string, sectionName: string)
  datatype BackendRef = BackendRef(kind: string, name: string, port: int, weight: int)
  datatype RouteRule = RouteRule(pathPrefix: string, backends: seq<BackendRef>)

  datatype InferencePredictor = InferencePredictor(
    serviceAccountName: string, automountServiceAccountToken: bool, minReplicas: int, maxReplicas: int,
    modelFormat: ModelFormat, runtime: string, storageUri: string, resources: Option<Resources>)

  datatype Body =
    | ServiceAccountBody(automountServiceAccountToken: bool)
    | DeploymentBody(replicas: int, maxUnavailable: IntOrString, maxSurge: IntOrString, minReadySeconds: int,
                     progressDeadlineSeconds: int, selector: Labels, templateLabels: Labels, pod: PodSpec)
    | ServiceBody(selector: Labels, ports: seq<ServicePort>, serviceType: string)
    | ClaimBody(accessModes: seq<string>, storageRequest: int)
    | BudgetBody(selector: Labels, minAvailable: Option<IntOrString>, budget: IntOrString)
    | PolicyBody(selector: Labels, policyTypes: seq<string>, ingress: seq<Rule>, egress: seq<Rule>)
    | RouteBody(parents: seq<ParentRef>, hostnames: seq<string>, rules: seq<RouteRule>)
    | InferenceServiceBody(predictor: InferencePredictor)

  // ---------------------------------------------------------------------
  // Resolved settings
  // ---------------------------------------------------------------------

  /** The part of a ModelService that a reconcile of its children depends on. */
  datatype Parent = Parent(key: Key, uid: nat, spec: Spec)

  function ParentOf(m: ModelService): Parent {
    Parent(m.key, m.uid, m.spec)
  }

  function Positive(n: int, fallback: int): int {
    if n > 0 then n else fallback
  }

  function HealthFor(spec: Spec): Health {
    if spec.health.None? then Health("/", 30, 10, "/", "/")
    else
      var h := spec.health.value;
      Health(OrElse(h.startupPath, "/"), Positive(h.startupFailureThreshold, 30), Positive(h.startupPeriodSeconds, 10),
             OrElse(h.readinessPath, "/"), OrElse(h.livenessPath, "/"))
  }

  function SecurityFor(spec: Spec): Security {
    if spec.security.Some? then spec.security.value else Security(true, 101, 101, 101, true, None)
  }

  function AutomountToken(spec: Spec): bool {
    spec.security.Some? && spec.security.value.automountServiceAccountToken == Some(true)
  }

  function RolloutFor(spec: Spec): Rollout {
    if spec.rollout.None? then Rollout(30, 5, 5, 600, "0", "1")
    else
      var r := spec.rollout.value;
      Rollout(Positive(r.terminationGracePeriodSeconds, 30),
              if r.preStopDelaySeconds >= 0 then r.preStopDelaySeconds else 5,
              if r.minReadySeconds >= 0 then r.minReadySeconds else 5,
              Positive(r.progressDeadlineSeconds, 600), OrElse(r.maxUnavailable, "0"), OrElse(r.maxSurge, "1"))
  }

  function BudgetFor(spec: Spec): Budget {
    if spec.podDisruptionBudget.None? then Budget(true, "1")
    else Budget(spec.podDisruptionBudget.value.enabled, OrElse(spec.podDisruptionBudget.value.maxUnavailable, "1"))
  }

  function IsolationFor(spec: Spec): Isolation {
    if spec.networkPolicy.None? then Isolation(true, true, true) else spec.networkPolicy.value
  }

  function ExposureFor(spec: Spec): Exposure {
    DefaultExposure(if spec.exposure.None? then Exposure(false, "", "", "", "", "", "") else spec.exposure.value)
  }

  predicate StorageEnabled(spec: Spec) {
    spec.storage.Some? && spec.storage.value.enabled
  }

  function LabelsFor(name: string): Labels {
    map["app.kubernetes.io/name" := "modelservice",
        "app.kubernetes.io/instance" := name,
        "app.kubernetes.io/managed-by" := "ai-platform-operator"]
  }

  /** A label selector of one ModelService never matches pods of another. */
  lemma SelectorsSeparate(a: string, b: string)
    ensures Selects(LabelsFor(a), LabelsFor(b)) <==> a == b
  {
    if Selects(LabelsFor(a), LabelsFor(b)) {
      assert "app.kubernetes.io/instance" in LabelsFor(a);
    }
  }

  // ---------------------------------------------------------------------
  // Desired contents
  // ---------------------------------------------------------------------

  function ContainerFor(lib: Library, spec: Spec): Container {
    var health, security, rollout := HealthFor(spec), SecurityFor(spec), RolloutFor(spec);
    Container(
      "model", spec.image, "IfNotPresent", spec.resources,
      [Mount("runtime-tmp", "/tmp")]
      + (if StorageEnabled(spec) then [Mount("model-storage", spec.storage.value.mountPath)] else []),
      ContainerSecurity(false, security.readOnlyRootFilesystem, if security.runAsNonRoot then ["ALL"] else []),
      if rollout.preStopDelaySeconds <= 0 then None
      else Some(["/bin/sh", "-c", "sleep " + lib.itoa(rollout.preStopDelaySeconds)]),
      [ContainerPort("http", spec.port, "TCP")],
      Probe(health.startupPath, "http", 0, health.startupPeriodSeconds, 2, health.startupFailureThreshold),
      Probe(health.readinessPath, "http", 2, 5, 2, 3),
      Probe(health.livenessPath, "http", 10, 10, 2, 3))
  }

  function PodFor(lib: Library, p: Parent): PodSpec {
    var security := SecurityFor(p.spec);
    PodSpec(
      RolloutFor(p.spec).terminationGracePeriodSeconds, p.key.name, AutomountToken(p.spec),
      PodSecurity(security.runAsNonRoot,
                  if security.runAsNonRoot then Some(security.runAsUser) else None,
                  if security.runAsNonRoot then Some(security.runAsGroup) else None,
                  security.fsGroup, "RuntimeDefault"),
      [ContainerFor(lib, p.spec)],
      [Volume("runtime-tmp", None)]
      + (if StorageEnabled(p.spec) then [Volume("model-storage", Some(p.key.name))] else []))
  }

  function DeploymentFor(lib: Library, p: Parent): Body {
    var rollout, labels := RolloutFor(p.spec), LabelsFor(p.key.name);
    DeploymentBody(p.spec.replicas, lib.parseIntOrString(rollout.maxUnavailable),
                   lib.parseIntOrString(rollout.maxSurge),
                   rollout.minReadySeconds, rollout.progressDeadlineSeconds, labels, labels, PodFor(lib, p))
  }

  function RouteFor(p: Parent): Body {
    var e := ExposureFor(p.spec);
    RouteBody([ParentRef(e.gatewayName, e.gatewayNamespace, e.gatewaySectionName)], [e.hostname],
              [RouteRule(e.pathPrefix, [BackendRef("Service", p.key.name, p.spec.port, 1)])])
  }

  function InferenceServiceFor(p: Parent): Body
    requires p.spec.predictor.Some?
  {
    var predictor := p.spec.predictor.value;
    var replicas := if p.spec.replicas < 1 then 1 else p.spec.replicas;
    InferenceServiceBody(InferencePredictor(
      OrElse(predictor.serviceAccountName, "kserve-model-reader"), false, replicas, replicas,
      predictor.modelFormat.(version := OrElse(predictor.modelFormat.version, "1")),
      OrElse(predictor.runtime, "kserve-sklearnserver"), predictor.storageUri,
      if p.spec.resources.requests != map[] || p.spec.resources.limits != map[] then Some(p.spec.resources) else None))
  }

  datatype Error =
    | MissingHostname | BadQuantity | MissingPredictor   // the controller rejects the spec itself
    | AlreadyOwned                                       // another controller owns the child
    | Refused                                            // the API server refuses the write
    | MalformedReport                                    // KServe reports a field of the wrong type

  /** What a reconcile does about one kind of child. */
  datatype Intent = Ensure(body: Body) | Remove | Reject(error: Error)

  function IntentFor(lib: Library, p: Parent, kind: Kind): Intent {
    match kind
    case ServiceAccountKind => Ensure(ServiceAccountBody(AutomountToken(p.spec)))
    case DeploymentKind => Ensure(DeploymentFor(lib, p))
    case ServiceKind =>
      Ensure(ServiceBody(LabelsFor(p.key.name), [ServicePort("http", p.spec.port, "http", "TCP")], "ClusterIP"))
    case ClaimKind =>
      if !StorageEnabled(p.spec) then Remove
      else
        var size := lib.parseQuantity(p.spec.storage.value.size);
        if size.None? then Reject(BadQuantity) else Ensure(ClaimBody(["ReadWriteOnce"], size.value))
    case BudgetKind =>
      var b := BudgetFor(p.spec);
      if !b.enabled then Remove
      else Ensure(BudgetBody(LabelsFor(p.key.name), None, lib.parseIntOrString(b.maxUnavailable)))
    case PolicyKind =>
      var i := IsolationFor(p.spec);
      if !i.enabled then Remove
      else Ensure(PolicyBody(LabelsFor(p.key.name), ["Ingress", "Egress"],
                             IngressRules(p.spec.port, ExposureFor(p.spec), i), EgressRules(i)))
    case RouteKind =>
      if !ExposureFor(p.spec).enabled then Remove
      else if ExposureFor(p.spec).hostname == "" then Reject(MissingHostname)
      else Ensure(RouteFor(p))
    case InferenceServiceKind =>
      if p.spec.predictor.None? then Reject(MissingPredictor) else Ensure(InferenceServiceFor(p))
  }

  /** What a reconcile does about every kind of child. */
  type Plan = Kind -> Intent

  function PlanFor(lib: Library, p: Parent): Plan {
    kind => IntentFor(lib, p, kind)
  }

  predicate UsesKServe(spec: Spec) {
    NormalizedBackend(spec.backend) == KSERVE
  }

  const WORKLOAD_KINDS := [ServiceAccountKind, DeploymentKind, ServiceKind]
  const FEATURE_KINDS := [ClaimKind, BudgetKind, PolicyKind, RouteKind]

  /** The kinds a reconcile handles, in order; the two backends share none. */
  function KindsFor(spec: Spec): seq<Kind> {
    if UsesKServe(spec) then [InferenceServiceKind] else WORKLOAD_KINDS + FEATURE_KINDS
  }
}
