/** The ModelService resource: its spec, its status, the defaults and the
    cross-field rules that the API server applies to it, and the bodies of the
    REST requests and responses about it. */
module ModelServices {
  import opened Strings

  const DEPLOYMENT := "Deployment"
  const KSERVE := "KServe"

  type Labels = map<string, string>

  datatype Storage = Storage(enabled: bool, size: string, mountPath: string)

  datatype Security = Security(
    runAsNonRoot: bool, runAsUser: int, runAsGroup: int, fsGroup: int,
    readOnlyRootFilesystem: bool, automountServiceAccountToken: Option<bool>)

  datatype Health = Health(
    startupPath: string, startupFailureThreshold: int, startupPeriodSeconds: int,
    readinessPath: string, livenessPath: string)

  datatype Rollout = Rollout(
    terminationGracePeriodSeconds: int, preStopDelaySeconds: int, minReadySeconds: int,
    progressDeadlineSeconds: int, maxUnavailable: string, maxSurge: string)

  datatype Budget = Budget(enabled: bool, maxUnavailable: string)

  datatype Isolation = Isolation(enabled: bool, allowSameNamespaceIngress: bool, allowDNSEgress: bool)

  datatype Exposure = Exposure(
    enabled: bool, hostname: string, pathPrefix: string,
    gatewayName: string, gatewayNamespace: string, gatewaySectionName: string,
    gatewayDataPlaneNamespace: string)

  datatype ModelFormat = ModelFormat(name: string, version: string)

  datatype Predictor = Predictor(
    modelFormat: ModelFormat, runtime: string, storageUri: string, serviceAccountName: string)

  /** Amounts by resource name: quantities as parsed values, not as text. */
  datatype Resources = Resources(requests: map<string, int>, limits: map<string, int>)

  /** `backend` is a string because requests carry arbitrary text in it. The
      32-bit integers are mathematical integers: the code does no arithmetic on them. */
  datatype Spec = Spec(
    backend: string, image: string, replicas: int, port: int, resources: Resources,
    security: Option<Security>, health: Option<Health>, rollout: Option<Rollout>,
    podDisruptionBudget: Option<Budget>, networkPolicy: Option<Isolation>,
    exposure: Option<Exposure>, storage: Option<Storage>, predictor: Option<Predictor>)

  datatype ConditionStatus = True | False | Unknown

  datatype Condition = Condition(
    kind: string, status: ConditionStatus, observedGeneration: nat,
    reason: string, message: string, lastTransitionTime: int)

  datatype Status = Status(
    phase: string, readyReplicas: int, endpoint: string, observedGeneration: nat,
    conditions: seq<Condition>)

  const NO_STATUS := Status("", 0, "", 0, [])

  datatype Key = Key(namespace: string, name: string)

  /** `uid` and `version` are 0 exactly where the Go fields are empty strings. */
  datatype ModelService = ModelService(
    key: Key, uid: nat, version: nat, generation: nat,
    labels: Labels, annotations: Labels, spec: Spec, status: Status)

  /** An absent backend means the Deployment backend. */
  function NormalizedBackend(backend: string): (r: string)
    ensures r != ""
    ensures backend != "" ==> r == backend
  {
    OrElse(backend, DEPLOYMENT)
  }

  // ---------------------------------------------------------------------
  // Request and response bodies
  // ---------------------------------------------------------------------

  datatype ExposureRequest = ExposureRequest(enabled: bool, hostname: string, pathPrefix: string)
  datatype StorageRequest = StorageRequest(enabled: bool, size: string, mountPath: string)

  datatype UpdateRequest = UpdateRequest(
    backend: string, image: string, replicas: int, port: int,
    predictor: Option<Predictor>, exposure: ExposureRequest, storage: StorageRequest)

  datatype CreateRequest = CreateRequest(name: string, body: UpdateRequest)

  datatype ExposurePatch = ExposurePatch(
    enabled: Option<bool>, hostname: Option<string>, pathPrefix: Option<string>)
  datatype StoragePatch = StoragePatch(
    enabled: Option<bool>, size: Option<string>, mountPath: Option<string>)

  datatype PatchRequest = PatchRequest(
    backend: Option<string>, image: Option<string>, replicas: Option<int>, port: Option<int>,
    predictor: Option<Predictor>, exposure: Option<ExposurePatch>, storage: Option<StoragePatch>)

  /** Gateway coordinates the API server is configured with. */
  datatype GatewayDefaults = GatewayDefaults(
    name: string, namespace: string, sectionName: string, dataPlaneNamespace: string)

  /** The part of a response body that describes the spec; `state` and
      `generation` are kept apart because most laws exclude them. */
  datatype View = View(
    name: string, backend: string, image: string, replicas: int, port: int,
    predictor: Option<Predictor>, exposure: ExposureRequest, storage: StorageRequest)

  datatype Response = Response(view: View, state: string, generation: nat)

  // ---------------------------------------------------------------------
  // What the API server does to a spec
  // ---------------------------------------------------------------------

  function NonZero(n: int, fallback: int): (r: int)
    ensures r == 0 ==> n == 0 && fallback == 0
  {
    if n == 0 then fallback else n
  }

  function DefaultSecurity(s: Security): Security {
    Security(true, NonZero(s.runAsUser, 101), NonZero(s.runAsGroup, 101), NonZero(s.fsGroup, 101), true,
             if s.automountServiceAccountToken.None? then Some(false) else s.automountServiceAccountToken)
  }

  function DefaultHealth(h: Health): Health {
    Health(OrElse(h.startupPath, "/"), NonZero(h.startupFailureThreshold, 30), NonZero(h.startupPeriodSeconds, 10),
           OrElse(h.readinessPath, "/"), OrElse(h.livenessPath, "/"))
  }

  function DefaultRollout(r: Rollout): Rollout {
    Rollout(NonZero(r.terminationGracePeriodSeconds, 30), NonZero(r.preStopDelaySeconds, 5),
            NonZero(r.minReadySeconds, 5), NonZero(r.progressDeadlineSeconds, 600),
            OrElse(r.maxUnavailable, "0"), OrElse(r.maxSurge, "1"))
  }

  function DefaultBudget(b: Budget): Budget {
    Budget(true, OrElse(b.maxUnavailable, "1"))
  }

  /** `enabled` is always serialized; the two allow-flags are not when false. */
  function DefaultIsolation(p: Isolation): Isolation {
    Isolation(p.enabled, true, true)
  }

  function DefaultExposure(e: Exposure): Exposure {
    e.(pathPrefix := OrElse(e.pathPrefix, "/"),
       gatewayName := OrElse(e.gatewayName, "shared-gateway"),
       gatewayNamespace := OrElse(e.gatewayNamespace, "gateway-system"),
       gatewaySectionName := OrElse(e.gatewaySectionName, "http"),
       gatewayDataPlaneNamespace := OrElse(e.gatewayDataPlaneNamespace, "envoy-gateway-system"))
  }

  function DefaultStorage(s: Storage): Storage {
    s.(size := OrElse(s.size, "1Gi"), mountPath := OrElse(s.mountPath, "/models"))
  }

  function DefaultPredictor(p: Predictor): Predictor {
    p.(modelFormat := p.modelFormat.(version := OrElse(p.modelFormat.version, "1")),
       runtime := OrElse(p.runtime, "kserve-sklearnserver"),
       serviceAccountName := OrElse(p.serviceAccountName, "kserve-model-reader"))
  }

  function MapOption<T, U>(o: Option<T>, f: T -> U): Option<U> {
    if o.None? then None else Some(f(o.value))
  }

  /** What the server stores when a Go client writes `spec`. Fields tagged
      `omitempty` are dropped from the JSON body when they hold their zero
      value, and the schema default then replaces them. */
  function Stored(spec: Spec): Spec {
    Spec(OrElse(spec.backend, DEPLOYMENT), spec.image, NonZero(spec.replicas, 1), NonZero(spec.port, 8080),
         spec.resources,
         MapOption(spec.security, s => DefaultSecurity(s)),
         MapOption(spec.health, h => DefaultHealth(h)),
         MapOption(spec.rollout, r => DefaultRollout(r)),
         MapOption(spec.podDisruptionBudget, b => DefaultBudget(b)),
         MapOption(spec.networkPolicy, p => DefaultIsolation(p)),
         MapOption(spec.exposure, e => DefaultExposure(e)),
         MapOption(spec.storage, s => DefaultStorage(s)),
         MapOption(spec.predictor, p => DefaultPredictor(p)))
  }

  /** The first two cross-field rules of the schema. */
  predicate CrossFieldRules(spec: Spec) {
    && (if spec.backend == KSERVE then spec.predictor.Some? else spec.image != "")
    && (spec.backend == KSERVE || spec.predictor.None?)
  }

  /** The values the schema allows for a backend. */
  predicate BackendEnum(spec: Spec) {
    spec.backend in {DEPLOYMENT, KSERVE}
  }

  /** What the schema asks of a spec on its own, apart from single fields. */
  predicate Admissible(spec: Spec) {
    BackendEnum(spec) && CrossFieldRules(spec)
  }

  /** The third cross-field rule: a backend that is present is immutable. */
  predicate BackendRule(before: Spec, after: Spec) {
    before.backend == "" || after.backend == before.backend
  }

  /** No field that the operator's Go types drop when zero and the schema
      defaults to something else holds its zero value. */
  predicate NoExplicitZero(spec: Spec) {
    && spec.backend != "" && spec.replicas != 0 && spec.port != 0
    && (spec.security.Some? ==>
          var s := spec.security.value;
          s.runAsNonRoot && s.readOnlyRootFilesystem && s.automountServiceAccountToken.Some?
          && s.runAsUser != 0 && s.runAsGroup != 0 && s.fsGroup != 0)
    && (spec.health.Some? ==>
          var h := spec.health.value;
          h.startupPath != "" && h.readinessPath != "" && h.livenessPath != ""
          && h.startupFailureThreshold != 0 && h.startupPeriodSeconds != 0)
    && (spec.rollout.Some? ==>
          var r := spec.rollout.value;
          r.terminationGracePeriodSeconds != 0 && r.preStopDelaySeconds != 0 && r.minReadySeconds != 0
          && r.progressDeadlineSeconds != 0 && r.maxUnavailable != "" && r.maxSurge != "")
    && (spec.podDisruptionBudget.Some? ==>
          spec.podDisruptionBudget.value.enabled && spec.podDisruptionBudget.value.maxUnavailable != "")
    && (spec.networkPolicy.Some? ==>
          spec.networkPolicy.value.allowSameNamespaceIngress && spec.networkPolicy.value.allowDNSEgress)
    && (spec.exposure.Some? ==>
          var e := spec.exposure.value;
          e.pathPrefix != "" && e.gatewayName != "" && e.gatewayNamespace != ""
          && e.gatewaySectionName != "" && e.gatewayDataPlaneNamespace != "")
    && (spec.storage.Some? ==> spec.storage.value.size != "" && spec.storage.value.mountPath != "")
    && (spec.predictor.Some? ==>
          var p := spec.predictor.value;
          p.modelFormat.version != "" && p.runtime != "" && p.serviceAccountName != "")
  }

  /** A Go client can write a spec back unchanged exactly when no defaulted
      field holds its zero value; in particular storing is idempotent. */
  lemma StoredFixpoint(spec: Spec)
    ensures Stored(spec) == spec <==> NoExplicitZero(spec)
    ensures NoExplicitZero(Stored(spec))
    ensures Stored(Stored(spec)) == Stored(spec)
  {
    StoredUnchanged(Stored(spec));
    if NoExplicitZero(spec) {
      StoredUnchanged(spec);
    }
  }

  /** The schema's defaults: what is stored where a client leaves everything out
      of the sections it gives. */
  lemma SchemaDefaults(image: string, resources: Resources, storageUri: string, format: string)
    ensures Stored(Spec("", image, 0, 0, resources,
                        Some(Security(false, 0, 0, 0, false, None)), Some(Health("", 0, 0, "", "")),
                        Some(Rollout(0, 0, 0, 0, "", "")), Some(Budget(false, "")),
                        Some(Isolation(false, false, false)),
                        Some(Exposure(false, "", "", "", "", "", "")), Some(Storage(false, "", "")),
                        Some(Predictor(ModelFormat(format, ""), "", storageUri, ""))))
            == Spec("Deployment", image, 1, 8080, resources,
                    Some(Security(true, 101, 101, 101, true, Some(false))), Some(Health("/", 30, 10, "/", "/")),
                    Some(Rollout(30, 5, 5, 600, "0", "1")), Some(Budget(true, "1")), Some(Isolation(false, true, true)),
                    Some(Exposure(false, "", "/", "shared-gateway", "gateway-system", "http", "envoy-gateway-system")),
                    Some(Storage(false, "1Gi", "/models")),
                    Some(Predictor(ModelFormat(format, "1"), "kserve-sklearnserver", storageUri,
                                   "kserve-model-reader")))
  {
  }

  lemma StoredUnchanged(spec: Spec)
    requires NoExplicitZero(spec)
    ensures Stored(spec) == spec
  {
    StoredPodUnchanged(spec);
    assert Stored(spec).podDisruptionBudget == spec.podDisruptionBudget;
    assert Stored(spec).networkPolicy == spec.networkPolicy;
    assert Stored(spec).exposure == spec.exposure;
    assert Stored(spec).storage == spec.storage;
    assert Stored(spec).predictor == spec.predictor;
  }

  lemma StoredPodUnchanged(spec: Spec)
    requires NoExplicitZero(spec)
    ensures Stored(spec).security == spec.security && Stored(spec).health == spec.health
    ensures Stored(spec).rollout == spec.rollout
  {
  }
}
