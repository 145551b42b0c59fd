/** What a successful reconcile delivers, said from the fields of the spec
    alone: storage, identity, disruption budget, workload, network and status of
    a Deployment service, and the InferenceService of a KServe one. */
module DesiredState {
  import opened Strings
  import opened ModelServices
  import opened Statuses
  import opened StatusMeaning
  import opened Children
  import opened Clusters
  import opened Reconciler
  import opened ReconcilerLaws
  import opened ExposedPath
  import opened Ownership

  function BodyAt(children: map<ChildKey, Child>, kind: Kind, key: Key): Option<Body> {
    var k := ChildKey(kind, key);
    if k in children then Some(children[k].body) else None
  }

  predicate Controls(children: map<ChildKey, Child>, kind: Kind, p: Parent) {
    var k := ChildKey(kind, p.key);
    k in children && ControlledBy(children[k], p.uid)
  }

  // ---------------------------------------------------------------------
  // Storage
  // ---------------------------------------------------------------------

  predicate WantsStorage(spec: Spec) {
    spec.storage.Some? && spec.storage.value.enabled
  }

  /** Some container mounts this claim at this path. */
  predicate MountsClaim(pod: PodSpec, path: string, claim: string) {
    exists i, j, v :: 0 <= i < |pod.containers| && 0 <= j < |pod.containers[i].mounts| && 0 <= v < |pod.volumes|
                      && pod.containers[i].mounts[j] == Mount(pod.volumes[v].name, path)
                      && pod.volumes[v].claim == Some(claim)
  }

  /** With storage on, the claim has the parsed size and the pods mount it, and
      nothing else, where the spec says; with storage off there is neither. */
  ghost predicate StorageDelivered(lib: Library, p: Parent, children: map<ChildKey, Child>, pod: PodSpec) {
    if WantsStorage(p.spec) then
      var storage := p.spec.storage.value;
      && lib.parseQuantity(storage.size).Some?
      && BodyAt(children, ClaimKind, p.key)
         == Some(ClaimBody(["ReadWriteOnce"], lib.parseQuantity(storage.size).value))
      && Controls(children, ClaimKind, p)
      && forall path, claim :: MountsClaim(pod, path, claim) <==> path == storage.mountPath && claim == p.key.name
    else
      !Controls(children, ClaimKind, p) && forall path, claim :: !MountsClaim(pod, path, claim)
  }

  lemma PodMounts(lib: Library, p: Parent, path: string, claim: string)
    ensures MountsClaim(PodFor(lib, p), path, claim)
            <==> WantsStorage(p.spec) && path == p.spec.storage.value.mountPath && claim == p.key.name
  {
    var pod := PodFor(lib, p);
    if WantsStorage(p.spec) {
      assert pod.volumes[0].claim.None? && pod.volumes[1] == Volume("model-storage", Some(p.key.name));
      var mounts := pod.containers[0].mounts;
      assert |"runtime-tmp"| != |"model-storage"|;
      assert mounts[1] == Mount(pod.volumes[1].name, p.spec.storage.value.mountPath);
      assert mounts[0].volume != pod.volumes[1].name;
    } else {
      assert pod.volumes == [Volume("runtime-tmp", None)];
    }
  }

  lemma ReconcileStorage(lib: Library, p: Parent, c: Cluster)
    requires Reconcilable(lib, p, c)
    ensures StorageDelivered(lib, p, After(lib, p, c), PodFor(lib, p))
  {
    forall path, claim
      ensures MountsClaim(PodFor(lib, p), path, claim)
              <==> WantsStorage(p.spec) && path == p.spec.storage.value.mountPath && claim == p.key.name
    {
      PodMounts(lib, p, path, claim);
    }
    NothingRejected(lib, p, c, ClaimKind);
    if WantsStorage(p.spec) {
      Delivered(lib, p, c, ClaimKind);
    } else {
      UnwantedGone(lib, p, c, ClaimKind);
    }
  }

  /** The children after the child steps of a reconcile. */
  function After(lib: Library, p: Parent, c: Cluster): map<ChildKey, Child> {
    RunChildren(p, PlanFor(lib, p), KindsFor(p.spec), c).0.children
  }

  lemma Delivered(lib: Library, p: Parent, c: Cluster, kind: Kind)
    requires RunChildren(p, PlanFor(lib, p), KindsFor(p.spec), c).1.Done?
    requires kind in KindsFor(p.spec) && IntentFor(lib, p, kind).Ensure?
    ensures BodyAt(After(lib, p, c), kind, p.key) == Some(IntentFor(lib, p, kind).body)
    ensures Controls(After(lib, p, c), kind, p)
  {
    KindsDistinct(p.spec);
    RunEstablishes(p, PlanFor(lib, p), KindsFor(p.spec), c, kind);
  }

  // ---------------------------------------------------------------------
  // Identity and disruption budget
  // ---------------------------------------------------------------------

  /** The service account that the pods run under exists, and both hand out a
      token exactly when the spec asks for it. */
  predicate IdentityDelivered(p: Parent, children: map<ChildKey, Child>, pod: PodSpec) {
    && pod.serviceAccountName == p.key.name
    && BodyAt(children, ServiceAccountKind, p.key) == Some(ServiceAccountBody(pod.automountServiceAccountToken))
    && (pod.automountServiceAccountToken
        <==> p.spec.security.Some? && p.spec.security.value.automountServiceAccountToken == Some(true))
  }

  lemma ReconcileIdentity(lib: Library, p: Parent, c: Cluster)
    requires Reconcilable(lib, p, c)
    ensures IdentityDelivered(p, After(lib, p, c), PodFor(lib, p))
  {
    Delivered(lib, p, c, ServiceAccountKind);
  }

  /** A budget over exactly the templated pods exists unless the section
      disables it; it allows one unavailable pod unless told otherwise. */
  predicate BudgetDelivered(lib: Library, p: Parent, children: map<ChildKey, Child>, templateLabels: Labels) {
    var section := p.spec.podDisruptionBudget;
    if section.None? || section.value.enabled then
      var given := if section.None? then "" else section.value.maxUnavailable;
      var body := BodyAt(children, BudgetKind, p.key);
      && body.Some? && body.value.BudgetBody? && body.value.selector == templateLabels && body.value.minAvailable.None?
      && (given == "" ==> body.value.budget == lib.parseIntOrString("1"))
      && (given != "" ==> body.value.budget == lib.parseIntOrString(given))
    else
      !Controls(children, BudgetKind, p)
  }

  lemma ReconcileBudget(lib: Library, p: Parent, c: Cluster)
    requires Reconcilable(lib, p, c)
    ensures BudgetDelivered(lib, p, After(lib, p, c), LabelsFor(p.key.name))
  {
    if p.spec.podDisruptionBudget.None? || p.spec.podDisruptionBudget.value.enabled {
      Delivered(lib, p, c, BudgetKind);
    } else {
      UnwantedGone(lib, p, c, BudgetKind);
    }
  }

  // ---------------------------------------------------------------------
  // Workload
  // ---------------------------------------------------------------------

  predicate UsesPositive(given: int, fallback: int, used: int) {
    if given > 0 then used == given else used == fallback
  }

  /** Pods run as the spec says; without a section, and in what it leaves no
      choice about, they are locked down. */
  predicate Confined(spec: Spec, pod: PodSpec, container: Container) {
    var s := if spec.security.Some? then spec.security.value else Security(true, 101, 101, 101, true, None);
    && pod.security.runAsNonRoot == s.runAsNonRoot && pod.security.fsGroup == s.fsGroup
    && pod.security.seccompProfile == "RuntimeDefault"
    && (s.runAsNonRoot ==> pod.security.runAsUser == Some(s.runAsUser) && pod.security.runAsGroup == Some(s.runAsGroup))
    && (!s.runAsNonRoot ==> pod.security.runAsUser.None? && pod.security.runAsGroup.None?)
    && !container.security.allowPrivilegeEscalation
    && container.security.readOnlyRootFilesystem == s.readOnlyRootFilesystem
    && container.security.drop == if s.runAsNonRoot then ["ALL"] else []
  }

  /** The probes ask the container's own port, on the paths of the spec. */
  predicate Probed(spec: Spec, container: Container) {
    var h := if spec.health.Some? then spec.health.value else Health("", 0, 0, "", "");
    && container.ports == [ContainerPort("http", spec.port, "TCP")]
    && Uses(h.startupPath, "/", container.startup.path) && Uses(h.readinessPath, "/", container.readiness.path)
    && Uses(h.livenessPath, "/", container.liveness.path)
    && container.startup.portName == container.readiness.portName == container.liveness.portName == "http"
    && UsesPositive(h.startupFailureThreshold, 30, container.startup.failureThreshold)
    && UsesPositive(h.startupPeriodSeconds, 10, container.startup.period)
    && container.startup.initialDelay == 0 && container.startup.timeout == 2
    && container.readiness == Probe(container.readiness.path, "http", 2, 5, 2, 3)
    && container.liveness == Probe(container.liveness.path, "http", 10, 10, 2, 3)
  }

  /** Rollout and shutdown follow the section; a delay of zero means no hook. */
  predicate RolledOut(lib: Library, spec: Spec, d: Body, container: Container)
    requires d.DeploymentBody?
  {
    var r := if spec.rollout.Some? then spec.rollout.value else Rollout(30, 5, 5, 600, "0", "1");
    && UsesPositive(r.terminationGracePeriodSeconds, 30, d.pod.terminationGracePeriodSeconds)
    && UsesPositive(r.progressDeadlineSeconds, 600, d.progressDeadlineSeconds)
    && d.minReadySeconds == (if r.minReadySeconds < 0 then 5 else r.minReadySeconds)
    && (container.preStop.None? <==> r.preStopDelaySeconds == 0)
    && (r.preStopDelaySeconds > 0 ==>
          container.preStop == Some(["/bin/sh", "-c", "sleep " + lib.itoa(r.preStopDelaySeconds)]))
    && (r.preStopDelaySeconds < 0 ==> container.preStop == Some(["/bin/sh", "-c", "sleep " + lib.itoa(5)]))
    && d.maxUnavailable == lib.parseIntOrString(if r.maxUnavailable == "" then "0" else r.maxUnavailable)
    && d.maxSurge == lib.parseIntOrString(if r.maxSurge == "" then "1" else r.maxSurge)
  }

  /** The Deployment runs the image of the spec, once per replica, over the pods
      it templates. */
  predicate WorkloadDelivered(lib: Library, p: Parent, d: Body) {
    && d.DeploymentBody? && d.replicas == p.spec.replicas
    && d.selector == d.templateLabels
       == map["app.kubernetes.io/name" := "modelservice", "app.kubernetes.io/instance" := p.key.name,
              "app.kubernetes.io/managed-by" := "ai-platform-operator"]
    && |d.pod.containers| == 1
    && (var container := d.pod.containers[0];
        && container.image == p.spec.image && container.resources == p.spec.resources
        && Mount("runtime-tmp", "/tmp") in container.mounts && Volume("runtime-tmp", None) in d.pod.volumes
        && Confined(p.spec, d.pod, container) && Probed(p.spec, container)
        && RolledOut(lib, p.spec, d, container))
  }

  lemma GeneratedWorkload(lib: Library, p: Parent)
    ensures WorkloadDelivered(lib, p, DeploymentFor(lib, p))
  {
    var d := DeploymentFor(lib, p);
    var container := ContainerFor(lib, p.spec);
    assert d.pod.containers[0] == container;
    assert container.mounts[0] == Mount("runtime-tmp", "/tmp") && d.pod.volumes[0] == Volume("runtime-tmp", None);
    assert Confined(p.spec, d.pod, container);
    assert Probed(p.spec, container);
    assert RolledOut(lib, p.spec, d, container);
  }

  // ---------------------------------------------------------------------
  // Network
  // ---------------------------------------------------------------------

  /** An exposed service has a route that agrees with its Service and pods, an
      isolated one a policy that governs them; neither is kept otherwise. */
  ghost predicate NetworkDelivered(p: Parent, children: map<ChildKey, Child>, deployment: Body) {
    var service, policy := BodyAt(children, ServiceKind, p.key), BodyAt(children, PolicyKind, p.key);
    var route := BodyAt(children, RouteKind, p.key);
    && service.Some?
    && (if Isolated(p.spec) then policy.Some? && Governs(p, policy.value, deployment)
        else !Controls(children, PolicyKind, p))
    && (if Exposed(p.spec) then route.Some? && Agreement(p, route.value, service.value, deployment)
        else !Controls(children, RouteKind, p))
  }

  lemma ReconcileNetwork(lib: Library, p: Parent, c: Cluster)
    requires Reconcilable(lib, p, c)
    ensures NetworkDelivered(p, After(lib, p, c), DeploymentFor(lib, p))
  {
    Delivered(lib, p, c, ServiceKind);
    Delivered(lib, p, c, DeploymentKind);
    PolicyGoverns(lib, p, c);
    ReconcileRoute(lib, p, c);
  }

  lemma ReconcileRoute(lib: Library, p: Parent, c: Cluster)
    requires Reconcilable(lib, p, c)
    ensures var service := BodyAt(After(lib, p, c), ServiceKind, p.key);
            var route := BodyAt(After(lib, p, c), RouteKind, p.key);
            if Exposed(p.spec)
            then route.Some? && service.Some? && Agreement(p, route.value, service.value, DeploymentFor(lib, p))
            else !Controls(After(lib, p, c), RouteKind, p)
  {
    if Exposed(p.spec) {
      Delivered(lib, p, c, DeploymentKind);
      ExposedPathAgrees(lib, p, c);
    } else {
      UnwantedGone(lib, p, c, RouteKind);
    }
  }

  // ---------------------------------------------------------------------
  // Whole reconciles
  // ---------------------------------------------------------------------

  /** A reconcile that succeeds ran all child steps and published the reading of
      the child it then finds. */
  lemma ReconciledParts(lib: Library, key: Key, now: int, c: Cluster)
    requires Starts(key, c) && Reconciled(lib, key, now, c).1.Done?
    ensures var m, c' := c.models[key], Reconciled(lib, key, now, c).0;
            && RunChildren(ParentOf(m), PlanFor(lib, ParentOf(m)), KindsFor(m.spec), c).1.Done?
            && c'.children == After(lib, ParentOf(m), c)
            && ReadingFor(lib, m, c'.children).Found? && key in c'.models
            && c'.models[key].status == Publish(m.status, m.generation, ReadingFor(lib, m, c'.children).value, now)
            && c'.models[key] == m.(version := c'.models[key].version, status := c'.models[key].status)
  {
    var m := c.models[key];
    var p := ParentOf(m);
    FullRun(lib, key, now, c);
    KindsDistinct(m.spec);
    RunValues(p, PlanFor(lib, p), KindsFor(m.spec), |KindsFor(m.spec)|, c);
    assert KindsFor(m.spec)[..|KindsFor(m.spec)|] == KindsFor(m.spec);
    var c1 := RunChildren(p, PlanFor(lib, p), KindsFor(m.spec), c).0;
    var reading := ReadingFor(lib, m, c1.children);
    if reading.Found? {
      WriteEffect(m, Publish(m.status, m.generation, reading.value, now), c1);
    }
  }

  /** A successful reconcile of a Deployment service delivers everything that the
      spec asks for, from any cluster, and publishes what the Deployment reports. */
  lemma DeploymentReconciled(lib: Library, key: Key, now: int, c: Cluster)
    requires Starts(key, c) && c.models[key].spec.backend != "KServe" && Reconciled(lib, key, now, c).1.Done?
    ensures var m, c' := c.models[key], Reconciled(lib, key, now, c).0;
            var p, k := ParentOf(m), ChildKey(DeploymentKind, key);
            && k in c'.children && WorkloadDelivered(lib, p, c'.children[k].body)
            && (var pod := c'.children[k].body.pod;
                StorageDelivered(lib, p, c'.children, pod) && IdentityDelivered(p, c'.children, pod))
            && BudgetDelivered(lib, p, c'.children, c'.children[k].body.templateLabels)
            && NetworkDelivered(p, c'.children, c'.children[k].body)
            && key in c'.models && DeploymentStatus(lib, m, c'.children[k].workload, c'.models[key].status)
  {
    var m := c.models[key];
    var p := ParentOf(m);
    ReconciledParts(lib, key, now, c);
    Delivered(lib, p, c, DeploymentKind);
    GeneratedWorkload(lib, p);
    ReconcileStorage(lib, p, c);
    ReconcileIdentity(lib, p, c);
    ReconcileBudget(lib, p, c);
    ReconcileNetwork(lib, p, c);
    DeploymentStatusMeaning(lib, m, After(lib, p, c)[ChildKey(DeploymentKind, key)].workload, now);
  }

  /** The InferenceService that the spec of a KServe service describes. */
  predicate InferenceDelivered(p: Parent, body: Body) {
    && body.InferenceServiceBody? && p.spec.predictor.Some?
    && (var (asked, got) := (p.spec.predictor.value, body.predictor);
        && got.minReplicas == got.maxReplicas == (if p.spec.replicas < 1 then 1 else p.spec.replicas)
        && got.storageUri == asked.storageUri && got.modelFormat.name == asked.modelFormat.name
        && Uses(asked.modelFormat.version, "1", got.modelFormat.version)
        && Uses(asked.runtime, "kserve-sklearnserver", got.runtime)
        && Uses(asked.serviceAccountName, "kserve-model-reader", got.serviceAccountName)
        && !got.automountServiceAccountToken
        && (got.resources.Some? <==> p.spec.resources != Resources(map[], map[]))
        && (got.resources.Some? ==> got.resources.value == p.spec.resources))
  }

  lemma GeneratedInference(lib: Library, p: Parent)
    requires IntentFor(lib, p, InferenceServiceKind).Ensure?
    ensures InferenceDelivered(p, IntentFor(lib, p, InferenceServiceKind).body)
  {
  }

  lemma ReconcileInference(lib: Library, p: Parent, c: Cluster)
    requires p.spec.backend == "KServe" && RunChildren(p, PlanFor(lib, p), KindsFor(p.spec), c).1.Done?
    ensures var (after, k) := (After(lib, p, c), ChildKey(InferenceServiceKind, p.key));
            && k in after && InferenceDelivered(p, after[k].body)
            && (forall j :: j != k ==> Get(after, j) == Get(c.children, j))
  {
    var intent := IntentFor(lib, p, InferenceServiceKind);
    SingleStep(p, PlanFor(lib, p), c);
    StepValue(p, InferenceServiceKind, intent, c);
    Delivered(lib, p, c, InferenceServiceKind);
    GeneratedInference(lib, p);
  }

  /** A successful reconcile of a KServe service delivers its InferenceService,
      touches no other child, and publishes what KServe reports. */
  lemma KServeReconciled(lib: Library, key: Key, now: int, c: Cluster)
    requires Starts(key, c) && c.models[key].spec.backend == "KServe" && Reconciled(lib, key, now, c).1.Done?
    ensures var m, c' := c.models[key], Reconciled(lib, key, now, c).0;
            var k := ChildKey(InferenceServiceKind, key);
            && k in c'.children && InferenceDelivered(ParentOf(m), c'.children[k].body)
            && (forall j :: j != k ==> Get(c'.children, j) == Get(c.children, j))
            && key in c'.models && KServeStatus(lib, m, c'.children[k].report, c'.models[key].status)
  {
    var m := c.models[key];
    var p := ParentOf(m);
    ReconciledParts(lib, key, now, c);
    ReconcileInference(lib, p, c);
    KServeStatusMeaning(lib, m, After(lib, p, c)[ChildKey(InferenceServiceKind, key)].report, now);
  }

  // ---------------------------------------------------------------------
  // Defaults
  // ---------------------------------------------------------------------

  /** The schema's defaults and the controller's agree: a section that is given
      but left empty resolves, once stored, to what an absent section resolves to. */
  lemma EmptySectionsMeanAbsent(spec: Spec)
    ensures HealthFor(Stored(spec.(health := Some(Health("", 0, 0, "", ""))))) == HealthFor(spec.(health := None))
    ensures RolloutFor(Stored(spec.(rollout := Some(Rollout(0, 0, 0, 0, "", "")))))
            == RolloutFor(spec.(rollout := None))
    ensures BudgetFor(Stored(spec.(podDisruptionBudget := Some(Budget(false, "")))))
            == BudgetFor(spec.(podDisruptionBudget := None))
    ensures IsolationFor(Stored(spec.(networkPolicy := Some(Isolation(true, false, false)))))
            == IsolationFor(spec.(networkPolicy := None))
    ensures ExposureFor(Stored(spec.(exposure := Some(Exposure(false, "", "", "", "", "", "")))))
            == ExposureFor(spec.(exposure := None))
    ensures var stored := Stored(spec.(security := Some(Security(false, 0, 0, 0, false, None))));
            && SecurityFor(stored).(automountServiceAccountToken := None) == SecurityFor(spec.(security := None))
            && AutomountToken(stored) == AutomountToken(spec.(security := None))
  {
  }
}
