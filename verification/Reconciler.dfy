/** The reconcile loop: settle every child in order, stop at the first failure,
    then publish the status. */
module Reconciler {
  import opened Strings
  import opened ModelServices
  import opened NetworkPolicies
  import opened Statuses
  import opened Children
  import opened Clusters

  // ---------------------------------------------------------------------
  // One reconcile as a function of the cluster
  // ---------------------------------------------------------------------

  function RunChildren(p: Parent, plan: Plan, kinds: seq<Kind>, c: Cluster): (Cluster, Outcome) {
    if kinds == [] then (c, Done)
    else
      var step := Step(p, kinds[0], plan(kinds[0]), c);
      if step.1.Failed? then step else RunChildren(p, plan, kinds[1..], step.0)
  }

  /** What the backend of `m` reports through its child. */
  function ReadingFor(lib: Library, m: ModelService, children: map<ChildKey, Child>): Lookup<Reading> {
    if UsesKServe(m.spec) then
      var k := ChildKey(InferenceServiceKind, m.key);
      if k in children then InferenceReading(lib, m, children[k].report) else Malformed
    else
      var k := ChildKey(DeploymentKind, m.key);
      Found(DeploymentReading(lib, m, if k in children then children[k].workload else NO_WORKLOAD))
  }

  /** Derives and writes the status of `m`; an unchanged status is not written. */
  function PublishStatus(lib: Library, m: ModelService, now: int, c: Cluster): (Cluster, Outcome) {
    var reading := ReadingFor(lib, m, c.children);
    if !reading.Found? then (c, Failed(MalformedReport))
    else StatusWritten(m, Publish(m.status, m.generation, reading.value, now), c)
  }

  /** Writes a derived status unless it is what the object already had. */
  function StatusWritten(m: ModelService, status: Status, c: Cluster): (Cluster, Outcome) {
    if status == m.status then (c, Done)
    else
      var (c', result) := UpdateStatus(c, m.(status := status));
      (c', if result.Written? then Done else Failed(Refused))
  }

  /** A reconcile that stops after at most `n` steps, the last of which is the
      status; a crash, a timeout or a lost reply stops it anywhere. */
  function Partial(lib: Library, key: Key, now: int, n: nat, c: Cluster): (Cluster, Outcome) {
    if key !in c.models then (c, Done)
    else
      var m := c.models[key];
      var kinds := KindsFor(m.spec);
      if n <= |kinds| then RunChildren(ParentOf(m), PlanFor(lib, ParentOf(m)), kinds[..n], c)
      else
        var (c', outcome) := RunChildren(ParentOf(m), PlanFor(lib, ParentOf(m)), kinds, c);
        if outcome.Failed? then (c', outcome) else PublishStatus(lib, m, now, c')
  }

  /** An uninterrupted reconcile; 8 exceeds the number of children of either backend. */
  function Reconciled(lib: Library, key: Key, now: int, c: Cluster): (Cluster, Outcome) {
    Partial(lib, key, now, 8, c)
  }

  // ---------------------------------------------------------------------
  // The controller
  // ---------------------------------------------------------------------

  class ModelServiceReconciler {
    const client: ApiServer

    constructor (client: ApiServer)
      ensures this.client == client
    {
      this.client := client;
    }

    method Reconcile(lib: Library, key: Key, now: int) returns (outcome: Outcome)
      modifies client
      ensures (client.State(), outcome) == Reconciled(lib, key, now, old(client.State()))
    {
      if key !in client.models {
        return Done;
      }
      var m := client.models[key];
      FullRun(lib, key, now, client.State());
      var backend := if m.spec.backend == "" then DEPLOYMENT else m.spec.backend;
      if backend == KSERVE {
        outcome := ReconcileKServe(lib, m, now);
        return;
      }
      outcome := ReconcileChildren(lib, ParentOf(m));
      if outcome.Failed? {
        return;
      }
      outcome := UpdateModelServiceStatus(lib, m, now);
    }

    /** The seven children of the Deployment backend, in order, with early exit. */
    method ReconcileChildren(lib: Library, p: Parent) returns (outcome: Outcome)
      requires !UsesKServe(p.spec)
      modifies client
      ensures (client.State(), outcome) == RunChildren(p, PlanFor(lib, p), KindsFor(p.spec), old(client.State()))
    {
      RunAppend(p, PlanFor(lib, p), WORKLOAD_KINDS, FEATURE_KINDS, client.State());
      outcome := ReconcileWorkload(lib, p);
      if outcome.Failed? {
        return;
      }
      outcome := ReconcileFeatures(lib, p);
    }

    method ReconcileWorkload(lib: Library, p: Parent) returns (outcome: Outcome)
      modifies client
      ensures (client.State(), outcome) == RunChildren(p, PlanFor(lib, p), WORKLOAD_KINDS, old(client.State()))
    {
      ghost var start := client.State();
      outcome := ReconcileServiceAccount(lib, p);
      Advance(p, PlanFor(lib, p), WORKLOAD_KINDS, start, 0, start, client.State(), outcome);
      if outcome.Failed? { return; }
      ghost var before := client.State();
      outcome := ReconcileDeployment(lib, p);
      Advance(p, PlanFor(lib, p), WORKLOAD_KINDS, start, 1, before, client.State(), outcome);
      if outcome.Failed? { return; }
      before := client.State();
      outcome := ReconcileService(lib, p);
      Advance(p, PlanFor(lib, p), WORKLOAD_KINDS, start, 2, before, client.State(), outcome);
    }

    method ReconcileFeatures(lib: Library, p: Parent) returns (outcome: Outcome)
      modifies client
      ensures (client.State(), outcome) == RunChildren(p, PlanFor(lib, p), FEATURE_KINDS, old(client.State()))
    {
      ghost var start := client.State();
      outcome := ReconcilePersistentVolumeClaim(lib, p);
      Advance(p, PlanFor(lib, p), FEATURE_KINDS, start, 0, start, client.State(), outcome);
      if outcome.Failed? { return; }
      ghost var before := client.State();
      outcome := ReconcilePodDisruptionBudget(lib, p);
      Advance(p, PlanFor(lib, p), FEATURE_KINDS, start, 1, before, client.State(), outcome);
      if outcome.Failed? { return; }
      before := client.State();
      outcome := ReconcileNetworkPolicy(lib, p);
      Advance(p, PlanFor(lib, p), FEATURE_KINDS, start, 2, before, client.State(), outcome);
      if outcome.Failed? { return; }
      before := client.State();
      outcome := ReconcileHTTPRoute(lib, p);
      Advance(p, PlanFor(lib, p), FEATURE_KINDS, start, 3, before, client.State(), outcome);
    }

    method ReconcileServiceAccount(lib: Library, p: Parent) returns (outcome: Outcome)
      modifies client
      ensures (client.State(), outcome)
              == Step(p, ServiceAccountKind, IntentFor(lib, p, ServiceAccountKind), old(client.State()))
    {
      outcome := client.CreateOrUpdate(p, ServiceAccountKind, ServiceAccountBody(AutomountToken(p.spec)));
    }

    method ReconcileDeployment(lib: Library, p: Parent) returns (outcome: Outcome)
      modifies client
      ensures (client.State(), outcome)
              == Step(p, DeploymentKind, IntentFor(lib, p, DeploymentKind), old(client.State()))
    {
      outcome := client.CreateOrUpdate(p, DeploymentKind, DeploymentFor(lib, p));
    }

    method ReconcileService(lib: Library, p: Parent) returns (outcome: Outcome)
      modifies client
      ensures (client.State(), outcome) == Step(p, ServiceKind, IntentFor(lib, p, ServiceKind), old(client.State()))
    {
      var body := ServiceBody(LabelsFor(p.key.name), [ServicePort("http", p.spec.port, "http", "TCP")], "ClusterIP");
      outcome := client.CreateOrUpdate(p, ServiceKind, body);
    }

    method ReconcilePersistentVolumeClaim(lib: Library, p: Parent) returns (outcome: Outcome)
      modifies client
      ensures (client.State(), outcome) == Step(p, ClaimKind, IntentFor(lib, p, ClaimKind), old(client.State()))
    {
      if !StorageEnabled(p.spec) {
        client.DeleteIfControlled(p, ClaimKind);
        return Done;
      }
      var size := lib.parseQuantity(p.spec.storage.value.size);
      if size.None? {
        return Failed(BadQuantity);
      }
      outcome := client.CreateOrUpdate(p, ClaimKind, ClaimBody(["ReadWriteOnce"], size.value));
    }

    method ReconcilePodDisruptionBudget(lib: Library, p: Parent) returns (outcome: Outcome)
      modifies client
      ensures (client.State(), outcome) == Step(p, BudgetKind, IntentFor(lib, p, BudgetKind), old(client.State()))
    {
      var configuration := BudgetFor(p.spec);
      if !configuration.enabled {
        client.DeleteIfControlled(p, BudgetKind);
        return Done;
      }
      var body := BudgetBody(LabelsFor(p.key.name), None, lib.parseIntOrString(configuration.maxUnavailable));
      outcome := client.CreateOrUpdate(p, BudgetKind, body);
    }

    method ReconcileNetworkPolicy(lib: Library, p: Parent) returns (outcome: Outcome)
      modifies client
      ensures (client.State(), outcome) == Step(p, PolicyKind, IntentFor(lib, p, PolicyKind), old(client.State()))
    {
      var configuration := IsolationFor(p.spec);
      if !configuration.enabled {
        client.DeleteIfControlled(p, PolicyKind);
        return Done;
      }
      var body := PolicyBody(LabelsFor(p.key.name), ["Ingress", "Egress"],
                             IngressRules(p.spec.port, ExposureFor(p.spec), configuration), EgressRules(configuration));
      outcome := client.CreateOrUpdate(p, PolicyKind, body);
    }

    method ReconcileHTTPRoute(lib: Library, p: Parent) returns (outcome: Outcome)
      modifies client
      ensures (client.State(), outcome) == Step(p, RouteKind, IntentFor(lib, p, RouteKind), old(client.State()))
    {
      var exposure := ExposureFor(p.spec);
      if !exposure.enabled {
        client.DeleteIfControlled(p, RouteKind);
        return Done;
      }
      if exposure.hostname == "" {
        return Failed(MissingHostname);
      }
      outcome := client.CreateOrUpdate(p, RouteKind, RouteFor(p));
    }

    method UpdateModelServiceStatus(lib: Library, m: ModelService, now: int) returns (outcome: Outcome)
      requires !UsesKServe(m.spec)
      modifies client
      ensures (client.State(), outcome) == PublishStatus(lib, m, now, old(client.State()))
    {
      var k := ChildKey(DeploymentKind, m.key);
      var workload := if k in client.children then client.children[k].workload else NO_WORKLOAD;
      var status := DeriveFromDeployment(lib, m, workload, now);
      outcome := WriteStatus(m, status);
    }

    method UpdateStatusFromInferenceService(lib: Library, m: ModelService, now: int) returns (outcome: Outcome)
      requires UsesKServe(m.spec)
      modifies client
      ensures (client.State(), outcome) == PublishStatus(lib, m, now, old(client.State()))
    {
      var k := ChildKey(InferenceServiceKind, m.key);
      if k !in client.children {
        return Failed(MalformedReport);
      }
      var status := DeriveFromInferenceService(lib, m, client.children[k].report, now);
      if status.None? {
        return Failed(MalformedReport);
      }
      outcome := WriteStatus(m, status.value);
    }

    method WriteStatus(m: ModelService, status: Status) returns (outcome: Outcome)
      modifies client
      ensures (client.State(), outcome) == StatusWritten(m, status, old(client.State()))
    {
      if status == m.status {
        return Done;
      }
      var result := client.UpdateModelStatus(m.(status := status));
      return if result.Written? then Done else Failed(Refused);
    }

    method ReconcileKServe(lib: Library, m: ModelService, now: int) returns (outcome: Outcome)
      requires UsesKServe(m.spec)
      modifies client
      ensures var (c, o) := RunChildren(ParentOf(m), PlanFor(lib, ParentOf(m)), KindsFor(m.spec), old(client.State()));
              (client.State(), outcome) == if o.Failed? then (c, o) else PublishStatus(lib, m, now, c)
    {
      var p := ParentOf(m);
      ghost var start := client.State();
      SingleStep(p, PlanFor(lib, p), start);
      if p.spec.predictor.None? {
        return Failed(MissingPredictor);
      }
      outcome := client.ApplyInferenceService(p, InferenceServiceFor(p));
      if outcome.Failed? {
        return;
      }
      outcome := UpdateStatusFromInferenceService(lib, m, now);
    }
  }

  /** The KServe backend has a single child. */
  lemma SingleStep(p: Parent, plan: Plan, c: Cluster)
    requires UsesKServe(p.spec)
    ensures RunChildren(p, plan, KindsFor(p.spec), c) == Step(p, InferenceServiceKind, plan(InferenceServiceKind), c)
  {
    assert KindsFor(p.spec)[1..] == [];
  }

  lemma FullRun(lib: Library, key: Key, now: int, c: Cluster)
    requires key in c.models
    ensures var m := c.models[key];
            var (c', o) := RunChildren(ParentOf(m), PlanFor(lib, ParentOf(m)), KindsFor(m.spec), c);
            Reconciled(lib, key, now, c) == if o.Failed? then (c', o) else PublishStatus(lib, m, now, c')
  {
  }

  /** After step `i`: a failure is the outcome of the whole run, otherwise the
      run continues with the kinds after `i`. */
  lemma Advance(p: Parent, plan: Plan, kinds: seq<Kind>, start: Cluster, i: nat,
                before: Cluster, after: Cluster, outcome: Outcome)
    requires i < |kinds|
    requires RunChildren(p, plan, kinds, start) == RunChildren(p, plan, kinds[i..], before)
    requires (after, outcome) == Step(p, kinds[i], plan(kinds[i]), before)
    ensures RunChildren(p, plan, kinds, start)
            == if outcome.Failed? || i + 1 == |kinds| then (after, outcome)
               else RunChildren(p, plan, kinds[i + 1..], after)
  {
    assert kinds[i..][1..] == kinds[i + 1..];
  }

  lemma {:induction false} RunAppend(p: Parent, plan: Plan, a: seq<Kind>, b: seq<Kind>, c: Cluster)
    ensures var (c', o) := RunChildren(p, plan, a, c);
            RunChildren(p, plan, a + b, c) == if o.Failed? then (c', o) else RunChildren(p, plan, b, c')
  {
    if a == [] {
      assert a + b == b;
    } else {
      assert (a + b)[1..] == a[1..] + b;
      RunAppend(p, plan, a[1..], b, Step(p, a[0], plan(a[0]), c).0);
    }
  }
}
