/** The status the operator publishes, derived from the Deployment or from the
    KServe InferenceService. */
module Statuses {
  import opened Strings
  import opened ModelServices
  import opened Conditions

  const READY := "Ready"
  const PROVISIONING := "Provisioning"
  const DEGRADED := "Degraded"
  const FAILED := "Failed"

  function Max(a: int, b: int): int {
    if a < b then b else a
  }

  /** What a backend reports in one reconcile, before it is merged into the
      previous status. */
  datatype Reading = Reading(
    phase: string, readyReplicas: int, endpoint: string,
    available: ConditionStatus, reason: string, message: string)

  function UpdateOf(r: Reading, generation: nat, now: int): Update {
    Update(r.available, r.reason, r.message, generation, now)
  }

  function Publish(previous: Status, generation: nat, r: Reading, now: int): Status {
    Status(r.phase, r.readyReplicas, r.endpoint, generation, Set(previous.conditions, UpdateOf(r, generation, now)))
  }

  // ---------------------------------------------------------------------
  // Deployment backend
  // ---------------------------------------------------------------------

  datatype WorkloadCondition = WorkloadCondition(kind: string, status: ConditionStatus, reason: string)

  datatype Workload = Workload(readyReplicas: int, availableReplicas: int, conditions: seq<WorkloadCondition>)

  const NO_WORKLOAD := Workload(0, 0, [])

  const DEADLINE_EXCEEDED := WorkloadCondition("Progressing", False, "ProgressDeadlineExceeded")

  method DeploymentProgressDeadlineExceeded(w: Workload) returns (exceeded: bool)
    ensures exceeded <==> DEADLINE_EXCEEDED in w.conditions
  {
    for i := 0 to |w.conditions|
      invariant DEADLINE_EXCEEDED !in w.conditions[..i]
    {
      var c := w.conditions[i];
      if c.kind == "Progressing" && c.status == False && c.reason == "ProgressDeadlineExceeded" {
        return true;
      }
      assert w.conditions[..i + 1] == w.conditions[..i] + [c];
    }
    assert w.conditions[..|w.conditions|] == w.conditions;
    return false;
  }

  function Endpoint(lib: Library, m: ModelService): string {
    "http://" + m.key.name + "." + m.key.namespace + ".svc.cluster.local:" + lib.itoa(m.spec.port)
  }

  function DeploymentReading(lib: Library, m: ModelService, w: Workload): Reading {
    var desired, ready := m.spec.replicas, w.readyReplicas;
    var endpoint := Endpoint(lib, m);
    if DEADLINE_EXCEEDED in w.conditions then
      Reading(DEGRADED, ready, endpoint, False, "ProgressDeadlineExceeded",
              "The Deployment did not become ready before its progress deadline")
    else if desired > 0 && ready == desired && w.availableReplicas == desired then
      Reading(READY, ready, endpoint, True, "DeploymentAvailable", "Model service is ready")
    else
      Reading(PROVISIONING, ready, endpoint, False, "DeploymentNotReady",
              "Waiting for ready replicas: " + lib.itoa(ready) + " of " + lib.itoa(desired) + " ready")
  }

  /** Assigns the status fields of the object in place. */
  method DeriveFromDeployment(lib: Library, m: ModelService, w: Workload, now: int) returns (status: Status)
    ensures status == Publish(m.status, m.generation, DeploymentReading(lib, m, w), now)
  {
    var record := new StatusRecord(m.status);
    var desired, ready := m.spec.replicas, w.readyReplicas;
    record.readyReplicas := ready;
    record.endpoint := Endpoint(lib, m);
    record.observedGeneration := m.generation;
    var exceeded := DeploymentProgressDeadlineExceeded(w);
    if exceeded {
      record.phase := DEGRADED;
      record.SetCondition(Update(False, "ProgressDeadlineExceeded",
                                 "The Deployment did not become ready before its progress deadline",
                                 m.generation, now));
    } else if desired > 0 && ready == desired && w.availableReplicas == desired {
      record.phase := READY;
      record.SetCondition(Update(True, "DeploymentAvailable", "Model service is ready", m.generation, now));
    } else {
      record.phase := PROVISIONING;
      record.SetCondition(Update(False, "DeploymentNotReady",
                                 "Waiting for ready replicas: " + lib.itoa(ready) + " of " + lib.itoa(desired)
                                   + " ready",
                                 m.generation, now));
    }
    status := Status(record.phase, record.readyReplicas, record.endpoint, record.observedGeneration, record.conditions);
  }

  // ---------------------------------------------------------------------
  // KServe backend: an unstructured object
  // ---------------------------------------------------------------------

  datatype Json = Null | Text(text: string) | Object(fields: map<string, Json>) | Array(items: seq<Json>) | Scalar

  datatype Lookup<T> = Missing | Malformed | Found(value: T)

  function Field(j: Json, path: seq<string>): Lookup<Json>
    decreases |path|
  {
    if path == [] then Found(j)
    else if j.Null? then Missing
    else if !j.Object? then Malformed
    else if path[0] !in j.fields then Missing
    else Field(j.fields[path[0]], path[1..])
  }

  /** `unstructured.NestedString`; a missing string reads as empty. */
  function TextField(j: Json, path: seq<string>): Lookup<string> {
    var f := Field(j, path);
    if f.Missing? then Found("")
    else if f.Found? && f.value.Text? then Found(f.value.text)
    else Malformed
  }

  function TextOrEmpty(j: Json, name: string): string {
    var f := TextField(j, [name]);
    if f.Found? then f.value else ""
  }

  /** The Ready condition KServe reports; an absent list or entry is `None`. */
  datatype ReadyCondition = ReadyCondition(status: string, reason: string, message: string)

  predicate IsReadyItem(item: Json) {
    item.Object? && TextOrEmpty(item, "type") == READY
  }

  function ReadItem(item: Json): ReadyCondition {
    ReadyCondition(TextOrEmpty(item, "status"), TextOrEmpty(item, "reason"), TextOrEmpty(item, "message"))
  }

  function FirstReady(items: seq<Json>): Option<ReadyCondition> {
    if items == [] then None
    else if IsReadyItem(items[0]) then Some(ReadItem(items[0]))
    else FirstReady(items[1..])
  }

  function ReadyOf(isvc: Json): Lookup<Option<ReadyCondition>> {
    var f := Field(isvc, ["status", "conditions"]);
    if f.Missing? then Found(None)
    else if f.Found? && f.value.Array? then Found(FirstReady(f.value.items))
    else Malformed
  }

  method InferenceServiceReadyCondition(isvc: Json) returns (r: Lookup<Option<ReadyCondition>>)
    ensures r == ReadyOf(isvc)
    ensures r.Found? && r.value.Some? ==>
              exists items: seq<Json>, i :: Field(isvc, ["status", "conditions"]) == Found(Array(items))
                && 0 <= i < |items| && IsReadyItem(items[i]) && r.value.value == ReadItem(items[i])
                && forall j :: 0 <= j < i ==> !IsReadyItem(items[j])
  {
    var f := Field(isvc, ["status", "conditions"]);
    if f.Missing? {
      return Found(None);
    }
    if f.Malformed? || !f.value.Array? {
      return Malformed;
    }
    var items := f.value.items;
    for i := 0 to |items|
      invariant forall j :: 0 <= j < i ==> !IsReadyItem(items[j])
      invariant FirstReady(items) == FirstReady(items[i..])
    {
      if !items[i].Object? || TextOrEmpty(items[i], "type") != READY {
        continue;
      }
      return Found(Some(ReadItem(items[i])));
    }
    return Found(None);
  }

  datatype Failure = Failure(reason: string, message: string)

  /** The active model-load failure, if any. */
  function ModelFailure(isvc: Json): Lookup<Option<Failure>> {
    var target := TextField(isvc, ["status", "modelStatus", "states", "targetModelState"]);
    if target.Malformed? then Malformed
    else
      var transition := TextField(isvc, ["status", "modelStatus", "transitionStatus"]);
      if transition.Malformed? then Malformed
      else if target != Found("FailedToLoad") && transition != Found("BlockedByFailedLoad") then Found(None)
      else
        var reason := TextField(isvc, ["status", "modelStatus", "lastFailureInfo", "reason"]);
        if reason.Malformed? then Malformed
        else
          var message := TextField(isvc, ["status", "modelStatus", "lastFailureInfo", "message"]);
          if !message.Found? || !reason.Found? then Malformed
          else Found(Some(Failure(reason.value, TrimSpace(message.value))))
  }

  predicate FailedReason(lib: Library, reason: string) {
    var normalized := lib.toLower(reason);
    Contains(normalized, "failed") || Contains(normalized, "error") || Contains(normalized, "invalid")
  }

  function Message(reason: string, message: string, fallback: string): string {
    if reason != "" && message != "" then reason + ": " + message
    else if message != "" then message
    else if reason != "" then reason
    else fallback
  }

  /** `Malformed` when a field of the object has an unexpected type; the
      reconcile then fails without a status write. */
  function InferenceReading(lib: Library, m: ModelService, isvc: Json): Lookup<Reading> {
    var url := TextField(isvc, ["status", "url"]);
    var ready, failure := ReadyOf(isvc), ModelFailure(isvc);
    if !url.Found? || !ready.Found? || !failure.Found? then Malformed
    else
      var endpoint := url.value;
      Found(
        if failure.value.Some? then
          Reading(FAILED, 0, endpoint, False, "InferenceServiceFailed",
                  Message(failure.value.value.reason, failure.value.value.message, "KServe model failed to load"))
        else if ready.value.None? then
          Reading(PROVISIONING, 0, endpoint, False, "InferenceServicePending",
                  "Waiting for KServe InferenceService status")
        else
          var c := ready.value.value;
          if c.status == "True" then
            Reading(READY, Max(m.spec.replicas, 1), endpoint, True, "InferenceServiceReady",
                    Message(c.reason, c.message, "KServe InferenceService is ready"))
          else if c.status == "False" && FailedReason(lib, c.reason) then
            Reading(FAILED, 0, endpoint, False, "InferenceServiceFailed",
                    Message(c.reason, c.message, "KServe InferenceService failed"))
          else if c.status == "False" then
            Reading(PROVISIONING, 0, endpoint, False, "InferenceServiceNotReady",
                    Message(c.reason, c.message, "KServe InferenceService is not ready"))
          else
            Reading(PROVISIONING, 0, endpoint, False, "InferenceServiceProgressing",
                    Message(c.reason, c.message, "KServe InferenceService is progressing")))
  }

  method DeriveFromInferenceService(lib: Library, m: ModelService, isvc: Json, now: int)
    returns (status: Option<Status>)
    ensures InferenceReading(lib, m, isvc).Found? ==>
              status == Some(Publish(m.status, m.generation, InferenceReading(lib, m, isvc).value, now))
    ensures !InferenceReading(lib, m, isvc).Found? ==> status == None
  {
    var record := new StatusRecord(m.status);
    var replicas := Max(m.spec.replicas, 1);
    record.observedGeneration := m.generation;
    record.readyReplicas := 0;
    var url := TextField(isvc, ["status", "url"]);
    if !url.Found? {
      return None;
    }
    record.endpoint := url.value;
    var ready := InferenceServiceReadyCondition(isvc);
    if !ready.Found? {
      return None;
    }
    var failure := ModelFailure(isvc);
    if !failure.Found? {
      return None;
    }
    var update: Update;
    if failure.value.Some? {
      record.phase := FAILED;
      update := Update(False, "InferenceServiceFailed",
                       Message(failure.value.value.reason, failure.value.value.message, "KServe model failed to load"),
                       m.generation, now);
    } else if ready.value.None? {
      record.phase := PROVISIONING;
      update := Update(False, "InferenceServicePending", "Waiting for KServe InferenceService status",
                       m.generation, now);
    } else {
      var c := ready.value.value;
      if c.status == "True" {
        record.phase := READY;
        record.readyReplicas := replicas;
        update := Update(True, "InferenceServiceReady",
                         Message(c.reason, c.message, "KServe InferenceService is ready"), m.generation, now);
      } else if c.status == "False" && FailedReason(lib, c.reason) {
        record.phase := FAILED;
        update := Update(False, "InferenceServiceFailed",
                         Message(c.reason, c.message, "KServe InferenceService failed"), m.generation, now);
      } else if c.status == "False" {
        record.phase := PROVISIONING;
        update := Update(False, "InferenceServiceNotReady",
                         Message(c.reason, c.message, "KServe InferenceService is not ready"), m.generation, now);
      } else {
        record.phase := PROVISIONING;
        update := Update(False, "InferenceServiceProgressing",
                         Message(c.reason, c.message, "KServe InferenceService is progressing"), m.generation, now);
      }
    }
    record.SetCondition(update);
    status := Some(Status(record.phase, record.readyReplicas, record.endpoint, record.observedGeneration,
                          record.conditions));
  }

  // ---------------------------------------------------------------------
  // Laws
  // ---------------------------------------------------------------------

  /** The status contract both backends keep. */
  ghost predicate Coherent(replicas: int, s: Status) {
    && (s.phase == READY <==> IsAvailable(s.conditions, True))
    && (s.phase == READY ==> s.readyReplicas == Max(replicas, 1))
    && (s.phase != READY <==> IsAvailable(s.conditions, False))
    && AtMostOneAvailable(s.conditions)
  }

  /** A reading a backend may produce. */
  predicate HonestReading(replicas: int, r: Reading) {
    && (r.available == if r.phase == READY then True else False)
    && (r.phase == READY ==> r.readyReplicas == Max(replicas, 1))
  }

  lemma PublishCoherent(previous: Status, generation: nat, replicas: int, r: Reading, now: int)
    requires AtMostOneAvailable(previous.conditions) && HonestReading(replicas, r)
    ensures Coherent(replicas, Publish(previous, generation, r, now))
  {
    SetEstablishes(previous.conditions, UpdateOf(r, generation, now));
    var s := Publish(previous, generation, r, now);
    assert IsAvailable(s.conditions, True) <==> True == r.available;
    assert IsAvailable(s.conditions, False) <==> False == r.available;
  }

  lemma ReadingsHonest(lib: Library, m: ModelService, w: Workload, isvc: Json)
    ensures HonestReading(m.spec.replicas, DeploymentReading(lib, m, w))
    ensures InferenceReading(lib, m, isvc).Found?
            ==> HonestReading(m.spec.replicas, InferenceReading(lib, m, isvc).value)
  {
    DeploymentHonest(lib, m, w);
    if InferenceReading(lib, m, isvc).Found? {
      InferenceHonest(lib, m, isvc);
    }
  }

  lemma DeploymentHonest(lib: Library, m: ModelService, w: Workload)
    ensures HonestReading(m.spec.replicas, DeploymentReading(lib, m, w))
  {
  }

  lemma InferenceHonest(lib: Library, m: ModelService, isvc: Json)
    requires InferenceReading(lib, m, isvc).Found?
    ensures HonestReading(m.spec.replicas, InferenceReading(lib, m, isvc).value)
  {
  }

  /** Every status either backend publishes is coherent, whatever was published before. */
  lemma StatusAgreement(lib: Library, m: ModelService, w: Workload, isvc: Json, now: int)
    requires AtMostOneAvailable(m.status.conditions)
    ensures Coherent(m.spec.replicas, Publish(m.status, m.generation, DeploymentReading(lib, m, w), now))
    ensures var r := InferenceReading(lib, m, isvc);
            r.Found? ==> Coherent(m.spec.replicas, Publish(m.status, m.generation, r.value, now))
  {
    ReadingsHonest(lib, m, w, isvc);
    PublishCoherent(m.status, m.generation, m.spec.replicas, DeploymentReading(lib, m, w), now);
    if InferenceReading(lib, m, isvc).Found? {
      PublishCoherent(m.status, m.generation, m.spec.replicas, InferenceReading(lib, m, isvc).value, now);
    }
  }

  /** An active model-load failure wins over a Ready=True condition: the phase
      is Failed exactly when the model failed or KServe gives a failure reason. */
  lemma FailureDominates(lib: Library, m: ModelService, isvc: Json)
    requires InferenceReading(lib, m, isvc).Found?
    ensures var phase := InferenceReading(lib, m, isvc).value.phase;
            var failure, ready := ModelFailure(isvc).value, ReadyOf(isvc).value;
            && (phase == FAILED <==>
                  failure.Some? || (ready.Some? && ready.value.status == "False"
                                    && FailedReason(lib, ready.value.reason)))
            && (phase == READY <==> failure.None? && ready.Some? && ready.value.status == "True")
  {
  }

  /** Publishing the same reading again, at any time, yields the same status. */
  lemma PublishFixpoint(previous: Status, generation: nat, r: Reading, t1: int, t2: int)
    requires AtMostOneAvailable(previous.conditions)
    ensures var s := Publish(previous, generation, r, t1);
            Publish(s, generation, r, t2) == s && AtMostOneAvailable(s.conditions)
  {
    var u := UpdateOf(r, generation, t1);
    SetEstablishes(previous.conditions, u);
    assert UpdateOf(r, generation, t2) == u.(time := t2);
  }

  function Timeless(cs: seq<Condition>): seq<Condition> {
    seq(|cs|, i requires 0 <= i < |cs| => cs[i].(lastTransitionTime := 0))
  }

  /** Statuses compared without their transition times. */
  function Untimed(s: Status): Status {
    s.(conditions := Timeless(s.conditions))
  }

  /** When it is published matters only to the transition time. */
  lemma PublishUntimed(previous: Status, generation: nat, r: Reading, t1: int, t2: int)
    ensures Untimed(Publish(previous, generation, r, t1)) == Untimed(Publish(previous, generation, r, t2))
  {
    SetUntimed(previous.conditions, UpdateOf(r, generation, t1), t2);
  }

  lemma {:induction false} SetUntimed(cs: seq<Condition>, u: Update, time: int)
    ensures Timeless(Set(cs, u)) == Timeless(Set(cs, u.(time := time)))
  {
    if cs == [] || cs[0].kind == AVAILABLE {
    } else {
      SetUntimed(cs[1..], u, time);
      var a, b := Set(cs[1..], u), Set(cs[1..], u.(time := time));
      assert Timeless([cs[0]] + a) == [cs[0].(lastTransitionTime := 0)] + Timeless(a);
      assert Timeless([cs[0]] + b) == [cs[0].(lastTransitionTime := 0)] + Timeless(b);
    }
  }
}
