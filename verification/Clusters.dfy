/** The API server: ModelServices and their children behind one revision
    counter, and the write operations the repository's code uses. */
module Clusters {
  import opened Strings
  import opened ModelServices
  import opened Statuses
  import opened Children

  datatype ChildKey = ChildKey(kind: Kind, key: Key)

  /** A controller owner reference. */
  datatype OwnerRef = OwnerRef(kind: string, name: string, uid: nat)

  /** `unmanaged` stands for every field that the mutators leave alone;
      `workload` and `report` are written by the Deployment and KServe controllers. */
  datatype Child = Child(
    uid: nat, version: nat, labels: Labels, owner: Option<OwnerRef>, body: Body,
    unmanaged: map<string, string>, workload: Workload, report: Json)

  datatype Cluster = Cluster(models: map<Key, ModelService>, children: map<ChildKey, Child>, revision: nat)

  // ---------------------------------------------------------------------
  // Children: create-or-update, delete-if-controlled, server-side apply
  // ---------------------------------------------------------------------

  function RefTo(p: Parent): OwnerRef {
    OwnerRef("ModelService", p.key.name, p.uid)
  }

  /** `SetControllerReference` replaces a reference to an object of the same
      kind and name, whatever its uid, and fails on any other controller. */
  predicate OwnedByOther(c: Child, p: Parent) {
    c.owner.Some? && (c.owner.value.kind != "ModelService" || c.owner.value.name != p.key.name)
  }

  /** `IsControlledBy` compares uids. */
  predicate ControlledBy(c: Child, uid: nat) {
    c.owner.Some? && c.owner.value.uid == uid
  }

  function NewChild(p: Parent, body: Body): Child {
    Child(0, 0, LabelsFor(p.key.name), Some(RefTo(p)), body, map[], NO_WORKLOAD, Null)
  }

  datatype Outcome = Done | Failed(error: Error)

  /** The value of one child after the step of its kind, without the identity
      the server assigns; an absent child is `None`. */
  function Settle(p: Parent, kind: Kind, intent: Intent, before: Option<Child>): (r: (Option<Child>, Outcome))
    ensures r.1.Failed? ==> r.0 == before
  {
    match intent
    case Reject(error) => (before, Failed(error))
    case Remove =>
      if before.Some? && ControlledBy(before.value, p.uid) then (None, Done) else (before, Done)
    case Ensure(body) =>
      if before.None? then (Some(NewChild(p, body)), Done)
      else
        var c := before.value;
        if kind.InferenceServiceKind? then
          if c.owner.Some? && c.owner.value.uid != p.uid then (before, Failed(Refused))
          else (Some(c.(labels := c.labels + LabelsFor(p.key.name), owner := Some(RefTo(p)), body := body)), Done)
        else if OwnedByOther(c, p) then (before, Failed(AlreadyOwned))
        else (Some(c.(labels := LabelsFor(p.key.name), owner := Some(RefTo(p)), body := body)), Done)
  }

  function Get<K, V>(m: map<K, V>, k: K): Option<V> {
    if k in m then Some(m[k]) else None
  }

  /** Stores a settled value: nothing is written when nothing changed, a new
      object gets a uid and every write a fresh version. */
  function Store(c: Cluster, k: ChildKey, value: Option<Child>): Cluster {
    if value == Get(c.children, k) then c
    else
      var next := c.revision + 1;
      if value.None? then c.(children := c.children - {k}, revision := next)
      else if k in c.children then c.(children := c.children[k := value.value.(version := next)], revision := next)
      else c.(children := c.children[k := value.value.(uid := next, version := next)], revision := next)
  }

  /** One step of a reconcile: one CreateOrUpdate, one Get-then-Delete, or one apply. */
  function Step(p: Parent, kind: Kind, intent: Intent, c: Cluster): (r: (Cluster, Outcome)) {
    var k := ChildKey(kind, p.key);
    var settled := Settle(p, kind, intent, Get(c.children, k));
    (Store(c, k, settled.0), settled.1)
  }

  // ---------------------------------------------------------------------
  // ModelServices
  // ---------------------------------------------------------------------

  datatype WriteResult = Written(model: ModelService) | AlreadyExists | NotFound | Conflict | Invalid

  /** Creation; `schemaOk` is the verdict of the schema's checks of single
      fields, apart from the backend's. */
  function CreateModel(c: Cluster, key: Key, labels: Labels, annotations: Labels, spec: Spec, schemaOk: bool)
    : (Cluster, WriteResult)
  {
    if key in c.models then (c, AlreadyExists)
    else if !schemaOk || !Admissible(spec) then (c, Invalid)
    else
      var next := c.revision + 1;
      var m := ModelService(key, next, next, 1, labels, annotations, spec, NO_STATUS);
      (c.(models := c.models[key := m], revision := next), Written(m))
  }

  predicate SameVersion(current: ModelService, submitted: ModelService) {
    submitted.version == current.version && (submitted.uid == 0 || submitted.uid == current.uid)
  }

  /** Update of the main resource: the submitted version must be the current
      one, status is ignored, the generation counts spec changes, and a write
      that changes nothing is not stored. */
  function UpdateModel(c: Cluster, submitted: ModelService, spec: Spec, schemaOk: bool): (Cluster, WriteResult) {
    if submitted.key !in c.models then (c, NotFound)
    else
      var current := c.models[submitted.key];
      if submitted.version == 0 then (c, Invalid)
      else if !SameVersion(current, submitted) then (c, Conflict)
      else if !schemaOk || !Admissible(spec) || !BackendRule(current.spec, spec) then (c, Invalid)
      else
        var edited := current.(labels := submitted.labels, annotations := submitted.annotations, spec := spec,
                               generation := current.generation + if spec == current.spec then 0 else 1);
        WriteModel(c, submitted.key, edited)
  }

  /** Update of the status subresource: only the status is taken. */
  function UpdateStatus(c: Cluster, submitted: ModelService): (Cluster, WriteResult) {
    if submitted.key !in c.models then (c, NotFound)
    else if !SameVersion(c.models[submitted.key], submitted) then (c, Conflict)
    else WriteModel(c, submitted.key, c.models[submitted.key].(status := submitted.status))
  }

  function WriteModel(c: Cluster, key: Key, edited: ModelService): (Cluster, WriteResult)
    requires key in c.models
  {
    if edited == c.models[key] then (c, Written(edited))
    else
      var m := edited.(version := c.revision + 1);
      (c.(models := c.models[key := m], revision := c.revision + 1), Written(m))
  }

  datatype Preconditions = Preconditions(uid: Option<nat>, version: Option<nat>)

  function DeleteModel(c: Cluster, key: Key, pre: Preconditions): (Cluster, WriteResult) {
    if key !in c.models then (c, NotFound)
    else
      var current := c.models[key];
      if (pre.uid.Some? && pre.uid.value != current.uid) || (pre.version.Some? && pre.version.value != current.version)
      then (c, Conflict)
      else (c.(models := c.models - {key}, revision := c.revision + 1), Written(current))
  }

  // ---------------------------------------------------------------------
  // The server as an object
  // ---------------------------------------------------------------------

  /** The server that the store and the reconciler hold a client for. */
  class ApiServer {
    var models: map<Key, ModelService>
    var children: map<ChildKey, Child>
    var revision: nat

    ghost function State(): Cluster
      reads this
    {
      Cluster(models, children, revision)
    }

    constructor ()
      ensures State() == Cluster(map[], map[], 0)
    {
      models, children, revision := map[], map[], 0;
    }

    /** `controllerutil.CreateOrUpdate` with a mutator that sets labels, body
        and controller reference. */
    method CreateOrUpdate(p: Parent, kind: Kind, body: Body) returns (outcome: Outcome)
      requires !kind.InferenceServiceKind?
      modifies this
      ensures (State(), outcome) == Step(p, kind, Ensure(body), old(State()))
    {
      var k := ChildKey(kind, p.key);
      if k !in children {
        var c := NewChild(p, body);
        revision := revision + 1;
        children := children[k := c.(uid := revision, version := revision)];
        return Done;
      }
      var existing := children[k];
      var c := existing;
      c := c.(labels := LabelsFor(p.key.name));
      c := c.(body := body);
      if OwnedByOther(existing, p) {
        return Failed(AlreadyOwned);
      }
      c := c.(owner := Some(RefTo(p)));
      if c != existing {
        revision := revision + 1;
        children := children[k := c.(version := revision)];
      }
      return Done;
    }

    /** Get, then delete when controlled: one step. */
    method DeleteIfControlled(p: Parent, kind: Kind)
      modifies this
      ensures (State(), Done) == Step(p, kind, Remove, old(State()))
    {
      var k := ChildKey(kind, p.key);
      if k !in children {
        return;
      }
      if !ControlledBy(children[k], p.uid) {
        return;
      }
      children := children - {k};
      revision := revision + 1;
    }

    /** Forced server-side apply of a freshly built InferenceService. */
    method ApplyInferenceService(p: Parent, body: Body) returns (outcome: Outcome)
      modifies this
      ensures (State(), outcome) == Step(p, InferenceServiceKind, Ensure(body), old(State()))
    {
      var k := ChildKey(InferenceServiceKind, p.key);
      if k !in children {
        revision := revision + 1;
        children := children[k := NewChild(p, body).(uid := revision, version := revision)];
        return Done;
      }
      var existing := children[k];
      if existing.owner.Some? && existing.owner.value.uid != p.uid {
        return Failed(Refused);
      }
      var c := existing.(labels := existing.labels + LabelsFor(p.key.name), owner := Some(RefTo(p)), body := body);
      if c != existing {
        revision := revision + 1;
        children := children[k := c.(version := revision)];
      }
      return Done;
    }

    method UpdateModelStatus(submitted: ModelService) returns (r: WriteResult)
      modifies this
      ensures (State(), r) == UpdateStatus(old(State()), submitted)
    {
      if submitted.key !in models {
        return NotFound;
      }
      var current := models[submitted.key];
      if !SameVersion(current, submitted) {
        return Conflict;
      }
      var edited := current.(status := submitted.status);
      r := Written(edited);
      if edited != current {
        revision := revision + 1;
        models := models[submitted.key := edited.(version := revision)];
        r := Written(edited.(version := revision));
      }
    }
  }
}
