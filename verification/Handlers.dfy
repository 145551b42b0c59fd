/** The REST handlers for create, PUT, PATCH and DELETE. Each mutation first
    reads the object and decides, then issues one conditional write. */
module Handlers {
  import opened Strings
  import opened ModelServices
  import opened Validation
  import opened Transforms
  import opened TransformLaws
  import opened Clusters

  datatype Config = Config(namespace: string, maxReplicas: int, gateway: GatewayDefaults)

  datatype Request = Put(body: UpdateRequest) | Patch(patch: PatchRequest) | Delete

  datatype Reply =
    | InvalidName | EmptyPatch | MissingModel | OwnershipConflict | ValidationFailed(details: seq<Detail>)
    | WriteConflict | Duplicate | Unavailable | Shown(response: Response) | Deleted

  /** What a handler does after its read: answer at once, or write. */
  datatype Decision = Answer(reply: Reply) | WriteBack(candidate: ModelService) | RemoveObject(inspected: ModelService)

  const TRACKING_ANNOTATION := "argocd.argoproj.io/tracking-id"
  const TRACKING_LABEL := "argocd.argoproj.io/instance"

  /** The object carries a GitOps marker; an empty marker counts. */
  predicate Tracked(m: ModelService) {
    TRACKING_ANNOTATION in m.annotations || TRACKING_LABEL in m.labels
  }

  // ---------------------------------------------------------------------
  // Decisions
  // ---------------------------------------------------------------------

  function BackendFixed(existing: string): Reply {
    ValidationFailed([Detail("backend", "is immutable and must remain " + existing)])
  }

  function Validated(lib: Library, cfg: Config, name: string, body: UpdateRequest, candidate: ModelService): Decision {
    var details := Findings(lib, name, body, cfg.maxReplicas);
    if details != [] then Answer(ValidationFailed(details)) else WriteBack(candidate)
  }

  function DecidePut(lib: Library, cfg: Config, name: string, r: UpdateRequest, m: ModelService): Decision {
    var existing := NormalizedBackend(m.spec.backend);
    var body := r.(backend := OrElse(r.backend, existing));
    if body.backend != existing then Answer(BackendFixed(existing))
    else Validated(lib, cfg, name, body, m.(spec := Updated(m.spec, body, cfg.gateway)))
  }

  /** Fields that may not be patched on the KServe backend. */
  function KServePatchFindings(p: PatchRequest): seq<Detail> {
    When(p.image.Some?, "image", "may not be patched for KServe")
    + When(p.port.Some?, "port", "may not be patched for KServe")
    + When(p.exposure.Some?, "exposure", "may not be patched for KServe")
    + When(p.storage.Some?, "storage", "may not be patched for KServe")
  }

  function DecidePatch(lib: Library, cfg: Config, name: string, p: PatchRequest, m: ModelService): Decision {
    var existing := NormalizedBackend(m.spec.backend);
    if p.backend.Some? && p.backend.value != existing then Answer(BackendFixed(existing))
    else if existing == KSERVE && KServePatchFindings(p) != [] then Answer(ValidationFailed(KServePatchFindings(p)))
    else
      var spec := Patched(m.spec, p, cfg.gateway);
      Validated(lib, cfg, name, Projection(spec), m.(spec := spec))
  }

  function Decide(lib: Library, cfg: Config, name: string, request: Request, seen: Option<ModelService>): Decision {
    if name == "" then Answer(InvalidName)
    else if request.Patch? && !HasPatchFields(request.patch) then Answer(EmptyPatch)
    else if seen.None? then Answer(MissingModel)
    else if Tracked(seen.value) then Answer(OwnershipConflict)
    else
      match request
      case Put(body) => DecidePut(lib, cfg, name, body, seen.value)
      case Patch(patch) => DecidePatch(lib, cfg, name, patch, seen.value)
      case Delete => RemoveObject(seen.value)
  }

  function PreconditionsFor(m: ModelService): Preconditions {
    Preconditions(if m.uid == 0 then None else Some(m.uid), if m.version == 0 then None else Some(m.version))
  }

  /** The conditional write that ends a request. */
  function Finish(d: Decision, schemaOk: bool, c: Cluster): (Cluster, Reply) {
    match d
    case Answer(reply) => (c, reply)
    case WriteBack(candidate) =>
      var (c', r) := UpdateModel(c, candidate, Stored(candidate.spec), schemaOk);
      (c', if r.Written? then Shown(ResponseOf(r.model)) else if r.Conflict? then WriteConflict else Unavailable)
    case RemoveObject(m) =>
      var (c', r) := DeleteModel(c, m.key, PreconditionsFor(m));
      (c', if r.Conflict? then WriteConflict else Deleted)
  }

  /** The request as one indivisible read-decide-write. */
  function Atomically(lib: Library, cfg: Config, name: string, request: Request, schemaOk: bool, c: Cluster)
    : (Cluster, Reply)
  {
    Finish(Decide(lib, cfg, name, request, Get(c.models, Key(cfg.namespace, name))), schemaOk, c)
  }

  function Creation(lib: Library, cfg: Config, r: CreateRequest, schemaOk: bool, c: Cluster): (Cluster, Reply) {
    var details := Findings(lib, r.name, r.body, cfg.maxReplicas);
    if details != [] then (c, ValidationFailed(details))
    else
      var (c', w) := CreateModel(c, Key(cfg.namespace, r.name), map[], map[], Stored(Created(r.body, cfg.gateway)),
                                 schemaOk);
      (c', if w.Written? then Shown(ResponseOf(w.model)) else if w.AlreadyExists? then Duplicate else Unavailable)
  }

  // ---------------------------------------------------------------------
  // PUT and PATCH agree
  // ---------------------------------------------------------------------

  /** The PATCH that names every field of a PUT body. */
  function FullPatch(r: UpdateRequest): PatchRequest {
    PatchRequest(if r.backend == "" then None else Some(r.backend),
                 Some(r.image), Some(r.replicas), Some(r.port), r.predictor,
                 Some(ExposurePatch(Some(r.exposure.enabled), Some(r.exposure.hostname), Some(r.exposure.pathPrefix))),
                 Some(StoragePatch(Some(r.storage.enabled), Some(r.storage.size), Some(r.storage.mountPath))))
  }

  /** The patched spec says what the PUT body says, with the prefix filled in. */
  predicate Mirrors(spec: Spec, body: UpdateRequest) {
    && spec.backend == body.backend == DEPLOYMENT
    && spec.image == body.image && spec.replicas == body.replicas && spec.port == body.port
    && spec.predictor == body.predictor
    && spec.exposure.Some?
    && (var e := spec.exposure.value;
        && e.enabled == body.exposure.enabled && e.hostname == body.exposure.hostname
        && e.pathPrefix == if e.enabled then OrElse(body.exposure.pathPrefix, "/") else body.exposure.pathPrefix)
    && spec.storage == Some(Storage(body.storage.enabled, body.storage.size, body.storage.mountPath))
  }

  /** On an API-written Deployment object a full PATCH and the PUT are accepted
      alike, are refused with the same details, and store the same view. */
  lemma FullPatchIsPut(lib: Library, cfg: Config, name: string, r: UpdateRequest, m: ModelService)
    requires ApiSpec(lib, name, m.spec, cfg.maxReplicas) && m.spec.backend == DEPLOYMENT
    ensures var put, patch := DecidePut(lib, cfg, name, r, m), DecidePatch(lib, cfg, name, FullPatch(r), m);
            if put.Answer? then patch == put
            else && put.WriteBack? && patch.WriteBack?
                 && ViewOf(name, Stored(put.candidate.spec)) == ViewOf(name, Stored(patch.candidate.spec))
  {
    var body := r.(backend := OrElse(r.backend, DEPLOYMENT));
    if body.backend == DEPLOYMENT {
      var spec := Patched(m.spec, FullPatch(r), cfg.gateway);
      assert m.spec.predictor.None?;
      assert Mirrors(spec, body);
      MirrorFindings(lib, cfg, name, body, spec);
      if Findings(lib, name, body, cfg.maxReplicas) == [] {
        MirrorView(lib, cfg, name, body, spec, m.spec, FullPatch(r));
      }
    }
  }

  /** The findings ignore the path prefix that a PATCH fills in. */
  lemma MirrorFindings(lib: Library, cfg: Config, name: string, body: UpdateRequest, spec: Spec)
    requires Mirrors(spec, body)
    ensures Findings(lib, name, Projection(spec), cfg.maxReplicas) == Findings(lib, name, body, cfg.maxReplicas)
  {
    PrefixSlash("/");
    assert ExposureFindings(lib, Projection(spec).exposure) == ExposureFindings(lib, body.exposure);
  }

  lemma MirrorView(lib: Library, cfg: Config, name: string, body: UpdateRequest, spec: Spec, before: Spec,
                   p: PatchRequest)
    requires Mirrors(spec, body) && spec == Patched(before, p, cfg.gateway)
    requires Findings(lib, name, body, cfg.maxReplicas) == []
    ensures ViewOf(name, Stored(Updated(before, body, cfg.gateway))) == ViewOf(name, Stored(spec))
  {
    MirrorFindings(lib, cfg, name, body, spec);
    FindingsCorrect(lib, name, body, cfg.maxReplicas);
    FindingsCorrect(lib, name, Projection(spec), cfg.maxReplicas);
    PutThenView(lib, name, before, body, cfg.gateway, cfg.maxReplicas);
    MirrorCreated(lib, cfg, name, body, spec);
    PatchThenView(lib, name, before, p, cfg.gateway, cfg.maxReplicas);
  }

  lemma MirrorCreated(lib: Library, cfg: Config, name: string, body: UpdateRequest, spec: Spec)
    requires Mirrors(spec, body)
    requires Acceptable(lib, name, body, cfg.maxReplicas) && Acceptable(lib, name, Projection(spec), cfg.maxReplicas)
    ensures ViewOf(name, Stored(Created(body, cfg.gateway)))
            == ViewOf(name, Stored(Created(Projection(spec), cfg.gateway)))
  {
    CreateThenView(lib, name, body, cfg.gateway, cfg.maxReplicas);
    CreateThenView(lib, name, Projection(spec), cfg.gateway, cfg.maxReplicas);
  }

  /** A PUT of an object's own projection passes the backend check and the
      validator, and what it goes on to store shows the same view. */
  lemma OwnProjectionIsWritten(lib: Library, cfg: Config, name: string, m: ModelService)
    requires ApiSpec(lib, name, m.spec, cfg.maxReplicas)
    ensures var d := DecidePut(lib, cfg, name, Projection(m.spec), m);
            d.WriteBack? && ViewOf(name, Stored(d.candidate.spec)) == ViewOf(name, m.spec)
  {
    PutOwnProjection(lib, name, m.spec, cfg.gateway, cfg.maxReplicas);
  }

  /** As a whole request on an untracked object, it succeeds and the response
      shows the view that the object had. */
  lemma OwnProjectionRoundTrip(lib: Library, cfg: Config, m: ModelService, c: Cluster)
    requires Get(c.models, Key(cfg.namespace, m.key.name)) == Some(m) && m.key.namespace == cfg.namespace
    requires ApiSpec(lib, m.key.name, m.spec, cfg.maxReplicas) && m.key.name != "" && m.version > 0 && !Tracked(m)
    ensures var reply := Atomically(lib, cfg, m.key.name, Put(Projection(m.spec)), true, c).1;
            reply.Shown? && reply.response.view == ViewOf(m.key.name, m.spec)
  {
    var d := DecidePut(lib, cfg, m.key.name, Projection(m.spec), m);
    OwnProjectionIsWritten(lib, cfg, m.key.name, m);
    OwnProjectionAdmissible(lib, cfg, m.key.name, m.spec);
    UpdateSucceeds(c, d.candidate, Stored(d.candidate.spec));
  }

  lemma OwnProjectionAdmissible(lib: Library, cfg: Config, name: string, spec: Spec)
    requires ApiSpec(lib, name, spec, cfg.maxReplicas)
    ensures var stored := Stored(Updated(spec, Projection(spec), cfg.gateway));
            Admissible(stored) && BackendRule(spec, stored)
  {
    var stored := Stored(Updated(spec, Projection(spec), cfg.gateway));
    PutThenView(lib, name, spec, Projection(spec), cfg.gateway, cfg.maxReplicas);
    ApiSpecMeetsRules(lib, name, stored, cfg.maxReplicas);
  }

  lemma UpdateSucceeds(c: Cluster, submitted: ModelService, spec: Spec)
    requires submitted.key in c.models && submitted.version > 0 && SameVersion(c.models[submitted.key], submitted)
    requires Admissible(spec) && BackendRule(c.models[submitted.key].spec, spec)
    ensures var r := UpdateModel(c, submitted, spec, true).1;
            r.Written? && r.model.spec == spec && r.model.key == c.models[submitted.key].key
  {
  }

  // ---------------------------------------------------------------------
  // The store and the handlers
  // ---------------------------------------------------------------------

  class ModelServiceStore {
    const client: ApiServer
    const namespace: string

    constructor (client: ApiServer, namespace: string)
      ensures this.client == client && this.namespace == namespace
    {
      this.client := client;
      this.namespace := namespace;
    }

    method Get(name: string) returns (r: Option<ModelService>)
      ensures r == Clusters.Get(client.State().models, Key(namespace, name))
    {
      var key := Key(namespace, name);
      if key in client.models {
        r := Some(client.models[key]);
      } else {
        r := None;
      }
    }

    method Create(name: string, spec: Spec, schemaOk: bool) returns (r: WriteResult)
      modifies client
      ensures (client.State(), r)
              == CreateModel(old(client.State()), Key(namespace, name), map[], map[], Stored(spec), schemaOk)
    {
      var key := Key(namespace, name);
      if key in client.models {
        return AlreadyExists;
      }
      var admitted := Stored(spec);
      if !schemaOk || !Admissible(admitted) {
        return Invalid;
      }
      client.revision := client.revision + 1;
      var m := ModelService(key, client.revision, client.revision, 1, map[], map[], admitted, NO_STATUS);
      client.models := client.models[key := m];
      return Written(m);
    }

    method Update(submitted: ModelService, schemaOk: bool) returns (r: WriteResult)
      modifies client
      ensures var m := submitted.(key := Key(namespace, submitted.key.name));
              (client.State(), r) == UpdateModel(old(client.State()), m, Stored(m.spec), schemaOk)
    {
      var m := submitted.(key := Key(namespace, submitted.key.name));
      if m.key !in client.models {
        return NotFound;
      }
      var current := client.models[m.key];
      if m.version == 0 {
        return Invalid;
      }
      if !SameVersion(current, m) {
        return Conflict;
      }
      var spec := Stored(m.spec);
      if !schemaOk || !Admissible(spec) || !BackendRule(current.spec, spec) {
        return Invalid;
      }
      var edited := current.(labels := m.labels, annotations := m.annotations, spec := spec);
      if spec != current.spec {
        edited := edited.(generation := edited.generation + 1);
      }
      if edited == current {
        return Written(edited);
      }
      client.revision := client.revision + 1;
      edited := edited.(version := client.revision);
      client.models := client.models[m.key := edited];
      return Written(edited);
    }

    /** Binds the deletion to the exact object and version that was inspected. */
    method Delete(inspected: ModelService) returns (r: WriteResult)
      modifies client
      ensures var m := inspected.(key := Key(namespace, inspected.key.name));
              (client.State(), r) == DeleteModel(old(client.State()), m.key, PreconditionsFor(m))
    {
      var key := Key(namespace, inspected.key.name);
      var preconditions := Preconditions(None, None);
      if inspected.uid != 0 {
        preconditions := preconditions.(uid := Some(inspected.uid));
      }
      if inspected.version != 0 {
        preconditions := preconditions.(version := Some(inspected.version));
      }
      if key !in client.models {
        return NotFound;
      }
      var current := client.models[key];
      if preconditions.uid.Some? && preconditions.uid.value != current.uid {
        return Conflict;
      }
      if preconditions.version.Some? && preconditions.version.value != current.version {
        return Conflict;
      }
      client.models := client.models - {key};
      client.revision := client.revision + 1;
      return Written(current);
    }
  }

  /** One mutation request in flight: `Load` reads and decides, `Commit`
      writes; other clients may act on the server in between. */
  class MutationHandler {
    const lib: Library
    const cfg: Config
    const store: ModelServiceStore
    var decision: Decision

    constructor (lib: Library, cfg: Config, store: ModelServiceStore)
      requires store.namespace == cfg.namespace
      ensures this.lib == lib && this.cfg == cfg && this.store == store
    {
      this.lib, this.cfg, this.store := lib, cfg, store;
      decision := Answer(Unavailable);
    }

    method Load(name: string, request: Request)
      requires store.namespace == cfg.namespace
      modifies this
      ensures decision == Decide(lib, cfg, name, request, Get(store.client.State().models, Key(cfg.namespace, name)))
    {
      if name == "" {
        decision := Answer(InvalidName);
        return;
      }
      if request.Patch? && !HasPatchFields(request.patch) {
        decision := Answer(EmptyPatch);
        return;
      }
      var seen := store.Get(name);
      if seen.None? {
        decision := Answer(MissingModel);
        return;
      }
      var m := seen.value;
      if TRACKING_ANNOTATION in m.annotations || TRACKING_LABEL in m.labels {
        decision := Answer(OwnershipConflict);
        return;
      }
      match request
      case Put(body) => PreparePut(name, body, m);
      case Patch(patch) => PreparePatch(name, patch, m);
      case Delete => decision := RemoveObject(m);
    }

    method PreparePut(name: string, r: UpdateRequest, m: ModelService)
      modifies this
      ensures decision == DecidePut(lib, cfg, name, r, m)
    {
      var existing := if m.spec.backend == "" then DEPLOYMENT else m.spec.backend;
      var body := if r.backend == "" then r.(backend := existing) else r;
      if body.backend != existing {
        decision := Answer(BackendFixed(existing));
        return;
      }
      var details := ValidateRequest(lib, name, body, cfg.maxReplicas);
      if details != [] {
        decision := Answer(ValidationFailed(details));
        return;
      }
      var candidate := new Candidate(m.spec);
      candidate.ApplyUpdateRequest(body, cfg.gateway);
      decision := WriteBack(m.(spec := candidate.spec));
    }

    method PreparePatch(name: string, p: PatchRequest, m: ModelService)
      modifies this
      ensures decision == DecidePatch(lib, cfg, name, p, m)
    {
      var existing := if m.spec.backend == "" then DEPLOYMENT else m.spec.backend;
      if p.backend.Some? && p.backend.value != existing {
        decision := Answer(BackendFixed(existing));
        return;
      }
      if existing == KSERVE && KServePatchFindings(p) != [] {
        decision := Answer(ValidationFailed(KServePatchFindings(p)));
        return;
      }
      var candidate := new Candidate(m.spec);
      candidate.ApplyPatchRequest(p, cfg.gateway);
      var details := ValidateRequest(lib, name, Projection(candidate.spec), cfg.maxReplicas);
      if details != [] {
        decision := Answer(ValidationFailed(details));
        return;
      }
      decision := WriteBack(m.(spec := candidate.spec));
    }

    method Commit(schemaOk: bool) returns (reply: Reply)
      requires store.namespace == cfg.namespace
      requires decision.WriteBack? ==> decision.candidate.key.namespace == cfg.namespace
      requires decision.RemoveObject? ==> decision.inspected.key.namespace == cfg.namespace
      modifies store.client
      ensures (store.client.State(), reply) == Finish(decision, schemaOk, old(store.client.State()))
    {
      match decision
      case Answer(r) => reply := r;
      case WriteBack(candidate) =>
        var r := store.Update(candidate, schemaOk);
        reply := if r.Written? then Shown(ResponseOf(r.model)) else if r.Conflict? then WriteConflict else Unavailable;
      case RemoveObject(m) =>
        var r := store.Delete(m);
        reply := if r.Conflict? then WriteConflict else Deleted;
    }
  }

  /** The create handler: validate, build, write. */
  method ServeCreate(lib: Library, cfg: Config, store: ModelServiceStore, r: CreateRequest, schemaOk: bool)
    returns (reply: Reply)
    requires store.namespace == cfg.namespace
    modifies store.client
    ensures (store.client.State(), reply) == Creation(lib, cfg, r, schemaOk, old(store.client.State()))
  {
    var details := ValidateRequest(lib, r.name, r.body, cfg.maxReplicas);
    if details != [] {
      return ValidationFailed(details);
    }
    var w := store.Create(r.name, Created(r.body, cfg.gateway), schemaOk);
    return if w.Written? then Shown(ResponseOf(w.model)) else if w.AlreadyExists? then Duplicate else Unavailable;
  }
}
