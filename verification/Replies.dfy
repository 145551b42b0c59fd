/** What the replies of the handlers mean: when a request is refused and for
    what, and what a success says about the server afterwards. */
module Replies {
  import opened Strings
  import opened ModelServices
  import opened Validation
  import opened Transforms
  import opened TransformLaws
  import opened Clusters
  import opened Handlers

  // ---------------------------------------------------------------------
  // The conditional write
  // ---------------------------------------------------------------------

  /** A DELETE is confirmed exactly when the name is free afterwards, and refused
      as a conflict exactly when another version is still there. */
  lemma RemovalReply(m: ModelService, schemaOk: bool, c: Cluster)
    ensures var (c', reply) := Finish(RemoveObject(m), schemaOk, c);
            && (reply == Deleted <==> m.key !in c'.models)
            && (reply == WriteConflict <==> m.key in c'.models)
            && (reply == WriteConflict ==> c' == c)
            && (forall k :: k != m.key ==> Get(c'.models, k) == Get(c.models, k))
  {
  }

  ghost predicate WellFormed(c: Cluster) {
    forall k :: k in c.models ==> c.models[k].key == k && 0 < c.models[k].version <= c.revision
  }

  /** The server takes a write of this spec over this version. */
  predicate Takes(c: Cluster, candidate: ModelService, schemaOk: bool) {
    && candidate.key in c.models && candidate.version > 0 && SameVersion(c.models[candidate.key], candidate)
    && schemaOk && Admissible(Stored(candidate.spec))
    && BackendRule(c.models[candidate.key].spec, Stored(candidate.spec))
  }

  /** A PUT or PATCH shows a response exactly when the server takes its write;
      the object then holds the stored candidate, and the response shows it. It
      conflicts exactly when another version is there, and nothing else changes
      the server. */
  lemma WriteBackReply(candidate: ModelService, schemaOk: bool, c: Cluster)
    requires WellFormed(c)
    ensures var (c', reply) := Finish(WriteBack(candidate), schemaOk, c);
            && (reply.Shown? <==> Takes(c, candidate, schemaOk))
            && (reply == WriteConflict <==>
                  && candidate.key in c.models && candidate.version > 0
                  && !SameVersion(c.models[candidate.key], candidate))
            && (reply.Shown? || reply == WriteConflict || reply == Unavailable)
            && (!reply.Shown? ==> c' == c)
            && (forall k :: k != candidate.key ==> Get(c'.models, k) == Get(c.models, k))
    ensures Takes(c, candidate, schemaOk) ==>
              var (c', reply) := Finish(WriteBack(candidate), schemaOk, c);
              candidate.key in c'.models
              && Holds(c'.models[candidate.key], c.models[candidate.key], candidate)
              && Describes(reply.response, c'.models[candidate.key])
  {
  }

  /** The object after the write: the candidate's spec and metadata, the old
      identity and status, and a generation that counts spec changes. */
  predicate Holds(after: ModelService, before: ModelService, candidate: ModelService) {
    && after.spec == Stored(candidate.spec) && after.labels == candidate.labels
    && after.annotations == candidate.annotations
    && after.key == before.key && after.uid == before.uid && after.status == before.status
    && (after.generation == before.generation <==> after.spec == before.spec)
    && after.generation <= before.generation + 1 && before.generation <= after.generation
    && (after.version == before.version <==> after == before)
  }

  /** The response is about this object as it is. */
  predicate Describes(r: Response, m: ModelService) {
    && r.view == ViewOf(m.key.name, m.spec) && r.generation == m.generation
    && (m.status.phase == "" ==> r.state == "Pending") && (m.status.phase != "" ==> r.state == m.status.phase)
  }

  // ---------------------------------------------------------------------
  // The decision
  // ---------------------------------------------------------------------

  /** The object carries the marker of a GitOps tool. */
  predicate Marked(m: ModelService) {
    "argocd.argoproj.io/tracking-id" in m.annotations || "argocd.argoproj.io/instance" in m.labels
  }

  predicate Nothing(p: PatchRequest) {
    p == PatchRequest(None, None, None, None, None, None, None)
  }

  /** Before any look at the spec: the order of the four early answers. */
  lemma EarlyAnswers(lib: Library, cfg: Config, name: string, request: Request, seen: Option<ModelService>)
    ensures var d := Decide(lib, cfg, name, request, seen);
            var empty := request.Patch? && Nothing(request.patch);
            && (d == Answer(InvalidName) <==> name == "")
            && (d == Answer(EmptyPatch) <==> name != "" && empty)
            && (d == Answer(MissingModel) <==> name != "" && !empty && seen.None?)
            && (d == Answer(OwnershipConflict) <==> name != "" && !empty && seen.Some? && Marked(seen.value))
            && (d.RemoveObject? <==> name != "" && request.Delete? && seen.Some? && !Marked(seen.value))
            && (d.RemoveObject? ==> d.inspected == seen.value)
  {
  }

  /** The object runs on this backend; an absent backend is the Deployment one. */
  predicate RunsOn(m: ModelService, backend: string) {
    if m.spec.backend == "" then backend == "Deployment" else backend == m.spec.backend
  }

  /** A PUT goes on to write exactly if it names no backend or the object's, and
      is acceptable under it; it is refused with findings otherwise. */
  lemma PutDecision(lib: Library, cfg: Config, name: string, r: UpdateRequest, m: ModelService, backend: string)
    requires RunsOn(m, backend)
    ensures var d := DecidePut(lib, cfg, name, r, m);
            && (d.WriteBack? <==>
                  r.backend in {"", backend} && Acceptable(lib, name, r.(backend := backend), cfg.maxReplicas))
            && (!d.WriteBack? ==> d.Answer? && d.reply.ValidationFailed? && d.reply.details != [])
            && (d.WriteBack? ==> d.candidate == m.(spec := Updated(m.spec, r.(backend := backend), cfg.gateway)))
  {
    FindingsCorrect(lib, name, r.(backend := backend), cfg.maxReplicas);
  }

  /** The fields of a PATCH that a KServe object does not have. */
  predicate DeploymentOnly(p: PatchRequest) {
    p.image.Some? || p.port.Some? || p.exposure.Some? || p.storage.Some?
  }

  /** A PATCH goes on to write exactly if it keeps the backend, names no field
      that a KServe object lacks, and leaves an acceptable spec. */
  lemma PatchDecision(lib: Library, cfg: Config, name: string, p: PatchRequest, m: ModelService, backend: string)
    requires RunsOn(m, backend)
    ensures var d := DecidePatch(lib, cfg, name, p, m);
            var spec := Patched(m.spec, p, cfg.gateway);
            && (d.WriteBack? <==>
                  && (p.backend.None? || p.backend.value == backend)
                  && !(backend == "KServe" && DeploymentOnly(p))
                  && Acceptable(lib, name, Projection(spec), cfg.maxReplicas))
            && (!d.WriteBack? ==> d.Answer? && d.reply.ValidationFailed? && d.reply.details != [])
            && (d.WriteBack? ==> d.candidate == m.(spec := spec))
  {
    FindingsCorrect(lib, name, Projection(Patched(m.spec, p, cfg.gateway)), cfg.maxReplicas);
    KServeRefusals(p);
  }

  /** A KServe object reports each of the four fields that a PATCH may not name. */
  lemma KServeRefusals(p: PatchRequest)
    ensures FieldsOf(KServePatchFindings(p))
            == Only(p.image.Some?, "image") + Only(p.port.Some?, "port")
               + Only(p.exposure.Some?, "exposure") + Only(p.storage.Some?, "storage")
    ensures KServePatchFindings(p) == [] <==> !DeploymentOnly(p)
  {
    var message := "may not be patched for KServe";
    var image, port := When(p.image.Some?, "image", message), When(p.port.Some?, "port", message);
    var exposure := When(p.exposure.Some?, "exposure", message);
    FieldsConcat(image, port);
    FieldsConcat(image + port, exposure);
    FieldsConcat(image + port + exposure, When(p.storage.Some?, "storage", message));
    FieldsWhen(p.image.Some?, "image", message);
    FieldsWhen(p.port.Some?, "port", message);
    FieldsWhen(p.exposure.Some?, "exposure", message);
    FieldsWhen(p.storage.Some?, "storage", message);
  }

  /** A PATCH of a KServe object that goes on to write stores the predictor and
      the replicas it names and leaves the rest of the object as it is. */
  lemma KServePatchStores(lib: Library, cfg: Config, name: string, p: PatchRequest, m: ModelService)
    requires ApiSpec(lib, name, m.spec, cfg.maxReplicas) && RunsOn(m, "KServe")
    ensures var d := DecidePatch(lib, cfg, name, p, m);
            d.WriteBack? ==>
              && (p.predictor.Some? ==> Stored(d.candidate.spec).predictor == p.predictor)
              && (p.replicas.Some? ==> Stored(d.candidate.spec).replicas == p.replicas.value)
              && Stored(d.candidate.spec)
                 == m.spec.(predictor := Stored(d.candidate.spec).predictor,
                            replicas := Stored(d.candidate.spec).replicas)
              && (p.predictor.None? ==> Stored(d.candidate.spec).predictor == m.spec.predictor)
              && (p.replicas.None? ==> Stored(d.candidate.spec).replicas == m.spec.replicas)
  {
    var d := DecidePatch(lib, cfg, name, p, m);
    if d.WriteBack? {
      PatchDecision(lib, cfg, name, p, m, "KServe");
      StoredUnchanged(m.spec);
      PatchThenView(lib, name, m.spec, p, cfg.gateway, cfg.maxReplicas);
    }
  }

  // ---------------------------------------------------------------------
  // Create, and requests as a whole
  // ---------------------------------------------------------------------

  /** A create is shown exactly when the request is acceptable, the name is free
      and the schema agrees; then the object is new and unowned. */
  lemma CreationReply(lib: Library, cfg: Config, r: CreateRequest, schemaOk: bool, c: Cluster)
    ensures var key := Key(cfg.namespace, r.name);
            var (c', reply) := Creation(lib, cfg, r, schemaOk, c);
            var ok := Acceptable(lib, r.name, r.body, cfg.maxReplicas);
            && (reply.Shown? <==> ok && key !in c.models && schemaOk)
            && (reply == Duplicate <==> ok && key in c.models)
            && (reply.ValidationFailed? <==> !ok)
            && (!reply.Shown? ==> c' == c)
            && (reply.Shown? ==>
                  && key in c'.models && c'.models[key].spec == Stored(Created(r.body, cfg.gateway))
                  && c'.models[key].generation == 1 && !Marked(c'.models[key])
                  && Describes(reply.response, c'.models[key]) && reply.response.state == "Pending"
                  && c'.models == c.models[key := c'.models[key]])
  {
    FindingsCorrect(lib, r.name, r.body, cfg.maxReplicas);
    if Acceptable(lib, r.name, r.body, cfg.maxReplicas) {
      CreatedAdmissible(lib, cfg, r);
      CreateModelReply(Key(cfg.namespace, r.name), Stored(Created(r.body, cfg.gateway)), schemaOk, c);
    }
  }

  lemma CreateModelReply(key: Key, spec: Spec, schemaOk: bool, c: Cluster)
    requires Admissible(spec)
    ensures var (c', w) := CreateModel(c, key, map[], map[], spec, schemaOk);
            && (w.Written? <==> key !in c.models && schemaOk)
            && (w.AlreadyExists? <==> key in c.models)
            && (!w.Written? ==> c' == c)
            && (w.Written? ==>
                  && key in c'.models && c'.models[key] == w.model && c'.models == c.models[key := w.model]
                  && w.model.spec == spec && w.model.generation == 1 && !Marked(w.model)
                  && Describes(ResponseOf(w.model), w.model) && ResponseOf(w.model).state == "Pending")
  {
  }

  lemma CreatedAdmissible(lib: Library, cfg: Config, r: CreateRequest)
    requires Acceptable(lib, r.name, r.body, cfg.maxReplicas)
    ensures Admissible(Stored(Created(r.body, cfg.gateway)))
  {
    CreateThenView(lib, r.name, r.body, cfg.gateway, cfg.maxReplicas);
    ApiSpecMeetsRules(lib, r.name, Stored(Created(r.body, cfg.gateway)), cfg.maxReplicas);
  }

  /** A request taken as a whole: a response shows the object as it then is, a
      confirmed DELETE leaves the name free, and every other reply means that
      nothing changed. An acceptable PUT that the server takes shows exactly what
      creating from its body would show. */
  lemma RequestReply(lib: Library, cfg: Config, name: string, request: Request, schemaOk: bool, c: Cluster)
    requires WellFormed(c)
    ensures var key := Key(cfg.namespace, name);
            var (c', reply) := Atomically(lib, cfg, name, request, schemaOk, c);
            && (reply.Shown? ==>
                  !request.Delete? && key in c.models && key in c'.models && Describes(reply.response, c'.models[key]))
            && (reply == Deleted ==> request.Delete? && key in c.models && key !in c'.models)
            && (!reply.Shown? && reply != Deleted ==> c' == c)
            && reply != WriteConflict
            && (forall k :: k != key ==> Get(c'.models, k) == Get(c.models, k))
  {
    var d := Decide(lib, cfg, name, request, Get(c.models, Key(cfg.namespace, name)));
    DecisionAbout(lib, cfg, name, request, c);
    if d.WriteBack? {
      WriteBackReply(d.candidate, schemaOk, c);
    } else if d.RemoveObject? {
      RemovalReply(d.inspected, schemaOk, c);
    }
  }

  /** A decision to write is about the object that was read, and no answer looks
      like the reply of a write. */
  lemma DecisionAbout(lib: Library, cfg: Config, name: string, request: Request, c: Cluster)
    requires WellFormed(c)
    ensures var key := Key(cfg.namespace, name);
            match Decide(lib, cfg, name, request, Get(c.models, key))
            case Answer(reply) => !reply.Shown? && reply != Deleted && reply != WriteConflict
            case WriteBack(candidate) =>
              && !request.Delete? && key in c.models && candidate.key == key
              && candidate == c.models[key].(spec := candidate.spec)
            case RemoveObject(m) => request.Delete? && key in c.models && m == c.models[key]
  {
  }
}
