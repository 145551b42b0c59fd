/** API handlers, the operator and external writers acting on one API server in
    any order. A handler's read and its write are separate steps; so are a
    reconcile's read, its child steps and its status write. Reads may be stale:
    a reader may be given any version of an object that ever existed. */
module Protocol {
  import opened Strings
  import opened ModelServices
  import opened Statuses
  import opened Children
  import opened Clusters
  import opened Handlers
  import opened Validation
  import opened Transforms

  /** A request whose write is still to come. */
  datatype Pending = Pending(name: string, request: Request, inspected: ModelService, decision: Decision)

  /** `seen` holds every version of every ModelService that ever existed;
      `workers` the snapshot each running reconcile works from. */
  datatype World = World(
    server: Cluster, seen: set<ModelService>, clients: map<nat, Pending>, workers: map<nat, ModelService>)

  const EMPTY_WORLD := World(Cluster(map[], map[], 0), {}, map[], map[])

  /** A request or its response may be lost on the way. */
  datatype Transport = Delivered | RequestLost | ResponseLost

  datatype Action =
    | Begin(client: nat, name: string, request: Request, read: Option<ModelService>)
    | Commit(client: nat, schemaOk: bool, transport: Transport)
    | Create(creation: CreateRequest, schemaOk: bool)
    | ExternalCreate(key: Key, labels: Labels, annotations: Labels, spec: Spec, schemaOk: bool)
    | ExternalUpdate(key: Key, labels: Labels, annotations: Labels, spec: Spec, schemaOk: bool)
    | ExternalDelete(key: Key)
    | WorkerBegin(worker: nat, snapshot: ModelService)
    | WorkerStep(worker: nat, kind: Kind)
    | WorkerStatus(worker: nat, workload: Workload, report: Json, now: int)
    | Report(child: ChildKey, workload: Workload, report: Json)
    | Collect(child: ChildKey)

  /** What the protocol needs to know of the code that runs in it: how a request
      is decided after its read, what a create request stores, what a reconcile
      wants of each child, and the status it derives. */
  datatype Program = Program(
    namespace: string,
    decide: (string, Request, Option<ModelService>) -> Decision,
    create: CreateRequest -> Option<Spec>,
    intent: (Parent, Kind) -> Intent,
    derive: (ModelService, Workload, Json, int) -> Option<Status>)

  /** The repository's code. */
  function Platform(lib: Library, cfg: Config): Program {
    Program(cfg.namespace,
            (name, request, read) => Decide(lib, cfg, name, request, read),
            r => CreatedSpec(lib, cfg, r),
            (p, kind) => IntentFor(lib, p, kind),
            (m, workload, report, now) => DerivedStatus(lib, m, workload, report, now))
  }

  function CreatedSpec(lib: Library, cfg: Config, r: CreateRequest): Option<Spec> {
    if Findings(lib, r.name, r.body, cfg.maxReplicas) == [] then Some(Stored(Created(r.body, cfg.gateway))) else None
  }

  /** The status a reconcile that started from `m` wants to publish. */
  function DerivedStatus(lib: Library, m: ModelService, workload: Workload, report: Json, now: int): Option<Status> {
    if UsesKServe(m.spec) then
      var r := InferenceReading(lib, m, report);
      if r.Found? then Some(Publish(m.status, m.generation, r.value, now)) else None
    else Some(Publish(m.status, m.generation, DeploymentReading(lib, m, workload), now))
  }

  /** An external writer that leaves the backend out gets the schema default. */
  function WithBackend(spec: Spec): Spec {
    spec.(backend := OrElse(spec.backend, DEPLOYMENT))
  }

  function CreateEffect(prog: Program, r: CreateRequest, schemaOk: bool, c: Cluster): Cluster {
    var spec := prog.create(r);
    if spec.None? then c
    else CreateModel(c, Key(prog.namespace, r.name), map[], map[], spec.value, schemaOk).0
  }

  function StatusEffect(prog: Program, m: ModelService, workload: Workload, report: Json, now: int, c: Cluster)
    : Cluster
  {
    var s := prog.derive(m, workload, report, now);
    if s.None? || s.value == m.status then c else UpdateStatus(c, m.(status := s.value)).0
  }

  /** What an action does to the server. */
  function Effect(prog: Program, w: World, a: Action): Cluster {
    var c := w.server;
    match a
    case Begin(_, _, _, _) => c
    case Commit(id, schemaOk, transport) =>
      if id in w.clients && !transport.RequestLost? then Finish(w.clients[id].decision, schemaOk, c).0 else c
    case Create(r, schemaOk) => CreateEffect(prog, r, schemaOk, c)
    case ExternalCreate(key, labels, annotations, spec, schemaOk) =>
      CreateModel(c, key, labels, annotations, WithBackend(spec), schemaOk).0
    case ExternalUpdate(key, labels, annotations, spec, schemaOk) =>
      if key in c.models
      then UpdateModel(c, c.models[key].(labels := labels, annotations := annotations), WithBackend(spec), schemaOk).0
      else c
    case ExternalDelete(key) => DeleteModel(c, key, Preconditions(None, None)).0
    case WorkerBegin(_, _) => c
    case WorkerStep(id, kind) =>
      if id in w.workers && kind in KindsFor(w.workers[id].spec) then
        var p := ParentOf(w.workers[id]);
        Step(p, kind, prog.intent(p, kind), c).0
      else c
    case WorkerStatus(id, workload, report, now) =>
      if id in w.workers then StatusEffect(prog, w.workers[id], workload, report, now, c) else c
    case Report(k, workload, report) =>
      if k in c.children then
        var next := c.revision + 1;
        var child := c.children[k].(workload := workload, report := report, version := next);
        c.(children := c.children[k := child], revision := next)
      else c
    case Collect(k) => c.(children := c.children - {k}, revision := c.revision + 1)
  }

  /** What a read of the store may return: a version that exists or existed
      under that name, or nothing. */
  predicate Readable(prog: Program, w: World, name: string, read: Option<ModelService>) {
    read.Some? ==> read.value in w.seen && read.value.key == Key(prog.namespace, name)
  }

  /** A handler goes on to its write only if its decision calls for one. */
  function Clients(prog: Program, w: World, a: Action): map<nat, Pending> {
    match a
    case Begin(id, name, request, read) =>
      if !Readable(prog, w, name, read) then w.clients
      else
        var d := prog.decide(name, request, read);
        if d.Answer? || read.None? then w.clients - {id}
        else w.clients[id := Pending(name, request, read.value, d)]
    case Commit(id, _, _) => w.clients - {id}
    case _ => w.clients
  }

  function Workers(w: World, a: Action): map<nat, ModelService> {
    if a.WorkerBegin? && a.snapshot in w.seen then w.workers[a.worker := a.snapshot] else w.workers
  }

  function Act(prog: Program, w: World, a: Action): World {
    var server := Effect(prog, w, a);
    World(server, w.seen + server.models.Values, Clients(prog, w, a), Workers(w, a))
  }

  function Run(prog: Program, w: World, actions: seq<Action>): World {
    if actions == [] then w else Act(prog, Run(prog, w, actions[..|actions| - 1]), actions[|actions| - 1])
  }

  lemma RunExtend(prog: Program, w: World, actions: seq<Action>, n: nat)
    requires n < |actions|
    ensures Run(prog, w, actions[..n + 1]) == Act(prog, Run(prog, w, actions[..n]), actions[n])
  {
    assert actions[..n + 1][..n] == actions[..n];
  }

  /** What the protocol's safety rests on: a handler only edits the spec of the
      object it inspected, never writes a tracked one, and keeps its backend; a
      created spec names its backend; a status observes the generation it was
      derived from. */
  ghost predicate Honest(prog: Program) {
    && (forall name, request, m :: HonestDecision(request, m, prog.decide(name, request, Some(m))))
    && (forall r :: prog.create(r).Some? ==> prog.create(r).value.backend != "")
    && (forall m, workload, report, now :: var s := prog.derive(m, workload, report, now);
          s.Some? ==> s.value.observedGeneration == m.generation)
  }

  ghost predicate HonestDecision(request: Request, m: ModelService, d: Decision) {
    && (d.WriteBack? ==> !request.Delete? && d.candidate == m.(spec := d.candidate.spec)
                         && NormalizedBackend(d.candidate.spec.backend) == NormalizedBackend(m.spec.backend))
    && (d.RemoveObject? ==> request.Delete? && d.inspected == m)
    && (Tracked(m) ==> d.Answer?)
  }

  lemma PlatformIsHonest(lib: Library, cfg: Config)
    ensures Honest(Platform(lib, cfg))
  {
    var prog := Platform(lib, cfg);
    forall name, request, m
      ensures HonestDecision(request, m, prog.decide(name, request, Some(m)))
    {
      DecisionIsHonest(lib, cfg, name, request, m);
    }
    forall m, workload, report, now
      ensures var s := prog.derive(m, workload, report, now); s.Some? ==> s.value.observedGeneration == m.generation
    {
      assert prog.derive(m, workload, report, now) == DerivedStatus(lib, m, workload, report, now);
    }
  }

  lemma DecisionIsHonest(lib: Library, cfg: Config, name: string, request: Request, m: ModelService)
    ensures HonestDecision(request, m, Decide(lib, cfg, name, request, Some(m)))
  {
  }

  // ---------------------------------------------------------------------
  // How the server's ModelServices can change in one action
  // ---------------------------------------------------------------------

  /** `after` is the next version of `before`. */
  ghost predicate Succeeds(before: ModelService, after: ModelService) {
    && after.key == before.key && after.uid == before.uid
    && BackendRule(before.spec, after.spec)
    && (|| (after.status == before.status
            && after.generation == before.generation + if after.spec == before.spec then 0 else 1)
        || (after == before.(version := after.version, status := after.status)
            && after.status.observedGeneration == before.generation))
  }

  ghost predicate Puts(c: Cluster, c': Cluster, o: ModelService) {
    && c'.revision == c.revision + 1 == o.version && c'.models == c.models[o.key := o]
    && if o.key in c.models then Succeeds(c.models[o.key], o)
       else o.uid == o.version && o.generation == 1 && o.spec.backend != "" && o.status == NO_STATUS
  }

  ghost predicate Drops(c: Cluster, c': Cluster, k: Key) {
    c.revision <= c'.revision && k in c.models && c'.models == c.models - {k}
  }

  ghost predicate Evolves(c: Cluster, c': Cluster) {
    || (c'.models == c.models && c.revision <= c'.revision)
    || (exists k :: Drops(c, c', k))
    || (exists o :: Puts(c, c', o))
  }

  // ---------------------------------------------------------------------
  // Invariant: a version number identifies an object
  // ---------------------------------------------------------------------

  ghost predicate Versions(w: World) {
    && (forall k :: k in w.server.models ==> w.server.models[k].key == k && w.server.models[k] in w.seen)
    && (forall o :: o in w.seen ==> 0 < o.uid <= o.version <= w.server.revision)
    && (forall o, p :: o in w.seen && p in w.seen && o.version == p.version ==> o == p)
    && (forall o, k :: o in w.seen && k in w.server.models && o.uid == w.server.models[k].uid ==>
          o.key == k && o.version <= w.server.models[k].version)
  }

  ghost predicate Snapshots(prog: Program, w: World) {
    && (forall id :: id in w.clients ==>
          var p := w.clients[id];
          && p.inspected in w.seen && p.inspected.key == Key(prog.namespace, p.name)
          && p.decision == prog.decide(p.name, p.request, Some(p.inspected)) && !p.decision.Answer?)
    && (forall id :: id in w.workers ==> w.workers[id] in w.seen)
  }

  ghost predicate Consistent(prog: Program, w: World) {
    Versions(w) && Snapshots(prog, w)
  }

  /** A snapshot that carries the current version is the current object. */
  lemma SnapshotCurrent(w: World, o: ModelService)
    requires Versions(w) && o in w.seen && o.key in w.server.models && o.version == w.server.models[o.key].version
    ensures o == w.server.models[o.key]
  {
  }

  lemma UpdateEvolves(c: Cluster, submitted: ModelService, spec: Spec, schemaOk: bool)
    requires submitted.key in c.models ==> c.models[submitted.key].key == submitted.key
    ensures Evolves(c, UpdateModel(c, submitted, spec, schemaOk).0)
  {
    var (c', r) := UpdateModel(c, submitted, spec, schemaOk);
    if c' != c {
      assert Puts(c, c', r.model);
    }
  }

  lemma CreateEvolves(c: Cluster, key: Key, labels: Labels, annotations: Labels, spec: Spec, schemaOk: bool)
    requires spec.backend != ""
    ensures Evolves(c, CreateModel(c, key, labels, annotations, spec, schemaOk).0)
  {
    var (c', r) := CreateModel(c, key, labels, annotations, spec, schemaOk);
    if c' != c {
      assert Puts(c, c', r.model);
    }
  }

  lemma DeleteEvolves(c: Cluster, key: Key, pre: Preconditions)
    ensures Evolves(c, DeleteModel(c, key, pre).0)
  {
    var (c', r) := DeleteModel(c, key, pre);
    if c' != c {
      assert Drops(c, c', key);
    }
  }

  /** A status write takes effect only on the very version it was derived from. */
  lemma StatusEvolves(prog: Program, w: World, m: ModelService, workload: Workload, report: Json, now: int)
    requires Honest(prog) && Versions(w) && m in w.seen
    ensures var c, c' := w.server, StatusEffect(prog, m, workload, report, now, w.server);
            || c' == c
            || (&& m.key in c.models && c.models[m.key] == m
                && m.key in c'.models && Puts(c, c', c'.models[m.key])
                && c'.models[m.key].status.observedGeneration == c'.models[m.key].generation)
  {
    var c := w.server;
    var s := prog.derive(m, workload, report, now);
    if s.Some? && m.key in c.models && SameVersion(c.models[m.key], m) {
      SnapshotCurrent(w, m);
    }
  }

  lemma FinishEvolves(prog: Program, w: World, id: nat, schemaOk: bool)
    requires Honest(prog) && Consistent(prog, w) && id in w.clients
    ensures Evolves(w.server, Finish(w.clients[id].decision, schemaOk, w.server).0)
  {
    var p := w.clients[id];
    assert HonestDecision(p.request, p.inspected, p.decision);
    match p.decision
    case WriteBack(candidate) => UpdateEvolves(w.server, candidate, Stored(candidate.spec), schemaOk);
    case RemoveObject(m) => DeleteEvolves(w.server, m.key, PreconditionsFor(m));
  }

  /** Reads, child steps and reports leave the ModelServices alone. */
  lemma ChildActions(prog: Program, w: World, a: Action)
    requires a.Begin? || a.WorkerBegin? || a.WorkerStep? || a.Report? || a.Collect?
    ensures Effect(prog, w, a).models == w.server.models && w.server.revision <= Effect(prog, w, a).revision
  {
  }

  lemma ExternalEvolves(prog: Program, w: World, a: Action)
    requires Versions(w) && (a.ExternalCreate? || a.ExternalUpdate? || a.ExternalDelete?)
    ensures Evolves(w.server, Effect(prog, w, a))
  {
    var c := w.server;
    match a
    case ExternalCreate(key, labels, annotations, spec, schemaOk) =>
      CreateEvolves(c, key, labels, annotations, WithBackend(spec), schemaOk);
    case ExternalUpdate(key, labels, annotations, spec, schemaOk) =>
      if key in c.models {
        UpdateEvolves(c, c.models[key].(labels := labels, annotations := annotations), WithBackend(spec), schemaOk);
      }
    case ExternalDelete(key) => DeleteEvolves(c, key, Preconditions(None, None));
  }

  /** Every action evolves the server's ModelServices. */
  lemma EffectEvolves(prog: Program, w: World, a: Action)
    requires Honest(prog) && Consistent(prog, w)
    ensures Evolves(w.server, Effect(prog, w, a))
  {
    match a
    case Commit(id, schemaOk, _) => if id in w.clients { FinishEvolves(prog, w, id, schemaOk); }
    case Create(r, schemaOk) =>
      if prog.create(r).Some? {
        CreateEvolves(w.server, Key(prog.namespace, r.name), map[], map[], prog.create(r).value, schemaOk);
      }
    case WorkerStatus(id, workload, report, now) =>
      if id in w.workers { StatusEvolves(prog, w, w.workers[id], workload, report, now); }
    case ExternalCreate(_, _, _, _, _) => ExternalEvolves(prog, w, a);
    case ExternalUpdate(_, _, _, _, _) => ExternalEvolves(prog, w, a);
    case ExternalDelete(_) => ExternalEvolves(prog, w, a);
    case _ => ChildActions(prog, w, a);
  }

  lemma SeenPut(w: World, w': World, o: ModelService)
    requires Versions(w) && Puts(w.server, w'.server, o) && w'.seen == w.seen + w'.server.models.Values
    ensures w'.seen == w.seen + {o}
  {
    assert w'.server.models[o.key] == o;
    assert forall p :: p in w'.server.models.Values ==> p in w.seen || p == o;
  }

  lemma VersionsPut(w: World, w': World, o: ModelService)
    requires Versions(w) && Puts(w.server, w'.server, o) && w'.seen == w.seen + w'.server.models.Values
    ensures Versions(w') && w'.seen == w.seen + {o}
  {
    SeenPut(w, w', o);
    var c, c' := w.server, w'.server;
    forall p | p in w'.seen
      ensures 0 < p.uid <= p.version <= c'.revision
    {
      assert o.key in c.models ==> c.models[o.key] in w.seen;
    }
    forall p, q | p in w'.seen && q in w'.seen && p.version == q.version
      ensures p == q
    {
      assert p in w.seen ==> p.version <= c.revision;
      assert q in w.seen ==> q.version <= c.revision;
    }
    forall p, k | p in w'.seen && k in c'.models && p.uid == c'.models[k].uid
      ensures p.key == k && p.version <= c'.models[k].version
    {
      assert p in w.seen ==> p.version <= c.revision;
      assert o.key in c.models ==> c.models[o.key] in w.seen && c.models[o.key].uid == o.uid;
      assert k != o.key ==> c.models[k] in w.seen && c.models[k].uid <= c.revision;
    }
  }

  lemma VersionsKept(w: World, w': World)
    requires Versions(w) && w.server.revision <= w'.server.revision && w'.seen == w.seen + w'.server.models.Values
    requires w'.server.models == w.server.models || exists k :: Drops(w.server, w'.server, k)
    ensures Versions(w') && w'.seen == w.seen
  {
    assert forall p :: p in w'.server.models.Values ==> p in w.seen;
  }

  lemma VersionsStep(w: World, w': World)
    requires Versions(w) && Evolves(w.server, w'.server) && w'.seen == w.seen + w'.server.models.Values
    ensures Versions(w') && w.seen <= w'.seen
  {
    if o :| Puts(w.server, w'.server, o) {
      VersionsPut(w, w', o);
    } else {
      VersionsKept(w, w');
    }
  }

  /** Status writes, deletions and child steps introduce no spec. */
  lemma KeptSpec(prog: Program, w: World, a: Action, o: ModelService)
    requires Honest(prog) && Consistent(prog, w) && Puts(w.server, Effect(prog, w, a), o)
    requires !a.Commit? && !a.Create? && !a.ExternalUpdate? && !a.ExternalCreate?
    ensures o.key in w.server.models && o.spec == w.server.models[o.key].spec && w.server.models[o.key] in w.seen
  {
    var c, c' := w.server, Effect(prog, w, a);
    assert o.key in c'.models && c'.models[o.key] == o;
    assert forall k :: k in c.models ==> c.models[k] in w.seen;
    match a
    case WorkerStatus(_, _, _, _) => StatusKeepsSpec(prog, w, a, o);
    case ExternalDelete(key) => DeleteEvolves(c, key, Preconditions(None, None));
    case _ => ChildActions(prog, w, a);
  }

  lemma StatusKeepsSpec(prog: Program, w: World, a: Action, o: ModelService)
    requires Honest(prog) && Consistent(prog, w) && a.WorkerStatus? && Puts(w.server, Effect(prog, w, a), o)
    ensures o.key in w.server.models && o.spec == w.server.models[o.key].spec
  {
    assert forall k :: k in w.server.models ==> w.server.models[k] in w.seen;
    assert Effect(prog, w, a).models[o.key] == o;
    if a.worker in w.workers {
      StatusEvolves(prog, w, w.workers[a.worker], a.workload, a.report, a.now);
    }
  }

  /** An action creates at most one version. */
  lemma NewVersion(prog: Program, w: World, a: Action)
    requires Honest(prog) && Consistent(prog, w)
    ensures var w' := Act(prog, w, a);
            w'.seen == w.seen || exists o :: Puts(w.server, Effect(prog, w, a), o) && w'.seen == w.seen + {o}
  {
    EffectEvolves(prog, w, a);
    var w' := Act(prog, w, a);
    if o :| Puts(w.server, w'.server, o) {
      VersionsPut(w, w', o);
    } else {
      VersionsKept(w, w');
    }
  }

  lemma SnapshotsStep(prog: Program, w: World, a: Action)
    requires Honest(prog) && Snapshots(prog, w)
    ensures Snapshots(prog, Act(prog, w, a))
  {
    var w' := Act(prog, w, a);
    assert w.seen <= w'.seen;
    forall id | id in w'.clients
      ensures var p := w'.clients[id];
              && p.inspected in w'.seen && p.inspected.key == Key(prog.namespace, p.name)
              && p.decision == prog.decide(p.name, p.request, Some(p.inspected)) && !p.decision.Answer?
    {
      if a.Begin? && id == a.client && a.read.Some? {
        assert id in w.clients || w'.clients[id].inspected == a.read.value;
      }
    }
  }

  lemma ConsistentStep(prog: Program, w: World, a: Action)
    requires Honest(prog) && Consistent(prog, w)
    ensures Consistent(prog, Act(prog, w, a))
  {
    EffectEvolves(prog, w, a);
    VersionsStep(w, Act(prog, w, a));
    SnapshotsStep(prog, w, a);
  }

  lemma {:induction false} ConsistentRun(prog: Program, w: World, actions: seq<Action>)
    requires Honest(prog) && Consistent(prog, w)
    ensures Consistent(prog, Run(prog, w, actions))
  {
    if actions == [] {
    } else {
      ConsistentRun(prog, w, actions[..|actions| - 1]);
      ConsistentStep(prog, Run(prog, w, actions[..|actions| - 1]), actions[|actions| - 1]);
    }
  }
}
