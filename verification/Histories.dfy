/** What holds along every run: generations, backends, and the children that a
    ModelService can have. */
module Histories {
  import opened Strings
  import opened ModelServices
  import opened Statuses
  import opened Children
  import opened Clusters
  import opened Transforms
  import opened Handlers
  import opened Protocol
  import opened Serializability

  // ---------------------------------------------------------------------
  // Observed generation
  // ---------------------------------------------------------------------

  /** Along the versions of one incarnation the generation and the observed
      generation never decrease, and the latter never exceeds the former. */
  ghost predicate Generations(w: World) {
    && (forall o :: o in w.seen ==> o.status.observedGeneration <= o.generation)
    && (forall o, p :: o in w.seen && p in w.seen && o.uid == p.uid && o.version <= p.version ==>
          o.generation <= p.generation && o.status.observedGeneration <= p.status.observedGeneration)
  }

  lemma GenerationsPut(w: World, w': World, o: ModelService)
    requires Versions(w) && Generations(w) && Puts(w.server, w'.server, o) && w'.seen == w.seen + {o}
    ensures Generations(w')
  {
    var c := w.server;
    if o.key in c.models {
      var before := c.models[o.key];
      assert before in w.seen;
      assert before.generation <= o.generation && before.status.observedGeneration <= o.status.observedGeneration;
      forall p | p in w.seen && p.uid == o.uid
        ensures p.generation <= o.generation && p.status.observedGeneration <= o.status.observedGeneration
      {
        assert p.uid == c.models[o.key].uid;
        assert p.version <= before.version;
      }
    } else {
      assert forall p :: p in w.seen ==> p.uid != o.uid;
    }
    assert forall p :: p in w.seen ==> p.version < o.version;
  }

  lemma GenerationsStep(prog: Program, w: World, a: Action)
    requires Honest(prog) && Consistent(prog, w) && Generations(w)
    ensures Generations(Act(prog, w, a))
  {
    EffectEvolves(prog, w, a);
    var w' := Act(prog, w, a);
    if o :| Puts(w.server, w'.server, o) {
      VersionsPut(w, w', o);
      GenerationsPut(w, w', o);
    } else {
      VersionsKept(w, w');
    }
  }

  lemma {:induction false} GenerationsRun(prog: Program, w: World, actions: seq<Action>)
    requires Honest(prog) && Consistent(prog, w) && Generations(w)
    ensures Generations(Run(prog, w, actions))
  {
    if actions == [] {
    } else {
      var n := |actions| - 1;
      GenerationsRun(prog, w, actions[..n]);
      ConsistentRun(prog, w, actions[..n]);
      GenerationsStep(prog, Run(prog, w, actions[..n]), actions[n]);
    }
  }

  /** At any two moments of a run, for the same incarnation: the observed
      generation does not decrease and does not exceed the generation, despite
      concurrent spec writers, stale snapshots and lost messages. */
  lemma ObservedGenerationMonotone(prog: Program, w: World, actions: seq<Action>, i: nat, k: Key)
    requires Honest(prog) && Consistent(prog, w) && Generations(w) && i <= |actions|
    requires var early, late := Run(prog, w, actions[..i]).server, Run(prog, w, actions).server;
             k in early.models && k in late.models && early.models[k].uid == late.models[k].uid
    ensures var early, late := Run(prog, w, actions[..i]).server.models[k], Run(prog, w, actions).server.models[k];
            && early.status.observedGeneration <= late.status.observedGeneration <= late.generation
            && early.generation <= late.generation
  {
    ConsistentRun(prog, w, actions[..i]);
    ConsistentRun(prog, w, actions);
    GenerationsRun(prog, w, actions);
    RunSplit(prog, w, actions, i);
    SeenGrows(prog, Run(prog, w, actions[..i]), actions[i..]);
    var early, late := Run(prog, w, actions[..i]).server.models[k], Run(prog, w, actions);
    assert early in late.seen && late.server.models[k] in late.seen;
    assert early.version <= late.server.models[k].version;
  }

  /** At the instant a status write takes effect, what it observed is the
      generation the object has at that instant. */
  lemma StatusWriteIsCurrent(prog: Program, w: World, id: nat, workload: Workload, report: Json, now: int, k: Key)
    requires Honest(prog) && Consistent(prog, w) && k in w.server.models
    requires var after := Effect(prog, w, WorkerStatus(id, workload, report, now));
             k in after.models && after.models[k] != w.server.models[k]
    ensures var m, m' := w.server.models[k], Effect(prog, w, WorkerStatus(id, workload, report, now)).models[k];
            && m'.status.observedGeneration == m'.generation == m.generation
            && m'.spec == m.spec && id in w.workers && w.workers[id] == m
  {
    StatusEvolves(prog, w, w.workers[id], workload, report, now);
  }

  // ---------------------------------------------------------------------
  // Backend immutability
  // ---------------------------------------------------------------------

  ghost predicate Backends(w: World) {
    && (forall o :: o in w.seen ==> o.spec.backend != "")
    && (forall o, p :: o in w.seen && p in w.seen && o.uid == p.uid ==> o.spec.backend == p.spec.backend)
  }

  lemma BackendsPut(w: World, w': World, o: ModelService)
    requires Versions(w) && Backends(w) && Puts(w.server, w'.server, o) && w'.seen == w.seen + {o}
    ensures Backends(w')
  {
    if o.key in w.server.models {
      assert w.server.models[o.key] in w.seen;
    } else {
      assert forall p :: p in w.seen ==> p.uid != o.uid;
    }
  }

  lemma BackendsStep(prog: Program, w: World, a: Action)
    requires Honest(prog) && Consistent(prog, w) && Backends(w)
    ensures Backends(Act(prog, w, a))
  {
    EffectEvolves(prog, w, a);
    var w' := Act(prog, w, a);
    if o :| Puts(w.server, w'.server, o) {
      VersionsPut(w, w', o);
      BackendsPut(w, w', o);
    } else {
      VersionsKept(w, w');
    }
  }

  /** Where every object names its backend, the backend of an incarnation never
      changes along any run, external writers included. */
  lemma {:induction false} BackendImmutable(prog: Program, w: World, actions: seq<Action>)
    requires Honest(prog) && Consistent(prog, w) && Backends(w)
    ensures Backends(Run(prog, w, actions))
  {
    if actions == [] {
    } else {
      var n := |actions| - 1;
      BackendImmutable(prog, w, actions[..n]);
      ConsistentRun(prog, w, actions[..n]);
      BackendsStep(prog, Run(prog, w, actions[..n]), actions[n]);
    }
  }

  /** API actions keep the normalized backend even of an object that does not
      name one. */
  lemma ApiKeepsBackend(prog: Program, w: World, a: Action, k: Key)
    requires Honest(prog) && Consistent(prog, w) && ApiAction(a)
    requires k in w.server.models && k in Effect(prog, w, a).models
    ensures NormalizedBackend(Effect(prog, w, a).models[k].spec.backend)
            == NormalizedBackend(w.server.models[k].spec.backend)
  {
    if a.Commit? && a.client in w.clients && !a.transport.RequestLost? {
      CommitKeepsBackend(prog, w, a.client, a.schemaOk, k);
    }
  }

  lemma CommitKeepsBackend(prog: Program, w: World, id: nat, schemaOk: bool, k: Key)
    requires Honest(prog) && Consistent(prog, w) && id in w.clients
    requires k in w.server.models && k in Finish(w.clients[id].decision, schemaOk, w.server).0.models
    ensures NormalizedBackend(Finish(w.clients[id].decision, schemaOk, w.server).0.models[k].spec.backend)
            == NormalizedBackend(w.server.models[k].spec.backend)
  {
    var p := w.clients[id];
    assert HonestDecision(p.request, p.inspected, p.decision);
    if Current(w.server, p.inspected) {
      SnapshotCurrent(w, p.inspected);
    }
    match p.decision
    case WriteBack(candidate) => UpdateKeepsBackend(w.server, candidate, Stored(candidate.spec), schemaOk, k);
    case RemoveObject(_) =>
  }

  lemma UpdateKeepsBackend(c: Cluster, submitted: ModelService, spec: Spec, schemaOk: bool, k: Key)
    requires k in c.models
    requires submitted.key in c.models && SameVersion(c.models[submitted.key], submitted)
             && schemaOk && Admissible(spec) && BackendRule(c.models[submitted.key].spec, spec) ==>
               NormalizedBackend(spec.backend) == NormalizedBackend(c.models[submitted.key].spec.backend)
    ensures var c' := UpdateModel(c, submitted, spec, schemaOk).0;
            && k in c'.models
            && NormalizedBackend(c'.models[k].spec.backend) == NormalizedBackend(c.models[k].spec.backend)
  {
  }

  /** The external writes that change a normalized backend: the object names no
      backend and the writer asks for KServe, with what the schema then demands. */
  predicate ChangesBackend(c: Cluster, a: Action) {
    && a.ExternalUpdate? && a.key in c.models && c.models[a.key].spec.backend == ""
    && a.schemaOk && a.spec.backend == KSERVE && a.spec.predictor.Some?
  }

  /** An external update changes the normalized backend exactly then. */
  lemma ExternalBackendChange(prog: Program, w: World, a: Action)
    requires Versions(w) && a.ExternalUpdate? && a.key in w.server.models
    ensures var before, after := w.server.models, Effect(prog, w, a).models;
            a.key in after
            && (NormalizedBackend(after[a.key].spec.backend) != NormalizedBackend(before[a.key].spec.backend)
                <==> ChangesBackend(w.server, a))
  {
    assert w.server.models[a.key] in w.seen;
  }

  /** One such write: an object that names no backend becomes a KServe one. */
  lemma UnnamedBackendBecomesKServe(prog: Program)
    ensures var key := Key("models", "iris");
            var bare := Spec("", "iris:1", 1, 8080, NO_RESOURCES, None, None, None, None, None, None, None, None);
            var m := ModelService(key, 1, 1, 1, map[], map[], bare, NO_STATUS);
            var w := World(Cluster(map[key := m], map[], 1), {m}, map[], map[]);
            var predictor := Predictor(ModelFormat("sklearn", "1"), "kserve-sklearnserver", "s3://models/iris",
                                       "kserve-model-reader");
            var a := ExternalUpdate(key, map[], map[], bare.(backend := KSERVE, predictor := Some(predictor)), true);
            Versions(w) && key in Effect(prog, w, a).models && UsesKServe(Effect(prog, w, a).models[key].spec)
            && !UsesKServe(bare)
  {
  }

  ghost predicate NormalBackends(w: World) {
    forall o, p :: o in w.seen && p in w.seen && o.uid == p.uid ==>
      NormalizedBackend(o.spec.backend) == NormalizedBackend(p.spec.backend)
  }

  ghost predicate NoBackendChange(prog: Program, w: World, actions: seq<Action>) {
    forall n :: 0 <= n < |actions| ==> !ChangesBackend(Run(prog, w, actions[..n]).server, actions[n])
  }

  /** Any other action keeps every normalized backend. */
  lemma NormalizedBackendKept(prog: Program, w: World, a: Action, k: Key)
    requires Honest(prog) && Consistent(prog, w) && !ChangesBackend(w.server, a)
    requires k in w.server.models && k in Effect(prog, w, a).models
    ensures NormalizedBackend(Effect(prog, w, a).models[k].spec.backend)
            == NormalizedBackend(w.server.models[k].spec.backend)
  {
    if a.ExternalUpdate? {
      ExternalUpdateKeeps(prog, w, a, k);
    } else if a.Commit? || a.Create? {
      ApiKeepsBackend(prog, w, a, k);
    } else {
      RestKeepsSpec(prog, w, a, k);
    }
  }

  lemma RestKeepsSpec(prog: Program, w: World, a: Action, k: Key)
    requires !a.ExternalUpdate? && !a.Commit? && !a.Create?
    requires k in w.server.models && k in Effect(prog, w, a).models
    ensures Effect(prog, w, a).models[k].spec == w.server.models[k].spec
  {
    if !a.WorkerStatus? && !a.ExternalCreate? && !a.ExternalDelete? {
      ChildActions(prog, w, a);
    }
  }

  lemma ExternalUpdateKeeps(prog: Program, w: World, a: Action, k: Key)
    requires Versions(w) && a.ExternalUpdate? && !ChangesBackend(w.server, a)
    requires k in w.server.models && k in Effect(prog, w, a).models
    ensures NormalizedBackend(Effect(prog, w, a).models[k].spec.backend)
            == NormalizedBackend(w.server.models[k].spec.backend)
  {
    var c := w.server;
    if a.key in c.models {
      var submitted := c.models[a.key].(labels := a.labels, annotations := a.annotations);
      UpdateKeepsBackend(c, submitted, WithBackend(a.spec), a.schemaOk, k);
    }
  }

  lemma NormalBackendsPut(w: World, w': World, o: ModelService)
    requires Versions(w) && NormalBackends(w) && Puts(w.server, w'.server, o) && w'.seen == w.seen + {o}
    requires o.key in w.server.models ==>
               NormalizedBackend(o.spec.backend) == NormalizedBackend(w.server.models[o.key].spec.backend)
    ensures NormalBackends(w')
  {
    if o.key in w.server.models {
      assert w.server.models[o.key] in w.seen;
    } else {
      assert forall p :: p in w.seen ==> p.uid != o.uid;
    }
  }

  lemma NormalBackendsStep(prog: Program, w: World, a: Action)
    requires Honest(prog) && Consistent(prog, w) && NormalBackends(w) && !ChangesBackend(w.server, a)
    ensures NormalBackends(Act(prog, w, a))
  {
    NewVersion(prog, w, a);
    if o :| Puts(w.server, Effect(prog, w, a), o) && Act(prog, w, a).seen == w.seen + {o} {
      assert Effect(prog, w, a).models[o.key] == o;
      if o.key in w.server.models {
        NormalizedBackendKept(prog, w, a, o.key);
      }
      NormalBackendsPut(w, Act(prog, w, a), o);
    }
  }

  /** From any state, objects that name no backend included, the normalized
      backend of an incarnation never changes along a run in which no external
      write is one of those that change it. */
  lemma {:induction false} NormalizedBackendImmutable(prog: Program, w: World, actions: seq<Action>)
    requires Honest(prog) && Consistent(prog, w) && NormalBackends(w) && NoBackendChange(prog, w, actions)
    ensures NormalBackends(Run(prog, w, actions))
  {
    if actions == [] {
    } else {
      var n := |actions| - 1;
      assert forall i :: 0 <= i < n ==> actions[..n][..i] == actions[..i];
      NormalizedBackendImmutable(prog, w, actions[..n]);
      ConsistentRun(prog, w, actions[..n]);
      NormalBackendsStep(prog, Run(prog, w, actions[..n]), actions[n]);
    }
  }

  /** No run from the empty server contains such a write. */
  lemma NamedBackendsNeverChange(prog: Program, actions: seq<Action>)
    requires Honest(prog)
    ensures NoBackendChange(prog, EMPTY_WORLD, actions)
  {
    forall n | 0 <= n < |actions|
      ensures !ChangesBackend(Run(prog, EMPTY_WORLD, actions[..n]).server, actions[n])
    {
      BackendImmutable(prog, EMPTY_WORLD, actions[..n]);
      ConsistentRun(prog, EMPTY_WORLD, actions[..n]);
    }
  }

  // ---------------------------------------------------------------------
  // One family of children
  // ---------------------------------------------------------------------

  /** Some version of incarnation `uid` uses the backend that this child belongs to. */
  ghost predicate Explains(seen: set<ModelService>, k: ChildKey, uid: nat) {
    exists o :: o in seen && o.uid == uid && o.key == k.key && (UsesKServe(o.spec) <==> k.kind.InferenceServiceKind?)
  }

  ghost predicate Families(w: World) {
    forall k :: k in w.server.children && w.server.children[k].owner.Some? ==>
      Explains(w.seen, k, w.server.children[k].owner.value.uid)
  }

  /** A step gives the child it settles an owner whose backend calls for it. */
  lemma StepFamilies(m: ModelService, kind: Kind, intent: Intent, c: Cluster, seen: set<ModelService>, k: ChildKey)
    requires m in seen && kind in KindsFor(m.spec)
    requires forall j :: j in c.children && c.children[j].owner.Some? ==>
               Explains(seen, j, c.children[j].owner.value.uid)
    requires k in Step(ParentOf(m), kind, intent, c).0.children
    requires Step(ParentOf(m), kind, intent, c).0.children[k].owner.Some?
    ensures Explains(seen, k, Step(ParentOf(m), kind, intent, c).0.children[k].owner.value.uid)
  {
    var c' := Step(ParentOf(m), kind, intent, c).0;
    assert UsesKServe(m.spec) <==> kind.InferenceServiceKind?;
    if k == ChildKey(kind, m.key) && !(k in c.children && c'.children[k] == c.children[k]) {
      assert c'.children[k].owner == Some(RefTo(ParentOf(m)));
      assert Explains(seen, k, m.uid);
    } else {
      assert k in c.children && c'.children[k].owner == c.children[k].owner;
    }
  }

  lemma FamiliesMonotone(c: Cluster, seen: set<ModelService>, more: set<ModelService>)
    requires seen <= more
    requires forall k :: k in c.children && c.children[k].owner.Some? ==>
               Explains(seen, k, c.children[k].owner.value.uid)
    ensures forall k :: k in c.children && c.children[k].owner.Some? ==>
              Explains(more, k, c.children[k].owner.value.uid)
  {
    forall k | k in c.children && c.children[k].owner.Some?
      ensures Explains(more, k, c.children[k].owner.value.uid)
    {
      var uid := c.children[k].owner.value.uid;
      var o :| o in seen && o.uid == uid && o.key == k.key && (UsesKServe(o.spec) <==> k.kind.InferenceServiceKind?);
      assert o in more;
    }
  }

  /** Only child steps, reports and collection touch children. */
  lemma ModelActionsKeepChildren(prog: Program, w: World, a: Action)
    requires !a.WorkerStep? && !a.Report? && !a.Collect?
    ensures Effect(prog, w, a).children == w.server.children
  {
  }

  lemma FamiliesStep(prog: Program, w: World, a: Action)
    requires Snapshots(prog, w) && Families(w)
    ensures Families(Act(prog, w, a))
  {
    var c, c' := w.server, Effect(prog, w, a);
    forall k | k in c'.children && c'.children[k].owner.Some?
      ensures Explains(w.seen, k, c'.children[k].owner.value.uid)
    {
      if a.WorkerStep? && a.worker in w.workers && a.kind in KindsFor(w.workers[a.worker].spec) {
        var m := w.workers[a.worker];
        StepFamilies(m, a.kind, prog.intent(ParentOf(m), a.kind), c, w.seen, k);
      } else {
        if !a.WorkerStep? && !a.Report? && !a.Collect? { ModelActionsKeepChildren(prog, w, a); }
        assert k in c.children && c'.children[k].owner == c.children[k].owner;
      }
    }
    FamiliesMonotone(c', w.seen, w.seen + c'.models.Values);
  }

  lemma {:induction false} FamiliesRun(prog: Program, w: World, actions: seq<Action>)
    requires Honest(prog) && Consistent(prog, w) && Families(w)
    ensures Families(Run(prog, w, actions))
  {
    if actions == [] {
    } else {
      var n := |actions| - 1;
      FamiliesRun(prog, w, actions[..n]);
      ConsistentRun(prog, w, actions[..n]);
      FamiliesStep(prog, Run(prog, w, actions[..n]), actions[n]);
    }
  }

  /** In every run from the empty server, one incarnation never controls both
      an InferenceService and a child of the Deployment backend. */
  lemma OneFamily(lib: Library, cfg: Config, actions: seq<Action>, j: ChildKey, k: ChildKey)
    requires var c := Run(Platform(lib, cfg), EMPTY_WORLD, actions).server;
             && j in c.children && k in c.children && c.children[j].owner.Some? && c.children[k].owner.Some?
             && c.children[j].owner.value.uid == c.children[k].owner.value.uid
    ensures j.kind.InferenceServiceKind? <==> k.kind.InferenceServiceKind?
  {
    PlatformIsHonest(lib, cfg);
    NamedBackendsNeverChange(Platform(lib, cfg), actions);
    OneFamilyRun(Platform(lib, cfg), EMPTY_WORLD, actions, j, k);
  }

  /** The same from any state in which it holds, as long as no external write
      changes a backend. */
  lemma OneFamilyRun(prog: Program, w: World, actions: seq<Action>, j: ChildKey, k: ChildKey)
    requires Honest(prog) && Consistent(prog, w) && NormalBackends(w) && Families(w)
             && NoBackendChange(prog, w, actions)
    requires var c := Run(prog, w, actions).server;
             && j in c.children && k in c.children && c.children[j].owner.Some? && c.children[k].owner.Some?
             && c.children[j].owner.value.uid == c.children[k].owner.value.uid
    ensures j.kind.InferenceServiceKind? <==> k.kind.InferenceServiceKind?
  {
    NormalizedBackendImmutable(prog, w, actions);
    FamiliesRun(prog, w, actions);
    var w' := Run(prog, w, actions);
    var uid := w'.server.children[j].owner.value.uid;
    assert Explains(w'.seen, j, uid) && Explains(w'.seen, k, uid);
    var o :| o in w'.seen && o.uid == uid && o.key == j.key && (UsesKServe(o.spec) <==> j.kind.InferenceServiceKind?);
    var p :| p in w'.seen && p.uid == uid && p.key == k.key && (UsesKServe(p.spec) <==> k.kind.InferenceServiceKind?);
    assert NormalizedBackend(o.spec.backend) == NormalizedBackend(p.spec.backend);
  }
}
