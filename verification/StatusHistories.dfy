/** Whole-run truth of published statuses, for both backends and under any
    concurrency: a status that observes the current generation describes the
    current spec. */
module StatusHistories {
  import opened Strings
  import opened ModelServices
  import opened Conditions
  import opened Statuses
  import opened Clusters
  import opened Handlers
  import opened Protocol

  /** The program derives only coherent statuses. */
  ghost predicate Sound(prog: Program) {
    forall m, workload, report, now :: var s := prog.derive(m, workload, report, now);
      s.Some? && AtMostOneAvailable(m.status.conditions) ==> Coherent(m.spec.replicas, s.value)
  }

  lemma PlatformIsSound(lib: Library, cfg: Config)
    ensures Sound(Platform(lib, cfg))
  {
    var prog := Platform(lib, cfg);
    forall m, workload, report, now
      ensures var s := prog.derive(m, workload, report, now);
              s.Some? && AtMostOneAvailable(m.status.conditions) ==> Coherent(m.spec.replicas, s.value)
    {
      assert prog.derive(m, workload, report, now) == DerivedStatus(lib, m, workload, report, now);
      if AtMostOneAvailable(m.status.conditions) {
        StatusAgreement(lib, m, workload, report, now);
      }
    }
  }

  /** What every version of an object says about itself. */
  ghost predicate Truthful(o: ModelService) {
    && o.generation > 0 && o.status.observedGeneration <= o.generation
    && AtMostOneAvailable(o.status.conditions)
    && (o.status != NO_STATUS ==>
          && (o.status.phase == READY <==> IsAvailable(o.status.conditions, True))
          && (o.status.phase != READY <==> IsAvailable(o.status.conditions, False)))
    && (o.status.observedGeneration == o.generation ==> Coherent(o.spec.replicas, o.status))
  }

  ghost predicate AllTruthful(w: World) {
    forall o :: o in w.seen ==> Truthful(o)
  }

  /** A written status is the one derived from the version it replaces. */
  lemma StatusOutcome(prog: Program, w: World, m: ModelService, workload: Workload, report: Json, now: int,
                      o: ModelService)
    requires Versions(w) && m in w.seen && Puts(w.server, StatusEffect(prog, m, workload, report, now, w.server), o)
    ensures var s := prog.derive(m, workload, report, now);
            s.Some? && o == m.(version := o.version, status := s.value)
  {
    var c, c' := w.server, StatusEffect(prog, m, workload, report, now, w.server);
    assert c'.models[o.key] == o && c' != c;
    assert forall k :: k in c.models ==> c.models[k] in w.seen;
    assert m.key in c.models && SameVersion(c.models[m.key], m);
    SnapshotCurrent(w, m);
  }

  /** No other write touches the status of an object. */
  lemma UpdateKeepsStatus(c: Cluster, submitted: ModelService, spec: Spec, schemaOk: bool, k: Key)
    requires k in c.models
    ensures var c' := UpdateModel(c, submitted, spec, schemaOk).0;
            k in c'.models && c'.models[k].status == c.models[k].status
  {
  }

  lemma FinishKeepsStatus(d: Decision, schemaOk: bool, c: Cluster, k: Key)
    requires k in c.models && k in Finish(d, schemaOk, c).0.models
    ensures Finish(d, schemaOk, c).0.models[k].status == c.models[k].status
  {
    match d
    case Answer(_) =>
    case WriteBack(candidate) => UpdateKeepsStatus(c, candidate, Stored(candidate.spec), schemaOk, k);
    case RemoveObject(_) =>
  }

  lemma OthersKeepStatus(prog: Program, w: World, a: Action, k: Key)
    requires !a.WorkerStatus? && k in w.server.models && k in Effect(prog, w, a).models
    ensures Effect(prog, w, a).models[k].status == w.server.models[k].status
  {
    var c := w.server;
    match a
    case Commit(id, schemaOk, transport) =>
      if id in w.clients && !transport.RequestLost? { FinishKeepsStatus(w.clients[id].decision, schemaOk, c, k); }
    case ExternalUpdate(key, labels, annotations, spec, schemaOk) =>
      if key in c.models {
        UpdateKeepsStatus(c, c.models[key].(labels := labels, annotations := annotations), WithBackend(spec),
                          schemaOk, k);
      }
    case Create(_, _) =>
    case ExternalCreate(_, _, _, _, _) =>
    case ExternalDelete(_) =>
    case _ => ChildActions(prog, w, a);
  }

  /** A spec write leaves the observed generation behind. */
  lemma SuccessorTruthful(before: ModelService, after: ModelService)
    requires Truthful(before) && after.status == before.status && after.generation >= before.generation
    requires after.generation == before.generation ==> after.spec == before.spec
    ensures Truthful(after)
  {
  }

  /** Every version that an action creates is truthful. */
  lemma PutIsTruthful(prog: Program, w: World, a: Action, o: ModelService)
    requires Honest(prog) && Sound(prog) && Consistent(prog, w) && AllTruthful(w)
    ensures Puts(w.server, Effect(prog, w, a), o) ==> Truthful(o)
  {
    if Puts(w.server, Effect(prog, w, a), o) {
      var c := w.server;
      assert Effect(prog, w, a).models[o.key] == o;
      if a.WorkerStatus? {
        if a.worker in w.workers {
          StatusOutcome(prog, w, w.workers[a.worker], a.workload, a.report, a.now, o);
        }
      } else if o.key in c.models {
        assert c.models[o.key] in w.seen;
        OthersKeepStatus(prog, w, a, o.key);
        SuccessorTruthful(c.models[o.key], o);
      }
    }
  }

  lemma TruthfulStep(prog: Program, w: World, a: Action)
    requires Honest(prog) && Sound(prog) && Consistent(prog, w) && AllTruthful(w)
    ensures AllTruthful(Act(prog, w, a))
  {
    NewVersion(prog, w, a);
    if o :| Puts(w.server, Effect(prog, w, a), o) && Act(prog, w, a).seen == w.seen + {o} {
      PutIsTruthful(prog, w, a, o);
      assert forall p :: p in Act(prog, w, a).seen ==> p in w.seen || p == o;
    }
  }

  lemma {:induction false} TruthfulRun(prog: Program, w: World, actions: seq<Action>)
    requires Honest(prog) && Sound(prog) && Consistent(prog, w) && AllTruthful(w)
    ensures AllTruthful(Run(prog, w, actions))
  {
    if actions == [] {
    } else {
      var n := |actions| - 1;
      TruthfulRun(prog, w, actions[..n]);
      ConsistentRun(prog, w, actions[..n]);
      TruthfulStep(prog, Run(prog, w, actions[..n]), actions[n]);
    }
  }

  /** In every run from the empty server, every version of every object has
      phase Ready exactly when Available is True, and one whose status observes
      its generation reports Ready only with as many replicas as its own spec
      asks for. */
  lemma ObservedStatusIsTruthful(lib: Library, cfg: Config, actions: seq<Action>, o: ModelService)
    requires o in Run(Platform(lib, cfg), EMPTY_WORLD, actions).seen
    ensures Truthful(o)
  {
    PlatformIsHonest(lib, cfg);
    PlatformIsSound(lib, cfg);
    TruthfulRun(Platform(lib, cfg), EMPTY_WORLD, actions);
  }
}
