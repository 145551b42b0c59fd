/** The two views of the platform agree: a reconcile, as a function of the
    cluster, is a run of the protocol's actions, and so is a create request. */
module ReconcileRuns {
  import opened Strings
  import opened ModelServices
  import opened Statuses
  import opened Children
  import opened Clusters
  import opened Reconciler
  import opened Handlers
  import opened Protocol
  import opened Serializability

  lemma CreateIsCreation(lib: Library, cfg: Config, r: CreateRequest, schemaOk: bool, c: Cluster)
    ensures CreateEffect(Platform(lib, cfg), r, schemaOk, c) == Creation(lib, cfg, r, schemaOk, c).0
  {
  }

  /** What the status step finds in the child of the backend. */
  function WorkloadOf(m: ModelService, c: Cluster): Workload {
    var k := ChildKey(DeploymentKind, m.key);
    if k in c.children then c.children[k].workload else NO_WORKLOAD
  }

  function ReportOf(m: ModelService, c: Cluster): Json {
    var k := ChildKey(InferenceServiceKind, m.key);
    if k in c.children then c.children[k].report else Null
  }

  /** The protocol's status write, given what the child reports, is the one that
      ends a reconcile. */
  lemma StatusIsPublished(lib: Library, cfg: Config, m: ModelService, now: int, c: Cluster)
    requires ReadingFor(lib, m, c.children).Found?
    ensures StatusEffect(Platform(lib, cfg), m, WorkloadOf(m, c), ReportOf(m, c), now, c)
            == PublishStatus(lib, m, now, c).0
  {
  }

  // ---------------------------------------------------------------------
  // A reconcile as a run
  // ---------------------------------------------------------------------

  /** The steps that a run over `kinds` takes: all of them, or up to the first
      that fails. */
  function StepsTaken(p: Parent, plan: Plan, kinds: seq<Kind>, c: Cluster): seq<Kind> {
    if kinds == [] then []
    else
      var (c1, o) := Step(p, kinds[0], plan(kinds[0]), c);
      [kinds[0]] + if o.Failed? then [] else StepsTaken(p, plan, kinds[1..], c1)
  }

  function StepActions(id: nat, kinds: seq<Kind>): seq<Action> {
    if kinds == [] then [] else [WorkerStep(id, kinds[0])] + StepActions(id, kinds[1..])
  }

  /** The actions of a reconcile that stops after at most `n` steps. */
  function ReconcileActions(lib: Library, id: nat, m: ModelService, n: nat, now: int, c: Cluster): seq<Action> {
    var p, kinds := ParentOf(m), KindsFor(m.spec);
    var first := if n <= |kinds| then kinds[..n] else kinds;
    var (c', o) := RunChildren(p, PlanFor(lib, p), first, c);
    [WorkerBegin(id, m)]
    + StepActions(id, StepsTaken(p, PlanFor(lib, p), first, c))
    + if n > |kinds| && o.Done? && ReadingFor(lib, m, c'.children).Found?
      then [WorkerStatus(id, WorkloadOf(m, c'), ReportOf(m, c'), now)] else []
  }

  lemma RunCons(prog: Program, w: World, a: Action, rest: seq<Action>)
    ensures Run(prog, w, [a] + rest) == Run(prog, Act(prog, w, a), rest)
  {
    RunSplit(prog, w, [a] + rest, 1);
    assert ([a] + rest)[..1] == [a] && ([a] + rest)[1..] == rest;
    assert [a][..0] == [];
  }

  lemma RunSnoc(prog: Program, w: World, actions: seq<Action>, last: Action)
    ensures Run(prog, w, actions + [last]).server == Effect(prog, Run(prog, w, actions), last)
  {
    assert (actions + [last])[..|actions|] == actions;
  }

  lemma StatusActs(prog: Program, w: World, id: nat, workload: Workload, report: Json, now: int)
    requires id in w.workers
    ensures Effect(prog, w, WorkerStatus(id, workload, report, now))
            == StatusEffect(prog, w.workers[id], workload, report, now, w.server)
  {
  }

  lemma {:induction false} StepsRun(prog: Program, w: World, id: nat, plan: Plan, kinds: seq<Kind>)
    requires id in w.workers && forall kind :: kind in kinds ==> kind in KindsFor(w.workers[id].spec)
    requires forall kind :: plan(kind) == prog.intent(ParentOf(w.workers[id]), kind)
    ensures var p := ParentOf(w.workers[id]);
            var w' := Run(prog, w, StepActions(id, StepsTaken(p, plan, kinds, w.server)));
            w'.server == RunChildren(p, plan, kinds, w.server).0 && w'.workers == w.workers
    decreases |kinds|
  {
    if kinds == [] {
    } else {
      var p, a := ParentOf(w.workers[id]), WorkerStep(id, kinds[0]);
      assert kinds[0] in kinds;
      var w1 := Act(prog, w, a);
      var (c1, o) := Step(p, kinds[0], plan(kinds[0]), w.server);
      assert w1.server == c1 && w1.workers == w.workers;
      StepActionsCons(id, kinds[0], if o.Failed? then [] else StepsTaken(p, plan, kinds[1..], c1));
      if o.Failed? {
        RunCons(prog, w, a, []);
      } else {
        RunCons(prog, w, a, StepActions(id, StepsTaken(p, plan, kinds[1..], c1)));
        StepsRun(prog, w1, id, plan, kinds[1..]);
      }
    }
  }

  lemma StepActionsCons(id: nat, kind: Kind, kinds: seq<Kind>)
    ensures StepActions(id, [kind] + kinds) == [WorkerStep(id, kind)] + StepActions(id, kinds)
  {
    assert ([kind] + kinds)[1..] == kinds;
  }

  lemma BeginActs(prog: Program, w: World, id: nat, m: ModelService)
    requires m in w.seen
    ensures var w' := Act(prog, w, WorkerBegin(id, m));
            w'.server == w.server && id in w'.workers && w'.workers[id] == m
  {
  }

  /** Begin, child steps: the children end up as the reconcile leaves them. */
  lemma ChildrenRun(prog: Program, w: World, id: nat, m: ModelService, plan: Plan, kinds: seq<Kind>)
    requires m in w.seen && forall kind :: kind in kinds ==> kind in KindsFor(m.spec)
    requires forall kind :: plan(kind) == prog.intent(ParentOf(m), kind)
    ensures var steps := StepActions(id, StepsTaken(ParentOf(m), plan, kinds, w.server));
            var w' := Run(prog, w, [WorkerBegin(id, m)] + steps);
            && w'.server == RunChildren(ParentOf(m), plan, kinds, w.server).0
            && id in w'.workers && w'.workers[id] == m
  {
    RunCons(prog, w, WorkerBegin(id, m), StepActions(id, StepsTaken(ParentOf(m), plan, kinds, w.server)));
    BeginActs(prog, w, id, m);
    StepsRun(prog, Act(prog, w, WorkerBegin(id, m)), id, plan, kinds);
  }

  /** A reconcile, interrupted anywhere or not at all, has the effect on the
      server of its begin, the child steps that ran, and its status write. */
  lemma ReconcileIsRun(lib: Library, cfg: Config, w: World, id: nat, key: Key, n: nat, now: int)
    requires key in w.server.models && w.server.models[key] in w.seen
    ensures Run(Platform(lib, cfg), w, ReconcileActions(lib, id, w.server.models[key], n, now, w.server)).server
            == Partial(lib, key, now, n, w.server).0
  {
    var m, prog := w.server.models[key], Platform(lib, cfg);
    var p, kinds := ParentOf(m), KindsFor(m.spec);
    var first := if n <= |kinds| then kinds[..n] else kinds;
    var (c', o) := RunChildren(p, PlanFor(lib, p), first, w.server);
    var begun := [WorkerBegin(id, m)] + StepActions(id, StepsTaken(p, PlanFor(lib, p), first, w.server));
    ChildrenRun(prog, w, id, m, PlanFor(lib, p), first);
    if n > |kinds| && o.Done? && ReadingFor(lib, m, c'.children).Found? {
      RunSnoc(prog, w, begun, WorkerStatus(id, WorkloadOf(m, c'), ReportOf(m, c'), now));
      StatusActs(prog, Run(prog, w, begun), id, WorkloadOf(m, c'), ReportOf(m, c'), now);
      StatusIsPublished(lib, cfg, m, now, c');
    } else {
      assert begun + [] == begun;
    }
  }
}
