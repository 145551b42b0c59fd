/** Every committed request behaves as one indivisible read-modify-write, and
    no request ever changes an object that is under GitOps control. */
module Serializability {
  import opened Strings
  import opened ModelServices
  import opened Statuses
  import opened Children
  import opened Clusters
  import opened Handlers
  import opened Protocol

  // ---------------------------------------------------------------------
  // The indivisible counterpart of a run
  // ---------------------------------------------------------------------

  /** Indivisible operations: nothing in them was read earlier, except the
      ModelService whose children a step settles. */
  datatype Atomic =
    | Nothing
    | Whole(name: string, request: Request, schemaOk: bool)
    | StatusOf(key: Key, workload: Workload, report: Json, now: int)
    | ChildOf(parent: Parent, kind: Kind)
    | Direct(action: Action)

  function AtomicEffect(prog: Program, at: Atomic, c: Cluster): Cluster {
    match at
    case Nothing => c
    case Whole(name, request, schemaOk) =>
      Finish(prog.decide(name, request, Get(c.models, Key(prog.namespace, name))), schemaOk, c).0
    case StatusOf(key, workload, report, now) =>
      if key in c.models then StatusEffect(prog, c.models[key], workload, report, now, c) else c
    case ChildOf(p, kind) => Step(p, kind, prog.intent(p, kind), c).0
    case Direct(a) => Effect(prog, World(c, {}, map[], map[]), a)
  }

  function RunAtomic(prog: Program, ops: seq<Atomic>, c: Cluster): Cluster {
    if ops == [] then c else AtomicEffect(prog, ops[|ops| - 1], RunAtomic(prog, ops[..|ops| - 1], c))
  }

  /** The object a snapshot was taken of still is what it was. */
  predicate Current(c: Cluster, m: ModelService) {
    m.key in c.models && c.models[m.key].version == m.version
  }

  /** Which indivisible operation an action amounts to. */
  function Serialize(w: World, a: Action): Atomic {
    match a
    case Begin(_, _, _, _) => Nothing
    case WorkerBegin(_, _) => Nothing
    case Commit(id, schemaOk, transport) =>
      if id in w.clients && !transport.RequestLost? && Current(w.server, w.clients[id].inspected)
      then Whole(w.clients[id].name, w.clients[id].request, schemaOk) else Nothing
    case WorkerStep(id, kind) =>
      if id in w.workers && kind in KindsFor(w.workers[id].spec)
      then ChildOf(ParentOf(w.workers[id]), kind) else Nothing
    case WorkerStatus(id, workload, report, now) =>
      if id in w.workers && Current(w.server, w.workers[id])
      then StatusOf(w.workers[id].key, workload, report, now) else Nothing
    case _ => Direct(a)
  }

  function Serial(prog: Program, w: World, actions: seq<Action>): (ops: seq<Atomic>)
    ensures |ops| == |actions|
  {
    if actions == [] then []
    else
      var n := |actions| - 1;
      Serial(prog, w, actions[..n]) + [Serialize(Run(prog, w, actions[..n]), actions[n])]
  }

  // ---------------------------------------------------------------------
  // Serializability
  // ---------------------------------------------------------------------

  /** A commit on the inspected version is the whole request done at once, with
      the same reply. Otherwise it changes nothing: it conflicts if another
      version is there, and if none is, a DELETE is confirmed. */
  lemma CommitIsAtomic(prog: Program, w: World, id: nat, schemaOk: bool)
    requires Honest(prog) && Consistent(prog, w) && id in w.clients
    ensures var p := w.clients[id];
            var (c', reply) := Finish(p.decision, schemaOk, w.server);
            if Current(w.server, p.inspected) then
              (c', reply) == Finish(prog.decide(p.name, p.request, Get(w.server.models, Key(prog.namespace, p.name))),
                                    schemaOk, w.server)
            else
              && c' == w.server
              && reply == if p.inspected.key in w.server.models then WriteConflict
                          else if p.request.Delete? then Deleted else Unavailable
  {
    var p := w.clients[id];
    assert HonestDecision(p.request, p.inspected, p.decision);
    if Current(w.server, p.inspected) {
      SnapshotCurrent(w, p.inspected);
      assert Get(w.server.models, Key(prog.namespace, p.name)) == Some(p.inspected);
    } else {
      assert p.inspected.version > 0;
    }
  }

  /** These actions read nothing earlier. */
  lemma DirectIsAtomic(prog: Program, w: World, a: Action)
    requires a.Create? || a.ExternalCreate? || a.ExternalUpdate? || a.ExternalDelete? || a.Report? || a.Collect?
    ensures Serialize(w, a) == Direct(a) && Effect(prog, World(w.server, {}, map[], map[]), a) == Effect(prog, w, a)
  {
  }

  lemma StatusIsAtomic(prog: Program, w: World, m: ModelService, workload: Workload, report: Json, now: int)
    requires Honest(prog) && Versions(w) && m in w.seen
    ensures StatusEffect(prog, m, workload, report, now, w.server)
            == if Current(w.server, m) then StatusEffect(prog, w.server.models[m.key], workload, report, now, w.server)
               else w.server
  {
    StatusEvolves(prog, w, m, workload, report, now);
    if Current(w.server, m) {
      SnapshotCurrent(w, m);
    }
  }

  lemma StepIsAtomic(prog: Program, w: World, a: Action)
    requires Honest(prog) && Consistent(prog, w)
    ensures AtomicEffect(prog, Serialize(w, a), w.server) == Effect(prog, w, a)
  {
    match a
    case Begin(_, _, _, _) =>
    case WorkerBegin(_, _) =>
    case WorkerStep(_, _) =>
    case Commit(_, _, _) => CommitStepIsAtomic(prog, w, a);
    case WorkerStatus(_, _, _, _) => StatusStepIsAtomic(prog, w, a);
    case _ => DirectIsAtomic(prog, w, a);
  }

  lemma CommitStepIsAtomic(prog: Program, w: World, a: Action)
    requires Honest(prog) && Consistent(prog, w) && a.Commit?
    ensures AtomicEffect(prog, Serialize(w, a), w.server) == Effect(prog, w, a)
  {
    if a.client in w.clients {
      CommitIsAtomic(prog, w, a.client, a.schemaOk);
    }
  }

  lemma StatusStepIsAtomic(prog: Program, w: World, a: Action)
    requires Honest(prog) && Consistent(prog, w) && a.WorkerStatus?
    ensures AtomicEffect(prog, Serialize(w, a), w.server) == Effect(prog, w, a)
  {
    if a.worker in w.workers {
      StatusIsAtomic(prog, w, w.workers[a.worker], a.workload, a.report, a.now);
    }
  }

  lemma {:induction false} SerialRun(prog: Program, w: World, actions: seq<Action>)
    requires Honest(prog) && Consistent(prog, w)
    ensures RunAtomic(prog, Serial(prog, w, actions), w.server) == Run(prog, w, actions).server
  {
    if actions == [] {
    } else {
      var n := |actions| - 1;
      SerialRun(prog, w, actions[..n]);
      ConsistentRun(prog, w, actions[..n]);
      StepIsAtomic(prog, Run(prog, w, actions[..n]), actions[n]);
      assert Serial(prog, w, actions)[..n] == Serial(prog, w, actions[..n]);
    }
  }

  /** For every interleaving of handlers, reconciles and external writers, with
      stale reads and lost messages, the server ends exactly where the
      indivisible requests, executed at the moments of their commits, end. */
  lemma Serializable(lib: Library, cfg: Config, w: World, actions: seq<Action>)
    requires Consistent(Platform(lib, cfg), w)
    ensures var prog := Platform(lib, cfg);
            RunAtomic(prog, Serial(prog, w, actions), w.server) == Run(prog, w, actions).server
  {
    PlatformIsHonest(lib, cfg);
    SerialRun(Platform(lib, cfg), w, actions);
  }

  /** The indivisible request of the platform is the handler of the repository. */
  lemma WholeIsAtomically(lib: Library, cfg: Config, name: string, request: Request, schemaOk: bool, c: Cluster)
    ensures AtomicEffect(Platform(lib, cfg), Whole(name, request, schemaOk), c)
            == Atomically(lib, cfg, name, request, schemaOk, c).0
  {
  }

  /** Every version that was ever seen was the current one at some moment. */
  lemma {:induction false} SeenWasCurrent(prog: Program, actions: seq<Action>, o: ModelService) returns (n: nat)
    requires Honest(prog) && o in Run(prog, EMPTY_WORLD, actions).seen
    ensures n <= |actions| && Get(Run(prog, EMPTY_WORLD, actions[..n]).server.models, o.key) == Some(o)
  {
    if actions == [] {
      assert false;
    } else if o in Run(prog, EMPTY_WORLD, actions[..|actions| - 1]).seen {
      n := SeenWasCurrent(prog, actions[..|actions| - 1], o);
      assert actions[..|actions| - 1][..n] == actions[..n];
    } else {
      n := |actions|;
      assert actions[..n] == actions;
      ConsistentRun(prog, EMPTY_WORLD, actions);
    }
  }

  /** Whatever a read returns, it is what the server held at some earlier
      moment; nothing was held at the start. */
  lemma ReadWasCurrent(prog: Program, actions: seq<Action>, name: string, read: Option<ModelService>) returns (n: nat)
    requires Honest(prog) && Readable(prog, Run(prog, EMPTY_WORLD, actions), name, read)
    ensures n <= |actions|
    ensures Get(Run(prog, EMPTY_WORLD, actions[..n]).server.models, Key(prog.namespace, name)) == read
  {
    if read.None? {
      n := 0;
    } else {
      n := SeenWasCurrent(prog, actions, read.value);
    }
  }

  /** In every run, a request that is answered after its read, however stale the
      read, gets the answer that the indivisible request gives at some earlier
      moment, where it changes nothing. */
  lemma AnswerIsAtomic(lib: Library, cfg: Config, actions: seq<Action>, n: nat, schemaOk: bool)
    requires n < |actions| && actions[n].Begin?
    requires Readable(Platform(lib, cfg), Run(Platform(lib, cfg), EMPTY_WORLD, actions[..n]), actions[n].name,
                      actions[n].read)
    requires Decide(lib, cfg, actions[n].name, actions[n].request, actions[n].read).Answer?
    ensures exists j :: 0 <= j <= n
              && var c := Run(Platform(lib, cfg), EMPTY_WORLD, actions[..j]).server;
                 Atomically(lib, cfg, actions[n].name, actions[n].request, schemaOk, c)
                 == (c, Decide(lib, cfg, actions[n].name, actions[n].request, actions[n].read).reply)
  {
    PlatformIsHonest(lib, cfg);
    var j := ReadWasCurrent(Platform(lib, cfg), actions[..n], actions[n].name, actions[n].read);
    assert actions[..n][..j] == actions[..j];
  }

  // ---------------------------------------------------------------------
  // No lost update, no wrong delete
  // ---------------------------------------------------------------------

  lemma {:induction false} RunSplit(prog: Program, w: World, actions: seq<Action>, n: nat)
    requires n <= |actions|
    ensures Run(prog, w, actions) == Run(prog, Run(prog, w, actions[..n]), actions[n..])
  {
    if n == |actions| {
      assert actions[..n] == actions && actions[n..] == [];
    } else {
      var m, rest := |actions| - 1, actions[n..];
      RunSplit(prog, w, actions[..m], n);
      assert actions[..m][..n] == actions[..n];
      assert rest[..|rest| - 1] == actions[..m][n..] && rest[|rest| - 1] == actions[m];
    }
  }

  /** Once an object has left a version, that version never comes back. */
  lemma {:induction false} NeverReturns(prog: Program, w: World, actions: seq<Action>, m: ModelService)
    requires Honest(prog) && Consistent(prog, w) && m.version <= w.server.revision && !Current(w.server, m)
    ensures !Current(Run(prog, w, actions).server, m) && m.version <= Run(prog, w, actions).server.revision
  {
    if actions == [] {
    } else {
      var n := |actions| - 1;
      NeverReturns(prog, w, actions[..n], m);
      ConsistentRun(prog, w, actions[..n]);
      EffectEvolves(prog, Run(prog, w, actions[..n]), actions[n]);
    }
  }

  /** If a request commits, the object did not change at any moment between its
      read and its commit: every intervening write would have made it fail. */
  lemma NoInterveningWrite(prog: Program, w: World, actions: seq<Action>, id: nat, n: nat)
    requires Honest(prog) && Consistent(prog, w) && id in w.clients && n <= |actions|
    requires var after := Run(prog, w, actions);
             id in after.clients && after.clients[id] == w.clients[id] && Current(after.server, w.clients[id].inspected)
    ensures var during := Run(prog, w, actions[..n]).server;
            var m := w.clients[id].inspected;
            m.key in during.models && during.models[m.key] == m
  {
    var m := w.clients[id].inspected;
    ConsistentRun(prog, w, actions[..n]);
    RunSplit(prog, w, actions, n);
    var during := Run(prog, w, actions[..n]);
    SeenGrows(prog, w, actions[..n]);
    if !Current(during.server, m) {
      NeverReturns(prog, during, actions[n..], m);
    }
    SnapshotCurrent(during, m);
  }

  lemma {:induction false} SeenGrows(prog: Program, w: World, actions: seq<Action>)
    ensures w.seen <= Run(prog, w, actions).seen
  {
    if actions == [] {
    } else {
      SeenGrows(prog, w, actions[..|actions| - 1]);
    }
  }

  /** A DELETE removes the very object and version it inspected, never a
      recreated one of the same name; no other request removes anything. */
  lemma DeleteRemovesInspected(prog: Program, w: World, id: nat, schemaOk: bool, k: Key)
    requires Honest(prog) && Consistent(prog, w) && id in w.clients && k in w.server.models
    requires k !in Finish(w.clients[id].decision, schemaOk, w.server).0.models
    ensures w.clients[id].request.Delete? && w.server.models[k] == w.clients[id].inspected
  {
    var p := w.clients[id];
    assert HonestDecision(p.request, p.inspected, p.decision);
    OnlyRemovalRemoves(p.decision, schemaOk, w.server, k);
    SnapshotCurrent(w, p.inspected);
  }

  lemma OnlyRemovalRemoves(d: Decision, schemaOk: bool, c: Cluster, k: Key)
    requires k in c.models && k !in Finish(d, schemaOk, c).0.models
    ensures d.RemoveObject? && d.inspected.key == k
    ensures d.inspected.version > 0 ==> Current(c, d.inspected)
  {
  }

  // ---------------------------------------------------------------------
  // The GitOps guard
  // ---------------------------------------------------------------------

  /** What an API action may do to the ModelServices. */
  ghost predicate RespectsGitOps(before: Cluster, after: Cluster) {
    && (forall k :: k in before.models && (k !in after.models || after.models[k] != before.models[k])
          ==> !Tracked(before.models[k]))
    && (forall k :: k in before.models && k in after.models
          ==> && after.models[k].labels == before.models[k].labels
              && after.models[k].annotations == before.models[k].annotations)
    && (forall k :: k !in before.models && k in after.models ==> !Tracked(after.models[k]))
  }

  lemma UpdateRespectsGitOps(c: Cluster, submitted: ModelService, spec: Spec, schemaOk: bool)
    requires submitted.key in c.models && !Tracked(submitted)
    requires submitted.labels == c.models[submitted.key].labels
    requires submitted.annotations == c.models[submitted.key].annotations
    ensures RespectsGitOps(c, UpdateModel(c, submitted, spec, schemaOk).0)
  {
  }

  lemma DeleteRespectsGitOps(c: Cluster, m: ModelService, pre: Preconditions)
    requires m.key in c.models && c.models[m.key] == m && !Tracked(m)
    ensures RespectsGitOps(c, DeleteModel(c, m.key, pre).0)
  {
  }

  lemma CreateRespectsGitOps(prog: Program, r: CreateRequest, schemaOk: bool, c: Cluster)
    ensures RespectsGitOps(c, CreateEffect(prog, r, schemaOk, c))
  {
  }

  lemma FinishRespectsGitOps(prog: Program, w: World, id: nat, schemaOk: bool)
    requires Honest(prog) && Consistent(prog, w) && id in w.clients
    ensures RespectsGitOps(w.server, Finish(w.clients[id].decision, schemaOk, w.server).0)
  {
    var p := w.clients[id];
    assert HonestDecision(p.request, p.inspected, p.decision);
    if Current(w.server, p.inspected) {
      SnapshotCurrent(w, p.inspected);
      match p.decision
      case WriteBack(candidate) => UpdateRespectsGitOps(w.server, candidate, Stored(candidate.spec), schemaOk);
      case RemoveObject(m) => DeleteRespectsGitOps(w.server, m, PreconditionsFor(m));
    } else {
      CommitIsAtomic(prog, w, id, schemaOk);
    }
  }

  predicate ApiAction(a: Action) {
    a.Begin? || a.Commit? || a.Create?
  }

  lemma EffectRespectsGitOps(prog: Program, w: World, a: Action)
    requires Honest(prog) && Consistent(prog, w) && ApiAction(a)
    ensures RespectsGitOps(w.server, Effect(prog, w, a))
  {
    match a
    case Commit(id, schemaOk, _) =>
      if id in w.clients {
        FinishRespectsGitOps(prog, w, id, schemaOk);
      }
    case Create(r, schemaOk) => CreateRespectsGitOps(prog, r, schemaOk, w.server);
    case Begin(_, _, _, _) =>
  }

  lemma GitOpsRun(prog: Program, w: World, actions: seq<Action>, n: nat)
    requires Honest(prog) && Consistent(prog, w) && n < |actions| && ApiAction(actions[n])
    ensures RespectsGitOps(Run(prog, w, actions[..n]).server, Run(prog, w, actions[..n + 1]).server)
  {
    ConsistentRun(prog, w, actions[..n]);
    RunExtend(prog, w, actions, n);
    EffectRespectsGitOps(prog, Run(prog, w, actions[..n]), actions[n]);
  }

  /** In every run, at the moment any API action takes effect, the object it
      changes carries no tracking marker, even if the marker appeared after the
      handler looked; and no API action edits labels or annotations. */
  lemma GitOpsGuard(lib: Library, cfg: Config, w: World, actions: seq<Action>, n: nat)
    requires Consistent(Platform(lib, cfg), w) && n < |actions| && ApiAction(actions[n])
    ensures RespectsGitOps(Run(Platform(lib, cfg), w, actions[..n]).server,
                           Run(Platform(lib, cfg), w, actions[..n + 1]).server)
  {
    PlatformIsHonest(lib, cfg);
    GitOpsRun(Platform(lib, cfg), w, actions, n);
  }
}
