/** What the API accepts, the schema's cross-field rules and the controller
    accept too: every object that API writes can produce. */
module Acceptance {
  import opened Strings
  import opened ModelServices
  import opened Validation
  import opened Transforms
  import opened TransformLaws
  import opened Children
  import opened Clusters
  import opened Handlers
  import opened Protocol

  /** The controller has no objection of its own to an API spec: no missing
      hostname, no unparsable size, no missing predictor. */
  lemma ControllerAccepts(lib: Library, p: Parent, maxReplicas: int, kind: Kind)
    requires ApiSpec(lib, p.key.name, p.spec, maxReplicas) && kind in KindsFor(p.spec)
    ensures !IntentFor(lib, p, kind).Reject?
  {
    var r := Projection(p.spec);
    assert r.exposure.enabled ==> !Blank(r.exposure.hostname) && r.exposure.hostname != "";
  }

  /** A write that a handler decides on leaves an API spec. */
  lemma DecidedSpec(lib: Library, cfg: Config, name: string, request: Request, m: ModelService)
    ensures var d := Decide(lib, cfg, name, request, Some(m));
            d.WriteBack? ==> ApiSpec(lib, name, Stored(d.candidate.spec), cfg.maxReplicas)
  {
    match request
    case Put(r) => PutDecidedSpec(lib, cfg, name, r, m);
    case Patch(p) => PatchDecidedSpec(lib, cfg, name, p, m);
    case Delete =>
  }

  lemma PutDecidedSpec(lib: Library, cfg: Config, name: string, r: UpdateRequest, m: ModelService)
    ensures var d := DecidePut(lib, cfg, name, r, m);
            d.WriteBack? ==> ApiSpec(lib, name, Stored(d.candidate.spec), cfg.maxReplicas)
  {
    var body := r.(backend := OrElse(r.backend, NormalizedBackend(m.spec.backend)));
    FindingsCorrect(lib, name, body, cfg.maxReplicas);
    if Findings(lib, name, body, cfg.maxReplicas) == [] {
      PutThenView(lib, name, m.spec, body, cfg.gateway, cfg.maxReplicas);
    }
  }

  lemma PatchDecidedSpec(lib: Library, cfg: Config, name: string, p: PatchRequest, m: ModelService)
    ensures var d := DecidePatch(lib, cfg, name, p, m);
            d.WriteBack? ==> ApiSpec(lib, name, Stored(d.candidate.spec), cfg.maxReplicas)
  {
    var body := Projection(Patched(m.spec, p, cfg.gateway));
    FindingsCorrect(lib, name, body, cfg.maxReplicas);
    if Findings(lib, name, body, cfg.maxReplicas) == [] {
      PatchThenView(lib, name, m.spec, p, cfg.gateway, cfg.maxReplicas);
    }
  }

  /** The program writes only API specs. */
  ghost predicate Careful(prog: Program, good: (string, Spec) -> bool) {
    && (forall r :: prog.create(r).Some? ==> good(r.name, prog.create(r).value))
    && (forall name, request, m :: var d := prog.decide(name, request, Some(m));
          d.WriteBack? ==> good(name, Stored(d.candidate.spec)))
  }

  ghost function Good(lib: Library, cfg: Config): (string, Spec) -> bool {
    (name, spec) => ApiSpec(lib, name, spec, cfg.maxReplicas)
  }

  lemma PlatformIsCareful(lib: Library, cfg: Config)
    ensures Careful(Platform(lib, cfg), Good(lib, cfg))
  {
    var prog, good := Platform(lib, cfg), Good(lib, cfg);
    forall r | prog.create(r).Some?
      ensures good(r.name, prog.create(r).value)
    {
      FindingsCorrect(lib, r.name, r.body, cfg.maxReplicas);
      CreateThenView(lib, r.name, r.body, cfg.gateway, cfg.maxReplicas);
    }
    forall name, request, m | prog.decide(name, request, Some(m)).WriteBack?
      ensures good(name, Stored(prog.decide(name, request, Some(m)).candidate.spec))
    {
      DecidedSpec(lib, cfg, name, request, m);
    }
  }

  /** External writers may delete objects and edit metadata, but not specs. */
  predicate SpecsFromApi(c: Cluster, a: Action) {
    && !a.ExternalCreate?
    && (a.ExternalUpdate? && a.key in c.models ==> WithBackend(a.spec) == c.models[a.key].spec)
  }

  ghost predicate AllGood(good: (string, Spec) -> bool, w: World) {
    forall o :: o in w.seen ==> good(o.key.name, o.spec)
  }

  /** An update stores the given spec or nothing. */
  lemma UpdatedSpec(c: Cluster, submitted: ModelService, spec: Spec, schemaOk: bool, o: ModelService)
    requires Puts(c, UpdateModel(c, submitted, spec, schemaOk).0, o)
    requires submitted.key in c.models ==> c.models[submitted.key].key == submitted.key
    ensures o.key == submitted.key && o.spec == spec
  {
    var c' := UpdateModel(c, submitted, spec, schemaOk).0;
    assert c'.models[o.key] == o;
    assert c'.revision == c.revision + 1;
    assert o == UpdateModel(c, submitted, spec, schemaOk).1.model by {
      assert c' != c;
      assert c'.models == c.models[submitted.key := c'.models[submitted.key]];
      assert c'.models[submitted.key].version == c'.revision;
    }
  }

  lemma CommitIsGood(prog: Program, good: (string, Spec) -> bool, w: World, id: nat, schemaOk: bool, o: ModelService)
    requires Honest(prog) && Careful(prog, good) && Consistent(prog, w) && id in w.clients
    requires Puts(w.server, Finish(w.clients[id].decision, schemaOk, w.server).0, o)
    ensures good(o.key.name, o.spec)
  {
    var p := w.clients[id];
    assert HonestDecision(p.request, p.inspected, p.decision);
    match p.decision
    case WriteBack(candidate) => UpdatedSpec(w.server, candidate, Stored(candidate.spec), schemaOk, o);
    case RemoveObject(_) =>
  }

  lemma CreateIsGood(prog: Program, good: (string, Spec) -> bool, c: Cluster, r: CreateRequest, schemaOk: bool,
                     o: ModelService)
    requires Careful(prog, good) && Puts(c, CreateEffect(prog, r, schemaOk, c), o)
    requires forall k :: k in c.models ==> c.models[k].version <= c.revision
    ensures good(o.key.name, o.spec)
  {
    var c' := CreateEffect(prog, r, schemaOk, c);
    assert o.key in c'.models && c'.models[o.key] == o;
    assert o.key == Key(prog.namespace, r.name);
  }

  /** A new version has a good spec. */
  lemma PutIsGood(prog: Program, good: (string, Spec) -> bool, w: World, a: Action, o: ModelService)
    requires Honest(prog) && Careful(prog, good) && Consistent(prog, w) && AllGood(good, w)
    requires SpecsFromApi(w.server, a) && Puts(w.server, Effect(prog, w, a), o)
    ensures good(o.key.name, o.spec)
  {
    var c := w.server;
    assert forall k :: k in c.models ==> c.models[k] in w.seen;
    match a
    case Commit(id, schemaOk, transport) =>
      if id in w.clients && !transport.RequestLost? { CommitIsGood(prog, good, w, id, schemaOk, o); }
    case Create(r, schemaOk) => CreateIsGood(prog, good, c, r, schemaOk, o);
    case ExternalUpdate(key, labels, annotations, spec, schemaOk) =>
      if key in c.models {
        UpdatedSpec(c, c.models[key].(labels := labels, annotations := annotations), WithBackend(spec), schemaOk, o);
      }
    case _ => KeptSpec(prog, w, a, o);
  }

  lemma AllGoodStep(prog: Program, good: (string, Spec) -> bool, w: World, a: Action)
    requires Honest(prog) && Careful(prog, good) && Consistent(prog, w) && AllGood(good, w) && SpecsFromApi(w.server, a)
    ensures AllGood(good, Act(prog, w, a))
  {
    NewVersion(prog, w, a);
    if o :| Puts(w.server, Effect(prog, w, a), o) && Act(prog, w, a).seen == w.seen + {o} {
      PutIsGood(prog, good, w, a, o);
    }
  }

  ghost predicate AllSpecsFromApi(prog: Program, w: World, actions: seq<Action>) {
    forall n :: 0 <= n < |actions| ==> SpecsFromApi(Run(prog, w, actions[..n]).server, actions[n])
  }

  lemma {:induction false} AllGoodRun(prog: Program, good: (string, Spec) -> bool, w: World, actions: seq<Action>)
    requires Honest(prog) && Careful(prog, good) && Consistent(prog, w) && AllGood(good, w)
    requires AllSpecsFromApi(prog, w, actions)
    ensures AllGood(good, Run(prog, w, actions))
  {
    if actions == [] {
    } else {
      var n := |actions| - 1;
      assert forall i :: 0 <= i < n ==> actions[..n][..i] == actions[..i];
      AllGoodRun(prog, good, w, actions[..n]);
      ConsistentRun(prog, w, actions[..n]);
      AllGoodStep(prog, good, Run(prog, w, actions[..n]), actions[n]);
    }
  }

  /** In every run from the empty server in which specs come from the API, every
      version of every object re-validates without findings, satisfies the
      cross-field rules, and is accepted by the controller for every kind. */
  lemma ApiImpliesController(lib: Library, cfg: Config, actions: seq<Action>, o: ModelService, kind: Kind)
    requires AllSpecsFromApi(Platform(lib, cfg), EMPTY_WORLD, actions)
    requires o in Run(Platform(lib, cfg), EMPTY_WORLD, actions).seen
    ensures Findings(lib, o.key.name, Projection(o.spec), cfg.maxReplicas) == []
    ensures CrossFieldRules(o.spec) && ApiSpec(lib, o.key.name, o.spec, cfg.maxReplicas)
    ensures kind in KindsFor(o.spec) ==> !IntentFor(lib, ParentOf(o), kind).Reject?
  {
    PlatformIsHonest(lib, cfg);
    PlatformIsCareful(lib, cfg);
    AllGoodRun(Platform(lib, cfg), Good(lib, cfg), EMPTY_WORLD, actions);
    assert Good(lib, cfg)(o.key.name, o.spec);
    AcceptedEverywhere(lib, cfg, o, kind);
  }

  lemma AcceptedEverywhere(lib: Library, cfg: Config, o: ModelService, kind: Kind)
    requires ApiSpec(lib, o.key.name, o.spec, cfg.maxReplicas)
    ensures Findings(lib, o.key.name, Projection(o.spec), cfg.maxReplicas) == [] && CrossFieldRules(o.spec)
    ensures kind in KindsFor(o.spec) ==> !IntentFor(lib, ParentOf(o), kind).Reject?
  {
    FindingsCorrect(lib, o.key.name, Projection(o.spec), cfg.maxReplicas);
    ApiSpecMeetsRules(lib, o.key.name, o.spec, cfg.maxReplicas);
    if kind in KindsFor(o.spec) {
      ControllerAccepts(lib, ParentOf(o), cfg.maxReplicas, kind);
    }
  }
}
