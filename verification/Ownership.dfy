/** Who may write or delete what: runs of reconcile steps of any number of
    ModelServices, in any order. */
module Ownership {
  import opened Strings
  import opened ModelServices
  import opened Statuses
  import opened Children
  import opened Clusters
  import opened Reconciler
  import opened ReconcilerLaws

  /** One child step of some reconcile, in whatever state it finds the cluster. */
  datatype Move = Move(parent: Parent, kind: Kind)

  function Apply(lib: Library, mv: Move, c: Cluster): Cluster {
    Step(mv.parent, mv.kind, IntentFor(lib, mv.parent, mv.kind), c).0
  }

  function Run(lib: Library, moves: seq<Move>, c: Cluster): Cluster {
    if moves == [] then c else Run(lib, moves[1..], Apply(lib, moves[0], c))
  }

  // ---------------------------------------------------------------------
  // Ownership safety
  // ---------------------------------------------------------------------

  /** A step deletes exactly the child it controls and was told to remove,
      reports a conflict exactly when another controller owns the child it
      wants, and then writes nothing. */
  lemma StepOwnership(p: Parent, kind: Kind, intent: Intent, c: Cluster, k: ChildKey)
    requires !kind.InferenceServiceKind? && k in c.children
    ensures var (c', o) := Step(p, kind, intent, c);
            var mine := k == ChildKey(kind, p.key);
            && (k !in c'.children <==> mine && intent.Remove? && ControlledBy(c.children[k], p.uid))
            && (mine && intent.Ensure? ==> (o == Failed(AlreadyOwned) <==> OwnedByOther(c.children[k], p)))
            && (o.Failed? ==> c' == c)
            && (k in c'.children && c'.children[k] != c.children[k] ==> mine && !OwnedByOther(c.children[k], p))
  {
  }

  /** The child is controlled by something that is neither this ModelService
      nor an earlier object of the same kind and name. */
  predicate Foreign(c: Child, p: Parent) {
    OwnedByOther(c, p) && c.owner.value.uid != p.uid
  }

  /** Over any run of Deployment-backend steps, a child controlled by something
      foreign to every ModelService in the run is neither written nor deleted. */
  lemma {:induction false} ForeignUntouched(lib: Library, moves: seq<Move>, c: Cluster, k: ChildKey)
    requires k in c.children
    requires forall mv :: mv in moves ==> !mv.kind.InferenceServiceKind? && Foreign(c.children[k], mv.parent)
    ensures k in Run(lib, moves, c).children && Run(lib, moves, c).children[k] == c.children[k]
    decreases |moves|
  {
    if moves == [] {
    } else {
      var mv := moves[0];
      assert mv in moves;
      StepOwnership(mv.parent, mv.kind, IntentFor(lib, mv.parent, mv.kind), c, k);
      ForeignUntouched(lib, moves[1..], Apply(lib, mv, c), k);
    }
  }

  /** Over any run, whatever disappears was controlled, at that moment, by the
      ModelService whose disabled feature removed it; in particular a child
      without a controller is never deleted. */
  lemma {:induction false} DeletionsAreOwn(lib: Library, moves: seq<Move>, c: Cluster, n: nat, k: ChildKey)
    requires n < |moves| && forall mv :: mv in moves ==> !mv.kind.InferenceServiceKind?
    requires k in Run(lib, moves[..n], c).children && k !in Run(lib, moves[..n + 1], c).children
    ensures ControlledBy(Run(lib, moves[..n], c).children[k], moves[n].parent.uid)
    ensures k == ChildKey(moves[n].kind, moves[n].parent.key)
    ensures IntentFor(lib, moves[n].parent, moves[n].kind) == Remove
  {
    var mv := moves[n];
    RunSnoc(lib, moves[..n], mv, c);
    assert moves[..n + 1] == moves[..n] + [mv];
    StepOwnership(mv.parent, mv.kind, IntentFor(lib, mv.parent, mv.kind), Run(lib, moves[..n], c), k);
  }

  lemma {:induction false} RunSnoc(lib: Library, moves: seq<Move>, mv: Move, c: Cluster)
    ensures Run(lib, moves + [mv], c) == Apply(lib, mv, Run(lib, moves, c))
    decreases |moves|
  {
    if moves == [] {
      assert moves + [mv] == [mv];
      assert [mv][1..] == [];
    } else {
      assert (moves + [mv])[1..] == moves[1..] + [mv];
      RunSnoc(lib, moves[1..], mv, Apply(lib, moves[0], c));
    }
  }

  // ---------------------------------------------------------------------
  // Non-interference
  // ---------------------------------------------------------------------

  function Own(moves: seq<Move>, key: Key): seq<Move> {
    if moves == [] then [] else (if moves[0].parent.key == key then [moves[0]] else []) + Own(moves[1..], key)
  }

  ghost predicate Agree(c: Cluster, d: Cluster, key: Key) {
    forall kind :: Value(c, ChildKey(kind, key)) == Value(d, ChildKey(kind, key))
  }

  /** The children of one ModelService end up as if only its own steps had run,
      however the steps of all ModelServices interleave. */
  lemma {:induction false} NonInterference(lib: Library, moves: seq<Move>, key: Key, c: Cluster, d: Cluster)
    requires Agree(c, d, key)
    ensures Agree(Run(lib, moves, c), Run(lib, Own(moves, key), d), key)
    decreases |moves|
  {
    if moves == [] {
    } else {
      var mv := moves[0];
      var intent := IntentFor(lib, mv.parent, mv.kind);
      StepValue(mv.parent, mv.kind, intent, c);
      var c1 := Apply(lib, mv, c);
      if mv.parent.key == key {
        StepValue(mv.parent, mv.kind, intent, d);
        var d1 := Apply(lib, mv, d);
        assert Agree(c1, d1, key);
        NonInterference(lib, moves[1..], key, c1, d1);
        assert Own(moves, key) == [mv] + Own(moves[1..], key);
        assert ([mv] + Own(moves[1..], key))[1..] == Own(moves[1..], key);
      } else {
        assert Agree(c1, d, key);
        NonInterference(lib, moves[1..], key, c1, d);
        assert Own(moves, key) == Own(moves[1..], key);
      }
    }
  }

  /** Any two interleavings of the same per-ModelService step sequences leave
      the same children, up to assigned uids and versions. */
  lemma InterleavingsAgree(lib: Library, one: seq<Move>, two: seq<Move>, c: Cluster, k: ChildKey)
    requires Own(one, k.key) == Own(two, k.key)
    ensures Value(Run(lib, one, c), k) == Value(Run(lib, two, c), k)
  {
    NonInterference(lib, one, k.key, c, c);
    NonInterference(lib, two, k.key, c, c);
    assert k == ChildKey(k.kind, k.key);
  }

  /** A whole reconcile reads and writes only its own ModelService and the
      children under its key. */
  lemma ReconcileLocal(lib: Library, key: Key, now: int, c: Cluster, d: Cluster)
    requires Starts(key, c) && key in d.models && d.models[key] == c.models[key] && Agree(c, d, key)
    ensures var ((c', oc), (d', od)) := (Reconciled(lib, key, now, c), Reconciled(lib, key, now, d));
            && oc == od && Agree(c', d', key)
            && key in c'.models && key in d'.models
            && c'.models[key].(version := 0) == d'.models[key].(version := 0)
  {
    var m := c.models[key];
    var p, kinds := ParentOf(m), KindsFor(m.spec);
    FullRun(lib, key, now, c);
    FullRun(lib, key, now, d);
    ChildrenLocal(p, PlanFor(lib, p), kinds, c, d) by { KindsDistinct(m.spec); }
    if RunChildren(p, PlanFor(lib, p), kinds, c).1.Done? {
      StatusLocal(lib, m, now, RunChildren(p, PlanFor(lib, p), kinds, c).0,
                  RunChildren(p, PlanFor(lib, p), kinds, d).0);
    }
  }

  lemma StatusLocal(lib: Library, m: ModelService, now: int, c: Cluster, d: Cluster)
    requires m.key in c.models && m.key in d.models && c.models[m.key] == d.models[m.key] && Agree(c, d, m.key)
    ensures var ((c', oc), (d', od)) := (PublishStatus(lib, m, now, c), PublishStatus(lib, m, now, d));
            && oc == od && Agree(c', d', m.key)
            && m.key in c'.models && m.key in d'.models
            && c'.models[m.key].(version := 0) == d'.models[m.key].(version := 0)
  {
    ReadingsAgree(lib, m, c, d);
    var reading := ReadingFor(lib, m, c.children);
    if reading.Found? {
      WriteLocal(m, Publish(m.status, m.generation, reading.value, now), c, d);
    }
  }

  lemma WriteLocal(m: ModelService, status: Status, c: Cluster, d: Cluster)
    requires m.key in c.models && m.key in d.models && c.models[m.key] == d.models[m.key]
    ensures var ((c', oc), (d', od)) := (StatusWritten(m, status, c), StatusWritten(m, status, d));
            && oc == od && c'.children == c.children && d'.children == d.children
            && m.key in c'.models && m.key in d'.models
            && c'.models[m.key].(version := 0) == d'.models[m.key].(version := 0)
  {
    WriteEffect(m, status, c);
    WriteEffect(m, status, d);
  }

  /** A status write changes at most the status and the version of its object. */
  lemma WriteEffect(m: ModelService, status: Status, c: Cluster)
    requires m.key in c.models
    ensures var (c', o) := StatusWritten(m, status, c);
            var before, skipped := c.models[m.key], status == m.status;
            && (o == if skipped || SameVersion(before, m) then Done else Failed(Refused))
            && c'.children == c.children && m.key in c'.models
            && c'.models[m.key].(version := 0)
               == (if skipped || o.Failed? then before else before.(status := status)).(version := 0)
  {
  }

  lemma ChildrenLocal(p: Parent, plan: Plan, kinds: seq<Kind>, c: Cluster, d: Cluster)
    requires Distinct(kinds) && Agree(c, d, p.key)
    ensures var ((c1, oc), (d1, od)) := (RunChildren(p, plan, kinds, c), RunChildren(p, plan, kinds, d));
            oc == od && Agree(c1, d1, p.key) && c1.models == c.models && d1.models == d.models
  {
    assert kinds[..|kinds|] == kinds;
    RunValues(p, plan, kinds, |kinds|, c);
    RunValues(p, plan, kinds, |kinds|, d);
    assert Values(c, p.key, kinds) == Values(d, p.key, kinds);
    RunsAgree(p.key, kinds, c, d, RunChildren(p, plan, kinds, c).0, RunChildren(p, plan, kinds, d).0);
  }

  lemma RunsAgree(key: Key, kinds: seq<Kind>, c: Cluster, d: Cluster, c1: Cluster, d1: Cluster)
    requires Agree(c, d, key) && Values(c1, key, kinds) == Values(d1, key, kinds)
    requires forall k: ChildKey :: k.key != key || k.kind !in kinds ==> Get(c1.children, k) == Get(c.children, k)
    requires forall k: ChildKey :: k.key != key || k.kind !in kinds ==> Get(d1.children, k) == Get(d.children, k)
    ensures Agree(c1, d1, key)
  {
    forall kind: Kind
      ensures Value(c1, ChildKey(kind, key)) == Value(d1, ChildKey(kind, key))
    {
      if kind in kinds {
        var i :| 0 <= i < |kinds| && kinds[i] == kind;
        assert Values(c1, key, kinds)[i] == Values(d1, key, kinds)[i];
      }
    }
  }

  lemma ReadingsAgree(lib: Library, m: ModelService, c: Cluster, d: Cluster)
    requires Agree(c, d, m.key)
    ensures ReadingFor(lib, m, c.children) == ReadingFor(lib, m, d.children)
  {
    var kind := if UsesKServe(m.spec) then InferenceServiceKind else DeploymentKind;
    assert Value(c, ChildKey(kind, m.key)) == Value(d, ChildKey(kind, m.key));
  }

  lemma ReconcileFrame(lib: Library, key: Key, now: int, c: Cluster, other: Key)
    requires Starts(key, c) && other != key
    ensures var c' := Reconciled(lib, key, now, c).0;
            && Agree(c, c', other)
            && (other in c'.models <==> other in c.models)
            && (other in c.models ==> c'.models[other] == c.models[other])
            && key in c'.models
  {
    var m := c.models[key];
    var p, kinds := ParentOf(m), KindsFor(m.spec);
    FullRun(lib, key, now, c);
    KindsDistinct(m.spec);
    assert kinds[..|kinds|] == kinds;
    RunValues(p, PlanFor(lib, p), kinds, |kinds|, c);
  }

  /** Whole reconciles of two ModelServices commute: outcomes, children and
      ModelServices agree, up to assigned uids and versions. */
  lemma ReconcilesCommute(lib: Library, k1: Key, k2: Key, t1: int, t2: int, c: Cluster, k: ChildKey)
    requires k1 != k2 && Starts(k1, c) && Starts(k2, c)
    ensures var (a, oa) := Reconciled(lib, k1, t1, c);
            var (b, ob) := Reconciled(lib, k2, t2, c);
            var (ab, oab) := Reconciled(lib, k2, t2, a);
            var (ba, oba) := Reconciled(lib, k1, t1, b);
            && oa == oba && ob == oab
            && Value(ab, k) == Value(ba, k)
            && (k.key in ab.models <==> k.key in ba.models)
            && (k.key in ab.models ==> ab.models[k.key].(version := 0) == ba.models[k.key].(version := 0))
  {
    var a := Reconciled(lib, k1, t1, c).0;
    var b := Reconciled(lib, k2, t2, c).0;
    ReconcileFrame(lib, k1, t1, c, k2);
    ReconcileFrame(lib, k2, t2, c, k1);
    ReconcileLocal(lib, k1, t1, c, b);
    ReconcileLocal(lib, k2, t2, c, a);
    ReconcileFrame(lib, k2, t2, a, k1);
    ReconcileFrame(lib, k1, t1, b, k2);
    assert k == ChildKey(k.kind, k.key);
    if k.key != k1 && k.key != k2 {
      ReconcileFrame(lib, k1, t1, c, k.key);
      ReconcileFrame(lib, k2, t2, c, k.key);
      ReconcileFrame(lib, k2, t2, a, k.key);
      ReconcileFrame(lib, k1, t1, b, k.key);
    }
  }
}
