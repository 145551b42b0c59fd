/** Laws of the reconcile loop: convergence under retries and fixpoint. */
module ReconcilerLaws {
  import opened Strings
  import opened ModelServices
  import opened Conditions
  import opened Statuses
  import opened Children
  import opened Clusters
  import opened Reconciler

  // ---------------------------------------------------------------------
  // Values of children, without the identity the server assigns
  // ---------------------------------------------------------------------

  function Bare(v: Option<Child>): Option<Child> {
    if v.None? then None else Some(v.value.(uid := 0, version := 0))
  }

  function Value(c: Cluster, k: ChildKey): Option<Child> {
    Bare(Get(c.children, k))
  }

  lemma SettleBare(p: Parent, kind: Kind, intent: Intent, v: Option<Child>)
    ensures Settle(p, kind, intent, Bare(v)) == (Bare(Settle(p, kind, intent, v).0), Settle(p, kind, intent, v).1)
  {
  }

  /** A step settles the value at its own key and touches nothing else. */
  lemma StepValue(p: Parent, kind: Kind, intent: Intent, c: Cluster)
    ensures var k, r := ChildKey(kind, p.key), Step(p, kind, intent, c);
            && (Value(r.0, k), r.1) == Settle(p, kind, intent, Value(c, k))
            && r.0.models == c.models && c.revision <= r.0.revision
            && forall j :: j != k ==> Get(r.0.children, j) == Get(c.children, j)
  {
    SettleBare(p, kind, intent, Get(c.children, ChildKey(kind, p.key)));
  }

  /** Settling a settled child changes nothing. */
  lemma SettleIdempotent(p: Parent, kind: Kind, intent: Intent, v: Option<Child>)
    requires Settle(p, kind, intent, v).1.Done?
    ensures Settle(p, kind, intent, Settle(p, kind, intent, v).0) == Settle(p, kind, intent, v)
  {
    var after := Settle(p, kind, intent, v).0;
    if kind.InferenceServiceKind? && v.Some? && after.Some? {
      var labels := LabelsFor(p.key.name);
      assert v.value.labels + labels + labels == v.value.labels + labels;
    }
    if kind.InferenceServiceKind? && v.None? && after.Some? {
      assert LabelsFor(p.key.name) + LabelsFor(p.key.name) == LabelsFor(p.key.name);
    }
  }

  predicate Distinct(kinds: seq<Kind>) {
    forall i, j :: 0 <= i < j < |kinds| ==> kinds[i] != kinds[j]
  }

  function Values(c: Cluster, key: Key, kinds: seq<Kind>): seq<Option<Child>> {
    seq(|kinds|, i requires 0 <= i < |kinds| => Value(c, ChildKey(kinds[i], key)))
  }

  /** The values after at most `n` steps over `kinds`, and the outcome. */
  function SettleSome(p: Parent, plan: Plan, kinds: seq<Kind>, n: nat, vs: seq<Option<Child>>)
    : (r: (seq<Option<Child>>, Outcome))
    requires |vs| == |kinds|
    ensures |r.0| == |kinds|
  {
    if kinds == [] || n == 0 then (vs, Done)
    else
      var head := Settle(p, kinds[0], plan(kinds[0]), vs[0]);
      if head.1.Failed? then (vs, head.1)
      else
        var tail := SettleSome(p, plan, kinds[1..], n - 1, vs[1..]);
        ([head.0] + tail.0, tail.1)
  }

  function SettleAll(p: Parent, plan: Plan, kinds: seq<Kind>, vs: seq<Option<Child>>): (seq<Option<Child>>, Outcome)
    requires |vs| == |kinds|
  {
    SettleSome(p, plan, kinds, |kinds|, vs)
  }

  /** Whatever prefix of a run took effect, a full run afterwards ends where a
      full run from the start would have. */
  lemma {:induction false} PrefixAbsorbed(p: Parent, plan: Plan, kinds: seq<Kind>, n: nat, vs: seq<Option<Child>>)
    requires |vs| == |kinds|
    ensures SettleAll(p, plan, kinds, SettleSome(p, plan, kinds, n, vs).0) == SettleAll(p, plan, kinds, vs)
  {
    if kinds == [] || n == 0 {
    } else {
      var head := Settle(p, kinds[0], plan(kinds[0]), vs[0]);
      if head.1.Done? {
        SettleIdempotent(p, kinds[0], plan(kinds[0]), vs[0]);
        PrefixAbsorbed(p, plan, kinds[1..], n - 1, vs[1..]);
        var tail := SettleSome(p, plan, kinds[1..], n - 1, vs[1..]);
        assert ([head.0] + tail.0)[1..] == tail.0;
      }
    }
  }

  /** A run over a cluster is the run over the values of its children. */
  lemma {:induction false} RunValues(p: Parent, plan: Plan, kinds: seq<Kind>, n: nat, c: Cluster)
    requires Distinct(kinds) && n <= |kinds|
    ensures var r := RunChildren(p, plan, kinds[..n], c);
            && (Values(r.0, p.key, kinds), r.1) == SettleSome(p, plan, kinds, n, Values(c, p.key, kinds))
            && r.0.models == c.models
            && forall k: ChildKey :: (k.key != p.key || k.kind !in kinds) ==> Get(r.0.children, k) == Get(c.children, k)
  {
    var vs := Values(c, p.key, kinds);
    if n == 0 {
      assert kinds[..n] == [];
    } else {
      var (c1, o) := Step(p, kinds[0], plan(kinds[0]), c);
      StepValue(p, kinds[0], plan(kinds[0]), c);
      assert kinds[..n][1..] == kinds[1..][..n - 1] && kinds[..n][0] == kinds[0];
      assert Values(c1, p.key, kinds)[1..] == vs[1..] == Values(c, p.key, kinds[1..]);
      if o.Done? {
        RunValues(p, plan, kinds[1..], n - 1, c1);
        var r := RunChildren(p, plan, kinds[1..][..n - 1], c1);
        assert Values(c1, p.key, kinds[1..]) == vs[1..];
        assert Values(r.0, p.key, kinds) == [Value(r.0, ChildKey(kinds[0], p.key))] + Values(r.0, p.key, kinds[1..]);
      } else {
        assert Values(c1, p.key, kinds) == vs;
      }
    }
  }

  lemma KindsDistinct(spec: Spec)
    ensures Distinct(KindsFor(spec))
  {
  }

  // ---------------------------------------------------------------------
  // Convergence under retries
  // ---------------------------------------------------------------------

  /** One reconcile that was cut short: how many of its steps took effect, and when. */
  datatype Attempt = Attempt(steps: nat, time: int)

  function AfterAttempts(lib: Library, key: Key, attempts: seq<Attempt>, c: Cluster): Cluster {
    if attempts == [] then c
    else AfterAttempts(lib, key, attempts[1..], Partial(lib, key, attempts[0].time, attempts[0].steps, c).0)
  }

  function BareModel(m: ModelService): ModelService {
    m.(version := 0, status := Untimed(m.status))
  }

  /** Equal up to assigned identities, versions and transition times. */
  ghost predicate Similar(a: Cluster, b: Cluster) {
    && (forall k :: Value(a, k) == Value(b, k))
    && a.models.Keys == b.models.Keys
    && (forall k :: k in a.models ==> BareModel(a.models[k]) == BareModel(b.models[k]))
  }

  /** The reading that a full run from `c` ends with. */
  function FinalReading(lib: Library, m: ModelService, c: Cluster): Lookup<Reading> {
    ReadingFor(lib, m, RunChildren(ParentOf(m), PlanFor(lib, ParentOf(m)), KindsFor(m.spec), c).0.children)
  }

  /** What interrupted reconciles of `key` may have left behind, starting from `c`. */
  ghost predicate Underway(lib: Library, key: Key, c: Cluster, c': Cluster)
    requires key in c.models
  {
    var m := c.models[key];
    var kinds := KindsFor(m.spec);
    && c'.models.Keys == c.models.Keys
    && (forall k :: k in c.models && k != key ==> c'.models[k] == c.models[k])
    && c'.models[key] == m.(version := c'.models[key].version, status := c'.models[key].status)
    && (forall k: ChildKey :: (k.key != key || k.kind !in kinds) ==> Get(c'.children, k) == Get(c.children, k))
    && SettleAll(ParentOf(m), PlanFor(lib, ParentOf(m)), kinds, Values(c', key, kinds))
      == SettleAll(ParentOf(m), PlanFor(lib, ParentOf(m)), kinds, Values(c, key, kinds))
    && (|| c'.models[key].status == m.status
        || (SettleAll(ParentOf(m), PlanFor(lib, ParentOf(m)), kinds, Values(c, key, kinds)).1.Done?
            && FinalReading(lib, m, c).Found?
            && exists t :: c'.models[key].status == Publish(m.status, m.generation, FinalReading(lib, m, c).value, t)))
  }

  ghost predicate Starts(key: Key, c: Cluster) {
    key in c.models && c.models[key].key == key && AtMostOneAvailable(c.models[key].status.conditions)
  }

  /** Two clusters whose runs settle the same values reach the same reading. */
  lemma SameRun(lib: Library, key: Key, c: Cluster, c': Cluster)
    requires Starts(key, c) && Underway(lib, key, c, c')
    ensures var m, m' := c.models[key], c'.models[key];
            var kinds := KindsFor(m.spec);
            var (a, oa) := RunChildren(ParentOf(m'), PlanFor(lib, ParentOf(m')), kinds, c');
            var (b, ob) := RunChildren(ParentOf(m), PlanFor(lib, ParentOf(m)), kinds, c);
            && oa == ob
            && a.models == c'.models && b.models == c.models
            && (forall k :: Value(a, k) == Value(b, k))
            && ReadingFor(lib, m', a.children) == FinalReading(lib, m, c)
  {
    var m, m' := c.models[key], c'.models[key];
    var kinds := KindsFor(m.spec);
    var p := ParentOf(m);
    assert ParentOf(m') == p;
    KindsDistinct(m.spec);
    assert kinds[..|kinds|] == kinds;
    RunValues(p, PlanFor(lib, p), kinds, |kinds|, c);
    RunValues(p, PlanFor(lib, p), kinds, |kinds|, c');
    var a, b := RunChildren(p, PlanFor(lib, p), kinds, c').0, RunChildren(p, PlanFor(lib, p), kinds, c).0;
    assert Values(a, key, kinds) == Values(b, key, kinds);
    forall k: ChildKey
      ensures Value(a, k) == Value(b, k)
    {
      if k.key == key && k.kind in kinds {
        var i :| 0 <= i < |kinds| && kinds[i] == k.kind;
        assert Values(a, key, kinds)[i] == Values(b, key, kinds)[i];
      }
    }
    SameReading(lib, m, m', a, b);
  }

  lemma SameReading(lib: Library, m: ModelService, m': ModelService, a: Cluster, b: Cluster)
    requires m'.key == m.key && m'.spec == m.spec
    requires forall k :: Value(a, k) == Value(b, k)
    ensures ReadingFor(lib, m', a.children) == ReadingFor(lib, m, b.children)
  {
    var k := ChildKey(if UsesKServe(m.spec) then InferenceServiceKind else DeploymentKind, m.key);
    assert Value(a, k) == Value(b, k);
  }

  lemma UnderwayPrefix(lib: Library, key: Key, c: Cluster, c': Cluster, n: nat)
    requires Starts(key, c) && Underway(lib, key, c, c') && n <= |KindsFor(c.models[key].spec)|
    ensures var m := c.models[key];
            var p, kinds := ParentOf(m), KindsFor(m.spec);
            var (c1, o) := RunChildren(p, PlanFor(lib, p), kinds[..n], c');
            && Underway(lib, key, c, c1) && c1.models == c'.models
            && (n == |kinds| ==> o == SettleAll(p, PlanFor(lib, p), kinds, Values(c, key, kinds)).1)
  {
    var m := c.models[key];
    var p, kinds := ParentOf(m), KindsFor(m.spec);
    KindsDistinct(m.spec);
    RunValues(p, PlanFor(lib, p), kinds, n, c');
    PrefixAbsorbed(p, PlanFor(lib, p), kinds, n, Values(c', key, kinds));
  }

  /** Interrupting once more keeps the relation. */
  lemma UnderwayStep(lib: Library, key: Key, c: Cluster, c': Cluster, a: Attempt)
    requires Starts(key, c) && Underway(lib, key, c, c')
    ensures Underway(lib, key, c, Partial(lib, key, a.time, a.steps, c').0)
  {
    var m, m' := c.models[key], c'.models[key];
    var kinds := KindsFor(m.spec);
    var p := ParentOf(m);
    assert ParentOf(m') == p && KindsFor(m'.spec) == kinds;
    var n := if a.steps <= |kinds| then a.steps else |kinds|;
    UnderwayPrefix(lib, key, c, c', n);
    assert kinds[..|kinds|] == kinds;
    var (c1, o) := RunChildren(p, PlanFor(lib, p), kinds[..n], c');
    if a.steps > |kinds| && o.Done? {
      SameRun(lib, key, c, c');
      StatusStep(lib, m, m', c1, a.time, FinalReading(lib, m, c));
      var c2 := Partial(lib, key, a.time, a.steps, c').0;
      assert Values(c2, key, kinds) == Values(c1, key, kinds);
    }
  }

  /** The status step publishes over the original status or leaves it. */
  lemma StatusStep(lib: Library, m: ModelService, m': ModelService, c: Cluster, now: int, reading: Lookup<Reading>)
    requires m.key in c.models && c.models[m.key] == m' && m'.key == m.key && m'.generation == m.generation
    requires AtMostOneAvailable(m.status.conditions)
    requires ReadingFor(lib, m', c.children) == reading
    requires m'.status == m.status
             || (reading.Found? && exists t :: m'.status == Publish(m.status, m.generation, reading.value, t))
    ensures var (c', o) := PublishStatus(lib, m', now, c);
            && c'.children == c.children && c'.models.Keys == c.models.Keys
            && (forall k :: k in c.models && k != m.key ==> c'.models[k] == c.models[k])
            && c'.models[m.key] == m'.(version := c'.models[m.key].version, status := c'.models[m.key].status)
            && (o == if reading.Found? then Done else Failed(MalformedReport))
            && (reading.Found? ==>
                  exists t :: c'.models[m.key].status == Publish(m.status, m.generation, reading.value, t))
            && (!reading.Found? ==> c'.models[m.key] == m')
  {
    if reading.Found? {
      if m'.status == m.status {
        assert PublishStatus(lib, m', now, c).0.models[m.key].status
          == Publish(m.status, m.generation, reading.value, now);
      } else {
        var t :| m'.status == Publish(m.status, m.generation, reading.value, t);
        PublishFixpoint(m.status, m.generation, reading.value, t, now);
      }
    }
  }

  lemma {:induction false} UnderwayAttempts(lib: Library, key: Key, c: Cluster, c': Cluster, attempts: seq<Attempt>)
    requires Starts(key, c) && Underway(lib, key, c, c')
    ensures Underway(lib, key, c, AfterAttempts(lib, key, attempts, c'))
    decreases |attempts|
  {
    if attempts == [] {
    } else {
      UnderwayStep(lib, key, c, c', attempts[0]);
      UnderwayAttempts(lib, key, c, Partial(lib, key, attempts[0].time, attempts[0].steps, c').0, attempts[1..]);
    }
  }

  /** Publishing on both sides of the relation ends in similar clusters. */
  lemma SimilarStatus(lib: Library, m: ModelService, m': ModelService, a: Cluster, b: Cluster,
                      t1: int, t2: int, reading: Lookup<Reading>)
    requires (forall k :: Value(a, k) == Value(b, k)) && a.models.Keys == b.models.Keys
    requires m.key in b.models && b.models[m.key] == m && a.models[m.key] == m'
    requires forall k :: k in b.models && k != m.key ==> a.models[k] == b.models[k]
    requires m' == m.(version := m'.version, status := m'.status) && AtMostOneAvailable(m.status.conditions)
    requires ReadingFor(lib, m', a.children) == reading == ReadingFor(lib, m, b.children)
    requires m'.status == m.status
             || (reading.Found? && exists t :: m'.status == Publish(m.status, m.generation, reading.value, t))
    ensures PublishStatus(lib, m', t1, a).1 == PublishStatus(lib, m, t2, b).1
    ensures Similar(PublishStatus(lib, m', t1, a).0, PublishStatus(lib, m, t2, b).0)
  {
    StatusStep(lib, m, m', a, t1, reading);
    StatusStep(lib, m, m, b, t2, reading);
    var a', b' := PublishStatus(lib, m', t1, a).0, PublishStatus(lib, m, t2, b).0;
    if reading.Found? {
      var x :| a'.models[m.key].status == Publish(m.status, m.generation, reading.value, x);
      var y :| b'.models[m.key].status == Publish(m.status, m.generation, reading.value, y);
      PublishUntimed(m.status, m.generation, reading.value, x, y);
    }
    assert forall k :: Value(a', k) == Value(a, k) && Value(b', k) == Value(b, k);
  }

  lemma UnderwayConverges(lib: Library, key: Key, c: Cluster, c': Cluster, t1: int, t2: int)
    requires Starts(key, c) && Underway(lib, key, c, c')
    ensures Reconciled(lib, key, t1, c').1 == Reconciled(lib, key, t2, c).1
    ensures Similar(Reconciled(lib, key, t1, c').0, Reconciled(lib, key, t2, c).0)
  {
    var m, m' := c.models[key], c'.models[key];
    SameRun(lib, key, c, c');
    FullRun(lib, key, t1, c');
    FullRun(lib, key, t2, c);
    var p, kinds := ParentOf(m), KindsFor(m.spec);
    var (a, oa) := RunChildren(ParentOf(m'), PlanFor(lib, ParentOf(m')), kinds, c');
    var (b, ob) := RunChildren(p, PlanFor(lib, p), kinds, c);
    KindsDistinct(m.spec);
    RunValues(p, PlanFor(lib, p), kinds, |kinds|, c);
    assert kinds[..|kinds|] == kinds;
    if oa.Done? {
      SimilarStatus(lib, m, m', a, b, t1, t2, FinalReading(lib, m, c));
    }
  }

  /** However many reconciles failed, after however many of their steps, the
      next uninterrupted one has the outcome, the children and the status of a
      single uninterrupted reconcile of the original cluster, up to assigned
      identities, versions and transition times. Both backends; any drift. */
  lemma RetryConvergence(lib: Library, key: Key, attempts: seq<Attempt>, c: Cluster, t1: int, t2: int)
    requires Starts(key, c)
    ensures var c' := AfterAttempts(lib, key, attempts, c);
            && Reconciled(lib, key, t1, c').1 == Reconciled(lib, key, t2, c).1
            && Similar(Reconciled(lib, key, t1, c').0, Reconciled(lib, key, t2, c).0)
  {
    UnderwayAttempts(lib, key, c, c, attempts);
    UnderwayConverges(lib, key, c, AfterAttempts(lib, key, attempts, c), t1, t2);
  }

  // ---------------------------------------------------------------------
  // Fixpoint
  // ---------------------------------------------------------------------

  /** Every child already is what its step would make of it. */
  ghost predicate Settled(p: Parent, plan: Plan, kinds: seq<Kind>, c: Cluster) {
    forall i :: 0 <= i < |kinds| ==>
      var v := Get(c.children, ChildKey(kinds[i], p.key));
      Settle(p, kinds[i], plan(kinds[i]), v) == (v, Done)
  }

  lemma StepSettles(p: Parent, kind: Kind, intent: Intent, c: Cluster)
    requires Step(p, kind, intent, c).1.Done?
    ensures var v := Get(Step(p, kind, intent, c).0.children, ChildKey(kind, p.key));
            Settle(p, kind, intent, v) == (v, Done)
  {
    SettleIdempotent(p, kind, intent, Get(c.children, ChildKey(kind, p.key)));
  }

  /** A run that succeeds leaves every child settled. */
  lemma {:induction false} RunSettles(p: Parent, plan: Plan, kinds: seq<Kind>, c: Cluster)
    requires Distinct(kinds) && RunChildren(p, plan, kinds, c).1.Done?
    ensures Settled(p, plan, kinds, RunChildren(p, plan, kinds, c).0)
  {
    if kinds == [] {
    } else {
      var c1 := Step(p, kinds[0], plan(kinds[0]), c).0;
      StepSettles(p, kinds[0], plan(kinds[0]), c);
      RunSettles(p, plan, kinds[1..], c1);
      RunValues(p, plan, kinds[1..], |kinds| - 1, c1);
      assert kinds[1..][..|kinds| - 1] == kinds[1..];
      var r := RunChildren(p, plan, kinds, c).0;
      assert Get(r.children, ChildKey(kinds[0], p.key)) == Get(c1.children, ChildKey(kinds[0], p.key));
      forall i | 0 <= i < |kinds|
        ensures var v := Get(r.children, ChildKey(kinds[i], p.key));
                Settle(p, kinds[i], plan(kinds[i]), v) == (v, Done)
      {
        if i > 0 {
          assert kinds[1..][i - 1] == kinds[i];
        }
      }
    }
  }

  lemma {:induction false} SettledRun(p: Parent, plan: Plan, kinds: seq<Kind>, c: Cluster)
    requires Settled(p, plan, kinds, c)
    ensures RunChildren(p, plan, kinds, c) == (c, Done)
  {
    if kinds == [] {
    } else {
      assert Step(p, kinds[0], plan(kinds[0]), c) == (c, Done);
      forall i | 0 <= i < |kinds[1..]|
        ensures var v := Get(c.children, ChildKey(kinds[1..][i], p.key));
                Settle(p, kinds[1..][i], plan(kinds[1..][i]), v) == (v, Done)
      {
        assert kinds[1..][i] == kinds[i + 1];
      }
      SettledRun(p, plan, kinds[1..], c);
    }
  }

  /** After a successful reconcile, a second one at any time, with the spec and
      the workload reports unchanged, changes nothing at all: no child, no
      status, not even the revision. Both backends. */
  lemma ReconcileFixpoint(lib: Library, key: Key, c: Cluster, t1: int, t2: int)
    requires Starts(key, c) && Reconciled(lib, key, t1, c).1.Done?
    ensures var after := Reconciled(lib, key, t1, c).0;
            Reconciled(lib, key, t2, after) == (after, Done)
  {
    var m := c.models[key];
    var p, kinds := ParentOf(m), KindsFor(m.spec);
    FullRun(lib, key, t1, c);
    KindsDistinct(m.spec);
    var c1 := RunChildren(p, PlanFor(lib, p), kinds, c).0;
    RunSettles(p, PlanFor(lib, p), kinds, c);
    RunValues(p, PlanFor(lib, p), kinds, |kinds|, c);
    assert kinds[..|kinds|] == kinds;
    StatusStep(lib, m, m, c1, t1, ReadingFor(lib, m, c1.children));
    var after := Reconciled(lib, key, t1, c).0;
    assert Settled(p, PlanFor(lib, p), kinds, after);
    SettledRun(p, PlanFor(lib, p), kinds, after);
    StatusFixpoint(lib, m, after, t2);
    FullRun(lib, key, t2, after);
  }

  lemma StatusFixpoint(lib: Library, m: ModelService, c: Cluster, now: int)
    requires m.key in c.models && AtMostOneAvailable(m.status.conditions)
    requires c.models[m.key] == m.(version := c.models[m.key].version, status := c.models[m.key].status)
    requires ReadingFor(lib, m, c.children).Found?
    requires exists t :: c.models[m.key].status
                         == Publish(m.status, m.generation, ReadingFor(lib, m, c.children).value, t)
    ensures PublishStatus(lib, c.models[m.key], now, c) == (c, Done)
  {
    var r := ReadingFor(lib, m, c.children).value;
    var t :| c.models[m.key].status == Publish(m.status, m.generation, r, t);
    PublishFixpoint(m.status, m.generation, r, t, now);
    assert ReadingFor(lib, c.models[m.key], c.children) == ReadingFor(lib, m, c.children);
  }

  // ---------------------------------------------------------------------
  // What runs keep
  // ---------------------------------------------------------------------

  /** An update keeps the identity of a child, what its own controller reports
      and every field that the operator does not manage. */
  ghost predicate SameObject(before: Child, after: Child) {
    before.uid == after.uid && before.unmanaged == after.unmanaged && before.workload == after.workload
    && before.report == after.report
  }

  /** A child that is there before and after a run is the same object. */
  lemma {:induction false} RunKeeps(p: Parent, plan: Plan, kinds: seq<Kind>, c: Cluster, k: ChildKey)
    requires Distinct(kinds) && k in c.children && k in RunChildren(p, plan, kinds, c).0.children
    ensures SameObject(c.children[k], RunChildren(p, plan, kinds, c).0.children[k])
  {
    if kinds == [] {
    } else {
      var (c1, o) := Step(p, kinds[0], plan(kinds[0]), c);
      StepValue(p, kinds[0], plan(kinds[0]), c);
      if o.Done? {
        RunValues(p, plan, kinds[1..], |kinds| - 1, c1);
        assert kinds[1..][..|kinds| - 1] == kinds[1..];
        if k == ChildKey(kinds[0], p.key) {
          assert Get(RunChildren(p, plan, kinds[1..], c1).0.children, k) == Get(c1.children, k);
        } else {
          assert Get(c1.children, k) == Get(c.children, k);
          RunKeeps(p, plan, kinds[1..], c1, k);
        }
      }
    }
  }

  /** Step `i` stops the run: it fails on the child as it was, the steps before
      it have settled theirs, and no later one has run. */
  ghost predicate StopsAt(p: Parent, plan: Plan, kinds: seq<Kind>, c: Cluster, after: Cluster, error: Error, i: nat) {
    && i < |kinds|
    && Settle(p, kinds[i], plan(kinds[i]), Get(c.children, ChildKey(kinds[i], p.key))).1 == Failed(error)
    && (forall j :: 0 <= j < i ==>
          var v := Get(after.children, ChildKey(kinds[j], p.key)); Settle(p, kinds[j], plan(kinds[j]), v) == (v, Done))
    && (forall j :: i <= j < |kinds| ==>
          Get(after.children, ChildKey(kinds[j], p.key)) == Get(c.children, ChildKey(kinds[j], p.key)))
  }

  lemma {:induction false} RunStops(p: Parent, plan: Plan, kinds: seq<Kind>, c: Cluster) returns (i: nat)
    requires Distinct(kinds) && RunChildren(p, plan, kinds, c).1.Failed?
    ensures var (after, o) := RunChildren(p, plan, kinds, c); StopsAt(p, plan, kinds, c, after, o.error, i)
  {
    var (c1, o) := Step(p, kinds[0], plan(kinds[0]), c);
    StepValue(p, kinds[0], plan(kinds[0]), c);
    if o.Failed? {
      i := 0;
    } else {
      StepSettles(p, kinds[0], plan(kinds[0]), c);
      i := RunStops(p, plan, kinds[1..], c1);
      RunValues(p, plan, kinds[1..], |kinds| - 1, c1);
      assert kinds[1..][..|kinds| - 1] == kinds[1..];
      StopsLater(p, plan, kinds, c, c1, RunChildren(p, plan, kinds[1..], c1).0,
                 RunChildren(p, plan, kinds[1..], c1).1.error, i);
      i := i + 1;
    }
  }

  lemma StopsLater(p: Parent, plan: Plan, kinds: seq<Kind>, c: Cluster, c1: Cluster, after: Cluster, error: Error,
                   i: nat)
    requires kinds != [] && Distinct(kinds) && StopsAt(p, plan, kinds[1..], c1, after, error, i)
    requires forall k :: k != ChildKey(kinds[0], p.key) ==> Get(c1.children, k) == Get(c.children, k)
    requires Get(after.children, ChildKey(kinds[0], p.key)) == Get(c1.children, ChildKey(kinds[0], p.key))
    requires var v := Get(c1.children, ChildKey(kinds[0], p.key));
             Settle(p, kinds[0], plan(kinds[0]), v) == (v, Done)
    ensures StopsAt(p, plan, kinds, c, after, error, i + 1)
  {
    var rest := kinds[1..];
    assert forall j :: 0 < j < |kinds| ==> kinds[j] == rest[j - 1] && kinds[j] != kinds[0];
    forall j | 0 <= j < i + 1
      ensures var v := Get(after.children, ChildKey(kinds[j], p.key));
              Settle(p, kinds[j], plan(kinds[j]), v) == (v, Done)
    {
      if j > 0 {
        assert kinds[j] == rest[j - 1];
      }
    }
    forall j | i + 1 <= j < |kinds|
      ensures Get(after.children, ChildKey(kinds[j], p.key)) == Get(c.children, ChildKey(kinds[j], p.key))
    {
      assert kinds[j] == rest[j - 1];
    }
  }

  /** A reconcile that fails leaves every ModelService, statuses included, alone. */
  lemma FailureKeepsModels(lib: Library, key: Key, now: int, c: Cluster)
    requires Starts(key, c) && Reconciled(lib, key, now, c).1.Failed?
    ensures Reconciled(lib, key, now, c).0.models == c.models
  {
    var m := c.models[key];
    var p, kinds := ParentOf(m), KindsFor(m.spec);
    FullRun(lib, key, now, c);
    KindsDistinct(m.spec);
    RunValues(p, PlanFor(lib, p), kinds, |kinds|, c);
    assert kinds[..|kinds|] == kinds;
  }
}
