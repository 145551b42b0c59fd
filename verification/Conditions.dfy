/** The Available condition: one entry of the condition list, replaced in place,
    whose transition time survives updates that change nothing meaningful. */
module Conditions {
  import opened ModelServices

  const AVAILABLE := "Available"

  /** One call of the setter: the clock reading is an input. */
  datatype Update = Update(status: ConditionStatus, reason: string, message: string, generation: nat, time: int)

  function Entry(u: Update, transition: int): Condition {
    Condition(AVAILABLE, u.status, u.generation, u.reason, u.message, transition)
  }

  predicate Matches(c: Condition, u: Update) {
    c.status == u.status && c.reason == u.reason && c.message == u.message
  }

  /** The list after one update: the first Available entry is replaced, or a
      new one is appended. */
  function Set(cs: seq<Condition>, u: Update): seq<Condition> {
    if cs == [] then [Entry(u, u.time)]
    else if cs[0].kind == AVAILABLE then
      [Entry(u, if Matches(cs[0], u) then cs[0].lastTransitionTime else u.time)] + cs[1..]
    else [cs[0]] + Set(cs[1..], u)
  }

  /** The status object whose fields the updater assigns one by one. */
  class StatusRecord {
    var phase: string
    var readyReplicas: int
    var endpoint: string
    var observedGeneration: nat
    var conditions: seq<Condition>

    ghost function Value(): Status
      reads this
    {
      Status(phase, readyReplicas, endpoint, observedGeneration, conditions)
    }

    constructor (s: Status)
      ensures Value() == s
    {
      phase := s.phase;
      readyReplicas := s.readyReplicas;
      endpoint := s.endpoint;
      observedGeneration := s.observedGeneration;
      conditions := s.conditions;
    }

    method SetCondition(u: Update)
      modifies this`conditions
      ensures conditions == Set(old(conditions), u)
    {
      var condition := Entry(u, u.time);
      for index := 0 to |conditions|
        invariant conditions == old(conditions)
        invariant Set(conditions, u) == conditions[..index] + Set(conditions[index..], u)
        invariant forall i :: 0 <= i < index ==> conditions[i].kind != AVAILABLE
      {
        var existing := conditions[index];
        assert conditions[index..] == [existing] + conditions[index + 1..];
        if existing.kind != AVAILABLE {
          assert conditions[..index + 1] == conditions[..index] + [existing];
          continue;
        }
        if Matches(existing, u) {
          condition := condition.(lastTransitionTime := existing.lastTransitionTime);
        }
        assert conditions[index := condition] == conditions[..index] + ([condition] + conditions[index + 1..]);
        conditions := conditions[index := condition];
        return;
      }
      conditions := conditions + [condition];
    }
  }

  // ---------------------------------------------------------------------
  // Histories
  // ---------------------------------------------------------------------

  predicate NoAvailable(cs: seq<Condition>) {
    forall c :: c in cs ==> c.kind != AVAILABLE
  }

  function Replay(cs: seq<Condition>, updates: seq<Update>): seq<Condition> {
    if updates == [] then cs
    else Set(Replay(cs, updates[..|updates| - 1]), updates[|updates| - 1])
  }

  predicate SameState(a: Update, b: Update) {
    a.status == b.status && a.reason == b.reason && a.message == b.message
  }

  /** `start` begins the maximal block of final updates that all say the same. */
  predicate TrailingBlock(updates: seq<Update>, start: nat) {
    && start < |updates|
    && (forall i :: start <= i < |updates| ==> SameState(updates[i], updates[|updates| - 1]))
    && (start > 0 ==> !SameState(updates[start - 1], updates[|updates| - 1]))
  }

  /** Where there is no Available entry the setter appends one; where it is the
      last entry the setter replaces it and nothing else. */
  lemma {:induction false} SetAtEnd(others: seq<Condition>, u: Update)
    requires NoAvailable(others)
    ensures Set(others, u) == others + [Entry(u, u.time)]
    ensures forall c: Condition :: c.kind == AVAILABLE ==>
              Set(others + [c], u) == others + [Entry(u, if Matches(c, u) then c.lastTransitionTime else u.time)]
  {
    if others == [] {
      forall c: Condition | c.kind == AVAILABLE
        ensures Set(others + [c], u) == others + [Entry(u, if Matches(c, u) then c.lastTransitionTime else u.time)]
      {
        assert others + [c] == [c];
      }
    } else {
      SetAtEnd(others[1..], u);
      assert others == [others[0]] + others[1..];
      forall c: Condition | c.kind == AVAILABLE
        ensures Set(others + [c], u) == others + [Entry(u, if Matches(c, u) then c.lastTransitionTime else u.time)]
      {
        assert (others + [c])[1..] == others[1..] + [c];
      }
    }
  }

  /** After any non-empty history there is exactly one Available entry, at the
      end; every other entry keeps its value and place; and its transition time
      is the time of the first update of the trailing block. */
  lemma {:induction false} TransitionHistory(others: seq<Condition>, updates: seq<Update>, start: nat)
    requires NoAvailable(others) && TrailingBlock(updates, start)
    ensures Replay(others, updates) == others + [Entry(updates[|updates| - 1], updates[start].time)]
  {
    var n := |updates| - 1;
    var before, last := updates[..n], updates[n];
    SetAtEnd(others, last);
    if n > 0 {
      if start == n {
        var s := SomeTrailingBlock(before);
        TransitionHistory(others, before, s);
        assert !SameState(before[n - 1], last);
      } else {
        assert SameState(updates[n - 1], last);
        TransitionHistory(others, before, start);
      }
    }
  }

  lemma {:induction false} SomeTrailingBlock(updates: seq<Update>) returns (start: nat)
    requires updates != []
    ensures TrailingBlock(updates, start)
  {
    var n := |updates| - 1;
    start := n;
    if n > 0 && SameState(updates[n - 1], updates[n]) {
      start := SomeTrailingBlock(updates[..n]);
    }
  }

  // ---------------------------------------------------------------------
  // Lists as the schema allows them
  // ---------------------------------------------------------------------

  /** The list is a map by condition type, so at most one entry is Available. */
  predicate AtMostOneAvailable(cs: seq<Condition>) {
    forall i, j :: 0 <= i < j < |cs| ==> cs[i].kind != AVAILABLE || cs[j].kind != AVAILABLE
  }

  predicate IsAvailable(cs: seq<Condition>, status: ConditionStatus) {
    exists c :: c in cs && c.kind == AVAILABLE && c.status == status
  }

  function Others(cs: seq<Condition>): seq<Condition> {
    if cs == [] then [] else (if cs[0].kind == AVAILABLE then [] else [cs[0]]) + Others(cs[1..])
  }

  /** Every other entry keeps its value and its order, in any list. */
  lemma {:induction false} OthersKept(cs: seq<Condition>, u: Update)
    ensures Others(Set(cs, u)) == Others(cs)
  {
    if cs == [] {
    } else {
      var after := Set(cs, u);
      if cs[0].kind == AVAILABLE {
        assert after[1..] == cs[1..];
      } else {
        OthersKept(cs[1..], u);
        assert after[1..] == Set(cs[1..], u);
      }
    }
  }

  /** Whatever the list held before, the setter leaves a single Available entry
      that says what the update says, and a later equal update changes nothing. */
  lemma {:induction false} SetEstablishes(cs: seq<Condition>, u: Update)
    requires AtMostOneAvailable(cs)
    ensures AtMostOneAvailable(Set(cs, u))
    ensures forall s :: IsAvailable(Set(cs, u), s) <==> s == u.status
    ensures NoAvailable(cs) ==> forall c :: c in Set(cs, u) && c.kind == AVAILABLE ==> c == Entry(u, u.time)
    ensures forall time: int :: Set(Set(cs, u), u.(time := time)) == Set(cs, u)
  {
    var after := Set(cs, u);
    if cs == [] {
      assert after[0].kind == AVAILABLE && after[0] in after;
      assert after[1..] == [];
    } else if cs[0].kind == AVAILABLE {
      assert forall i :: 0 < i < |cs| ==> cs[i].kind != AVAILABLE;
      assert after[0].kind == AVAILABLE && after[0] in after;
      assert after[1..] == cs[1..];
      forall time: int
        ensures Set(after, u.(time := time)) == after
      {
        assert Matches(after[0], u.(time := time));
        assert after == [after[0]] + after[1..];
      }
    } else {
      assert forall i, j :: 0 <= i < j < |cs[1..]| ==> cs[1..][i] == cs[i + 1] && cs[1..][j] == cs[j + 1];
      SetEstablishes(cs[1..], u);
      var tail := Set(cs[1..], u);
      assert after == [cs[0]] + tail && after[1..] == tail;
      forall s
        ensures IsAvailable(after, s) <==> s == u.status
      {
        assert IsAvailable(tail, s) <==> s == u.status;
        if IsAvailable(tail, s) {
          var c :| c in tail && c.kind == AVAILABLE && c.status == s;
          assert c in after;
        }
      }
      assert NoAvailable(cs) ==> NoAvailable(cs[1..]);
    }
  }
}
