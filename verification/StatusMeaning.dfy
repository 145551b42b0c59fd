/** What a published status says about what the workload reported: the exact
    conditions of every phase, in terms of the reported fields. */
module StatusMeaning {
  import opened Strings
  import opened ModelServices
  import opened Conditions
  import opened Statuses

  /** The status carries exactly one Available entry, and it says this. */
  ghost predicate Announces(s: Status, generation: nat, available: ConditionStatus, reason: string, message: string) {
    && AtMostOneAvailable(s.conditions)
    && exists t: int :: Condition("Available", available, generation, reason, message, t) in s.conditions
  }

  /** Publishing hands the reading on, field by field. */
  lemma PublishAnnounces(previous: Status, generation: nat, r: Reading, now: int)
    requires AtMostOneAvailable(previous.conditions)
    ensures var s := Publish(previous, generation, r, now);
            && s.phase == r.phase && s.readyReplicas == r.readyReplicas && s.endpoint == r.endpoint
            && s.observedGeneration == generation
            && Announces(s, generation, r.available, r.reason, r.message)
  {
    var u := UpdateOf(r, generation, now);
    SetEstablishes(previous.conditions, u);
    SetContains(previous.conditions, u);
  }

  lemma {:induction false} SetContains(cs: seq<Condition>, u: Update)
    ensures exists t: int :: Condition("Available", u.status, u.generation, u.reason, u.message, t) in Set(cs, u)
  {
    if cs == [] || cs[0].kind == AVAILABLE {
      var c := Set(cs, u)[0];
      assert c == Condition("Available", u.status, u.generation, u.reason, u.message, c.lastTransitionTime);
      assert c in Set(cs, u);
    } else {
      SetContains(cs[1..], u);
      var t: int :| Condition("Available", u.status, u.generation, u.reason, u.message, t) in Set(cs[1..], u);
      assert Condition("Available", u.status, u.generation, u.reason, u.message, t) in Set(cs, u);
    }
  }

  // ---------------------------------------------------------------------
  // Deployment backend
  // ---------------------------------------------------------------------

  /** The Deployment reports that its progress deadline has passed. */
  predicate DeadlinePassed(w: Workload) {
    exists c :: c in w.conditions
                && c.kind == "Progressing" && c.status == False && c.reason == "ProgressDeadlineExceeded"
  }

  /** All replicas that are asked for, and at least one, are ready and available. */
  predicate AllServing(replicas: int, w: Workload) {
    replicas > 0 && w.readyReplicas == w.availableReplicas == replicas
  }

  lemma DeploymentPhase(lib: Library, m: ModelService, w: Workload)
    ensures var phase := DeploymentReading(lib, m, w).phase;
            && (phase == "Degraded" <==> DeadlinePassed(w))
            && (phase == "Ready" <==> !DeadlinePassed(w) && AllServing(m.spec.replicas, w))
            && (phase == "Provisioning" <==> !DeadlinePassed(w) && !AllServing(m.spec.replicas, w))
  {
    assert DeadlinePassed(w) <==> DEADLINE_EXCEEDED in w.conditions;
  }

  /** The exact meaning of a status derived from a Deployment. */
  ghost predicate DeploymentStatus(lib: Library, m: ModelService, w: Workload, s: Status) {
    && (s.phase == "Degraded" <==> DeadlinePassed(w))
    && (s.phase == "Ready" <==> !DeadlinePassed(w) && AllServing(m.spec.replicas, w))
    && (s.phase == "Provisioning" <==> !DeadlinePassed(w) && !AllServing(m.spec.replicas, w))
    && s.readyReplicas == w.readyReplicas && s.observedGeneration == m.generation
    && s.endpoint == "http://" + m.key.name + "." + m.key.namespace + ".svc.cluster.local:" + lib.itoa(m.spec.port)
    && (s.phase == "Degraded" ==>
          Announces(s, m.generation, False, "ProgressDeadlineExceeded",
                    "The Deployment did not become ready before its progress deadline"))
    && (s.phase == "Ready" ==> Announces(s, m.generation, True, "DeploymentAvailable", "Model service is ready"))
    && (s.phase == "Provisioning" ==>
          Announces(s, m.generation, False, "DeploymentNotReady",
                    "Waiting for ready replicas: " + lib.itoa(w.readyReplicas) + " of " + lib.itoa(m.spec.replicas)
                    + " ready"))
  }

  lemma DeploymentStatusMeaning(lib: Library, m: ModelService, w: Workload, now: int)
    requires AtMostOneAvailable(m.status.conditions)
    ensures DeploymentStatus(lib, m, w, Publish(m.status, m.generation, DeploymentReading(lib, m, w), now))
  {
    DeploymentPhase(lib, m, w);
    PublishAnnounces(m.status, m.generation, DeploymentReading(lib, m, w), now);
  }

  // ---------------------------------------------------------------------
  // Reading an unstructured object
  // ---------------------------------------------------------------------

  predicate Link(a: Json, name: string, b: Json) {
    a.Object? && name in a.fields && a.fields[name] == b
  }

  predicate Chain(chain: seq<Json>, path: seq<string>) {
    |chain| == |path| + 1 && forall i :: 0 <= i < |path| ==> Link(chain[i], path[i], chain[i + 1])
  }

  /** Following `path` from `j` leads through objects to `v`. */
  ghost predicate LeadsTo(j: Json, path: seq<string>, v: Json) {
    exists chain: seq<Json> :: Chain(chain, path) && chain[0] == j && chain[|path|] == v
  }

  /** A lookup finds a value exactly where the path leads to it. */
  lemma {:induction false} FieldLeadsTo(j: Json, path: seq<string>, v: Json)
    ensures Field(j, path) == Found(v) <==> LeadsTo(j, path, v)
    decreases |path|
  {
    if path == [] {
      if j == v {
        assert Chain([j], path);
      }
    } else {
      if j.Object? && path[0] in j.fields {
        FieldLeadsTo(j.fields[path[0]], path[1..], v);
        if LeadsTo(j.fields[path[0]], path[1..], v) {
          LeadsToCons(j, path, v);
        }
      }
      if LeadsTo(j, path, v) {
        LeadsToTail(j, path, v);
      }
    }
  }

  lemma LeadsToCons(j: Json, path: seq<string>, v: Json)
    requires path != [] && j.Object? && path[0] in j.fields && LeadsTo(j.fields[path[0]], path[1..], v)
    ensures LeadsTo(j, path, v)
  {
    var next, rest := j.fields[path[0]], path[1..];
    var chain: seq<Json> :| Chain(chain, rest) && chain[0] == next && chain[|rest|] == v;
    var longer := [j] + chain;
    forall i | 0 <= i < |path|
      ensures Link(longer[i], path[i], longer[i + 1])
    {
      if i > 0 {
        assert Link(chain[i - 1], rest[i - 1], chain[i - 1 + 1]);
      }
    }
    assert Chain(longer, path);
  }

  lemma LeadsToTail(j: Json, path: seq<string>, v: Json)
    requires path != [] && LeadsTo(j, path, v)
    ensures j.Object? && path[0] in j.fields && LeadsTo(j.fields[path[0]], path[1..], v)
  {
    var chain: seq<Json> :| Chain(chain, path) && chain[0] == j && chain[|path|] == v;
    assert Link(chain[0], path[0], chain[0 + 1]);
    var rest, shorter := path[1..], chain[1..];
    forall i | 0 <= i < |rest|
      ensures Link(shorter[i], rest[i], shorter[i + 1])
    {
      assert Link(chain[i + 1], path[i + 1], chain[i + 1 + 1]);
    }
    assert Chain(shorter, rest);
  }

  /** The object says this text at this path. */
  ghost predicate Says(j: Json, path: seq<string>, text: string) {
    LeadsTo(j, path, Text(text))
  }

  /** The path ends early, at a null or at an object without the next field. */
  ghost predicate Absent(j: Json, path: seq<string>) {
    exists n: nat, v: Json :: n < |path| && LeadsTo(j, path[..n], v) && Ends(v, path[n])
  }

  predicate Ends(v: Json, name: string) {
    v.Null? || (v.Object? && name !in v.fields)
  }

  lemma {:induction false} FieldAbsent(j: Json, path: seq<string>)
    ensures Field(j, path).Missing? <==> Absent(j, path)
    decreases |path|
  {
    if path == [] {
    } else {
      FieldLeadsTo(j, path[..0], j);
      if j.Object? && path[0] in j.fields {
        FieldAbsent(j.fields[path[0]], path[1..]);
        if Absent(j.fields[path[0]], path[1..]) {
          var next, rest := j.fields[path[0]], path[1..];
          var n: nat, v: Json :| n < |rest| && LeadsTo(next, rest[..n], v) && Ends(v, rest[n]);
          assert path[..n + 1][1..] == path[1..][..n];
          LeadsToCons(j, path[..n + 1], v);
        }
      }
      if Absent(j, path) {
        AbsentTail(j, path);
      }
    }
  }

  lemma AbsentTail(j: Json, path: seq<string>)
    requires path != [] && Absent(j, path)
    ensures Ends(j, path[0]) || (j.Object? && path[0] in j.fields && Absent(j.fields[path[0]], path[1..]))
  {
    var n: nat, v: Json :| n < |path| && LeadsTo(j, path[..n], v) && Ends(v, path[n]);
    if n == 0 {
      FieldLeadsTo(j, path[..0], v);
    } else {
      LeadsToTail(j, path[..n], v);
      assert path[..n][1..] == path[1..][..n - 1] && path[1..][n - 1] == path[n];
    }
  }

  /** What a text field reads as: its text, or empty when there is none. */
  ghost predicate Reads(j: Json, path: seq<string>, text: string) {
    Says(j, path, text) || (text == "" && Absent(j, path))
  }

  /** The field is a text or absent. */
  ghost predicate Legible(j: Json, path: seq<string>) {
    exists text: string :: Reads(j, path, text)
  }

  lemma TextFieldLegible(j: Json, path: seq<string>)
    ensures TextField(j, path).Found? <==> Legible(j, path)
    ensures !TextField(j, path).Missing?
  {
    if TextField(j, path).Found? {
      TextFieldReads(j, path, TextField(j, path).value);
    }
    if text: string :| Reads(j, path, text) {
      TextFieldReads(j, path, text);
    }
  }

  lemma TextFieldReads(j: Json, path: seq<string>, text: string)
    ensures TextField(j, path) == Found(text) <==> Reads(j, path, text)
  {
    FieldLeadsTo(j, path, Text(text));
    FieldAbsent(j, path);
  }

  // ---------------------------------------------------------------------
  // KServe backend
  // ---------------------------------------------------------------------

  const TARGET_STATE := ["status", "modelStatus", "states", "targetModelState"]
  const TRANSITION := ["status", "modelStatus", "transitionStatus"]
  const FAILURE_REASON := ["status", "modelStatus", "lastFailureInfo", "reason"]
  const FAILURE_MESSAGE := ["status", "modelStatus", "lastFailureInfo", "message"]

  /** KServe reports an active model-load failure: either of the two markers. */
  ghost predicate LoadFailed(isvc: Json) {
    Says(isvc, TARGET_STATE, "FailedToLoad") || Says(isvc, TRANSITION, "BlockedByFailedLoad")
  }

  /** Entry `i` is the first one of type Ready in the reported conditions. */
  ghost predicate FirstReadyEntry(isvc: Json, items: seq<Json>, i: nat) {
    && LeadsTo(isvc, ["status", "conditions"], Array(items)) && i < |items|
    && Says(items[i], ["type"], "Ready")
    && forall j :: 0 <= j < i ==> !Says(items[j], ["type"], "Ready")
  }

  /** That entry has this status and reason. */
  ghost predicate ReportsReady(isvc: Json, status: string, reason: string, message: string) {
    exists items: seq<Json>, i: nat ::
      FirstReadyEntry(isvc, items, i) && EntryText(items[i], "status", status) && EntryText(items[i], "reason", reason)
      && EntryText(items[i], "message", message)
  }

  /** Within a condition a text of the wrong type counts as empty too. */
  ghost predicate EntryText(item: Json, name: string, text: string) {
    Says(item, [name], text) || (text == "" && forall t: string :: !Says(item, [name], t))
  }

  lemma EntryTextIs(item: Json, name: string, text: string)
    ensures TextOrEmpty(item, name) == text <==> EntryText(item, name, text)
  {
    FieldLeadsTo(item, [name], Text(text));
    forall t: string
      ensures Field(item, [name]) == Found(Text(t)) <==> Says(item, [name], t)
    {
      FieldLeadsTo(item, [name], Text(t));
    }
  }

  lemma ReadyItemSays(item: Json)
    ensures IsReadyItem(item) <==> Says(item, ["type"], "Ready")
  {
    FieldLeadsTo(item, ["type"], Text("Ready"));
    EntryTextIs(item, "type", "Ready");
    if !item.Object? {
      assert !Field(item, ["type"]).Found?;
    }
  }

  lemma {:induction false} FirstReadyIs(items: seq<Json>)
    ensures FirstReady(items).None? <==> forall j :: 0 <= j < |items| ==> !IsReadyItem(items[j])
    ensures FirstReady(items).Some? ==>
              exists i: nat :: i < |items| && IsReadyItem(items[i]) && FirstReady(items) == Some(ReadItem(items[i]))
                               && forall j :: 0 <= j < i ==> !IsReadyItem(items[j])
  {
    if items == [] || IsReadyItem(items[0]) {
      assert items != [] ==> 0 < |items| && FirstReady(items) == Some(ReadItem(items[0]));
    } else {
      FirstReadyIs(items[1..]);
      assert forall j :: 0 < j < |items| ==> items[j] == items[1..][j - 1];
      if FirstReady(items).Some? {
        var rest := items[1..];
        var i: nat :| i < |rest| && IsReadyItem(rest[i]) && FirstReady(rest) == Some(ReadItem(rest[i]))
                      && forall j :: 0 <= j < i ==> !IsReadyItem(rest[j]);
        assert items[i + 1] == rest[i];
      } else {
        assert forall j :: 0 <= j < |items[1..]| ==> !IsReadyItem(items[1..][j]);
      }
    }
  }

  /** The search returns exactly what the first Ready entry reports. */
  lemma ReadyOfReports(isvc: Json, status: string, reason: string, message: string)
    requires ReadyOf(isvc).Found?
    ensures ReadyOf(isvc).value == Some(ReadyCondition(status, reason, message))
            <==> ReportsReady(isvc, status, reason, message)
  {
    if ReadyOf(isvc).value == Some(ReadyCondition(status, reason, message)) {
      var items := Field(isvc, ["status", "conditions"]).value.items;
      FieldLeadsTo(isvc, ["status", "conditions"], Array(items));
      FirstReadyIs(items);
      var i: nat :| i < |items| && IsReadyItem(items[i]) && FirstReady(items) == Some(ReadItem(items[i]))
                    && forall j :: 0 <= j < i ==> !IsReadyItem(items[j]);
      FirstEntry(isvc, items, i);
      EntryIs(items[i], status, reason, message);
    }
    if ReportsReady(isvc, status, reason, message) {
      var items: seq<Json>, i: nat :|
        FirstReadyEntry(isvc, items, i) && EntryText(items[i], "status", status)
        && EntryText(items[i], "reason", reason) && EntryText(items[i], "message", message);
      FieldLeadsTo(isvc, ["status", "conditions"], Array(items));
      FirstEntry(isvc, items, i);
      FirstReadyIs(items);
      EntryIs(items[i], status, reason, message);
    }
  }

  lemma FirstEntry(isvc: Json, items: seq<Json>, i: nat)
    requires LeadsTo(isvc, ["status", "conditions"], Array(items)) && i < |items|
    ensures FirstReadyEntry(isvc, items, i)
            <==> IsReadyItem(items[i]) && forall j :: 0 <= j < i ==> !IsReadyItem(items[j])
  {
    forall j | 0 <= j <= i
      ensures IsReadyItem(items[j]) <==> Says(items[j], ["type"], "Ready")
    {
      ReadyItemSays(items[j]);
    }
  }

  lemma EntryIs(item: Json, status: string, reason: string, message: string)
    ensures ReadItem(item) == ReadyCondition(status, reason, message)
            <==> EntryText(item, "status", status) && EntryText(item, "reason", reason)
                 && EntryText(item, "message", message)
  {
    EntryTextIs(item, "status", status);
    EntryTextIs(item, "reason", reason);
    EntryTextIs(item, "message", message);
  }

  /** A failure is found exactly when one of the two markers is reported. */
  lemma ModelFailureIs(isvc: Json)
    requires ModelFailure(isvc).Found?
    ensures ModelFailure(isvc).value.Some? <==> LoadFailed(isvc)
    ensures ModelFailure(isvc).value.Some? ==>
              var failure := ModelFailure(isvc).value.value;
              && Reads(isvc, FAILURE_REASON, failure.reason)
              && exists message: string ::
                   Reads(isvc, FAILURE_MESSAGE, message) && failure.message == TrimSpace(message)
  {
    FieldLeadsTo(isvc, TARGET_STATE, Text("FailedToLoad"));
    FieldLeadsTo(isvc, TRANSITION, Text("BlockedByFailedLoad"));
    if ModelFailure(isvc).value.Some? {
      TextFieldReads(isvc, FAILURE_REASON, TextField(isvc, FAILURE_REASON).value);
      TextFieldReads(isvc, FAILURE_MESSAGE, TextField(isvc, FAILURE_MESSAGE).value);
    }
  }

  /** `part` occurs in `s`. */
  ghost predicate Occurs(part: string, s: string) {
    exists before: string, after: string :: s == before + part + after
  }

  lemma ContainsOccurs(s: string, part: string)
    ensures Contains(s, part) <==> Occurs(part, s)
  {
    if Contains(s, part) {
      var i :| 0 <= i <= |s| && HasPrefix(s[i..], part);
      assert s == s[..i] + part + s[i..][|part|..];
    }
    if Occurs(part, s) {
      var before: string, after: string :| s == before + part + after;
      assert s[|before|..] == part + after;
      assert HasPrefix(s[|before|..], part);
    }
  }

  /** The reason names a failure, in whatever case. */
  ghost predicate NamesFailure(lib: Library, reason: string) {
    var lower := lib.toLower(reason);
    Occurs("failed", lower) || Occurs("error", lower) || Occurs("invalid", lower)
  }

  /** Reason and message as far as there are any, otherwise the fallback. */
  predicate Explains(text: string, reason: string, message: string, fallback: string) {
    && (reason != "" && message != "" ==> text == reason + ": " + message)
    && (reason == "" && message != "" ==> text == message)
    && (reason != "" && message == "" ==> text == reason)
    && (reason == "" && message == "" ==> text == fallback)
  }

  /** No Ready entry is reported. */
  ghost predicate NoneReady(isvc: Json) {
    forall status, reason, message :: !ReportsReady(isvc, status, reason, message)
  }

  /** The exact phase of a KServe reading. */
  ghost predicate KServePhase(lib: Library, isvc: Json, phase: string) {
    && (phase == "Ready" <==>
          !LoadFailed(isvc) && exists reason, message :: ReportsReady(isvc, "True", reason, message))
    && (phase == "Failed" <==>
          || LoadFailed(isvc)
          || exists reason, message :: ReportsReady(isvc, "False", reason, message) && NamesFailure(lib, reason))
    && phase in {"Ready", "Failed", "Provisioning"}
  }

  lemma KServePhaseIs(lib: Library, m: ModelService, isvc: Json)
    requires InferenceReading(lib, m, isvc).Found?
    ensures KServePhase(lib, isvc, InferenceReading(lib, m, isvc).value.phase)
  {
    var phase := InferenceReading(lib, m, isvc).value.phase;
    ModelFailureIs(isvc);
    ReasonNames(lib);
    ReadyReports(isvc);
    FailureDominates(lib, m, isvc);
    PhasesDiffer();
  }

  lemma PhasesDiffer()
    ensures READY != FAILED && FAILED != PROVISIONING && READY != PROVISIONING
  {
    assert READY[0] != FAILED[0] && FAILED[0] != PROVISIONING[0];
  }

  lemma ReadyReports(isvc: Json)
    requires ReadyOf(isvc).Found?
    ensures var ready := ReadyOf(isvc).value;
            && (forall status, reason, message ::
                  ReportsReady(isvc, status, reason, message)
                  <==> ready == Some(ReadyCondition(status, reason, message)))
            && (ready.Some? ==> ReportsReady(isvc, ready.value.status, ready.value.reason, ready.value.message))
  {
    var ready := ReadyOf(isvc).value;
    forall status, reason, message
      ensures ReportsReady(isvc, status, reason, message) <==> ready == Some(ReadyCondition(status, reason, message))
    {
      ReadyOfReports(isvc, status, reason, message);
    }
    if ready.Some? {
      assert ready == Some(ReadyCondition(ready.value.status, ready.value.reason, ready.value.message));
    }
  }

  lemma ReasonNames(lib: Library)
    ensures forall reason :: FailedReason(lib, reason) <==> NamesFailure(lib, reason)
  {
    forall reason
      ensures FailedReason(lib, reason) <==> NamesFailure(lib, reason)
    {
      var lower := lib.toLower(reason);
      ContainsOccurs(lower, "failed");
      ContainsOccurs(lower, "error");
      ContainsOccurs(lower, "invalid");
    }
  }

  /** What the published condition says, case by case. */
  ghost predicate KServeAnnouncement(lib: Library, isvc: Json, available: ConditionStatus, reason: string, text: string)
  {
    && (LoadFailed(isvc) ==>
          && available == False && reason == "InferenceServiceFailed"
          && exists r: string, message: string ::
               Reads(isvc, FAILURE_REASON, r) && Reads(isvc, FAILURE_MESSAGE, message)
               && Explains(text, r, TrimSpace(message), "KServe model failed to load"))
    && (!LoadFailed(isvc) && NoneReady(isvc) ==>
          && available == False && reason == "InferenceServicePending"
          && text == "Waiting for KServe InferenceService status")
    && (forall status, r, message :: !LoadFailed(isvc) && ReportsReady(isvc, status, r, message) ==>
          EntryAnnouncement(lib, status, r, message, available, reason, text))
  }

  ghost predicate EntryAnnouncement(lib: Library, status: string, r: string, message: string,
                                    available: ConditionStatus, reason: string, text: string) {
    if status == "True" then
      && available == True && reason == "InferenceServiceReady"
      && Explains(text, r, message, "KServe InferenceService is ready")
    else if status == "False" && NamesFailure(lib, r) then
      && available == False && reason == "InferenceServiceFailed"
      && Explains(text, r, message, "KServe InferenceService failed")
    else if status == "False" then
      && available == False && reason == "InferenceServiceNotReady"
      && Explains(text, r, message, "KServe InferenceService is not ready")
    else
      && available == False && reason == "InferenceServiceProgressing"
      && Explains(text, r, message, "KServe InferenceService is progressing")
  }

  lemma KServeAnnouncementIs(lib: Library, m: ModelService, isvc: Json)
    requires InferenceReading(lib, m, isvc).Found?
    ensures var r := InferenceReading(lib, m, isvc).value;
            KServeAnnouncement(lib, isvc, r.available, r.reason, r.message)
  {
    var reading := InferenceReading(lib, m, isvc).value;
    ModelFailureIs(isvc);
    var ready := ReadyOf(isvc).value;
    if !LoadFailed(isvc) {
      if ready.Some? {
        ReadyOfReports(isvc, ready.value.status, ready.value.reason, ready.value.message);
      }
      forall status, r, message | ReportsReady(isvc, status, r, message)
        ensures EntryAnnouncement(lib, status, r, message, reading.available, reading.reason, reading.message)
      {
        ReadyOfReports(isvc, status, r, message);
        ReasonNames(lib);
      }
    }
  }

  /** The exact meaning of a status derived from an InferenceService. */
  ghost predicate KServeStatus(lib: Library, m: ModelService, isvc: Json, s: Status) {
    && KServePhase(lib, isvc, s.phase)
    && s.readyReplicas == (if s.phase != "Ready" then 0 else if m.spec.replicas < 1 then 1 else m.spec.replicas)
    && Reads(isvc, ["status", "url"], s.endpoint) && s.observedGeneration == m.generation
    && exists available, reason, text ::
         Announces(s, m.generation, available, reason, text) && KServeAnnouncement(lib, isvc, available, reason, text)
  }

  lemma KServeStatusMeaning(lib: Library, m: ModelService, isvc: Json, now: int)
    requires AtMostOneAvailable(m.status.conditions) && InferenceReading(lib, m, isvc).Found?
    ensures KServeStatus(lib, m, isvc, Publish(m.status, m.generation, InferenceReading(lib, m, isvc).value, now))
  {
    var r := InferenceReading(lib, m, isvc).value;
    PublishAnnounces(m.status, m.generation, r, now);
    KServePhaseIs(lib, m, isvc);
    KServeAnnouncementIs(lib, m, isvc);
    TextFieldReads(isvc, ["status", "url"], TextField(isvc, ["status", "url"]).value);
    KServeNumbers(lib, m, isvc);
  }

  lemma KServeNumbers(lib: Library, m: ModelService, isvc: Json)
    requires InferenceReading(lib, m, isvc).Found?
    ensures var r := InferenceReading(lib, m, isvc).value;
            && TextField(isvc, ["status", "url"]) == Found(r.endpoint)
            && r.readyReplicas == (if r.phase != "Ready" then 0 else if m.spec.replicas < 1 then 1 else m.spec.replicas)
  {
  }

  /** A report is refused exactly when a field that is looked at has the wrong
      type; the failure details are looked at only after a failed load. */
  lemma KServeRefusal(lib: Library, m: ModelService, isvc: Json)
    ensures InferenceReading(lib, m, isvc).Found? <==>
              && Legible(isvc, ["status", "url"])
              && (Absent(isvc, ["status", "conditions"])
                  || exists items: seq<Json> :: LeadsTo(isvc, ["status", "conditions"], Array(items)))
              && Legible(isvc, TARGET_STATE) && Legible(isvc, TRANSITION)
              && (LoadFailed(isvc) ==> Legible(isvc, FAILURE_REASON) && Legible(isvc, FAILURE_MESSAGE))
  {
    TextFieldLegible(isvc, ["status", "url"]);
    ConditionsLegible(isvc);
    FailureLegible(isvc);
  }

  lemma ConditionsLegible(isvc: Json)
    ensures ReadyOf(isvc).Found? <==>
              Absent(isvc, ["status", "conditions"])
              || exists items: seq<Json> :: LeadsTo(isvc, ["status", "conditions"], Array(items))
  {
    var path := ["status", "conditions"];
    FieldAbsent(isvc, path);
    if Field(isvc, path).Found? && Field(isvc, path).value.Array? {
      FieldLeadsTo(isvc, path, Array(Field(isvc, path).value.items));
    }
    if items: seq<Json> :| LeadsTo(isvc, path, Array(items)) {
      FieldLeadsTo(isvc, path, Array(items));
    }
  }

  lemma FailureLegible(isvc: Json)
    ensures ModelFailure(isvc).Found? <==>
              && Legible(isvc, TARGET_STATE) && Legible(isvc, TRANSITION)
              && (LoadFailed(isvc) ==> Legible(isvc, FAILURE_REASON) && Legible(isvc, FAILURE_MESSAGE))
  {
    TextFieldLegible(isvc, TARGET_STATE);
    TextFieldLegible(isvc, TRANSITION);
    TextFieldLegible(isvc, FAILURE_REASON);
    TextFieldLegible(isvc, FAILURE_MESSAGE);
    FieldLeadsTo(isvc, TARGET_STATE, Text("FailedToLoad"));
    FieldLeadsTo(isvc, TRANSITION, Text("BlockedByFailedLoad"));
  }
}
