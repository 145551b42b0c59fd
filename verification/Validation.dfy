/** Request validation. Every sub-validator appends its findings to a shared
    list; a request is accepted when the list stays empty. */
module Validation {
  import opened Strings
  import opened ModelServices

  datatype Detail = Detail(field: string, message: string)

  // ---------------------------------------------------------------------
  // The findings, as values
  // ---------------------------------------------------------------------

  function When(condition: bool, field: string, message: string): (r: seq<Detail>)
    ensures r == [] <==> !condition
  {
    if condition then [Detail(field, message)] else []
  }

  function NameFindings(lib: Library, name: string): seq<Detail> {
    if TrimSpace(name) == "" then [Detail("name", "must not be empty")]
    else
      var errors := lib.dnsLabelErrors(name);
      seq(|errors|, i requires 0 <= i < |errors| => Detail("name", errors[i]))
  }

  function ReplicaFindings(lib: Library, replicas: int, maxReplicas: int): seq<Detail> {
    When(replicas < 1 || replicas > maxReplicas, "replicas", "must be between 1 and " + lib.itoa(maxReplicas))
  }

  predicate ValidHostname(lib: Library, hostname: string) {
    |hostname| <= 253 && !lib.isIP(hostname) && lib.dnsSubdomainErrors(hostname) == []
  }

  function ExposureFindings(lib: Library, e: ExposureRequest): seq<Detail> {
    if !e.enabled then []
    else
      (if TrimSpace(e.hostname) == "" then [Detail("exposure.hostname", "is required when exposure is enabled")]
       else When(!ValidHostname(lib, e.hostname), "exposure.hostname", "must be a valid DNS hostname"))
      + When(e.pathPrefix != "" && !HasPrefix(e.pathPrefix, "/"), "exposure.pathPrefix", "must begin with /")
  }

  function StorageFindings(lib: Library, s: StorageRequest): seq<Detail> {
    if !s.enabled then []
    else
      (if TrimSpace(s.size) == "" then [Detail("storage.size", "is required when storage is enabled")]
       else When(lib.parseQuantity(s.size).None?, "storage.size", "must be a valid Kubernetes quantity"))
      + When(!HasPrefix(s.mountPath, "/"), "storage.mountPath", "must be an absolute path")
  }

  function PredictorFindings(p: Predictor): seq<Detail> {
    When(p.modelFormat.name != "sklearn", "predictor.modelFormat.name", "must be sklearn")
    + When(p.modelFormat.version != "1", "predictor.modelFormat.version", "must be 1")
    + When(p.runtime != "kserve-sklearnserver", "predictor.runtime", "must be kserve-sklearnserver")
    + When(!ValidS3(p.storageUri), "predictor.storageUri", "must use the form s3://bucket/object-path")
    + When(p.serviceAccountName != "kserve-model-reader", "predictor.serviceAccountName", "must be kserve-model-reader")
  }

  function DeploymentFindings(lib: Library, r: UpdateRequest): seq<Detail> {
    When(TrimSpace(r.image) == "", "image", "must not be empty")
    + When(r.port < 1 || r.port > 65535, "port", "must be between 1 and 65535")
    + When(r.predictor.Some?, "predictor", "may only be configured for KServe")
    + ExposureFindings(lib, r.exposure)
    + StorageFindings(lib, r.storage)
  }

  function KServeFindings(r: UpdateRequest): seq<Detail> {
    When(TrimSpace(r.image) != "", "image", "must be omitted for KServe")
    + When(r.port != 0, "port", "must be omitted for KServe")
    + When(r.exposure.enabled, "exposure.enabled", "must be false for KServe")
    + When(r.storage.enabled, "storage.enabled", "must be false for KServe")
    + (if r.predictor.None? then [Detail("predictor", "is required for KServe")]
       else PredictorFindings(r.predictor.value))
  }

  /** Findings for a create request, and for an update request under its name. */
  function Findings(lib: Library, name: string, r: UpdateRequest, maxReplicas: int): seq<Detail> {
    NameFindings(lib, name)
    + ReplicaFindings(lib, r.replicas, maxReplicas)
    + (var backend := NormalizedBackend(r.backend);
       if backend == DEPLOYMENT then DeploymentFindings(lib, r)
       else if backend == KSERVE then KServeFindings(r)
       else [Detail("backend", "must be one of: Deployment, KServe")])
  }

  // ---------------------------------------------------------------------
  // What acceptance means
  // ---------------------------------------------------------------------

  /** The accepted requests, said without the validator. */
  ghost predicate Acceptable(lib: Library, name: string, r: UpdateRequest, maxReplicas: int) {
    && !Blank(name) && lib.dnsLabelErrors(name) == []
    && 1 <= r.replicas <= maxReplicas
    && (|| (r.backend in {"", DEPLOYMENT} && AcceptableDeployment(lib, r))
        || (r.backend == KSERVE && AcceptableKServe(r)))
  }

  ghost predicate AcceptableDeployment(lib: Library, r: UpdateRequest) {
    && !Blank(r.image) && 1 <= r.port <= 65535 && r.predictor.None?
    && (r.exposure.enabled ==>
          && !Blank(r.exposure.hostname) && |r.exposure.hostname| <= 253
          && !lib.isIP(r.exposure.hostname) && lib.dnsSubdomainErrors(r.exposure.hostname) == []
          && (r.exposure.pathPrefix == "" || r.exposure.pathPrefix[0] == '/'))
    && (r.storage.enabled ==>
          && !Blank(r.storage.size) && lib.parseQuantity(r.storage.size).Some?
          && r.storage.mountPath != "" && r.storage.mountPath[0] == '/')
  }

  ghost predicate AcceptableKServe(r: UpdateRequest) {
    && Blank(r.image) && r.port == 0 && !r.exposure.enabled && !r.storage.enabled
    && r.predictor.Some?
    && S3Location(r.predictor.value.storageUri)
    && r.predictor.value == Predictor(ModelFormat("sklearn", "1"), "kserve-sklearnserver",
                                      r.predictor.value.storageUri, "kserve-model-reader")
  }

  /** The documented form of a storage location: `s3://bucket/object-path`. */
  ghost predicate S3Location(uri: string) {
    exists bucket: string, path: string ::
      uri == "s3://" + bucket + "/" + path && bucket != "" && path != "" && '/' !in bucket
  }

  /** The schema's pattern for the same field, `^s3://[^/]+/.+`, where `.`
      matches every character but a line feed. */
  ghost predicate S3Pattern(uri: string) {
    exists bucket: string, path: string ::
      uri == "s3://" + bucket + "/" + path && bucket != "" && path != "" && '/' !in bucket && path[0] != '\n'
  }

  /** Index of the first slash, or the length when there is none. */
  function FirstSlash(s: string): (i: nat)
    ensures i <= |s|
    ensures '/' !in s[..i]
    ensures i < |s| ==> s[i] == '/'
  {
    if s == "" || s[0] == '/' then 0
    else
      var i := FirstSlash(s[1..]) + 1;
      assert s[..i] == [s[0]] + s[1..][..i - 1];
      i
  }

  predicate ValidS3(uri: string) {
    HasPrefix(uri, "s3://") && 0 < FirstSlash(uri[5..]) < |uri[5..]| - 1
  }

  lemma {:induction false} FirstSlashUnique(bucket: string, path: string)
    requires '/' !in bucket
    ensures FirstSlash(bucket + "/" + path) == |bucket|
  {
    if bucket == "" {
    } else {
      FirstSlashUnique(bucket[1..], path);
      assert (bucket + "/" + path)[1..] == bucket[1..] + "/" + path;
    }
  }

  lemma S3Decompose(uri: string)
    requires ValidS3(uri)
    ensures var i := FirstSlash(uri[5..]);
            var bucket, path := uri[5..][..i], uri[5..][i + 1..];
            uri == "s3://" + bucket + "/" + path && bucket != "" && path != "" && '/' !in bucket
  {
    var i := FirstSlash(uri[5..]);
    assert uri == uri[..5] + (uri[5..][..i] + [uri[5..][i]] + uri[5..][i + 1..]);
  }

  lemma S3Compose(bucket: string, path: string)
    requires bucket != "" && path != "" && '/' !in bucket
    ensures ValidS3("s3://" + bucket + "/" + path)
    ensures var location := ("s3://" + bucket + "/" + path)[5..];
            FirstSlash(location) == |bucket| && location[|bucket| + 1..] == path
  {
    var uri := "s3://" + bucket + "/" + path;
    FirstSlashUnique(bucket, path);
    assert uri[5..] == bucket + "/" + path;
    assert uri[..5] == "s3://";
    assert (bucket + "/" + path)[|bucket| + 1..] == path;
  }

  /** The splitter accepts exactly the documented form. */
  lemma ValidS3Correct(uri: string)
    ensures ValidS3(uri) <==> S3Location(uri)
  {
    if ValidS3(uri) {
      S3Decompose(uri);
    }
    if S3Location(uri) {
      var bucket: string, path: string :|
        uri == "s3://" + bucket + "/" + path && bucket != "" && path != "" && '/' !in bucket;
      S3Compose(bucket, path);
    }
  }

  /** The validator and the schema pattern agree except on object paths that
      begin with a line feed, which only the validator accepts. */
  lemma SchemaPatternAgreement(uri: string)
    ensures S3Pattern(uri) <==> ValidS3(uri) && uri[5..][FirstSlash(uri[5..]) + 1] != '\n'
  {
    if ValidS3(uri) {
      S3Decompose(uri);
      var i := FirstSlash(uri[5..]);
      assert uri[5..][i + 1..][0] == uri[5..][i + 1];
    }
    if S3Pattern(uri) {
      var bucket: string, path: string :|
        uri == "s3://" + bucket + "/" + path && bucket != "" && path != "" && '/' !in bucket && path[0] != '\n';
      S3Compose(bucket, path);
      assert uri[5..][|bucket| + 1] == path[0];
    }
  }

  /** One such location. */
  lemma LineFeedLocation()
    ensures ValidS3("s3://b/\nx") && !S3Pattern("s3://b/\nx")
  {
    var uri := "s3://b/\nx";
    S3Compose("b", "\nx");
    assert uri == "s3://" + "b" + "/" + "\nx";
    SchemaPatternAgreement(uri);
    assert uri[5..] == "b/\nx";
  }

  /** The validator reports nothing exactly on the acceptable requests. */
  lemma FindingsCorrect(lib: Library, name: string, r: UpdateRequest, maxReplicas: int)
    ensures Findings(lib, name, r, maxReplicas) == [] <==> Acceptable(lib, name, r, maxReplicas)
  {
    NameCorrect(lib, name);
    DeploymentCorrect(lib, r);
    KServeCorrect(r);
  }

  lemma NameCorrect(lib: Library, name: string)
    ensures NameFindings(lib, name) == [] <==> !Blank(name) && lib.dnsLabelErrors(name) == []
  {
    TrimSpaceEmpty(name);
    if !Blank(name) {
      assert |NameFindings(lib, name)| == |lib.dnsLabelErrors(name)|;
    }
  }

  lemma PrefixSlash(s: string)
    ensures HasPrefix(s, "/") <==> s != "" && s[0] == '/'
  {
    if s != "" { assert s[..1] == [s[0]]; }
  }

  lemma DeploymentCorrect(lib: Library, r: UpdateRequest)
    ensures DeploymentFindings(lib, r) == [] <==> AcceptableDeployment(lib, r)
  {
    TrimSpaceEmpty(r.image);
    TrimSpaceEmpty(r.exposure.hostname);
    TrimSpaceEmpty(r.storage.size);
    PrefixSlash(r.exposure.pathPrefix);
    PrefixSlash(r.storage.mountPath);
  }

  lemma KServeCorrect(r: UpdateRequest)
    ensures KServeFindings(r) == [] <==> AcceptableKServe(r)
  {
    TrimSpaceEmpty(r.image);
    if r.predictor.Some? {
      ValidS3Correct(r.predictor.value.storageUri);
    }
  }

  // ---------------------------------------------------------------------
  // Which fields are reported
  // ---------------------------------------------------------------------

  function FieldsOf(details: seq<Detail>): set<string> {
    set d | d in details :: d.field
  }

  function Only(condition: bool, field: string): set<string> {
    if condition then {field} else {}
  }

  lemma FieldsConcat(a: seq<Detail>, b: seq<Detail>)
    ensures FieldsOf(a + b) == FieldsOf(a) + FieldsOf(b)
  {
    assert forall d :: d in a + b <==> d in a || d in b;
  }

  lemma FieldsWhen(condition: bool, field: string, message: string)
    ensures FieldsOf(When(condition, field, message)) == Only(condition, field)
  {
    if condition {
      assert Detail(field, message) in When(condition, field, message);
    }
  }

  lemma FieldsOne(d: Detail)
    ensures FieldsOf([d]) == {d.field}
  {
    assert d in [d];
  }

  lemma FieldsFive(a: seq<Detail>, b: seq<Detail>, c: seq<Detail>, d: seq<Detail>, e: seq<Detail>)
    ensures FieldsOf(a + b + c + d + e) == FieldsOf(a) + FieldsOf(b) + FieldsOf(c) + FieldsOf(d) + FieldsOf(e)
  {
    FieldsConcat(a, b);
    FieldsConcat(a + b, c);
    FieldsConcat(a + b + c, d);
    FieldsConcat(a + b + c + d, e);
  }

  /** The name and the replicas are reported exactly when they are at fault. */
  lemma CommonFields(lib: Library, name: string, replicas: int, maxReplicas: int)
    ensures FieldsOf(NameFindings(lib, name)) == Only(Blank(name) || lib.dnsLabelErrors(name) != [], "name")
    ensures FieldsOf(ReplicaFindings(lib, replicas, maxReplicas)) == Only(!(1 <= replicas <= maxReplicas), "replicas")
  {
    TrimSpaceEmpty(name);
    var errors := lib.dnsLabelErrors(name);
    if !Blank(name) && errors != [] {
      assert NameFindings(lib, name)[0].field == "name";
    }
    FieldsWhen(replicas < 1 || replicas > maxReplicas, "replicas", "must be between 1 and " + lib.itoa(maxReplicas));
  }

  lemma ExposureFields(lib: Library, e: ExposureRequest)
    ensures FieldsOf(ExposureFindings(lib, e))
            == Only(e.enabled && (Blank(e.hostname) || |e.hostname| > 253 || lib.isIP(e.hostname)
                                  || lib.dnsSubdomainErrors(e.hostname) != []), "exposure.hostname")
               + Only(e.enabled && e.pathPrefix != "" && e.pathPrefix[0] != '/', "exposure.pathPrefix")
  {
    TrimSpaceEmpty(e.hostname);
    PrefixSlash(e.pathPrefix);
    var bad := !ValidHostname(lib, e.hostname);
    var prefix := e.pathPrefix != "" && !HasPrefix(e.pathPrefix, "/");
    var missing := Detail("exposure.hostname", "is required when exposure is enabled");
    FieldsWhen(bad, "exposure.hostname", "must be a valid DNS hostname");
    FieldsWhen(prefix, "exposure.pathPrefix", "must begin with /");
    FieldsOne(missing);
    FieldsConcat(if Blank(e.hostname) then [missing]
                 else When(bad, "exposure.hostname", "must be a valid DNS hostname"),
                 When(prefix, "exposure.pathPrefix", "must begin with /"));
  }

  lemma StorageFields(lib: Library, s: StorageRequest)
    ensures FieldsOf(StorageFindings(lib, s))
            == Only(s.enabled && (Blank(s.size) || lib.parseQuantity(s.size).None?), "storage.size")
               + Only(s.enabled && (s.mountPath == "" || s.mountPath[0] != '/'), "storage.mountPath")
  {
    TrimSpaceEmpty(s.size);
    PrefixSlash(s.mountPath);
    var bad := lib.parseQuantity(s.size).None?;
    var missing := Detail("storage.size", "is required when storage is enabled");
    FieldsWhen(bad, "storage.size", "must be a valid Kubernetes quantity");
    FieldsWhen(!HasPrefix(s.mountPath, "/"), "storage.mountPath", "must be an absolute path");
    FieldsOne(missing);
    FieldsConcat(if Blank(s.size) then [missing] else When(bad, "storage.size", "must be a valid Kubernetes quantity"),
                 When(!HasPrefix(s.mountPath, "/"), "storage.mountPath", "must be an absolute path"));
  }

  /** A Deployment request is reported under exactly the fields at fault. */
  lemma DeploymentFields(lib: Library, r: UpdateRequest)
    ensures FieldsOf(DeploymentFindings(lib, r))
            == Only(Blank(r.image), "image") + Only(!(1 <= r.port <= 65535), "port")
               + Only(r.predictor.Some?, "predictor")
               + FieldsOf(ExposureFindings(lib, r.exposure)) + FieldsOf(StorageFindings(lib, r.storage))
  {
    TrimSpaceEmpty(r.image);
    FieldsWhen(TrimSpace(r.image) == "", "image", "must not be empty");
    FieldsWhen(r.port < 1 || r.port > 65535, "port", "must be between 1 and 65535");
    FieldsWhen(r.predictor.Some?, "predictor", "may only be configured for KServe");
    FieldsFive(When(TrimSpace(r.image) == "", "image", "must not be empty"),
               When(r.port < 1 || r.port > 65535, "port", "must be between 1 and 65535"),
               When(r.predictor.Some?, "predictor", "may only be configured for KServe"),
               ExposureFindings(lib, r.exposure), StorageFindings(lib, r.storage));
  }

  lemma PredictorFields(p: Predictor)
    ensures FieldsOf(PredictorFindings(p))
            == Only(p.modelFormat.name != "sklearn", "predictor.modelFormat.name")
               + Only(p.modelFormat.version != "1", "predictor.modelFormat.version")
               + Only(p.runtime != "kserve-sklearnserver", "predictor.runtime")
               + Only(!S3Location(p.storageUri), "predictor.storageUri")
               + Only(p.serviceAccountName != "kserve-model-reader", "predictor.serviceAccountName")
  {
    ValidS3Correct(p.storageUri);
    FieldsWhen(p.modelFormat.name != "sklearn", "predictor.modelFormat.name", "must be sklearn");
    FieldsWhen(p.modelFormat.version != "1", "predictor.modelFormat.version", "must be 1");
    FieldsWhen(p.runtime != "kserve-sklearnserver", "predictor.runtime", "must be kserve-sklearnserver");
    FieldsWhen(!ValidS3(p.storageUri), "predictor.storageUri", "must use the form s3://bucket/object-path");
    FieldsWhen(p.serviceAccountName != "kserve-model-reader",
               "predictor.serviceAccountName", "must be kserve-model-reader");
    FieldsFive(When(p.modelFormat.name != "sklearn", "predictor.modelFormat.name", "must be sklearn"),
               When(p.modelFormat.version != "1", "predictor.modelFormat.version", "must be 1"),
               When(p.runtime != "kserve-sklearnserver", "predictor.runtime", "must be kserve-sklearnserver"),
               When(!ValidS3(p.storageUri), "predictor.storageUri", "must use the form s3://bucket/object-path"),
               When(p.serviceAccountName != "kserve-model-reader",
                    "predictor.serviceAccountName", "must be kserve-model-reader"));
  }

  /** A KServe request is reported under exactly the fields at fault. */
  lemma KServeFields(r: UpdateRequest)
    ensures FieldsOf(KServeFindings(r))
            == Only(!Blank(r.image), "image") + Only(r.port != 0, "port")
               + Only(r.exposure.enabled, "exposure.enabled") + Only(r.storage.enabled, "storage.enabled")
               + (if r.predictor.None? then {"predictor"} else FieldsOf(PredictorFindings(r.predictor.value)))
  {
    TrimSpaceEmpty(r.image);
    FieldsOne(Detail("predictor", "is required for KServe"));
    KServeParts(r, if r.predictor.None? then [Detail("predictor", "is required for KServe")]
                   else PredictorFindings(r.predictor.value));
  }

  lemma KServeParts(r: UpdateRequest, last: seq<Detail>)
    ensures FieldsOf(When(TrimSpace(r.image) != "", "image", "must be omitted for KServe")
                     + When(r.port != 0, "port", "must be omitted for KServe")
                     + When(r.exposure.enabled, "exposure.enabled", "must be false for KServe")
                     + When(r.storage.enabled, "storage.enabled", "must be false for KServe") + last)
            == Only(TrimSpace(r.image) != "", "image") + Only(r.port != 0, "port")
               + Only(r.exposure.enabled, "exposure.enabled") + Only(r.storage.enabled, "storage.enabled")
               + FieldsOf(last)
  {
    FieldsWhen(TrimSpace(r.image) != "", "image", "must be omitted for KServe");
    FieldsWhen(r.port != 0, "port", "must be omitted for KServe");
    FieldsWhen(r.exposure.enabled, "exposure.enabled", "must be false for KServe");
    FieldsWhen(r.storage.enabled, "storage.enabled", "must be false for KServe");
    FieldsFive(When(TrimSpace(r.image) != "", "image", "must be omitted for KServe"),
               When(r.port != 0, "port", "must be omitted for KServe"),
               When(r.exposure.enabled, "exposure.enabled", "must be false for KServe"),
               When(r.storage.enabled, "storage.enabled", "must be false for KServe"), last);
  }

  /** All findings together, by backend. */
  lemma ReportedFields(lib: Library, name: string, r: UpdateRequest, maxReplicas: int)
    ensures FieldsOf(Findings(lib, name, r, maxReplicas))
            == Only(Blank(name) || lib.dnsLabelErrors(name) != [], "name")
               + Only(!(1 <= r.replicas <= maxReplicas), "replicas")
               + (if r.backend in {"", "Deployment"} then FieldsOf(DeploymentFindings(lib, r))
                  else if r.backend == "KServe" then FieldsOf(KServeFindings(r))
                  else {"backend"})
  {
    CommonFields(lib, name, r.replicas, maxReplicas);
    var unknown := Detail("backend", "must be one of: Deployment, KServe");
    FieldsOne(unknown);
    var rest := if r.backend in {"", "Deployment"} then DeploymentFindings(lib, r)
                else if r.backend == "KServe" then KServeFindings(r) else [unknown];
    var names, replicas := NameFindings(lib, name), ReplicaFindings(lib, r.replicas, maxReplicas);
    assert Findings(lib, name, r, maxReplicas) == names + replicas + rest;
    FieldsConcat(names, replicas);
    FieldsConcat(names + replicas, rest);
  }

  // ---------------------------------------------------------------------
  // The validator
  // ---------------------------------------------------------------------

  /** The slice of details that the sub-validators share by pointer. */
  class DetailList {
    var items: seq<Detail>

    constructor ()
      ensures items == []
    {
      items := [];
    }

    method Add(field: string, message: string)
      modifies this
      ensures items == old(items) + [Detail(field, message)]
    {
      items := items + [Detail(field, message)];
    }

    method ValidateName(lib: Library, name: string)
      modifies this
      ensures items == old(items) + NameFindings(lib, name)
    {
      if TrimSpace(name) == "" {
        Add("name", "must not be empty");
        return;
      }
      var errors := lib.dnsLabelErrors(name);
      for i := 0 to |errors|
        invariant items == old(items) + NameFindings(lib, name)[..i]
      {
        Add("name", errors[i]);
        assert NameFindings(lib, name)[..i + 1] == NameFindings(lib, name)[..i] + [NameFindings(lib, name)[i]];
      }
      assert NameFindings(lib, name)[..|errors|] == NameFindings(lib, name);
    }

    method ValidateReplicas(lib: Library, replicas: int, maxReplicas: int)
      modifies this
      ensures items == old(items) + ReplicaFindings(lib, replicas, maxReplicas)
    {
      if replicas < 1 || replicas > maxReplicas {
        Add("replicas", "must be between 1 and " + lib.itoa(maxReplicas));
      }
    }

    method ValidateExposure(lib: Library, e: ExposureRequest)
      modifies this
      ensures items == old(items) + ExposureFindings(lib, e)
    {
      if !e.enabled {
        return;
      }
      if TrimSpace(e.hostname) == "" {
        Add("exposure.hostname", "is required when exposure is enabled");
      } else if !ValidHostname(lib, e.hostname) {
        Add("exposure.hostname", "must be a valid DNS hostname");
      }
      if e.pathPrefix != "" && !HasPrefix(e.pathPrefix, "/") {
        Add("exposure.pathPrefix", "must begin with /");
      }
    }

    method ValidateStorage(lib: Library, s: StorageRequest)
      modifies this
      ensures items == old(items) + StorageFindings(lib, s)
    {
      if !s.enabled {
        return;
      }
      if TrimSpace(s.size) == "" {
        Add("storage.size", "is required when storage is enabled");
      } else if lib.parseQuantity(s.size).None? {
        Add("storage.size", "must be a valid Kubernetes quantity");
      }
      if !HasPrefix(s.mountPath, "/") {
        Add("storage.mountPath", "must be an absolute path");
      }
    }

    method AddWhen(condition: bool, field: string, message: string)
      modifies this
      ensures items == old(items) + When(condition, field, message)
    {
      if condition {
        Add(field, message);
      }
    }

    method ValidatePredictor(p: Predictor)
      modifies this
      ensures items == old(items) + PredictorFindings(p)
    {
      ghost var base := items;
      AddWhen(p.modelFormat.name != "sklearn", "predictor.modelFormat.name", "must be sklearn");
      ghost var f1 := When(p.modelFormat.name != "sklearn", "predictor.modelFormat.name", "must be sklearn");
      AddWhen(p.modelFormat.version != "1", "predictor.modelFormat.version", "must be 1");
      ghost var f2 := When(p.modelFormat.version != "1", "predictor.modelFormat.version", "must be 1");
      AddWhen(p.runtime != "kserve-sklearnserver", "predictor.runtime", "must be kserve-sklearnserver");
      ghost var f3 := When(p.runtime != "kserve-sklearnserver", "predictor.runtime", "must be kserve-sklearnserver");
      var valid := ValidS3StorageURI(p.storageUri);
      ValidS3Correct(p.storageUri);
      AddWhen(!valid, "predictor.storageUri", "must use the form s3://bucket/object-path");
      ghost var f4 := When(!valid, "predictor.storageUri", "must use the form s3://bucket/object-path");
      AddWhen(p.serviceAccountName != "kserve-model-reader",
              "predictor.serviceAccountName", "must be kserve-model-reader");
      Regroup(base, f1, f2, f3, f4, When(p.serviceAccountName != "kserve-model-reader",
                                         "predictor.serviceAccountName", "must be kserve-model-reader"));
    }

    method ValidateDeployment(lib: Library, r: UpdateRequest)
      modifies this
      ensures items == old(items) + DeploymentFindings(lib, r)
    {
      ghost var base := items;
      AddWhen(TrimSpace(r.image) == "", "image", "must not be empty");
      ghost var f1 := When(TrimSpace(r.image) == "", "image", "must not be empty");
      AddWhen(r.port < 1 || r.port > 65535, "port", "must be between 1 and 65535");
      ghost var f2 := When(r.port < 1 || r.port > 65535, "port", "must be between 1 and 65535");
      AddWhen(r.predictor.Some?, "predictor", "may only be configured for KServe");
      ghost var f3 := When(r.predictor.Some?, "predictor", "may only be configured for KServe");
      ValidateExposure(lib, r.exposure);
      ValidateStorage(lib, r.storage);
      Regroup(base, f1, f2, f3, ExposureFindings(lib, r.exposure), StorageFindings(lib, r.storage));
    }

    method ValidateKServe(r: UpdateRequest)
      modifies this
      ensures items == old(items) + KServeFindings(r)
    {
      ghost var base := items;
      AddWhen(TrimSpace(r.image) != "", "image", "must be omitted for KServe");
      ghost var f1 := When(TrimSpace(r.image) != "", "image", "must be omitted for KServe");
      AddWhen(r.port != 0, "port", "must be omitted for KServe");
      ghost var f2 := When(r.port != 0, "port", "must be omitted for KServe");
      AddWhen(r.exposure.enabled, "exposure.enabled", "must be false for KServe");
      ghost var f3 := When(r.exposure.enabled, "exposure.enabled", "must be false for KServe");
      AddWhen(r.storage.enabled, "storage.enabled", "must be false for KServe");
      ghost var f4 := When(r.storage.enabled, "storage.enabled", "must be false for KServe");
      if r.predictor.None? {
        Add("predictor", "is required for KServe");
        Regroup(base, f1, f2, f3, f4, [Detail("predictor", "is required for KServe")]);
        return;
      }
      ValidatePredictor(r.predictor.value);
      Regroup(base, f1, f2, f3, f4, PredictorFindings(r.predictor.value));
    }
  }

  /** Appending five findings one by one appends their concatenation. */
  lemma Regroup(base: seq<Detail>, a: seq<Detail>, b: seq<Detail>, c: seq<Detail>, d: seq<Detail>, e: seq<Detail>)
    ensures base + a + b + c + d + e == base + (a + b + c + d + e)
  {
    assert base + a + b == base + (a + b);
    assert base + (a + b) + c == base + (a + b + c);
    assert base + (a + b + c) + d == base + (a + b + c + d);
  }

  /** `strings.SplitN(location, "/", 2)` finds the first slash with a scan. */
  method ValidS3StorageURI(uri: string) returns (ok: bool)
    ensures ok <==> S3Location(uri)
  {
    ValidS3Correct(uri);
    if !HasPrefix(uri, "s3://") {
      return false;
    }
    var location := uri[5..];
    var i := 0;
    while i < |location| && location[i] != '/'
      invariant 0 <= i <= |location|
      invariant '/' !in location[..i]
    {
      assert location[..i + 1] == location[..i] + [location[i]];
      i := i + 1;
    }
    if i < |location| {
      assert location == location[..i] + "/" + location[i + 1..];
      FirstSlashUnique(location[..i], location[i + 1..]);
    } else {
      assert location[..i] == location;
      assert FirstSlash(location) == |location|;
    }
    return 0 < i < |location| - 1;
  }

  method ValidateRequest(lib: Library, name: string, r: UpdateRequest, maxReplicas: int)
    returns (details: seq<Detail>)
    ensures details == Findings(lib, name, r, maxReplicas)
    ensures details == [] <==> Acceptable(lib, name, r, maxReplicas)
  {
    var list := new DetailList();
    list.ValidateName(lib, name);
    list.ValidateReplicas(lib, r.replicas, maxReplicas);
    var backend := if r.backend == "" then DEPLOYMENT else r.backend;
    if backend == DEPLOYMENT {
      list.ValidateDeployment(lib, r);
    } else if backend == KSERVE {
      list.ValidateKServe(r);
    } else {
      list.Add("backend", "must be one of: Deployment, KServe");
    }
    details := list.items;
    assert [] + NameFindings(lib, name) == NameFindings(lib, name);
    FindingsCorrect(lib, name, r, maxReplicas);
  }
}
