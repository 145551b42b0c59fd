/** Laws of the request transformations. */
module TransformLaws {
  import opened Strings
  import opened ModelServices
  import opened Validation
  import opened Transforms

  // ---------------------------------------------------------------------
  // PATCH algebra
  // ---------------------------------------------------------------------

  /** Applying the same PATCH again changes nothing, whatever the object. */
  lemma PatchIdempotent(spec: Spec, p: PatchRequest, g: GatewayDefaults)
    ensures Patched(Patched(spec, p, g), p, g) == Patched(spec, p, g)
  {
    var once := Patched(spec, p, g);
    var twice := Patched(once, p, g);
    assert twice.exposure == once.exposure;
    assert twice.storage == once.storage;
  }

  predicate Edited<T(==)>(named: Option<T>, before: T, after: T) {
    if named.Some? then after == named.value else after == before
  }

  /** A PATCH gives every field it names the named value and leaves every other
      field as it was; an exposed service without a path prefix gets "/", and
      gateway coordinates are filled in only where there were none. */
  lemma PatchSetsNamedFields(spec: Spec, p: PatchRequest, g: GatewayDefaults)
    ensures var s := Patched(spec, p, g);
            && Edited(p.backend, spec.backend, s.backend) && Edited(p.image, spec.image, s.image)
            && Edited(p.replicas, spec.replicas, s.replicas) && Edited(p.port, spec.port, s.port)
            && (if p.predictor.Some? then s.predictor == p.predictor else s.predictor == spec.predictor)
    ensures var s := Patched(spec, p, g);
            if p.exposure.None? then s.exposure == spec.exposure
            else
              && s.exposure.Some?
              && ExposureEdited(Or(spec.exposure, Exposure(false, "", "", "", "", "", "")), s.exposure.value,
                                p.exposure.value, g)
    ensures var s := Patched(spec, p, g);
            if p.storage.None? then s.storage == spec.storage
            else
              var before := Or(spec.storage, Storage(false, "", ""));
              && s.storage.Some?
              && Edited(p.storage.value.enabled, before.enabled, s.storage.value.enabled)
              && Edited(p.storage.value.size, before.size, s.storage.value.size)
              && Edited(p.storage.value.mountPath, before.mountPath, s.storage.value.mountPath)
  {
  }

  predicate ExposureEdited(before: Exposure, after: Exposure, p: ExposurePatch, g: GatewayDefaults) {
    && Edited(p.enabled, before.enabled, after.enabled) && Edited(p.hostname, before.hostname, after.hostname)
    && (Edited(p.pathPrefix, before.pathPrefix, after.pathPrefix)
        || (after.enabled && after.pathPrefix == "/" && Edited(p.pathPrefix, before.pathPrefix, "")))
    && (after.enabled ==> after.pathPrefix != "")
    && FilledIn(before.gatewayName, after.gatewayName, g.name)
    && FilledIn(before.gatewayNamespace, after.gatewayNamespace, g.namespace)
    && FilledIn(before.gatewaySectionName, after.gatewaySectionName, g.sectionName)
    && FilledIn(before.gatewayDataPlaneNamespace, after.gatewayDataPlaneNamespace, g.dataPlaneNamespace)
  }

  predicate FilledIn(before: string, after: string, fallback: string) {
    if before == "" then after == fallback else after == before
  }

  /** An exposed service that is created or replaced is attached to the gateway
      that the API server is configured with; where nothing is configured, to the
      schema's. */
  lemma GatewayCoordinates(spec: Spec, r: UpdateRequest, g: GatewayDefaults)
    requires r.exposure.enabled
    ensures var (created, put) := (Stored(Created(r, g)).exposure, Stored(Updated(spec, r, g)).exposure);
            && created == put && created.Some?
            && FilledIn(g.name, created.value.gatewayName, "shared-gateway")
            && FilledIn(g.namespace, created.value.gatewayNamespace, "gateway-system")
            && FilledIn(g.sectionName, created.value.gatewaySectionName, "http")
            && FilledIn(g.dataPlaneNamespace, created.value.gatewayDataPlaneNamespace, "envoy-gateway-system")
            && created.value.enabled && created.value.hostname == r.exposure.hostname
            && FilledIn(r.exposure.pathPrefix, created.value.pathPrefix, "/")
  {
  }

  /** The sections of a spec that no request body can mention. */
  datatype Untouchable = Untouchable(
    resources: Resources, security: Option<Security>, health: Option<Health>, rollout: Option<Rollout>,
    budget: Option<Budget>, policy: Option<Isolation>)

  function Sections(spec: Spec): Untouchable {
    Untouchable(spec.resources, spec.security, spec.health, spec.rollout, spec.podDisruptionBudget, spec.networkPolicy)
  }

  /** Neither PUT nor PATCH edits the untouchable sections of the candidate.
      The stored object keeps them too if and only if no defaulted field among
      them holds its zero value. */
  lemma UntouchableSections(spec: Spec, r: UpdateRequest, p: PatchRequest, g: GatewayDefaults)
    ensures Sections(Updated(spec, r, g)) == Sections(spec) == Sections(Patched(spec, p, g))
    ensures Sections(Stored(Updated(spec, r, g))) == Sections(spec) <==> SectionsNoExplicitZero(spec)
    ensures Sections(Stored(Patched(spec, p, g))) == Sections(spec) <==> SectionsNoExplicitZero(spec)
  {
    SectionsStored(Updated(spec, r, g));
    SectionsStored(Patched(spec, p, g));
  }

  predicate SectionsNoExplicitZero(spec: Spec) {
    NoExplicitZero(Spec("x", "", 1, 1, spec.resources, spec.security, spec.health, spec.rollout,
                        spec.podDisruptionBudget, spec.networkPolicy, None, None, None))
  }

  lemma SectionsStored(spec: Spec)
    ensures Sections(Stored(spec)) == Sections(spec) <==> SectionsNoExplicitZero(spec)
  {
    var bare := Spec("x", "", 1, 1, spec.resources, spec.security, spec.health, spec.rollout,
                     spec.podDisruptionBudget, spec.networkPolicy, None, None, None);
    StoredFixpoint(bare);
    assert Sections(Stored(bare)) == Sections(Stored(spec));
    assert Stored(bare) == bare <==> Sections(Stored(bare)) == Sections(bare);
  }

  /** A budget that was switched off is switched on again by an unrelated PATCH. */
  lemma DisabledBudgetIsLost(spec: Spec, g: GatewayDefaults)
    requires spec.podDisruptionBudget == Some(Budget(false, "1"))
    ensures Stored(Patched(spec, PatchRequest(None, None, Some(2), None, None, None, None), g)).podDisruptionBudget
            == Some(Budget(true, "1"))
  {
  }

  predicate Disjoint(p: PatchRequest, q: PatchRequest) {
    && (p.backend.None? || q.backend.None?) && (p.image.None? || q.image.None?)
    && (p.replicas.None? || q.replicas.None?) && (p.port.None? || q.port.None?)
    && (p.predictor.None? || q.predictor.None?) && (p.exposure.None? || q.exposure.None?)
    && (p.storage.None? || q.storage.None?)
  }

  function Later<T>(first: Option<T>, second: Option<T>): Option<T> {
    if second.Some? then second else first
  }

  /** The one PATCH that asks for `p` and then `q`. */
  function Then(p: PatchRequest, q: PatchRequest): PatchRequest {
    PatchRequest(
      Later(p.backend, q.backend), Later(p.image, q.image), Later(p.replicas, q.replicas), Later(p.port, q.port),
      Later(p.predictor, q.predictor),
      if p.exposure.Some? && q.exposure.Some? then
        var (a, b) := (p.exposure.value, q.exposure.value);
        Some(ExposurePatch(Later(a.enabled, b.enabled), Later(a.hostname, b.hostname),
                           Later(a.pathPrefix, b.pathPrefix)))
      else Later(p.exposure, q.exposure),
      if p.storage.Some? && q.storage.Some? then
        var (a, b) := (p.storage.value, q.storage.value);
        Some(StoragePatch(Later(a.enabled, b.enabled), Later(a.size, b.size), Later(a.mountPath, b.mountPath)))
      else Later(p.storage, q.storage))
  }

  /** Patches on disjoint top-level fields commute. */
  lemma DisjointPatchesCommute(spec: Spec, p: PatchRequest, q: PatchRequest, g: GatewayDefaults)
    requires Disjoint(p, q)
    ensures Patched(Patched(spec, p, g), q, g) == Patched(Patched(spec, q, g), p, g)
    ensures Patched(Patched(spec, p, g), q, g) == Patched(spec, Then(p, q), g)
  {
  }

  /** The first patch leaves exposure enabled without a prefix of its own, so
      "/" is filled in, and the second disables it without naming a prefix. */
  predicate PrefixLeaks(spec: Spec, p: PatchRequest, q: PatchRequest) {
    p.exposure.Some? && q.exposure.Some?
    && var base := Or(spec.exposure, NO_EXPOSURE);
       Or(p.exposure.value.enabled, base.enabled)
       && Or(p.exposure.value.pathPrefix, base.pathPrefix) == ""
       && q.exposure.value.enabled == Some(false) && q.exposure.value.pathPrefix.None?
  }

  /** On the candidate, two patches in sequence equal the merged patch except
      exactly when a filled-in path prefix outlives the exposure. */
  lemma PatchComposition(spec: Spec, p: PatchRequest, q: PatchRequest, g: GatewayDefaults)
    ensures Patched(Patched(spec, p, g), q, g) == Patched(spec, Then(p, q), g) <==> !PrefixLeaks(spec, p, q)
  {
    var seqd := Patched(Patched(spec, p, g), q, g);
    var merged := Patched(spec, Then(p, q), g);
    assert seqd.storage == merged.storage;
    assert seqd.(exposure := merged.exposure) == merged;
    if p.exposure.Some? && q.exposure.Some? {
      ExposureComposition(spec.exposure, p.exposure.value, q.exposure.value, g);
    }
  }

  /** One such pair of patches: expose, then hide. */
  lemma ExposeThenHide(spec: Spec, g: GatewayDefaults)
    requires spec.exposure.None?
    ensures var shown := ExposurePatch(Some(true), Some("iris.example.com"), None);
            var hidden := ExposurePatch(Some(false), None, None);
            var (p, q) := (PatchRequest(None, None, None, None, None, Some(shown), None),
                           PatchRequest(None, None, None, None, None, Some(hidden), None));
            && Patched(Patched(spec, p, g), q, g).exposure.value.pathPrefix == "/"
            && Patched(spec, Then(p, q), g).exposure.value.pathPrefix == ""
  {
  }

  lemma ExposureComposition(e: Option<Exposure>, a: ExposurePatch, b: ExposurePatch, g: GatewayDefaults)
    ensures var base := Or(e, NO_EXPOSURE);
            var merged := ExposurePatch(Later(a.enabled, b.enabled), Later(a.hostname, b.hostname),
                                        Later(a.pathPrefix, b.pathPrefix));
            var leaks := Or(a.enabled, base.enabled) && Or(a.pathPrefix, base.pathPrefix) == ""
                         && b.enabled == Some(false) && b.pathPrefix.None?;
            var twice := PatchedExposure(Some(PatchedExposure(e, a, g)), b, g);
            var once := PatchedExposure(e, merged, g);
            && (twice == once <==> !leaks)
            && twice.(pathPrefix := once.pathPrefix) == once
            && OrElse(twice.pathPrefix, "/") == OrElse(once.pathPrefix, "/")
  {
  }

  /** On stored objects the exception vanishes: storing after each of two
      patches gives the object that storing the merged patch gives. */
  lemma StoredPatchComposition(spec: Spec, p: PatchRequest, q: PatchRequest, g: GatewayDefaults)
    requires NoExplicitZero(spec)
    ensures Stored(Patched(Stored(Patched(spec, p, g)), q, g)) == Stored(Patched(spec, Then(p, q), g))
  {
    StoredSectionsComposition(spec, p, q, g);
    StoredExposureComposition(spec, p, q, g);
    StoredStorageComposition(spec, p, q, g);
    StoredFieldsComposition(spec, p, q, g);
  }

  lemma StoredStorageComposition(spec: Spec, p: PatchRequest, q: PatchRequest, g: GatewayDefaults)
    requires NoExplicitZero(spec)
    ensures Stored(Patched(Stored(Patched(spec, p, g)), q, g)).storage == Stored(Patched(spec, Then(p, q), g)).storage
  {
    if p.storage.Some? && q.storage.Some? {
      StorageComposition(spec.storage, p.storage.value, q.storage.value);
    }
  }

  lemma StorageComposition(s: Option<Storage>, a: StoragePatch, b: StoragePatch)
    ensures DefaultStorage(PatchedStorage(Some(DefaultStorage(PatchedStorage(s, a))), b))
            == DefaultStorage(PatchedStorage(s, StoragePatch(Later(a.enabled, b.enabled), Later(a.size, b.size),
                                                             Later(a.mountPath, b.mountPath))))
  {
  }

  lemma StoredFieldsComposition(spec: Spec, p: PatchRequest, q: PatchRequest, g: GatewayDefaults)
    requires NoExplicitZero(spec)
    ensures var a, b := Stored(Patched(Stored(Patched(spec, p, g)), q, g)), Stored(Patched(spec, Then(p, q), g));
            a.backend == b.backend && a.image == b.image && a.replicas == b.replicas && a.port == b.port
            && a.predictor == b.predictor
  {
  }

  lemma StoredSectionsComposition(spec: Spec, p: PatchRequest, q: PatchRequest, g: GatewayDefaults)
    requires NoExplicitZero(spec)
    ensures Sections(Stored(Patched(Stored(Patched(spec, p, g)), q, g)))
            == Sections(Stored(Patched(spec, Then(p, q), g)))
  {
    StoredFixpoint(Patched(spec, p, g));
    StoredUnchanged(spec);
  }

  lemma StoredExposureComposition(spec: Spec, p: PatchRequest, q: PatchRequest, g: GatewayDefaults)
    requires NoExplicitZero(spec)
    ensures Stored(Patched(Stored(Patched(spec, p, g)), q, g)).exposure == Stored(Patched(spec, Then(p, q), g)).exposure
  {
    if p.exposure.Some? && q.exposure.Some? {
      ExposureComposition(spec.exposure, p.exposure.value, q.exposure.value, g);
    }
  }

  // ---------------------------------------------------------------------
  // Acceptance is stable
  // ---------------------------------------------------------------------

  /** A spec that an API write may have left on the server: it describes an
      acceptable request and nothing in it is waiting for a default. */
  ghost predicate ApiSpec(lib: Library, name: string, spec: Spec, maxReplicas: int) {
    Acceptable(lib, name, Projection(spec), maxReplicas) && NoExplicitZero(spec)
  }

  /** The request that says the same as `r` once the backend and, for an
      exposed service, the path prefix are filled in. */
  function Normalized(r: UpdateRequest): UpdateRequest {
    r.(backend := NormalizedBackend(r.backend),
       exposure := if r.exposure.enabled then r.exposure.(pathPrefix := OrElse(r.exposure.pathPrefix, "/"))
                   else ExposureRequest(false, "", ""),
       storage := if r.storage.enabled then r.storage else StorageRequest(false, "", ""))
  }

  /** Creating from an acceptable request stores an API spec, and the response
      shows the normalized request (the image and port of a KServe request are
      hidden; an acceptable one has none but blanks). */
  lemma CreateThenView(lib: Library, name: string, r: UpdateRequest, g: GatewayDefaults, maxReplicas: int)
    requires Acceptable(lib, name, r, maxReplicas)
    ensures ApiSpec(lib, name, Stored(Created(r, g)), maxReplicas)
    ensures var n := Normalized(r);
            ViewOf(name, Stored(Created(r, g)))
            == View(name, n.backend, if n.backend == KSERVE then "" else n.image, n.replicas, n.port,
                    n.predictor, n.exposure, n.storage)
  {
    StoredFixpoint(Created(r, g));
    var stored := Stored(Created(r, g));
    assert stored.predictor == r.predictor;
    assert stored.storage.Some? ==> stored.storage.value == Storage(true, r.storage.size, r.storage.mountPath);
  }

  /** A PUT of an acceptable request stores an API spec showing that request. */
  lemma PutThenView(lib: Library, name: string, spec: Spec, r: UpdateRequest, g: GatewayDefaults, maxReplicas: int)
    requires Acceptable(lib, name, r, maxReplicas) && r.backend != ""
    ensures ApiSpec(lib, name, Stored(Updated(spec, r, g)), maxReplicas)
    ensures ViewOf(name, Stored(Updated(spec, r, g))) == ViewOf(name, Stored(Created(r, g)))
  {
    StoredFixpoint(Updated(spec, r, g));
    var stored := Stored(Updated(spec, r, g));
    assert stored.predictor == r.predictor;
    assert stored.storage.value.enabled ==> stored.storage.value == Storage(true, r.storage.size, r.storage.mountPath);
  }

  /** A PATCH whose candidate validates stores an API spec, and the response
      shows what the candidate describes. */
  lemma PatchThenView(lib: Library, name: string, spec: Spec, p: PatchRequest, g: GatewayDefaults, maxReplicas: int)
    requires Acceptable(lib, name, Projection(Patched(spec, p, g)), maxReplicas)
    ensures ApiSpec(lib, name, Stored(Patched(spec, p, g)), maxReplicas)
    ensures ViewOf(name, Stored(Patched(spec, p, g)))
            == ViewOf(name, Stored(Created(Projection(Patched(spec, p, g)), g)))
  {
    CandidateStored(lib, name, Patched(spec, p, g), maxReplicas);
    CandidateView(lib, name, Patched(spec, p, g), g, maxReplicas);
  }

  /** Storing keeps an acceptable candidate acceptable. */
  lemma CandidateStored(lib: Library, name: string, candidate: Spec, maxReplicas: int)
    requires Acceptable(lib, name, Projection(candidate), maxReplicas)
    ensures ApiSpec(lib, name, Stored(candidate), maxReplicas)
  {
    StoredFixpoint(candidate);
    CandidateKept(lib, name, candidate, maxReplicas);
  }

  /** What an acceptable candidate describes is what storing it describes,
      except for values of a disabled section and a missing path prefix. */
  lemma CandidateKept(lib: Library, name: string, candidate: Spec, maxReplicas: int)
    requires Acceptable(lib, name, Projection(candidate), maxReplicas)
    ensures Acceptable(lib, name, Projection(Stored(candidate)), maxReplicas)
  {
    var stored := Stored(candidate);
    assert stored.predictor == candidate.predictor;
    assert candidate.storage.Some? && candidate.storage.value.enabled ==> stored.storage == candidate.storage;
  }

  lemma CandidateView(lib: Library, name: string, candidate: Spec, g: GatewayDefaults, maxReplicas: int)
    requires Acceptable(lib, name, Projection(candidate), maxReplicas)
    ensures ViewOf(name, Stored(candidate)) == ViewOf(name, Stored(Created(Projection(candidate), g)))
  {
    assert Stored(candidate).predictor == candidate.predictor;
    assert candidate.storage.Some? && candidate.storage.value.enabled
      ==> Stored(candidate).storage == candidate.storage;
  }

  /** PUT of an object's own projection is accepted and changes nothing that a
      response shows; the projection of an API spec is a fixed point of PUT. */
  lemma PutOwnProjection(lib: Library, name: string, spec: Spec, g: GatewayDefaults, maxReplicas: int)
    requires ApiSpec(lib, name, spec, maxReplicas)
    ensures Findings(lib, name, Projection(spec), maxReplicas) == []
    ensures ViewOf(name, Stored(Updated(spec, Projection(spec), g))) == ViewOf(name, spec)
    ensures Normalized(Projection(Stored(Updated(spec, Projection(spec), g)))) == Normalized(Projection(spec))
  {
    FindingsCorrect(lib, name, Projection(spec), maxReplicas);
    PutThenView(lib, name, spec, Projection(spec), g, maxReplicas);
    CandidateView(lib, name, spec, g, maxReplicas);
    StoredUnchanged(spec);
    assert Stored(Updated(spec, Projection(spec), g)).predictor == spec.predictor;
  }

  /** Every API spec satisfies the schema's cross-field rules. */
  lemma ApiSpecMeetsRules(lib: Library, name: string, spec: Spec, maxReplicas: int)
    requires ApiSpec(lib, name, spec, maxReplicas)
    ensures CrossFieldRules(spec) && spec.backend in {DEPLOYMENT, KSERVE}
  {
  }
}
