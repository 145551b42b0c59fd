/** How create, PUT and PATCH requests turn into specs, and how specs are
    projected back to requests and shown in responses. */
module Transforms {
  import opened Strings
  import opened ModelServices

  const NO_RESOURCES := Resources(map[], map[])

  function RequestedExposure(e: ExposureRequest, g: GatewayDefaults): Exposure
    requires e.enabled
  {
    Exposure(true, e.hostname, OrElse(e.pathPrefix, "/"), g.name, g.namespace, g.sectionName, g.dataPlaneNamespace)
  }

  const NO_EXPOSURE := Exposure(false, "", "", "", "", "", "")

  /** The spec built from a create request. */
  function Created(r: UpdateRequest, g: GatewayDefaults): Spec {
    Spec(NormalizedBackend(r.backend), r.image, r.replicas, r.port, NO_RESOURCES, None, None, None, None, None,
         if r.exposure.enabled then Some(RequestedExposure(r.exposure, g)) else None,
         if r.storage.enabled then Some(Storage(true, r.storage.size, r.storage.mountPath)) else None,
         r.predictor)
  }

  /** The spec after a PUT; `r.backend` has already been filled in by the handler. */
  function Updated(spec: Spec, r: UpdateRequest, g: GatewayDefaults): Spec {
    spec.(backend := r.backend, predictor := r.predictor, image := r.image, replicas := r.replicas, port := r.port,
          exposure := Some(if r.exposure.enabled then RequestedExposure(r.exposure, g) else NO_EXPOSURE),
          storage := Some(if r.storage.enabled then Storage(true, r.storage.size, r.storage.mountPath)
                          else Storage(false, "", "")))
  }

  function Or<T>(o: Option<T>, fallback: T): T {
    if o.Some? then o.value else fallback
  }

  function PatchedExposure(e: Option<Exposure>, p: ExposurePatch, g: GatewayDefaults): Exposure {
    var base := Or(e, NO_EXPOSURE);
    var enabled := Or(p.enabled, base.enabled);
    var prefix := Or(p.pathPrefix, base.pathPrefix);
    Exposure(enabled, Or(p.hostname, base.hostname), if enabled then OrElse(prefix, "/") else prefix,
             OrElse(base.gatewayName, g.name), OrElse(base.gatewayNamespace, g.namespace),
             OrElse(base.gatewaySectionName, g.sectionName),
             OrElse(base.gatewayDataPlaneNamespace, g.dataPlaneNamespace))
  }

  function PatchedStorage(s: Option<Storage>, p: StoragePatch): Storage {
    var base := Or(s, Storage(false, "", ""));
    Storage(Or(p.enabled, base.enabled), Or(p.size, base.size), Or(p.mountPath, base.mountPath))
  }

  /** The spec after a PATCH. */
  function Patched(spec: Spec, p: PatchRequest, g: GatewayDefaults): Spec {
    spec.(backend := Or(p.backend, spec.backend),
          predictor := if p.predictor.Some? then p.predictor else spec.predictor,
          image := Or(p.image, spec.image),
          replicas := Or(p.replicas, spec.replicas),
          port := Or(p.port, spec.port),
          exposure := if p.exposure.Some? then Some(PatchedExposure(spec.exposure, p.exposure.value, g))
                      else spec.exposure,
          storage := if p.storage.Some? then Some(PatchedStorage(spec.storage, p.storage.value)) else spec.storage)
  }

  predicate HasPatchFields(p: PatchRequest) {
    p.backend.Some? || p.image.Some? || p.replicas.Some? || p.port.Some?
    || p.predictor.Some? || p.exposure.Some? || p.storage.Some?
  }

  /** The PUT body that describes a spec. */
  function Projection(spec: Spec): UpdateRequest {
    var backend := NormalizedBackend(spec.backend);
    UpdateRequest(backend, spec.image, spec.replicas, if backend == KSERVE then 0 else spec.port, spec.predictor,
                  if spec.exposure.Some?
                  then ExposureRequest(spec.exposure.value.enabled, spec.exposure.value.hostname,
                                       spec.exposure.value.pathPrefix)
                  else ExposureRequest(false, "", ""),
                  if spec.storage.Some?
                  then StorageRequest(spec.storage.value.enabled, spec.storage.value.size, spec.storage.value.mountPath)
                  else StorageRequest(false, "", ""))
  }

  /** What a response shows of a spec. */
  function ViewOf(name: string, spec: Spec): View {
    var backend := NormalizedBackend(spec.backend);
    View(name, backend,
         if backend == DEPLOYMENT then spec.image else "",
         spec.replicas,
         if backend == DEPLOYMENT then spec.port else 0,
         spec.predictor,
         if spec.exposure.Some? && spec.exposure.value.enabled
         then ExposureRequest(true, spec.exposure.value.hostname, spec.exposure.value.pathPrefix)
         else ExposureRequest(false, "", ""),
         if spec.storage.Some? && spec.storage.value.enabled
         then StorageRequest(true, spec.storage.value.size, spec.storage.value.mountPath)
         else StorageRequest(false, "", ""))
  }

  function ResponseOf(m: ModelService): Response {
    Response(ViewOf(m.key.name, m.spec), OrElse(m.status.phase, "Pending"), m.generation)
  }

  // ---------------------------------------------------------------------
  // The mutators
  // ---------------------------------------------------------------------

  /** The object a handler has fetched or copied and edits before writing it back. */
  class Candidate {
    var spec: Spec

    constructor (spec: Spec)
      ensures this.spec == spec
    {
      this.spec := spec;
    }

    method ApplyUpdateRequest(r: UpdateRequest, g: GatewayDefaults)
      modifies this
      ensures spec == Updated(old(spec), r, g)
    {
      spec := spec.(backend := r.backend);
      spec := spec.(predictor := r.predictor);
      spec := spec.(image := r.image);
      spec := spec.(replicas := r.replicas);
      spec := spec.(port := r.port);
      if r.exposure.enabled {
        var pathPrefix := r.exposure.pathPrefix;
        if pathPrefix == "" {
          pathPrefix := "/";
        }
        spec := spec.(exposure := Some(Exposure(true, r.exposure.hostname, pathPrefix, g.name, g.namespace,
                                                g.sectionName, g.dataPlaneNamespace)));
      } else {
        spec := spec.(exposure := Some(NO_EXPOSURE));
      }
      if r.storage.enabled {
        spec := spec.(storage := Some(Storage(true, r.storage.size, r.storage.mountPath)));
      } else {
        spec := spec.(storage := Some(Storage(false, "", "")));
      }
    }

    method ApplyExposurePatch(p: ExposurePatch, g: GatewayDefaults)
      modifies this
      ensures spec == old(spec).(exposure := Some(PatchedExposure(old(spec).exposure, p, g)))
    {
      if spec.exposure.None? {
        var blank := Exposure(false, "", "", g.name, g.namespace, g.sectionName, g.dataPlaneNamespace);
        spec := spec.(exposure := Some(blank));
      }
      var e := spec.exposure.value;
      if p.enabled.Some? { e := e.(enabled := p.enabled.value); }
      if p.hostname.Some? { e := e.(hostname := p.hostname.value); }
      if p.pathPrefix.Some? { e := e.(pathPrefix := p.pathPrefix.value); }
      if e.enabled && e.pathPrefix == "" { e := e.(pathPrefix := "/"); }
      e := e.(gatewayName := OrElse(e.gatewayName, g.name));
      e := e.(gatewayNamespace := OrElse(e.gatewayNamespace, g.namespace));
      e := e.(gatewaySectionName := OrElse(e.gatewaySectionName, g.sectionName));
      e := e.(gatewayDataPlaneNamespace := OrElse(e.gatewayDataPlaneNamespace, g.dataPlaneNamespace));
      spec := spec.(exposure := Some(e));
    }

    method ApplyStoragePatch(p: StoragePatch)
      modifies this
      ensures spec == old(spec).(storage := Some(PatchedStorage(old(spec).storage, p)))
    {
      if spec.storage.None? {
        spec := spec.(storage := Some(Storage(false, "", "")));
      }
      var s := spec.storage.value;
      if p.enabled.Some? { s := s.(enabled := p.enabled.value); }
      if p.size.Some? { s := s.(size := p.size.value); }
      if p.mountPath.Some? { s := s.(mountPath := p.mountPath.value); }
      spec := spec.(storage := Some(s));
    }

    method ApplyPatchRequest(p: PatchRequest, g: GatewayDefaults)
      modifies this
      ensures spec == Patched(old(spec), p, g)
    {
      if p.backend.Some? { spec := spec.(backend := p.backend.value); }
      if p.predictor.Some? { spec := spec.(predictor := p.predictor); }
      if p.image.Some? { spec := spec.(image := p.image.value); }
      if p.replicas.Some? { spec := spec.(replicas := p.replicas.value); }
      if p.port.Some? { spec := spec.(port := p.port.value); }
      if p.exposure.Some? { ApplyExposurePatch(p.exposure.value, g); }
      if p.storage.Some? { ApplyStoragePatch(p.storage.value); }
    }
  }
}
