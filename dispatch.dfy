// Backend dispatch, the one-level fallback walk and the request
// orchestrator shared by the unified service and the ControlNet service.
// The two copies differ only in the backends and processor types they
// accept and in the message of an exhausted fallback walk, which a
// `Profile` value records.

module Dispatch {
  import opened Wrappers
  import opened Registry

  /** What one copy of the service supports. */
  datatype Profile = Profile(
    /** Backends `_process_with_backend` accepts; any other raises. */
    backends: set<Backend>,
    /** Types `_process_pytorch` runs through the loaded network without any guard. */
    torchTypes: set<ProcessorType>,
    /** Types whose PyTorch handler catches every error and returns a stand-in image. */
    guardedTypes: set<ProcessorType>,
    /**
     * Guarded types whose stand-in is made by the OpenCV handler of the same
     * type, which can itself raise (the inpaint mask).
     */
    openCVStandIn: set<ProcessorType>,
    /** Types `_process_opencv` handles. */
    opencvTypes: set<ProcessorType>,
    /** The error raised when every fallback candidate was skipped or failed. */
    exhausted: string)

  /**
   * What the model cannot see: the loader's environment, whether the
   * optional ONNX Runtime and safetensors packages import, and which
   * pixel steps raise (a pair (model id, backend whose handler does the
   * pixel work)).
   */
  datatype ProcessEnv = ProcessEnv(
    load: LoadEnv,
    onnxRuntime: bool,
    safetensorsLib: bool,
    failing: set<(string, Backend)>)

  /**
   * An image produced for `modelId` by the handler of backend `via`;
   * `standIn` marks the blank or unmodified image a guarded PyTorch
   * handler returns after catching an error.
   */
  datatype Rendered = Rendered(modelId: string, via: Backend, standIn: bool)

  /** The pixel step of backend `via` for model `id`. */
  function Pixels(id: string, via: Backend, env: ProcessEnv): (r: Result<Rendered, string>)
    ensures r.Success? <==> (id, via) !in env.failing
    ensures r.Success? ==> r.value == Rendered(id, via, false)
  {
    if (id, via) in env.failing then Failure(BackendValue(via) + " processing failed for " + id)
    else Success(Rendered(id, via, false))
  }

  /** `_process_opencv`: only the profile's OpenCV types are handled. */
  function RunOpenCV(p: Profile, info: ModelInfo, env: ProcessEnv): (r: Result<Rendered, string>)
    ensures r.Success? <==> info.processorType in p.opencvTypes && (info.id, OpenCV) !in env.failing
    ensures r.Success? ==> r.value == Rendered(info.id, OpenCV, false)
  {
    if info.processorType in p.opencvTypes then Pixels(info.id, OpenCV, env)
    else Failure("OpenCV backend doesn't support this processor type")
  }

  /**
   * `_process_pytorch`: PyTorch must import; the model is loaded through
   * the registry (which may change its state) before the processor type
   * is looked at.  A guarded type catches the errors of its network path
   * (a sentinel string has no parameters) and returns a stand-in image,
   * which the OpenCV handler makes for the inpaint type and which then
   * fails when that handler raises; unguarded types fail on a sentinel.
   */
  function RunTorch(p: Profile, st: RegState, info: ModelInfo, env: ProcessEnv, max: nat, arch: set<string>)
    : (out: (RegState, Result<Rendered, string>))
    requires CacheOk(st)
    ensures out.0 == if env.load.torchAvailable then Load(st, info.id, env.load, max, arch).0 else st
    ensures var h := Load(st, info.id, env.load, max, arch).1;
      var guardHit := h.Success? && (h.value.Sentinel? || (info.id, PyTorch) in env.failing);
      out.1.Success? <==>
        env.load.torchAvailable && h.Success? &&
        (if info.processorType in p.guardedTypes then
           guardHit && info.processorType in p.openCVStandIn ==> (info.id, OpenCV) !in env.failing
         else
           info.processorType in p.torchTypes && h.value.Network? && (info.id, PyTorch) !in env.failing)
    ensures var h := Load(st, info.id, env.load, max, arch).1;
      out.1.Success? ==>
        out.1.value.modelId == info.id && out.1.value.via == PyTorch &&
        (out.1.value.standIn <==>
           info.processorType in p.guardedTypes && (h.value.Sentinel? || (info.id, PyTorch) in env.failing))
    ensures !env.load.torchAvailable ==> out.1 == Failure("PyTorch not available")
  {
    if !env.load.torchAvailable then (st, Failure("PyTorch not available"))
    else
      var loaded := Load(st, info.id, env.load, max, arch);
      var h := loaded.1;
      if h.Failure? then (loaded.0, Failure(LoadErrorText(h.error)))
      else if info.processorType in p.guardedTypes then
        (loaded.0, GuardedRun(p, info, h.value, env))
      else if info.processorType !in p.torchTypes then (loaded.0, Failure("Unsupported processor type"))
      else if h.value.Sentinel? then (loaded.0, Failure("'str' object has no attribute 'parameters'"))
      else (loaded.0, Pixels(info.id, PyTorch, env))
  }

  /**
   * The handler of a guarded type: the network's image, or after an error
   * the stand-in, made by the OpenCV handler where the profile says so.
   */
  function GuardedRun(p: Profile, info: ModelInfo, h: Handle, env: ProcessEnv): (r: Result<Rendered, string>)
  {
    var caught := h.Sentinel? || (info.id, PyTorch) in env.failing;
    if caught && info.processorType in p.openCVStandIn && (info.id, OpenCV) in env.failing then
      Failure(BackendValue(OpenCV) + " processing failed for " + info.id)
    else Success(Rendered(info.id, PyTorch, caught))
  }

  /**
   * `_process_with_backend`: the new registry state and either the image
   * or the message of the error raised.
   */
  function Run(p: Profile, st: RegState, info: ModelInfo, b: Backend, env: ProcessEnv, max: nat, arch: set<string>)
    : (out: (RegState, Result<Rendered, string>))
    requires CacheOk(st)
    ensures out.1.Success? ==> out.1.value.modelId == info.id
    ensures b !in p.backends ==> out.1.Failure? && out.0 == st
  {
    if b !in p.backends then (st, Failure("Unsupported backend: " + BackendValue(b)))
    else match b
      case PyTorch => RunTorch(p, st, info, env, max, arch)
      case OpenCV => (st, RunOpenCV(p, info, env))
      case Builtin => (st, Pixels(info.id, Builtin, env))
      case Onnx =>
        if env.onnxRuntime && info.processorType == PoseEstimation then (st, Pixels(info.id, Onnx, env))
        else (st, RunOpenCV(p, info, env))
      case SafeTensors =>
        if env.safetensorsLib && info.processorType in {ClipVision, Revision} then (st, Pixels(info.id, SafeTensors, env))
        else RunTorch(p, st, info, env, max, arch)
  }

  lemma RunKeepsState(p: Profile, st: RegState, info: ModelInfo, b: Backend, env: ProcessEnv, max: nat, arch: set<string>)
    requires StateOk(max, st)
    ensures StateOk(max, Run(p, st, info, b, env, max, arch).0)
  {
    RunStateIsLoadState(p, st, info, b, env, max, arch);
    if env.load.torchAvailable {
      LoadKeepsState(st, info.id, env.load, max, arch);
    }
  }

  /** A dispatch changes the registry only through the load of a PyTorch path. */
  lemma RunStateIsLoadState(p: Profile, st: RegState, info: ModelInfo, b: Backend, env: ProcessEnv, max: nat,
                            arch: set<string>)
    requires CacheOk(st)
    ensures var r := Run(p, st, info, b, env, max, arch).0;
      r == st || (env.load.torchAvailable && r == Load(st, info.id, env.load, max, arch).0)
  {
    TorchStateIsLoadState(p, st, info, env, max, arch);
  }

  lemma TorchStateIsLoadState(p: Profile, st: RegState, info: ModelInfo, env: ProcessEnv, max: nat, arch: set<string>)
    requires CacheOk(st)
    ensures RunTorch(p, st, info, env, max, arch).0 ==
      if env.load.torchAvailable then Load(st, info.id, env.load, max, arch).0 else st
  {
  }

  /**
   * `_process_with_fallback`: candidates in declared order, each skipped
   * when it is missing or not AVAILABLE (a LOADED candidate included),
   * otherwise dispatched once with its own backend; the first image
   * returns together with that backend.
   */
  function Fallback(p: Profile, st: RegState, cands: seq<string>, env: ProcessEnv, max: nat, arch: set<string>)
    : (out: (RegState, Result<(Rendered, Backend), string>))
    requires StateOk(max, st)
    ensures StateOk(max, out.0)
    decreases |cands|
  {
    if cands == [] then (st, Failure(p.exhausted))
    else if cands[0] !in st.models || st.models[cands[0]].status != Available then
      Fallback(p, st, cands[1..], env, max, arch)
    else
      var info := st.models[cands[0]];
      RunKeepsState(p, st, info, info.backend, env, max, arch);
      var tried := Run(p, st, info, info.backend, env, max, arch);
      if tried.1.Success? then (tried.0, Success((tried.1.value, info.backend)))
      else Fallback(p, tried.0, cands[1..], env, max, arch)
  }

  /** A candidate that is missing or not available is skipped. */
  lemma FallbackSkip(p: Profile, st: RegState, cands: seq<string>, i: nat, env: ProcessEnv, max: nat, arch: set<string>)
    requires StateOk(max, st) && i < |cands|
    requires cands[i] !in st.models || st.models[cands[i]].status != Available
    ensures Fallback(p, st, cands[i..], env, max, arch) == Fallback(p, st, cands[i + 1..], env, max, arch)
  {
    assert cands[i..][0] == cands[i] && cands[i..][1..] == cands[i + 1..];
  }

  /** An available candidate is dispatched with its own backend; the walk goes on only if that fails. */
  lemma FallbackTry(p: Profile, st: RegState, cands: seq<string>, i: nat, env: ProcessEnv, max: nat, arch: set<string>)
    requires StateOk(max, st) && i < |cands|
    requires cands[i] in st.models && st.models[cands[i]].status == Available
    ensures var info := st.models[cands[i]];
      var tried := Run(p, st, info, info.backend, env, max, arch);
      StateOk(max, tried.0) &&
      Fallback(p, st, cands[i..], env, max, arch) ==
        if tried.1.Success? then (tried.0, Success((tried.1.value, info.backend)))
        else Fallback(p, tried.0, cands[i + 1..], env, max, arch)
  {
    var info := st.models[cands[i]];
    RunKeepsState(p, st, info, info.backend, env, max, arch);
    assert cands[i..][0] == cands[i] && cands[i..][1..] == cands[i + 1..];
  }

  /** The fields of a v3 processing request the orchestrator reads. */
  datatype Request = Request(
    modelId: string,
    preference: Option<Backend>,
    fallbackEnabled: bool,
    /** Whether the base64 image decodes. */
    decodes: bool,
    /**
     * The images rendered from this input that PNG cannot store (a mode
     * such as CMYK that a stand-in hands back unchanged).
     */
    unencodable: set<Rendered>)

  /** The error `_encode_image_to_base64` raises for an image PNG cannot store. */
  const EncodeError: string := "cannot write image mode as PNG"

  datatype Response = Response(
    success: bool,
    modelUsed: string,
    backendUsed: Backend,
    fallbackUsed: bool,
    image: Option<Rendered>,
    error: Option<string>)

  /** A response, or an exception escaping `process_image` itself. */
  datatype Outcome = Responded(response: Response) | Raised(error: string)

  /** The primary backend: the request's preference, else the model's own. */
  function Primary(req: Request, info: ModelInfo): Backend
  {
    req.preference.UnwrapOr(info.backend)
  }

  /**
   * `process_image`.  An unknown id or an image that does not decode
   * fails before `backend_used` is bound, so the handler's own read of
   * it raises and no response is built.  Encoding runs inside the same
   * `try`: when it fails, the response reports the backend and the
   * fallback flag as they stand at that point.
   */
  function Process(p: Profile, st: RegState, req: Request, env: ProcessEnv, max: nat, arch: set<string>)
    : (out: (RegState, Outcome))
    requires StateOk(max, st)
    ensures out.1.Raised? <==> req.modelId !in st.models || !req.decodes
    ensures out.1.Raised? ==> out.0 == st
    ensures out.1.Responded? ==> out.1.response.modelUsed == req.modelId
    ensures StateOk(max, out.0)
  {
    if req.modelId !in st.models || !req.decodes then
      (st, Raised("local variable 'backend_used' referenced before assignment"))
    else
      var info := st.models[req.modelId];
      var b := Primary(req, info);
      RunKeepsState(p, st, info, b, env, max, arch);
      var tried := Run(p, st, info, b, env, max, arch);
      if tried.1.Success? then
        (tried.0, Responded(Encoded(req, b, false, tried.1.value)))
      else if !req.fallbackEnabled then
        (tried.0, Responded(Response(false, req.modelId, b, false, None, Some(tried.1.error))))
      else
        var walked := Fallback(p, tried.0, info.fallbackModels, env, max, arch);
        if walked.1.Success? then
          (walked.0, Responded(Encoded(req, walked.1.value.1, true, walked.1.value.0)))
        else
          (walked.0, Responded(Response(false, req.modelId, b, false, None, Some(walked.1.error))))
  }

  /** The response once `img` was rendered by backend `b`: a success exactly when PNG can store it. */
  function Encoded(req: Request, b: Backend, fallbackUsed: bool, img: Rendered): (r: Response)
    ensures r.success <==> img !in req.unencodable
    ensures r.modelUsed == req.modelId && r.backendUsed == b && r.fallbackUsed == fallbackUsed
    ensures r.success ==> r.image == Some(img) && r.error.None?
    ensures !r.success ==> r.image.None? && r.error == Some(EncodeError)
  {
    if img in req.unencodable then Response(false, req.modelId, b, fallbackUsed, None, Some(EncodeError))
    else Response(true, req.modelId, b, fallbackUsed, Some(img), None)
  }

  // ---------------------------------------------------------------------
  // What dispatch leaves alone

  /** `b` has the same catalogue as `a`: same ids, each with the same static fields. */
  ghost predicate SameCatalog(a: RegState, b: RegState)
  {
    a.models.Keys == b.models.Keys &&
    forall id :: id in a.models ==>
      b.models[id].id == a.models[id].id &&
      b.models[id].backend == a.models[id].backend &&
      b.models[id].processorType == a.models[id].processorType &&
      b.models[id].fallbackModels == a.models[id].fallbackModels
  }

  lemma SameCatalogTrans(a: RegState, b: RegState, c: RegState)
    requires SameCatalog(a, b) && SameCatalog(b, c)
    ensures SameCatalog(a, c)
  {
  }

  lemma LoadKeepsCatalog(st: RegState, id: string, env: LoadEnv, max: nat, arch: set<string>)
    requires CacheOk(st)
    ensures SameCatalog(st, Load(st, id, env, max, arch).0)
  {
    if id in st.models {
      if id in st.cache {
        var hit := st.(stats := st.stats.(hits := st.stats.hits + 1));
        assert Load(st, id, env, max, arch).0 == Used(hit, id, st.models[id].status);
        UsedSameCatalog(hit, id, st.models[id].status);
      } else {
        var missed := st.(stats := st.stats.(misses := st.stats.misses + 1));
        assert Load(st, id, env, max, arch) == LoadMiss(missed, id, env, max, arch);
        LoadMissKeepsCatalog(missed, id, env, max, arch);
      }
    }
  }

  lemma LoadMissKeepsCatalog(st: RegState, id: string, env: LoadEnv, max: nat, arch: set<string>)
    requires CacheOk(st) && id in st.models
    ensures SameCatalog(st, LoadMiss(st, id, env, max, arch).0)
  {
    var info := st.models[id];
    if NeedsNoWeights(info.backend) {
      UsedSameCatalog(st, id, Loaded);
    } else if !env.torchAvailable || info.status != Available {
    } else if id !in arch || id in env.unreadable {
      var e := if id !in arch then UnknownArchitecture(id) else UnreadableWeights(id);
      FailedSameCatalog(st, id, LoadErrorText(e));
    } else {
      var room := if |st.cacheOrder| >= max then Evict(st) else st;
      if |st.cacheOrder| >= max {
        EvictSameCatalog(st);
      }
      InsertedSameCatalog(room, id, Network(id, room.stats.totalLoaded));
      SameCatalogTrans(st, room, LoadMiss(st, id, env, max, arch).0);
    }
  }

  lemma UsedSameCatalog(st: RegState, id: string, s: ModelStatus)
    requires id in st.models
    ensures SameCatalog(st, Used(st, id, s))
  {
  }

  lemma InsertedSameCatalog(st: RegState, id: string, h: Handle)
    requires id in st.models
    ensures SameCatalog(st, Inserted(st, id, h))
  {
  }

  lemma FailedSameCatalog(st: RegState, id: string, msg: string)
    requires id in st.models
    ensures SameCatalog(st, Failed(st, id, msg))
  {
  }

  lemma EvictSameCatalog(st: RegState)
    requires CacheOk(st)
    ensures SameCatalog(st, Evict(st))
  {
    if st.cacheOrder != [] {
      assert st.cacheOrder[LeastRecentIndex(st.cacheOrder, st.models)] in st.models;
    }
  }

  lemma RunKeepsCatalog(p: Profile, st: RegState, info: ModelInfo, b: Backend, env: ProcessEnv, max: nat, arch: set<string>)
    requires CacheOk(st)
    ensures SameCatalog(st, Run(p, st, info, b, env, max, arch).0)
  {
    RunStateIsLoadState(p, st, info, b, env, max, arch);
    if env.load.torchAvailable {
      LoadKeepsCatalog(st, info.id, env.load, max, arch);
    }
  }

  /**
   * A successful walk returns an image rendered for one of the candidates,
   * paired with that candidate's own backend: the candidate's processor
   * type is never compared with the requesting model's.
   */
  lemma {:induction false} FallbackRendersCandidate(p: Profile, st: RegState, cands: seq<string>, env: ProcessEnv,
                                                    max: nat, arch: set<string>)
    requires StateOk(max, st)
    ensures var out := Fallback(p, st, cands, env, max, arch);
      out.1.Success? ==>
        out.1.value.0.modelId in cands && out.1.value.0.modelId in st.models &&
        out.1.value.1 == st.models[out.1.value.0.modelId].backend
    ensures SameCatalog(st, Fallback(p, st, cands, env, max, arch).0)
    decreases |cands|
  {
    if cands == [] {
    } else if cands[0] !in st.models || st.models[cands[0]].status != Available {
      FallbackRendersCandidate(p, st, cands[1..], env, max, arch);
    } else {
      var info := st.models[cands[0]];
      RunKeepsState(p, st, info, info.backend, env, max, arch);
      RunKeepsCatalog(p, st, info, info.backend, env, max, arch);
      var tried := Run(p, st, info, info.backend, env, max, arch);
      if tried.1.Success? {
        assert tried.1.value.modelId == cands[0];
      } else {
        FallbackRendersCandidate(p, tried.0, cands[1..], env, max, arch);
        SameCatalogTrans(st, tried.0, Fallback(p, tried.0, cands[1..], env, max, arch).0);
      }
    }
  }

  /** An exhausted walk raises the profile's message. */
  lemma {:induction false} FallbackFailureIsExhaustion(p: Profile, st: RegState, cands: seq<string>, env: ProcessEnv,
                                                       max: nat, arch: set<string>)
    requires StateOk(max, st)
    ensures var out := Fallback(p, st, cands, env, max, arch);
      out.1.Failure? ==> out.1.error == p.exhausted
    decreases |cands|
  {
    if cands != [] {
      if cands[0] !in st.models || st.models[cands[0]].status != Available {
        FallbackFailureIsExhaustion(p, st, cands[1..], env, max, arch);
      } else {
        var info := st.models[cands[0]];
        RunKeepsState(p, st, info, info.backend, env, max, arch);
        var tried := Run(p, st, info, info.backend, env, max, arch);
        if tried.1.Failure? {
          FallbackFailureIsExhaustion(p, tried.0, cands[1..], env, max, arch);
        }
      }
    }
  }

  /** A walk over candidates none of which is AVAILABLE changes nothing and fails. */
  lemma {:induction false} FallbackSkipsUnavailable(p: Profile, st: RegState, cands: seq<string>, env: ProcessEnv,
                                                    max: nat, arch: set<string>)
    requires StateOk(max, st)
    requires forall i :: 0 <= i < |cands| ==> cands[i] !in st.models || st.models[cands[i]].status != Available
    ensures Fallback(p, st, cands, env, max, arch) == (st, Failure(p.exhausted))
    decreases |cands|
  {
    if cands != [] {
      assert forall i :: 0 <= i < |cands[1..]| ==> cands[1..][i] == cands[i + 1];
      FallbackSkipsUnavailable(p, st, cands[1..], env, max, arch);
    }
  }

  // ---------------------------------------------------------------------
  // The orchestrator's response

  /**
   * A success without fallback was rendered for the requested model by the
   * primary backend; a success with fallback by a candidate of the model,
   * reported with the candidate's backend.  Either way PNG could store it.
   */
  lemma SuccessNamesItsRenderer(p: Profile, st: RegState, req: Request, env: ProcessEnv, max: nat, arch: set<string>)
    requires StateOk(max, st)
    requires Process(p, st, req, env, max, arch).1.Responded?
    ensures var r := Process(p, st, req, env, max, arch).1.response;
      var info := st.models[req.modelId];
      r.success ==>
        (r.image.Some? && r.error.None? && r.image.value !in req.unencodable &&
         (!r.fallbackUsed ==> r.image.value.modelId == req.modelId && r.backendUsed == Primary(req, info)) &&
         (r.fallbackUsed ==> r.image.value.modelId in info.fallbackModels && r.image.value.modelId in st.models &&
                             r.backendUsed == st.models[r.image.value.modelId].backend))
  {
    var info := st.models[req.modelId];
    var b := Primary(req, info);
    RunKeepsState(p, st, info, b, env, max, arch);
    RunKeepsCatalog(p, st, info, b, env, max, arch);
    var tried := Run(p, st, info, b, env, max, arch);
    if tried.1.Success? {
      assert tried.1.value.modelId == req.modelId;
    } else if req.fallbackEnabled {
      FallbackRendersCandidate(p, tried.0, info.fallbackModels, env, max, arch);
      assert tried.0.models[req.modelId].fallbackModels == info.fallbackModels;
    }
  }

  /**
   * A failed request carries no image and an error.  Without a fallback
   * result it reports the primary backend, and its error is the primary's
   * own when fallback is disabled, and otherwise the exhaustion message or
   * the encoder's.  A failure that reports a fallback is the encoder's
   * refusal of the fallback's image, reported with that candidate's backend.
   */
  lemma FailureReportsItsBackend(p: Profile, st: RegState, req: Request, env: ProcessEnv, max: nat, arch: set<string>)
    requires StateOk(max, st)
    requires Process(p, st, req, env, max, arch).1.Responded?
    ensures var r := Process(p, st, req, env, max, arch).1.response;
      var info := st.models[req.modelId];
      !r.success ==>
        r.image.None? && r.error.Some? &&
        (!r.fallbackUsed ==>
           r.backendUsed == Primary(req, info) &&
           (req.fallbackEnabled ==> r.error.value == p.exhausted || r.error.value == EncodeError)) &&
        (r.fallbackUsed ==>
           req.fallbackEnabled && r.error.value == EncodeError &&
           exists c :: c in info.fallbackModels && c in st.models && r.backendUsed == st.models[c].backend)
  {
    var info := st.models[req.modelId];
    var b := Primary(req, info);
    RunKeepsState(p, st, info, b, env, max, arch);
    RunKeepsCatalog(p, st, info, b, env, max, arch);
    var tried := Run(p, st, info, b, env, max, arch);
    if tried.1.Failure? && req.fallbackEnabled {
      FallbackFailureIsExhaustion(p, tried.0, info.fallbackModels, env, max, arch);
      FallbackRendersCandidate(p, tried.0, info.fallbackModels, env, max, arch);
      var walked := Fallback(p, tried.0, info.fallbackModels, env, max, arch);
      if walked.1.Success? {
        var c := walked.1.value.0.modelId;
        assert tried.0.models[req.modelId].fallbackModels == info.fallbackModels;
        assert c in info.fallbackModels && c in st.models && walked.1.value.1 == st.models[c].backend;
      }
    }
  }

  /** With fallback disabled the response never reports a fallback. */
  lemma DisabledFallbackIsNeverUsed(p: Profile, st: RegState, req: Request, env: ProcessEnv, max: nat, arch: set<string>)
    requires StateOk(max, st)
    requires !req.fallbackEnabled
    ensures var o := Process(p, st, req, env, max, arch).1;
      o.Responded? ==> !o.response.fallbackUsed
  {
  }

  // ---------------------------------------------------------------------
  // A weight-free model once LOADED never serves as a fallback again

  /** `id` is a built-in or OpenCV entry in the LOADED state. */
  ghost predicate LoadedWeightFree(st: RegState, id: string)
  {
    id in st.models && NeedsNoWeights(st.models[id].backend) && st.models[id].status == Loaded
  }

  lemma LoadKeepsLoadedWeightFree(st: RegState, id: string, env: LoadEnv, max: nat, arch: set<string>, w: string)
    requires StateOk(max, st) && LoadedWeightFree(st, w)
    ensures LoadedWeightFree(Load(st, id, env, max, arch).0, w)
  {
    assert w !in st.cache;
    if id in st.models && id !in st.cache {
      var st1 := st.(stats := st.stats.(misses := st.stats.misses + 1));
      var info := st1.models[id];
      if !NeedsNoWeights(info.backend) && env.torchAvailable && info.status == Available &&
         id in arch && id !in env.unreadable && |st1.cacheOrder| >= max && st1.cacheOrder != [] {
        var k := LeastRecentIndex(st1.cacheOrder, st1.models);
        assert st1.cacheOrder[k] in st1.cache;
      }
    }
  }

  lemma RunKeepsLoadedWeightFree(p: Profile, st: RegState, info: ModelInfo, b: Backend, env: ProcessEnv,
                                 max: nat, arch: set<string>, w: string)
    requires StateOk(max, st) && LoadedWeightFree(st, w)
    ensures LoadedWeightFree(Run(p, st, info, b, env, max, arch).0, w)
  {
    if env.load.torchAvailable {
      LoadKeepsLoadedWeightFree(st, info.id, env.load, max, arch, w);
    }
  }

  /**
   * A LOADED built-in or OpenCV entry stays LOADED through any walk and is
   * skipped by it: no eviction ever resets it, since it is never cached.
   */
  lemma {:induction false} LoadedWeightFreeNeverServes(p: Profile, st: RegState, cands: seq<string>, env: ProcessEnv,
                                                       max: nat, arch: set<string>, w: string)
    requires StateOk(max, st) && LoadedWeightFree(st, w)
    ensures var out := Fallback(p, st, cands, env, max, arch);
      LoadedWeightFree(out.0, w) && (out.1.Success? ==> out.1.value.0.modelId != w)
    decreases |cands|
  {
    if cands == [] {
    } else if cands[0] !in st.models || st.models[cands[0]].status != Available {
      LoadedWeightFreeNeverServes(p, st, cands[1..], env, max, arch, w);
    } else {
      var info := st.models[cands[0]];
      RunKeepsState(p, st, info, info.backend, env, max, arch);
      RunKeepsLoadedWeightFree(p, st, info, info.backend, env, max, arch, w);
      var tried := Run(p, st, info, info.backend, env, max, arch);
      if tried.1.Success? {
        assert tried.1.value.modelId == cands[0] != w;
      } else {
        LoadedWeightFreeNeverServes(p, tried.0, cands[1..], env, max, arch, w);
      }
    }
  }

  /**
   * How such an entry becomes LOADED: a PyTorch dispatch of a built-in or
   * OpenCV model (a request preferring PyTorch) loads it as a sentinel.
   */
  lemma TorchDispatchMarksWeightFreeLoaded(p: Profile, st: RegState, info: ModelInfo, env: ProcessEnv,
                                           max: nat, arch: set<string>)
    requires StateOk(max, st) && info.id in st.models && NeedsNoWeights(st.models[info.id].backend)
    requires PyTorch in p.backends && env.load.torchAvailable
    ensures LoadedWeightFree(Run(p, st, info, PyTorch, env, max, arch).0, info.id)
  {
    assert info.id !in st.cache;
  }

  // ---------------------------------------------------------------------
  // The service object

  class Service {
    const profile: Profile
    const registry: ModelRegistry

    constructor (profile: Profile, registry: ModelRegistry)
      ensures this.profile == profile && this.registry == registry
    {
      this.profile := profile;
      this.registry := registry;
    }

    /** `_process_pytorch`, loading through the registry. */
    method ProcessPyTorch(info: ModelInfo, env: ProcessEnv) returns (r: Result<Rendered, string>)
      requires registry.Valid()
      modifies registry
      ensures registry.Valid()
      ensures (registry.State(), r) ==
        RunTorch(profile, old(registry.State()), info, env, registry.maxCacheSize, registry.architectures)
    {
      if !env.load.torchAvailable {
        return Failure("PyTorch not available");
      }
      var h := registry.LoadModel(info.id, env.load);
      if h.Failure? {
        r := Failure(LoadErrorText(h.error));
      } else if info.processorType in profile.guardedTypes {
        r := GuardedRun(profile, info, h.value, env);
      } else if info.processorType !in profile.torchTypes {
        r := Failure("Unsupported processor type");
      } else if h.value.Sentinel? {
        r := Failure("'str' object has no attribute 'parameters'");
      } else {
        r := Pixels(info.id, PyTorch, env);
      }
    }

    /** `_process_with_backend`. */
    method ProcessWithBackend(info: ModelInfo, b: Backend, env: ProcessEnv) returns (r: Result<Rendered, string>)
      requires registry.Valid()
      modifies registry
      ensures registry.Valid()
      ensures (registry.State(), r) ==
        Run(profile, old(registry.State()), info, b, env, registry.maxCacheSize, registry.architectures)
    {
      if b !in profile.backends {
        return Failure("Unsupported backend: " + BackendValue(b));
      }
      match b {
        case PyTorch =>
          r := ProcessPyTorch(info, env);
        case OpenCV =>
          r := RunOpenCV(profile, info, env);
        case Builtin =>
          r := Pixels(info.id, Builtin, env);
        case Onnx =>
          if env.onnxRuntime && info.processorType == PoseEstimation {
            r := Pixels(info.id, Onnx, env);
          } else {
            r := RunOpenCV(profile, info, env);
          }
        case SafeTensors =>
          if env.safetensorsLib && info.processorType in {ClipVision, Revision} {
            r := Pixels(info.id, SafeTensors, env);
          } else {
            r := ProcessPyTorch(info, env);
          }
      }
    }

    /** `_process_with_fallback`: the walk as a loop with early return. */
    method ProcessWithFallback(cands: seq<string>, env: ProcessEnv) returns (r: Result<(Rendered, Backend), string>)
      requires registry.Valid()
      modifies registry
      ensures registry.Valid()
      ensures (registry.State(), r) ==
        Fallback(profile, old(registry.State()), cands, env, registry.maxCacheSize, registry.architectures)
    {
      var i := 0;
      while i < |cands|
        invariant 0 <= i <= |cands|
        invariant registry.Valid()
        invariant Fallback(profile, old(registry.State()), cands, env, registry.maxCacheSize, registry.architectures) ==
                  Fallback(profile, registry.State(), cands[i..], env, registry.maxCacheSize, registry.architectures)
      {
        ghost var st := registry.State();
        var candidate := registry.GetModelInfo(cands[i]);
        if candidate.None? || candidate.value.status != Available {
          FallbackSkip(profile, st, cands, i, env, registry.maxCacheSize, registry.architectures);
          i := i + 1;
          continue;
        }
        FallbackTry(profile, st, cands, i, env, registry.maxCacheSize, registry.architectures);
        var info := candidate.value;
        var res := ProcessWithBackend(info, info.backend, env);
        if res.Success? {
          return Success((res.value, info.backend));
        }
        i := i + 1;
      }
      r := Failure(profile.exhausted);
    }

    /** `process_image`. */
    method ProcessImage(req: Request, env: ProcessEnv) returns (o: Outcome)
      requires registry.Valid()
      modifies registry
      ensures registry.Valid()
      ensures (registry.State(), o) ==
        Process(profile, old(registry.State()), req, env, registry.maxCacheSize, registry.architectures)
    {
      var found := registry.GetModelInfo(req.modelId);
      if found.None? || !req.decodes {
        return Raised("local variable 'backend_used' referenced before assignment");
      }
      var info := found.value;
      var b := Primary(req, info);
      var res := ProcessWithBackend(info, b, env);
      if res.Success? {
        return Responded(Encoded(req, b, false, res.value));
      }
      if !req.fallbackEnabled {
        return Responded(Response(false, req.modelId, b, false, None, Some(res.error)));
      }
      var walked := ProcessWithFallback(info.fallbackModels, env);
      if walked.Success? {
        o := Responded(Encoded(req, walked.value.1, true, walked.value.0));
      } else {
        o := Responded(Response(false, req.modelId, b, false, None, Some(walked.error)));
      }
    }
  }
}
