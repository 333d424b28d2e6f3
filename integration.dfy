// The enhanced-processing bridge: a manager that memoises processor
// instances taken from the global processor registry, the pipeline that
// tries the enhanced path first and the caller's own function second, the
// wrapper around that pipeline, and the module-level `enhanced_manager`
// that `initialize_enhanced_processing` sets and
// `cleanup_enhanced_processing` clears.  Base64 decoding and encoding are
// reduced to whether they succeed; the caller's fallback function is given
// by the outcome of each of its calls.
module Integration {
  import opened Wrappers
  import opened Text
  import opened Params
  import opened Preprocessor

  /** An entry of `available_models`; a missing `available` key reads as false. */
  datatype ModelEntry = ModelEntry(available: bool, filepath: Option<string>)

  /**
   * `_resolve_model_path`: the lookup key is the processor id with every
   * `_builtin` removed; only an entry marked available yields its path.
   */
  function ResolveModelPath(models: map<string, ModelEntry>, id: string): (r: Option<string>)
    ensures var key := ReplaceAll(id, "_builtin", "");
      r.Some? <==> key in models && models[key].available && models[key].filepath.Some?
    ensures r.Some? ==> r == models[ReplaceAll(id, "_builtin", "")].filepath
  {
    var key := ReplaceAll(id, "_builtin", "");
    if key in models && models[key].available then models[key].filepath else None
  }

  /**
   * A built-in id resolves through the entry of its base name, and so does
   * the base name itself: `canny_builtin` and `canny` share one entry.
   */
  lemma BuiltinSuffixIgnored(models: map<string, ModelEntry>, base: string)
    requires '_' !in base
    ensures ResolveModelPath(models, base + "_builtin") == ResolveModelPath(models, base)
    ensures ResolveModelPath(models, base) ==
      (if base in models && models[base].available then models[base].filepath else None)
  {
    ReplaceAllSuffix(base, "_builtin", "");
    assert base + "" == base;
    MissingCharNotContained(base, "_builtin", '_');
    ReplaceAllAbsent(base, "_builtin", "");
  }

  /**
   * The `model_path` keyword the manager would have to pass for the class
   * to be constructed at all: none for a class that pins its path.
   */
  function CorrectedKeyword(c: ProcessorClass, resolved: Option<string>): (r: Option<Option<string>>)
    ensures Construct(c, r).Some?
    ensures !c.pinsModelPath ==> Construct(c, r) == Some(resolved)
    ensures c.pinsModelPath ==> Construct(c, r) == Some(None)
  {
    if c.pinsModelPath then None else Some(resolved)
  }

  /** Why the enhanced path gave up. */
  datatype EnhancedError = CreateFailed(id: string) | Processing(cause: Cause) | DecodeFailed | EncodeFailed

  /** `process_image` turns any processor failure into `ProcessingError`. */
  function Lift(res: Result<(nat, Info), Cause>): (r: Result<(nat, Info), EnhancedError>)
    ensures r.Success? <==> res.Success?
    ensures r.Success? ==> r.value == res.value
    ensures r.Failure? ==> r.error == Processing(res.error)
  {
    match res
    case Success(v) => Success(v)
    case Failure(c) => Failure(Processing(c))
  }

  /** The instance that would serve a request: its path, parameters and state. */
  datatype Serving = Serving(modelPath: Option<string>, schema: Schema, defaults: Settings, state: ProcState)

  class EnhancedProcessorManager {
    const modelPathBase: string
    const availableModels: map<string, ModelEntry>
    /** The global `processor_registry`, shared by every manager. */
    const registry: ProcessorRegistry
    var processorCache: map<string, BasePreprocessor>

    /** Every cached instance is the registry's instance for the same id. */
    predicate Valid()
      reads this, registry
    {
      registry.Valid() &&
      forall id :: id in processorCache ==> id in registry.processors && registry.processors[id] == processorCache[id]
    }

    constructor (modelPathBase: Option<string>, availableModels: map<string, ModelEntry>, registry: ProcessorRegistry)
      requires registry.Valid()
      ensures Valid() && processorCache == map[] && this.registry == registry
      ensures this.modelPathBase == modelPathBase.UnwrapOr("") && this.availableModels == availableModels
    {
      this.modelPathBase := modelPathBase.UnwrapOr("");
      this.availableModels := availableModels;
      this.registry := registry;
      processorCache := map[];
    }

    /**
     * The instance `get_processor` would hand out for `id`, if any: the
     * registry's own, or a new one built with the resolved model path.
     */
    function Served(id: string): Option<Serving>
      reads this, registry, registry.processors.Values
    {
      if id in registry.processors then
        var p := registry.processors[id];
        Some(Serving(p.modelPath, p.schema, p.defaults, p.State()))
      else if id in registry.classes then
        var c := registry.classes[id];
        match Construct(c, Some(ResolveModelPath(availableModels, id)))
        case None => None
        case Some(path) => Some(Serving(path, c.schema, c.defaults, ProcState(None, false, Zero)))
      else None
    }

    /**
     * `get_processor`: a cached id returns its instance; otherwise the
     * registry is asked with the resolved `model_path` and the instance is
     * cached.  A failure is re-raised and leaves the cache as it was.
     */
    method GetProcessor(id: string) returns (r: Result<BasePreprocessor, string>)
      requires Valid()
      modifies this, registry
      ensures Valid() && registry.classes == old(registry.classes)
      ensures r.Success? <==> old(Served(id)).Some?
      ensures id in old(processorCache) ==> r == Success(old(processorCache[id])) && processorCache == old(processorCache)
      ensures r.Success? ==>
        && processorCache == old(processorCache)[id := r.value]
        && registry.processors == old(registry.processors)[id := r.value]
        && Serving(r.value.modelPath, r.value.schema, r.value.defaults, r.value.State()) == old(Served(id)).value
      ensures r.Success? && id in old(registry.processors) ==> r.value == old(registry.processors[id])
      ensures r.Success? && id !in old(registry.processors) ==> fresh(r.value) && r.value.cacheModels
      ensures r.Failure? ==> processorCache == old(processorCache) && registry.processors == old(registry.processors)
    {
      if id in processorCache {
        return Success(processorCache[id]);
      }
      var modelPath := ResolveModelPath(availableModels, id);
      r := registry.GetProcessor(id, Some(modelPath), true, None, false);
      if r.Success? {
        processorCache := processorCache[id := r.value];
      }
    }

    /**
     * `process_image`: the instance runs `process_single`; its result and
     * info are passed on, any failure becomes `ProcessingError`.  Only the
     * serving instance changes.
     */
    method ProcessImage(id: string, params: seq<(string, Value)>, load: LoadEnv, step: StepEnv, elapsed: real)
      returns (r: Result<(nat, Info), EnhancedError>)
      requires Valid()
      modifies this, registry, registry.processors.Values
      ensures Valid() && registry.classes == old(registry.classes)
      ensures old(Served(id)).None? ==> r == Failure(CreateFailed(id)) && processorCache == old(processorCache)
      ensures old(Served(id)).Some? ==>
        var s := old(Served(id)).value;
        var out := Single(s.modelPath, s.schema, s.defaults, s.state, params, load, step, elapsed);
        id in processorCache && processorCache[id].State() == out.0 && r == Lift(out.1)
      ensures forall k :: k in old(registry.processors) && k != id ==>
        k in registry.processors && registry.processors[k] == old(registry.processors[k]) &&
        registry.processors[k].State() == old(registry.processors[k].State())
    {
      var got := GetProcessor(id);
      if got.Failure? {
        return Failure(CreateFailed(id));
      }
      var p := got.value;
      assert id in old(registry.processors) ==> p in old(registry.processors.Values);
      var res := p.ProcessSingle(params, load, step, elapsed);
      r := Lift(res);
    }

    /**
     * `cleanup_processors`: every cached instance and then every instance
     * of the registry runs `cleanup_memory`, and the cache is emptied.
     */
    method CleanupProcessors()
      requires Valid()
      modifies this, registry.processors.Values
      ensures Valid() && processorCache == map[] && registry.processors == old(registry.processors)
      ensures forall id :: id in registry.processors ==>
        registry.processors[id].State() ==
          Cleanup(registry.processors[id].cacheModels, old(registry.processors[id].State()))
    {
      var pending := processorCache.Keys;
      while pending != {}
        invariant processorCache == old(processorCache) && Valid()
        invariant pending <= processorCache.Keys
        invariant forall id :: id in registry.processors ==>
          registry.processors[id].State() ==
            if id in processorCache && id !in pending
            then Cleanup(registry.processors[id].cacheModels, old(registry.processors[id].State()))
            else old(registry.processors[id].State())
        decreases pending
      {
        var id :| id in pending;
        assert processorCache[id] == registry.processors[id];
        processorCache[id].CleanupMemory();
        pending := pending - {id};
      }
      processorCache := map[];
      registry.CleanupAll();
      forall id | id in registry.processors
        ensures registry.processors[id].State() ==
          Cleanup(registry.processors[id].cacheModels, old(registry.processors[id].State()))
      {
        CleanupIdempotent(registry.processors[id].cacheModels, old(registry.processors[id].State()));
      }
    }
  }

  /** Cleaning up twice is cleaning up once. */
  lemma CleanupIdempotent(cacheModels: bool, st: ProcState)
    ensures Cleanup(cacheModels, Cleanup(cacheModels, st)) == Cleanup(cacheModels, st)
  {
  }

  /** What the caller's fallback function returned. */
  datatype FallbackValue = Plain(v: string) | Tupled(items: seq<string>)

  /** One call of the caller's fallback function. */
  datatype FallbackOutcome = FallbackReturns(value: FallbackValue) | FallbackRaises(message: string)

  /**
   * The caller's fallback function, given by the outcomes of its first call
   * and of every later call, and counting how often it is called.
   */
  class Original {
    const first: FallbackOutcome
    const later: FallbackOutcome
    var calls: nat

    constructor (first: FallbackOutcome, later: FallbackOutcome)
      ensures this.first == first && this.later == later && calls == 0
    {
      this.first := first;
      this.later := later;
      calls := 0;
    }

    /** The outcome of the next call. */
    function Next(): FallbackOutcome
      reads this
    {
      if calls == 0 then first else later
    }

    method Call() returns (o: FallbackOutcome)
      modifies this
      ensures o == old(Next()) && calls == old(calls) + 1
    {
      o := Next();
      calls := calls + 1;
    }
  }

  /** The image the pipeline hands back. */
  datatype Output = EncodedImage(image: nat) | FromFallback(v: string)

  /**
   * The `processing_info` of a successful pipeline run.  On the enhanced
   * path the processor's own info is merged in, and its `fallback_used`
   * (the processor's internal fallback) overwrites the pipeline's.
   */
  datatype PipelineInfo = PipelineInfo(enhancedAttempted: bool, fallbackUsed: bool, success: bool,
                                       enhancedError: Option<EnhancedError>, processor: Option<Info>)

  /** The exceptions `process_with_enhanced_pipeline` raises. */
  datatype PipelineError =
    | NotInitialised
    | BothFailed(enhanced: EnhancedError, fallback: string)
    | EnhancedFailed(enhanced: EnhancedError)

  /** The enhanced path from decoding to encoding. */
  function Enhanced(decodeOk: bool, processed: Result<(nat, Info), EnhancedError>, encodeOk: bool)
    : (r: Result<(nat, Info), EnhancedError>)
    ensures r.Success? <==> decodeOk && processed.Success? && encodeOk
    ensures r.Success? ==> r == processed
  {
    if !decodeOk then Failure(DecodeFailed)
    else if processed.Failure? then processed
    else if !encodeOk then Failure(EncodeFailed)
    else processed
  }

  /**
   * `process_with_enhanced_pipeline` once the manager exists: the enhanced
   * result if there is one, otherwise the fallback's value (the first item
   * of a tuple), otherwise `ProcessingError`.  Indexing an empty tuple
   * raises inside the fallback's `try`, so it counts as a failed fallback.
   */
  function Pipeline(enhanced: Result<(nat, Info), EnhancedError>, fallback: Option<FallbackOutcome>)
    : (r: Result<(Output, PipelineInfo), PipelineError>)
    ensures r.Success? ==> r.value.1.success && r.value.1.enhancedAttempted
    ensures enhanced.Success? ==>
      r == Success((EncodedImage(enhanced.value.0),
                    PipelineInfo(true, enhanced.value.1.fallbackUsed, true, None, Some(enhanced.value.1))))
    ensures enhanced.Failure? && fallback.None? ==> r == Failure(EnhancedFailed(enhanced.error))
    ensures enhanced.Failure? && fallback.Some? ==>
      (r.Success? <==> fallback.value.FallbackReturns? &&
                       (fallback.value.value.Tupled? ==> |fallback.value.value.items| > 0))
    ensures enhanced.Failure? && r.Success? ==>
      && r.value.1.fallbackUsed && r.value.1.enhancedError == Some(enhanced.error)
      && r.value.0 == FromFallback(match fallback.value.value
                                   case Plain(v) => v
                                   case Tupled(items) => items[0])
    ensures enhanced.Failure? && r.Failure? ==> !r.error.NotInitialised? && r.error.enhanced == enhanced.error
  {
    match enhanced
    case Success((img, info)) => Success((EncodedImage(img), PipelineInfo(true, info.fallbackUsed, true, None, Some(info))))
    case Failure(e) =>
      match fallback
      case None => Failure(EnhancedFailed(e))
      case Some(FallbackRaises(m)) => Failure(BothFailed(e, m))
      case Some(FallbackReturns(Plain(v))) => Success((FromFallback(v), PipelineInfo(true, true, true, Some(e), None)))
      case Some(FallbackReturns(Tupled(items))) =>
        if |items| == 0 then Failure(BothFailed(e, "tuple index out of range"))
        else Success((FromFallback(items[0]), PipelineInfo(true, true, true, Some(e), None)))
  }

  /** What the wrapper returns: the pipeline's pair, or the original function's own value. */
  datatype WrapperResult = ViaPipeline(out: Output, info: PipelineInfo) | Direct(value: FallbackValue) | Raised(message: string)

  function Outcome(o: FallbackOutcome): WrapperResult
  {
    match o
    case FallbackReturns(v) => Direct(v)
    case FallbackRaises(m) => Raised(m)
  }

  /**
   * `enhanced_wrapper` with the outcomes of the original function's first
   * and second calls: the pipeline runs with the original as its fallback,
   * and any exception it raises makes the wrapper call the original again.
   * The second component counts the calls of the original.
   */
  function Wrapper(initialised: bool, enhanced: Result<(nat, Info), EnhancedError>,
                   first: FallbackOutcome, second: FallbackOutcome): (r: (WrapperResult, nat))
    ensures r.1 <= 2
    ensures initialised && enhanced.Success? ==> r.1 == 0 && r.0.ViaPipeline?
    ensures !initialised ==> r == (Outcome(first), 1)
  {
    var piped := if initialised then Pipeline(enhanced, Some(first)) else Failure(NotInitialised);
    var used: nat := if initialised && enhanced.Failure? then 1 else 0;
    if piped.Success? then (ViaPipeline(piped.value.0, piped.value.1), used)
    else if used == 1 then (Outcome(second), 2)
    else (Outcome(first), 1)
  }

  /**
   * When the enhanced path and the original both fail, the original is
   * called a second time and its second outcome is what the caller sees;
   * when the original succeeds as the fallback it is called once.
   */
  lemma WrapperCallsOriginalTwice(enhanced: Result<(nat, Info), EnhancedError>,
                                  first: FallbackOutcome, second: FallbackOutcome)
    requires enhanced.Failure?
    ensures first.FallbackRaises? ==> Wrapper(true, enhanced, first, second) == (Outcome(second), 2)
    ensures first.FallbackReturns? && first.value.Plain? ==>
      Wrapper(true, enhanced, first, second).1 == 1 &&
      Wrapper(true, enhanced, first, second).0 ==
        ViaPipeline(FromFallback(first.value.v), PipelineInfo(true, true, true, Some(enhanced.error), None))
    ensures first == FallbackReturns(Tupled([])) ==> Wrapper(true, enhanced, first, second) == (Outcome(second), 2)
  {
  }

  /** What `validate_processor_parameters` returns. */
  datatype Validated = Checked(settings: Settings) | Unchecked(params: seq<(string, Value)>)

  /**
   * The module-level state: the global `processor_registry` and the
   * `enhanced_manager` that is `None` until initialised.
   */
  class EnhancedProcessing {
    const registry: ProcessorRegistry
    var manager: EnhancedProcessorManager?

    predicate Valid()
      reads this, registry, manager
    {
      registry.Valid() && (manager != null ==> manager.registry == registry && manager.Valid())
    }

    constructor (registry: ProcessorRegistry)
      requires registry.Valid()
      ensures Valid() && manager == null && this.registry == registry
    {
      this.registry := registry;
      manager := null;
    }

    /** `initialize_enhanced_processing`: a new manager with an empty cache replaces the old one. */
    method Initialize(modelPathBase: Option<string>, availableModels: map<string, ModelEntry>)
      returns (m: EnhancedProcessorManager)
      requires Valid()
      modifies this
      ensures Valid() && manager == m && fresh(m) && m.processorCache == map[]
      ensures m.availableModels == availableModels && m.modelPathBase == modelPathBase.UnwrapOr("")
    {
      m := new EnhancedProcessorManager(modelPathBase, availableModels, registry);
      manager := m;
    }

    /** The enhanced result the manager would produce, before any state changes. */
    function EnhancedSpec(decodeOk: bool, id: string, params: seq<(string, Value)>, load: LoadEnv, step: StepEnv,
                          elapsed: real, encodeOk: bool): Result<(nat, Info), EnhancedError>
      requires manager != null && manager.registry == registry
      reads this, manager, registry, registry.processors.Values
    {
      var processed :=
        match manager.Served(id)
        case None => Failure(CreateFailed(id))
        case Some(s) => Lift(Single(s.modelPath, s.schema, s.defaults, s.state, params, load, step, elapsed).1);
      Enhanced(decodeOk, processed, encodeOk)
    }

    /**
     * `process_with_enhanced_pipeline`: `RuntimeError` without a manager;
     * otherwise decode, let the manager process, encode, and fall back as
     * `Pipeline` says.  A failed decode leaves every processor untouched.
     */
    method ProcessWithEnhancedPipeline(decodeOk: bool, id: string, params: seq<(string, Value)>, load: LoadEnv,
                                       step: StepEnv, elapsed: real, encodeOk: bool, fallback: Original?)
      returns (r: Result<(Output, PipelineInfo), PipelineError>)
      requires Valid()
      modifies manager, registry, registry.processors.Values, fallback
      ensures Valid() && manager == old(manager)
      ensures old(manager) == null ==> r == Failure(NotInitialised)
      ensures old(manager) != null ==>
        r == Pipeline(old(EnhancedSpec(decodeOk, id, params, load, step, elapsed, encodeOk)),
                      if fallback == null then None else Some(old(fallback.Next())))
      ensures fallback != null ==> (fallback.calls == old(fallback.calls) +
        if old(manager) != null && old(EnhancedSpec(decodeOk, id, params, load, step, elapsed, encodeOk)).Failure?
        then 1 else 0)
      ensures !decodeOk ==> (registry.processors == old(registry.processors) &&
        forall k :: k in registry.processors ==> registry.processors[k].State() == old(registry.processors[k].State()))
    {
      if manager == null {
        return Failure(NotInitialised);
      }
      var processed: Result<(nat, Info), EnhancedError> := Failure(DecodeFailed);
      if decodeOk {
        processed := manager.ProcessImage(id, params, load, step, elapsed);
      }
      var enhanced := Enhanced(decodeOk, processed, encodeOk);
      var outcome: Option<FallbackOutcome> := None;
      if enhanced.Failure? && fallback != null {
        var o := fallback.Call();
        outcome := Some(o);
      }
      r := Pipeline(enhanced, outcome);
    }

    /**
     * `create_enhanced_api_wrapper`'s wrapper: the pipeline with the
     * original function as its fallback, and the original once more if the
     * pipeline raises.
     */
    method EnhancedWrapper(decodeOk: bool, id: string, params: seq<(string, Value)>, load: LoadEnv, step: StepEnv,
                           elapsed: real, encodeOk: bool, original: Original)
      returns (r: WrapperResult)
      requires Valid() && original.calls == 0
      modifies manager, registry, registry.processors.Values, original
      ensures Valid() && manager == old(manager)
      ensures old(manager) == null ==> (r, original.calls) == Wrapper(false, Failure(DecodeFailed), original.first, original.later)
      ensures old(manager) != null ==>
        (r, original.calls) == Wrapper(true, old(EnhancedSpec(decodeOk, id, params, load, step, elapsed, encodeOk)),
                                       original.first, original.later)
    {
      var piped := ProcessWithEnhancedPipeline(decodeOk, id, params, load, step, elapsed, encodeOk, original);
      if piped.Success? {
        return ViaPipeline(piped.value.0, piped.value.1);
      }
      var o := original.Call();
      r := Outcome(o);
    }

    /**
     * `validate_processor_parameters`: `RuntimeError` without a manager;
     * the validated settings when the processor exists and accepts them,
     * and the parameters as given when either step raises.
     */
    method ValidateProcessorParameters(id: string, params: seq<(string, Value)>) returns (r: Result<Validated, string>)
      requires Valid()
      modifies manager, registry
      ensures Valid() && manager == old(manager)
      ensures old(manager) == null <==> r.Failure?
      ensures old(manager) != null ==>
        r.value == match old(manager.Served(id))
                   case None => Unchecked(params)
                   case Some(s) =>
                     match Validate(s.schema, s.defaults, params)
                     case Success(settings) => Checked(settings)
                     case Failure(_) => Unchecked(params)
    {
      if manager == null {
        return Failure("Enhanced processing not initialized");
      }
      var got := manager.GetProcessor(id);
      if got.Failure? {
        return Success(Unchecked(params));
      }
      var validated := got.value.ValidateParameters(params);
      if validated.Failure? {
        return Success(Unchecked(params));
      }
      return Success(Checked(validated.value));
    }

    /** `get_processor_schema`: empty without a manager or a processor. */
    method GetProcessorSchema(id: string) returns (s: Schema)
      requires Valid()
      modifies manager, registry
      ensures Valid() && manager == old(manager)
      ensures old(manager) == null ==> s == map[]
      ensures old(manager) != null ==> s == match old(manager.Served(id)) case None => map[] case Some(v) => v.schema
    {
      if manager == null {
        return map[];
      }
      var got := manager.GetProcessor(id);
      if got.Failure? {
        return map[];
      }
      return got.value.schema;
    }

    /** `cleanup_enhanced_processing`: the manager cleans up and is dropped. */
    method Cleanup()
      requires Valid()
      modifies this, manager, registry.processors.Values
      ensures Valid() && manager == null && registry.processors == old(registry.processors)
      ensures old(manager) != null ==> (old(manager).processorCache == map[] &&
        forall id :: id in registry.processors ==>
          registry.processors[id].State() ==
            Preprocessor.Cleanup(registry.processors[id].cacheModels, old(registry.processors[id].State())))
      ensures old(manager) == null ==>
        forall id :: id in registry.processors ==> registry.processors[id].State() == old(registry.processors[id].State())
    {
      if manager != null {
        manager.CleanupProcessors();
      }
      manager := null;
    }
  }
}
