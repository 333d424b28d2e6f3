// The preprocessor framework: `BasePreprocessor` (model loading, single and
// batch processing with fallback, statistics) and the memoising
// `ProcessorRegistry`.  What a concrete preprocessor does with pixels is an
// input: whether its loader returns a model, returns nothing or raises, and
// whether each processing stage produces an image or raises.

module Preprocessor {
  import opened Wrappers
  import opened Params

  /** `self.stats`; `totalTime` adds up the durations it is handed. */
  datatype Counters = Counters(totalProcessed: nat, totalTime: real, errorCount: nat, fallbackCount: nat, batchCount: nat)

  const Zero := Counters(0, 0.0, 0, 0, 0)

  /** The mutable part of a preprocessor: `model`, `_model_loaded`, `stats`. */
  datatype ProcState = ProcState(model: Option<nat>, loaded: bool, stats: Counters)

  /** What `_load_model_impl` does when it is called. */
  datatype LoaderResult = Returns(model: Option<nat>) | LoaderRaises

  /** The outside world seen by `load_model`: existing paths and the loader. */
  datatype LoadEnv = LoadEnv(files: set<string>, loader: LoaderResult)

  /** What `_process_impl` does: an image, `None`, or an exception. */
  datatype ImplOutcome = Produced(image: nat) | NoResult | ImplRaises

  /**
   * One image's stages: whether `preprocess_image` succeeds, what
   * `_process_impl` does, the image `_fallback_process` returns (`None`
   * when it raises), and whether `postprocess_image` succeeds.
   */
  datatype StepEnv = StepEnv(preprocessOk: bool, impl: ImplOutcome, fallback: Option<nat>, postprocessOk: bool)

  /** Why `process_single` raised `ProcessingError`. */
  datatype Cause = InvalidParameter(name: string) | PreprocessFailed | FallbackFailed | PostprocessFailed

  /** `processing_info` of one processed image. */
  datatype Info = Info(fallbackUsed: bool, parametersUsed: Settings)

  /** One batch entry: a processed image, or the original image with an error. */
  datatype BatchEntry =
    | Done(image: nat, fallbackUsed: bool, index: nat, parametersUsed: Settings)
    | Errored(original: nat, index: nat)

  /** One batch input: the image and what each stage does to it. */
  datatype BatchItem = BatchItem(image: nat, step: StepEnv)

  function Err(c: Counters): Counters
  {
    c.(errorCount := c.errorCount + 1)
  }

  function Fell(c: Counters): Counters
  {
    c.(fallbackCount := c.fallbackCount + 1)
  }

  /** `not self.model_path or not Path(self.model_path).exists()`. */
  predicate PathMissing(modelPath: Option<string>, files: set<string>)
  {
    modelPath.None? || modelPath.value == "" || modelPath.value !in files
  }

  /**
   * `load_model`: the new state and whether the main path may run.  A
   * model already held is reused; a missing path changes nothing; a loader
   * that raises counts an error; any value the loader returns, `None`
   * included, marks the model loaded.
   */
  function Load(modelPath: Option<string>, st: ProcState, env: LoadEnv): (r: (ProcState, bool))
    ensures st.loaded && st.model.Some? ==> r == (st, true)
    ensures !(st.loaded && st.model.Some?) && PathMissing(modelPath, env.files) ==> r == (st, false)
    ensures r.1 <==> (st.loaded && st.model.Some?) || (!PathMissing(modelPath, env.files) && env.loader.Returns?)
    ensures r.0.stats.errorCount ==
      st.stats.errorCount + (if !(st.loaded && st.model.Some?) && !PathMissing(modelPath, env.files) && env.loader.LoaderRaises? then 1 else 0)
    ensures r.0.stats.(errorCount := 0) == st.stats.(errorCount := 0)
  {
    if st.loaded && st.model.Some? then (st, true)
    else if PathMissing(modelPath, env.files) then (st, false)
    else match env.loader
      case LoaderRaises => (st.(stats := Err(st.stats)), false)
      case Returns(m) => (st.(model := m, loaded := true), true)
  }

  /**
   * A loader that returned `None` leaves nothing to reuse: the next
   * `load_model` calls the loader again, and its outcome is what counts.
   */
  lemma NoneModelIsReloaded(modelPath: Option<string>, st: ProcState, env: LoadEnv, later: LoadEnv)
    requires !(st.loaded && st.model.Some?)
    requires !PathMissing(modelPath, env.files) && env.loader == Returns(None)
    requires !PathMissing(modelPath, later.files) && later.loader == LoaderRaises
    ensures Load(modelPath, Load(modelPath, st, env).0, later) == (st.(model := None, loaded := true, stats := Err(st.stats)), false)
  {
  }

  /**
   * The shape `preprocess_image` leaves: a grey H×W image gains three
   * channels, an RGBA H×W×4 image loses its alpha; any other shape is kept.
   */
  function PreprocessShape(shape: seq<nat>): (r: seq<nat>)
    ensures |shape| == 2 ==> r == shape + [3]
    ensures |shape| == 3 && shape[2] == 4 ==> r == shape[..2] + [3]
    ensures !(|shape| == 2 || (|shape| == 3 && shape[2] == 4)) ==> r == shape
  {
    if |shape| == 2 then shape + [3]
    else if |shape| == 3 && shape[2] == 4 then shape[..2] + [3]
    else shape
  }

  /** `_process_impl` inside its `try`: an exception counts an error. */
  function Attempt(c: Counters, impl: ImplOutcome): (Counters, Option<nat>)
  {
    match impl
    case Produced(img) => (c, Some(img))
    case NoResult => (c, None)
    case ImplRaises => (Err(c), None)
  }

  /** Post-processing and the statistics of a finished image. */
  function Finish(c: Counters, img: nat, fallbackUsed: bool, settings: Settings, step: StepEnv, elapsed: real)
    : (Counters, Result<(nat, Info), Cause>)
  {
    if !step.postprocessOk then (Err(c), Failure(PostprocessFailed))
    else (c.(totalProcessed := c.totalProcessed + 1, totalTime := c.totalTime + elapsed),
          Success((img, Info(fallbackUsed, settings))))
  }

  /**
   * `process_single`: validate, preprocess, load, try the main path, fall
   * back when it did not yield an image, post-process, count.  Any
   * exception counts an error and becomes `ProcessingError`.
   */
  function Single(modelPath: Option<string>, schema: Schema, defaults: Settings, st: ProcState,
                  params: seq<(string, Value)>, load: LoadEnv, step: StepEnv, elapsed: real)
    : (out: (ProcState, Result<(nat, Info), Cause>))
    ensures var mainRan := Load(modelPath, st, load).1 && step.impl.Produced?;
      out.1.Success? ==>
        && Validate(schema, defaults, params).Success?
        && out.1.value.1 == Info(!mainRan, Validate(schema, defaults, params).value)
        && (mainRan ==> out.1.value.0 == step.impl.image)
        && (!mainRan ==> step.fallback == Some(out.1.value.0))
        && out.0.stats.fallbackCount == st.stats.fallbackCount + (if mainRan then 0 else 1)
        && out.0.stats.totalProcessed == st.stats.totalProcessed + 1
    ensures out.1.Failure? ==>
      && out.0.stats.totalProcessed == st.stats.totalProcessed
      && out.0.stats.errorCount > st.stats.errorCount
      && (Validate(schema, defaults, params).Failure? <==> out.1.error.InvalidParameter?)
    ensures out.0.stats.batchCount == st.stats.batchCount
  {
    match Validate(schema, defaults, params)
    case Failure(k) => (st.(stats := Err(st.stats)), Failure(InvalidParameter(k)))
    case Success(settings) =>
      if !step.preprocessOk then (st.(stats := Err(st.stats)), Failure(PreprocessFailed))
      else
        var (st1, ok) := Load(modelPath, st, load);
        var (c2, main) := if ok then Attempt(st1.stats, step.impl) else (st1.stats, None);
        if main.Some? then
          var (c3, r) := Finish(c2, main.value, false, settings, step, elapsed);
          (st1.(stats := c3), r)
        else match step.fallback
          case None => (st1.(stats := Err(c2)), Failure(FallbackFailed))
          case Some(img) =>
            var (c3, r) := Finish(Fell(c2), img, true, settings, step, elapsed);
            (st1.(stats := c3), r)
  }

  /**
   * One batch item.  Unlike `process_single`, an exception of the main path
   * is not counted as an error: it only marks the fallback as used.
   */
  function Item(c: Counters, available: bool, settings: Settings, item: BatchItem, index: nat): (Counters, BatchEntry)
  {
    var step := item.step;
    if !step.preprocessOk then (Err(c), Errored(item.image, index))
    else
      var main := if available && step.impl.Produced? then Some(step.impl.image) else None;
      if main.Some? then
        if step.postprocessOk then (c, Done(main.value, false, index, settings)) else (Err(c), Errored(item.image, index))
      else match step.fallback
        case None => (Err(c), Errored(item.image, index))
        case Some(img) =>
          if step.postprocessOk then (Fell(c), Done(img, true, index, settings)) else (Err(Fell(c)), Errored(item.image, index))
  }

  /** The batch loop over `items`, in order. */
  function Items(c: Counters, available: bool, settings: Settings, items: seq<BatchItem>): (r: (Counters, seq<BatchEntry>))
    ensures |r.1| == |items|
    decreases |items|
  {
    if items == [] then (c, [])
    else
      var (c1, rs) := Items(c, available, settings, items[..|items| - 1]);
      var (c2, e) := Item(c1, available, settings, items[|items| - 1], |items| - 1);
      (c2, rs + [e])
  }

  /**
   * `process_batch`: validate once (a failure propagates and changes
   * nothing), load once, run every item, then count the batch and all of
   * its images.
   */
  function Batch(modelPath: Option<string>, schema: Schema, defaults: Settings, st: ProcState,
                 params: seq<(string, Value)>, load: LoadEnv, items: seq<BatchItem>, elapsed: real)
    : (ProcState, Result<seq<BatchEntry>, string>)
  {
    match Validate(schema, defaults, params)
    case Failure(k) => (st, Failure(k))
    case Success(settings) =>
      var (st1, available) := Load(modelPath, st, load);
      var (c, entries) := Items(st1.stats, available, settings, items);
      (st1.(stats := c.(batchCount := c.batchCount + 1,
                        totalProcessed := c.totalProcessed + |items|,
                        totalTime := c.totalTime + elapsed)), Success(entries))
  }

  lemma {:induction false} ItemsEntries(c: Counters, available: bool, settings: Settings, items: seq<BatchItem>)
    ensures var (c', rs) := Items(c, available, settings, items);
      && c'.totalProcessed == c.totalProcessed && c'.batchCount == c.batchCount
      && forall i :: 0 <= i < |items| ==>
        rs[i].index == i &&
        (rs[i].Errored? ==> rs[i].original == items[i].image) &&
        (rs[i].Done? ==> rs[i].parametersUsed == settings &&
                         (rs[i].fallbackUsed <==> !(available && items[i].step.impl.Produced?)))
    decreases |items|
  {
    if items != [] {
      var front := items[..|items| - 1];
      ItemsEntries(c, available, settings, front);
      var (c1, rs) := Items(c, available, settings, front);
      forall i | 0 <= i < |front| ensures items[i] == front[i] { }
    }
  }

  /**
   * A batch returns exactly one entry per input, in input order: entry `i`
   * carries index `i`, a failed entry the original image, a processed one
   * the shared validated parameters.  The batch counter grows by one and
   * `total_processed` by the number of inputs, failed ones included.
   */
  lemma BatchOnePerInput(modelPath: Option<string>, schema: Schema, defaults: Settings, st: ProcState,
                         params: seq<(string, Value)>, load: LoadEnv, items: seq<BatchItem>, elapsed: real)
    requires Validate(schema, defaults, params).Success?
    ensures var (st', r) := Batch(modelPath, schema, defaults, st, params, load, items, elapsed);
      && r.Success? && |r.value| == |items|
      && st'.stats.batchCount == st.stats.batchCount + 1
      && st'.stats.totalProcessed == st.stats.totalProcessed + |items|
      && forall i :: 0 <= i < |items| ==>
        r.value[i].index == i &&
        (r.value[i].Errored? ==> r.value[i].original == items[i].image) &&
        (r.value[i].Done? ==> r.value[i].parametersUsed == Validate(schema, defaults, params).value)
  {
    var (st1, available) := Load(modelPath, st, load);
    ItemsEntries(st1.stats, available, Validate(schema, defaults, params).value, items);
  }

  /** `cleanup_memory`: without `cache_models` a held model is dropped. */
  function Cleanup(cacheModels: bool, st: ProcState): (r: ProcState)
    ensures cacheModels ==> r == st
    ensures !cacheModels ==> r.model.None? && r.stats == st.stats
    ensures !cacheModels && st.model.Some? ==> !r.loaded
  {
    if st.model.Some? && !cacheModels then st.(model := None, loaded := false) else st
  }

  /** `get_stats`. */
  datatype ProcessorStats = ProcessorStats(
    counters: Counters, processorId: string, modelLoaded: bool, device: string, avgProcessingTime: real)

  /** `_setup_device`: `'auto'` or nothing picks CUDA when present, else the CPU. */
  function SetupDevice(device: Option<string>, cudaAvailable: bool): (d: string)
    ensures device.None? || device.value == "auto" ==> d == (if cudaAvailable then "cuda" else "cpu")
    ensures device.Some? && device.value != "auto" ==> d == device.value
  {
    if device.None? || device.value == "auto" then (if cudaAvailable then "cuda" else "cpu") else device.value
  }

  class BasePreprocessor {
    const processorId: string
    const modelPath: Option<string>
    const cacheModels: bool
    const device: string
    const schema: Schema
    const defaults: Settings
    var model: Option<nat>
    var modelLoaded: bool
    var stats: Counters

    function State(): ProcState
      reads this
    {
      ProcState(model, modelLoaded, stats)
    }

    constructor (processorId: string, modelPath: Option<string>, cacheModels: bool, device: Option<string>,
                 cudaAvailable: bool, schema: Schema, defaults: Settings)
      ensures this.processorId == processorId && this.modelPath == modelPath && this.cacheModels == cacheModels
      ensures this.device == SetupDevice(device, cudaAvailable)
      ensures this.schema == schema && this.defaults == defaults
      ensures State() == ProcState(None, false, Zero)
    {
      this.processorId := processorId;
      this.modelPath := modelPath;
      this.cacheModels := cacheModels;
      this.device := SetupDevice(device, cudaAvailable);
      this.schema := schema;
      this.defaults := defaults;
      model := None;
      modelLoaded := false;
      stats := Zero;
    }

    method ValidateParameters(params: seq<(string, Value)>) returns (r: Result<Settings, string>)
      ensures r == Validate(schema, defaults, params)
    {
      r := Params.ValidateParameters(schema, defaults, params);
    }

    method LoadModel(env: LoadEnv) returns (ok: bool)
      modifies this
      ensures (State(), ok) == Load(modelPath, old(State()), env)
    {
      if modelLoaded && model.Some? {
        return true;
      }
      if modelPath.None? || modelPath.value == "" || modelPath.value !in env.files {
        return false;
      }
      match env.loader {
        case LoaderRaises =>
          stats := stats.(errorCount := stats.errorCount + 1);
          return false;
        case Returns(m) =>
          model := m;
          modelLoaded := true;
          return true;
      }
    }

    method ProcessSingle(params: seq<(string, Value)>, load: LoadEnv, step: StepEnv, elapsed: real)
      returns (r: Result<(nat, Info), Cause>)
      modifies this
      ensures (State(), r) == Single(modelPath, schema, defaults, old(State()), params, load, step, elapsed)
    {
      var validated := ValidateParameters(params);
      if validated.Failure? {
        stats := stats.(errorCount := stats.errorCount + 1);
        return Failure(InvalidParameter(validated.error));
      }
      if !step.preprocessOk {
        stats := stats.(errorCount := stats.errorCount + 1);
        return Failure(PreprocessFailed);
      }
      var processed: Option<nat> := None;
      var ok := LoadModel(load);
      if ok {
        match step.impl {
          case Produced(img) => processed := Some(img);
          case NoResult =>
          case ImplRaises => stats := stats.(errorCount := stats.errorCount + 1);
        }
      }
      var fallbackUsed := false;
      if processed.None? {
        if step.fallback.None? {
          stats := stats.(errorCount := stats.errorCount + 1);
          return Failure(FallbackFailed);
        }
        processed := step.fallback;
        fallbackUsed := true;
        stats := stats.(fallbackCount := stats.fallbackCount + 1);
      }
      if !step.postprocessOk {
        stats := stats.(errorCount := stats.errorCount + 1);
        return Failure(PostprocessFailed);
      }
      stats := stats.(totalProcessed := stats.totalProcessed + 1, totalTime := stats.totalTime + elapsed);
      return Success((processed.value, Info(fallbackUsed, validated.value)));
    }

    /** The body of the batch loop for the item at `index`. */
    method ProcessItem(available: bool, settings: Settings, item: BatchItem, index: nat) returns (entry: BatchEntry)
      modifies this
      ensures model == old(model) && modelLoaded == old(modelLoaded)
      ensures (stats, entry) == Item(old(stats), available, settings, item, index)
    {
      if !item.step.preprocessOk {
        stats := stats.(errorCount := stats.errorCount + 1);
        return Errored(item.image, index);
      }
      var processed: Option<nat> := None;
      if available && item.step.impl.Produced? {
        processed := Some(item.step.impl.image);
      }
      var fallbackUsed := false;
      if processed.None? {
        if item.step.fallback.None? {
          stats := stats.(errorCount := stats.errorCount + 1);
          return Errored(item.image, index);
        }
        processed := item.step.fallback;
        fallbackUsed := true;
        stats := stats.(fallbackCount := stats.fallbackCount + 1);
      }
      if !item.step.postprocessOk {
        stats := stats.(errorCount := stats.errorCount + 1);
        return Errored(item.image, index);
      }
      return Done(processed.value, fallbackUsed, index, settings);
    }

    method ProcessBatch(params: seq<(string, Value)>, load: LoadEnv, items: seq<BatchItem>, elapsed: real)
      returns (r: Result<seq<BatchEntry>, string>)
      modifies this
      ensures (State(), r) == Batch(modelPath, schema, defaults, old(State()), params, load, items, elapsed)
    {
      var validated := ValidateParameters(params);
      if validated.Failure? {
        return Failure(validated.error);
      }
      var settings := validated.value;
      var available := LoadModel(load);
      ghost var st1 := State();
      var results: seq<BatchEntry> := [];
      var i := 0;
      while i < |items|
        invariant 0 <= i <= |items|
        invariant model == st1.model && modelLoaded == st1.loaded
        invariant (stats, results) == Items(st1.stats, available, settings, items[..i])
      {
        assert items[..i + 1][..i] == items[..i];
        var entry := ProcessItem(available, settings, items[i], i);
        results := results + [entry];
        i := i + 1;
      }
      assert items[..|items|] == items;
      stats := stats.(batchCount := stats.batchCount + 1, totalProcessed := stats.totalProcessed + |items|,
                      totalTime := stats.totalTime + elapsed);
      return Success(results);
    }

    method CleanupMemory()
      modifies this
      ensures State() == Cleanup(cacheModels, old(State()))
    {
      if model.Some? && !cacheModels {
        model := None;
        modelLoaded := false;
      }
    }

    /** `get_stats`: the average is 0 until something has been processed. */
    function GetStats(): (s: ProcessorStats)
      reads this
      ensures s.counters == stats && s.processorId == processorId && s.modelLoaded == modelLoaded
      ensures stats.totalProcessed == 0 ==> s.avgProcessingTime == 0.0
      ensures stats.totalProcessed > 0 ==> s.avgProcessingTime * stats.totalProcessed as real == stats.totalTime
    {
      var avg := if stats.totalProcessed > 0 then stats.totalTime / stats.totalProcessed as real else 0.0;
      ProcessorStats(stats, processorId, modelLoaded, device, avg)
    }
  }

  /** A registered class: whether it derives from `BasePreprocessor`, and its parameters. */
  datatype ProcessorClass = ProcessorClass(name: string, isPreprocessor: bool, schema: Schema, defaults: Settings,
                                           pinsModelPath: bool)

  /**
   * Calling a class's constructor with the processor id and the keyword
   * arguments.  `modelPathArg` is `None` when no `model_path` keyword is
   * passed.  A class that pins its model path (the built-in variants, whose
   * constructors take no `model_path` and pass `None` on positionally)
   * raises a `TypeError` for a second value of that argument; the result is
   * then `None`, otherwise the model path the instance ends up with.
   */
  function Construct(c: ProcessorClass, modelPathArg: Option<Option<string>>): (r: Option<Option<string>>)
    ensures r.None? <==> c.pinsModelPath && modelPathArg.Some?
    ensures r.Some? && c.pinsModelPath ==> r.value.None?
    ensures r.Some? && !c.pinsModelPath ==> r.value == modelPathArg.UnwrapOr(None)
  {
    if c.pinsModelPath then (if modelPathArg.Some? then None else Some(None))
    else Some(modelPathArg.UnwrapOr(None))
  }

  class ProcessorRegistry {
    var processors: map<string, BasePreprocessor>
    var classes: map<string, ProcessorClass>

    /** Every instance was created for its own id, so no two ids share one. */
    predicate Valid()
      reads this
    {
      forall a, b :: a in processors && b in processors && a != b ==> processors[a] != processors[b]
    }

    constructor ()
      ensures processors == map[] && classes == map[] && Valid()
    {
      processors := map[];
      classes := map[];
    }

    /** `register_processor_class`: only preprocessor classes are accepted. */
    method RegisterProcessorClass(id: string, c: ProcessorClass) returns (r: Result<(), string>)
      modifies this
      ensures !c.isPreprocessor ==> r.Failure? && classes == old(classes)
      ensures c.isPreprocessor ==> r.Success? && classes == old(classes)[id := c]
      ensures processors == old(processors)
    {
      if !c.isPreprocessor {
        return Failure("Processor class must inherit from BasePreprocessor");
      }
      classes := classes[id := c];
      return Success(());
    }

    /**
     * `get_processor`: the instance made on the first request is returned
     * on every later one; an id with no registered class is an error.
     */
    method GetProcessor(id: string, modelPathArg: Option<Option<string>>, cacheModels: bool, device: Option<string>,
                        cudaAvailable: bool)
      returns (r: Result<BasePreprocessor, string>)
      requires Valid()
      modifies this
      ensures Valid() && classes == old(classes)
      ensures id in old(processors) ==> r == Success(old(processors)[id]) && processors == old(processors)
      ensures id !in old(processors) && (id !in classes || Construct(classes[id], modelPathArg).None?) ==>
        r.Failure? && processors == old(processors)
      ensures id !in old(processors) && id in classes && Construct(classes[id], modelPathArg).Some? ==>
        r.Success? && fresh(r.value) && processors == old(processors)[id := r.value] &&
        r.value.processorId == id && r.value.modelPath == Construct(classes[id], modelPathArg).value &&
        r.value.cacheModels == cacheModels &&
        r.value.schema == classes[id].schema && r.value.defaults == classes[id].defaults &&
        r.value.State() == ProcState(None, false, Zero)
    {
      if id in processors {
        return Success(processors[id]);
      }
      if id !in classes {
        return Failure("Unknown processor: " + id);
      }
      var c := classes[id];
      var modelPath := Construct(c, modelPathArg);
      if modelPath.None? {
        return Failure("got multiple values for argument 'model_path'");
      }
      var p := new BasePreprocessor(id, modelPath.value, cacheModels, device, cudaAvailable, c.schema, c.defaults);
      processors := processors[id := p];
      return Success(p);
    }

    /** `cleanup_all`: every instance runs its own `cleanup_memory`. */
    method CleanupAll()
      requires Valid()
      modifies set id | id in processors :: processors[id]
      ensures forall id :: id in processors ==>
        processors[id].State() == Cleanup(processors[id].cacheModels, old(processors[id].State()))
    {
      var pending := processors.Keys;
      while pending != {}
        invariant pending <= processors.Keys
        invariant forall id :: id in processors && id !in pending ==>
          processors[id].State() == Cleanup(processors[id].cacheModels, old(processors[id].State()))
        invariant forall id :: id in pending ==> processors[id].State() == old(processors[id].State())
        decreases pending
      {
        var id :| id in pending;
        processors[id].CleanupMemory();
        pending := pending - {id};
      }
    }
  }
}
