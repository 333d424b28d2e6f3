// `DepthPreprocessor` and its subclasses: the model family chosen from the
// processor id, the network input size, the parameter defaults and schema,
// the RGB shape check of pre-processing, and the guard that refuses to run
// the main path without a model.  The depth arithmetic is not modelled.

module Depth {
  import opened Wrappers
  import opened Text
  import opened Params
  import Preprocessor

  datatype ModelType = Midas | Dpt | Builtin

  /** `_determine_model_type`: 'midas' before 'dpt' in the lower-cased id, built-in otherwise. */
  function DetermineModelType(processorId: string): (t: ModelType)
    ensures t == Midas <==> Contains(Lower(processorId), "midas")
    ensures t == Dpt <==> !Contains(Lower(processorId), "midas") && Contains(Lower(processorId), "dpt")
    ensures t == Builtin <==> !Contains(Lower(processorId), "midas") && !Contains(Lower(processorId), "dpt")
  {
    var id := Lower(processorId);
    if Contains(id, "midas") then Midas
    else if Contains(id, "dpt") then Dpt
    else Builtin
  }

  lemma ModelTypeIgnoresCase(processorId: string)
    ensures DetermineModelType(Lower(processorId)) == DetermineModelType(processorId)
  {
    LowerIdempotent(processorId);
  }

  /** The default ids of the four subclasses. */
  lemma MidasIdIsMidas(id: string)
    requires id == "midas_v21"
    ensures DetermineModelType(id) == Midas
  {
    assert Lower(id) == id;
    ContainedAt(id, "midas", 0);
  }

  lemma DptIdsAreDpt(id: string)
    requires id == "dpt_hybrid" || id == "dpt_beit_large_512"
    ensures DetermineModelType(id) == Dpt
  {
    assert Lower(id) == id;
    MissingCharNotContained(id, "midas", 'm');
    ContainedAt(id, "dpt", 0);
  }

  /** 'depth' has the letters of 'dpt' but not together. */
  lemma BuiltinIdIsBuiltin(id: string)
    requires id == "depth_builtin"
    ensures DetermineModelType(id) == Builtin
  {
    assert Lower(id) == id;
    BuiltinIdNamesNoNetwork(id);
  }

  lemma BuiltinIdNamesNoNetwork(id: string)
    requires id == "depth_builtin"
    ensures !Contains(id, "midas") && !Contains(id, "dpt")
  {
    MissingCharNotContained(id, "midas", 'm');
    assert !StartsWith(id, "dpt") by {
      assert id[1] != 'p';
    }
    MissingCharNotContained(id[1..], "dpt", 'd');
  }

  /** `_get_input_size`: both networks take 384×384, the built-in algorithm any size. */
  function InputSize(t: ModelType): (size: Option<(nat, nat)>)
    ensures size.None? <==> t == Builtin
    ensures size.Some? ==> size.value == (384, 384)
  {
    match t
    case Midas => Some((384, 384))
    case Dpt => Some((384, 384))
    case Builtin => None
  }

  const NumberDefaults: Settings := map[
    "brightness" := VFloat(0.0, "0.0"), "contrast" := VFloat(1.0, "1.0"), "smoothing" := VFloat(0.0, "0.0"),
    "depth_strength" := VFloat(1.0, "1.0"), "near_plane" := VFloat(0.1, "0.1"), "far_plane" := VFloat(100.0, "100.0")]
  const FlagDefaults: Settings := map["invert_depth" := VBool(false), "normalize_depth" := VBool(true)]

  /** `get_default_parameters`: six numbers and two flags. */
  const DepthDefaults: Settings := NumberDefaults + FlagDefaults

  const NumberSchema: Schema := map[
    "brightness" := Ranged(FloatParam, -1.0, 1.0), "contrast" := Ranged(FloatParam, 0.1, 3.0),
    "smoothing" := Ranged(FloatParam, 0.0, 10.0), "depth_strength" := Ranged(FloatParam, 0.1, 3.0),
    "near_plane" := Ranged(FloatParam, 0.01, 10.0), "far_plane" := Ranged(FloatParam, 1.0, 1000.0)]
  const FlagSchema: Schema := map[
    "invert_depth" := ParamSpec(Some(BoolParam), None, None), "normalize_depth" := ParamSpec(Some(BoolParam), None, None)]

  /** `get_parameter_schema`. */
  const DepthSchema: Schema := NumberSchema + FlagSchema

  /** The defaults and the schema name the same eight keys, and each default passes its entry. */
  lemma DefaultsMatchSchema()
    ensures DepthDefaults.Keys == DepthSchema.Keys
    ensures ValidDefaults(DepthSchema, DepthDefaults)
  {
    PartKeys();
    NumbersAreValid();
    FlagsAreValid();
    ValidUnion(NumberSchema, NumberDefaults, FlagSchema, FlagDefaults);
  }

  lemma PartKeys()
    ensures NumberDefaults.Keys == NumberSchema.Keys && FlagDefaults.Keys == FlagSchema.Keys
    ensures NumberDefaults.Keys !! FlagSchema.Keys
  {
  }

  lemma FlagsAreValid()
    ensures ValidDefaults(FlagSchema, FlagDefaults)
  {
  }

  lemma NumbersAreValid()
    ensures ValidDefaults(NumberSchema, NumberDefaults)
  {
  }

  /**
   * `preprocess_image`: after the shared step the image must be H×W×3.
   * Grey and RGBA inputs therefore pass, a single-channel H×W×1 or any
   * other shape is refused.
   */
  function PreprocessAccepts(shape: seq<nat>): (ok: bool)
    ensures ok <==> |shape| == 2 || (|shape| == 3 && (shape[2] == 3 || shape[2] == 4))
  {
    var s := Preprocessor.PreprocessShape(shape);
    |s| == 3 && s[2] == 3
  }

  /**
   * `_load_model_impl`: the networks load through the MiDaS loader, whose
   * failure becomes `ModelLoadError`; the built-in type needs no model.
   */
  function DepthLoader(t: ModelType, loaderOk: bool, network: nat): (r: Preprocessor.LoaderResult)
    ensures t == Builtin ==> r == Preprocessor.Returns(None)
    ensures t != Builtin ==> (r.Returns? <==> loaderOk) && (r.Returns? ==> r.model == Some(network))
  {
    if t == Builtin then Preprocessor.Returns(None)
    else if loaderOk then Preprocessor.Returns(Some(network))
    else Preprocessor.LoaderRaises
  }

  /** `_process_impl`: no model, no main path; otherwise the depth map, unless inference raises. */
  function DepthImpl(model: Option<nat>, inferenceOk: bool, depth: nat): (r: Preprocessor.ImplOutcome)
    ensures model.None? ==> r == Preprocessor.ImplRaises
    ensures r.Produced? <==> model.Some? && inferenceOk
  {
    if model.None? then Preprocessor.ImplRaises
    else if inferenceOk then Preprocessor.Produced(depth)
    else Preprocessor.ImplRaises
  }

  /** The model path each subclass passes up: the built-in one passes none. */
  function SubclassModelPath(builtin: bool, given: Option<string>): Option<string>
  {
    if builtin then None else given
  }

  /** `BuiltinDepthPreprocessor` has no model path, so every success comes from the fallback. */
  lemma BuiltinDepthAlwaysFallsBack(t: ModelType, given: Option<string>, st: Preprocessor.ProcState, params: seq<(string, Value)>,
                                    files: set<string>, loaderOk: bool, network: nat, step: Preprocessor.StepEnv, elapsed: real)
    requires !(st.loaded && st.model.Some?)
    ensures var (_, r) := Preprocessor.Single(SubclassModelPath(true, given), DepthSchema, DepthDefaults, st, params,
                                              Preprocessor.LoadEnv(files, DepthLoader(t, loaderOk, network)), step, elapsed);
      r.Success? ==> r.value.1.fallbackUsed
  {
  }

  /**
   * A built-in-type processor given an existing model path "loads" no
   * model; the guard in `_process_impl` then raises, which counts an error
   * before the fallback produces the image.
   */
  lemma ModelGuardCountsError(path: string, st: Preprocessor.ProcState, files: set<string>, network: nat,
                              inferenceOk: bool, depth: nat, fallback: nat, elapsed: real)
    requires path != "" && path in files && !st.loaded && st.model.None?
    ensures var step := Preprocessor.StepEnv(true, DepthImpl(None, inferenceOk, depth), Some(fallback), true);
      var (st2, r) := Preprocessor.Single(Some(path), DepthSchema, DepthDefaults, st, [],
                                          Preprocessor.LoadEnv(files, DepthLoader(Builtin, true, network)), step, elapsed);
      r.Success? && r.value.0 == fallback && r.value.1.fallbackUsed
      && st2.stats.errorCount == st.stats.errorCount + 1 && st2.loaded && st2.model.None?
  {
  }
}
