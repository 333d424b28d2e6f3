// `EdgePreprocessor` and its four subclasses: the algorithm chosen from the
// processor id, the parameter defaults and schema per algorithm, the kernel
// normalisations, and the invert step of post-processing.  The OpenCV
// filters themselves are not modelled.

module Edge {
  import opened Wrappers
  import opened Text
  import opened Params
  import Numeric
  import Preprocessor
  import Drawing

  datatype EdgeType = Canny | Hed | Sobel | Laplacian

  /**
   * `_determine_edge_type`: the first of canny, hed, sobel, laplacian named
   * in the lower-cased id, canny when none is.
   */
  function DetermineEdgeType(processorId: string): (t: EdgeType)
    ensures var id := Lower(processorId);
      t == Canny <==>
        Contains(id, "canny") || (!Contains(id, "hed") && !Contains(id, "sobel") && !Contains(id, "laplacian"))
    ensures var id := Lower(processorId);
      t == Hed <==> !Contains(id, "canny") && Contains(id, "hed")
    ensures var id := Lower(processorId);
      t == Sobel <==> !Contains(id, "canny") && !Contains(id, "hed") && Contains(id, "sobel")
    ensures var id := Lower(processorId);
      t == Laplacian <==>
        !Contains(id, "canny") && !Contains(id, "hed") && !Contains(id, "sobel") && Contains(id, "laplacian")
  {
    var id := Lower(processorId);
    if Contains(id, "canny") then Canny
    else if Contains(id, "hed") then Hed
    else if Contains(id, "sobel") then Sobel
    else if Contains(id, "laplacian") then Laplacian
    else Canny
  }

  /** Each subclass's default id selects that subclass's algorithm. */
  lemma CannyIdIsCanny(id: string)
    requires id == "canny_builtin"
    ensures DetermineEdgeType(id) == Canny
  {
    assert Lower(id) == id;
    ContainedAt(id, "canny", 0);
  }

  lemma HedIdIsHed(id: string)
    requires id == "hed"
    ensures DetermineEdgeType(id) == Hed
  {
    assert Lower(id) == id;
    ContainedAt(id, "hed", 0);
  }

  lemma SobelIdIsSobel(id: string)
    requires id == "sobel_builtin"
    ensures DetermineEdgeType(id) == Sobel
  {
    LowerNoCapitals(id);
    MissingCharNotContained(id, "canny", 'c');
    MissingCharNotContained(id, "hed", 'h');
    ContainedAt(id, "sobel", 0);
  }

  lemma LaplacianIdIsLaplacian(id: string)
    requires id == "laplacian_builtin"
    ensures DetermineEdgeType(id) == Laplacian
  {
    assert Lower(id) == id;
    LaplacianIdNamesOnlyLaplacian(id);
  }

  lemma LaplacianIdNamesOnlyLaplacian(id: string)
    requires id == "laplacian_builtin"
    ensures !Contains(id, "canny") && !Contains(id, "hed") && !Contains(id, "sobel") && Contains(id, "laplacian")
  {
    MissingCharNotContained(id, "canny", 'y');
    MissingCharNotContained(id, "hed", 'h');
    MissingCharNotContained(id, "sobel", 's');
    ContainedAt(id, "laplacian", 0);
  }

  /** The case of the id does not matter. */
  lemma EdgeTypeIgnoresCase(processorId: string)
    ensures DetermineEdgeType(Lower(processorId)) == DetermineEdgeType(processorId)
  {
    LowerIdempotent(processorId);
  }

  const BaseKeys: set<string> := {"threshold", "edge_width", "blur_radius", "invert", "brightness", "contrast"}

  const BaseDefaults: Settings := map[
    "threshold" := VFloat(0.5, "0.5"), "edge_width" := VInt(1), "blur_radius" := VFloat(0.0, "0.0"),
    "invert" := VBool(false), "brightness" := VFloat(0.0, "0.0"), "contrast" := VFloat(1.0, "1.0")]

  const BaseSchema: Schema := map[
    "threshold" := Ranged(FloatParam, 0.0, 1.0), "edge_width" := Ranged(IntParam, 1.0, 5.0),
    "blur_radius" := Ranged(FloatParam, 0.0, 5.0), "invert" := ParamSpec(Some(BoolParam), None, None),
    "brightness" := Ranged(FloatParam, -0.5, 0.5), "contrast" := Ranged(FloatParam, 0.5, 2.0)]

  /** The keys an algorithm adds to the six shared ones. */
  function SpecificKeys(t: EdgeType): set<string>
  {
    match t
    case Canny => {"low_threshold", "high_threshold", "aperture_size"}
    case Sobel => {"sobel_ksize", "sobel_scale", "sobel_delta"}
    case Laplacian => {"laplacian_ksize", "laplacian_scale", "laplacian_delta"}
    case Hed => {}
  }

  /** The defaults an algorithm adds to the shared ones. */
  function SpecificDefaults(t: EdgeType): Settings
  {
    match t
    case Canny => map["low_threshold" := VInt(100), "high_threshold" := VInt(200), "aperture_size" := VInt(3)]
    case Sobel => map["sobel_ksize" := VInt(3), "sobel_scale" := VFloat(1.0, "1.0"), "sobel_delta" := VFloat(0.0, "0.0")]
    case Laplacian => map["laplacian_ksize" := VInt(3), "laplacian_scale" := VFloat(1.0, "1.0"), "laplacian_delta" := VFloat(0.0, "0.0")]
    case Hed => map[]
  }

  /** The schema entries an algorithm adds to the shared ones. */
  function SpecificSchema(t: EdgeType): Schema
  {
    match t
    case Canny => map["low_threshold" := Ranged(IntParam, 0.0, 255.0), "high_threshold" := Ranged(IntParam, 0.0, 255.0),
                      "aperture_size" := Ranged(IntParam, 3.0, 7.0)]
    case Sobel => map["sobel_ksize" := Ranged(IntParam, 1.0, 7.0), "sobel_scale" := Ranged(FloatParam, 0.1, 2.0),
                      "sobel_delta" := Ranged(FloatParam, 0.0, 100.0)]
    case Laplacian => map["laplacian_ksize" := Ranged(IntParam, 1.0, 7.0), "laplacian_scale" := Ranged(FloatParam, 0.1, 2.0),
                          "laplacian_delta" := Ranged(FloatParam, 0.0, 100.0)]
    case Hed => map[]
  }

  /** `get_default_parameters`: the shared defaults updated with the algorithm's own. */
  function Defaults(t: EdgeType): Settings
  {
    BaseDefaults + SpecificDefaults(t)
  }

  /** `get_parameter_schema`: the shared schema updated with the algorithm's own. */
  function EdgeSchema(t: EdgeType): Schema
  {
    BaseSchema + SpecificSchema(t)
  }

  /**
   * The six shared keys are always there; canny, sobel and laplacian each
   * add exactly three more, hed none; the schema covers the same keys.
   */
  lemma DefaultKeys(t: EdgeType)
    ensures Defaults(t).Keys == BaseKeys + SpecificKeys(t) == EdgeSchema(t).Keys
  {
  }

  lemma BaseDefaultsAreValid()
    ensures ValidDefaults(BaseSchema, BaseDefaults)
  {
  }

  /** Every default passes its own schema entry unchanged. */
  lemma DefaultsAreValid(t: EdgeType)
    ensures ValidDefaults(EdgeSchema(t), Defaults(t))
  {
    BaseDefaultsAreValid();
    SpecificDefaultsAreValid(t);
    SpecificKeysAreNew(t);
    ValidUnion(BaseSchema, BaseDefaults, SpecificSchema(t), SpecificDefaults(t));
  }

  lemma SpecificDefaultsAreValid(t: EdgeType)
    ensures ValidDefaults(SpecificSchema(t), SpecificDefaults(t))
  {
  }

  lemma SpecificKeysAreNew(t: EdgeType)
    ensures BaseDefaults.Keys !! SpecificSchema(t).Keys
  {
  }

  /** `_process_impl`: hed has no network yet and runs Canny. */
  function MainAlgorithm(t: EdgeType): (a: EdgeType)
    ensures a != Hed
    ensures t != Hed ==> a == t
  {
    if t == Hed then Canny else t
  }

  /** `_fallback_process` always runs Canny. */
  const FallbackAlgorithm: EdgeType := Canny

  /** For hed the main path and the fallback run the same algorithm. */
  lemma HedDelegatesToCanny()
    ensures MainAlgorithm(Hed) == FallbackAlgorithm
  {
  }

  /** `_load_model_impl`: every algorithm returns `None`. */
  const EdgeLoader: Preprocessor.LoaderResult := Preprocessor.Returns(None)

  /** The model path each subclass passes up: only hed forwards one. */
  function SubclassModelPath(t: EdgeType, given: Option<string>): Option<string>
  {
    if t == Hed then given else None
  }

  /**
   * The built-in subclasses never hold a model: `load_model` always says
   * no, so every successful `process_single` is a fallback.
   */
  lemma BuiltinEdgeAlwaysFallsBack(t: EdgeType, given: Option<string>, st: Preprocessor.ProcState,
                                   params: seq<(string, Value)>, files: set<string>, step: Preprocessor.StepEnv, elapsed: real)
    requires t != Hed && !(st.loaded && st.model.Some?)
    ensures var (_, r) := Preprocessor.Single(SubclassModelPath(t, given), EdgeSchema(t), Defaults(t), st, params,
                                              Preprocessor.LoadEnv(files, EdgeLoader), step, elapsed);
      r.Success? ==> r.value.1.fallbackUsed
  {
  }

  /** The edge loader never yields a model, whatever the path. */
  lemma EdgeLoaderHoldsNoModel(modelPath: Option<string>, st: Preprocessor.ProcState, files: set<string>)
    requires st.model.None?
    ensures Preprocessor.Load(modelPath, st, Preprocessor.LoadEnv(files, EdgeLoader)).0.model.None?
  {
  }

  /** Canny's aperture: an even size is bumped to odd, then clamped to 3..7. */
  function CannyAperture(size: int): (a: int)
    ensures Numeric.Odd(a) && 3 <= a <= 7
    ensures Numeric.Odd(size) && 3 <= size <= 7 ==> a == size
  {
    var odd := if size % 2 == 0 then size + 1 else size;
    Numeric.ClampInt(3, 7, odd)
  }

  /** Sobel's kernel: an even size is bumped to odd, then clamped to 1..7. */
  function SobelKsize(size: int): (k: int)
    ensures Numeric.Odd(k) && 1 <= k <= 7
    ensures Numeric.Odd(size) && 1 <= size <= 7 ==> k == size
  {
    var odd := if size % 2 == 0 then size + 1 else size;
    Numeric.ClampInt(1, 7, odd)
  }

  /**
   * The pre-processing blur: none unless the radius is positive, otherwise
   * an odd kernel just wider than the blur's diameter.
   */
  function BlurKernel(radius: real): (k: Option<int>)
    ensures radius <= 0.0 ==> k.None?
    ensures radius > 0.0 ==> k.Some? && Numeric.Odd(k.value) && k.value >= 1 && k.value as real > 2.0 * radius
    ensures radius > 0.0 ==> k.value as real <= 2.0 * radius + 2.0
    ensures 0.0 < radius <= 5.0 ==> k.value <= 11
  {
    if radius > 0.0 then
      var size := if Numeric.Trunc(radius * 2.0) + 1 < 1 then 1 else Numeric.Trunc(radius * 2.0) + 1;
      Some(if size % 2 == 0 then size + 1 else size)
    else None
  }

  predicate Bytes(px: seq<int>)
  {
    forall i :: 0 <= i < |px| ==> 0 <= px[i] <= 255
  }

  /** `255 - image` on a grey edge map. */
  function Invert(px: seq<int>): (r: seq<int>)
    ensures |r| == |px|
    ensures Bytes(px) ==> Bytes(r)
  {
    seq(|px|, i requires 0 <= i < |px| => 255 - px[i])
  }

  /** Inverting twice gives the edge map back. */
  lemma InvertTwice(px: seq<int>)
    ensures Invert(Invert(px)) == px
  {
  }

  /**
   * `postprocess_image` after the brightness and contrast step: the
   * optional inversion, then grey copied into all three channels.
   */
  function Postprocess(grey: seq<int>, invert: bool): (out: seq<Drawing.Rgb>)
    ensures |out| == |grey|
    ensures forall i :: 0 <= i < |grey| ==> out[i].r == out[i].g == out[i].b
    ensures forall i :: 0 <= i < |grey| ==> out[i].r == (if invert then 255 - grey[i] else grey[i])
  {
    var g := if invert then Invert(grey) else grey;
    seq(|g|, i requires 0 <= i < |g| => Drawing.Rgb(g[i], g[i], g[i]))
  }
}
