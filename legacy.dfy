// The stand-alone preprocessing servers: the `PreprocessorManager` that
// registers a fixed catalogue of preprocessors (the Flask server and the
// legacy explorer carry the same catalogue; they differ in the display name
// of the built-in entry and in the explorer passing the Canny thresholds
// through `int()`), its dispatch, the legacy `DepthProcessor`, and the
// request handling in front of both.  Files on disk are given as the set of
// existing paths; decoding and image arithmetic are given by their shape.
module Legacy {
  import opened Wrappers
  import opened Text
  import opened Params
  import Numeric

  /** The `type` of a catalogue entry. */
  datatype ModelType = BuiltinType | OpenCvType | ModelFileType

  /** A catalogue entry; `path` is set when the entry's file was found. */
  datatype ModelConfig = ModelConfig(name: string, kind: ModelType, file: Option<string>, path: Option<string>)

  /** The ids of a registry, in insertion order. */
  function Ids(rows: seq<(string, ModelConfig)>): (r: seq<string>)
    ensures |r| == |rows| && forall i | 0 <= i < |rows| :: r[i] == rows[i].0
  {
    seq(|rows|, i requires 0 <= i < |rows| => rows[i].0)
  }

  /** A dictionary holds each key once. */
  predicate DistinctIds(rows: seq<(string, ModelConfig)>)
  {
    forall i, j | 0 <= i < j < |rows| :: rows[i].0 != rows[j].0
  }

  /** An entry of type `model` names the file it is loaded from. */
  predicate WellFormed(c: ModelConfig)
  {
    c.kind == ModelFileType ==> c.file.Some?
  }

  /** The catalogue `load_models` walks, in its order. */
  function ModelConfigs(builtinName: string): (r: seq<(string, ModelConfig)>)
    ensures |r| == 8
    ensures r[0].0 == "builtin" && r[0].1.kind == BuiltinType
    ensures r[1].0 == "opencv_canny" && r[1].1.kind == OpenCvType
    ensures forall i | 2 <= i < |r| :: r[i].1.kind == ModelFileType && r[i].1.file.Some?
    ensures forall i | 0 <= i < |r| :: r[i].1.path.None? && WellFormed(r[i].1)
  {
    [ ("builtin", ModelConfig(builtinName, BuiltinType, None, None)),
      ("opencv_canny", ModelConfig("OpenCV Canny", OpenCvType, None, None)),
      ("network-bsds500", ModelConfig("HED Edge Detection", ModelFileType, Some("network-bsds500.pth"), None)),
      ("table5_pidinet", ModelConfig("PiDiNet Edge Detection", ModelFileType, Some("table5_pidinet.pth"), None)),
      ("ControlNetHED", ModelConfig("ControlNet HED", ModelFileType, Some("ControlNetHED.pth"), None)),
      ("dpt_hybrid-midas", ModelConfig("MiDaS Depth", ModelFileType, Some("dpt_hybrid-midas-501f0c75.pt"), None)),
      ("midas_v21_384", ModelConfig("MiDaS v2.1", ModelFileType, Some("midas_v21_384.pt"), None)),
      ("ZoeD_M12_N", ModelConfig("ZoeDepth", ModelFileType, Some("ZoeD_M12_N.pt"), None)) ]
  }

  /** The catalogue ids are distinct. */
  lemma ModelConfigIdsDistinct(builtinName: string)
    ensures DistinctIds(ModelConfigs(builtinName))
  {
  }

  /** `os.path.join(MODELS_DIR, file)` and `PREPROCESSORS_PATH / file`. */
  function JoinPath(dir: string, file: string): string
  {
    dir + "/" + file
  }

  /** Whether `load_models` registers an entry: always for built-in and OpenCV, otherwise when its file exists. */
  predicate Registered(c: ModelConfig, dir: string, existing: set<string>)
    requires WellFormed(c)
  {
    c.kind != ModelFileType || JoinPath(dir, c.file.value) in existing
  }

  /** The entry as stored: a file-backed entry gains the path it was found at. */
  function Stored(c: ModelConfig, dir: string): (r: ModelConfig)
    requires WellFormed(c)
    ensures r.name == c.name && r.kind == c.kind && r.file == c.file
  {
    if c.kind == ModelFileType then c.(path := Some(JoinPath(dir, c.file.value))) else c
  }

  /** The registry `load_models` builds from an empty one, in catalogue order. */
  function Loaded(configs: seq<(string, ModelConfig)>, dir: string, existing: set<string>): (r: seq<(string, ModelConfig)>)
    requires forall i | 0 <= i < |configs| :: WellFormed(configs[i].1)
    ensures |r| <= |configs|
    decreases |configs|
  {
    if configs == [] then []
    else
      var init := configs[..|configs| - 1];
      var last := configs[|configs| - 1];
      var rows := Loaded(init, dir, existing);
      if Registered(last.1, dir, existing) then rows + [(last.0, Stored(last.1, dir))] else rows
  }

  /** Every registered id comes from the catalogue. */
  lemma {:induction false} LoadedFromConfigs(configs: seq<(string, ModelConfig)>, dir: string, existing: set<string>)
    requires forall i | 0 <= i < |configs| :: WellFormed(configs[i].1)
    ensures forall e | e in Loaded(configs, dir, existing) :: exists i | 0 <= i < |configs| :: configs[i].0 == e.0
    decreases |configs|
  {
    if configs != [] {
      var init := configs[..|configs| - 1];
      LoadedFromConfigs(init, dir, existing);
      assert forall i | 0 <= i < |init| :: init[i] == configs[i];
    }
  }

  /** Loading a catalogue with distinct ids yields a registry with distinct ids. */
  lemma {:induction false} LoadedDistinct(configs: seq<(string, ModelConfig)>, dir: string, existing: set<string>)
    requires forall i | 0 <= i < |configs| :: WellFormed(configs[i].1)
    requires DistinctIds(configs)
    ensures DistinctIds(Loaded(configs, dir, existing))
    decreases |configs|
  {
    if configs != [] {
      var init := configs[..|configs| - 1];
      var last := configs[|configs| - 1];
      LoadedDistinct(init, dir, existing);
      LoadedFromConfigs(init, dir, existing);
      assert forall i | 0 <= i < |init| :: init[i] == configs[i];
      assert last.0 !in Ids(Loaded(init, dir, existing));
    }
  }

  /** A catalogue id is registered exactly when `Registered` holds for its entry. */
  lemma {:induction false} LoadedIff(configs: seq<(string, ModelConfig)>, dir: string, existing: set<string>)
    requires forall i | 0 <= i < |configs| :: WellFormed(configs[i].1)
    requires DistinctIds(configs)
    ensures forall i | 0 <= i < |configs| ::
      (configs[i].0 in Ids(Loaded(configs, dir, existing)) <==> Registered(configs[i].1, dir, existing))
    decreases |configs|
  {
    if configs != [] {
      var n := |configs| - 1;
      var init := configs[..n];
      var last := configs[n];
      LoadedIff(init, dir, existing);
      LoadedFromConfigs(init, dir, existing);
      var rows := Loaded(init, dir, existing);
      var ids := Ids(Loaded(configs, dir, existing));
      assert last.0 !in Ids(rows);
      assert ids == if Registered(last.1, dir, existing) then Ids(rows) + [last.0] else Ids(rows);
      forall i | 0 <= i < |configs|
        ensures configs[i].0 in ids <==> Registered(configs[i].1, dir, existing)
      {
        if i < n {
          assert init[i] == configs[i];
          assert configs[i].0 != last.0;
        }
      }
    }
  }

  /** A registered catalogue entry is stored with its found path. */
  lemma {:induction false} LoadedStored(configs: seq<(string, ModelConfig)>, dir: string, existing: set<string>)
    requires forall i | 0 <= i < |configs| :: WellFormed(configs[i].1)
    ensures forall i | 0 <= i < |configs| && Registered(configs[i].1, dir, existing) ::
      (configs[i].0, Stored(configs[i].1, dir)) in Loaded(configs, dir, existing)
    decreases |configs|
  {
    if configs != [] {
      var n := |configs| - 1;
      var init := configs[..n];
      LoadedStored(init, dir, existing);
      assert forall i | 0 <= i < n :: init[i] == configs[i];
    }
  }

  /**
   * An entry is registered exactly when it is built-in or OpenCV or its
   * file exists, with the found path recorded, and nothing else is.
   */
  lemma LoadedEntries(configs: seq<(string, ModelConfig)>, dir: string, existing: set<string>)
    requires forall i | 0 <= i < |configs| :: WellFormed(configs[i].1)
    requires DistinctIds(configs)
    ensures DistinctIds(Loaded(configs, dir, existing))
    ensures forall i | 0 <= i < |configs| ::
      (configs[i].0 in Ids(Loaded(configs, dir, existing)) <==> Registered(configs[i].1, dir, existing))
    ensures forall i | 0 <= i < |configs| && Registered(configs[i].1, dir, existing) ::
      (configs[i].0, Stored(configs[i].1, dir)) in Loaded(configs, dir, existing)
    ensures forall e | e in Loaded(configs, dir, existing) :: exists i | 0 <= i < |configs| :: configs[i].0 == e.0
  {
    LoadedFromConfigs(configs, dir, existing);
    LoadedDistinct(configs, dir, existing);
    LoadedIff(configs, dir, existing);
    LoadedStored(configs, dir, existing);
  }

  /** The number of entries whose file exists. */
  function FoundFiles(configs: seq<(string, ModelConfig)>, dir: string, existing: set<string>): (n: nat)
    requires forall i | 0 <= i < |configs| :: WellFormed(configs[i].1)
    ensures n <= |configs|
    decreases |configs|
  {
    if configs == [] then 0
    else
      var last := configs[|configs| - 1].1;
      assert WellFormed(last);
      FoundFiles(configs[..|configs| - 1], dir, existing) +
        (if last.kind == ModelFileType && JoinPath(dir, last.file.value) in existing then 1 else 0)
  }

  /** The number of built-in and OpenCV entries. */
  function Unconditional(configs: seq<(string, ModelConfig)>): (n: nat)
    ensures n <= |configs|
    decreases |configs|
  {
    if configs == [] then 0
    else Unconditional(configs[..|configs| - 1]) + (if configs[|configs| - 1].1.kind != ModelFileType then 1 else 0)
  }

  /** Registry size: every unconditional entry plus every entry whose file was found. */
  lemma {:induction false} LoadedCount(configs: seq<(string, ModelConfig)>, dir: string, existing: set<string>)
    requires forall i | 0 <= i < |configs| :: WellFormed(configs[i].1)
    ensures |Loaded(configs, dir, existing)| == Unconditional(configs) + FoundFiles(configs, dir, existing)
    decreases |configs|
  {
    if configs != [] {
      LoadedCount(configs[..|configs| - 1], dir, existing);
    }
  }

  /** `health_check`: the size of the registry and its ids. */
  datatype Health = Health(status: string, modelsLoaded: nat, availableModels: seq<string>)

  function HealthCheck(models: seq<(string, ModelConfig)>): (h: Health)
    ensures h.modelsLoaded == |h.availableModels| == |models|
    ensures forall i | 0 <= i < |models| :: h.availableModels[i] == models[i].0
  {
    Health("healthy", |models|, Ids(models))
  }

  /** After loading the fixed catalogue, the count is the two unconditional entries plus the files found. */
  lemma HealthAfterLoad(builtinName: string, dir: string, existing: set<string>)
    ensures var h := HealthCheck(Loaded(ModelConfigs(builtinName), dir, existing));
      h.modelsLoaded == 2 + FoundFiles(ModelConfigs(builtinName), dir, existing) && 2 <= h.modelsLoaded <= 8
  {
    var c := ModelConfigs(builtinName);
    LoadedCount(c, dir, existing);
    assert Unconditional(c) == 2 by {
      assert c[..1][..0] == [];
      assert c[..2][..1] == c[..1];
      var k := 2;
      while k < 8
        invariant 2 <= k <= 8 && Unconditional(c[..k]) == 2
      {
        assert c[..k + 1][..k] == c[..k];
        k := k + 1;
      }
      assert c[..8] == c;
    }
    assert FoundFiles(c, dir, existing) <= 6 by {
      var k := 2;
      assert c[..2][..1] == c[..1];
      assert c[..1][..0] == [];
      while k < 8
        invariant 2 <= k <= 8 && FoundFiles(c[..k], dir, existing) <= k - 2
      {
        assert c[..k + 1][..k] == c[..k];
        k := k + 1;
      }
      assert c[..8] == c;
    }
  }

  /** The preprocessor registry of a server. */
  class PreprocessorManager {
    var models: seq<(string, ModelConfig)>

    /** `__init__` and `load_models`: walk the catalogue, registering what can be served. */
    constructor (builtinName: string, dir: string, existing: set<string>)
      ensures models == Loaded(ModelConfigs(builtinName), dir, existing)
    {
      models := [];
      new;
      var configs := ModelConfigs(builtinName);
      for k := 0 to |configs|
        invariant models == Loaded(configs[..k], dir, existing)
      {
        assert configs[..k + 1][..k] == configs[..k];
        var (id, config) := configs[k];
        if config.kind == BuiltinType || config.kind == OpenCvType {
          models := models + [(id, config)];
        } else {
          var modelPath := JoinPath(dir, config.file.value);
          if modelPath in existing {
            models := models + [(id, config.(path := Some(modelPath)))];
          }
        }
      }
      assert configs[..|configs|] == configs;
    }
  }

  /** The exceptions the handlers tell apart. */
  datatype Exc = ValueErr(message: string) | HttpExc(status: nat, detail: string) | OtherErr(message: string)

  /** `str(e)`; an `HTTPException` prints its status before its detail. */
  function ExcText(e: Exc): string
  {
    match e
    case ValueErr(m) => m
    case HttpExc(s, d) => NatToString(s) + ": " + d
    case OtherErr(m) => m
  }

  /** What a decoded image looks like: its height, width and channel count (0 for a two-dimensional array). */
  datatype Shape = Shape(height: nat, width: nat, channels: nat)

  /** `cv2.cvtColor(image, COLOR_RGB2GRAY)` accepts three or four channels. */
  predicate ConvertsToGray(s: Shape)
  {
    s.channels == 3 || s.channels == 4
  }

  /** The number a `max`/`min` comparison with a float sees; `None` for a value it cannot compare with. */
  function AsNumber(v: Value): Option<real>
  {
    match v
    case VFloat(x, _) => Some(x)
    case VInt(i) => Some(i as real)
    case VBool(b) => Some(if b then 1.0 else 0.0)
    case VStr(_) => None
    case VNone => None
  }

  /** What the manager produced, before encoding. */
  datatype Produced = Canny(low: real, high: real) | Placeholder(name: string)

  /**
   * The two servers differ in one place: the Flask server hands the
   * thresholds to Canny as given, the legacy explorer passes each through
   * `int()` first.
   */
  datatype Server = FlaskServer | ExplorerServer

  /** `params.get(key, default)`, seen as a number. */
  function NumberOr(params: Settings, key: string, dflt: real): Option<real>
  {
    if key in params then AsNumber(params[key]) else Some(dflt)
  }

  /**
   * One Canny threshold, `params.get(key, default)` as the server hands it
   * to Canny: as a number on the Flask server, through `int()` on the
   * explorer, where a string `int()` refuses is a `ValueError` and `None`
   * a `TypeError`.
   */
  function Threshold(server: Server, params: Settings, key: string, dflt: int): (r: Result<real, Exc>)
    ensures key !in params ==> r == Success(dflt as real)
    ensures key in params && server == FlaskServer ==>
      (r.Success? <==> AsNumber(params[key]).Some?) && (r.Success? ==> r.value == AsNumber(params[key]).value)
    ensures key in params && server == ExplorerServer ==>
      (r.Success? <==> IntOf(params[key]).Some?) && (r.Success? ==> r.value == IntOf(params[key]).value as real)
    ensures key in params && server == ExplorerServer && r.Failure? ==>
      (r.error.ValueErr? <==> params[key].VStr?) && (r.error.OtherErr? <==> params[key].VNone?)
    ensures r.Failure? && server == FlaskServer ==> r.error.OtherErr?
  {
    if key !in params then Success(dflt as real)
    else
      var v := params[key];
      match server
      case FlaskServer =>
        (match AsNumber(v)
         case Some(x) => Success(x)
         case None => Failure(OtherErr("Canny: thresholds must be numbers")))
      case ExplorerServer =>
        (match IntOf(v)
         case Some(n) => Success(n as real)
         case None =>
           if v.VStr? then Failure(ValueErr("invalid literal for int() with base 10: '" + v.s + "'"))
           else Failure(OtherErr("int() argument must be a string, a bytes-like object or a real number, not 'NoneType'")))
  }

  /** `process_opencv_canny`: the image goes grey first, then the thresholds, defaulting to 100 and 200. */
  function ProcessOpenCvCanny(server: Server, shape: Shape, params: Settings): (r: Result<Produced, Exc>)
    ensures r.Success? <==>
      ConvertsToGray(shape) && Threshold(server, params, "lowThreshold", 100).Success? &&
      Threshold(server, params, "highThreshold", 200).Success?
    ensures r.Success? ==>
      r.value == Canny(Threshold(server, params, "lowThreshold", 100).value, Threshold(server, params, "highThreshold", 200).value)
    ensures r.Success? && "lowThreshold" !in params && "highThreshold" !in params ==> r.value == Canny(100.0, 200.0)
    ensures r.Failure? && server == FlaskServer ==> r.error.OtherErr?
    ensures r.Failure? && r.error.ValueErr? ==>
      server == ExplorerServer &&
      exists key | key in {"lowThreshold", "highThreshold"} :: key in params && params[key].VStr? && ParseInt(params[key].s).None?
  {
    if !ConvertsToGray(shape) then Failure(OtherErr("cvtColor: invalid number of channels"))
    else
      match (Threshold(server, params, "lowThreshold", 100), Threshold(server, params, "highThreshold", 200))
      case (Success(lo), Success(hi)) => Success(Canny(lo, hi))
      case (Failure(e), _) => Failure(e)
      case (_, Failure(e)) => Failure(e)
  }

  /**
   * `process_image`: an unregistered id is a `ValueError`; `opencv_canny`
   * runs Canny, an entry of type `model` the placeholder, and anything else
   * a `ValueError` naming its type.  `decoded` is the decoder's outcome.
   */
  function ProcessImage(server: Server, models: seq<(string, ModelConfig)>, id: string, decoded: Result<Shape, Exc>,
                        params: Option<Settings>): (r: Result<Produced, Exc>)
    ensures id !in Ids(models) ==> r == Failure(ValueErr("Unknown model: " + id))
    ensures id in Ids(models) && decoded.Failure? ==> r == Failure(decoded.error)
    ensures r.Success? && r.value.Placeholder? ==>
      exists i | 0 <= i < |models| :: models[i].0 == id && models[i].1.kind == ModelFileType && r.value.name == models[i].1.name
    ensures r.Success? && r.value.Canny? ==> id == "opencv_canny"
  {
    if id !in Ids(models) then Failure(ValueErr("Unknown model: " + id))
    else
      var model := FirstWith(models, id);
      if decoded.Failure? then Failure(decoded.error)
      else if id == "opencv_canny" then ProcessOpenCvCanny(server, decoded.value, params.UnwrapOr(map[]))
      else if model.kind == ModelFileType then Success(Placeholder(model.name))
      else Failure(ValueErr("Unsupported model type: " + TypeName(model.kind)))
  }

  /** `self.models[id]` on a registry that holds `id`. */
  function FirstWith(models: seq<(string, ModelConfig)>, id: string): (c: ModelConfig)
    requires id in Ids(models)
    ensures exists i | 0 <= i < |models| :: models[i].0 == id && models[i].1 == c
  {
    if models[0].0 == id then models[0].1
    else
      assert Ids(models[1..]) == Ids(models)[1..];
      FirstWith(models[1..], id)
  }

  /** The `type` string of an entry. */
  function TypeName(t: ModelType): string
  {
    match t
    case BuiltinType => "builtin"
    case OpenCvType => "opencv"
    case ModelFileType => "model"
  }

  /**
   * The registered `builtin` entry can never be served: after any load it
   * is present, and asking for it with a decodable image always raises
   * "Unsupported model type: builtin".
   */
  lemma BuiltinEntryAlwaysRejected(server: Server, builtinName: string, dir: string, existing: set<string>, shape: Shape,
                                   params: Option<Settings>)
    ensures "builtin" in Ids(Loaded(ModelConfigs(builtinName), dir, existing))
    ensures ProcessImage(server, Loaded(ModelConfigs(builtinName), dir, existing), "builtin", Success(shape), params)
            == Failure(ValueErr("Unsupported model type: builtin"))
  {
    var models := Loaded(ModelConfigs(builtinName), dir, existing);
    BuiltinEntryLoaded(builtinName, dir, existing);
    BuiltinTypeRejected(server, models, "builtin", shape, params);
  }

  /** After any load the `builtin` id is registered with its built-in type. */
  lemma BuiltinEntryLoaded(builtinName: string, dir: string, existing: set<string>)
    ensures var models := Loaded(ModelConfigs(builtinName), dir, existing);
      "builtin" in Ids(models) && FirstWith(models, "builtin").kind == BuiltinType
  {
    var c := ModelConfigs(builtinName);
    ModelConfigIdsDistinct(builtinName);
    LoadedEntries(c, dir, existing);
    assert Registered(c[0].1, dir, existing);
    var models := Loaded(c, dir, existing);
    var e := (c[0].0, Stored(c[0].1, dir));
    assert e in models;
    FirstWithDistinct(models, e);
  }

  /** Any registered entry of the built-in type is refused by name. */
  lemma BuiltinTypeRejected(server: Server, models: seq<(string, ModelConfig)>, id: string, shape: Shape,
                            params: Option<Settings>)
    requires id in Ids(models) && id != "opencv_canny" && FirstWith(models, id).kind == BuiltinType
    ensures ProcessImage(server, models, id, Success(shape), params) == Failure(ValueErr("Unsupported model type: builtin"))
  {
    assert TypeName(FirstWith(models, id).kind) == "builtin";
    assert "Unsupported model type: " + "builtin" == "Unsupported model type: builtin";
  }

  /** In a registry with distinct ids, `self.models[id]` is the one row holding `id`. */
  lemma FirstWithDistinct(rows: seq<(string, ModelConfig)>, e: (string, ModelConfig))
    requires DistinctIds(rows) && e in rows
    ensures e.0 in Ids(rows) && FirstWith(rows, e.0) == e.1
  {
    var j :| 0 <= j < |rows| && rows[j] == e;
    assert Ids(rows)[j] == e.0;
    var i :| 0 <= i < |rows| && rows[i].0 == e.0 && rows[i].1 == FirstWith(rows, e.0);
    assert i == j;
  }

  /** A request body: the keys present, and the image, model and parameters it carries. */
  datatype Body = Body(keys: set<string>, image: string, model: string, params: Option<Settings>)

  /** A Flask reply: a status and a JSON body. */
  datatype FlaskReply =
    | Preprocessed(status: nat, produced: Produced, modelUsed: string)
    | ErrorReply(status: nat, error: string)

  /**
   * The Flask `/api/preprocess`: a missing body or a missing `image` or
   * `model` key is 400 before anything runs; any exception is 500 with its
   * text.
   */
  function FlaskPreprocess(models: seq<(string, ModelConfig)>, body: Option<Body>, decoded: Result<Shape, Exc>)
    : (r: FlaskReply)
    ensures (body.None? || body.value.keys == {} || "image" !in body.value.keys || "model" !in body.value.keys) <==>
      r == ErrorReply(400, "Missing required fields: image, model")
    ensures r.Preprocessed? ==> (r.status == 200 && r.modelUsed == body.value.model &&
      ProcessImage(FlaskServer, models, body.value.model, decoded, body.value.params) == Success(r.produced))
    ensures r.ErrorReply? && r.status == 500 ==>
      ProcessImage(FlaskServer, models, body.value.model, decoded, body.value.params).Failure?
  {
    if body.None? || body.value.keys == {} || "image" !in body.value.keys || "model" !in body.value.keys then
      ErrorReply(400, "Missing required fields: image, model")
    else
      match ProcessImage(FlaskServer, models, body.value.model, decoded, body.value.params)
      case Success(p) => Preprocessed(200, p, body.value.model)
      case Failure(e) => ErrorReply(500, ExcText(e))
  }

  /** A FastAPI reply: a response model, or an HTTP error. */
  datatype ApiReply<T> = Answer(success: bool, result: Option<T>, modelUsed: string, error: Option<string>)
                       | HttpError(status: nat, detail: string)

  /** The body of the `try` in `/api/preprocess` and `/api/depth`: empty fields raise a 400 first. */
  function Guarded<T>(image: string, model: string, run: Result<T, Exc>): (r: Result<T, Exc>)
    ensures image == "" || model == "" ==> r == Failure(HttpExc(400, "Missing required fields: image, model"))
    ensures image != "" && model != "" ==> r == run
  {
    if image == "" || model == "" then Failure(HttpExc(400, "Missing required fields: image, model")) else run
  }

  /**
   * The handlers as written: a `ValueError` becomes an unsuccessful answer,
   * and every other exception, the `HTTPException` raised a line earlier
   * included, becomes HTTP 500.
   */
  function HandleAsWritten<T>(model: string, outcome: Result<T, Exc>, prefix: string): (r: ApiReply<T>)
    ensures outcome.Failure? && !outcome.error.ValueErr? ==> r == HttpError(500, prefix + ExcText(outcome.error))
  {
    match outcome
    case Success(v) => Answer(true, Some(v), model, None)
    case Failure(ValueErr(m)) => Answer(false, None, model, Some(m))
    case Failure(e) => HttpError(500, prefix + ExcText(e))
  }

  /** The handlers as intended: an `HTTPException` passes through with its own status. */
  function Handle<T>(model: string, outcome: Result<T, Exc>, prefix: string): (r: ApiReply<T>)
    ensures outcome.Failure? && outcome.error.HttpExc? ==> r == HttpError(outcome.error.status, outcome.error.detail)
    ensures outcome.Failure? && outcome.error.OtherErr? ==> r == HttpError(500, prefix + ExcText(outcome.error))
    ensures outcome.Success? <==> r.Answer? && r.success
    ensures r.Answer? ==> r.modelUsed == model
  {
    match outcome
    case Failure(HttpExc(s, d)) => HttpError(s, d)
    case _ => HandleAsWritten(model, outcome, prefix)
  }

  /** The legacy `/api/preprocess` prefix for unexpected errors. */
  const PreprocessPrefix: string := "전처리 실패: "

  /** As written, an empty image or model reaches the client as HTTP 500, not 400. */
  lemma MissingFieldsBecome500<T>(image: string, model: string, run: Result<T, Exc>)
    requires image == "" || model == ""
    ensures HandleAsWritten(model, Guarded(image, model, run), PreprocessPrefix)
            == HttpError(500, PreprocessPrefix + ExcText(HttpExc(400, "Missing required fields: image, model")))
  {
  }

  /** As intended, an empty image or model is HTTP 400 whatever the processing would have done. */
  lemma MissingFieldsAre400<T>(image: string, model: string, run: Result<T, Exc>, prefix: string)
    requires image == "" || model == ""
    ensures Handle(model, Guarded(image, model, run), prefix) == HttpError(400, "Missing required fields: image, model")
  {
  }

  /** The two handlers agree on every request whose processing raises no `HTTPException`. */
  lemma HandlersAgree<T>(image: string, model: string, run: Result<T, Exc>, prefix: string)
    requires image != "" && model != ""
    requires run.Failure? ==> !run.error.HttpExc?
    ensures Handle(model, Guarded(image, model, run), prefix) == HandleAsWritten(model, Guarded(image, model, run), prefix)
  {
  }

  /** The processing behind the legacy endpoint never raises an `HTTPException`. */
  lemma ProcessingRaisesNoHttp(server: Server, models: seq<(string, ModelConfig)>, id: string, shape: Shape,
                               params: Option<Settings>)
    ensures ProcessImage(server, models, id, Success(shape), params).Failure? ==>
      !ProcessImage(server, models, id, Success(shape), params).error.HttpExc?
  {
  }

  /**
   * A threshold `int()` refuses is a `ValueError` on the explorer, which
   * `/api/preprocess` answers as an unsuccessful result; the Flask server
   * hands the same text to Canny, whose error is a 500.
   */
  lemma ExplorerCannyRefusesText(models: seq<(string, ModelConfig)>, shape: Shape)
    requires "opencv_canny" in Ids(models) && ConvertsToGray(shape)
    ensures var params := map["lowThreshold" := VStr("abc")];
      var run := ProcessImage(ExplorerServer, models, "opencv_canny", Success(shape), Some(params));
      run == Failure(ValueErr("invalid literal for int() with base 10: 'abc'")) &&
      Handle("opencv_canny", run, PreprocessPrefix) ==
        Answer(false, None, "opencv_canny", Some("invalid literal for int() with base 10: 'abc'"))
    ensures FlaskPreprocess(models, Some(Body({"image", "model"}, "data", "opencv_canny", Some(map["lowThreshold" := VStr("abc")]))),
                            Success(shape)).ErrorReply?
  {
    assert Strip("abc") == "abc" && SplitSign("abc") == (false, "abc") && !DigitPart("abc");
    assert ParseInt("abc").None? && IntOf(VStr("abc")).None?;
    assert "invalid literal for int() with base 10: '" + "abc" + "'" == "invalid literal for int() with base 10: 'abc'";
    var params := map["lowThreshold" := VStr("abc")];
    assert Threshold(ExplorerServer, params, "lowThreshold", 100) == Failure(ValueErr("invalid literal for int() with base 10: 'abc'"));
  }

  /** The explorer reads a threshold given as digits, where the Flask server fails. */
  lemma ExplorerCannyReadsDigits(models: seq<(string, ModelConfig)>, shape: Shape)
    requires "opencv_canny" in Ids(models) && ConvertsToGray(shape)
    ensures ProcessImage(ExplorerServer, models, "opencv_canny", Success(shape), Some(map["highThreshold" := VStr("150")]))
            == Success(Canny(100.0, 150.0))
    ensures ProcessImage(FlaskServer, models, "opencv_canny", Success(shape), Some(map["highThreshold" := VStr("150")])).Failure?
  {
    assert DigitsValue("150") == 150 by {
      assert "150"[..2] == "15" && "15"[..1] == "1";
    }
  }

  // The legacy depth processor.

  /** The depth catalogue's types. */
  datatype DepthKind = DepthBuiltin | AiModel

  /** The depth catalogue: one built-in algorithm and four placeholder models. */
  const DepthModels: map<string, (string, DepthKind)> := map[
    "builtin_depth" := ("Built-in Depth (JavaScript)", DepthBuiltin),
    "midas_v3" := ("MiDaS v3.1 (DPT-Large)", AiModel),
    "midas_v2" := ("MiDaS v2.1 (ResNet)", AiModel),
    "dpt_hybrid" := ("DPT-Hybrid", AiModel),
    "depth_anything" := ("Depth Anything V2", AiModel)]

  /** What the depth processor produced, before encoding. */
  datatype DepthResult =
    | DepthMap(contrast: real, brightness: real, smoothing: int, blurKernel: Option<int>)
    | GrayCopy
    | AiPlaceholder(name: string)

  /** `int(value)` as `process_builtin_depth` applies it; `None` for the exception it raises. */
  function IntOf(v: Value): Option<int>
  {
    match ToInt(v)
    case Some(VInt(i)) => Some(i)
    case _ => None
  }

  /** `max(0, min(10, int(x)))`. */
  function SmoothingOf(v: Value): (r: Option<int>)
    ensures r.Some? ==> 0 <= r.value <= 10
    ensures v.VFloat? ==> r == Some(Numeric.SmoothingLevel(v.x))
  {
    match IntOf(v)
    case Some(n) => Some(Numeric.ClampInt(0, 10, n))
    case None => None
  }

  /**
   * `process_builtin_depth`: contrast clamped to [0.1, 3.0] (default 1.2),
   * brightness to [-1, 1] (default 0.1), smoothing to an integer in 0..10
   * (default 2); the blur runs only for a positive level smaller than half
   * the shorter side, with kernel `2s + 1`.  A parameter that cannot be
   * compared or converted sends the handler to the plain gray copy; an
   * image that cannot be turned gray fails in the handler too.
   */
  function ProcessBuiltinDepth(shape: Shape, params: Settings): (r: Result<DepthResult, Exc>)
    ensures r.Failure? <==> !ConvertsToGray(shape)
    ensures r.Success? && r.value.DepthMap? ==>
      && 0.1 <= r.value.contrast <= 3.0 && -1.0 <= r.value.brightness <= 1.0 && 0 <= r.value.smoothing <= 10
      && (r.value.blurKernel.Some? <==>
           r.value.smoothing > 0 && (if shape.height < shape.width then shape.height else shape.width) > 2 * r.value.smoothing)
      && (r.value.blurKernel.Some? ==> r.value.blurKernel.value == 2 * r.value.smoothing + 1)
    ensures ConvertsToGray(shape) && params == map[] ==> (r.Success? && r.value.DepthMap? &&
      r.value.contrast == 1.2 && r.value.brightness == 0.1 && r.value.smoothing == 2)
  {
    if !ConvertsToGray(shape) then Failure(OtherErr("cvtColor: invalid number of channels"))
    else
      var contrast := NumberOr(params, "contrast", 1.2);
      var brightness := NumberOr(params, "brightness", 0.1);
      var smoothing := if "smoothing" in params then SmoothingOf(params["smoothing"]) else Some(2);
      if contrast.None? || brightness.None? || smoothing.None? then Success(GrayCopy)
      else
        var s := smoothing.value;
        var shorter := if shape.height < shape.width then shape.height else shape.width;
        Success(DepthMap(Numeric.ClampReal(0.1, 3.0, contrast.value), Numeric.ClampReal(-1.0, 1.0, brightness.value), s,
                         if s > 0 && shorter > s * 2 then Some(Numeric.SmoothingKernel(s)) else None))
  }

  /**
   * `process_ai_depth_placeholder`: an image under two pixels high or wide
   * comes back as its gray copy, a larger one as the radial placeholder
   * blended with its gray copy; either way the image is first turned gray,
   * which raises for an image without three or four channels.
   */
  function AiDepthPlaceholder(shape: Shape, name: string): (r: Result<DepthResult, Exc>)
    ensures r.Failure? <==> !ConvertsToGray(shape)
    ensures r.Success? ==>
      r.value == if shape.height < 2 || shape.width < 2 then GrayCopy else AiPlaceholder(name)
  {
    if !ConvertsToGray(shape) then Failure(OtherErr("cvtColor: invalid number of channels"))
    else if shape.height < 2 || shape.width < 2 then Success(GrayCopy)
    else Success(AiPlaceholder(name))
  }

  /**
   * `process_depth`: an unknown id is a `ValueError`; `builtin_depth` runs
   * the built-in algorithm, an `ai_model` entry the placeholder.
   */
  function ProcessDepth(id: string, decoded: Result<Shape, Exc>, params: Option<Settings>): (r: Result<DepthResult, Exc>)
    ensures id !in DepthModels ==> r == Failure(ValueErr("Unknown depth model: " + id))
    ensures id in DepthModels && decoded.Failure? ==> r == Failure(decoded.error)
    ensures r.Success? && r.value.AiPlaceholder? ==>
      id in DepthModels && DepthModels[id] == (r.value.name, AiModel) &&
      decoded.value.height >= 2 && decoded.value.width >= 2
    ensures r.Success? && r.value.DepthMap? ==> id == "builtin_depth"
    ensures r.Success? && r.value.GrayCopy? ==>
      id == "builtin_depth" || (id in DepthModels && DepthModels[id].1 == AiModel &&
                                (decoded.value.height < 2 || decoded.value.width < 2))
  {
    if id !in DepthModels then Failure(ValueErr("Unknown depth model: " + id))
    else if decoded.Failure? then Failure(decoded.error)
    else if id == "builtin_depth" then ProcessBuiltinDepth(decoded.value, params.UnwrapOr(map[]))
    else if DepthModels[id].1 == AiModel then AiDepthPlaceholder(decoded.value, DepthModels[id].0)
    else Failure(ValueErr("Unsupported depth model type: builtin"))
  }

  /**
   * Every catalogued depth id is served: none reaches the "Unsupported
   * depth model type" error, and a decoded image fails exactly when it
   * cannot be turned gray, whichever model is asked for.
   */
  lemma EveryDepthModelServed(id: string, shape: Shape, params: Option<Settings>)
    requires id in DepthModels
    ensures ProcessDepth(id, Success(shape), params).Failure? <==> !ConvertsToGray(shape)
  {
  }
}
