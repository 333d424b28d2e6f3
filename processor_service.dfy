// `ProcessorService`: the processor registry as an insertion-ordered list
// of (id, configuration) rows, the model files found by the scanner, and
// the queries over them (listing, categories, statistics, lookup, filters).
// The scanner and the registry builder live outside this model and are
// passed in as functions.
module ProcessorService {
  import opened Wrappers
  import opened Text
  import Params

  /** A registry row's configuration. */
  datatype ProcConfig = ProcConfig(name: string, kind: string, category: string, available: bool, backend: string,
                                   parameters: Params.Schema)

  /** A scanned model file: whether it is present, and its size if known. */
  datatype ModelFile = ModelFile(available: bool, sizeMb: Option<real>)

  /** The registry dictionary, in insertion order. */
  type Registry = seq<(string, ProcConfig)>

  /** A dictionary holds each key once. */
  predicate DistinctIds(reg: Registry)
  {
    forall i, j | 0 <= i < j < |reg| :: reg[i].0 != reg[j].0
  }

  /** `dict.get`: the configuration stored for `id`, if any. */
  function Get(reg: Registry, id: string): (r: Option<ProcConfig>)
    ensures r.Some? ==> (id, r.value) in reg
    ensures r.None? <==> forall i | 0 <= i < |reg| :: reg[i].0 != id
    ensures DistinctIds(reg) ==> forall i | 0 <= i < |reg| && reg[i].0 == id :: r == Some(reg[i].1)
  {
    if reg == [] then None
    else if reg[0].0 == id then Some(reg[0].1)
    else Get(reg[1..], id)
  }

  /** `model_size_mb`: looked up under the id without `_builtin`, 0 when unknown. */
  function ModelSize(models: map<string, ModelFile>, id: string): (r: real)
    ensures var key := ReplaceAll(id, "_builtin", "");
      r == if key in models && models[key].sizeMb.Some? then models[key].sizeMb.value else 0.0
  {
    var key := ReplaceAll(id, "_builtin", "");
    if key in models then models[key].sizeMb.UnwrapOr(0.0) else 0.0
  }

  /** A built-in variant reports the size of its base model. */
  lemma BuiltinSizeShared(models: map<string, ModelFile>, base: string)
    requires '_' !in base
    ensures ModelSize(models, base + "_builtin") == ModelSize(models, base)
    ensures ModelSize(models, base) == if base in models then models[base].sizeMb.UnwrapOr(0.0) else 0.0
  {
    ReplaceAllSuffix(base, "_builtin", "");
    assert base + "" == base;
    MissingCharNotContained(base, "_builtin", '_');
    ReplaceAllAbsent(base, "_builtin", "");
  }

  /** One entry of `get_processors`. */
  datatype Listed = Listed(id: string, config: ProcConfig, modelSizeMb: real)

  /** `get_processors`: one entry per registry row, in registry order. */
  function GetProcessors(reg: Registry, models: map<string, ModelFile>): (r: seq<Listed>)
    ensures |r| == |reg|
    ensures forall i | 0 <= i < |r| :: r[i].id == reg[i].0 && r[i].config == reg[i].1
    ensures forall i | 0 <= i < |r| :: r[i].modelSizeMb == ModelSize(models, reg[i].0)
  {
    seq(|reg|, i requires 0 <= i < |reg| => Listed(reg[i].0, reg[i].1, ModelSize(models, reg[i].0)))
  }

  /** `get_processor_by_id`: `None` for an unknown id. */
  function GetProcessorById(reg: Registry, models: map<string, ModelFile>, id: string): (r: Option<Listed>)
    ensures r.None? <==> forall i | 0 <= i < |reg| :: reg[i].0 != id
    ensures r.Some? ==> r.value.id == id && (id, r.value.config) in reg && r.value.modelSizeMb == ModelSize(models, id)
  {
    match Get(reg, id)
    case None => None
    case Some(c) => Some(Listed(id, c, ModelSize(models, id)))
  }

  /** `is_processor_available`: false for an unknown id or an entry not marked available. */
  function IsProcessorAvailable(reg: Registry, id: string): (r: bool)
    ensures r ==> exists i | 0 <= i < |reg| :: reg[i].0 == id && reg[i].1.available
    ensures (forall i | 0 <= i < |reg| :: reg[i].0 != id) ==> !r
    ensures DistinctIds(reg) ==> forall i | 0 <= i < |reg| && reg[i].0 == id :: r == reg[i].1.available
  {
    var c := Get(reg, id);
    c.Some? && c.value.available
  }

  /** The field a filter compares. */
  datatype Field = Category | Backend

  function FieldOf(c: ProcConfig, f: Field): string
  {
    match f
    case Category => c.category
    case Backend => c.backend
  }

  /**
   * The rows whose field equals `value`, in registry order: the loops of
   * `get_processors_by_category`, `get_processors_by_backend` and the
   * per-category lists of `get_processor_categories`.
   */
  function Select(reg: Registry, f: Field, value: string): (r: Registry)
    ensures |r| <= |reg|
    ensures forall e :: e in r <==> e in reg && FieldOf(e.1, f) == value
    decreases |reg|
  {
    if reg == [] then []
    else
      var init := reg[..|reg| - 1];
      var last := reg[|reg| - 1];
      assert reg == init + [last];
      if FieldOf(last.1, f) == value then Select(init, f, value) + [last] else Select(init, f, value)
  }

  /** Selection keeps the registry's order: it distributes over appending rows. */
  lemma {:induction false} SelectAppend(a: Registry, b: Registry, f: Field, value: string)
    ensures Select(a + b, f, value) == Select(a, f, value) + Select(b, f, value)
    decreases |b|
  {
    if b == [] {
      assert a + b == a;
    } else {
      var init := b[..|b| - 1];
      var last := b[|b| - 1];
      assert (a + b)[..|a + b| - 1] == a + init;
      assert (a + b)[|a + b| - 1] == last;
      SelectAppend(a, init, f, value);
      SelectLast(a + b, f, value);
      SelectLast(b, f, value);
    }
  }

  /** Selecting from a non-empty registry: the selection of all but the last row, then the last row if it matches. */
  lemma SelectLast(reg: Registry, f: Field, value: string)
    requires reg != []
    ensures Select(reg, f, value) ==
      Select(reg[..|reg| - 1], f, value) + (if FieldOf(reg[|reg| - 1].1, f) == value then [reg[|reg| - 1]] else [])
  {
  }

  function GetProcessorsByCategory(reg: Registry, category: string): (r: Registry)
    ensures forall e :: e in r <==> e in reg && e.1.category == category
  {
    Select(reg, Category, category)
  }

  function GetProcessorsByBackend(reg: Registry, backend: string): (r: Registry)
    ensures forall e :: e in r <==> e in reg && e.1.backend == backend
  {
    Select(reg, Backend, backend)
  }

  /** The five tabs of the interface. */
  const CategoryKeys: set<string> := {"edge_lines", "depth_normals", "pose_human", "segmentation", "advanced"}

  /**
   * `get_processor_categories`: exactly the five keys, each listing the rows
   * of its category; a row of any other category is listed nowhere.
   */
  function GetProcessorCategories(reg: Registry): (r: map<string, Registry>)
    ensures r.Keys == CategoryKeys
    ensures forall k, e :: k in r ==> (e in r[k] <==> e in reg && e.1.category == k)
  {
    map k | k in CategoryKeys :: Select(reg, Category, k)
  }

  /** A row outside the five categories appears in no list, one inside appears in its own. */
  lemma CategoriesPlaceEachRow(reg: Registry, e: (string, ProcConfig))
    requires e in reg
    ensures e.1.category !in CategoryKeys ==> forall k | k in GetProcessorCategories(reg) :: e !in GetProcessorCategories(reg)[k]
    ensures e.1.category in CategoryKeys ==> e in GetProcessorCategories(reg)[e.1.category]
  {
  }

  /** The rows marked available, in registry order. */
  function AvailableRows(reg: Registry): (r: Registry)
    ensures |r| <= |reg|
    ensures forall e :: e in r <==> e in reg && e.1.available
    decreases |reg|
  {
    if reg == [] then []
    else
      var init := reg[..|reg| - 1];
      var last := reg[|reg| - 1];
      assert reg == init + [last];
      if last.1.available then AvailableRows(init) + [last] else AvailableRows(init)
  }

  /** The model files marked available. */
  function AvailableFiles(models: map<string, ModelFile>): (r: set<string>)
    ensures r <= models.Keys
    ensures forall k :: k in r <==> k in models && models[k].available
  {
    set k | k in models && models[k].available
  }

  /** A percentage, 0 for an empty total. */
  function Rate(part: nat, total: nat): (r: real)
    requires part <= total
    ensures total == 0 ==> r == 0.0
    ensures 0.0 <= r <= 100.0
    ensures total > 0 ==> r * total as real == 100.0 * part as real
  {
    if total > 0 then part as real / total as real * 100.0 else 0.0
  }

  datatype ProcessorStats = ProcessorStats(totalProcessors: nat, availableProcessors: nat, totalModelFiles: nat,
                                           availableModelFiles: nat, availabilityRate: real,
                                           modelAvailabilityRate: real, modelsPath: string)

  /** `get_processor_stats`: the counts, and rates that are 0 for an empty total. */
  function GetProcessorStats(reg: Registry, models: map<string, ModelFile>, modelsPath: string): (s: ProcessorStats)
    ensures s.totalProcessors == |reg| && s.totalModelFiles == |models|
    ensures s.availableProcessors == |AvailableRows(reg)| && s.availableModelFiles == |AvailableFiles(models)|
    ensures s.availableProcessors <= s.totalProcessors && s.availableModelFiles <= s.totalModelFiles
    ensures s.totalProcessors == 0 ==> s.availabilityRate == 0.0
    ensures s.totalModelFiles == 0 ==> s.modelAvailabilityRate == 0.0
    ensures 0.0 <= s.availabilityRate <= 100.0 && 0.0 <= s.modelAvailabilityRate <= 100.0
  {
    var files := AvailableFiles(models);
    assert |files| <= |models| by {
      assert files <= models.Keys;
      SubsetCard(files, models.Keys);
    }
    var rows := AvailableRows(reg);
    ProcessorStats(|reg|, |rows|, |models|, |files|, Rate(|rows|, |reg|), Rate(|files|, |models|), modelsPath)
  }

  lemma SubsetCard<T>(a: set<T>, b: set<T>)
    requires a <= b
    ensures |a| <= |b|
  {
    assert b == a + (b - a);
  }

  /**
   * The service's state: the scanned model files and the registry built
   * from them.  `__init__` scans with the service's configuration;
   * `refresh_processor_registry` scans with the scanner's default.
   */
  class Service {
    const config: string
    var availableModels: map<string, ModelFile>
    var registry: Registry

    constructor (config: string, scan: Option<string> -> map<string, ModelFile>,
                 build: map<string, ModelFile> -> Registry)
      ensures this.config == config
      ensures availableModels == scan(Some(config)) && registry == build(availableModels)
    {
      this.config := config;
      availableModels := scan(Some(config));
      registry := build(scan(Some(config)));
    }

    /** `refresh_processor_registry`: both maps are replaced, the models rescanned without the configuration. */
    method Refresh(scan: Option<string> -> map<string, ModelFile>, build: map<string, ModelFile> -> Registry)
      modifies this
      ensures availableModels == scan(None) && registry == build(scan(None))
    {
      availableModels := scan(None);
      registry := build(availableModels);
    }
  }
}
