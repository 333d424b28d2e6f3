// The model registry shared by the unified backend service and the ControlNet
// service: a catalogue of preprocessor models keyed by id, an availability
// probe run once at start-up, and a bounded cache of loaded networks with
// least-recently-used eviction.
module Registry {
  import opened Wrappers

  datatype ProcessorType =
    | EdgeDetection | SoftEdge | Lineart | DepthEstimation | NormalMap
    | PoseEstimation | Segmentation | Mlsd | Scribble | Color | Shuffle
    | Threshold | Inpaint | ClipVision | Reference | Tile | Recolor | Revision

  datatype ModelStatus = Available | Loading | Loaded | Error | NotFound

  datatype Backend = PyTorch | OpenCV | Builtin | Onnx | SafeTensors

  /** The enum's string value, as used in sentinel handles and statistics. */
  function BackendValue(b: Backend): string
  {
    match b
    case PyTorch => "pytorch"
    case OpenCV => "opencv"
    case Builtin => "builtin"
    case Onnx => "onnx"
    case SafeTensors => "safetensors"
  }

  /**
   * One registry entry.  Times are readings of a monotone clock (the
   * service reads the wall clock); `None` sorts before every reading.
   */
  datatype ModelInfo = ModelInfo(
    id: string,
    name: string,
    filePath: Option<string>,
    processorType: ProcessorType,
    backend: Backend,
    status: ModelStatus,
    size: Option<nat>,
    fallbackModels: seq<string>,
    lastUsed: Option<nat>,
    loadCount: nat,
    errorMessage: Option<string>)

  /** The fields a catalogue declaration passes to `ModelInfo`. */
  datatype ModelDecl = ModelDecl(
    id: string,
    name: string,
    filePath: Option<string>,
    processorType: ProcessorType,
    backend: Backend,
    fallbackModels: seq<string>)

  /** A declared entry with the dataclass defaults for everything not given. */
  function Entry(d: ModelDecl): ModelInfo
  {
    ModelInfo(d.id, d.name, d.filePath, d.processorType, d.backend, Available, None, d.fallbackModels, None, 0, None)
  }

  /** A catalogue of declarations, entry by entry. */
  function Entries(ds: seq<ModelDecl>): (ms: seq<ModelInfo>)
    ensures |ms| == |ds|
    ensures forall i :: 0 <= i < |ds| ==> ms[i] == Entry(ds[i])
  {
    seq(|ds|, i requires 0 <= i < |ds| => Entry(ds[i]))
  }

  /** Built-in and OpenCV models run without a weight file. */
  predicate NeedsNoWeights(b: Backend)
  {
    b == Builtin || b == OpenCV
  }

  /** How a missing path is rendered into the not-found message. */
  function PathText(p: Option<string>): string
  {
    match p
    case None => "None"
    case Some(s) => s
  }

  /**
   * The availability probe for one entry.  `files` maps each existing path
   * to its size in bytes.
   */
  function Probed(m: ModelInfo, files: map<string, nat>): (r: ModelInfo)
    ensures r.id == m.id && r.backend == m.backend && r.processorType == m.processorType
    ensures r.fallbackModels == m.fallbackModels && r.filePath == m.filePath
    ensures r.lastUsed == m.lastUsed && r.loadCount == m.loadCount && r.name == m.name
    ensures r.status == Available <==>
      NeedsNoWeights(m.backend) || (m.filePath.Some? && m.filePath.value in files)
    ensures r.status != Available ==>
      r.status == NotFound && r.errorMessage == Some("Model file not found: " + PathText(m.filePath))
    ensures r.status == Available && !NeedsNoWeights(m.backend) ==>
      r.size == Some(files[m.filePath.value]) && r.errorMessage == m.errorMessage
    ensures NeedsNoWeights(m.backend) ==> r.size == m.size && r.errorMessage == m.errorMessage
  {
    if NeedsNoWeights(m.backend) then m.(status := Available)
    else if m.filePath.Some? && m.filePath.value in files then
      m.(status := Available, size := Some(files[m.filePath.value]))
    else
      m.(status := NotFound, errorMessage := Some("Model file not found: " + PathText(m.filePath)))
  }

  /** Probing twice with the same files gives the same entry as probing once. */
  lemma ProbeIdempotent(m: ModelInfo, files: map<string, nat>)
    ensures Probed(Probed(m, files), files).status == Probed(m, files).status
    ensures Probed(Probed(m, files), files).size == Probed(m, files).size
  {
  }

  // ---- Listing and statistics -------------------------------------------

  predicate Listed(m: ModelInfo, t: Option<ProcessorType>)
  {
    m.status == Available && (t.Some? ==> m.processorType == t.value)
  }

  /**
   * `get_available_models`: the available entries in catalogue order,
   * optionally restricted to one processor type.
   */
  function AvailableModels(ids: seq<string>, models: map<string, ModelInfo>,
                           t: Option<ProcessorType>): (r: seq<ModelInfo>)
    requires forall i :: 0 <= i < |ids| ==> ids[i] in models
    ensures |r| <= |ids|
    ensures forall m :: m in r ==> Listed(m, t)
    ensures forall m :: m in r ==> exists i :: 0 <= i < |ids| && models[ids[i]] == m
    ensures forall i :: 0 <= i < |ids| && Listed(models[ids[i]], t) ==> models[ids[i]] in r
  {
    if ids == [] then []
    else
      var rest := AvailableModels(ids[1..], models, t);
      assert forall i :: 1 <= i < |ids| ==> ids[i] == ids[1..][i - 1];
      if Listed(models[ids[0]], t) then [models[ids[0]]] + rest else rest
  }

  function CountStatus(ids: seq<string>, models: map<string, ModelInfo>, s: ModelStatus): (n: nat)
    requires forall i :: 0 <= i < |ids| ==> ids[i] in models
    ensures n <= |ids|
  {
    if ids == [] then 0
    else CountStatus(ids[1..], models, s) + (if models[ids[0]].status == s then 1 else 0)
  }

  /** The available count reported in statistics is the length of the unfiltered listing. */
  lemma {:induction false} AvailableCountIsListingLength(ids: seq<string>, models: map<string, ModelInfo>)
    requires forall i :: 0 <= i < |ids| ==> ids[i] in models
    ensures CountStatus(ids, models, Available) == |AvailableModels(ids, models, None)|
  {
    if ids != [] {
      AvailableCountIsListingLength(ids[1..], models);
    }
  }

  function CountType(ids: seq<string>, models: map<string, ModelInfo>, t: ProcessorType): nat
    requires forall i :: 0 <= i < |ids| ==> ids[i] in models
  {
    if ids == [] then 0
    else CountType(ids[..|ids| - 1], models, t) + (if models[ids[|ids| - 1]].processorType == t then 1 else 0)
  }

  lemma {:induction false} CountTypePositive(ids: seq<string>, models: map<string, ModelInfo>, t: ProcessorType)
    requires forall i :: 0 <= i < |ids| ==> ids[i] in models
    ensures CountType(ids, models, t) > 0 <==> exists i :: 0 <= i < |ids| && models[ids[i]].processorType == t
  {
    if ids != [] {
      var prefix := ids[..|ids| - 1];
      CountTypePositive(prefix, models, t);
      if CountType(prefix, models, t) > 0 {
        var i :| 0 <= i < |prefix| && models[prefix[i]].processorType == t;
        assert models[ids[i]].processorType == t;
      }
      if exists i :: 0 <= i < |ids| && models[ids[i]].processorType == t {
        var i :| 0 <= i < |ids| && models[ids[i]].processorType == t;
        if i < |prefix| {
          assert models[prefix[i]].processorType == t;
        }
      }
    }
  }

  function CountBackend(ids: seq<string>, models: map<string, ModelInfo>, b: Backend): nat
    requires forall i :: 0 <= i < |ids| ==> ids[i] in models
  {
    if ids == [] then 0
    else CountBackend(ids[..|ids| - 1], models, b) + (if models[ids[|ids| - 1]].backend == b then 1 else 0)
  }

  lemma {:induction false} CountBackendPositive(ids: seq<string>, models: map<string, ModelInfo>, b: Backend)
    requires forall i :: 0 <= i < |ids| ==> ids[i] in models
    ensures CountBackend(ids, models, b) > 0 <==> exists i :: 0 <= i < |ids| && models[ids[i]].backend == b
  {
    if ids != [] {
      var prefix := ids[..|ids| - 1];
      CountBackendPositive(prefix, models, b);
      if CountBackend(prefix, models, b) > 0 {
        var i :| 0 <= i < |prefix| && models[prefix[i]].backend == b;
        assert models[ids[i]].backend == b;
      }
      if exists i :: 0 <= i < |ids| && models[ids[i]].backend == b {
        var i :| 0 <= i < |ids| && models[ids[i]].backend == b;
        if i < |prefix| {
          assert models[prefix[i]].backend == b;
        }
      }
    }
  }

  /** `models_by_type`: one key per type present, holding how many entries have it. */
  function TypeCounts(ids: seq<string>, models: map<string, ModelInfo>): (r: map<ProcessorType, nat>)
    requires forall i :: 0 <= i < |ids| ==> ids[i] in models
    ensures forall t :: t in r <==> CountType(ids, models, t) > 0
    ensures forall t :: t in r ==> r[t] == CountType(ids, models, t)
  {
    if ids == [] then map[]
    else
      var prefix := ids[..|ids| - 1];
      var r := TypeCounts(prefix, models);
      var t := models[ids[|ids| - 1]].processorType;
      r[t := (if t in r then r[t] else 0) + 1]
  }

  /** `models_by_backend`: one key per backend present, holding how many entries use it. */
  function BackendCounts(ids: seq<string>, models: map<string, ModelInfo>): (r: map<Backend, nat>)
    requires forall i :: 0 <= i < |ids| ==> ids[i] in models
    ensures forall b :: b in r <==> CountBackend(ids, models, b) > 0
    ensures forall b :: b in r ==> r[b] == CountBackend(ids, models, b)
  {
    if ids == [] then map[]
    else
      var prefix := ids[..|ids| - 1];
      var r := BackendCounts(prefix, models);
      var b := models[ids[|ids| - 1]].backend;
      r[b := (if b in r then r[b] else 0) + 1]
  }

  // ---- Least-recently-used choice ---------------------------------------

  /** `last_used or datetime.min`: an entry never used ranks below every use. */
  function Rank(t: Option<nat>): int
  {
    if t.None? then -1 else t.value
  }

  /**
   * Position of the eviction victim among the cache keys (in insertion
   * order): the smallest rank, and on a tie the earliest key, as Python's
   * `min` picks.
   */
  function LeastRecentIndex(keys: seq<string>, models: map<string, ModelInfo>): (k: nat)
    requires |keys| > 0
    requires forall i :: 0 <= i < |keys| ==> keys[i] in models
    ensures k < |keys|
    ensures forall i :: 0 <= i < |keys| ==>
      Rank(models[keys[k]].lastUsed) <= Rank(models[keys[i]].lastUsed)
    ensures forall i :: 0 <= i < k ==>
      Rank(models[keys[k]].lastUsed) < Rank(models[keys[i]].lastUsed)
  {
    if |keys| == 1 then 0
    else
      var k := LeastRecentIndex(keys[..|keys| - 1], models);
      if Rank(models[keys[|keys| - 1]].lastUsed) < Rank(models[keys[k]].lastUsed) then |keys| - 1 else k
  }

  predicate Distinct(s: seq<string>)
  {
    forall i, j :: 0 <= i < j < |s| ==> s[i] != s[j]
  }

  /** The sequence without its `k`-th element. */
  function RemoveAt(s: seq<string>, k: nat): (r: seq<string>)
    requires k < |s|
    ensures |r| == |s| - 1
  {
    s[..k] + s[k + 1..]
  }

  lemma RemoveAtDistinct(s: seq<string>, k: nat)
    requires k < |s| && Distinct(s)
    ensures Distinct(RemoveAt(s, k))
    ensures forall x :: x in RemoveAt(s, k) <==> x in s && x != s[k]
  {
    var r := RemoveAt(s, k);
    assert forall i :: 0 <= i < |r| ==> r[i] == (if i < k then s[i] else s[i + 1]);
    forall x | x in s && x != s[k] ensures x in r {
      var i :| 0 <= i < |s| && s[i] == x;
      assert r[if i < k then i else i - 1] == x;
    }
  }

  lemma AppendDistinct(s: seq<string>, x: string)
    requires Distinct(s) && x !in s
    ensures Distinct(s + [x])
  {
  }

  // ---- The registry object ----------------------------------------------

  datatype CacheStats = CacheStats(hits: nat, misses: nat, evictions: nat, totalLoaded: nat)

  /**
   * What `load_model` hands back: the `"<backend>_processor"` string for
   * models that need no weights, or a network built for `modelId`; `serial`
   * tells apart networks built by different loads.
   */
  datatype Handle = Sentinel(text: string) | Network(modelId: string, serial: nat)

  datatype LoadError =
    | UnknownModel(id: string)
    | TorchMissing
    | NotAvailable(id: string, reason: Option<string>)
    | UnknownArchitecture(id: string)
    | UnreadableWeights(id: string)

  /** The message recorded on an entry whose load failed. */
  function LoadErrorText(e: LoadError): string
  {
    match e
    case UnknownModel(id) => "Model " + id + " not found in registry"
    case TorchMissing => "PyTorch not available for model loading"
    case NotAvailable(id, _) => "Model " + id + " is not available"
    case UnknownArchitecture(id) => "Unknown model architecture for " + id
    case UnreadableWeights(id) => "torch.load failed for " + id
  }

  /**
   * The environment a load sees: whether PyTorch imported, and which ids'
   * weight files `torch.load` rejects.  A state dict that does not fit the
   * architecture is tolerated by the source and needs no parameter here.
   */
  datatype LoadEnv = LoadEnv(torchAvailable: bool, unreadable: set<string>)

  /** A cached entry: loaded, weight-backed, used at least once, holding its own network. */
  predicate CachedEntry(m: ModelInfo, h: Handle, id: string)
  {
    m.status == Loaded && !NeedsNoWeights(m.backend) && m.lastUsed.Some? &&
    h.Network? && h.modelId == id
  }

  /** The registry's mutable state as one value. */
  datatype RegState = RegState(
    order: seq<string>,
    models: map<string, ModelInfo>,
    cacheOrder: seq<string>,
    cache: map<string, Handle>,
    stats: CacheStats,
    clock: nat)

  /** Catalogue invariant: keys listed once each, in order, each entry under its own id. */
  ghost predicate CatalogOk(st: RegState)
  {
    Distinct(st.order) &&
    (forall id :: id in st.models <==> id in st.order) &&
    (forall id :: id in st.models ==> st.models[id].id == id)
  }

  /** Cache invariant: keys listed once each in insertion order, all of them catalogue ids. */
  ghost predicate CacheOk(st: RegState)
  {
    Distinct(st.cacheOrder) &&
    (forall id :: id in st.cache <==> id in st.cacheOrder) &&
    (forall i :: 0 <= i < |st.cacheOrder| ==> st.cacheOrder[i] in st.models)
  }

  /**
   * Entry invariant: exactly the loaded weight-backed entries are cached,
   * nothing is left mid-load, and no use lies in the future.
   */
  ghost predicate EntriesOk(st: RegState)
  {
    (forall id :: id in st.cache && id in st.models ==> CachedEntry(st.models[id], st.cache[id], id)) &&
    (forall id :: id in st.models && st.models[id].status == Loaded && !NeedsNoWeights(st.models[id].backend) ==>
      id in st.cache) &&
    (forall id :: id in st.models ==> st.models[id].status != Loading) &&
    (forall id :: id in st.models && st.models[id].lastUsed.Some? ==> st.models[id].lastUsed.value <= st.clock)
  }

  ghost predicate StateOk(max: nat, st: RegState)
  {
    max >= 1 && CatalogOk(st) && CacheOk(st) && |st.cacheOrder| <= max && EntriesOk(st)
  }

  /** The freshly probed catalogue with an empty cache satisfies the registry invariant. */
  lemma ProbedCatalogOk(declared: seq<ModelDecl>, ord: seq<string>, ms: map<string, ModelInfo>,
                        probed: map<string, ModelInfo>, files: map<string, nat>, max: nat)
    requires max >= 1 && Distinct(ord)
    requires forall id :: id in ms <==> id in ord
    requires forall id :: id in ms ==> ms[id].id == id && ms[id] in Entries(declared)
    requires probed.Keys == ms.Keys
    requires forall id :: id in ms ==> probed[id] == Probed(ms[id], files)
    ensures StateOk(max, RegState(ord, probed, [], map[], CacheStats(0, 0, 0, 0), 0))
    ensures forall id :: id in probed ==> exists d :: d in declared && probed[id] == Probed(Entry(d), files)
  {
    ProbedEntries(declared, ms, probed, files);
    var st := RegState(ord, probed, [], map[], CacheStats(0, 0, 0, 0), 0);
    assert CatalogOk(st);
    assert CacheOk(st);
    assert EntriesOk(st);
  }

  /** Each probed entry is a declared one, probed, unused and either available or not found. */
  lemma ProbedEntries(declared: seq<ModelDecl>, ms: map<string, ModelInfo>, probed: map<string, ModelInfo>,
                      files: map<string, nat>)
    requires forall id :: id in ms ==> ms[id].id == id && ms[id] in Entries(declared)
    requires probed.Keys == ms.Keys
    requires forall id :: id in ms ==> probed[id] == Probed(ms[id], files)
    ensures forall id :: id in probed ==>
      (exists d :: d in declared && probed[id] == Probed(Entry(d), files)) &&
      probed[id].id == id && probed[id].lastUsed.None? &&
      (probed[id].status == Available || probed[id].status == NotFound)
  {
    var catalog := Entries(declared);
    forall id | id in probed
      ensures (exists d :: d in declared && probed[id] == Probed(Entry(d), files))
      ensures probed[id].id == id && probed[id].lastUsed.None?
      ensures probed[id].status == Available || probed[id].status == NotFound
    {
      var k :| 0 <= k < |catalog| && catalog[k] == ms[id];
      assert declared[k] in declared && probed[id] == Probed(Entry(declared[k]), files);
    }
  }

  /** `_evict_least_used` on the state value. */
  function Evict(st: RegState): (r: RegState)
    requires CacheOk(st)
  {
    if st.cacheOrder == [] then st
    else
      var k := LeastRecentIndex(st.cacheOrder, st.models);
      var victim := st.cacheOrder[k];
      st.(cacheOrder := RemoveAt(st.cacheOrder, k), cache := st.cache - {victim},
          models := st.models[victim := st.models[victim].(status := Available)],
          stats := st.stats.(evictions := st.stats.evictions + 1))
  }

  /** A use of `id` recorded at a new clock reading, its status becoming `s`. */
  function Used(st: RegState, id: string, s: ModelStatus): RegState
    requires id in st.models
  {
    var info := st.models[id];
    st.(clock := st.clock + 1,
        models := st.models[id := info.(status := s, lastUsed := Some(st.clock + 1),
                                        loadCount := info.loadCount + 1)])
  }

  /** A freshly built network for `id` put into the cache. */
  function Inserted(st: RegState, id: string, h: Handle): RegState
    requires id in st.models
  {
    Used(st, id, Loaded).(cacheOrder := st.cacheOrder + [id], cache := st.cache[id := h],
                          stats := st.stats.(totalLoaded := st.stats.totalLoaded + 1))
  }

  /**
   * `load_model` on the state value: the new state and either the handle or
   * the error raised.  `max` is the cache capacity and `arch` the ids an
   * architecture exists for.
   */
  function Load(st: RegState, id: string, env: LoadEnv, max: nat, arch: set<string>)
    : (out: (RegState, Result<Handle, LoadError>))
    requires CacheOk(st)
    ensures out.0.order == st.order
  {
    if id !in st.models then (st, Failure(UnknownModel(id)))
    else if id in st.cache then
      (Used(st.(stats := st.stats.(hits := st.stats.hits + 1)), id, st.models[id].status),
       Success(st.cache[id]))
    else LoadMiss(st.(stats := st.stats.(misses := st.stats.misses + 1)), id, env, max, arch)
  }

  /** A known id that is not cached, after the miss has been counted. */
  function LoadMiss(st: RegState, id: string, env: LoadEnv, max: nat, arch: set<string>)
    : (out: (RegState, Result<Handle, LoadError>))
    requires CacheOk(st) && id in st.models
    ensures out.0.order == st.order
  {
    var info := st.models[id];
    if NeedsNoWeights(info.backend) then
      (Used(st, id, Loaded), Success(Sentinel(BackendValue(info.backend) + "_processor")))
    else if !env.torchAvailable then (st, Failure(TorchMissing))
    else if info.status != Available then (st, Failure(NotAvailable(id, info.errorMessage)))
    else if id !in arch || id in env.unreadable then
      var e := if id !in arch then UnknownArchitecture(id) else UnreadableWeights(id);
      (Failed(st, id, LoadErrorText(e)), Failure(e))
    else LoadNetwork(st, id, max)
  }

  /** The entry left in the error state after a failed load attempt. */
  function Failed(st: RegState, id: string, msg: string): RegState
    requires id in st.models
  {
    st.(models := st.models[id := st.models[id].(status := Error, errorMessage := Some(msg))])
  }

  /** A network built for `id` enters the cache, evicting first when the cache is full. */
  function LoadNetwork(st: RegState, id: string, max: nat): (out: (RegState, Result<Handle, LoadError>))
    requires CacheOk(st) && id in st.models
    ensures out.0.order == st.order
  {
    var room := if |st.cacheOrder| >= max then Evict(st) else st;
    var h := Network(id, room.stats.totalLoaded);
    (Inserted(room, id, h), Success(h))
  }

  lemma EvictKeepsCatalog(st: RegState)
    requires CatalogOk(st) && CacheOk(st)
    ensures CatalogOk(Evict(st)) && Evict(st).models.Keys == st.models.Keys
  {
  }

  lemma EvictKeepsCache(st: RegState)
    requires CacheOk(st)
    ensures CacheOk(Evict(st))
    ensures |Evict(st).cacheOrder| == if st.cacheOrder == [] then 0 else |st.cacheOrder| - 1
  {
    if st.cacheOrder != [] {
      var k := LeastRecentIndex(st.cacheOrder, st.models);
      RemoveAtDistinct(st.cacheOrder, k);
      var r := Evict(st);
      assert forall i :: 0 <= i < |r.cacheOrder| ==> r.cacheOrder[i] in st.cacheOrder;
    }
  }

  lemma EvictKeepsEntries(st: RegState)
    requires CacheOk(st) && EntriesOk(st)
    ensures EntriesOk(Evict(st))
  {
    if st.cacheOrder != [] {
      var k := LeastRecentIndex(st.cacheOrder, st.models);
      var victim := st.cacheOrder[k];
      var r := Evict(st);
      assert r.cache == st.cache - {victim};
      assert r.models == st.models[victim := st.models[victim].(status := Available)];
      forall id | id in r.cache && id in r.models
        ensures CachedEntry(r.models[id], r.cache[id], id)
      {
        assert id != victim;
      }
      forall id | id in r.models && r.models[id].status == Loaded && !NeedsNoWeights(r.models[id].backend)
        ensures id in r.cache
      {
        assert id != victim;
      }
    }
  }

  lemma EvictKeepsState(max: nat, st: RegState)
    requires StateOk(max, st)
    ensures StateOk(max, Evict(st))
    ensures |Evict(st).cacheOrder| == if st.cacheOrder == [] then 0 else |st.cacheOrder| - 1
  {
    EvictKeepsCatalog(st);
    EvictKeepsCache(st);
    EvictKeepsEntries(st);
  }

  /** Putting a network for an uncached weight-backed entry into a cache with room keeps the invariant. */
  lemma InsertKeepsState(max: nat, st: RegState, id: string, h: Handle)
    requires StateOk(max, st) && |st.cacheOrder| < max
    requires id in st.models && id !in st.cache && !NeedsNoWeights(st.models[id].backend)
    requires h == Network(id, st.stats.totalLoaded)
    ensures StateOk(max, Inserted(st, id, h))
  {
    InsertKeepsCatalog(st, id, h);
    InsertKeepsCache(st, id, h);
    InsertKeepsEntries(st, id, h);
  }

  lemma InsertKeepsCatalog(st: RegState, id: string, h: Handle)
    requires CatalogOk(st) && id in st.models
    ensures CatalogOk(Inserted(st, id, h))
  {
  }

  lemma InsertKeepsCache(st: RegState, id: string, h: Handle)
    requires CacheOk(st) && id in st.models && id !in st.cache
    ensures CacheOk(Inserted(st, id, h)) && |Inserted(st, id, h).cacheOrder| == |st.cacheOrder| + 1
  {
    AppendDistinct(st.cacheOrder, id);
    var r := Inserted(st, id, h);
    assert forall i :: 0 <= i < |r.cacheOrder| ==> r.cacheOrder[i] in r.models by {
      assert forall i :: 0 <= i < |st.cacheOrder| ==> st.cacheOrder[i] in st.models;
    }
  }

  lemma InsertKeepsEntries(st: RegState, id: string, h: Handle)
    requires EntriesOk(st) && id in st.models && !NeedsNoWeights(st.models[id].backend)
    requires h == Network(id, st.stats.totalLoaded)
    ensures EntriesOk(Inserted(st, id, h))
  {
  }

  /** Recording a use (status kept, or set to loaded for an in-process model) keeps the invariant. */
  lemma UsedKeepsState(max: nat, st: RegState, id: string, s: ModelStatus)
    requires StateOk(max, st) && id in st.models
    requires s == st.models[id].status || (s == Loaded && NeedsNoWeights(st.models[id].backend))
    ensures StateOk(max, Used(st, id, s))
  {
    UsedKeepsCatalog(st, id, s);
    UsedKeepsCache(st, id, s);
    UsedKeepsEntries(st, id, s);
  }

  lemma UsedKeepsCatalog(st: RegState, id: string, s: ModelStatus)
    requires CatalogOk(st) && id in st.models
    ensures CatalogOk(Used(st, id, s))
  {
  }

  lemma UsedKeepsCache(st: RegState, id: string, s: ModelStatus)
    requires CacheOk(st) && id in st.models
    ensures CacheOk(Used(st, id, s)) && Used(st, id, s).cacheOrder == st.cacheOrder
  {
    var r := Used(st, id, s);
    assert forall i :: 0 <= i < |r.cacheOrder| ==> r.cacheOrder[i] in r.models by {
      assert forall i :: 0 <= i < |st.cacheOrder| ==> st.cacheOrder[i] in st.models;
    }
  }

  lemma UsedKeepsEntries(st: RegState, id: string, s: ModelStatus)
    requires EntriesOk(st) && id in st.models
    requires s == st.models[id].status || (s == Loaded && NeedsNoWeights(st.models[id].backend))
    ensures EntriesOk(Used(st, id, s))
  {
  }

  /** Marking an uncached entry as failed keeps the invariant. */
  lemma FailKeepsState(max: nat, st: RegState, id: string, msg: string)
    requires StateOk(max, st) && id in st.models && id !in st.cache
    ensures StateOk(max, Failed(st, id, msg))
  {
    var r := Failed(st, id, msg);
    assert CatalogOk(r);
    assert CacheOk(r) by {
      assert forall i :: 0 <= i < |st.cacheOrder| ==> st.cacheOrder[i] in st.models;
    }
    assert EntriesOk(r);
  }

  lemma LoadNetworkKeepsState(max: nat, st: RegState, id: string)
    requires StateOk(max, st) && id in st.models && id !in st.cache && !NeedsNoWeights(st.models[id].backend)
    ensures StateOk(max, LoadNetwork(st, id, max).0)
  {
    var room := if |st.cacheOrder| >= max then Evict(st) else st;
    if |st.cacheOrder| >= max {
      EvictKeepsState(max, st);
    }
    InsertKeepsState(max, room, id, Network(id, room.stats.totalLoaded));
  }

  lemma LoadMissKeepsState(st: RegState, id: string, env: LoadEnv, max: nat, arch: set<string>)
    requires StateOk(max, st) && id in st.models && id !in st.cache
    ensures StateOk(max, LoadMiss(st, id, env, max, arch).0)
  {
    var info := st.models[id];
    if NeedsNoWeights(info.backend) {
      UsedKeepsState(max, st, id, Loaded);
    } else if !env.torchAvailable || info.status != Available {
    } else if id !in arch || id in env.unreadable {
      var e := if id !in arch then UnknownArchitecture(id) else UnreadableWeights(id);
      FailKeepsState(max, st, id, LoadErrorText(e));
    } else {
      LoadNetworkKeepsState(max, st, id);
    }
  }

  lemma LoadHitKeepsState(st: RegState, id: string, env: LoadEnv, max: nat, arch: set<string>)
    requires StateOk(max, st) && id in st.models && id in st.cache
    ensures StateOk(max, Load(st, id, env, max, arch).0)
  {
    var hit := st.(stats := st.stats.(hits := st.stats.hits + 1));
    assert Load(st, id, env, max, arch).0 == Used(hit, id, st.models[id].status);
    UsedKeepsState(max, hit, id, st.models[id].status);
  }

  lemma LoadMissedKeepsState(st: RegState, id: string, env: LoadEnv, max: nat, arch: set<string>)
    requires StateOk(max, st) && id in st.models && id !in st.cache
    ensures StateOk(max, Load(st, id, env, max, arch).0)
  {
    var missed := st.(stats := st.stats.(misses := st.stats.misses + 1));
    assert Load(st, id, env, max, arch) == LoadMiss(missed, id, env, max, arch);
    LoadMissKeepsState(missed, id, env, max, arch);
  }

  /** Every load keeps the registry invariant, in particular the cache capacity. */
  lemma {:induction false} LoadKeepsState(st: RegState, id: string, env: LoadEnv, max: nat, arch: set<string>)
    requires StateOk(max, st)
    ensures StateOk(max, Load(st, id, env, max, arch).0)
  {
    if id !in st.models {
      assert Load(st, id, env, max, arch).0 == st;
    } else if id in st.cache {
      LoadHitKeepsState(st, id, env, max, arch);
    } else {
      LoadMissedKeepsState(st, id, env, max, arch);
    }
  }

  /** The entry eviction drops is cached, no more recently used than any other cached entry. */
  lemma EvictDropsLeastRecent(st: RegState)
    requires CacheOk(st) && st.cacheOrder != []
    ensures var victim := st.cacheOrder[LeastRecentIndex(st.cacheOrder, st.models)];
      victim in st.cache && Evict(st).cache == st.cache - {victim} &&
      Evict(st).models == st.models[victim := st.models[victim].(status := Available)] &&
      forall other :: other in st.cache ==> Rank(st.models[victim].lastUsed) <= Rank(st.models[other].lastUsed)
  {
    var k := LeastRecentIndex(st.cacheOrder, st.models);
    forall other | other in st.cache
      ensures Rank(st.models[st.cacheOrder[k]].lastUsed) <= Rank(st.models[other].lastUsed)
    {
      var i :| 0 <= i < |st.cacheOrder| && st.cacheOrder[i] == other;
    }
  }

  /**
   * When a load has to evict, the entry it drops is a cached entry whose
   * last use is no later than that of any other cached entry, and every
   * other cached entry stays.
   */
  lemma {:induction false} EvictionDropsLeastRecent(st: RegState, id: string, env: LoadEnv, max: nat, arch: set<string>)
    requires CacheOk(st) && max >= 1 && id in st.models && id !in st.cache && |st.cacheOrder| >= max
    requires !NeedsNoWeights(st.models[id].backend) && env.torchAvailable
    requires st.models[id].status == Available && id in arch && id !in env.unreadable
    ensures var r := Load(st, id, env, max, arch).0;
      exists victim :: victim in st.cache && victim !in r.cache &&
        r.models[victim].status == Available &&
        (forall other :: other in st.cache ==>
          Rank(st.models[victim].lastUsed) <= Rank(st.models[other].lastUsed)) &&
        r.cache.Keys == st.cache.Keys - {victim} + {id}
  {
    var missed := st.(stats := st.stats.(misses := st.stats.misses + 1));
    EvictDropsLeastRecent(missed);
    var victim := st.cacheOrder[LeastRecentIndex(st.cacheOrder, st.models)];
    var room := Evict(missed);
    LoadAtCapacity(st, id, env, max, arch);
    var r := Load(st, id, env, max, arch).0;
    assert victim != id;
    InsertedAround(room, id, Network(id, room.stats.totalLoaded), victim);
    assert r.cache.Keys == room.cache.Keys + {id};
  }

  /** At capacity, a load that builds a network evicts first and then inserts. */
  lemma LoadAtCapacity(st: RegState, id: string, env: LoadEnv, max: nat, arch: set<string>)
    requires CacheOk(st) && id in st.models && id !in st.cache && |st.cacheOrder| >= max
    requires !NeedsNoWeights(st.models[id].backend) && env.torchAvailable
    requires st.models[id].status == Available && id in arch && id !in env.unreadable
    ensures var room := Evict(st.(stats := st.stats.(misses := st.stats.misses + 1)));
      Load(st, id, env, max, arch).0 == Inserted(room, id, Network(id, room.stats.totalLoaded))
  {
  }

  /** Inserting `id` leaves every other entry as it was and adds `id` to the cache keys. */
  lemma InsertedAround(st: RegState, id: string, h: Handle, other: string)
    requires id in st.models && other in st.models && other != id
    ensures Inserted(st, id, h).models[other] == st.models[other]
    ensures Inserted(st, id, h).cache.Keys == st.cache.Keys + {id}
    ensures other in Inserted(st, id, h).cache <==> other in st.cache
  {
  }

  /** While the cache has room, a load never drops a cached entry. */
  lemma {:induction false} NoEvictionWithRoom(st: RegState, id: string, env: LoadEnv, max: nat, arch: set<string>)
    requires StateOk(max, st) && |st.cacheOrder| < max
    ensures var r := Load(st, id, env, max, arch).0;
      st.cache.Keys <= r.cache.Keys && r.cache.Keys <= st.cache.Keys + {id} &&
      r.stats.evictions == st.stats.evictions
  {
  }

  /** A load that builds a network is followed by a cache hit on the same id, returning that network. */
  lemma {:induction false} LoadedThenHit(st: RegState, id: string, env: LoadEnv, env2: LoadEnv, max: nat, arch: set<string>)
    requires StateOk(max, st)
    requires Load(st, id, env, max, arch).1.Success? && Load(st, id, env, max, arch).1.value.Network?
    ensures var first := Load(st, id, env, max, arch);
      CacheOk(first.0) &&
      var second := Load(first.0, id, env2, max, arch);
      second.1 == first.1 && second.0.stats.hits == first.0.stats.hits + 1 &&
      second.0.cache == first.0.cache
  {
    var first := Load(st, id, env, max, arch);
    LoadKeepsState(st, id, env, max, arch);
    NetworkLoadIsCached(st, id, env, max, arch);
    HitLoad(first.0, id, env2, max, arch);
  }

  /** A load that answers with a network leaves that network cached under the id. */
  lemma NetworkLoadIsCached(st: RegState, id: string, env: LoadEnv, max: nat, arch: set<string>)
    requires StateOk(max, st)
    requires Load(st, id, env, max, arch).1.Success? && Load(st, id, env, max, arch).1.value.Network?
    ensures var first := Load(st, id, env, max, arch);
      id in first.0.models && id in first.0.cache && first.0.cache[id] == first.1.value
  {
    if id !in st.cache {
      var missed := st.(stats := st.stats.(misses := st.stats.misses + 1));
      if |missed.cacheOrder| >= max {
        EvictKeepsState(max, missed);
        RemoveAtDistinct(missed.cacheOrder, LeastRecentIndex(missed.cacheOrder, missed.models));
      }
    }
  }

  /** A load of a cached id answers with the cached handle, counts a hit and leaves the cache alone. */
  lemma HitLoad(st: RegState, id: string, env: LoadEnv, max: nat, arch: set<string>)
    requires CacheOk(st) && id in st.models && id in st.cache
    ensures Load(st, id, env, max, arch).1 == Success(st.cache[id])
    ensures Load(st, id, env, max, arch).0.stats.hits == st.stats.hits + 1
    ensures Load(st, id, env, max, arch).0.cache == st.cache
  {
  }

  /**
   * Every load of a catalogue id is counted exactly once, as a hit when the
   * id is cached and as a miss otherwise; an unknown id is refused and
   * changes nothing, not even a counter.
   */
  lemma LoadCountsOnce(st: RegState, id: string, env: LoadEnv, max: nat, arch: set<string>)
    requires CacheOk(st)
    ensures id !in st.models ==> Load(st, id, env, max, arch) == (st, Failure(UnknownModel(id)))
    ensures id in st.models && id in st.cache ==>
      Load(st, id, env, max, arch).0.stats == st.stats.(hits := st.stats.hits + 1)
    ensures id in st.models && id !in st.cache ==>
      Load(st, id, env, max, arch).0.stats.misses == st.stats.misses + 1 &&
      Load(st, id, env, max, arch).0.stats.hits == st.stats.hits
  {
    if id in st.models && id !in st.cache {
      var missed := st.(stats := st.stats.(misses := st.stats.misses + 1));
      assert Load(st, id, env, max, arch) == LoadMiss(missed, id, env, max, arch);
    }
  }

  /** A model whose load failed stays failed: every later load of it is refused without a change to it. */
  lemma {:induction false} FailedLoadIsSticky(st: RegState, id: string, env: LoadEnv, max: nat, arch: set<string>)
    requires StateOk(max, st) && id in st.models && st.models[id].status == Error
    requires !NeedsNoWeights(st.models[id].backend)
    ensures Load(st, id, env, max, arch).1.Failure?
    ensures Load(st, id, env, max, arch).0.models[id] == st.models[id]
  {
    assert id !in st.cache;
  }

  /** Built-in and OpenCV models are never cached. */
  lemma {:induction false} InProcessNeverCached(st: RegState, id: string, env: LoadEnv, max: nat, arch: set<string>)
    requires StateOk(max, st) && id in st.models && NeedsNoWeights(st.models[id].backend)
    ensures id !in Load(st, id, env, max, arch).0.cache
    ensures Load(st, id, env, max, arch).1 == Success(Sentinel(BackendValue(st.models[id].backend) + "_processor"))
  {
    assert id !in st.cache;
  }

  /**
   * `self.models.update(...)` over the catalogue groups: a later entry with
   * the same id replaces an earlier one but keeps its first position.
   */
  method Combine(catalog: seq<ModelInfo>) returns (ord: seq<string>, ms: map<string, ModelInfo>)
    ensures Distinct(ord)
    ensures forall id :: id in ms <==> id in ord
    ensures forall i :: 0 <= i < |catalog| ==> catalog[i].id in ms
    ensures forall id :: id in ms ==> ms[id].id == id && ms[id] in catalog
    ensures forall i :: 0 <= i < |catalog| ==>
      (forall j :: i < j < |catalog| ==> catalog[j].id != catalog[i].id) ==> ms[catalog[i].id] == catalog[i]
  {
    ord := [];
    ms := map[];
    var i := 0;
    while i < |catalog|
      invariant 0 <= i <= |catalog|
      invariant Distinct(ord)
      invariant forall id :: id in ms <==> id in ord
      invariant forall id :: id in ms ==> ms[id].id == id && ms[id] in catalog[..i]
      invariant forall j :: 0 <= j < i ==> catalog[j].id in ms
      invariant forall j :: 0 <= j < i ==>
        (forall l :: j < l < i ==> catalog[l].id != catalog[j].id) ==> ms[catalog[j].id] == catalog[j]
    {
      var m := catalog[i];
      if m.id !in ms {
        ord := ord + [m.id];
      }
      ms := ms[m.id := m];
      i := i + 1;
    }
    assert catalog[..i] == catalog;
  }

  /** `_check_model_availability`: every entry replaced by its probed form. */
  method CheckAvailability(ord: seq<string>, ms: map<string, ModelInfo>, files: map<string, nat>)
    returns (probed: map<string, ModelInfo>)
    requires forall id :: id in ms <==> id in ord
    ensures probed.Keys == ms.Keys
    ensures forall id :: id in ms ==> probed[id] == Probed(ms[id], files)
  {
    probed := map[];
    var j := 0;
    while j < |ord|
      invariant 0 <= j <= |ord|
      invariant forall id :: id in probed <==> id in ord[..j]
      invariant forall id :: id in probed ==> id in ms && probed[id] == Probed(ms[id], files)
    {
      probed := probed[ord[j] := Probed(ms[ord[j]], files)];
      j := j + 1;
    }
    assert ord[..j] == ord;
  }

  class ModelRegistry {
    const maxCacheSize: nat
    /** Ids for which an architecture is constructed; any other id fails to load. */
    const architectures: set<string>
    /** The catalogue's keys in dict insertion order. */
    var order: seq<string>
    var models: map<string, ModelInfo>
    /** The cache's keys in dict insertion order. */
    var cacheOrder: seq<string>
    var cache: map<string, Handle>
    var stats: CacheStats
    /** The last clock reading handed out. */
    var clock: nat

    function State(): RegState
      reads this
    {
      RegState(order, models, cacheOrder, cache, stats, clock)
    }

    ghost predicate Valid()
      reads this
    {
      StateOk(maxCacheSize, State())
    }

    /**
     * Builds the catalogue and probes every entry against the files on disk
     * (`files` maps each existing path to its size).
     */
    constructor (declared: seq<ModelDecl>, maxCacheSize: nat, architectures: set<string>,
                 files: map<string, nat>)
      requires maxCacheSize >= 1
      ensures Valid()
      ensures this.maxCacheSize == maxCacheSize && this.architectures == architectures
      ensures forall i :: 0 <= i < |declared| ==> declared[i].id in models
      ensures forall id :: id in models ==> exists d :: d in declared && models[id] == Probed(Entry(d), files)
      ensures cache == map[] && cacheOrder == [] && stats == CacheStats(0, 0, 0, 0)
    {
      this.maxCacheSize := maxCacheSize;
      this.architectures := architectures;
      var catalog := Entries(declared);
      var ord, ms := Combine(catalog);
      var probed := CheckAvailability(ord, ms, files);
      ProbedCatalogOk(declared, ord, ms, probed, files, maxCacheSize);
      order := ord;
      models := probed;
      cacheOrder := [];
      cache := map[];
      stats := CacheStats(0, 0, 0, 0);
      clock := 0;
    }

    function GetModelInfo(id: string): (r: Option<ModelInfo>)
      reads this
      requires Valid()
      ensures r.Some? <==> id in order
      ensures r.Some? ==> r.value.id == id
    {
      if id in models then Some(models[id]) else None
    }

    /** `get_registry_stats` (the PyTorch flag is passed in). */
    function Stats(torchAvailable: bool): (s: RegistryStats)
      reads this
      requires Valid()
      ensures s.totalModels == |order|
      ensures s.availableModels == |AvailableModels(order, models, None)| <= s.totalModels
      ensures s.loadedModels == |cacheOrder| <= maxCacheSize
      ensures forall t :: t in s.modelsByType <==>
        exists i :: 0 <= i < |order| && models[order[i]].processorType == t
      ensures forall t :: t in s.modelsByType ==> s.modelsByType[t] == CountType(order, models, t)
      ensures forall b :: b in s.modelsByBackend <==>
        exists i :: 0 <= i < |order| && models[order[i]].backend == b
      ensures forall b :: b in s.modelsByBackend ==> s.modelsByBackend[b] == CountBackend(order, models, b)
      ensures s.cacheStats == stats && s.pytorchAvailable == torchAvailable
    {
      AvailableCountIsListingLength(order, models);
      forall t
        ensures CountType(order, models, t) > 0 <==>
          exists i :: 0 <= i < |order| && models[order[i]].processorType == t
      {
        CountTypePositive(order, models, t);
      }
      forall b
        ensures CountBackend(order, models, b) > 0 <==>
          exists i :: 0 <= i < |order| && models[order[i]].backend == b
      {
        CountBackendPositive(order, models, b);
      }
      RegistryStats(|order|, CountStatus(order, models, Available), |cacheOrder|,
                    TypeCounts(order, models), BackendCounts(order, models), stats, torchAvailable)
    }

    /** Replaces the whole state by `st`. */
    method SetState(st: RegState)
      modifies this
      ensures State() == st
    {
      order, models, cacheOrder, cache, stats, clock := st.order, st.models, st.cacheOrder, st.cache, st.stats, st.clock;
    }

    /** `_evict_least_used`: drops the least recently used cache entry and marks it available. */
    method EvictLeastUsed()
      requires Valid()
      modifies this
      ensures Valid()
      ensures State() == Evict(old(State()))
    {
      EvictKeepsState(maxCacheSize, State());
      SetState(Evict(State()));
    }

    /**
     * `load_model`: a cache hit returns the cached handle; built-in and
     * OpenCV models get a sentinel string; a weight-backed model is built,
     * evicting the least recently used network when the cache is full.
     */
    method LoadModel(id: string, env: LoadEnv) returns (r: Result<Handle, LoadError>)
      requires Valid()
      modifies this
      ensures Valid()
      ensures (State(), r) == Load(old(State()), id, env, maxCacheSize, architectures)
    {
      LoadKeepsState(State(), id, env, maxCacheSize, architectures);
      var out := Load(State(), id, env, maxCacheSize, architectures);
      SetState(out.0);
      r := out.1;
    }
  }

  datatype RegistryStats = RegistryStats(
    totalModels: nat,
    availableModels: nat,
    loadedModels: nat,
    modelsByType: map<ProcessorType, nat>,
    modelsByBackend: map<Backend, nat>,
    cacheStats: CacheStats,
    pytorchAvailable: bool)
}
