// The ControlNet service's own data: a six-entry catalogue rooted at the
// service's preprocessors directory, a cache of three networks, and a
// dispatcher that knows only the PyTorch, OpenCV and built-in backends.

module ControlNet {
  import opened Wrappers
  import opened Registry
  import opened Dispatch
  import opened Numeric

  /** `ControlNetModelRegistry.max_cache_size`. */
  const MaxCacheSize: nat := 3

  /** `Path(dir) / name`. */
  function Under(dir: string, name: string): string
  {
    dir + "/" + name
  }

  /** The edge models followed by the depth models, as merged into the registry. */
  function Declared(dir: string): (ds: seq<ModelDecl>)
    ensures |ds| == 6
    ensures forall i :: 0 <= i < |ds| ==> (ds[i].backend == PyTorch <==> ds[i].filePath.Some?)
  {
    [ ModelDecl("builtin_canny", "Built-in Canny Edge Detection", None, EdgeDetection, Builtin, []),
      ModelDecl("opencv_canny", "OpenCV Canny", None, EdgeDetection, OpenCV, ["builtin_canny"]),
      ModelDecl("network-bsds500", "HED Edge Detection", Some(Under(dir, "network-bsds500.pth")),
                EdgeDetection, PyTorch, ["opencv_canny", "builtin_canny"]),
      ModelDecl("builtin_depth", "Built-in Depth (JavaScript)", None, DepthEstimation, Builtin, []),
      ModelDecl("dpt_hybrid", "DPT-Hybrid MiDaS", Some(Under(dir, "dpt_hybrid-midas-501f0c75.pt")),
                DepthEstimation, PyTorch, ["builtin_depth"]),
      ModelDecl("midas_v21", "MiDaS v2.1", Some(Under(dir, "midas_v21_384.pt")),
                DepthEstimation, PyTorch, ["builtin_depth"]) ]
  }

  /** Ids the ControlNet `load_model` constructs a network for. */
  const Architectures: set<string> := {"dpt_hybrid", "midas_v21", "network-bsds500"}

  /** What `ControlNetService` dispatches: only depth and edge work has a handler. */
  const ControlNetProfile: Profile := Profile(
    {PyTorch, OpenCV, Builtin},
    {DepthEstimation, EdgeDetection},
    {},
    {},
    {EdgeDetection, DepthEstimation},
    "All ControlNet fallback options failed")

  /** `ControlNetService(preprocessors_path)`: the probed catalogue and an empty cache of three. */
  method NewControlNetService(dir: string, files: map<string, nat>) returns (s: Service)
    ensures fresh(s) && fresh(s.registry)
    ensures s.profile == ControlNetProfile && s.registry.Valid()
    ensures s.registry.maxCacheSize == MaxCacheSize && s.registry.architectures == Architectures
    ensures s.registry.cache == map[]
  {
    var reg := new ModelRegistry(Declared(dir), MaxCacheSize, Architectures, files);
    s := new Service(ControlNetProfile, reg);
  }

  /**
   * ONNX and safetensors requests are refused by this dispatcher whatever
   * the model: the state is left alone and the attempt fails.
   */
  lemma OnlyThreeBackends(st: RegState, info: ModelInfo, b: Backend, env: ProcessEnv, max: nat, arch: set<string>)
    requires CacheOk(st)
    requires b == Onnx || b == SafeTensors
    ensures var out := Run(ControlNetProfile, st, info, b, env, max, arch);
      out.0 == st && out.1.Failure?
  {
  }

  /**
   * The OpenCV handler renders exactly edge and depth models (unless the
   * pixel step itself raises) and never touches the registry.
   */
  lemma OpenCVHandlesEdgeAndDepth(st: RegState, info: ModelInfo, env: ProcessEnv, max: nat, arch: set<string>)
    requires CacheOk(st)
    ensures var out := Run(ControlNetProfile, st, info, OpenCV, env, max, arch);
      out.0 == st &&
      (out.1.Success? <==> (info.processorType == EdgeDetection || info.processorType == DepthEstimation) &&
                           (info.id, OpenCV) !in env.failing)
  {
  }

  /**
   * A PyTorch dispatch of a built-in or OpenCV entry loads it as a
   * sentinel string, which neither the depth nor the edge handler can run.
   */
  lemma TorchOnSentinelFails(st: RegState, info: ModelInfo, env: ProcessEnv, max: nat, arch: set<string>)
    requires StateOk(max, st) && info.id in st.models && NeedsNoWeights(st.models[info.id].backend)
    ensures Run(ControlNetProfile, st, info, PyTorch, env, max, arch).1.Failure?
  {
    assert info.id !in st.cache;
  }

  /**
   * `_opencv_depth_estimation`'s parameters: contrast in [0.1, 3.0],
   * brightness in [-1.0, 1.0], and an integer smoothing level in 0..10
   * whose blur kernel, when there is one, is odd.
   */
  datatype DepthParams = DepthParams(contrast: real, brightness: real, smoothing: int, kernel: Option<int>)

  function OpenCVDepthParams(contrast: Option<real>, brightness: Option<real>, smoothing: Option<real>)
    : (d: DepthParams)
    ensures 0.1 <= d.contrast <= 3.0 && -1.0 <= d.brightness <= 1.0
    ensures 0 <= d.smoothing <= 10
    ensures d.kernel.Some? <==> d.smoothing > 0
    ensures d.kernel.Some? ==> Odd(d.kernel.value) && 3 <= d.kernel.value <= 21
    ensures smoothing.None? ==> d.smoothing == 2 && d.kernel == Some(5)
  {
    var s := SmoothingLevel(smoothing.UnwrapOr(2.0));
    DepthParams(ClampReal(0.1, 3.0, contrast.UnwrapOr(1.2)), ClampReal(-1.0, 1.0, brightness.UnwrapOr(0.1)), s,
                if s > 0 then Some(SmoothingKernel(s)) else None)
  }
}
