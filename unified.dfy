// The unified backend service's own data: its 58-entry catalogue, the ids
// for which a network architecture exists, the processor types each
// backend handler accepts, and the start-up wiring of registry and
// processor.

module Unified {
  import opened Wrappers
  import opened Registry
  import opened Dispatch

  /** `ModelRegistry.max_cache_size`. */
  const MaxCacheSize: nat := 5

  /**
   * The catalogue in the order the dictionaries are merged (edge, depth,
   * lineart, soft edge, scribble, MLSD, normal, segmentation, pose,
   * specialised, additional); weight files live under
   * `models/preprocessors/`.
   */
  const DeclaredRows: seq<ModelDecl> :=
    [
      ModelDecl("builtin_canny", "Built-in Canny Edge Detection", None, EdgeDetection, Builtin, []),
      ModelDecl("opencv_canny", "OpenCV Canny", None, EdgeDetection, OpenCV, ["builtin_canny"]),
      ModelDecl("network-bsds500", "HED Edge Detection", Some("models/preprocessors/network-bsds500.pth"), EdgeDetection, PyTorch, ["opencv_canny", "builtin_canny"]),
      ModelDecl("table5_pidinet", "PiDiNet Edge Detection", Some("models/preprocessors/table5_pidinet.pth"), EdgeDetection, PyTorch, ["opencv_canny", "builtin_canny"]),
      ModelDecl("builtin_depth", "Built-in Depth (JavaScript)", None, DepthEstimation, Builtin, []),
      ModelDecl("dpt_hybrid", "DPT-Hybrid MiDaS", Some("models/preprocessors/dpt_hybrid-midas-501f0c75.pt"), DepthEstimation, PyTorch, ["builtin_depth"]),
      ModelDecl("midas_v21", "MiDaS v2.1", Some("models/preprocessors/midas_v21_384.pt"), DepthEstimation, PyTorch, ["builtin_depth"]),
      ModelDecl("zoedepth", "ZoeDepth", Some("models/preprocessors/ZoeD_M12_N.pt"), DepthEstimation, PyTorch, ["builtin_depth"]),
      ModelDecl("depth_anything", "Depth Anything", Some("models/preprocessors/depth_anything_vitl14.pth"), DepthEstimation, PyTorch, ["builtin_depth"]),
      ModelDecl("depth_anything_v2", "Depth Anything v2", Some("models/preprocessors/depth_anything_v2_vitl.pth"), DepthEstimation, PyTorch, ["depth_anything", "builtin_depth"]),
      ModelDecl("depth_leres", "LeReS Depth", Some("models/preprocessors/res101.pth"), DepthEstimation, PyTorch, ["builtin_depth"]),
      ModelDecl("depth_leres_boost", "LeReS Depth (Boosted)", Some("models/preprocessors/res101.pth"), DepthEstimation, PyTorch, ["depth_leres", "builtin_depth"]),
      ModelDecl("builtin_lineart", "Built-in Lineart", None, Lineart, Builtin, []),
      ModelDecl("lineart_standard", "Standard Lineart", None, Lineart, OpenCV, ["builtin_lineart"]),
      ModelDecl("lineart_realistic", "Realistic Lineart", Some("models/preprocessors/sk_model.pth"), Lineart, PyTorch, ["lineart_standard", "builtin_lineart"]),
      ModelDecl("lineart_coarse", "Coarse Lineart", Some("models/preprocessors/sk_model2.pth"), Lineart, PyTorch, ["lineart_standard", "builtin_lineart"]),
      ModelDecl("lineart_anime", "Anime Lineart", Some("models/preprocessors/netG.pth"), Lineart, PyTorch, ["lineart_standard", "builtin_lineart"]),
      ModelDecl("lineart_anime_denoise", "Anime Lineart (Denoise)", Some("models/preprocessors/erika.pth"), Lineart, PyTorch, ["lineart_anime", "lineart_standard", "builtin_lineart"]),
      ModelDecl("pidinet_softedge", "PiDiNet Soft Edge", Some("models/preprocessors/table5_pidinet.pth"), SoftEdge, PyTorch, ["opencv_canny", "builtin_canny"]),
      ModelDecl("pidinet_safe", "PiDiNet Safe Mode", Some("models/preprocessors/table5_pidinet.pth"), SoftEdge, PyTorch, ["pidinet_softedge", "opencv_canny", "builtin_canny"]),
      ModelDecl("hed_softedge", "HED Soft Edge", Some("models/preprocessors/ControlNetHED.pth"), SoftEdge, PyTorch, ["opencv_canny", "builtin_canny"]),
      ModelDecl("hed_safe", "HED Safe Mode", Some("models/preprocessors/ControlNetHED.pth"), SoftEdge, PyTorch, ["hed_softedge", "opencv_canny", "builtin_canny"]),
      ModelDecl("scribble_hed", "HED Scribble", Some("models/preprocessors/ControlNetHED.pth"), Scribble, PyTorch, ["opencv_canny", "builtin_canny"]),
      ModelDecl("scribble_pidinet", "PiDiNet Scribble", Some("models/preprocessors/table5_pidinet.pth"), Scribble, PyTorch, ["scribble_hed", "opencv_canny", "builtin_canny"]),
      ModelDecl("scribble_xdog", "XDoG Scribble", None, Scribble, OpenCV, ["builtin_canny"]),
      ModelDecl("mlsd", "Mobile Line Segment Detection", Some("models/preprocessors/mlsd_large_512_fp32.pth"), Mlsd, PyTorch, ["opencv_canny", "builtin_canny"]),
      ModelDecl("normal_bae", "Normal BAE", Some("models/preprocessors/scannet.pt"), NormalMap, PyTorch, ["builtin_depth"]),
      ModelDecl("normal_midas", "MiDaS Normal", Some("models/preprocessors/midas_v21_384.pt"), NormalMap, PyTorch, ["normal_bae", "builtin_depth"]),
      ModelDecl("seg_anime_face", "Anime Face Segmentation", Some("models/preprocessors/face_parsing.farl.lapa.main_ema_136500_jit191.pt"), Segmentation, PyTorch, ["builtin_depth"]),
      ModelDecl("seg_ofade20k", "OneFormer ADE20K", Some("models/preprocessors/oneformer_ade20k_dinat_large.pth"), Segmentation, PyTorch, ["builtin_depth"]),
      ModelDecl("seg_ofcoco", "OneFormer COCO", Some("models/preprocessors/oneformer_coco_dinat_large.pth"), Segmentation, PyTorch, ["seg_ofade20k", "builtin_depth"]),
      ModelDecl("seg_ufade20k", "Uniformer Segmentation", Some("models/preprocessors/upernet_global_small.pth"), Segmentation, PyTorch, ["builtin_depth"]),
      ModelDecl("openpose_full", "OpenPose Full (Body+Hand+Face)", Some("models/preprocessors/body_pose_model.pth"), PoseEstimation, PyTorch, ["builtin_depth"]),
      ModelDecl("openpose_face", "OpenPose Face Only", Some("models/preprocessors/facenet.pth"), PoseEstimation, PyTorch, ["builtin_depth"]),
      ModelDecl("openpose_faceonly", "OpenPose Face Only (Optimized)", Some("models/preprocessors/facenet.pth"), PoseEstimation, PyTorch, ["openpose_face", "builtin_depth"]),
      ModelDecl("openpose_hand", "OpenPose Hand Only", Some("models/preprocessors/hand_pose_model.pth"), PoseEstimation, PyTorch, ["builtin_depth"]),
      ModelDecl("dwpose", "DWPose Wholebody", Some("models/preprocessors/yolox_l.onnx"), PoseEstimation, Onnx, ["openpose_full", "builtin_depth"]),
      ModelDecl("animal_openpose", "Animal OpenPose", Some("models/preprocessors/rtmpose-m_simcc-ap10k_pt-aic-coco_210e-256x256-7a041aa1_20230206.onnx"), PoseEstimation, Onnx, ["builtin_depth"]),
      ModelDecl("shuffle", "Content Shuffle", None, Shuffle, OpenCV, []),
      ModelDecl("color", "Color Extraction", None, Color, OpenCV, []),
      ModelDecl("threshold", "Binary Threshold", None, Threshold, OpenCV, []),
      ModelDecl("tile", "Tile Processing", None, Tile, Builtin, []),
      ModelDecl("inpaint_global_harmonious", "Inpaint Global Harmonious", Some("models/preprocessors/big-lama.pt"), Inpaint, PyTorch, ["threshold"]),
      ModelDecl("inpaint_only", "Inpaint Only", None, Inpaint, OpenCV, []),
      ModelDecl("inpaint_only+lama", "Inpaint Only + LaMa", Some("models/preprocessors/big-lama.pt"), Inpaint, PyTorch, ["inpaint_only"]),
      ModelDecl("clip_vision", "CLIP Vision", Some("models/preprocessors/clip_vision_model.safetensors"), ClipVision, SafeTensors, ["color"]),
      ModelDecl("reference_only", "Reference Only", None, Reference, Builtin, []),
      ModelDecl("reference_adain", "Reference AdaIN", None, Reference, Builtin, ["reference_only"]),
      ModelDecl("reference_adain+attn", "Reference AdaIN + Attention", None, Reference, Builtin, ["reference_adain", "reference_only"]),
      ModelDecl("recolor_luminance", "Recolor Luminance", None, Recolor, OpenCV, ["color"]),
      ModelDecl("recolor_intensity", "Recolor Intensity", None, Recolor, OpenCV, ["recolor_luminance", "color"]),
      ModelDecl("revision_clipvision", "Revision CLIP Vision", Some("models/preprocessors/clip_vision_model.safetensors"), Revision, SafeTensors, ["clip_vision", "color"]),
      ModelDecl("revision_ignore_prompt", "Revision Ignore Prompt", None, Revision, Builtin, ["revision_clipvision"]),
      ModelDecl("normal_dsine", "Normal Dsine", Some("models/preprocessors/dsine.pt"), NormalMap, PyTorch, ["normal_bae", "builtin_depth"]),
      ModelDecl("teed", "TEED Edge Detection", Some("models/preprocessors/7_model.pth"), EdgeDetection, PyTorch, ["table5_pidinet", "opencv_canny", "builtin_canny"]),
      ModelDecl("manga_line", "Manga Line", Some("models/preprocessors/erika.pth"), Lineart, PyTorch, ["lineart_anime", "lineart_standard", "builtin_lineart"]),
      ModelDecl("mobile_sam", "Mobile SAM", Some("models/preprocessors/mobile_sam.pt"), Segmentation, PyTorch, ["seg_ofcoco", "builtin_depth"]),
      ModelDecl("sam", "Segment Anything Model", Some("models/preprocessors/sam_vit_h_4b8939.pth"), Segmentation, PyTorch, ["mobile_sam", "seg_ofcoco", "builtin_depth"])
    ]

  /** Ids `load_model` constructs a network for; any other weight-backed id fails to load. */
  const Architectures: set<string> := {
    "dpt_hybrid", "midas_v21", "zoedepth",
    "network-bsds500", "hed_softedge", "hed_safe", "scribble_hed",
    "table5_pidinet", "pidinet_softedge", "pidinet_safe", "scribble_pidinet",
    "depth_anything", "depth_anything_v2", "depth_leres", "depth_leres_boost",
    "lineart_realistic", "lineart_coarse", "lineart_anime", "lineart_anime_denoise",
    "mlsd", "normal_bae", "normal_midas",
    "seg_anime_face", "seg_ofade20k", "seg_ufade20k", "seg_ofcoco"}

  /** What `UnifiedProcessor` dispatches. */
  const UnifiedProfile: Profile := Profile(
    {PyTorch, OpenCV, Builtin, Onnx, SafeTensors},
    {DepthEstimation, EdgeDetection, Lineart, SoftEdge, Scribble, Mlsd, NormalMap, Segmentation},
    {PoseEstimation, Inpaint, ClipVision},
    {Inpaint},
    {EdgeDetection, DepthEstimation, Lineart, SoftEdge, Scribble, Mlsd, NormalMap,
     Color, Shuffle, Threshold, Inpaint, Recolor},
    "All fallback options failed")

  /**
   * The module-level `model_registry` and `unified_processor`: the catalogue
   * probed against the files on disk, an empty cache of capacity 5.
   */
  method NewUnifiedProcessor(files: map<string, nat>) returns (s: Service)
    ensures fresh(s) && fresh(s.registry)
    ensures s.profile == UnifiedProfile && s.registry.Valid()
    ensures s.registry.maxCacheSize == MaxCacheSize && s.registry.architectures == Architectures
    ensures s.registry.cache == map[]
  {
    s := NewService(DeclaredRows, UnifiedProfile, MaxCacheSize, Architectures, files);
  }

  /** A service over a freshly probed catalogue with an empty cache. */
  method NewService(declared: seq<ModelDecl>, profile: Profile, max: nat, architectures: set<string>,
                    files: map<string, nat>) returns (s: Service)
    requires max >= 1
    ensures fresh(s) && fresh(s.registry)
    ensures s.profile == profile && s.registry.Valid()
    ensures s.registry.maxCacheSize == max && s.registry.architectures == architectures
    ensures s.registry.cache == map[]
  {
    var reg := new ModelRegistry(declared, max, architectures, files);
    s := new Service(profile, reg);
  }

  /**
   * The fallback walk never compares processor types: with PyTorch missing,
   * a request for `openpose_full` (a pose model whose only fallback is
   * `builtin_depth`) succeeds with the built-in depth image.
   */
  lemma PoseRequestServedByDepth(st: RegState, env: ProcessEnv)
    requires StateOk(MaxCacheSize, st)
    requires "openpose_full" in st.models && "builtin_depth" in st.models
    requires st.models["openpose_full"].backend == PyTorch
    requires st.models["openpose_full"].processorType == PoseEstimation
    requires st.models["openpose_full"].fallbackModels == ["builtin_depth"]
    requires st.models["builtin_depth"].backend == Builtin
    requires st.models["builtin_depth"].processorType == DepthEstimation
    requires st.models["builtin_depth"].status == Available
    requires !env.load.torchAvailable && ("builtin_depth", Builtin) !in env.failing
    ensures var out := Process(UnifiedProfile, st, Request("openpose_full", None, true, true, {}), env,
                               MaxCacheSize, Architectures);
      out.1.Responded? && out.1.response.success && out.1.response.fallbackUsed &&
      out.1.response.backendUsed == Builtin &&
      out.1.response.image == Some(Rendered("builtin_depth", Builtin, false))
  {
    assert ["builtin_depth"][1..] == [];
  }

  /**
   * Encoding runs after the walk inside the same `try`: when PNG cannot
   * store the fallback's image, the failure reports the fallback's backend
   * and a used fallback.
   */
  lemma EncodeFailureAfterFallback(st: RegState, env: ProcessEnv)
    requires StateOk(MaxCacheSize, st)
    requires "openpose_full" in st.models && "builtin_depth" in st.models
    requires st.models["openpose_full"].backend == PyTorch
    requires st.models["openpose_full"].fallbackModels == ["builtin_depth"]
    requires st.models["builtin_depth"].backend == Builtin
    requires st.models["builtin_depth"].status == Available
    requires !env.load.torchAvailable && ("builtin_depth", Builtin) !in env.failing
    ensures var req := Request("openpose_full", None, true, true, {Rendered("builtin_depth", Builtin, false)});
      var out := Process(UnifiedProfile, st, req, env, MaxCacheSize, Architectures);
      out.1.Responded? && !out.1.response.success && out.1.response.fallbackUsed &&
      out.1.response.backendUsed == Builtin && out.1.response.error == Some(EncodeError)
  {
    assert ["builtin_depth"][1..] == [];
  }
}
