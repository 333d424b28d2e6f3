# CubeStudio preprocessing backend — a Dafny model

CubeStudio is a web studio for image generation. Its backend turns an uploaded
image into a ControlNet control map: edges, a depth map or a pose skeleton.
This project models that preprocessing backend and proves properties of the model.
The model covers the following parts:

- **Unified backend.** `unified_backend_service.py` holds a model registry, a
  catalogue of 58 preprocessors (later entries override earlier ones of the same
  id). Each entry is probed against the files on disk. Networks built from weight
  files sit in a least-recently-used cache of five, with hit and miss counters.
  A dispatcher runs a request on the PyTorch, OpenCV or built-in backend and, on
  failure, walks the model's fallback list. The file also holds the file-name
  sanitiser and the unique-name generator of its image saver, and the
  preview-image endpoint.
- **ControlNet service.** `backend/services/controlnet_service.py` is a second
  registry and dispatcher of the same shape: a cache of three, and edge and depth
  models only.
- **Preprocessor base class.** `base_preprocessor.py` provides parameter
  validation against a schema, model loading, single and batch processing with a
  fallback path, statistics and memory clean-up. It also holds the processor
  registry that creates one instance per id.
- **Concrete processors.** Edge (Canny, HED, Sobel, Laplacian), pose
  (body/hand/face), DWPose (whole body) and depth (MiDaS/DPT/built-in). Each has
  its type detection, default settings and schema, loader, main path, fallback
  and post-processing.
- **Integration layer.** `backend_integration.py` holds the enhanced processor
  manager and the pipeline with its wrapper that falls back to the original API
  function.
- **Services.** `image_service.py` provides the v3 and v2 processing routes.
  `processor_service.py` provides the listing, lookup, category and statistics
  queries over the processor registry.
- **Stand-alone servers.**
  - `backend_model_explorer.py` provides model bucketing, counts and previews.
  - `legacy/backend_model_explorer.py` is its older copy, with a depth processor
    and a FastAPI preprocessing endpoint.
  - `preprocess_server.py` is a Flask server with its own small catalogue.

Pure logic is written as datatypes, functions and lemmas. The parts the source
mutates in place are classes whose methods are proved against those functions:

| class | modelled state |
|---|---|
| `ModelRegistry` | registry state and cache |
| `Service` (dispatcher) | the dispatcher |
| `BasePreprocessor` | a preprocessor |
| `ProcessorRegistry` | the processor registry |
| `EnhancedProcessorManager` | the manager |
| `EnhancedProcessing` | the module-level manager slot |
| `PreprocessorManager` | the Flask manager |
| `ProcessorService.Service` | the processor service |

The source's loops appear as methods with invariants, each tied to the function
that specifies it. These include:

- validation;
- the fallback walk;
- the batch;
- unique names;
- bucketing;
- the skeleton drawing;
- the keypoint list.

Inputs the code obtains from outside are passed in as parameters:

- the files on disk are a set of paths, or a map from path to size in bytes;
- whether PyTorch, CUDA or ONNX Runtime is present;
- whether a loader or a network raises;
- the outcomes of image decoding and encoding;
- the clock, as a counter of uses.

Where a code comment or docstring and the code disagree, the model follows the
code. For example:

- the response's `fallback_used` flag is overwritten by the processor's own
  info on an enhanced success;
- the v2 and v3 routes send `dpt_beit_large_512` and `depth_anything_v2_vitb`
  to different depth paths;
- `refresh_processor_registry` rescans the models without the configuration
  that `__init__` passes.

## Model

| member | source | states |
|---|---|---|
| Registry.Probed | unified_backend_service.py:821-832 | Available exactly when the backend needs no weights or the weight file exists. Otherwise not found, with the "Model file not found" message. An available weight-backed entry gets the file's size. Id, type, backend, fallbacks, path and use history are kept. |
| Registry.ProbeIdempotent | unified_backend_service.py:821-832 | Probing an already probed entry again gives the same status and size. |
| Registry.ProbedEntries | unified_backend_service.py:821-832 | Every probed catalogue entry is a declared one, probed, never used, and either available or not found. |
| Registry.ProbedCatalogOk | unified_backend_service.py:241-251 | The probed catalogue with an empty cache and zero counters satisfies the registry invariant. Every entry is a declared one, probed. |
| Registry.AvailableModels | unified_backend_service.py:838-843 | Every listed entry is a catalogue entry that is available and of the requested type (any type when none is given). Every such entry is listed. |
| Registry.CountStatus | unified_backend_service.py:974-997 | The number of entries with a status never exceeds the catalogue size. |
| Registry.AvailableCountIsListingLength | unified_backend_service.py:974-997 | The available count in the statistics equals the length of the unfiltered available listing. |
| Registry.TypeCounts | unified_backend_service.py:974-997 | A type is a key exactly when some entry has it, and holds the number of entries that do. |
| Registry.BackendCounts | unified_backend_service.py:974-997 | A backend is a key exactly when some entry uses it, and holds the number of entries that do. |
| Registry.CountTypePositive | unified_backend_service.py:974-997 | A type's count is positive exactly when some catalogue entry has that type. |
| Registry.LeastRecentIndex | unified_backend_service.py:964-967 | The victim's last use (never-used counting as earliest) is no later than that of any cached key. It is strictly earlier than that of every key before it, the tie-break Python's `min` applies. |
| Registry.Load | unified_backend_service.py:845-956 | The catalogue's ids and their order are kept. What a load does is stated by the lemmas below. |
| Registry.LoadMiss | unified_backend_service.py:859-956 | A load after a miss keeps the catalogue's ids and order. |
| Registry.LoadNetwork | unified_backend_service.py:940-950 | Caching a freshly built network keeps the catalogue's ids and order. |
| Registry.LoadKeepsState | unified_backend_service.py:845-956 | Every load keeps the registry invariant. In particular, the cache never holds more than its capacity and holds only weight-backed entries marked loaded. |
| Registry.EvictDropsLeastRecent | unified_backend_service.py:958-972 | Eviction removes exactly one cached id and marks it available, and nothing else changes in the catalogue. That id's last use is no later than that of any cached id. |
| Registry.EvictionDropsLeastRecent | unified_backend_service.py:940-941 | A load that must make room drops a cached entry whose last use is no later than any other's and marks it available. Afterwards the cache holds the old keys minus that one, plus the new id. |
| Registry.LoadAtCapacity | unified_backend_service.py:940-943 | At capacity, building a network is a counted miss, then an eviction, then the insertion. |
| Registry.InsertedAround | unified_backend_service.py:943-946 | Caching a network for an id leaves every other entry and its cache membership as they were, and adds the id. |
| Registry.NoEvictionWithRoom | unified_backend_service.py:940-941 | While the cache has room, a load keeps every cached id, adds at most the loaded one, and counts no eviction. |
| Registry.LoadedThenHit | unified_backend_service.py:852-857 | After a load that builds a network, loading the same id again returns that network, counts one hit and leaves the cache alone. |
| Registry.HitLoad | unified_backend_service.py:852-857 | Loading a cached id returns its cached network, counts one hit and leaves the cache as it was. |
| Registry.NetworkLoadIsCached | unified_backend_service.py:943-946 | A load that answers with a network leaves that network cached under its id. |
| Registry.LoadCountsOnce | unified_backend_service.py:847-859 | Every load of a catalogue id is counted exactly once: as a hit when the id is cached, as a miss otherwise. An unknown id is refused and changes nothing, not even a counter. |
| Registry.FailedLoadIsSticky | unified_backend_service.py:872-873 | A weight-backed model whose load failed is refused on every later load, and its entry stays as it was. |
| Registry.InProcessNeverCached | unified_backend_service.py:862-866 | A built-in or OpenCV model is never cached. Its load answers with the backend's sentinel name. |
| Registry.Combine | unified_backend_service.py:804-814 | The merged ids are distinct and cover every declared id. Every entry is a declaration of its own id, and an id declared once keeps that declaration. |
| Registry.CheckAvailability | unified_backend_service.py:821-832 | Every entry, and only those, is replaced by its probed form. |
| Registry.ModelRegistry.constructor | unified_backend_service.py:241-251 | Every declared id is present, each entry is a declaration probed against the files, the cache is empty and the counters are zero. The invariant holds. |
| Registry.ModelRegistry.GetModelInfo | unified_backend_service.py:834-836 | An entry exactly for a catalogue id, and it is that id's entry. |
| Registry.ModelRegistry.Stats | unified_backend_service.py:974-997 | The total, the available count (the listing's length, at most the total) and the loaded count (the cache size, at most the capacity). A type or a backend is a key of its count exactly when some model has it, and the cache counters are passed on. |
| Registry.CountBackendPositive | unified_backend_service.py:987-990 | A backend that some model has is counted at least once. |
| Registry.ModelRegistry.SetState | unified_backend_service.py:845-956 | The registry holds exactly the given state afterwards. |
| Registry.ModelRegistry.EvictLeastUsed | unified_backend_service.py:958-972 | The new state is the eviction of the old one, and the invariant is kept. |
| Registry.ModelRegistry.LoadModel | unified_backend_service.py:845-956 | The new state and the answer are those of `Load`, so every load lemma applies, and the invariant is kept. |
| Dispatch.Pixels | unified_backend_service.py:2017-2047 | The pixel step succeeds exactly when that backend does not raise for that model, and renders that model by that backend. |
| Dispatch.RunOpenCV | unified_backend_service.py:2017-2047 | The OpenCV handler succeeds exactly for the profile's OpenCV processor types when the pixel step does not raise. |
| Dispatch.Run | unified_backend_service.py:1395-1409 | An image is always rendered for the model asked for. A backend the dispatcher lacks fails and changes nothing. |
| Dispatch.RunKeepsState | unified_backend_service.py:1395-1409 | A dispatch keeps the registry invariant. |
| Dispatch.RunStateIsLoadState | unified_backend_service.py:1395-1409 | A dispatch changes the registry only through the load of its PyTorch path, and leaves it unchanged otherwise. |
| Dispatch.TorchStateIsLoadState | unified_backend_service.py:1429-1460 | A PyTorch dispatch changes the registry exactly as a load of the model does when PyTorch is present, and not at all otherwise. |
| Dispatch.Fallback | unified_backend_service.py:1411-1427 | The walk keeps the registry invariant. |
| Dispatch.FallbackSkip | unified_backend_service.py:1414-1417 | A candidate that is missing or not available is skipped, and the walk goes on with the next. |
| Dispatch.FallbackTry | unified_backend_service.py:1419-1425 | An available candidate is dispatched once with its own backend. A success ends the walk with that backend, and a failure goes on from the state the attempt left. |
| Dispatch.Process | unified_backend_service.py:1324-1394 | The request raises exactly for an unknown id or an undecodable image, and then nothing changes. A response always names the requested model, and the invariant is kept. The rendered image is encoded inside the `try`, so an image that cannot be encoded gives a failed response. |
| Dispatch.Encoded | unified_backend_service.py:1355-1356 | The response succeeds exactly when the rendered image can be encoded. It then carries the image, and otherwise the encoder's error. The backend and fallback flag are carried over. |
| Dispatch.RunTorch | unified_backend_service.py:1429-1460 | Without PyTorch, "PyTorch not available" and no change. Otherwise the load's new state, and success exactly when the load yields a handle and: for a type whose handler catches errors, unless a caught error sends inpainting to an OpenCV stand-in that raises; for any other type, when it is a PyTorch type, the handle is a network and the handler does not raise. A success renders the requested model by PyTorch, as a stand-in exactly when a guarded handler caught an error. |
| Dispatch.FallbackRendersCandidate | unified_backend_service.py:1411-1427 | A successful walk returns an image rendered for one of the candidates, paired with that candidate's own backend. The candidate's type is never compared with the request's. |
| Dispatch.FallbackFailureIsExhaustion | unified_backend_service.py:1427 | A walk that fails raises the exhaustion message. |
| Dispatch.FallbackSkipsUnavailable | unified_backend_service.py:1414-1427 | A walk over candidates none of which is available changes nothing and fails with the exhaustion message. |
| Dispatch.SuccessNamesItsRenderer | unified_backend_service.py:1337-1380 | A success without fallback was rendered for the requested model by the primary backend. A success with fallback was rendered for one of the model's fallbacks and reports that fallback's backend. |
| Dispatch.FailureReportsItsBackend | unified_backend_service.py:1337-1393 | A failed response has no image and carries an error. Without fallback it reports the primary backend, and with fallback enabled the error is the exhaustion message or the encoder's. A failure after a fallback was used is the encoder's error, with fallback enabled and the backend of one of the model's fallbacks. |
| Dispatch.DisabledFallbackIsNeverUsed | unified_backend_service.py:1345-1353 | With fallback disabled, no response reports a fallback. |
| Dispatch.LoadedWeightFreeNeverServes | unified_backend_service.py:1414-1417 | A built-in or OpenCV entry marked loaded stays loaded through any walk and never serves it, because it is never cached and so never evicted back to available. |
| Dispatch.TorchDispatchMarksWeightFreeLoaded | unified_backend_service.py:862-866 | A PyTorch dispatch of a built-in or OpenCV model leaves it marked loaded. |
| Dispatch.Service.constructor | unified_backend_service.py:1320-1322 | The processor holds the given registry and profile. |
| Dispatch.Service.ProcessPyTorch | unified_backend_service.py:1429-1460 | The new registry state and the answer are those of `RunTorch`, and the invariant is kept. |
| Dispatch.Service.ProcessWithBackend | unified_backend_service.py:1395-1409 | The new registry state and the answer are those of `Run` for the chosen backend. |
| Dispatch.Service.ProcessWithFallback | unified_backend_service.py:1411-1427 | The loop with early return ends in the state and answer of `Fallback`. |
| Dispatch.Service.ProcessImage | unified_backend_service.py:1324-1394 | The outcome and the new registry state are those of `Process`. |
| Unified.NewUnifiedProcessor | unified_backend_service.py:241-251 | The unified profile over a fresh registry of capacity 5 with an empty cache that satisfies the invariant. |
| Unified.NewService | unified_backend_service.py:1320-1322 | A fresh processor over a freshly probed registry with an empty cache of the given capacity. |
| Unified.EncodeFailureAfterFallback | unified_backend_service.py:1345-1393 | When the fallback's image cannot be encoded, the response fails with the encoder's error, yet reports the fallback as used with its built-in backend. |
| Unified.PoseRequestServedByDepth | unified_backend_service.py:570-578 | Without PyTorch, a request for the pose model `openpose_full` succeeds through its only fallback, the built-in depth model, with the built-in backend. |
| ControlNet.Declared | backend/services/controlnet_service.py:187-256 | Six models. Exactly the PyTorch ones carry a weight file. |
| ControlNet.NewControlNetService | backend/services/controlnet_service.py:382-391 | The ControlNet profile over a fresh registry of capacity three with an empty cache that satisfies the invariant. |
| ControlNet.OnlyThreeBackends | backend/services/controlnet_service.py:455-466 | ONNX and safetensors requests fail for any model and leave the registry alone. |
| ControlNet.OpenCVHandlesEdgeAndDepth | backend/services/controlnet_service.py:591-601 | The OpenCV handler succeeds exactly for edge and depth models whose pixel step does not raise, and never touches the registry. |
| ControlNet.TorchOnSentinelFails | backend/services/controlnet_service.py:485-498 | A PyTorch dispatch of a built-in or OpenCV entry fails: the load yields a sentinel string that neither handler can run. |
| ControlNet.OpenCVDepthParams | backend/services/controlnet_service.py:614-632 | Contrast stays within [0.1, 3.0], brightness within [-1, 1] and smoothing within 0..10, with smoothing 2 when absent. There is a blur exactly when smoothing is positive, with an odd kernel of 3..21. |
| Numeric.SmoothingLevel | backend/services/controlnet_service.py:620 | The truncated value clamped to 0..10: within 0..10, 0 below 1, 10 from 10 on, and the truncation of `x` in between. |
| Numeric.SmoothingKernel | backend/services/controlnet_service.py:626-627 | For positive smoothing `s`, an odd kernel of 3..21 whose radius is `s`. |
| Params.Strip | backend/services/processors/base_preprocessor.py:165-166 | No longer than the text, with no white space at either end, and a text with none at its ends is kept. |
| Params.ParseInt | backend/services/processors/base_preprocessor.py:165-166 | `int()` on a string: a non-empty run of digits parses to its value, and a text that is empty after stripping is rejected. |
| Params.ParseIntOfIntText | backend/services/processors/base_preprocessor.py:165-166 | Parsing the printed form of any integer gives that integer back. |
| Params.ParseIntIgnoresSpace | backend/services/processors/base_preprocessor.py:165-166 | White space added before or after the text does not change what `int()` gives. |
| Params.ParseIntUnderscore | backend/services/processors/base_preprocessor.py:165-166 | `int("1_000")` is 1000. |
| Params.ParseIntSpacedNegative | backend/services/processors/base_preprocessor.py:165-166 | `int(" -5 ")` is -5. |
| Params.ParseIntRefuses | backend/services/processors/base_preprocessor.py:165-166 | `int()` refuses `0.5`, a doubled underscore and a leading underscore. |
| Params.ParseFloat | backend/services/processors/base_preprocessor.py:163-164 | `float()` on a string: a text that is empty after stripping is rejected. |
| Params.ParseIntIsParseFloat | backend/services/processors/base_preprocessor.py:163-166 | Every text `int()` accepts, `float()` accepts with the same value. |
| Params.ParseFloatIgnoresSpace | backend/services/processors/base_preprocessor.py:163-164 | White space added before or after the text does not change what `float()` gives. |
| Params.ParseFloatPoint | backend/services/processors/base_preprocessor.py:163-164 | `float("0.5")` is 0.5. |
| Params.ParseStrippedPoint | backend/services/processors/base_preprocessor.py:163-164 | `float("2.5")` is 2.5. |
| Params.ParseFloatSpaced | backend/services/processors/base_preprocessor.py:163-164 | `float(" 2.5 ")` is 2.5. |
| Params.ParseFloatExponent | backend/services/processors/base_preprocessor.py:163-164 | `float("1e3")` is 1000. |
| Params.ParseFloatFraction | backend/services/processors/base_preprocessor.py:163-164 | `float(".5e-1")` is 0.05. |
| Params.ParseFloatEdges | backend/services/processors/base_preprocessor.py:163-164 | `float("1.")` is accepted, while `float(".")` and `float("e3")` are refused. |
| Params.ToFloat | backend/services/processors/base_preprocessor.py:163-164 | A conversion yields a float: a float stays, an integer or a boolean becomes its value, and a string converts exactly when `float()` accepts it, to that value. `None` is rejected. |
| Params.ToInt | backend/services/processors/base_preprocessor.py:165-166 | A conversion yields an integer: a float truncates toward zero, an integer stays, a boolean is 0 or 1, and a string converts exactly when `int()` accepts it, to that value. `None` is rejected. |
| Params.ToBool | backend/services/processors/base_preprocessor.py:167-168 | Always yields a boolean. |
| Params.ToStr | backend/services/processors/base_preprocessor.py:169-170 | Always yields a string. |
| Params.Convert | backend/services/processors/base_preprocessor.py:158-182 | A number is accepted exactly when it converts and lies within the schema's bounds, and is then the converted value: it is never moved into range. Other kinds give exactly the conversion. |
| Params.BoolWords | backend/services/processors/base_preprocessor.py:167-168 | A `bool` parameter given as a string is true exactly when its lower-case form is one of the true words, so `YES` is true. |
| Params.ValidUnion | backend/services/processors/edge_processor.py:45-77 | Merging two valid default/schema pairs with `dict.update` keeps the defaults valid, provided no earlier default is re-specified by the later schema. |
| Params.ValidateFrom | backend/services/processors/base_preprocessor.py:149-182 | A successful walk keeps every key it started with. |
| Params.ValidatedKeys | backend/services/processors/base_preprocessor.py:141-184 | On success, the keys are exactly the defaults plus the provided keys the schema knows. Unknown keys are dropped. |
| Params.ValidatedValues | backend/services/processors/base_preprocessor.py:149-184 | On success, every known provided key holds its converted value, and every other default is kept as it was. |
| Params.ValidateFromFails | backend/services/processors/base_preprocessor.py:153-182 | The walk fails exactly when some provided key is rejected, and the error names the first such key. |
| Params.ValidateFails | backend/services/processors/base_preprocessor.py:141-184 | Validation fails exactly when some provided key is rejected, and the error names the first such key. |
| Params.UnknownKeysGiveDefaults | backend/services/processors/base_preprocessor.py:153-156 | When the schema knows none of the provided keys, validation gives exactly the defaults. |
| Params.ValidateParameters | backend/services/processors/base_preprocessor.py:141-184 | The loop returns exactly what `Validate` returns. |
| Preprocessor.Load | backend/services/processors/base_preprocessor.py:186-216 | A held model is reused. Otherwise a missing path changes nothing and reports no model. The main path may run exactly when a model is held or the loader returns. An error is counted exactly when the loader raises, and no other counter moves. |
| Preprocessor.NoneModelIsReloaded | backend/services/processors/base_preprocessor.py:197-210 | After a loader returned `None`, the next load calls the loader again, and its outcome counts. |
| Preprocessor.PreprocessShape | backend/services/processors/base_preprocessor.py:229-254 | A grey H×W image gains three channels and an RGBA H×W×4 image loses its alpha. Any other shape is kept. |
| Preprocessor.Single | backend/services/processors/base_preprocessor.py:305-366 | A success has valid parameters, is the main path's image when the model is held and the path produced one, and is the fallback's otherwise. It counts one processed image, and one fallback exactly when used. A failure counts an error and no processed image, and is an invalid-parameter error exactly when validation failed. |
| Preprocessor.Items | backend/services/processors/base_preprocessor.py:385-437 | One entry per item. |
| Preprocessor.ItemsEntries | backend/services/processors/base_preprocessor.py:385-437 | Entry `i` carries index `i`. A failed entry carries its item's image, and a processed one the shared settings, marked as a fallback exactly when the main path did not produce an image. |
| Preprocessor.BatchOnePerInput | backend/services/processors/base_preprocessor.py:367-441 | A batch with valid parameters succeeds with exactly one entry per input, in input order, counting one batch and one processed image per input. Entry `i` carries index `i`, a failed entry carries its original image, and a processed one the validated settings. |
| Preprocessor.Cleanup | backend/services/processors/base_preprocessor.py:442-463 | With `cache_models` nothing changes. Without it, the model is dropped (and marked unloaded when one was held) and the counters are untouched. |
| Preprocessor.SetupDevice | backend/services/processors/base_preprocessor.py:87-97 | `auto` or nothing picks CUDA exactly when it is present, and the CPU otherwise. An explicit device is kept. |
| Preprocessor.BasePreprocessor.constructor | backend/services/processors/base_preprocessor.py:47-85 | The given id, path, caching flag, schema and defaults, the device `SetupDevice` picks, no model and zero counters. |
| Preprocessor.BasePreprocessor.ValidateParameters | backend/services/processors/base_preprocessor.py:128-184 | Returns exactly what `Validate` returns for the instance's schema and defaults. |
| Preprocessor.BasePreprocessor.LoadModel | backend/services/processors/base_preprocessor.py:186-216 | The new state and the answer are those of `Load`. |
| Preprocessor.BasePreprocessor.ProcessSingle | backend/services/processors/base_preprocessor.py:305-366 | The new state and the answer are those of `Single`. |
| Preprocessor.BasePreprocessor.ProcessItem | backend/services/processors/base_preprocessor.py:385-437 | The model is untouched, and the counters and entry are those of one batch step for that index. |
| Preprocessor.BasePreprocessor.ProcessBatch | backend/services/processors/base_preprocessor.py:367-441 | The loop ends in the state and the entries of `Batch`. |
| Preprocessor.BasePreprocessor.CleanupMemory | backend/services/processors/base_preprocessor.py:442-463 | The new state is that of `Cleanup`. |
| Preprocessor.BasePreprocessor.GetStats | backend/services/processors/base_preprocessor.py:464-479 | The counters as stored. The average time is 0 until something is processed, and afterwards the total time divided by the processed count. |
| Preprocessor.Construct | backend/services/processors/base_preprocessor.py:565-575 | Construction fails exactly when a class that pins its model path is given a `model_path` keyword. A pinned class gets no path, and another class gets the path passed. |
| Preprocessor.ProcessorRegistry.constructor | backend/services/processors/base_preprocessor.py:553-556 | No classes and no instances. |
| Preprocessor.ProcessorRegistry.RegisterProcessorClass | backend/services/processors/base_preprocessor.py:557-564 | A preprocessor class is registered under the id, and anything else is refused and changes nothing. The instances are untouched. |
| Preprocessor.ProcessorRegistry.GetProcessor | backend/services/processors/base_preprocessor.py:565-575 | An existing instance is returned as it is. An id with no class, or one whose construction fails, is an error and changes nothing. Otherwise a fresh instance of that class, with its id and path, is stored and returned. |
| Preprocessor.ProcessorRegistry.CleanupAll | backend/services/processors/base_preprocessor.py:576-581 | Every instance ends in the state its own `Cleanup` gives. |
| Integration.ResolveModelPath | backend/services/processors/backend_integration.py:61-71 | A path exactly when the id with every `_builtin` removed names an available entry with a path, and then it is that entry's path. |
| Integration.BuiltinSuffixIgnored | backend/services/processors/backend_integration.py:61-71 | `base_builtin` and `base` resolve to the same path: the one of `base`'s available entry. |
| Integration.CorrectedKeyword | backend/services/processors/backend_integration.py:38-59 | With the keyword passed only to classes that accept it, construction always succeeds, with the resolved path or, for a pinned class, none. |
| Integration.Lift | backend/services/processors/backend_integration.py:73-117 | Success is passed on unchanged, and every failure becomes a `ProcessingError` wrapping it. |
| Integration.EnhancedProcessorManager.constructor | backend/services/processors/backend_integration.py:24-37 | An empty instance cache over the given registry, the path base defaulting to empty, and the given model map. |
| Integration.EnhancedProcessorManager.GetProcessor | backend/services/processors/backend_integration.py:38-59 | Succeeds exactly when the id is cached or the registry can construct it with the resolved path. The instance is then cached in both places. |
| Integration.EnhancedProcessorManager.ProcessImage | backend/services/processors/backend_integration.py:73-117 | An id that cannot be created fails and changes nothing. Otherwise the instance ends in `Single`'s state and the answer is `Single`'s result lifted. Other instances are untouched. |
| Integration.EnhancedProcessorManager.CleanupProcessors | backend/services/processors/backend_integration.py:166-177 | Every registered instance ends in its `Cleanup` state, and the cache is emptied. |
| Integration.CleanupIdempotent | backend/services/processors/backend_integration.py:166-177 | Cleaning up twice is the same as cleaning up once. |
| Integration.Enhanced | backend/services/processors/backend_integration.py:241-256 | Succeeds exactly when decoding, processing and encoding all succeed, with the processing result. |
| Integration.Pipeline | backend/services/processors/backend_integration.py:213-299 | An enhanced success is returned with its info. Without a fallback the enhanced error is raised. With one, the result is a success exactly when the fallback returns (a tuple must be non-empty), giving its value or the tuple's first item, marked as a fallback with the enhanced error. |
| Integration.Wrapper | backend/services/processors/backend_integration.py:312-322 | Without a manager the original is called once and decides. An enhanced success calls it zero times. Never more than twice. |
| Integration.WrapperCallsOriginalTwice | backend/services/processors/backend_integration.py:312-322 | When the enhanced path fails and the original raises (or returns an empty tuple), the original is called a second time and that outcome is what the caller sees. A plain return is used after one call. |
| Integration.EnhancedProcessing.constructor | backend/services/processors/backend_integration.py:197 | No manager at start. |
| Integration.EnhancedProcessing.Initialize | backend/services/processors/backend_integration.py:200-210 | A fresh manager with an empty cache and the given models replaces the old one. |
| Integration.EnhancedProcessing.ProcessWithEnhancedPipeline | backend/services/processors/backend_integration.py:213-299 | A `RuntimeError` without a manager. Otherwise `Pipeline`'s result, calling the fallback exactly once when the enhanced path failed. |
| Integration.EnhancedProcessing.EnhancedWrapper | backend/services/processors/backend_integration.py:312-322 | The answer and the number of calls of the original are those `Wrapper` gives. |
| Integration.EnhancedProcessing.ValidateProcessorParameters | backend/services/processors/backend_integration.py:333-345 | Fails exactly without a manager. Otherwise the validated settings when the processor exists and accepts them, and the parameters unchecked otherwise. |
| Integration.EnhancedProcessing.GetProcessorSchema | backend/services/processors/backend_integration.py:348-360 | Empty without a manager or processor, and the processor's schema otherwise. |
| Integration.EnhancedProcessing.Cleanup | backend/services/processors/backend_integration.py:363-369 | The manager, when there is one, empties its cache and cleans up every instance, and is then dropped. |
| Filenames.ReplaceForbidden | unified_backend_service.py:2444-2450 | Same length, no forbidden character left. Each forbidden character becomes `_` and every other character is kept. |
| Filenames.DropControl | unified_backend_service.py:2444-2450 | No control character is left and none is added. Text without one is unchanged. |
| Filenames.SquashRuns | unified_backend_service.py:2444-2450 | No run of white space or dots is left, and earlier cleaning is kept. Text without one is unchanged. |
| Filenames.StripLeft | unified_backend_service.py:2444-2450 | A suffix of the input starting with none of `. _`. Input that already starts otherwise is unchanged. |
| Filenames.StripRight | unified_backend_service.py:2444-2450 | A prefix of the input ending with none of `. _`. Input that already ends otherwise is unchanged. |
| Filenames.Sanitize | unified_backend_service.py:2444-2450 | Never empty, with no forbidden, control, white-space or dot character, and neither starting nor ending with `.`, ` ` or `_`. |
| Filenames.SanitizeIdempotent | unified_backend_service.py:2444-2450 | Sanitising a sanitised name changes nothing. |
| Filenames.SplitRejoins | unified_backend_service.py:2459-2460 | The name part followed by the extension part gives the base name back. |
| Filenames.FirstFreeIsLowestFree | unified_backend_service.py:2459-2468 | When some numbered candidate below the cap is free, the walk returns the lowest free one, which is not among the existing names. |
| Filenames.UniqueNameIsFree | unified_backend_service.py:2452-2468 | The base name when it is free, and otherwise a name not among the existing ones whenever a free candidate below the cap exists. |
| Filenames.GenerateUniqueFilename | unified_backend_service.py:2452-2468 | The counter loop returns exactly what `UniqueName` returns. |
| Edge.DetermineEdgeType | backend/services/processors/edge_processor.py:32-44 | Compared in lower case, each type exactly: Canny when the id names `canny` or none of the four, HED when it names `hed` but not `canny`, Sobel when `sobel` but neither earlier name, Laplacian when `laplacian` but none of the other three. |
| Edge.CannyIdIsCanny | backend/services/processors/edge_processor.py:370-374 | `canny_builtin` selects Canny. |
| Edge.HedIdIsHed | backend/services/processors/edge_processor.py:377-381 | `hed` selects HED. |
| Edge.SobelIdIsSobel | backend/services/processors/edge_processor.py:384-388 | `sobel_builtin` selects Sobel. |
| Edge.LaplacianIdIsLaplacian | backend/services/processors/edge_processor.py:391-394 | `laplacian_builtin` selects Laplacian. |
| Edge.LaplacianIdNamesOnlyLaplacian | backend/services/processors/edge_processor.py:391-394 | `laplacian_builtin` names `laplacian` and none of `canny`, `hed` or `sobel`. |
| Edge.EdgeTypeIgnoresCase | backend/services/processors/edge_processor.py:32-44 | The case of the id does not change the algorithm. |
| Edge.DefaultKeys | backend/services/processors/edge_processor.py:45-198 | The defaults' keys are the shared keys plus the type's own, and the schema has exactly the same keys. |
| Edge.DefaultsAreValid | backend/services/processors/edge_processor.py:45-198 | Every default passes its own schema entry. |
| Edge.BaseDefaultsAreValid | backend/services/processors/edge_processor.py:45-122 | Every shared default passes its shared schema entry. |
| Edge.SpecificDefaultsAreValid | backend/services/processors/edge_processor.py:56-198 | Every type-specific default passes its type-specific schema entry. |
| Edge.SpecificKeysAreNew | backend/services/processors/edge_processor.py:45-198 | No type-specific schema key re-specifies a shared default. |
| Edge.MainAlgorithm | backend/services/processors/edge_processor.py:228-244 | Each type runs its own detector, except HED, which never runs. |
| Edge.HedDelegatesToCanny | backend/services/processors/edge_processor.py:322-330 | For HED the main path runs the fallback's algorithm. |
| Edge.BuiltinEdgeAlwaysFallsBack | backend/services/processors/edge_processor.py:199-212 | A built-in edge processor holding no model answers every success from the fallback. |
| Edge.EdgeLoaderHoldsNoModel | backend/services/processors/edge_processor.py:199-212 | The edge loader never yields a model, whatever the path. |
| Edge.CannyAperture | backend/services/processors/edge_processor.py:259-261 | Always odd and within 3..7. An odd size in range is kept. |
| Edge.SobelKsize | backend/services/processors/edge_processor.py:288-290 | Always odd and within 1..7. An odd size in range is kept. |
| Edge.BlurKernel | backend/services/processors/edge_processor.py:219-224 | No blur unless the radius is positive. Otherwise an odd kernel wider than the blur's diameter by at most two, and at most 11 for radii up to 5. |
| Edge.Invert | backend/services/processors/edge_processor.py:338-368 | Same size, and bytes stay bytes. |
| Edge.InvertTwice | backend/services/processors/edge_processor.py:338-368 | Inverting twice gives the edge map back. |
| Edge.Postprocess | backend/services/processors/edge_processor.py:338-368 | One pixel per input value, with three equal channels holding the value, or 255 minus it when inversion is asked. |
| Pose.DeterminePoseType | backend/services/processors/pose_processor.py:33-42 | Compared in lower case, each type exactly: body when the id names `body` or neither `hand` nor `face`, hand when it names `hand` but not `body`, face when `face` but neither `body` nor `hand`. |
| Pose.PoseTypeIgnoresCase | backend/services/processors/pose_processor.py:33-42 | The case of the id does not matter. |
| Pose.BodyIdIsBody | backend/services/processors/pose_processor.py:355-359 | `openpose_body` selects body. |
| Pose.HandIdIsHand | backend/services/processors/pose_processor.py:362-366 | `openpose_hand` selects hand. |
| Pose.BuiltinIdIsBody | backend/services/processors/pose_processor.py:369-372 | `openpose_builtin` selects body. |
| Pose.BuiltinIdNamesNoPart | backend/services/processors/pose_processor.py:369-372 | `openpose_builtin` names none of the parts, so body is the default, not a match. |
| Pose.Chain | backend/services/processors/pose_processor.py:60-82 | `hi - lo` links, the `k`-th joining `lo + k` to `lo + k + 1`. |
| Pose.HandConnectionsListed | backend/services/processors/pose_processor.py:60-82 | The hand links, pair by pair, as the source lists them. |
| Pose.HandIsTree | backend/services/processors/pose_processor.py:60-82 | A tree rooted at the wrist: 20 links, each from a lower joint to a higher one within 0..20. Every other joint is the far end of exactly one link, and the four finger roots hang from the wrist. |
| Pose.HandLinksAscend | backend/services/processors/pose_processor.py:60-82 | Every hand link goes from a lower joint to a higher one within 0..20. |
| Pose.HandLinkInverse | backend/services/processors/pose_processor.py:60-82 | `LinkTo` and the far end of a link are inverse to each other. |
| Pose.HandLinkFound | backend/services/processors/pose_processor.py:60-82 | Every joint other than the wrist is the far end of some link. |
| Pose.HandLinkUnique | backend/services/processors/pose_processor.py:60-82 | A link is the one `LinkTo` names for its far end. |
| Pose.HandFarEndsDistinct | backend/services/processors/pose_processor.py:60-82 | Distinct links end at distinct joints. |
| Pose.BodyConnectionsInRange | backend/services/processors/pose_processor.py:46-59 | 29 links, each joining two of the 25 body points. (8, 9) and (9, 10) are listed twice. |
| Pose.JointConnections | backend/services/processors/pose_processor.py:44-84 | Empty exactly for the face, and every link joins two of the 25 points. |
| Pose.DefaultKeys | backend/services/processors/pose_processor.py:86-223 | Eleven shared keys and exactly two more per type, 13 in all. The schema covers the shared keys and the body or hand pair, never the face pair. |
| Pose.BaseDefaultsAreValid | backend/services/processors/pose_processor.py:86-223 | Every shared default passes its schema entry. |
| Pose.SpecificKeysAreNew | backend/services/processors/pose_processor.py:86-223 | Eleven shared keys. Each type adds two keys, none of them shared. |
| Pose.SpecificDefaultsAreValid | backend/services/processors/pose_processor.py:86-223 | The body and hand defaults pass their own schema entries. |
| Pose.DefaultsAreValid | backend/services/processors/pose_processor.py:86-223 | The whole body and hand default maps pass their own schemas. |
| Pose.FaceDefaultsUnchecked | backend/services/processors/pose_processor.py:86-223 | The face defaults do not pass the face schema, which lacks keys they hold. |
| Pose.FaceKeysUnknown | backend/services/processors/pose_processor.py:121-223 | Neither face key is in the face schema. |
| Pose.FaceKeysDropped | backend/services/processors/pose_processor.py:121-223 | Whatever face-key values a caller provides, a face processor validates to exactly its defaults. |
| Pose.PoseLoaderHoldsNoModel | backend/services/processors/pose_processor.py:225-237 | The pose loader never yields a model, whatever the path. |
| Pose.BuiltinPoseAlwaysFallsBack | backend/services/processors/pose_processor.py:369-372 | The built-in pose processor has no model path, so every success comes from the fallback. |
| Depth.DetermineModelType | backend/services/processors/depth_processor.py:33-40 | MiDaS exactly when the lower-cased id names `midas`, DPT exactly when it names `dpt` but not `midas`, and built-in exactly when it names neither. |
| Depth.ModelTypeIgnoresCase | backend/services/processors/depth_processor.py:33-40 | The case of the id does not matter. |
| Depth.MidasIdIsMidas | backend/services/processors/depth_processor.py:307-311 | `midas_v21` selects MiDaS. |
| Depth.DptIdsAreDpt | backend/services/processors/depth_processor.py:314-325 | `dpt_hybrid` and `dpt_beit_large_512` select DPT. |
| Depth.BuiltinIdIsBuiltin | backend/services/processors/depth_processor.py:328-331 | `depth_builtin` selects the built-in algorithm: `depth` has the letters of `dpt`, but not together. |
| Depth.BuiltinIdNamesNoNetwork | backend/services/processors/depth_processor.py:328-331 | `depth_builtin` contains neither `midas` nor `dpt`. |
| Depth.InputSize | backend/services/processors/depth_processor.py:42-49 | 384×384 for both networks, and no fixed size exactly for the built-in algorithm. |
| Depth.DefaultsMatchSchema | backend/services/processors/depth_processor.py:51-119 | The defaults and the schema have the same keys, and each default passes its entry. |
| Depth.PreprocessAccepts | backend/services/processors/depth_processor.py:155-164 | Accepted exactly for H×W, H×W×3 and H×W×4 input, the shapes the shared step turns into H×W×3. |
| Depth.DepthLoader | backend/services/processors/depth_processor.py:121-153 | The built-in type returns no model. A network type returns its network exactly when the loader does not raise. |
| Depth.DepthImpl | backend/services/processors/depth_processor.py:166-178 | Without a model the guard raises. The main path produces a depth map exactly when a model is held and inference does not raise. |
| Depth.BuiltinDepthAlwaysFallsBack | backend/services/processors/depth_processor.py:328-331 | The built-in depth processor has no model path, so every success comes from the fallback. |
| Depth.ModelGuardCountsError | backend/services/processors/depth_processor.py:166-178 | A built-in-type processor given an existing model path "loads" no model. Its main path then raises, counting an error, and the fallback's image is returned. |
| DwPose.DetermineDwPoseType | backend/services/processors/dwpose_processor.py:42-53 | Compared in lower case, each type exactly: whole body when the id names `wholebody` or none of the parts, body when `body` but not `wholebody`, hand when `hand` but neither of those, face when `face` but none of the others. |
| DwPose.DwPoseTypeIgnoresCase | backend/services/processors/dwpose_processor.py:42-53 | The case of the id does not matter. |
| DwPose.WholeBodyIdIsWholeBody | backend/services/processors/dwpose_processor.py:444-448 | `dwpose_wholebody` selects whole body. |
| DwPose.BuiltinIdIsWholeBody | backend/services/processors/dwpose_processor.py:451-454 | `dwpose_builtin` selects whole body. |
| DwPose.BuiltinIdNamesNoPart | backend/services/processors/dwpose_processor.py:451-454 | `dwpose_builtin` names none of the parts, so whole body is the default, not a match. |
| DwPose.ConnectionsInRange | backend/services/processors/dwpose_processor.py:55-90 | Body and whole body give 16 links among 17 points, the hand 20 among 21, and the face none. |
| DwPose.SharedKeys | backend/services/processors/dwpose_processor.py:92-199 | The shared defaults and the schema have the same keys. |
| DwPose.DefaultGroups | backend/services/processors/dwpose_processor.py:92-126 | The defaults are the shared keys plus the body, hand and face groups the type includes: all three for whole body, one for each part. |
| DwPose.BaseDefaultsAreValid | backend/services/processors/dwpose_processor.py:92-199 | The shared defaults pass the schema. |
| DwPose.GroupKeysUnknown | backend/services/processors/dwpose_processor.py:92-199 | The three groups make up the type keys, none of which is in the schema. |
| DwPose.TypeKeysDropped | backend/services/processors/dwpose_processor.py:128-199 | Whatever type-key values a caller provides, validation gives exactly the type's defaults. |
| DwPose.DwLoader | backend/services/processors/dwpose_processor.py:201-236 | Never raises. Yields the sessions exactly when both model files exist and the runtime imports. |
| DwPose.Triples | backend/services/processors/dwpose_processor.py:342-355 | `3n` values, the `i`-th three being keypoint `i`. |
| DwPose.ContourKeypoints | backend/services/processors/dwpose_processor.py:329-357 | 51 values: all zero for fewer than four corners, and otherwise the 17 keypoints of the polygon. |
| DwPose.GenerateKeypoints | backend/services/processors/dwpose_processor.py:329-357 | The list built one keypoint at a time equals `ContourKeypoints`. |
| DwPose.BuiltinPoseData | backend/services/processors/dwpose_processor.py:285-327 | At most one person, and none exactly when no contour qualifies. Each person has 51 values. |
| DwPose.ContourPointsKept | backend/services/processors/dwpose_processor.py:329-390 | Of the 17 points of a polygon with at least four corners, point `i` is kept exactly when the threshold is below 0.8 and the polygon has an `i`-th corner. |
| DwPose.ContourConfidence | backend/services/processors/dwpose_processor.py:342-355 | Keypoint `i` has confidence 0.8 for a corner and 0 past the end. |
| DwPose.KeptPoints | backend/services/processors/dwpose_processor.py:382-390 | One slot per triple. Keypoint `i` is kept, at its pixel position, exactly when its confidence exceeds the threshold. |
| DwPose.ExtractPoints | backend/services/processors/dwpose_processor.py:382-390 | Fails exactly when the values do not split into triples, and otherwise gives `KeptPoints`. |
| DwPose.LinesOf | backend/services/processors/dwpose_processor.py:392-400 | Every line joins the two kept ends of some link, and every link whose ends are both kept is drawn. |
| DwPose.DotsOf | backend/services/processors/dwpose_processor.py:401-405 | Only dots at kept points, and a dot at every kept point. |
| DwPose.RenderMarks | backend/services/processors/dwpose_processor.py:376-407 | The rendering raises exactly when some person is malformed. |
| DwPose.ShortPeopleSkipped | backend/services/processors/dwpose_processor.py:380 | A person with fewer than 51 values adds no marks. |
| DwPose.Render | backend/services/processors/dwpose_processor.py:359-407 | Succeeds exactly when the marks do, with a canvas of the image's size carrying them. |
| DwPose.DrawConnections | backend/services/processors/dwpose_processor.py:392-400 | The connection loop draws exactly `LinesOf`. |
| DwPose.DrawPoints | backend/services/processors/dwpose_processor.py:401-405 | The point loop draws exactly `DotsOf`. |
| DwPose.DrawPerson | backend/services/processors/dwpose_processor.py:378-405 | The marks of one person are exactly `PersonMarks`. |
| DwPose.RenderSkeleton | backend/services/processors/dwpose_processor.py:359-407 | The loop over people returns exactly what `Render` does. |
| DwPose.RenderMarksStep | backend/services/processors/dwpose_processor.py:376-407 | The marks of the first `n + 1` people are those of the first `n` followed by person `n`'s, and an error in either is an error. |
| DwPose.NoMarksAfterMalformed | backend/services/processors/dwpose_processor.py:376-407 | Once a malformed person is reached, the whole rendering raises. |
| DwPose.ImplResult | backend/services/processors/dwpose_processor.py:252-277 | The data exactly for `json`, both exactly for `both`, and the image otherwise. |
| DwPose.PostprocessAsWritten | backend/services/processors/dwpose_processor.py:414-441 | `json` passes through. For an image format, a result passes exactly when it is an image, and then unchanged. |
| DwPose.BuiltinDefaultFormatFails | backend/services/processors/dwpose_processor.py:409-441 | With the default `image` output, the built-in processor as written always fails in post-processing. |
| DwPose.TransparentStaysFourChannel | backend/services/processors/dwpose_processor.py:434 | A transparent background with `image` output passes post-processing as written with four channels. |
| DwPose.Flatten | backend/services/processors/dwpose_processor.py:434-440 | Four channels become three over the named colour. The marks and the size are kept. |
| DwPose.Postprocess | backend/services/processors/dwpose_processor.py:414-441 | `json` is untouched. For an image format, a result passes exactly when it is an image, and an image part never keeps four channels. |
| DwPose.FallbackAlwaysPostprocesses | backend/services/processors/dwpose_processor.py:409-441 | With the corrected fallback, every format's result passes post-processing, and no image part has four channels. |
| DwPose.BuiltinDefaultFormatSucceeds | backend/services/processors/dwpose_processor.py:409-441 | With the corrected fallback, the built-in processor succeeds on its defaults, by way of the fallback. |
| DwPose.FormatDefault | backend/services/processors/dwpose_processor.py:92-126 | Every type's defaults ask for `image` output. |
| Drawing.ColorOf | backend/services/processors/pose_processor.py:239-251 | A byte colour: the table's entry for the lower-cased name, and white for any other name. |
| Drawing.ColorIgnoresCase | backend/services/processors/pose_processor.py:239-251 | The case of a colour name does not matter. |
| Drawing.ColorTableIsBytes | backend/services/processors/dwpose_processor.py:238-250 | Every table colour is a byte triple. |
| Drawing.NewCanvas | backend/services/processors/dwpose_processor.py:363-369 | The given size with no marks. Four channels exactly for the name `transparent`, and otherwise three filled with the named colour. |
| Drawing.CapitalisedTransparentIsWhite | backend/services/processors/dwpose_processor.py:363-369 | `Transparent` gives three channels on white. |
| Drawing.Draw | backend/services/processors/dwpose_processor.py:392-405 | The new marks come after the ones already drawn, and nothing else changes. |
| ImageService.Processed | backend/services/image_service.py:88-113 | An image only for an available processor. It is the built-in function's for a processor that has one, and otherwise the PyTorch depth result for a PyTorch depth id. |
| ImageService.ProcessImageV3 | backend/services/image_service.py:58-151 | HTTP 400 for an unknown processor or an undecodable image. A success uses no fallback, names the processor and carries the image `Processed` gives. |
| ImageService.BuiltinPathChosen | backend/services/image_service.py:92-99 | For an available processor with a built-in function, the PyTorch outcome does not matter. For every other processor, the built-in outcome does not matter. |
| ImageService.NoFallbackServed | backend/services/image_service.py:114-136 | An unavailable processor without a built-in function, or one outside the PyTorch depth ids, gets HTTP 500 on any decodable image. |
| ImageService.ProcessV2 | backend/services/image_service.py:153-209 | Succeeds exactly when the image decodes, the encoding works and the chosen path produces an image. Two ids choose PyTorch depth and every other id built-in depth. A decoding failure becomes an error with its message. |
| ImageService.V2SendsOtherPyTorchIdsToBuiltin | backend/services/image_service.py:176-184 | `dpt_beit_large_512` and `depth_anything_v2_vitb` are PyTorch depth ids for v3, yet v2 ignores the PyTorch outcome for them. |
| ProcessorService.Get | backend/services/processor_service.py:153-174 | A stored configuration of the id, none exactly when no row has it, and the row's configuration when ids are distinct. |
| ProcessorService.ModelSize | backend/services/processor_service.py:55 | The size of the model file under the id without `_builtin`, and 0 when unknown. |
| ProcessorService.BuiltinSizeShared | backend/services/processor_service.py:55 | A built-in variant reports the size of its base model. |
| ProcessorService.GetProcessors | backend/services/processor_service.py:39-59 | One entry per registry row, in order, with the row's id, configuration and model size. |
| ProcessorService.GetProcessorById | backend/services/processor_service.py:153-174 | None exactly for an unknown id. Otherwise that id's row, with its size. |
| ProcessorService.IsProcessorAvailable | backend/services/processor_service.py:176-186 | False for an unknown id. True only for a row marked available, and exactly that flag when ids are distinct. |
| ProcessorService.Select | backend/services/processor_service.py:188-210 | Exactly the rows whose field has the value. |
| ProcessorService.SelectAppend | backend/services/processor_service.py:188-210 | Selection distributes over appending rows, so registry order is kept. |
| ProcessorService.GetProcessorsByCategory | backend/services/processor_service.py:188-210 | Exactly the rows of that category. |
| ProcessorService.GetProcessorsByBackend | backend/services/processor_service.py:212-234 | Exactly the rows of that backend. |
| ProcessorService.GetProcessorCategories | backend/services/processor_service.py:61-88 | Exactly the five keys, each listing exactly the rows of its category. |
| ProcessorService.CategoriesPlaceEachRow | backend/services/processor_service.py:61-88 | A row outside the five categories appears in no list, and one inside appears in its own. |
| ProcessorService.AvailableRows | backend/services/processor_service.py:90-110 | Exactly the rows marked available. |
| ProcessorService.AvailableFiles | backend/services/processor_service.py:90-110 | Exactly the model files marked available. |
| ProcessorService.Rate | backend/services/processor_service.py:90-110 | A percentage within 0..100: 0 for an empty total, otherwise 100 times part over total. |
| ProcessorService.GetProcessorStats | backend/services/processor_service.py:90-110 | The totals and available counts, each available count at most its total. The rates are within 0..100 and 0 for an empty total. |
| ProcessorService.Service.constructor | backend/services/processor_service.py:22-37 | The models come from a scan with the configuration, and the registry is built from them. |
| ProcessorService.Service.Refresh | backend/services/processor_service.py:236-249 | The models are rescanned without the configuration, and the registry is rebuilt from that scan. |
| Explorer.BucketOf | backend_model_explorer.py:96-116 | SD1.5 exactly when the lower-cased subfolder names `sd15`. SDXL exactly when it names `sdxl` or `ilxl` but not `sd15`. |
| Explorer.Sd15TakesPrecedence | backend_model_explorer.py:96-116 | Every subfolder naming `sd15` together with `sdxl` or `ilxl` goes to SD1.5, and `sd15_sdxl_merge` is such a subfolder. |
| Explorer.Bucketed | backend_model_explorer.py:96-116 | Exactly the models of that bucket. |
| Explorer.CategorizePartitions | backend_model_explorer.py:96-116 | The three buckets together hold the input exactly, counting repeats, so their sizes add up to the input size. |
| Explorer.CategorizeModelsByType | backend_model_explorer.py:96-116 | The one-pass loop gives exactly `Categorize`. |
| Explorer.GetModelsInfo | backend_model_explorer.py:164-194 | The three list sizes, and per-bucket counts that add up to the checkpoint total. |
| Explorer.FinalName | backend_model_explorer.py:80-94 | Contains no `/`. |
| Explorer.Suffix | backend_model_explorer.py:197-223 | Empty, or a trailing part of the name made of one dot and at least one more character, with no further dot. |
| Explorer.StemPath | backend_model_explorer.py:80-94 | Followed by the suffix of the final name, it gives the path back. |
| Explorer.FirstPreview | backend_model_explorer.py:80-94 | None exactly when no candidate exists. Otherwise an existing candidate with every earlier candidate missing. |
| Explorer.FindPreviewImage | backend_model_explorer.py:80-94 | The loop gives exactly `FirstPreview` over `.png`, `.jpg`, `.jpeg`. |
| Explorer.GetModelPreview | backend_model_explorer.py:197-223 | An unsafe path is 400, and a safe missing file 404. The file is served exactly when the path is safe, the file exists and its suffix, in lower case, is an image suffix. The media type comes from the suffix. |
| Explorer.UnsafePathNeverServed | backend_model_explorer.py:201-202 | An unsafe path is 400 whatever files exist. |
| Explorer.NoSuffixNotServed | backend_model_explorer.py:197-223 | A file without a suffix is never served, even when it exists. |
| Legacy.ModelConfigs | preprocess_server.py:32-41 | Eight entries: `builtin`, `opencv_canny`, then six file-backed models, none with a path yet. |
| Legacy.ModelConfigIdsDistinct | preprocess_server.py:32-41 | The catalogue ids are distinct. |
| Legacy.Stored | preprocess_server.py:48-51 | The entry keeps its name, type and file. |
| Legacy.Loaded | preprocess_server.py:43-53 | At most one entry per catalogue entry. |
| Legacy.LoadedFromConfigs | preprocess_server.py:43-53 | Every registered id comes from the catalogue. |
| Legacy.LoadedDistinct | preprocess_server.py:43-53 | A catalogue with distinct ids yields a registry with distinct ids. |
| Legacy.LoadedIff | preprocess_server.py:43-53 | A catalogue id is registered exactly when it is built-in or OpenCV or its file exists. |
| Legacy.LoadedStored | preprocess_server.py:48-51 | A registered entry is stored with the path it was found at. |
| Legacy.LoadedEntries | preprocess_server.py:43-53 | Registered exactly when built-in, OpenCV or found, stored with the found path, distinct ids, and nothing outside the catalogue. |
| Legacy.FoundFiles | preprocess_server.py:46-53 | At most the catalogue size. |
| Legacy.Unconditional | preprocess_server.py:44-45 | At most the catalogue size. |
| Legacy.LoadedCount | preprocess_server.py:43-53 | The registry size is the unconditional entries plus the found files. |
| Legacy.HealthCheck | preprocess_server.py:189-196 | The count is the number of registered models, listed in order. |
| Legacy.HealthAfterLoad | preprocess_server.py:189-196 | After loading, the count is two plus the files found, between 2 and 8. |
| Legacy.PreprocessorManager.constructor | preprocess_server.py:26-53 | The registry is exactly the loaded catalogue. |
| Legacy.Threshold | legacy/backend_model_explorer.py:263-267 | A missing threshold is its default. On the Flask server a given one is taken as a number, and anything else fails Canny. On the explorer it goes through `int()`: a string `int()` refuses is a `ValueError` and `None` a `TypeError`. |
| Legacy.ProcessOpenCvCanny | legacy/backend_model_explorer.py:257-270 | Succeeds exactly when the image converts to grey and both thresholds convert (defaulting to 100 and 200), giving Canny with those thresholds. A `ValueError` only comes from the explorer refusing a string threshold. |
| Legacy.ExplorerCannyRefusesText | legacy/backend_model_explorer.py:746-771 | On the explorer a threshold of `abc` is a `ValueError`, which `/api/preprocess` answers as an unsuccessful result, while the Flask server answers an error. |
| Legacy.ExplorerCannyReadsDigits | legacy/backend_model_explorer.py:257-270 | The explorer reads a threshold given as the text `150`, where the Flask server fails. |
| Legacy.ProcessImage | preprocess_server.py:55-75 | On either server, an unregistered id is "Unknown model", and a decoding error passes on. A placeholder comes only from a registered `model` entry with its name, and Canny only for `opencv_canny`. |
| Legacy.FirstWith | preprocess_server.py:60 | The configuration of some row holding the id. |
| Legacy.FirstWithDistinct | preprocess_server.py:60 | In a registry with distinct ids, the lookup gives the row's own configuration. |
| Legacy.BuiltinEntryAlwaysRejected | preprocess_server.py:66-72 | After any load `builtin` is registered, yet asking for it with a decodable image always raises "Unsupported model type: builtin". |
| Legacy.BuiltinEntryLoaded | preprocess_server.py:43-53 | After any load, `builtin` is registered with the built-in type. |
| Legacy.BuiltinTypeRejected | preprocess_server.py:66-72 | Any registered entry of the built-in type other than `opencv_canny` is refused by name. |
| Legacy.FlaskPreprocess | preprocess_server.py:163-187 | 400 exactly when the body or its `image` or `model` key is missing. A 200 carries what the processing produced. A 500 means the processing raised. |
| Legacy.Guarded | legacy/backend_model_explorer.py:750-751 | An empty image or model raises a 400 first, and otherwise the processing outcome stands. |
| Legacy.HandleAsWritten | legacy/backend_model_explorer.py:762-771 | Every exception other than a `ValueError`, the 400 included, becomes HTTP 500 with the prefixed text. |
| Legacy.Handle | legacy/backend_model_explorer.py:762-771 | An `HTTPException` keeps its status and detail, and any other exception is 500. A success answers successfully with the model's name. |
| Legacy.MissingFieldsBecome500 | legacy/backend_model_explorer.py:750-771 | As written, an empty image or model reaches the client as HTTP 500. |
| Legacy.MissingFieldsAre400 | legacy/backend_model_explorer.py:750-751 | As intended, an empty image or model is HTTP 400, whatever the processing would do. |
| Legacy.HandlersAgree | legacy/backend_model_explorer.py:762-771 | With both fields present and no `HTTPException` from processing, the two handlers answer alike. |
| Legacy.ProcessingRaisesNoHttp | preprocess_server.py:55-75 | The processing never raises an `HTTPException`. |
| Legacy.SmoothingOf | legacy/backend_model_explorer.py:553 | Within 0..10, and for a float the clamped truncation. |
| Legacy.ProcessBuiltinDepth | legacy/backend_model_explorer.py:544-576 | Fails exactly when the image cannot be made grey. Contrast is within [0.1, 3.0], brightness within [-1, 1] and smoothing within 0..10. There is a blur of `2s + 1` exactly when smoothing `s` is positive and fits the image. |
| Legacy.AiDepthPlaceholder | legacy/backend_model_explorer.py:578-613 | Fails exactly when the image cannot be made grey. A grey copy for an image under 2×2, and the placeholder with the model's name otherwise. |
| Legacy.ProcessDepth | legacy/backend_model_explorer.py:496-516 | An unknown id is "Unknown depth model", and a decoding error passes on. A placeholder comes from a catalogued AI model on an image of at least 2×2 with its name, the built-in result only for `builtin_depth`, and a grey copy from either. |
| Legacy.EveryDepthModelServed | legacy/backend_model_explorer.py:487-516 | A catalogued depth id fails exactly when the image cannot be made grey. |

## Left out

- Pixel arithmetic is not modelled: OpenCV filters, blurs, colour conversion, resizing, brightness and contrast, and contour area. Images are shapes plus an abstract rendering tag, and the pixel steps are parameters that either yield an image or raise.
- Neural network inference is not modelled (MiDaS, DPT, ZoeDepth, HED, DWPose ONNX sessions, Depth Anything). A loader or an inference is an outcome passed in.
- Base64 decoding and PNG encoding are given as outcomes: a decode either succeeds or raises, and a request names the rendered images the encoder cannot write.
- The pixels of the AI depth placeholder are not modelled.
- Files on disk, the presence of PyTorch, CUDA and ONNX Runtime, and `time.time()` are parameters. The clock that orders cache use is a counter.
- Timing fields (`processing_time`, `scan_time`, averages over time) are not modelled. `GetStats` keeps only the rule that the average is 0 before anything is processed.
- Logging and `print` output are not modelled.
- Concurrency is not modelled: the servers handle one request at a time.
- The `LOADING` status is not modelled, because `load_model` always overwrites it before returning.
- `EnhancedProcessorManager.process_batch`, `get_processor_info` and `get_system_stats` are not modelled, nor is `get_enhanced_processor_registry`. They forward to members that are modelled.
- The enhanced info and statistics of `processor_service.py` (lines 115-151) are not modelled. They only forward to the manager.
- The processor listings of the Flask and legacy servers (`/api/preprocessors`) are not modelled. They only serialise their registries.
- `get_processing_functions` returning a copy is not modelled. Values are immutable here, so a copy is not observable.
- `ImageSaveManager.save_image` is not modelled, apart from its file-name steps, because it is file I/O.
- The value types of the Flask JSON body are not modelled: fields are present or absent strings.
- The text of an `HTTPException` turned into a string is taken as `status: detail`.
- Dispatch.Process: an unknown id or an undecodable image is modelled as a raise with no response, because `backend_used` is unbound when the handler builds its response.
- ProcessorService.Rate: the percentage is a real number, not rounded to the source's decimals.
- ProcessorService.Service.Refresh: the scan is an input, and the model states only that it is made without the configuration.
- Registry.Load: its own ensures states only that the catalogue order is kept. What it does is stated by the lemmas beside it.
- Params.ToFloat: `float()` of a string accepts finite decimal numbers only; `inf`, `nan` and `infinity` are not modelled. Values are exact reals, not rounded to double precision. A float read from a string keeps its stripped text as its printed form. White space is ASCII only, and digits are ASCII digits.
- Params.ParseInt: only ASCII digits and ASCII white space are accepted, where Python's `int()` also accepts other Unicode digits and spaces.
- Text.Lower: folds ASCII letters only, where Python's `str.lower()` folds all of Unicode (U+212A KELVIN SIGN lowers to `k`). The ids and names compared here are ASCII.
- Integration.EnhancedProcessorManager.ProcessImage: the response's `fallback_used` is whatever the processor's info holds, which overwrites the manager's own flag on success. The model follows that.

## Findings

| source | as written | input that shows it | evidently intended | confidence | as-written member | corrected member |
|---|---|---|---|---|---|---|
| backend/services/processors/dwpose_processor.py:434 | The RGBA check tests for a four-dimensional shape, which an H×W×4 image never has, so a transparent canvas is never flattened. | `background_color` `transparent` with `output_format` `image` | An RGBA result is flattened onto a three-channel background | not executed | DwPose.TransparentStaysFourChannel | DwPose.FallbackAlwaysPostprocesses |
| backend/services/processors/dwpose_processor.py:409-441 | The fallback returns pose data (a dictionary), and the image post-processing then reads its shape and raises. | The built-in DWPose processor with its default settings | The fallback yields an image for `image` output | not executed | DwPose.BuiltinDefaultFormatFails | DwPose.BuiltinDefaultFormatSucceeds |
| backend/services/processors/backend_integration.py:38-59 | The manager passes `model_path` to every class, including those whose constructor pins it, which raises `TypeError`. | `canny_builtin` when a model path resolves | The keyword is passed only to classes that take it | not executed | Integration.EnhancedProcessorManager.GetProcessor | Integration.CorrectedKeyword |
| legacy/backend_model_explorer.py:750-771 | The 400 raised for empty fields is caught by the generic handler and re-raised as 500. | A request with an empty `image` or `model` | The client receives HTTP 400 | not executed | Legacy.MissingFieldsBecome500 | Legacy.MissingFieldsAre400 |
