// `ImageService`: the v3 decision table that picks a built-in function,
// the PyTorch depth path or an HTTP error for a request, and the v2 route
// that sends two ids to PyTorch depth and every other id to built-in depth.
// The image functions themselves are given by their outcomes; decoding is
// given by its result and encoding by whether it succeeds.
module ImageService {
  import opened Wrappers

  /** A row of the processor registry as far as the service reads it. */
  datatype ProcConfig = ProcConfig(available: bool, backend: string)

  /** What an image function did. */
  datatype FnOutcome = Produced(image: nat) | ProducedNone | Raises(message: string)

  /** The names `__init__` binds to built-in functions. */
  const BuiltinFunctions: set<string> := {"canny_opencv", "depth_builtin", "openpose_builtin"}

  /** The PyTorch processors the service actually implements. */
  const PyTorchDepthIds: set<string> := {"midas_v21", "dpt_hybrid", "dpt_beit_large_512", "depth_anything_v2_vitb"}

  /** A v3 response dictionary. */
  datatype V3Response =
    | V3Ok(image: nat, processorUsed: string, fallbackUsed: bool)
    | V3Error(processorUsed: string, error: string)

  /** What `process_image_v3` does: answer, or raise an `HTTPException`. */
  datatype V3Outcome = Respond(response: V3Response) | Http(status: nat, detail: string)

  /**
   * The branch taken for an available or unavailable processor: the image
   * it produced, or `None` when `fallback_used` is set or the function gave
   * no image.
   */
  function Processed(processor: string, config: ProcConfig,
                     builtin: FnOutcome, pytorch: FnOutcome): (r: Option<nat>)
    ensures r.Some? ==> config.available
    ensures r.Some? && processor in BuiltinFunctions ==> builtin == Produced(r.value)
    ensures r.Some? && processor !in BuiltinFunctions ==>
      config.backend == "pytorch" && processor in PyTorchDepthIds && pytorch == Produced(r.value)
  {
    if config.available && processor in BuiltinFunctions then
      (if builtin.Produced? then Some(builtin.image) else None)
    else if config.available && config.backend == "pytorch" then
      (if processor in PyTorchDepthIds && pytorch.Produced? then Some(pytorch.image) else None)
    else None
  }

  /**
   * `process_image_v3`: an unknown processor or an undecodable image is
   * HTTP 400; a run that did not produce an image is HTTP 500, since no
   * fallback is served; an encoding failure is an error dictionary.
   */
  function ProcessImageV3(processor: string, registry: map<string, ProcConfig>,
                          decoded: Result<nat, string>, builtin: FnOutcome, pytorch: FnOutcome, encodeOk: bool)
    : (r: V3Outcome)
    ensures processor !in registry ==> r == Http(400, "Unknown processor: " + processor)
    ensures processor in registry && decoded.Failure? ==> r == Http(400, decoded.error)
    ensures r.Respond? && r.response.V3Ok? ==>
      && !r.response.fallbackUsed && r.response.processorUsed == processor
      && Processed(processor, registry[processor], builtin, pytorch) == Some(r.response.image)
    ensures r.Respond? ==> processor in registry && decoded.Success? && r.response.processorUsed == processor
    ensures r.Respond? && r.response.V3Error? <==>
      processor in registry && decoded.Success? &&
      Processed(processor, registry[processor], builtin, pytorch).Some? && !encodeOk
  {
    if processor !in registry then Http(400, "Unknown processor: " + processor)
    else if decoded.Failure? then Http(400, decoded.error)
    else
      match Processed(processor, registry[processor], builtin, pytorch)
      case None => Http(500, "Processing failed for " + processor + ". Backend processing is required.")
      case Some(img) =>
        if encodeOk then Respond(V3Ok(img, processor, false)) else Respond(V3Error(processor, "encoding failed"))
  }

  /**
   * The built-in function serves exactly the available processors it
   * names: for them the PyTorch outcome never matters, and for the others
   * the built-in outcome never matters.
   */
  lemma BuiltinPathChosen(processor: string, registry: map<string, ProcConfig>,
                          decoded: Result<nat, string>, builtin: FnOutcome, builtin2: FnOutcome,
                          pytorch: FnOutcome, pytorch2: FnOutcome, encodeOk: bool)
    requires processor in registry
    ensures registry[processor].available && processor in BuiltinFunctions ==>
      ProcessImageV3(processor, registry, decoded, builtin, pytorch, encodeOk) ==
      ProcessImageV3(processor, registry, decoded, builtin, pytorch2, encodeOk)
    ensures !(registry[processor].available && processor in BuiltinFunctions) ==>
      ProcessImageV3(processor, registry, decoded, builtin, pytorch, encodeOk) ==
      ProcessImageV3(processor, registry, decoded, builtin2, pytorch, encodeOk)
  {
  }

  /**
   * An available PyTorch processor outside the implemented depth ids, and
   * any unavailable processor, is answered with HTTP 500 whatever the image
   * functions would have done.
   */
  lemma NoFallbackServed(processor: string, registry: map<string, ProcConfig>,
                         image: nat, builtin: FnOutcome, pytorch: FnOutcome, encodeOk: bool)
    requires processor in registry && processor !in BuiltinFunctions
    requires !registry[processor].available || processor !in PyTorchDepthIds
    ensures ProcessImageV3(processor, registry, Success(image), builtin, pytorch, encodeOk).Http?
    ensures ProcessImageV3(processor, registry, Success(image), builtin, pytorch, encodeOk).status == 500
  {
  }

  /** The ids `process_v2` sends to PyTorch depth. */
  const V2PyTorchIds: set<string> := {"midas_v21", "dpt_hybrid"}

  /** A v2 response dictionary. */
  datatype V2Response = V2Ok(image: nat, modelUsed: string) | V2Error(error: string)

  /**
   * `process_v2`: two ids take the PyTorch depth path and every other id
   * built-in depth; every failure becomes an error dictionary.
   */
  function ProcessV2(modelId: string, decoded: Result<nat, string>, pytorch: FnOutcome, builtin: FnOutcome,
                     encodeOk: bool): (r: V2Response)
    ensures r.V2Ok? <==>
      decoded.Success? && encodeOk && (if modelId in V2PyTorchIds then pytorch.Produced? else builtin.Produced?)
    ensures r.V2Ok? ==>
      r.modelUsed == modelId && r.image == (if modelId in V2PyTorchIds then pytorch.image else builtin.image)
    ensures decoded.Failure? ==> r == V2Error(decoded.error)
  {
    if decoded.Failure? then V2Error(decoded.error)
    else
      var outcome := if modelId in V2PyTorchIds then pytorch else builtin;
      match outcome
      case Raises(m) => V2Error(m)
      case ProducedNone => V2Error("Processing failed - no result")
      case Produced(img) => if encodeOk then V2Ok(img, modelId) else V2Error("encoding failed")
  }

  /**
   * The two routes disagree: `dpt_beit_large_512` and
   * `depth_anything_v2_vitb` reach PyTorch depth through v3 but built-in
   * depth through v2.
   */
  lemma V2SendsOtherPyTorchIdsToBuiltin(modelId: string, decoded: Result<nat, string>, pytorch: FnOutcome,
                                        builtin: FnOutcome, encodeOk: bool)
    requires modelId == "dpt_beit_large_512" || modelId == "depth_anything_v2_vitb"
    ensures modelId in PyTorchDepthIds
    ensures ProcessV2(modelId, decoded, pytorch, builtin, encodeOk) ==
            ProcessV2(modelId, decoded, ProducedNone, builtin, encodeOk)
  {
    assert modelId !in V2PyTorchIds;
  }
}
