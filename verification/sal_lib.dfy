/**
 * The backend adapters of crates/sal-e-api/src/lib.rs: the `GenParams`
 * implementations of the two web UI request records, the graph-holding
 * `ComfyParams` of this file (its fields differ from the one in
 * gen_params.rs), `ComfyPromptApi` and the request choice of
 * `StableDiffusionWebUiApi`.
 *
 * The ComfyUI client (prompt execution, file upload) is a pair of function
 * parameters; the web UI client is not part of this model.
 */
module SalLib {
  import opened Common
  import opened SalParams
  import SdTxt2Img
  import SdImg2Img
  import ComfyPrompt

  /** `impl GenParams for Txt2ImgRequest`: the getters and setters work on the record in place. */
  class Txt2ImgRequestParams {
    var request: SdTxt2Img.Txt2ImgRequest

    constructor(r: SdTxt2Img.Txt2ImgRequest)
      ensures request == r
    {
      request := r;
    }

    /** The getters; the image is always none. */
    function Values(): (v: ParamValues)
      reads this
      ensures v.image.None? && v.count == request.nIter
    {
      Txt2ImgValues(request)
    }

    /** `set_x(v)`: the field becomes `Some(v)`; `set_count` writes `n_iter`. */
    method Set(s: Setting)
      modifies this
      ensures request == Txt2ImgPut(old(request), s)
      ensures Values() == Assign(old(Values()), s)
      ensures s.SetCount? ==> request.nIter == Some(s.count)
    {
      request := Txt2ImgPut(request, s);
    }
  }

  /** `impl GenParams for Img2ImgRequest`. */
  class Img2ImgRequestParams {
    var request: SdImg2Img.Img2ImgRequest

    constructor(r: SdImg2Img.Img2ImgRequest)
      ensures request == r
    {
      request := r;
    }

    /** The getters; the image is the last init image when every one decodes. */
    function Values(): (v: ParamValues)
      reads this
      ensures v.image == LastImage(request.initImages) && v.count == request.nIter
    {
      Img2ImgValues(request)
    }

    /** `set_x(v)`: the field becomes `Some(v)`; the init images are kept. */
    method Set(s: Setting)
      modifies this
      ensures request == Img2ImgPut(old(request), s)
      ensures Values() == Assign(old(Values()), s)
      ensures request.initImages == old(request.initImages)
    {
      request := Img2ImgPut(request, s);
    }

    /**
     * `set_image(Some(b))` appends `b` (`with_image`); `set_image(None)`
     * takes the whole list away. Nothing else changes.
     */
    method SetImage(img: Option<seq<u8>>)
      modifies this
      ensures img.Some? ==> request == SdImg2Img.AddImage(old(request), img.value)
      ensures img.None? ==> request == old(request).(initImages := None)
      ensures Values() == old(Values()).(image := Values().image)
      ensures img.None? ==> Values().image.None?
      ensures img.Some? && AllDecode(SdImg2Img.HeldImages(old(request))) ==> Values().image == img
      ensures img.Some? && !AllDecode(SdImg2Img.HeldImages(old(request))) ==> Values().image.None?
    {
      if img.Some? {
        SdImg2Img.AddImageGet(request, img.value);
        ImageAfterAdd(request, img.value);
        request := SdImg2Img.AddImage(request, img.value);
      } else {
        request := request.(initImages := None);
      }
    }
  }

  /** A snapshot of this file's `ComfyParams`: the workflow graph, the count and the image. */
  datatype ComfyState = ComfyState(prompt: ComfyPrompt.Prompt, count: u32, image: Option<seq<u8>>)

  /** What the getters of a `ComfyParams` in state `st` report. */
  function StateValues(acc: GraphAccess, st: ComfyState): ParamValues
  {
    GraphValues(acc, st.prompt).(count := Some(st.count), image := st.image)
  }

  /**
   * `ComfyParams` of lib.rs: every parameter but the count and the image
   * lives in the graph itself.
   */
  class ComfyParams {
    var prompt: ComfyPrompt.Prompt
    var count: u32
    var image: Option<seq<u8>>

    constructor(st: ComfyState)
      ensures State() == st
    {
      prompt, count, image := st.prompt, st.count, st.image;
    }

    function State(): ComfyState
      reads this
    {
      ComfyState(prompt, count, image)
    }

    /** The getters: the graph's accessors, `Some(count)` and the image held. */
    function Values(acc: GraphAccess): (v: ParamValues)
      reads this
      ensures v.count == Some(count) && v.image == image
      ensures forall s: Setting :: !s.SetCount? ==> Slot(v, s) == Slot(GraphValues(acc, prompt), s)
    {
      StateValues(acc, State())
    }

    /**
     * `set_count` stores the count; every other setter writes through the
     * graph's `_mut` accessor and does nothing when no node holds the
     * parameter (the accessor's error is dropped by `.ok()`).
     */
    method Set(acc: GraphAccess, s: Setting)
      modifies this
      ensures s.SetCount? ==> prompt == old(prompt) && count == s.count
      ensures !s.SetCount? ==> (count == old(count)
        && prompt == acc.store(old(prompt), s).UnwrapOr(old(prompt)))
      ensures image == old(image)
      ensures !s.SetCount? && acc.store(old(prompt), s).None? ==> Values(acc) == old(Values(acc))
      ensures (s.SetCount? || acc.store(old(prompt), s).Some?) && StoresExactly(acc, old(prompt), s)
        ==> Values(acc) == Assign(old(Values(acc)), s)
    {
      if s.SetCount? {
        count := s.count;
      } else {
        match acc.store(prompt, s) {
          case Some(p) => prompt := p;
          case None =>
        }
      }
    }

    /** `set_image`: replaces the image held. */
    method SetImage(img: Option<seq<u8>>)
      modifies this
      ensures prompt == old(prompt) && count == old(count) && image == img
    {
      image := img;
    }
  }

  /** `ComfyPromptApi`: the parameters it holds and its two node hints (the client is left out). */
  datatype ComfyPromptApi = ComfyPromptApi(params: ComfyState, outputNode: Option<string>, promptNode: Option<string>)

  /** `ComfyPromptApi::new`: the template graph, count 1, no image and no node hints. */
  function NewComfyPromptApi(prompt: ComfyPrompt.Prompt): (api: ComfyPromptApi)
    ensures api.params.prompt == prompt && api.outputNode.None? && api.promptNode.None?
  {
    ComfyPromptApi(ComfyState(prompt, 1, None), None, None)
  }

  /** A new adapter reports what its template reports, a count of 1 and no image. */
  lemma NewReportsTemplate(acc: GraphAccess, prompt: ComfyPrompt.Prompt)
    ensures StateValues(acc, NewComfyPromptApi(prompt).params)
      == acc.read(prompt).(count := Some(1), image := None)
  {
  }

  /**
   * The `&dyn GenParams` handed to an adapter, by concrete type: the
   * `ComfyParams` of this file, one of the two web UI request records, or
   * any other implementation.
   */
  datatype GenConfig =
    | ComfyConfig(state: ComfyState)
    | Txt2ImgConfig(txt2img: SdTxt2Img.Txt2ImgRequest)
    | Img2ImgConfig(img2img: SdImg2Img.Img2ImgRequest)
    | OtherConfig

  /** `downcast_ref().unwrap_or(&self.params)`: the config when it is a `ComfyParams`, else the stored params. */
  function ComfyBase(api: ComfyPromptApi, config: GenConfig): (st: ComfyState)
    ensures config.ComfyConfig? ==> st == config.state
    ensures !config.ComfyConfig? ==> st == api.params
  {
    match config
    case ComfyConfig(st) => st
    case _ => api.params
  }

  /** A generation result: the images, the graph they were made from and the parameters used. */
  datatype Response = Response(images: seq<seq<u8>>, params: ComfyPrompt.Prompt, genParams: ComfyState)

  /** Running a graph on the ComfyUI server: the images, or the error. */
  type Execute = ComfyPrompt.Prompt -> Result<seq<seq<u8>>>

  /** Uploading an input image: the name the server stored it under, or the error. */
  type Upload = seq<u8> -> Result<string>

  const ImageRequired: string := "Required image was not provided"
  const UploadFailed: string := "Failed to upload file"

  /** `txt2img`: runs the chosen params' graph as it is and reports it with those params. */
  function Txt2Img(api: ComfyPromptApi, config: GenConfig, execute: Execute): (r: Result<Response>)
    ensures r.Ok? <==> execute(ComfyBase(api, config).prompt).Ok?
    ensures r.Err? ==> r.msg == execute(ComfyBase(api, config).prompt).msg
    ensures r.Ok? ==> (r.value.images == execute(ComfyBase(api, config).prompt).value
      && r.value.params == ComfyBase(api, config).prompt && r.value.genParams == ComfyBase(api, config))
  {
    var base := ComfyBase(api, config);
    match execute(base.prompt)
    case Err(e) => Err(e)
    case Ok(images) => Ok(Response(images, base.prompt, base))
  }

  /**
   * `img2img`: without an image it fails before uploading; otherwise the
   * image is uploaded, a copy of the graph gets the uploaded name in its
   * `LoadImage` node and is run, and the response reports the unpatched
   * graph.
   */
  method Img2Img(api: ComfyPromptApi, config: GenConfig, acc: GraphAccess, upload: Upload, execute: Execute)
    returns (r: Result<Response>)
    ensures r == Img2ImgResult(api, config, acc, upload, execute)
  {
    var base := ComfyBase(api, config);
    if base.image.None? {
      return Err(ImageRequired);
    }
    var resp := upload(base.image.value);
    if resp.Err? {
      return Err(UploadFailed);
    }
    var prompt := base.prompt;
    var patched := acc.storeImage(prompt, resp.value);
    if patched.Err? {
      return Err(patched.msg);
    }
    prompt := patched.value;
    var images := execute(prompt);
    if images.Err? {
      return Err(images.msg);
    }
    return Ok(Response(images.value, base.prompt, base));
  }

  /**
   * What running the patched copy gives, once an image is held and its
   * upload succeeded: the `LoadImage` node names the uploaded file, and a
   * failed patch or run is the error.
   */
  function Img2ImgRun(base: ComfyState, acc: GraphAccess, upload: Upload, execute: Execute): (r: Result<seq<seq<u8>>>)
    requires base.image.Some? && upload(base.image.value).Ok?
    ensures acc.storeImage(base.prompt, upload(base.image.value).value).Err?
      ==> r == Err(acc.storeImage(base.prompt, upload(base.image.value).value).msg)
    ensures acc.storeImage(base.prompt, upload(base.image.value).value).Ok?
      ==> r == execute(acc.storeImage(base.prompt, upload(base.image.value).value).value)
  {
    match acc.storeImage(base.prompt, upload(base.image.value).value)
    case Err(e) => Err(e)
    case Ok(patched) => execute(patched)
  }

  /** Without an image, `img2img` fails the same way whatever the uploader and the server would do. */
  lemma ImageRequiredFirst(api: ComfyPromptApi, config: GenConfig, acc: GraphAccess,
                           upload1: Upload, upload2: Upload, execute1: Execute, execute2: Execute)
    requires ComfyBase(api, config).image.None?
    ensures Img2ImgResult(api, config, acc, upload1, execute1) == Img2ImgResult(api, config, acc, upload2, execute2)
    ensures Img2ImgResult(api, config, acc, upload1, execute1) == Err(ImageRequired)
  {
  }

  /** The whole of `img2img` as a value, for stating laws across calls. */
  function Img2ImgResult(api: ComfyPromptApi, config: GenConfig, acc: GraphAccess, upload: Upload, execute: Execute)
    : (r: Result<Response>)
    ensures ComfyBase(api, config).image.None? ==> r == Err(ImageRequired)
    ensures ComfyBase(api, config).image.Some? && upload(ComfyBase(api, config).image.value).Err?
      ==> r == Err(UploadFailed)
    ensures r.Ok? ==> (r.value.params == ComfyBase(api, config).prompt && r.value.genParams == ComfyBase(api, config)
      && Img2ImgRun(ComfyBase(api, config), acc, upload, execute) == Ok(r.value.images))
    ensures r.Err? && ComfyBase(api, config).image.Some? && upload(ComfyBase(api, config).image.value).Ok?
      ==> Img2ImgRun(ComfyBase(api, config), acc, upload, execute) == Err(r.msg)
  {
    var base := ComfyBase(api, config);
    if base.image.None? then Err(ImageRequired)
    else if upload(base.image.value).Err? then Err(UploadFailed)
    else
      match Img2ImgRun(base, acc, upload, execute)
      case Err(e) => Err(e)
      case Ok(images) => Ok(Response(images, base.prompt, base))
  }

  /** `StableDiffusionWebUiApi`: the stored defaults of both endpoints (the client is left out). */
  datatype WebUiApi = WebUiApi(txt2imgDefaults: SdTxt2Img.Txt2ImgRequest, img2imgDefaults: SdImg2Img.Img2ImgRequest)

  /** The request `txt2img` sends: the config when it is a `Txt2ImgRequest`, else the defaults. */
  function WebUiTxt2ImgRequest(api: WebUiApi, config: GenConfig): (r: SdTxt2Img.Txt2ImgRequest)
    ensures config.Txt2ImgConfig? ==> r == config.txt2img
    ensures !config.Txt2ImgConfig? ==> r == api.txt2imgDefaults
  {
    if config.Txt2ImgConfig? then config.txt2img else api.txt2imgDefaults
  }

  /** The request `img2img` sends: the config when it is an `Img2ImgRequest`, else the defaults. */
  function WebUiImg2ImgRequest(api: WebUiApi, config: GenConfig): (r: SdImg2Img.Img2ImgRequest)
    ensures config.Img2ImgConfig? ==> r == config.img2img
    ensures !config.Img2ImgConfig? ==> r == api.img2imgDefaults
  {
    if config.Img2ImgConfig? then config.img2img else api.img2imgDefaults
  }
}
