/**
 * The surface of the backend-neutral `GenParams` trait, declared alike in
 * crates/sal-e-api/src/gen_params.rs and crates/sal-e-api/src/lib.rs: what
 * its getters report, what each setter promises, and how the two Stable
 * Diffusion request records carry those parameters.
 */
module SalParams {
  import opened Common
  import SdTxt2Img
  import SdImg2Img
  import Base64
  import ComfyPrompt

  /**
   * What the getters of a `GenParams` report: `seed()`, `steps()`,
   * `count()`, `cfg()`, `width()`, `height()`, `prompt()`,
   * `negative_prompt()`, `denoising()`, `sampler()`, `batch_size()` and
   * `image()`.
   */
  datatype ParamValues = ParamValues(
    seed: Option<i64>,
    steps: Option<u32>,
    count: Option<u32>,
    cfg: Option<Float>,
    width: Option<u32>,
    height: Option<u32>,
    prompt: Option<string>,
    negativePrompt: Option<string>,
    denoising: Option<Float>,
    sampler: Option<string>,
    batchSize: Option<u32>,
    image: Option<seq<u8>>
  )

  /** Nothing reported by any getter. */
  const NoValues: ParamValues :=
    ParamValues(None, None, None, None, None, None, None, None, None, None, None, None)

  /** One call of a scalar setter (`set_seed(v)`, `set_steps(v)`, …) with its argument. */
  datatype Setting =
    | SetSeed(seed: i64)
    | SetSteps(steps: u32)
    | SetCount(count: u32)
    | SetCfg(cfg: Float)
    | SetWidth(width: u32)
    | SetHeight(height: u32)
    | SetPrompt(prompt: string)
    | SetNegativePrompt(negativePrompt: string)
    | SetDenoising(denoising: Float)
    | SetSampler(sampler: string)
    | SetBatchSize(batchSize: u32)

  /** Two settings of the same getter. */
  predicate SameGetter(s: Setting, t: Setting)
  {
    && s.SetSeed? == t.SetSeed? && s.SetSteps? == t.SetSteps? && s.SetCount? == t.SetCount?
    && s.SetCfg? == t.SetCfg? && s.SetWidth? == t.SetWidth? && s.SetHeight? == t.SetHeight?
    && s.SetPrompt? == t.SetPrompt? && s.SetNegativePrompt? == t.SetNegativePrompt?
    && s.SetDenoising? == t.SetDenoising? && s.SetSampler? == t.SetSampler?
    && s.SetBatchSize? == t.SetBatchSize?
  }

  /**
   * What the getter belonging to the setter `s` reports, as a setting of
   * the same kind (the argument of `s` itself is not used).
   */
  function Slot(v: ParamValues, s: Setting): (r: Option<Setting>)
    ensures r.Some? ==> SameGetter(r.value, s)
  {
    match s
    case SetSeed(_) => if v.seed.Some? then Some(SetSeed(v.seed.value)) else None
    case SetSteps(_) => if v.steps.Some? then Some(SetSteps(v.steps.value)) else None
    case SetCount(_) => if v.count.Some? then Some(SetCount(v.count.value)) else None
    case SetCfg(_) => if v.cfg.Some? then Some(SetCfg(v.cfg.value)) else None
    case SetWidth(_) => if v.width.Some? then Some(SetWidth(v.width.value)) else None
    case SetHeight(_) => if v.height.Some? then Some(SetHeight(v.height.value)) else None
    case SetPrompt(_) => if v.prompt.Some? then Some(SetPrompt(v.prompt.value)) else None
    case SetNegativePrompt(_) =>
      if v.negativePrompt.Some? then Some(SetNegativePrompt(v.negativePrompt.value)) else None
    case SetDenoising(_) => if v.denoising.Some? then Some(SetDenoising(v.denoising.value)) else None
    case SetSampler(_) => if v.sampler.Some? then Some(SetSampler(v.sampler.value)) else None
    case SetBatchSize(_) => if v.batchSize.Some? then Some(SetBatchSize(v.batchSize.value)) else None
  }

  /** The getter belonging to the setter `s` reports exactly its argument. */
  predicate Reports(v: ParamValues, s: Setting)
  {
    Slot(v, s) == Some(s)
  }

  /** `a` and `b` report the same for every getter except the one of `s`. */
  predicate AgreeExcept(a: ParamValues, b: ParamValues, s: Setting)
  {
    match s
    case SetSeed(_) => a.(seed := b.seed) == b
    case SetSteps(_) => a.(steps := b.steps) == b
    case SetCount(_) => a.(count := b.count) == b
    case SetCfg(_) => a.(cfg := b.cfg) == b
    case SetWidth(_) => a.(width := b.width) == b
    case SetHeight(_) => a.(height := b.height) == b
    case SetPrompt(_) => a.(prompt := b.prompt) == b
    case SetNegativePrompt(_) => a.(negativePrompt := b.negativePrompt) == b
    case SetDenoising(_) => a.(denoising := b.denoising) == b
    case SetSampler(_) => a.(sampler := b.sampler) == b
    case SetBatchSize(_) => a.(batchSize := b.batchSize) == b
  }

  /**
   * What every getter should report after the setter `s`: its own getter
   * returns the new value and every other getter what it did before.
   */
  function Assign(v: ParamValues, s: Setting): (r: ParamValues)
    ensures Reports(r, s) && AgreeExcept(r, v, s)
  {
    match s
    case SetSeed(x) => v.(seed := Some(x))
    case SetSteps(x) => v.(steps := Some(x))
    case SetCount(x) => v.(count := Some(x))
    case SetCfg(x) => v.(cfg := Some(x))
    case SetWidth(x) => v.(width := Some(x))
    case SetHeight(x) => v.(height := Some(x))
    case SetPrompt(x) => v.(prompt := Some(x))
    case SetNegativePrompt(x) => v.(negativePrompt := Some(x))
    case SetDenoising(x) => v.(denoising := Some(x))
    case SetSampler(x) => v.(sampler := Some(x))
    case SetBatchSize(x) => v.(batchSize := Some(x))
  }

  /** Setting a getter twice keeps the second value; setting two getters commutes. */
  lemma AssignLaws(v: ParamValues, s: Setting, t: Setting)
    ensures SameGetter(s, t) ==> Assign(Assign(v, s), t) == Assign(v, t)
    ensures !SameGetter(s, t) ==> Assign(Assign(v, s), t) == Assign(Assign(v, t), s)
  {
  }

  /**
   * The getter fallback of `Txt2ImgParams` and `Img2ImgParams`: each value
   * is the user's when present, else the defaults', else none.
   */
  function Fallback(user: ParamValues, defaults: Option<ParamValues>): (r: ParamValues)
    ensures defaults.None? ==> r == user
    ensures defaults.Some? ==> r.image == user.image.Or(defaults.value.image)
  {
    if defaults.None? then user
    else
      var d := defaults.value;
      ParamValues(
        user.seed.Or(d.seed), user.steps.Or(d.steps), user.count.Or(d.count), user.cfg.Or(d.cfg),
        user.width.Or(d.width), user.height.Or(d.height), user.prompt.Or(d.prompt),
        user.negativePrompt.Or(d.negativePrompt), user.denoising.Or(d.denoising),
        user.sampler.Or(d.sampler), user.batchSize.Or(d.batchSize), user.image.Or(d.image))
  }

  /** With defaults, every getter reports the user's value when present, else the default's. */
  lemma FallbackSlots(user: ParamValues, defaults: ParamValues)
    ensures forall s :: Slot(Fallback(user, Some(defaults)), s) == Slot(user, s).Or(Slot(defaults, s))
  {
    var r := Fallback(user, Some(defaults));
    forall s
      ensures Slot(r, s) == Slot(user, s).Or(Slot(defaults, s))
    {
      match s
      case SetSeed(_) =>
      case SetSteps(_) =>
      case SetCount(_) =>
      case SetCfg(_) =>
      case SetWidth(_) =>
      case SetHeight(_) =>
      case SetPrompt(_) =>
      case SetNegativePrompt(_) =>
      case SetDenoising(_) =>
      case SetSampler(_) =>
      case SetBatchSize(_) =>
    }
  }

  /** Setting a user value commutes with the fallback: the new value is reported. */
  lemma FallbackAssign(user: ParamValues, defaults: Option<ParamValues>, s: Setting)
    ensures Fallback(Assign(user, s), defaults) == Assign(Fallback(user, defaults), s)
  {
  }

  // The `GenParams` view of the request records of the Stable Diffusion web UI API
  // (crates/sal-e-api/src/lib.rs:351-563, and the same fields in gen_params.rs).

  /**
   * The getters of a `Txt2ImgRequest`: `count` is `n_iter`, `sampler` is
   * `sampler_index`, and there is never an image.
   */
  function Txt2ImgValues(r: SdTxt2Img.Txt2ImgRequest): (v: ParamValues)
    ensures v.count == r.nIter && v.sampler == r.samplerIndex && v.image.None?
  {
    ParamValues(r.seed, r.steps, r.nIter, r.cfgScale, r.width, r.height, r.prompt,
                r.negativePrompt, r.denoisingStrength, r.samplerIndex, r.batchSize, None)
  }

  /** The field of `Txt2ImgRequest` a setter writes. */
  function Txt2ImgTarget(s: Setting): SdTxt2Img.Field
  {
    match s
    case SetSeed(_) => SdTxt2Img.Seed
    case SetSteps(_) => SdTxt2Img.Steps
    case SetCount(_) => SdTxt2Img.NIter
    case SetCfg(_) => SdTxt2Img.CfgScale
    case SetWidth(_) => SdTxt2Img.Width
    case SetHeight(_) => SdTxt2Img.Height
    case SetPrompt(_) => SdTxt2Img.Prompt
    case SetNegativePrompt(_) => SdTxt2Img.NegativePrompt
    case SetDenoising(_) => SdTxt2Img.DenoisingStrength
    case SetSampler(_) => SdTxt2Img.SamplerIndex
    case SetBatchSize(_) => SdTxt2Img.BatchSize
  }

  /** The setters of a `Txt2ImgRequest`: the field becomes `Some(v)`. */
  function Txt2ImgPut(r: SdTxt2Img.Txt2ImgRequest, s: Setting): (r': SdTxt2Img.Txt2ImgRequest)
    ensures Txt2ImgValues(r') == Assign(Txt2ImgValues(r), s)
  {
    match s
    case SetSeed(x) => r.(seed := Some(x))
    case SetSteps(x) => r.(steps := Some(x))
    case SetCount(x) => r.(nIter := Some(x))
    case SetCfg(x) => r.(cfgScale := Some(x))
    case SetWidth(x) => r.(width := Some(x))
    case SetHeight(x) => r.(height := Some(x))
    case SetPrompt(x) => r.(prompt := Some(x))
    case SetNegativePrompt(x) => r.(negativePrompt := Some(x))
    case SetDenoising(x) => r.(denoisingStrength := Some(x))
    case SetSampler(x) => r.(samplerIndex := Some(x))
    case SetBatchSize(x) => r.(batchSize := Some(x))
  }

  /** A setter of a `Txt2ImgRequest` writes its own field and no other. */
  lemma Txt2ImgPutOthers(r: SdTxt2Img.Txt2ImgRequest, s: Setting, f: SdTxt2Img.Field)
    requires f != Txt2ImgTarget(s)
    ensures SdTxt2Img.Get(Txt2ImgPut(r, s), f) == SdTxt2Img.Get(r, f)
  {
  }

  /**
   * The getters of an `Img2ImgRequest`, as for the text-to-image request,
   * except that the image is the last decoded init image.
   */
  function Img2ImgValues(r: SdImg2Img.Img2ImgRequest): (v: ParamValues)
    ensures v.count == r.nIter && v.sampler == r.samplerIndex && v.image == LastImage(r.initImages)
  {
    ParamValues(r.seed, r.steps, r.nIter, r.cfgScale, r.width, r.height, r.prompt,
                r.negativePrompt, r.denoisingStrength, r.samplerIndex, r.batchSize,
                LastImage(r.initImages))
  }

  /** The field of `Img2ImgRequest` a setter writes. */
  function Img2ImgTarget(s: Setting): SdImg2Img.Field
  {
    match s
    case SetSeed(_) => SdImg2Img.Seed
    case SetSteps(_) => SdImg2Img.Steps
    case SetCount(_) => SdImg2Img.NIter
    case SetCfg(_) => SdImg2Img.CfgScale
    case SetWidth(_) => SdImg2Img.Width
    case SetHeight(_) => SdImg2Img.Height
    case SetPrompt(_) => SdImg2Img.Prompt
    case SetNegativePrompt(_) => SdImg2Img.NegativePrompt
    case SetDenoising(_) => SdImg2Img.DenoisingStrength
    case SetSampler(_) => SdImg2Img.SamplerIndex
    case SetBatchSize(_) => SdImg2Img.BatchSize
  }

  /** The setters of an `Img2ImgRequest`: the field becomes `Some(v)`. */
  function Img2ImgPut(r: SdImg2Img.Img2ImgRequest, s: Setting): (r': SdImg2Img.Img2ImgRequest)
    ensures Img2ImgValues(r') == Assign(Img2ImgValues(r), s)
    ensures r'.initImages == r.initImages
  {
    match s
    case SetSeed(x) => r.(seed := Some(x))
    case SetSteps(x) => r.(steps := Some(x))
    case SetCount(x) => r.(nIter := Some(x))
    case SetCfg(x) => r.(cfgScale := Some(x))
    case SetWidth(x) => r.(width := Some(x))
    case SetHeight(x) => r.(height := Some(x))
    case SetPrompt(x) => r.(prompt := Some(x))
    case SetNegativePrompt(x) => r.(negativePrompt := Some(x))
    case SetDenoising(x) => r.(denoisingStrength := Some(x))
    case SetSampler(x) => r.(samplerIndex := Some(x))
    case SetBatchSize(x) => r.(batchSize := Some(x))
  }

  /** A setter of an `Img2ImgRequest` writes its own field and no other. */
  lemma Img2ImgPutOthers(r: SdImg2Img.Img2ImgRequest, s: Setting, f: SdImg2Img.Field)
    requires f != Img2ImgTarget(s)
    ensures SdImg2Img.Get(Img2ImgPut(r, s), f) == SdImg2Img.Get(r, f)
  {
  }

  /**
   * The `user_params` that `From<&dyn GenParams>` builds for text-to-image:
   * the reported values in their fields, every other field left at its
   * default.
   */
  function Txt2ImgFrom(v: ParamValues): (r: SdTxt2Img.Txt2ImgRequest)
    ensures Txt2ImgValues(r) == v.(image := None)
    ensures r.styles.None? && r.samplerName.None? && r.enableHr.None?
  {
    SdTxt2Img.Default().(seed := v.seed, steps := v.steps, nIter := v.count, cfgScale := v.cfg,
      width := v.width, height := v.height, prompt := v.prompt, negativePrompt := v.negativePrompt,
      denoisingStrength := v.denoising, samplerIndex := v.sampler, batchSize := v.batchSize)
  }

  /**
   * The `user_params` that `From<&dyn GenParams>` builds for image-to-image:
   * as for text-to-image; the image is not carried over.
   */
  function Img2ImgFrom(v: ParamValues): (r: SdImg2Img.Img2ImgRequest)
    ensures Img2ImgValues(r) == v.(image := None)
    ensures r.initImages.None? && r.styles.None?
  {
    SdImg2Img.Default().(seed := v.seed, steps := v.steps, nIter := v.count, cfgScale := v.cfg,
      width := v.width, height := v.height, prompt := v.prompt, negativePrompt := v.negativePrompt,
      denoisingStrength := v.denoising, samplerIndex := v.sampler, batchSize := v.batchSize)
  }

  /** Every entry decodes as padded standard Base64. */
  predicate AllDecode(images: seq<string>)
  {
    forall i :: 0 <= i < |images| ==> Base64.Decode(images[i]).Some?
  }

  /**
   * `image()` of an img2img request: every init image is decoded and the
   * last one is returned; no list, an empty list or any undecodable entry
   * gives none.
   */
  function LastImage(initImages: Option<seq<string>>): (r: Option<seq<u8>>)
    ensures r.Some? <==> initImages.Some? && |initImages.value| > 0 && AllDecode(initImages.value)
    ensures r.Some? ==> Base64.Decode(initImages.value[|initImages.value| - 1]) == r
  {
    if initImages.None? then None
    else
      var images := initImages.value;
      if |images| > 0 && AllDecode(images) then Base64.Decode(images[|images| - 1])
      else None
  }

  /**
   * `set_image(Some(b))` (`with_image`) followed by `image()` gives back `b`
   * when every image held before decodes; otherwise `image()` stays none.
   */
  lemma ImageAfterAdd(r: SdImg2Img.Img2ImgRequest, b: seq<u8>)
    ensures AllDecode(SdImg2Img.HeldImages(r)) ==> LastImage(SdImg2Img.AddImage(r, b).initImages) == Some(b)
    ensures !AllDecode(SdImg2Img.HeldImages(r)) ==> LastImage(SdImg2Img.AddImage(r, b).initImages).None?
  {
    SdImg2Img.AddImageGet(r, b);
    var held := SdImg2Img.HeldImages(r);
    var after := SdImg2Img.HeldImages(SdImg2Img.AddImage(r, b));
    assert after == held + [Base64.Encode(b)];
    if AllDecode(held) {
      forall i | 0 <= i < |after|
        ensures Base64.Decode(after[i]).Some?
      {
        if i < |held| {
          assert after[i] == held[i];
        }
      }
    } else {
      var i :| 0 <= i < |held| && Base64.Decode(held[i]).None?;
      assert after[i] == held[i];
    }
  }

  /**
   * The getter extensions of a ComfyUI `Prompt` (`seed()` / `seed_mut()`,
   * `steps()`, …, `LoadImageExt::image_mut`). Which node holds each
   * parameter is decided by the accessor code, which is not part of this
   * model, so the accessors are parameters: `read` gives what the graph's
   * getters report (its `count` and `image` entries are not used), `store`
   * writes one parameter or reports that no node holds it, and `storeImage`
   * sets the file name of the `LoadImage` node or fails with the accessor's
   * error.
   */
  datatype GraphAccess = GraphAccess(
    read: ComfyPrompt.Prompt -> ParamValues,
    store: (ComfyPrompt.Prompt, Setting) -> Option<ComfyPrompt.Prompt>,
    storeImage: (ComfyPrompt.Prompt, string) -> Result<ComfyPrompt.Prompt>
  )

  /**
   * A write into graph `g` that succeeds changes exactly the parameter
   * written: the graph's getters then report what `Assign` says (the count
   * is never written into a graph).
   */
  ghost predicate StoresExactly(acc: GraphAccess, g: ComfyPrompt.Prompt, s: Setting)
  {
    acc.store(g, s).Some? ==> GraphValues(acc, acc.store(g, s).value) == Assign(GraphValues(acc, g), s)
  }

  /** What the getters of graph `g` report; a graph holds no count and no image. */
  function GraphValues(acc: GraphAccess, g: ComfyPrompt.Prompt): (v: ParamValues)
    ensures v.count.None? && v.image.None?
  {
    acc.read(g).(count := None, image := None)
  }
}
