/**
 * The image-to-image request of the older client in src/api/img2img.rs and
 * its in-place (`&mut self`) builders; here `with_styles` replaces the list.
 */
module LegacyImg2Img {
  import opened Common
  import opened Records

  /** `Img2ImgRequest` (src/api/img2img.rs:56-101): every field is optional. */
  datatype Img2ImgRequest = Img2ImgRequest(
    initImages: Option<seq<string>>,
    resizeMode: Option<u32>,
    denoisingStrength: Option<Float>,
    imageCfgScale: Option<u32>,
    mask: Option<string>,
    maskBlur: Option<u32>,
    inpaintingFill: Option<u32>,
    inpaintFullRes: Option<bool>,
    inpaintFullResPadding: Option<u32>,
    inpaintingMaskInvert: Option<u32>,
    initialNoiseMultiplier: Option<u32>,
    prompt: Option<string>,
    styles: Option<seq<string>>,
    seed: Option<i64>,
    subseed: Option<i64>,
    subseedStrength: Option<u32>,
    seedResizeFromH: Option<i32>,
    seedResizeFromW: Option<i32>,
    samplerName: Option<string>,
    batchSize: Option<u32>,
    nIter: Option<u32>,
    steps: Option<u32>,
    cfgScale: Option<Float>,
    width: Option<u32>,
    height: Option<u32>,
    restoreFaces: Option<bool>,
    tiling: Option<bool>,
    doNotSaveSamples: Option<bool>,
    doNotSaveGrid: Option<bool>,
    negativePrompt: Option<string>,
    eta: Option<u32>,
    sChurn: Option<Float>,
    sTmax: Option<Float>,
    sTmin: Option<Float>,
    sNoise: Option<Float>,
    overrideSettings: Option<JsonValue>,
    overrideSettingsRestoreAfterwards: Option<bool>,
    scriptArgs: Option<JsonValue>,
    samplerIndex: Option<string>,
    includeInitImages: Option<bool>,
    scriptName: Option<string>,
    sendImages: Option<bool>,
    saveImages: Option<bool>,
    alwaysonScripts: Option<JsonValue>
  )

  /** The fields of `Img2ImgRequest`, one constructor per Rust field. */
  datatype Field =
    | InitImages
    | ResizeMode
    | DenoisingStrength
    | ImageCfgScale
    | Mask
    | MaskBlur
    | InpaintingFill
    | InpaintFullRes
    | InpaintFullResPadding
    | InpaintingMaskInvert
    | InitialNoiseMultiplier
    | Prompt
    | Styles
    | Seed
    | Subseed
    | SubseedStrength
    | SeedResizeFromH
    | SeedResizeFromW
    | SamplerName
    | BatchSize
    | NIter
    | Steps
    | CfgScale
    | Width
    | Height
    | RestoreFaces
    | Tiling
    | DoNotSaveSamples
    | DoNotSaveGrid
    | NegativePrompt
    | Eta
    | SChurn
    | STmax
    | STmin
    | SNoise
    | OverrideSettings
    | OverrideSettingsRestoreAfterwards
    | ScriptArgs
    | SamplerIndex
    | IncludeInitImages
    | ScriptName
    | SendImages
    | SaveImages
    | AlwaysonScripts

  /** The value of field `f` of `r`. */
  function Get(r: Img2ImgRequest, f: Field): Option<FieldValue>
  {
    match f
    case InitImages => TextsOf(r.initImages)
    case ResizeMode => U32Of(r.resizeMode)
    case DenoisingStrength => NumberOf(r.denoisingStrength)
    case ImageCfgScale => U32Of(r.imageCfgScale)
    case Mask => TextOf(r.mask)
    case MaskBlur => U32Of(r.maskBlur)
    case InpaintingFill => U32Of(r.inpaintingFill)
    case InpaintFullRes => FlagOf(r.inpaintFullRes)
    case InpaintFullResPadding => U32Of(r.inpaintFullResPadding)
    case InpaintingMaskInvert => U32Of(r.inpaintingMaskInvert)
    case InitialNoiseMultiplier => U32Of(r.initialNoiseMultiplier)
    case Prompt => TextOf(r.prompt)
    case Styles => TextsOf(r.styles)
    case Seed => I64Of(r.seed)
    case Subseed => I64Of(r.subseed)
    case SubseedStrength => U32Of(r.subseedStrength)
    case SeedResizeFromH => I32Of(r.seedResizeFromH)
    case SeedResizeFromW => I32Of(r.seedResizeFromW)
    case SamplerName => TextOf(r.samplerName)
    case BatchSize => U32Of(r.batchSize)
    case NIter => U32Of(r.nIter)
    case Steps => U32Of(r.steps)
    case CfgScale => NumberOf(r.cfgScale)
    case Width => U32Of(r.width)
    case Height => U32Of(r.height)
    case RestoreFaces => FlagOf(r.restoreFaces)
    case Tiling => FlagOf(r.tiling)
    case DoNotSaveSamples => FlagOf(r.doNotSaveSamples)
    case DoNotSaveGrid => FlagOf(r.doNotSaveGrid)
    case NegativePrompt => TextOf(r.negativePrompt)
    case Eta => U32Of(r.eta)
    case SChurn => NumberOf(r.sChurn)
    case STmax => NumberOf(r.sTmax)
    case STmin => NumberOf(r.sTmin)
    case SNoise => NumberOf(r.sNoise)
    case OverrideSettings => JsonOf(r.overrideSettings)
    case OverrideSettingsRestoreAfterwards => FlagOf(r.overrideSettingsRestoreAfterwards)
    case ScriptArgs => JsonOf(r.scriptArgs)
    case SamplerIndex => TextOf(r.samplerIndex)
    case IncludeInitImages => FlagOf(r.includeInitImages)
    case ScriptName => TextOf(r.scriptName)
    case SendImages => FlagOf(r.sendImages)
    case SaveImages => FlagOf(r.saveImages)
    case AlwaysonScripts => JsonOf(r.alwaysonScripts)
  }

  lemma ExtensionalPart1(a: Img2ImgRequest, b: Img2ImgRequest)
    requires forall f :: Get(a, f) == Get(b, f)
    ensures a.initImages == b.initImages && a.resizeMode == b.resizeMode
  {
    assert Get(a, InitImages) == Get(b, InitImages);
    assert Get(a, ResizeMode) == Get(b, ResizeMode);
  }

  lemma ExtensionalPart2(a: Img2ImgRequest, b: Img2ImgRequest)
    requires forall f :: Get(a, f) == Get(b, f)
    ensures a.denoisingStrength == b.denoisingStrength && a.imageCfgScale == b.imageCfgScale
  {
    assert Get(a, DenoisingStrength) == Get(b, DenoisingStrength);
    assert Get(a, ImageCfgScale) == Get(b, ImageCfgScale);
  }

  lemma ExtensionalPart3(a: Img2ImgRequest, b: Img2ImgRequest)
    requires forall f :: Get(a, f) == Get(b, f)
    ensures a.mask == b.mask && a.maskBlur == b.maskBlur
  {
    assert Get(a, Mask) == Get(b, Mask);
    assert Get(a, MaskBlur) == Get(b, MaskBlur);
  }

  lemma ExtensionalPart4(a: Img2ImgRequest, b: Img2ImgRequest)
    requires forall f :: Get(a, f) == Get(b, f)
    ensures a.inpaintingFill == b.inpaintingFill && a.inpaintFullRes == b.inpaintFullRes
  {
    assert Get(a, InpaintingFill) == Get(b, InpaintingFill);
    assert Get(a, InpaintFullRes) == Get(b, InpaintFullRes);
  }

  lemma ExtensionalPart5(a: Img2ImgRequest, b: Img2ImgRequest)
    requires forall f :: Get(a, f) == Get(b, f)
    ensures a.inpaintFullResPadding == b.inpaintFullResPadding && a.inpaintingMaskInvert == b.inpaintingMaskInvert
  {
    assert Get(a, InpaintFullResPadding) == Get(b, InpaintFullResPadding);
    assert Get(a, InpaintingMaskInvert) == Get(b, InpaintingMaskInvert);
  }

  lemma ExtensionalPart6(a: Img2ImgRequest, b: Img2ImgRequest)
    requires forall f :: Get(a, f) == Get(b, f)
    ensures a.initialNoiseMultiplier == b.initialNoiseMultiplier && a.prompt == b.prompt
  {
    assert Get(a, InitialNoiseMultiplier) == Get(b, InitialNoiseMultiplier);
    assert Get(a, Prompt) == Get(b, Prompt);
  }

  lemma ExtensionalPart7(a: Img2ImgRequest, b: Img2ImgRequest)
    requires forall f :: Get(a, f) == Get(b, f)
    ensures a.styles == b.styles && a.seed == b.seed
  {
    assert Get(a, Styles) == Get(b, Styles);
    assert Get(a, Seed) == Get(b, Seed);
  }

  lemma ExtensionalPart8(a: Img2ImgRequest, b: Img2ImgRequest)
    requires forall f :: Get(a, f) == Get(b, f)
    ensures a.subseed == b.subseed && a.subseedStrength == b.subseedStrength
  {
    assert Get(a, Subseed) == Get(b, Subseed);
    assert Get(a, SubseedStrength) == Get(b, SubseedStrength);
  }

  lemma ExtensionalPart9(a: Img2ImgRequest, b: Img2ImgRequest)
    requires forall f :: Get(a, f) == Get(b, f)
    ensures a.seedResizeFromH == b.seedResizeFromH && a.seedResizeFromW == b.seedResizeFromW
  {
    assert Get(a, SeedResizeFromH) == Get(b, SeedResizeFromH);
    assert Get(a, SeedResizeFromW) == Get(b, SeedResizeFromW);
  }

  lemma ExtensionalPart10(a: Img2ImgRequest, b: Img2ImgRequest)
    requires forall f :: Get(a, f) == Get(b, f)
    ensures a.samplerName == b.samplerName && a.batchSize == b.batchSize
  {
    assert Get(a, SamplerName) == Get(b, SamplerName);
    assert Get(a, BatchSize) == Get(b, BatchSize);
  }

  lemma ExtensionalPart11(a: Img2ImgRequest, b: Img2ImgRequest)
    requires forall f :: Get(a, f) == Get(b, f)
    ensures a.nIter == b.nIter && a.steps == b.steps
  {
    assert Get(a, NIter) == Get(b, NIter);
    assert Get(a, Steps) == Get(b, Steps);
  }

  lemma ExtensionalPart12(a: Img2ImgRequest, b: Img2ImgRequest)
    requires forall f :: Get(a, f) == Get(b, f)
    ensures a.cfgScale == b.cfgScale && a.width == b.width
  {
    assert Get(a, CfgScale) == Get(b, CfgScale);
    assert Get(a, Width) == Get(b, Width);
  }

  lemma ExtensionalPart13(a: Img2ImgRequest, b: Img2ImgRequest)
    requires forall f :: Get(a, f) == Get(b, f)
    ensures a.height == b.height && a.restoreFaces == b.restoreFaces
  {
    assert Get(a, Height) == Get(b, Height);
    assert Get(a, RestoreFaces) == Get(b, RestoreFaces);
  }

  lemma ExtensionalPart14(a: Img2ImgRequest, b: Img2ImgRequest)
    requires forall f :: Get(a, f) == Get(b, f)
    ensures a.tiling == b.tiling && a.doNotSaveSamples == b.doNotSaveSamples
  {
    assert Get(a, Tiling) == Get(b, Tiling);
    assert Get(a, DoNotSaveSamples) == Get(b, DoNotSaveSamples);
  }

  lemma ExtensionalPart15(a: Img2ImgRequest, b: Img2ImgRequest)
    requires forall f :: Get(a, f) == Get(b, f)
    ensures a.doNotSaveGrid == b.doNotSaveGrid && a.negativePrompt == b.negativePrompt
  {
    assert Get(a, DoNotSaveGrid) == Get(b, DoNotSaveGrid);
    assert Get(a, NegativePrompt) == Get(b, NegativePrompt);
  }

  lemma ExtensionalPart16(a: Img2ImgRequest, b: Img2ImgRequest)
    requires forall f :: Get(a, f) == Get(b, f)
    ensures a.eta == b.eta && a.sChurn == b.sChurn
  {
    assert Get(a, Eta) == Get(b, Eta);
    assert Get(a, SChurn) == Get(b, SChurn);
  }

  lemma ExtensionalPart17(a: Img2ImgRequest, b: Img2ImgRequest)
    requires forall f :: Get(a, f) == Get(b, f)
    ensures a.sTmax == b.sTmax && a.sTmin == b.sTmin
  {
    assert Get(a, STmax) == Get(b, STmax);
    assert Get(a, STmin) == Get(b, STmin);
  }

  lemma ExtensionalPart18(a: Img2ImgRequest, b: Img2ImgRequest)
    requires forall f :: Get(a, f) == Get(b, f)
    ensures a.sNoise == b.sNoise && a.overrideSettings == b.overrideSettings
  {
    assert Get(a, SNoise) == Get(b, SNoise);
    assert Get(a, OverrideSettings) == Get(b, OverrideSettings);
  }

  lemma ExtensionalPart19(a: Img2ImgRequest, b: Img2ImgRequest)
    requires forall f :: Get(a, f) == Get(b, f)
    ensures a.overrideSettingsRestoreAfterwards == b.overrideSettingsRestoreAfterwards && a.scriptArgs == b.scriptArgs
  {
    assert Get(a, OverrideSettingsRestoreAfterwards) == Get(b, OverrideSettingsRestoreAfterwards);
    assert Get(a, ScriptArgs) == Get(b, ScriptArgs);
  }

  lemma ExtensionalPart20(a: Img2ImgRequest, b: Img2ImgRequest)
    requires forall f :: Get(a, f) == Get(b, f)
    ensures a.samplerIndex == b.samplerIndex && a.includeInitImages == b.includeInitImages
  {
    assert Get(a, SamplerIndex) == Get(b, SamplerIndex);
    assert Get(a, IncludeInitImages) == Get(b, IncludeInitImages);
  }

  lemma ExtensionalPart21(a: Img2ImgRequest, b: Img2ImgRequest)
    requires forall f :: Get(a, f) == Get(b, f)
    ensures a.scriptName == b.scriptName && a.sendImages == b.sendImages
  {
    assert Get(a, ScriptName) == Get(b, ScriptName);
    assert Get(a, SendImages) == Get(b, SendImages);
  }

  lemma ExtensionalPart22(a: Img2ImgRequest, b: Img2ImgRequest)
    requires forall f :: Get(a, f) == Get(b, f)
    ensures a.saveImages == b.saveImages && a.alwaysonScripts == b.alwaysonScripts
  {
    assert Get(a, SaveImages) == Get(b, SaveImages);
    assert Get(a, AlwaysonScripts) == Get(b, AlwaysonScripts);
  }

  /** Two records that agree on every field are equal. */
  lemma Extensional(a: Img2ImgRequest, b: Img2ImgRequest)
    requires forall f :: Get(a, f) == Get(b, f)
    ensures a == b
  {
    ExtensionalPart1(a, b);
    ExtensionalPart2(a, b);
    ExtensionalPart3(a, b);
    ExtensionalPart4(a, b);
    ExtensionalPart5(a, b);
    ExtensionalPart6(a, b);
    ExtensionalPart7(a, b);
    ExtensionalPart8(a, b);
    ExtensionalPart9(a, b);
    ExtensionalPart10(a, b);
    ExtensionalPart11(a, b);
    ExtensionalPart12(a, b);
    ExtensionalPart13(a, b);
    ExtensionalPart14(a, b);
    ExtensionalPart15(a, b);
    ExtensionalPart16(a, b);
    ExtensionalPart17(a, b);
    ExtensionalPart18(a, b);
    ExtensionalPart19(a, b);
    ExtensionalPart20(a, b);
    ExtensionalPart21(a, b);
    ExtensionalPart22(a, b);
  }

  /** `Img2ImgRequest::default()` (derived `Default`): every field is `None`. */
  function Default(): (r: Img2ImgRequest)
    ensures forall f :: Get(r, f) == None
  {
    Img2ImgRequest(None, None, None, None, None, None, None, None, None, None, None, None, None, None, None, None, None, None, None, None, None, None, None, None, None, None, None, None, None, None, None, None, None, None, None, None, None, None, None, None, None, None, None, None)
  }

  /**
   * A call of one of the builders that write a single field; the
   * argument is the value written.
   */
  datatype Setter =
    | WithPrompt(prompt: string)
    | WithStyles(styles: seq<string>)
    | WithDenoisingStrength(denoisingStrength: Float)
    | WithSeed(seed: i64)
    | WithSubseed(subseed: i64)
    | WithSubseedStrength(subseedStrength: u32)
    | WithSamplerName(samplerName: string)
    | WithBatchSize(batchSize: u32)
    | WithNIter(nIter: u32)
    | WithSteps(steps: u32)
    | WithCfgScale(cfgScale: Float)
    | WithWidth(width: u32)
    | WithHeight(height: u32)
    | WithRestoreFaces(restoreFaces: bool)
    | WithTiling(tiling: bool)
    | WithNegativePrompt(negativePrompt: string)

  /** The field a builder call writes. */
  function Target(s: Setter): Field
  {
    match s
    case WithPrompt(_) => Prompt
    case WithStyles(_) => Styles
    case WithDenoisingStrength(_) => DenoisingStrength
    case WithSeed(_) => Seed
    case WithSubseed(_) => Subseed
    case WithSubseedStrength(_) => SubseedStrength
    case WithSamplerName(_) => SamplerName
    case WithBatchSize(_) => BatchSize
    case WithNIter(_) => NIter
    case WithSteps(_) => Steps
    case WithCfgScale(_) => CfgScale
    case WithWidth(_) => Width
    case WithHeight(_) => Height
    case WithRestoreFaces(_) => RestoreFaces
    case WithTiling(_) => Tiling
    case WithNegativePrompt(_) => NegativePrompt
  }

  /** The value a builder call writes. */
  function Written(s: Setter): FieldValue
  {
    match s
    case WithPrompt(v) => Text(v)
    case WithStyles(v) => Texts(v)
    case WithDenoisingStrength(v) => Number(v)
    case WithSeed(v) => Int(v)
    case WithSubseed(v) => Int(v)
    case WithSubseedStrength(v) => Int(v)
    case WithSamplerName(v) => Text(v)
    case WithBatchSize(v) => Int(v)
    case WithNIter(v) => Int(v)
    case WithSteps(v) => Int(v)
    case WithCfgScale(v) => Number(v)
    case WithWidth(v) => Int(v)
    case WithHeight(v) => Int(v)
    case WithRestoreFaces(v) => Flag(v)
    case WithTiling(v) => Flag(v)
    case WithNegativePrompt(v) => Text(v)
  }

  /**
   * The effect of a single-field builder (`with_prompt`, `with_seed`, ...,
   * src/api/img2img.rs:104-191): its field becomes `Some(v)` and every other
   * field keeps its value.
   */
  function Set(r: Img2ImgRequest, s: Setter): Img2ImgRequest
  {
    match s
    case WithPrompt(v) => r.(prompt := Some(v))
    case WithStyles(v) => r.(styles := Some(v))
    case WithDenoisingStrength(v) => r.(denoisingStrength := Some(v))
    case WithSeed(v) => r.(seed := Some(v))
    case WithSubseed(v) => r.(subseed := Some(v))
    case WithSubseedStrength(v) => r.(subseedStrength := Some(v))
    case WithSamplerName(v) => r.(samplerName := Some(v))
    case WithBatchSize(v) => r.(batchSize := Some(v))
    case WithNIter(v) => r.(nIter := Some(v))
    case WithSteps(v) => r.(steps := Some(v))
    case WithCfgScale(v) => r.(cfgScale := Some(v))
    case WithWidth(v) => r.(width := Some(v))
    case WithHeight(v) => r.(height := Some(v))
    case WithRestoreFaces(v) => r.(restoreFaces := Some(v))
    case WithTiling(v) => r.(tiling := Some(v))
    case WithNegativePrompt(v) => r.(negativePrompt := Some(v))
  }

  lemma WithPromptGet(r: Img2ImgRequest, v: string, f: Field)
    ensures Get(r.(prompt := Some(v)), f) == if f == Prompt then Some(Text(v)) else Get(r, f)
  {
  }

  lemma WithStylesGet(r: Img2ImgRequest, v: seq<string>, f: Field)
    ensures Get(r.(styles := Some(v)), f) == if f == Styles then Some(Texts(v)) else Get(r, f)
  {
  }

  lemma WithDenoisingStrengthGet(r: Img2ImgRequest, v: Float, f: Field)
    ensures Get(r.(denoisingStrength := Some(v)), f) == if f == DenoisingStrength then Some(Number(v)) else Get(r, f)
  {
  }

  lemma WithSeedGet(r: Img2ImgRequest, v: i64, f: Field)
    ensures Get(r.(seed := Some(v)), f) == if f == Seed then Some(Int(v)) else Get(r, f)
  {
  }

  lemma WithSubseedGet(r: Img2ImgRequest, v: i64, f: Field)
    ensures Get(r.(subseed := Some(v)), f) == if f == Subseed then Some(Int(v)) else Get(r, f)
  {
  }

  lemma WithSubseedStrengthGet(r: Img2ImgRequest, v: u32, f: Field)
    ensures Get(r.(subseedStrength := Some(v)), f) == if f == SubseedStrength then Some(Int(v)) else Get(r, f)
  {
  }

  lemma WithSamplerNameGet(r: Img2ImgRequest, v: string, f: Field)
    ensures Get(r.(samplerName := Some(v)), f) == if f == SamplerName then Some(Text(v)) else Get(r, f)
  {
  }

  lemma WithBatchSizeGet(r: Img2ImgRequest, v: u32, f: Field)
    ensures Get(r.(batchSize := Some(v)), f) == if f == BatchSize then Some(Int(v)) else Get(r, f)
  {
  }

  lemma WithNIterGet(r: Img2ImgRequest, v: u32, f: Field)
    ensures Get(r.(nIter := Some(v)), f) == if f == NIter then Some(Int(v)) else Get(r, f)
  {
  }

  lemma WithStepsGet(r: Img2ImgRequest, v: u32, f: Field)
    ensures Get(r.(steps := Some(v)), f) == if f == Steps then Some(Int(v)) else Get(r, f)
  {
  }

  lemma WithCfgScaleGet(r: Img2ImgRequest, v: Float, f: Field)
    ensures Get(r.(cfgScale := Some(v)), f) == if f == CfgScale then Some(Number(v)) else Get(r, f)
  {
  }

  lemma WithWidthGet(r: Img2ImgRequest, v: u32, f: Field)
    ensures Get(r.(width := Some(v)), f) == if f == Width then Some(Int(v)) else Get(r, f)
  {
  }

  lemma WithHeightGet(r: Img2ImgRequest, v: u32, f: Field)
    ensures Get(r.(height := Some(v)), f) == if f == Height then Some(Int(v)) else Get(r, f)
  {
  }

  lemma WithRestoreFacesGet(r: Img2ImgRequest, v: bool, f: Field)
    ensures Get(r.(restoreFaces := Some(v)), f) == if f == RestoreFaces then Some(Flag(v)) else Get(r, f)
  {
  }

  lemma WithTilingGet(r: Img2ImgRequest, v: bool, f: Field)
    ensures Get(r.(tiling := Some(v)), f) == if f == Tiling then Some(Flag(v)) else Get(r, f)
  {
  }

  lemma WithNegativePromptGet(r: Img2ImgRequest, v: string, f: Field)
    ensures Get(r.(negativePrompt := Some(v)), f) == if f == NegativePrompt then Some(Text(v)) else Get(r, f)
  {
  }

  lemma SetGetPart1(r: Img2ImgRequest, s: Setter, f: Field)
    requires s.WithPrompt? || s.WithStyles? || s.WithDenoisingStrength? || s.WithSeed?
    ensures Get(Set(r, s), f) == if f == Target(s) then Some(Written(s)) else Get(r, f)
  {
    match s
    case WithPrompt(v) => WithPromptGet(r, v, f);
    case WithStyles(v) => WithStylesGet(r, v, f);
    case WithDenoisingStrength(v) => WithDenoisingStrengthGet(r, v, f);
    case WithSeed(v) => WithSeedGet(r, v, f);
  }

  lemma SetGetPart2(r: Img2ImgRequest, s: Setter, f: Field)
    requires s.WithSubseed? || s.WithSubseedStrength? || s.WithSamplerName? || s.WithBatchSize?
    ensures Get(Set(r, s), f) == if f == Target(s) then Some(Written(s)) else Get(r, f)
  {
    match s
    case WithSubseed(v) => WithSubseedGet(r, v, f);
    case WithSubseedStrength(v) => WithSubseedStrengthGet(r, v, f);
    case WithSamplerName(v) => WithSamplerNameGet(r, v, f);
    case WithBatchSize(v) => WithBatchSizeGet(r, v, f);
  }

  lemma SetGetPart3(r: Img2ImgRequest, s: Setter, f: Field)
    requires s.WithNIter? || s.WithSteps? || s.WithCfgScale? || s.WithWidth?
    ensures Get(Set(r, s), f) == if f == Target(s) then Some(Written(s)) else Get(r, f)
  {
    match s
    case WithNIter(v) => WithNIterGet(r, v, f);
    case WithSteps(v) => WithStepsGet(r, v, f);
    case WithCfgScale(v) => WithCfgScaleGet(r, v, f);
    case WithWidth(v) => WithWidthGet(r, v, f);
  }

  lemma SetGetPart4(r: Img2ImgRequest, s: Setter, f: Field)
    requires s.WithHeight? || s.WithRestoreFaces? || s.WithTiling? || s.WithNegativePrompt?
    ensures Get(Set(r, s), f) == if f == Target(s) then Some(Written(s)) else Get(r, f)
  {
    match s
    case WithHeight(v) => WithHeightGet(r, v, f);
    case WithRestoreFaces(v) => WithRestoreFacesGet(r, v, f);
    case WithTiling(v) => WithTilingGet(r, v, f);
    case WithNegativePrompt(v) => WithNegativePromptGet(r, v, f);
  }

  /** A builder call writes its own field and no other. */
  lemma SetGet(r: Img2ImgRequest, s: Setter, f: Field)
    ensures Get(Set(r, s), f) == if f == Target(s) then Some(Written(s)) else Get(r, f)
  {
    if s.WithPrompt? || s.WithStyles? || s.WithDenoisingStrength? || s.WithSeed? {
      SetGetPart1(r, s, f);
    } else if s.WithSubseed? || s.WithSubseedStrength? || s.WithSamplerName? || s.WithBatchSize? {
      SetGetPart2(r, s, f);
    } else if s.WithNIter? || s.WithSteps? || s.WithCfgScale? || s.WithWidth? {
      SetGetPart3(r, s, f);
    } else {
      SetGetPart4(r, s, f);
    }
  }


  /**
   * `with_style` (src/api/img2img.rs:114-121): pushes onto the styles list when there
   * is one, and otherwise calls `with_styles(vec![style])`.
   */
  function AddStyle(r: Img2ImgRequest, style: string): Img2ImgRequest
  {
    if r.styles.Some? then r.(styles := Some(r.styles.value + [style]))
    else Set(r, WithStyles([style]))
  }

  /** `with_style` appends one style to the list, treating a missing list as empty. */
  lemma AddStyleGet(r: Img2ImgRequest, style: string, f: Field)
    ensures Get(AddStyle(r, style), f)
         == if f == Styles then Some(Texts(r.styles.UnwrapOr([]) + [style])) else Get(r, f)
  {
    if r.styles.None? {
      assert [] + [style] == [style];
      SetGet(r, WithStyles([style]), f);
    }
  }

  /** `with_styles` replaces the list, and a later `with_style` appends to it. */
  lemma StyleAfterStyles(r: Img2ImgRequest, styles: seq<string>, style: string)
    ensures AddStyle(Set(r, WithStyles(styles)), style) == Set(r, WithStyles(styles + [style]))
  {
    var x, y := AddStyle(Set(r, WithStyles(styles)), style), Set(r, WithStyles(styles + [style]));
    forall f ensures Get(x, f) == Get(y, f) {
      AddStyleGet(Set(r, WithStyles(styles)), style, f);
      SetGet(r, WithStyles(styles), f);
      SetGet(r, WithStyles(styles + [style]), f);
    }
    Extensional(x, y);
  }


  lemma SetCommuteGet(r: Img2ImgRequest, s: Setter, t: Setter, f: Field)
    requires Target(s) != Target(t)
    ensures Get(Set(Set(r, s), t), f) == Get(Set(Set(r, t), s), f)
  {
    SetGet(r, s, f);
    SetGet(Set(r, s), t, f);
    SetGet(r, t, f);
    SetGet(Set(r, t), s, f);
  }

  /** Builder calls on different fields commute. */
  lemma SetCommute(r: Img2ImgRequest, s: Setter, t: Setter)
    requires Target(s) != Target(t)
    ensures Set(Set(r, s), t) == Set(Set(r, t), s)
  {
    forall f ensures Get(Set(Set(r, s), t), f) == Get(Set(Set(r, t), s), f) {
      SetCommuteGet(r, s, t, f);
    }
    Extensional(Set(Set(r, s), t), Set(Set(r, t), s));
  }

  lemma SetLastWinsGet(r: Img2ImgRequest, s: Setter, t: Setter, f: Field)
    requires Target(s) == Target(t)
    ensures Get(Set(Set(r, s), t), f) == Get(Set(r, t), f)
  {
    SetGet(r, s, f);
    SetGet(Set(r, s), t, f);
    SetGet(r, t, f);
  }

  /** Of two builder calls on the same field, the last one wins. */
  lemma SetLastWins(r: Img2ImgRequest, s: Setter, t: Setter)
    requires Target(s) == Target(t)
    ensures Set(Set(r, s), t) == Set(r, t)
  {
    forall f ensures Get(Set(Set(r, s), t), f) == Get(Set(r, t), f) {
      SetLastWinsGet(r, s, t, f);
    }
    Extensional(Set(Set(r, s), t), Set(r, t));
  }

  /**
   * A `Img2ImgRequest` updated in place through `&mut self`, as its builder
   * methods do; `Value()` is the record it currently holds.
   */
  class Img2ImgBuilder {
    var initImages: Option<seq<string>>
    var resizeMode: Option<u32>
    var denoisingStrength: Option<Float>
    var imageCfgScale: Option<u32>
    var mask: Option<string>
    var maskBlur: Option<u32>
    var inpaintingFill: Option<u32>
    var inpaintFullRes: Option<bool>
    var inpaintFullResPadding: Option<u32>
    var inpaintingMaskInvert: Option<u32>
    var initialNoiseMultiplier: Option<u32>
    var prompt: Option<string>
    var styles: Option<seq<string>>
    var seed: Option<i64>
    var subseed: Option<i64>
    var subseedStrength: Option<u32>
    var seedResizeFromH: Option<i32>
    var seedResizeFromW: Option<i32>
    var samplerName: Option<string>
    var batchSize: Option<u32>
    var nIter: Option<u32>
    var steps: Option<u32>
    var cfgScale: Option<Float>
    var width: Option<u32>
    var height: Option<u32>
    var restoreFaces: Option<bool>
    var tiling: Option<bool>
    var doNotSaveSamples: Option<bool>
    var doNotSaveGrid: Option<bool>
    var negativePrompt: Option<string>
    var eta: Option<u32>
    var sChurn: Option<Float>
    var sTmax: Option<Float>
    var sTmin: Option<Float>
    var sNoise: Option<Float>
    var overrideSettings: Option<JsonValue>
    var overrideSettingsRestoreAfterwards: Option<bool>
    var scriptArgs: Option<JsonValue>
    var samplerIndex: Option<string>
    var includeInitImages: Option<bool>
    var scriptName: Option<string>
    var sendImages: Option<bool>
    var saveImages: Option<bool>
    var alwaysonScripts: Option<JsonValue>

    function Value(): Img2ImgRequest
      reads this
    {
      Img2ImgRequest(initImages, resizeMode, denoisingStrength, imageCfgScale, mask, maskBlur, inpaintingFill, inpaintFullRes, inpaintFullResPadding, inpaintingMaskInvert, initialNoiseMultiplier, prompt, styles, seed, subseed, subseedStrength, seedResizeFromH, seedResizeFromW, samplerName, batchSize, nIter, steps, cfgScale, width, height, restoreFaces, tiling, doNotSaveSamples, doNotSaveGrid, negativePrompt, eta, sChurn, sTmax, sTmin, sNoise, overrideSettings, overrideSettingsRestoreAfterwards, scriptArgs, samplerIndex, includeInitImages, scriptName, sendImages, saveImages, alwaysonScripts)
    }

    constructor (r: Img2ImgRequest)
      ensures Value() == r
    {
      initImages := r.initImages;
      resizeMode := r.resizeMode;
      denoisingStrength := r.denoisingStrength;
      imageCfgScale := r.imageCfgScale;
      mask := r.mask;
      maskBlur := r.maskBlur;
      inpaintingFill := r.inpaintingFill;
      inpaintFullRes := r.inpaintFullRes;
      inpaintFullResPadding := r.inpaintFullResPadding;
      inpaintingMaskInvert := r.inpaintingMaskInvert;
      initialNoiseMultiplier := r.initialNoiseMultiplier;
      prompt := r.prompt;
      styles := r.styles;
      seed := r.seed;
      subseed := r.subseed;
      subseedStrength := r.subseedStrength;
      seedResizeFromH := r.seedResizeFromH;
      seedResizeFromW := r.seedResizeFromW;
      samplerName := r.samplerName;
      batchSize := r.batchSize;
      nIter := r.nIter;
      steps := r.steps;
      cfgScale := r.cfgScale;
      width := r.width;
      height := r.height;
      restoreFaces := r.restoreFaces;
      tiling := r.tiling;
      doNotSaveSamples := r.doNotSaveSamples;
      doNotSaveGrid := r.doNotSaveGrid;
      negativePrompt := r.negativePrompt;
      eta := r.eta;
      sChurn := r.sChurn;
      sTmax := r.sTmax;
      sTmin := r.sTmin;
      sNoise := r.sNoise;
      overrideSettings := r.overrideSettings;
      overrideSettingsRestoreAfterwards := r.overrideSettingsRestoreAfterwards;
      scriptArgs := r.scriptArgs;
      samplerIndex := r.samplerIndex;
      includeInitImages := r.includeInitImages;
      scriptName := r.scriptName;
      sendImages := r.sendImages;
      saveImages := r.saveImages;
      alwaysonScripts := r.alwaysonScripts;
    }

    /** `with_prompt` (src/api/img2img.rs:104-107). */
    method WithPrompt(prompt: string)
      modifies this
      ensures Value() == Set(old(Value()), Setter.WithPrompt(prompt))
    {
      this.prompt := Some(prompt);
    }

    /** `with_styles` (src/api/img2img.rs:109-112). */
    method WithStyles(styles: seq<string>)
      modifies this
      ensures Value() == Set(old(Value()), Setter.WithStyles(styles))
    {
      this.styles := Some(styles);
    }

    /** `with_denoising_strength` (src/api/img2img.rs:123-126). */
    method WithDenoisingStrength(denoisingStrength: Float)
      modifies this
      ensures Value() == Set(old(Value()), Setter.WithDenoisingStrength(denoisingStrength))
    {
      this.denoisingStrength := Some(denoisingStrength);
    }

    /** `with_seed` (src/api/img2img.rs:128-131). */
    method WithSeed(seed: i64)
      modifies this
      ensures Value() == Set(old(Value()), Setter.WithSeed(seed))
    {
      this.seed := Some(seed);
    }

    /** `with_subseed` (src/api/img2img.rs:133-136). */
    method WithSubseed(subseed: i64)
      modifies this
      ensures Value() == Set(old(Value()), Setter.WithSubseed(subseed))
    {
      this.subseed := Some(subseed);
    }

    /** `with_subseed_strength` (src/api/img2img.rs:138-141). */
    method WithSubseedStrength(subseedStrength: u32)
      modifies this
      ensures Value() == Set(old(Value()), Setter.WithSubseedStrength(subseedStrength))
    {
      this.subseedStrength := Some(subseedStrength);
    }

    /** `with_sampler_name` (src/api/img2img.rs:143-146). */
    method WithSamplerName(samplerName: string)
      modifies this
      ensures Value() == Set(old(Value()), Setter.WithSamplerName(samplerName))
    {
      this.samplerName := Some(samplerName);
    }

    /** `with_batch_size` (src/api/img2img.rs:148-151). */
    method WithBatchSize(batchSize: u32)
      modifies this
      ensures Value() == Set(old(Value()), Setter.WithBatchSize(batchSize))
    {
      this.batchSize := Some(batchSize);
    }

    /** `with_n_iter` (src/api/img2img.rs:153-156). */
    method WithNIter(nIter: u32)
      modifies this
      ensures Value() == Set(old(Value()), Setter.WithNIter(nIter))
    {
      this.nIter := Some(nIter);
    }

    /** `with_steps` (src/api/img2img.rs:158-161). */
    method WithSteps(steps: u32)
      modifies this
      ensures Value() == Set(old(Value()), Setter.WithSteps(steps))
    {
      this.steps := Some(steps);
    }

    /** `with_cfg_scale` (src/api/img2img.rs:163-166). */
    method WithCfgScale(cfgScale: Float)
      modifies this
      ensures Value() == Set(old(Value()), Setter.WithCfgScale(cfgScale))
    {
      this.cfgScale := Some(cfgScale);
    }

    /** `with_width` (src/api/img2img.rs:168-171). */
    method WithWidth(width: u32)
      modifies this
      ensures Value() == Set(old(Value()), Setter.WithWidth(width))
    {
      this.width := Some(width);
    }

    /** `with_height` (src/api/img2img.rs:173-176). */
    method WithHeight(height: u32)
      modifies this
      ensures Value() == Set(old(Value()), Setter.WithHeight(height))
    {
      this.height := Some(height);
    }

    /** `with_restore_faces` (src/api/img2img.rs:178-181). */
    method WithRestoreFaces(restoreFaces: bool)
      modifies this
      ensures Value() == Set(old(Value()), Setter.WithRestoreFaces(restoreFaces))
    {
      this.restoreFaces := Some(restoreFaces);
    }

    /** `with_tiling` (src/api/img2img.rs:183-186). */
    method WithTiling(tiling: bool)
      modifies this
      ensures Value() == Set(old(Value()), Setter.WithTiling(tiling))
    {
      this.tiling := Some(tiling);
    }

    /** `with_negative_prompt` (src/api/img2img.rs:188-191). */
    method WithNegativePrompt(negativePrompt: string)
      modifies this
      ensures Value() == Set(old(Value()), Setter.WithNegativePrompt(negativePrompt))
    {
      this.negativePrompt := Some(negativePrompt);
    }

    /** `with_style` (src/api/img2img.rs:114-121). */
    method WithStyle(style: string)
      modifies this
      ensures Value() == AddStyle(old(Value()), style)
    {
      if styles.Some? {
        styles := Some(styles.value + [style]);
      } else {
        WithStyles([style]);
      }
    }
  }
}
