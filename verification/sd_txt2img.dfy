/**
 * The text-to-image request record of the Stable Diffusion API client
 * (crates/stable-diffusion-api/src/txt2img.rs): its in-place builders and the
 * field-wise `merge` in which the argument overrides the receiver.
 */
module SdTxt2Img {
  import opened Common
  import opened Records

  /** `Txt2ImgRequest` (crates/stable-diffusion-api/src/txt2img.rs:13-96): every field is optional. */
  datatype Txt2ImgRequest = Txt2ImgRequest(
    enableHr: Option<bool>,
    denoisingStrength: Option<Float>,
    firstphaseWidth: Option<u32>,
    firstphaseHeight: Option<u32>,
    hrScale: Option<Float>,
    hrUpscaler: Option<string>,
    hrSecondPassSteps: Option<u32>,
    hrResizeX: Option<u32>,
    hrResizeY: Option<u32>,
    prompt: Option<string>,
    styles: Option<seq<string>>,
    seed: Option<i64>,
    subseed: Option<i64>,
    subseedStrength: Option<u32>,
    seedResizeFromH: Option<i32>,
    seedResizeFromW: Option<i32>,
    samplerName: Option<string>,
    batchSize: Option<u32>,
    nIter: Option<u32>,
    steps: Option<u32>,
    cfgScale: Option<Float>,
    width: Option<u32>,
    height: Option<u32>,
    restoreFaces: Option<bool>,
    tiling: Option<bool>,
    doNotSaveSamples: Option<bool>,
    doNotSaveGrid: Option<bool>,
    negativePrompt: Option<string>,
    eta: Option<u32>,
    sChurn: Option<Float>,
    sTmax: Option<Float>,
    sTmin: Option<Float>,
    sNoise: Option<Float>,
    overrideSettings: Option<JsonValue>,
    overrideSettingsRestoreAfterwards: Option<bool>,
    scriptArgs: Option<JsonValue>,
    samplerIndex: Option<string>,
    scriptName: Option<string>,
    sendImages: Option<bool>,
    saveImages: Option<bool>,
    alwaysonScripts: Option<JsonValue>
  )
  {
    /**
     * `Txt2ImgRequest::merge` (crates/stable-diffusion-api/src/txt2img.rs:383-429): each field of `request` that is present
     * overrides the receiver's (`request.f.or(self.f)`).
     */
    function Merge(request: Txt2ImgRequest): Txt2ImgRequest
    {
      Txt2ImgRequest(
        request.enableHr.Or(enableHr),
        request.denoisingStrength.Or(denoisingStrength),
        request.firstphaseWidth.Or(firstphaseWidth),
        request.firstphaseHeight.Or(firstphaseHeight),
        request.hrScale.Or(hrScale),
        request.hrUpscaler.Or(hrUpscaler),
        request.hrSecondPassSteps.Or(hrSecondPassSteps),
        request.hrResizeX.Or(hrResizeX),
        request.hrResizeY.Or(hrResizeY),
        request.prompt.Or(prompt),
        request.styles.Or(styles),
        request.seed.Or(seed),
        request.subseed.Or(subseed),
        request.subseedStrength.Or(subseedStrength),
        request.seedResizeFromH.Or(seedResizeFromH),
        request.seedResizeFromW.Or(seedResizeFromW),
        request.samplerName.Or(samplerName),
        request.batchSize.Or(batchSize),
        request.nIter.Or(nIter),
        request.steps.Or(steps),
        request.cfgScale.Or(cfgScale),
        request.width.Or(width),
        request.height.Or(height),
        request.restoreFaces.Or(restoreFaces),
        request.tiling.Or(tiling),
        request.doNotSaveSamples.Or(doNotSaveSamples),
        request.doNotSaveGrid.Or(doNotSaveGrid),
        request.negativePrompt.Or(negativePrompt),
        request.eta.Or(eta),
        request.sChurn.Or(sChurn),
        request.sTmax.Or(sTmax),
        request.sTmin.Or(sTmin),
        request.sNoise.Or(sNoise),
        request.overrideSettings.Or(overrideSettings),
        request.overrideSettingsRestoreAfterwards.Or(overrideSettingsRestoreAfterwards),
        request.scriptArgs.Or(scriptArgs),
        request.samplerIndex.Or(samplerIndex),
        request.scriptName.Or(scriptName),
        request.sendImages.Or(sendImages),
        request.saveImages.Or(saveImages),
        request.alwaysonScripts.Or(alwaysonScripts)
      )
    }
  }

  /** The fields of `Txt2ImgRequest`, one constructor per Rust field. */
  datatype Field =
    | EnableHr
    | DenoisingStrength
    | FirstphaseWidth
    | FirstphaseHeight
    | HrScale
    | HrUpscaler
    | HrSecondPassSteps
    | HrResizeX
    | HrResizeY
    | Prompt
    | Styles
    | Seed
    | Subseed
    | SubseedStrength
    | SeedResizeFromH
    | SeedResizeFromW
    | SamplerName
    | BatchSize
    | NIter
    | Steps
    | CfgScale
    | Width
    | Height
    | RestoreFaces
    | Tiling
    | DoNotSaveSamples
    | DoNotSaveGrid
    | NegativePrompt
    | Eta
    | SChurn
    | STmax
    | STmin
    | SNoise
    | OverrideSettings
    | OverrideSettingsRestoreAfterwards
    | ScriptArgs
    | SamplerIndex
    | ScriptName
    | SendImages
    | SaveImages
    | AlwaysonScripts

  /** The value of field `f` of `r`. */
  function Get(r: Txt2ImgRequest, f: Field): Option<FieldValue>
  {
    match f
    case EnableHr => FlagOf(r.enableHr)
    case DenoisingStrength => NumberOf(r.denoisingStrength)
    case FirstphaseWidth => U32Of(r.firstphaseWidth)
    case FirstphaseHeight => U32Of(r.firstphaseHeight)
    case HrScale => NumberOf(r.hrScale)
    case HrUpscaler => TextOf(r.hrUpscaler)
    case HrSecondPassSteps => U32Of(r.hrSecondPassSteps)
    case HrResizeX => U32Of(r.hrResizeX)
    case HrResizeY => U32Of(r.hrResizeY)
    case Prompt => TextOf(r.prompt)
    case Styles => TextsOf(r.styles)
    case Seed => I64Of(r.seed)
    case Subseed => I64Of(r.subseed)
    case SubseedStrength => U32Of(r.subseedStrength)
    case SeedResizeFromH => I32Of(r.seedResizeFromH)
    case SeedResizeFromW => I32Of(r.seedResizeFromW)
    case SamplerName => TextOf(r.samplerName)
    case BatchSize => U32Of(r.batchSize)
    case NIter => U32Of(r.nIter)
    case Steps => U32Of(r.steps)
    case CfgScale => NumberOf(r.cfgScale)
    case Width => U32Of(r.width)
    case Height => U32Of(r.height)
    case RestoreFaces => FlagOf(r.restoreFaces)
    case Tiling => FlagOf(r.tiling)
    case DoNotSaveSamples => FlagOf(r.doNotSaveSamples)
    case DoNotSaveGrid => FlagOf(r.doNotSaveGrid)
    case NegativePrompt => TextOf(r.negativePrompt)
    case Eta => U32Of(r.eta)
    case SChurn => NumberOf(r.sChurn)
    case STmax => NumberOf(r.sTmax)
    case STmin => NumberOf(r.sTmin)
    case SNoise => NumberOf(r.sNoise)
    case OverrideSettings => JsonOf(r.overrideSettings)
    case OverrideSettingsRestoreAfterwards => FlagOf(r.overrideSettingsRestoreAfterwards)
    case ScriptArgs => JsonOf(r.scriptArgs)
    case SamplerIndex => TextOf(r.samplerIndex)
    case ScriptName => TextOf(r.scriptName)
    case SendImages => FlagOf(r.sendImages)
    case SaveImages => FlagOf(r.saveImages)
    case AlwaysonScripts => JsonOf(r.alwaysonScripts)
  }

  lemma ExtensionalPart1(a: Txt2ImgRequest, b: Txt2ImgRequest)
    requires forall f :: Get(a, f) == Get(b, f)
    ensures a.enableHr == b.enableHr && a.denoisingStrength == b.denoisingStrength
  {
    assert Get(a, EnableHr) == Get(b, EnableHr);
    assert Get(a, DenoisingStrength) == Get(b, DenoisingStrength);
  }

  lemma ExtensionalPart2(a: Txt2ImgRequest, b: Txt2ImgRequest)
    requires forall f :: Get(a, f) == Get(b, f)
    ensures a.firstphaseWidth == b.firstphaseWidth && a.firstphaseHeight == b.firstphaseHeight
  {
    assert Get(a, FirstphaseWidth) == Get(b, FirstphaseWidth);
    assert Get(a, FirstphaseHeight) == Get(b, FirstphaseHeight);
  }

  lemma ExtensionalPart3(a: Txt2ImgRequest, b: Txt2ImgRequest)
    requires forall f :: Get(a, f) == Get(b, f)
    ensures a.hrScale == b.hrScale && a.hrUpscaler == b.hrUpscaler
  {
    assert Get(a, HrScale) == Get(b, HrScale);
    assert Get(a, HrUpscaler) == Get(b, HrUpscaler);
  }

  lemma ExtensionalPart4(a: Txt2ImgRequest, b: Txt2ImgRequest)
    requires forall f :: Get(a, f) == Get(b, f)
    ensures a.hrSecondPassSteps == b.hrSecondPassSteps && a.hrResizeX == b.hrResizeX
  {
    assert Get(a, HrSecondPassSteps) == Get(b, HrSecondPassSteps);
    assert Get(a, HrResizeX) == Get(b, HrResizeX);
  }

  lemma ExtensionalPart5(a: Txt2ImgRequest, b: Txt2ImgRequest)
    requires forall f :: Get(a, f) == Get(b, f)
    ensures a.hrResizeY == b.hrResizeY && a.prompt == b.prompt
  {
    assert Get(a, HrResizeY) == Get(b, HrResizeY);
    assert Get(a, Prompt) == Get(b, Prompt);
  }

  lemma ExtensionalPart6(a: Txt2ImgRequest, b: Txt2ImgRequest)
    requires forall f :: Get(a, f) == Get(b, f)
    ensures a.styles == b.styles && a.seed == b.seed
  {
    assert Get(a, Styles) == Get(b, Styles);
    assert Get(a, Seed) == Get(b, Seed);
  }

  lemma ExtensionalPart7(a: Txt2ImgRequest, b: Txt2ImgRequest)
    requires forall f :: Get(a, f) == Get(b, f)
    ensures a.subseed == b.subseed && a.subseedStrength == b.subseedStrength
  {
    assert Get(a, Subseed) == Get(b, Subseed);
    assert Get(a, SubseedStrength) == Get(b, SubseedStrength);
  }

  lemma ExtensionalPart8(a: Txt2ImgRequest, b: Txt2ImgRequest)
    requires forall f :: Get(a, f) == Get(b, f)
    ensures a.seedResizeFromH == b.seedResizeFromH && a.seedResizeFromW == b.seedResizeFromW
  {
    assert Get(a, SeedResizeFromH) == Get(b, SeedResizeFromH);
    assert Get(a, SeedResizeFromW) == Get(b, SeedResizeFromW);
  }

  lemma ExtensionalPart9(a: Txt2ImgRequest, b: Txt2ImgRequest)
    requires forall f :: Get(a, f) == Get(b, f)
    ensures a.samplerName == b.samplerName && a.batchSize == b.batchSize
  {
    assert Get(a, SamplerName) == Get(b, SamplerName);
    assert Get(a, BatchSize) == Get(b, BatchSize);
  }

  lemma ExtensionalPart10(a: Txt2ImgRequest, b: Txt2ImgRequest)
    requires forall f :: Get(a, f) == Get(b, f)
    ensures a.nIter == b.nIter && a.steps == b.steps
  {
    assert Get(a, NIter) == Get(b, NIter);
    assert Get(a, Steps) == Get(b, Steps);
  }

  lemma ExtensionalPart11(a: Txt2ImgRequest, b: Txt2ImgRequest)
    requires forall f :: Get(a, f) == Get(b, f)
    ensures a.cfgScale == b.cfgScale && a.width == b.width
  {
    assert Get(a, CfgScale) == Get(b, CfgScale);
    assert Get(a, Width) == Get(b, Width);
  }

  lemma ExtensionalPart12(a: Txt2ImgRequest, b: Txt2ImgRequest)
    requires forall f :: Get(a, f) == Get(b, f)
    ensures a.height == b.height && a.restoreFaces == b.restoreFaces
  {
    assert Get(a, Height) == Get(b, Height);
    assert Get(a, RestoreFaces) == Get(b, RestoreFaces);
  }

  lemma ExtensionalPart13(a: Txt2ImgRequest, b: Txt2ImgRequest)
    requires forall f :: Get(a, f) == Get(b, f)
    ensures a.tiling == b.tiling && a.doNotSaveSamples == b.doNotSaveSamples
  {
    assert Get(a, Tiling) == Get(b, Tiling);
    assert Get(a, DoNotSaveSamples) == Get(b, DoNotSaveSamples);
  }

  lemma ExtensionalPart14(a: Txt2ImgRequest, b: Txt2ImgRequest)
    requires forall f :: Get(a, f) == Get(b, f)
    ensures a.doNotSaveGrid == b.doNotSaveGrid && a.negativePrompt == b.negativePrompt
  {
    assert Get(a, DoNotSaveGrid) == Get(b, DoNotSaveGrid);
    assert Get(a, NegativePrompt) == Get(b, NegativePrompt);
  }

  lemma ExtensionalPart15(a: Txt2ImgRequest, b: Txt2ImgRequest)
    requires forall f :: Get(a, f) == Get(b, f)
    ensures a.eta == b.eta && a.sChurn == b.sChurn
  {
    assert Get(a, Eta) == Get(b, Eta);
    assert Get(a, SChurn) == Get(b, SChurn);
  }

  lemma ExtensionalPart16(a: Txt2ImgRequest, b: Txt2ImgRequest)
    requires forall f :: Get(a, f) == Get(b, f)
    ensures a.sTmax == b.sTmax && a.sTmin == b.sTmin
  {
    assert Get(a, STmax) == Get(b, STmax);
    assert Get(a, STmin) == Get(b, STmin);
  }

  lemma ExtensionalPart17(a: Txt2ImgRequest, b: Txt2ImgRequest)
    requires forall f :: Get(a, f) == Get(b, f)
    ensures a.sNoise == b.sNoise && a.overrideSettings == b.overrideSettings
  {
    assert Get(a, SNoise) == Get(b, SNoise);
    assert Get(a, OverrideSettings) == Get(b, OverrideSettings);
  }

  lemma ExtensionalPart18(a: Txt2ImgRequest, b: Txt2ImgRequest)
    requires forall f :: Get(a, f) == Get(b, f)
    ensures a.overrideSettingsRestoreAfterwards == b.overrideSettingsRestoreAfterwards && a.scriptArgs == b.scriptArgs
  {
    assert Get(a, OverrideSettingsRestoreAfterwards) == Get(b, OverrideSettingsRestoreAfterwards);
    assert Get(a, ScriptArgs) == Get(b, ScriptArgs);
  }

  lemma ExtensionalPart19(a: Txt2ImgRequest, b: Txt2ImgRequest)
    requires forall f :: Get(a, f) == Get(b, f)
    ensures a.samplerIndex == b.samplerIndex && a.scriptName == b.scriptName
  {
    assert Get(a, SamplerIndex) == Get(b, SamplerIndex);
    assert Get(a, ScriptName) == Get(b, ScriptName);
  }

  lemma ExtensionalPart20(a: Txt2ImgRequest, b: Txt2ImgRequest)
    requires forall f :: Get(a, f) == Get(b, f)
    ensures a.sendImages == b.sendImages && a.saveImages == b.saveImages
  {
    assert Get(a, SendImages) == Get(b, SendImages);
    assert Get(a, SaveImages) == Get(b, SaveImages);
  }

  lemma ExtensionalPart21(a: Txt2ImgRequest, b: Txt2ImgRequest)
    requires forall f :: Get(a, f) == Get(b, f)
    ensures a.alwaysonScripts == b.alwaysonScripts
  {
    assert Get(a, AlwaysonScripts) == Get(b, AlwaysonScripts);
  }

  /** Two records that agree on every field are equal. */
  lemma Extensional(a: Txt2ImgRequest, b: Txt2ImgRequest)
    requires forall f :: Get(a, f) == Get(b, f)
    ensures a == b
  {
    ExtensionalPart1(a, b);
    ExtensionalPart2(a, b);
    ExtensionalPart3(a, b);
    ExtensionalPart4(a, b);
    ExtensionalPart5(a, b);
    ExtensionalPart6(a, b);
    ExtensionalPart7(a, b);
    ExtensionalPart8(a, b);
    ExtensionalPart9(a, b);
    ExtensionalPart10(a, b);
    ExtensionalPart11(a, b);
    ExtensionalPart12(a, b);
    ExtensionalPart13(a, b);
    ExtensionalPart14(a, b);
    ExtensionalPart15(a, b);
    ExtensionalPart16(a, b);
    ExtensionalPart17(a, b);
    ExtensionalPart18(a, b);
    ExtensionalPart19(a, b);
    ExtensionalPart20(a, b);
    ExtensionalPart21(a, b);
  }

  /** Every field of a merge is the argument's value when present, else the receiver's. */
  lemma MergeGet(a: Txt2ImgRequest, request: Txt2ImgRequest, f: Field)
    ensures Get(a.Merge(request), f) == Get(request, f).Or(Get(a, f))
  {
    match f
    case EnableHr => assert a.Merge(request).enableHr == request.enableHr.Or(a.enableHr);
    case DenoisingStrength => assert a.Merge(request).denoisingStrength == request.denoisingStrength.Or(a.denoisingStrength);
    case FirstphaseWidth => assert a.Merge(request).firstphaseWidth == request.firstphaseWidth.Or(a.firstphaseWidth);
    case FirstphaseHeight => assert a.Merge(request).firstphaseHeight == request.firstphaseHeight.Or(a.firstphaseHeight);
    case HrScale => assert a.Merge(request).hrScale == request.hrScale.Or(a.hrScale);
    case HrUpscaler => assert a.Merge(request).hrUpscaler == request.hrUpscaler.Or(a.hrUpscaler);
    case HrSecondPassSteps => assert a.Merge(request).hrSecondPassSteps == request.hrSecondPassSteps.Or(a.hrSecondPassSteps);
    case HrResizeX => assert a.Merge(request).hrResizeX == request.hrResizeX.Or(a.hrResizeX);
    case HrResizeY => assert a.Merge(request).hrResizeY == request.hrResizeY.Or(a.hrResizeY);
    case Prompt => assert a.Merge(request).prompt == request.prompt.Or(a.prompt);
    case Styles => assert a.Merge(request).styles == request.styles.Or(a.styles);
    case Seed => assert a.Merge(request).seed == request.seed.Or(a.seed);
    case Subseed => assert a.Merge(request).subseed == request.subseed.Or(a.subseed);
    case SubseedStrength => assert a.Merge(request).subseedStrength == request.subseedStrength.Or(a.subseedStrength);
    case SeedResizeFromH => assert a.Merge(request).seedResizeFromH == request.seedResizeFromH.Or(a.seedResizeFromH);
    case SeedResizeFromW => assert a.Merge(request).seedResizeFromW == request.seedResizeFromW.Or(a.seedResizeFromW);
    case SamplerName => assert a.Merge(request).samplerName == request.samplerName.Or(a.samplerName);
    case BatchSize => assert a.Merge(request).batchSize == request.batchSize.Or(a.batchSize);
    case NIter => assert a.Merge(request).nIter == request.nIter.Or(a.nIter);
    case Steps => assert a.Merge(request).steps == request.steps.Or(a.steps);
    case CfgScale => assert a.Merge(request).cfgScale == request.cfgScale.Or(a.cfgScale);
    case Width => assert a.Merge(request).width == request.width.Or(a.width);
    case Height => assert a.Merge(request).height == request.height.Or(a.height);
    case RestoreFaces => assert a.Merge(request).restoreFaces == request.restoreFaces.Or(a.restoreFaces);
    case Tiling => assert a.Merge(request).tiling == request.tiling.Or(a.tiling);
    case DoNotSaveSamples => assert a.Merge(request).doNotSaveSamples == request.doNotSaveSamples.Or(a.doNotSaveSamples);
    case DoNotSaveGrid => assert a.Merge(request).doNotSaveGrid == request.doNotSaveGrid.Or(a.doNotSaveGrid);
    case NegativePrompt => assert a.Merge(request).negativePrompt == request.negativePrompt.Or(a.negativePrompt);
    case Eta => assert a.Merge(request).eta == request.eta.Or(a.eta);
    case SChurn => assert a.Merge(request).sChurn == request.sChurn.Or(a.sChurn);
    case STmax => assert a.Merge(request).sTmax == request.sTmax.Or(a.sTmax);
    case STmin => assert a.Merge(request).sTmin == request.sTmin.Or(a.sTmin);
    case SNoise => assert a.Merge(request).sNoise == request.sNoise.Or(a.sNoise);
    case OverrideSettings => assert a.Merge(request).overrideSettings == request.overrideSettings.Or(a.overrideSettings);
    case OverrideSettingsRestoreAfterwards => assert a.Merge(request).overrideSettingsRestoreAfterwards == request.overrideSettingsRestoreAfterwards.Or(a.overrideSettingsRestoreAfterwards);
    case ScriptArgs => assert a.Merge(request).scriptArgs == request.scriptArgs.Or(a.scriptArgs);
    case SamplerIndex => assert a.Merge(request).samplerIndex == request.samplerIndex.Or(a.samplerIndex);
    case ScriptName => assert a.Merge(request).scriptName == request.scriptName.Or(a.scriptName);
    case SendImages => assert a.Merge(request).sendImages == request.sendImages.Or(a.sendImages);
    case SaveImages => assert a.Merge(request).saveImages == request.saveImages.Or(a.saveImages);
    case AlwaysonScripts => assert a.Merge(request).alwaysonScripts == request.alwaysonScripts.Or(a.alwaysonScripts);
  }

  /** `Txt2ImgRequest::default()` (derived `Default`): every field is `None`. */
  function Default(): (r: Txt2ImgRequest)
    ensures forall f :: Get(r, f) == None
  {
    Txt2ImgRequest(None, None, None, None, None, None, None, None, None, None, None, None, None, None, None, None, None, None, None, None, None, None, None, None, None, None, None, None, None, None, None, None, None, None, None, None, None, None, None, None, None)
  }

  /**
   * A call of one of the builders that write a single field; the
   * argument is the value written.
   */
  datatype Setter =
    | WithPrompt(prompt: string)
    | WithStyles(styles: seq<string>)
    | WithSeed(seed: i64)
    | WithSubseed(subseed: i64)
    | WithSubseedStrength(subseedStrength: u32)
    | WithSamplerName(samplerName: string)
    | WithBatchSize(batchSize: u32)
    | WithNIter(nIter: u32)
    | WithSteps(steps: u32)
    | WithCfgScale(cfgScale: Float)
    | WithWidth(width: u32)
    | WithHeight(height: u32)
    | WithRestoreFaces(restoreFaces: bool)
    | WithTiling(tiling: bool)
    | WithNegativePrompt(negativePrompt: string)

  /** The field a builder call writes. */
  function Target(s: Setter): Field
  {
    match s
    case WithPrompt(_) => Prompt
    case WithStyles(_) => Styles
    case WithSeed(_) => Seed
    case WithSubseed(_) => Subseed
    case WithSubseedStrength(_) => SubseedStrength
    case WithSamplerName(_) => SamplerName
    case WithBatchSize(_) => BatchSize
    case WithNIter(_) => NIter
    case WithSteps(_) => Steps
    case WithCfgScale(_) => CfgScale
    case WithWidth(_) => Width
    case WithHeight(_) => Height
    case WithRestoreFaces(_) => RestoreFaces
    case WithTiling(_) => Tiling
    case WithNegativePrompt(_) => NegativePrompt
  }

  /** The value a builder call writes. */
  function Written(s: Setter): FieldValue
  {
    match s
    case WithPrompt(v) => Text(v)
    case WithStyles(v) => Texts(v)
    case WithSeed(v) => Int(v)
    case WithSubseed(v) => Int(v)
    case WithSubseedStrength(v) => Int(v)
    case WithSamplerName(v) => Text(v)
    case WithBatchSize(v) => Int(v)
    case WithNIter(v) => Int(v)
    case WithSteps(v) => Int(v)
    case WithCfgScale(v) => Number(v)
    case WithWidth(v) => Int(v)
    case WithHeight(v) => Int(v)
    case WithRestoreFaces(v) => Flag(v)
    case WithTiling(v) => Flag(v)
    case WithNegativePrompt(v) => Text(v)
  }

  /**
   * The effect of a single-field builder (`with_prompt`, `with_seed`, ...,
   * crates/stable-diffusion-api/src/txt2img.rs:111-376): its field becomes `Some(v)` and every other
   * field keeps its value.
   */
  function Set(r: Txt2ImgRequest, s: Setter): Txt2ImgRequest
  {
    match s
    case WithPrompt(v) => r.(prompt := Some(v))
    case WithStyles(v) => r.(styles := Some(v))
    case WithSeed(v) => r.(seed := Some(v))
    case WithSubseed(v) => r.(subseed := Some(v))
    case WithSubseedStrength(v) => r.(subseedStrength := Some(v))
    case WithSamplerName(v) => r.(samplerName := Some(v))
    case WithBatchSize(v) => r.(batchSize := Some(v))
    case WithNIter(v) => r.(nIter := Some(v))
    case WithSteps(v) => r.(steps := Some(v))
    case WithCfgScale(v) => r.(cfgScale := Some(v))
    case WithWidth(v) => r.(width := Some(v))
    case WithHeight(v) => r.(height := Some(v))
    case WithRestoreFaces(v) => r.(restoreFaces := Some(v))
    case WithTiling(v) => r.(tiling := Some(v))
    case WithNegativePrompt(v) => r.(negativePrompt := Some(v))
  }

  lemma WithPromptGet(r: Txt2ImgRequest, v: string, f: Field)
    ensures Get(r.(prompt := Some(v)), f) == if f == Prompt then Some(Text(v)) else Get(r, f)
  {
  }

  lemma WithStylesGet(r: Txt2ImgRequest, v: seq<string>, f: Field)
    ensures Get(r.(styles := Some(v)), f) == if f == Styles then Some(Texts(v)) else Get(r, f)
  {
  }

  lemma WithSeedGet(r: Txt2ImgRequest, v: i64, f: Field)
    ensures Get(r.(seed := Some(v)), f) == if f == Seed then Some(Int(v)) else Get(r, f)
  {
  }

  lemma WithSubseedGet(r: Txt2ImgRequest, v: i64, f: Field)
    ensures Get(r.(subseed := Some(v)), f) == if f == Subseed then Some(Int(v)) else Get(r, f)
  {
  }

  lemma WithSubseedStrengthGet(r: Txt2ImgRequest, v: u32, f: Field)
    ensures Get(r.(subseedStrength := Some(v)), f) == if f == SubseedStrength then Some(Int(v)) else Get(r, f)
  {
  }

  lemma WithSamplerNameGet(r: Txt2ImgRequest, v: string, f: Field)
    ensures Get(r.(samplerName := Some(v)), f) == if f == SamplerName then Some(Text(v)) else Get(r, f)
  {
  }

  lemma WithBatchSizeGet(r: Txt2ImgRequest, v: u32, f: Field)
    ensures Get(r.(batchSize := Some(v)), f) == if f == BatchSize then Some(Int(v)) else Get(r, f)
  {
  }

  lemma WithNIterGet(r: Txt2ImgRequest, v: u32, f: Field)
    ensures Get(r.(nIter := Some(v)), f) == if f == NIter then Some(Int(v)) else Get(r, f)
  {
  }

  lemma WithStepsGet(r: Txt2ImgRequest, v: u32, f: Field)
    ensures Get(r.(steps := Some(v)), f) == if f == Steps then Some(Int(v)) else Get(r, f)
  {
  }

  lemma WithCfgScaleGet(r: Txt2ImgRequest, v: Float, f: Field)
    ensures Get(r.(cfgScale := Some(v)), f) == if f == CfgScale then Some(Number(v)) else Get(r, f)
  {
  }

  lemma WithWidthGet(r: Txt2ImgRequest, v: u32, f: Field)
    ensures Get(r.(width := Some(v)), f) == if f == Width then Some(Int(v)) else Get(r, f)
  {
  }

  lemma WithHeightGet(r: Txt2ImgRequest, v: u32, f: Field)
    ensures Get(r.(height := Some(v)), f) == if f == Height then Some(Int(v)) else Get(r, f)
  {
  }

  lemma WithRestoreFacesGet(r: Txt2ImgRequest, v: bool, f: Field)
    ensures Get(r.(restoreFaces := Some(v)), f) == if f == RestoreFaces then Some(Flag(v)) else Get(r, f)
  {
  }

  lemma WithTilingGet(r: Txt2ImgRequest, v: bool, f: Field)
    ensures Get(r.(tiling := Some(v)), f) == if f == Tiling then Some(Flag(v)) else Get(r, f)
  {
  }

  lemma WithNegativePromptGet(r: Txt2ImgRequest, v: string, f: Field)
    ensures Get(r.(negativePrompt := Some(v)), f) == if f == NegativePrompt then Some(Text(v)) else Get(r, f)
  {
  }

  lemma SetGetPart1(r: Txt2ImgRequest, s: Setter, f: Field)
    requires s.WithPrompt? || s.WithStyles? || s.WithSeed? || s.WithSubseed?
    ensures Get(Set(r, s), f) == if f == Target(s) then Some(Written(s)) else Get(r, f)
  {
    match s
    case WithPrompt(v) => WithPromptGet(r, v, f);
    case WithStyles(v) => WithStylesGet(r, v, f);
    case WithSeed(v) => WithSeedGet(r, v, f);
    case WithSubseed(v) => WithSubseedGet(r, v, f);
  }

  lemma SetGetPart2(r: Txt2ImgRequest, s: Setter, f: Field)
    requires s.WithSubseedStrength? || s.WithSamplerName? || s.WithBatchSize? || s.WithNIter?
    ensures Get(Set(r, s), f) == if f == Target(s) then Some(Written(s)) else Get(r, f)
  {
    match s
    case WithSubseedStrength(v) => WithSubseedStrengthGet(r, v, f);
    case WithSamplerName(v) => WithSamplerNameGet(r, v, f);
    case WithBatchSize(v) => WithBatchSizeGet(r, v, f);
    case WithNIter(v) => WithNIterGet(r, v, f);
  }

  lemma SetGetPart3(r: Txt2ImgRequest, s: Setter, f: Field)
    requires s.WithSteps? || s.WithCfgScale? || s.WithWidth? || s.WithHeight?
    ensures Get(Set(r, s), f) == if f == Target(s) then Some(Written(s)) else Get(r, f)
  {
    match s
    case WithSteps(v) => WithStepsGet(r, v, f);
    case WithCfgScale(v) => WithCfgScaleGet(r, v, f);
    case WithWidth(v) => WithWidthGet(r, v, f);
    case WithHeight(v) => WithHeightGet(r, v, f);
  }

  lemma SetGetPart4(r: Txt2ImgRequest, s: Setter, f: Field)
    requires s.WithRestoreFaces? || s.WithTiling? || s.WithNegativePrompt?
    ensures Get(Set(r, s), f) == if f == Target(s) then Some(Written(s)) else Get(r, f)
  {
    match s
    case WithRestoreFaces(v) => WithRestoreFacesGet(r, v, f);
    case WithTiling(v) => WithTilingGet(r, v, f);
    case WithNegativePrompt(v) => WithNegativePromptGet(r, v, f);
  }

  /** A builder call writes its own field and no other. */
  lemma SetGet(r: Txt2ImgRequest, s: Setter, f: Field)
    ensures Get(Set(r, s), f) == if f == Target(s) then Some(Written(s)) else Get(r, f)
  {
    if s.WithPrompt? || s.WithStyles? || s.WithSeed? || s.WithSubseed? {
      SetGetPart1(r, s, f);
    } else if s.WithSubseedStrength? || s.WithSamplerName? || s.WithBatchSize? || s.WithNIter? {
      SetGetPart2(r, s, f);
    } else if s.WithSteps? || s.WithCfgScale? || s.WithWidth? || s.WithHeight? {
      SetGetPart3(r, s, f);
    } else {
      SetGetPart4(r, s, f);
    }
  }


  /**
   * `with_style` (crates/stable-diffusion-api/src/txt2img.rs:146-153): pushes onto the styles list when there
   * is one, and otherwise calls `with_styles(vec![style])`.
   */
  function AddStyle(r: Txt2ImgRequest, style: string): Txt2ImgRequest
  {
    if r.styles.Some? then r.(styles := Some(r.styles.value + [style]))
    else Set(r, WithStyles([style]))
  }

  /** `with_style` appends one style to the list, treating a missing list as empty. */
  lemma AddStyleGet(r: Txt2ImgRequest, style: string, f: Field)
    ensures Get(AddStyle(r, style), f)
         == if f == Styles then Some(Texts(r.styles.UnwrapOr([]) + [style])) else Get(r, f)
  {
    if r.styles.None? {
      assert [] + [style] == [style];
      SetGet(r, WithStyles([style]), f);
    }
  }

  /** `with_styles` replaces the list, and a later `with_style` appends to it. */
  lemma StyleAfterStyles(r: Txt2ImgRequest, styles: seq<string>, style: string)
    ensures AddStyle(Set(r, WithStyles(styles)), style) == Set(r, WithStyles(styles + [style]))
  {
    var x, y := AddStyle(Set(r, WithStyles(styles)), style), Set(r, WithStyles(styles + [style]));
    forall f ensures Get(x, f) == Get(y, f) {
      AddStyleGet(Set(r, WithStyles(styles)), style, f);
      SetGet(r, WithStyles(styles), f);
      SetGet(r, WithStyles(styles + [style]), f);
    }
    Extensional(x, y);
  }

  /** Merging an all-`None` request on either side changes nothing. */
  lemma MergeDefault(a: Txt2ImgRequest)
    ensures a.Merge(Default()) == a
    ensures Default().Merge(a) == a
  {
    forall f ensures Get(a.Merge(Default()), f) == Get(a, f) && Get(Default().Merge(a), f) == Get(a, f) {
      MergeGet(a, Default(), f);
      MergeGet(Default(), a, f);
    }
    Extensional(a.Merge(Default()), a);
    Extensional(Default().Merge(a), a);
  }

  /** `merge` is associative, because `Option::or` is. */
  lemma MergeAssociative(a: Txt2ImgRequest, b: Txt2ImgRequest, c: Txt2ImgRequest)
    ensures a.Merge(b).Merge(c) == a.Merge(b.Merge(c))
  {
    forall f ensures Get(a.Merge(b).Merge(c), f) == Get(a.Merge(b.Merge(c)), f) {
      MergeGet(a.Merge(b), c, f);
      MergeGet(a, b, f);
      MergeGet(a, b.Merge(c), f);
      MergeGet(b, c, f);
    }
    Extensional(a.Merge(b).Merge(c), a.Merge(b.Merge(c)));
  }

  /** Merging a request with itself gives it back. */
  lemma MergeIdempotent(a: Txt2ImgRequest)
    ensures a.Merge(a) == a
  {
    forall f ensures Get(a.Merge(a), f) == Get(a, f) {
      MergeGet(a, a, f);
    }
    Extensional(a.Merge(a), a);
  }

  /** Merging a request built by one builder call applies that call. */
  lemma MergeSetter(a: Txt2ImgRequest, s: Setter)
    ensures a.Merge(Set(Default(), s)) == Set(a, s)
  {
    var x, y := a.Merge(Set(Default(), s)), Set(a, s);
    forall f ensures Get(x, f) == Get(y, f) {
      MergeGet(a, Set(Default(), s), f);
      SetGet(Default(), s, f);
      SetGet(a, s, f);
    }
    Extensional(x, y);
  }

  /**
   * A `Txt2ImgRequest` updated in place through `&mut self`, as its builder
   * methods do; `Value()` is the record it currently holds.
   */
  class Txt2ImgBuilder {
    var enableHr: Option<bool>
    var denoisingStrength: Option<Float>
    var firstphaseWidth: Option<u32>
    var firstphaseHeight: Option<u32>
    var hrScale: Option<Float>
    var hrUpscaler: Option<string>
    var hrSecondPassSteps: Option<u32>
    var hrResizeX: Option<u32>
    var hrResizeY: Option<u32>
    var prompt: Option<string>
    var styles: Option<seq<string>>
    var seed: Option<i64>
    var subseed: Option<i64>
    var subseedStrength: Option<u32>
    var seedResizeFromH: Option<i32>
    var seedResizeFromW: Option<i32>
    var samplerName: Option<string>
    var batchSize: Option<u32>
    var nIter: Option<u32>
    var steps: Option<u32>
    var cfgScale: Option<Float>
    var width: Option<u32>
    var height: Option<u32>
    var restoreFaces: Option<bool>
    var tiling: Option<bool>
    var doNotSaveSamples: Option<bool>
    var doNotSaveGrid: Option<bool>
    var negativePrompt: Option<string>
    var eta: Option<u32>
    var sChurn: Option<Float>
    var sTmax: Option<Float>
    var sTmin: Option<Float>
    var sNoise: Option<Float>
    var overrideSettings: Option<JsonValue>
    var overrideSettingsRestoreAfterwards: Option<bool>
    var scriptArgs: Option<JsonValue>
    var samplerIndex: Option<string>
    var scriptName: Option<string>
    var sendImages: Option<bool>
    var saveImages: Option<bool>
    var alwaysonScripts: Option<JsonValue>

    function Value(): Txt2ImgRequest
      reads this
    {
      Txt2ImgRequest(enableHr, denoisingStrength, firstphaseWidth, firstphaseHeight, hrScale, hrUpscaler, hrSecondPassSteps, hrResizeX, hrResizeY, prompt, styles, seed, subseed, subseedStrength, seedResizeFromH, seedResizeFromW, samplerName, batchSize, nIter, steps, cfgScale, width, height, restoreFaces, tiling, doNotSaveSamples, doNotSaveGrid, negativePrompt, eta, sChurn, sTmax, sTmin, sNoise, overrideSettings, overrideSettingsRestoreAfterwards, scriptArgs, samplerIndex, scriptName, sendImages, saveImages, alwaysonScripts)
    }

    constructor (r: Txt2ImgRequest)
      ensures Value() == r
    {
      enableHr := r.enableHr;
      denoisingStrength := r.denoisingStrength;
      firstphaseWidth := r.firstphaseWidth;
      firstphaseHeight := r.firstphaseHeight;
      hrScale := r.hrScale;
      hrUpscaler := r.hrUpscaler;
      hrSecondPassSteps := r.hrSecondPassSteps;
      hrResizeX := r.hrResizeX;
      hrResizeY := r.hrResizeY;
      prompt := r.prompt;
      styles := r.styles;
      seed := r.seed;
      subseed := r.subseed;
      subseedStrength := r.subseedStrength;
      seedResizeFromH := r.seedResizeFromH;
      seedResizeFromW := r.seedResizeFromW;
      samplerName := r.samplerName;
      batchSize := r.batchSize;
      nIter := r.nIter;
      steps := r.steps;
      cfgScale := r.cfgScale;
      width := r.width;
      height := r.height;
      restoreFaces := r.restoreFaces;
      tiling := r.tiling;
      doNotSaveSamples := r.doNotSaveSamples;
      doNotSaveGrid := r.doNotSaveGrid;
      negativePrompt := r.negativePrompt;
      eta := r.eta;
      sChurn := r.sChurn;
      sTmax := r.sTmax;
      sTmin := r.sTmin;
      sNoise := r.sNoise;
      overrideSettings := r.overrideSettings;
      overrideSettingsRestoreAfterwards := r.overrideSettingsRestoreAfterwards;
      scriptArgs := r.scriptArgs;
      samplerIndex := r.samplerIndex;
      scriptName := r.scriptName;
      sendImages := r.sendImages;
      saveImages := r.saveImages;
      alwaysonScripts := r.alwaysonScripts;
    }

    /** `with_prompt` (crates/stable-diffusion-api/src/txt2img.rs:111-114). */
    method WithPrompt(prompt: string)
      modifies this
      ensures Value() == Set(old(Value()), Setter.WithPrompt(prompt))
    {
      this.prompt := Some(prompt);
    }

    /** `with_styles` (crates/stable-diffusion-api/src/txt2img.rs:128-131). */
    method WithStyles(styles: seq<string>)
      modifies this
      ensures Value() == Set(old(Value()), Setter.WithStyles(styles))
    {
      this.styles := Some(styles);
    }

    /** `with_seed` (crates/stable-diffusion-api/src/txt2img.rs:168-171). */
    method WithSeed(seed: i64)
      modifies this
      ensures Value() == Set(old(Value()), Setter.WithSeed(seed))
    {
      this.seed := Some(seed);
    }

    /** `with_subseed` (crates/stable-diffusion-api/src/txt2img.rs:186-189). */
    method WithSubseed(subseed: i64)
      modifies this
      ensures Value() == Set(old(Value()), Setter.WithSubseed(subseed))
    {
      this.subseed := Some(subseed);
    }

    /** `with_subseed_strength` (crates/stable-diffusion-api/src/txt2img.rs:203-206). */
    method WithSubseedStrength(subseedStrength: u32)
      modifies this
      ensures Value() == Set(old(Value()), Setter.WithSubseedStrength(subseedStrength))
    {
      this.subseedStrength := Some(subseedStrength);
    }

    /** `with_sampler_name` (crates/stable-diffusion-api/src/txt2img.rs:220-223). */
    method WithSamplerName(samplerName: string)
      modifies this
      ensures Value() == Set(old(Value()), Setter.WithSamplerName(samplerName))
    {
      this.samplerName := Some(samplerName);
    }

    /** `with_batch_size` (crates/stable-diffusion-api/src/txt2img.rs:237-240). */
    method WithBatchSize(batchSize: u32)
      modifies this
      ensures Value() == Set(old(Value()), Setter.WithBatchSize(batchSize))
    {
      this.batchSize := Some(batchSize);
    }

    /** `with_n_iter` (crates/stable-diffusion-api/src/txt2img.rs:254-257). */
    method WithNIter(nIter: u32)
      modifies this
      ensures Value() == Set(old(Value()), Setter.WithNIter(nIter))
    {
      this.nIter := Some(nIter);
    }

    /** `with_steps` (crates/stable-diffusion-api/src/txt2img.rs:271-274). */
    method WithSteps(steps: u32)
      modifies this
      ensures Value() == Set(old(Value()), Setter.WithSteps(steps))
    {
      this.steps := Some(steps);
    }

    /** `with_cfg_scale` (crates/stable-diffusion-api/src/txt2img.rs:288-291). */
    method WithCfgScale(cfgScale: Float)
      modifies this
      ensures Value() == Set(old(Value()), Setter.WithCfgScale(cfgScale))
    {
      this.cfgScale := Some(cfgScale);
    }

    /** `with_width` (crates/stable-diffusion-api/src/txt2img.rs:305-308). */
    method WithWidth(width: u32)
      modifies this
      ensures Value() == Set(old(Value()), Setter.WithWidth(width))
    {
      this.width := Some(width);
    }

    /** `with_height` (crates/stable-diffusion-api/src/txt2img.rs:322-325). */
    method WithHeight(height: u32)
      modifies this
      ensures Value() == Set(old(Value()), Setter.WithHeight(height))
    {
      this.height := Some(height);
    }

    /** `with_restore_faces` (crates/stable-diffusion-api/src/txt2img.rs:339-342). */
    method WithRestoreFaces(restoreFaces: bool)
      modifies this
      ensures Value() == Set(old(Value()), Setter.WithRestoreFaces(restoreFaces))
    {
      this.restoreFaces := Some(restoreFaces);
    }

    /** `with_tiling` (crates/stable-diffusion-api/src/txt2img.rs:356-359). */
    method WithTiling(tiling: bool)
      modifies this
      ensures Value() == Set(old(Value()), Setter.WithTiling(tiling))
    {
      this.tiling := Some(tiling);
    }

    /** `with_negative_prompt` (crates/stable-diffusion-api/src/txt2img.rs:373-376). */
    method WithNegativePrompt(negativePrompt: string)
      modifies this
      ensures Value() == Set(old(Value()), Setter.WithNegativePrompt(negativePrompt))
    {
      this.negativePrompt := Some(negativePrompt);
    }

    /** `with_style` (crates/stable-diffusion-api/src/txt2img.rs:146-153). */
    method WithStyle(style: string)
      modifies this
      ensures Value() == AddStyle(old(Value()), style)
    {
      if styles.Some? {
        styles := Some(styles.value + [style]);
      } else {
        WithStyles([style]);
      }
    }
  }
}
