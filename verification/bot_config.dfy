/**
 * The dialogue state, the built-in request defaults and the builder of the
 * Telegram bot (crates/stable-diffusion-bot/src/bot/mod.rs). The builder
 * methods take the builder by value and return it, so they are functions.
 */
module Bot {
  import opened Common
  import opened Records
  import SdTxt2Img
  import SdImg2Img

  /** The per-chat dialogue state (mod.rs:22-40); `New` is the derived default. */
  datatype State =
    | New
    | Ready(txt2img: SdTxt2Img.Txt2ImgRequest, img2img: SdImg2Img.Img2ImgRequest)
    | SettingsTxt2Img(selection: Option<string>, txt2img: SdTxt2Img.Txt2ImgRequest,
                      img2img: SdImg2Img.Img2ImgRequest)
    | SettingsImg2Img(selection: Option<string>, txt2img: SdTxt2Img.Txt2ImgRequest,
                      img2img: SdImg2Img.Img2ImgRequest)

  /** `State::default()`: a chat that has not started yet. */
  function DefaultState(): (s: State)
    ensures s.New?
  {
    New
  }

  /** `State::new_with_defaults`: ready to generate with the two requests. */
  function NewWithDefaults(txt2img: SdTxt2Img.Txt2ImgRequest, img2img: SdImg2Img.Img2ImgRequest): (s: State)
    ensures s.Ready? && s.txt2img == txt2img && s.img2img == img2img
  {
    Ready(txt2img, img2img)
  }

  /** The fields `default_txt2img` sets; every other field keeps its `Default` value `None`. */
  predicate Txt2ImgPreset(f: SdTxt2Img.Field)
  {
    f in {SdTxt2Img.Styles, SdTxt2Img.Seed, SdTxt2Img.SamplerIndex, SdTxt2Img.BatchSize,
          SdTxt2Img.NIter, SdTxt2Img.Steps, SdTxt2Img.CfgScale, SdTxt2Img.Width,
          SdTxt2Img.Height, SdTxt2Img.RestoreFaces, SdTxt2Img.Tiling, SdTxt2Img.NegativePrompt}
  }

  /**
   * `default_txt2img` (mod.rs:48-64): no styles, a random seed, the Euler
   * sampler, one image of 512×512 in 50 steps, no face restoration or
   * tiling and an empty negative prompt. The CFG scale 7.0 is kept as its
   * literal.
   */
  function DefaultTxt2Img(): (r: SdTxt2Img.Txt2ImgRequest)
    ensures r.styles == Some([]) && r.seed == Some(-1) && r.samplerIndex == Some("Euler")
    ensures r.batchSize == Some(1) && r.nIter == Some(1) && r.steps == Some(50)
    ensures r.cfgScale == Some(Float("7.0")) && r.width == Some(512) && r.height == Some(512)
    ensures r.restoreFaces == Some(false) && r.tiling == Some(false) && r.negativePrompt == Some("")
    ensures forall f :: !Txt2ImgPreset(f) ==> SdTxt2Img.Get(r, f) == None
  {
    SdTxt2Img.Default().(styles := Some([]), seed := Some(-1), samplerIndex := Some("Euler"),
                         batchSize := Some(1), nIter := Some(1), steps := Some(50),
                         cfgScale := Some(Float("7.0")), width := Some(512), height := Some(512),
                         restoreFaces := Some(false), tiling := Some(false), negativePrompt := Some(""))
  }

  /** The fields `default_img2img` sets: those of `default_txt2img` plus denoising and resize mode. */
  predicate Img2ImgPreset(f: SdImg2Img.Field)
  {
    f in {SdImg2Img.DenoisingStrength, SdImg2Img.Styles, SdImg2Img.Seed, SdImg2Img.SamplerIndex,
          SdImg2Img.BatchSize, SdImg2Img.NIter, SdImg2Img.Steps, SdImg2Img.CfgScale,
          SdImg2Img.Width, SdImg2Img.Height, SdImg2Img.RestoreFaces, SdImg2Img.Tiling,
          SdImg2Img.NegativePrompt, SdImg2Img.ResizeMode}
  }

  /**
   * `default_img2img` (mod.rs:66-84): the text-to-image defaults, a
   * denoising strength of 0.75 and resize mode 1; no initial images.
   */
  function DefaultImg2Img(): (r: SdImg2Img.Img2ImgRequest)
    ensures r.denoisingStrength == Some(Float("0.75")) && r.resizeMode == Some(1)
    ensures r.styles == Some([]) && r.seed == Some(-1) && r.samplerIndex == Some("Euler")
    ensures r.batchSize == Some(1) && r.nIter == Some(1) && r.steps == Some(50)
    ensures r.cfgScale == Some(Float("7.0")) && r.width == Some(512) && r.height == Some(512)
    ensures r.restoreFaces == Some(false) && r.tiling == Some(false) && r.negativePrompt == Some("")
    ensures forall f :: !Img2ImgPreset(f) ==> SdImg2Img.Get(r, f) == None
  {
    SdImg2Img.Default().(denoisingStrength := Some(Float("0.75")), styles := Some([]), seed := Some(-1),
                         samplerIndex := Some("Euler"), batchSize := Some(1), nIter := Some(1),
                         steps := Some(50), cfgScale := Some(Float("7.0")), width := Some(512),
                         height := Some(512), restoreFaces := Some(false), tiling := Some(false),
                         negativePrompt := Some(""), resizeMode := Some(1))
  }

  /** The two defaults agree on every setting they share. */
  lemma DefaultsAgree()
    ensures DefaultTxt2Img().seed == DefaultImg2Img().seed
    ensures DefaultTxt2Img().steps == DefaultImg2Img().steps
    ensures DefaultTxt2Img().width == DefaultImg2Img().width
    ensures DefaultTxt2Img().height == DefaultImg2Img().height
    ensures DefaultTxt2Img().nIter == DefaultImg2Img().nIter
    ensures DefaultTxt2Img().negativePrompt == DefaultImg2Img().negativePrompt
  {
  }

  /** `StableDiffusionBotBuilder` (mod.rs:160-168). */
  datatype BotBuilder = BotBuilder(
    apiKey: string,
    allowedUsers: seq<u64>,
    dbPath: Option<string>,
    sdApiUrl: string,
    txt2imgDefaults: Option<SdTxt2Img.Txt2ImgRequest>,
    img2imgDefaults: Option<SdImg2Img.Img2ImgRequest>
  )

  /** `StableDiffusionBotBuilder::new` (mod.rs:172-181): no database path and no defaults yet. */
  function NewBuilder(apiKey: string, allowedUsers: seq<u64>, sdApiUrl: string): (b: BotBuilder)
    ensures b.apiKey == apiKey && b.allowedUsers == allowedUsers && b.sdApiUrl == sdApiUrl
    ensures b.dbPath.None? && b.txt2imgDefaults.None? && b.img2imgDefaults.None?
  {
    BotBuilder(apiKey, allowedUsers, None, sdApiUrl, None, None)
  }

  /** `db_path` (mod.rs:196-199). */
  function DbPath(b: BotBuilder, path: Option<string>): BotBuilder
  {
    b.(dbPath := path)
  }

  /** `txt2img_defaults` (mod.rs:214-217). */
  function Txt2ImgDefaults(b: BotBuilder, request: Option<SdTxt2Img.Txt2ImgRequest>): BotBuilder
  {
    b.(txt2imgDefaults := request)
  }

  /** `img2img_defaults` (mod.rs:232-235). */
  function Img2ImgDefaults(b: BotBuilder, request: Option<SdImg2Img.Img2ImgRequest>): BotBuilder
  {
    b.(img2imgDefaults := request)
  }

  /** Each builder method replaces its own field and keeps every other one. */
  lemma BuilderFields(b: BotBuilder, path: Option<string>, t: Option<SdTxt2Img.Txt2ImgRequest>,
                      i: Option<SdImg2Img.Img2ImgRequest>)
    ensures var d := DbPath(b, path);
      d.dbPath == path && d.txt2imgDefaults == b.txt2imgDefaults && d.img2imgDefaults == b.img2imgDefaults
      && d.apiKey == b.apiKey && d.allowedUsers == b.allowedUsers && d.sdApiUrl == b.sdApiUrl
    ensures var d := Txt2ImgDefaults(b, t);
      d.txt2imgDefaults == t && d.dbPath == b.dbPath && d.img2imgDefaults == b.img2imgDefaults
      && d.apiKey == b.apiKey && d.allowedUsers == b.allowedUsers && d.sdApiUrl == b.sdApiUrl
    ensures var d := Img2ImgDefaults(b, i);
      d.img2imgDefaults == i && d.dbPath == b.dbPath && d.txt2imgDefaults == b.txt2imgDefaults
      && d.apiKey == b.apiKey && d.allowedUsers == b.allowedUsers && d.sdApiUrl == b.sdApiUrl
  {
  }

  /** Builder calls on different fields commute, and the last call on a field wins. */
  lemma BuilderCommute(b: BotBuilder, path: Option<string>, path2: Option<string>,
                       t: Option<SdTxt2Img.Txt2ImgRequest>, i: Option<SdImg2Img.Img2ImgRequest>)
    ensures DbPath(Txt2ImgDefaults(b, t), path) == Txt2ImgDefaults(DbPath(b, path), t)
    ensures DbPath(Img2ImgDefaults(b, i), path) == Img2ImgDefaults(DbPath(b, path), i)
    ensures Txt2ImgDefaults(Img2ImgDefaults(b, i), t) == Img2ImgDefaults(Txt2ImgDefaults(b, t), i)
    ensures DbPath(DbPath(b, path), path2) == DbPath(b, path2)
  {
  }

  /** `ConfigParameters` (mod.rs:152-158) without the API client, which is kept as its URL. */
  datatype ConfigParameters = ConfigParameters(
    allowedUsers: set<u64>,
    sdApiUrl: string,
    txt2imgDefaults: SdTxt2Img.Txt2ImgRequest,
    img2imgDefaults: SdImg2Img.Img2ImgRequest
  )

  const DbOpenFailed := "failed to open db"
  const ApiInitFailed := "Failed to initialize sd api"

  /**
   * `build` (mod.rs:246-277). Opening the database and parsing the API
   * URL are done by libraries and are parameters here; the first failure
   * is reported. The defaults that were not supplied are the built-in ones.
   */
  function Build(b: BotBuilder, dbOpens: string -> bool, urlParses: string -> bool): (r: Result<ConfigParameters>)
    ensures b.dbPath.Some? && !dbOpens(b.dbPath.value) ==> r == Err(DbOpenFailed)
    ensures (b.dbPath.None? || dbOpens(b.dbPath.value)) && !urlParses(b.sdApiUrl) ==> r == Err(ApiInitFailed)
    ensures r.Ok? <==> (b.dbPath.None? || dbOpens(b.dbPath.value)) && urlParses(b.sdApiUrl)
    ensures r.Ok? ==> r.value.txt2imgDefaults == (if b.txt2imgDefaults.Some? then b.txt2imgDefaults.value else DefaultTxt2Img())
    ensures r.Ok? ==> r.value.img2imgDefaults == (if b.img2imgDefaults.Some? then b.img2imgDefaults.value else DefaultImg2Img())
    ensures r.Ok? ==> forall u :: u in r.value.allowedUsers <==> u in b.allowedUsers
  {
    if b.dbPath.Some? && !dbOpens(b.dbPath.value) then Err(DbOpenFailed)
    else if !urlParses(b.sdApiUrl) then Err(ApiInitFailed)
    else Ok(ConfigParameters((set u | u in b.allowedUsers), b.sdApiUrl,
                             b.txt2imgDefaults.UnwrapOr(DefaultTxt2Img()),
                             b.img2imgDefaults.UnwrapOr(DefaultImg2Img())))
  }

  /**
   * The authentication filter of `schema` (mod.rs:101-105): an update
   * passes when it has a user whose id is allowed.
   */
  predicate AuthPasses(cfg: ConfigParameters, user: Option<u64>)
  {
    user.Some? && user.value in cfg.allowedUsers
  }

  /**
   * For a built bot, exactly the users listed to the builder pass, and an
   * update without a user never does.
   */
  lemma AuthAfterBuild(b: BotBuilder, dbOpens: string -> bool, urlParses: string -> bool, user: u64)
    requires Build(b, dbOpens, urlParses).Ok?
    ensures AuthPasses(Build(b, dbOpens, urlParses).value, Some(user)) <==> user in b.allowedUsers
    ensures !AuthPasses(Build(b, dbOpens, urlParses).value, None)
  {
  }

  /** A builder fresh from `new` builds with the built-in defaults. */
  lemma NewBuildsDefaults(apiKey: string, allowedUsers: seq<u64>, sdApiUrl: string,
                          dbOpens: string -> bool, urlParses: string -> bool)
    requires urlParses(sdApiUrl)
    ensures Build(NewBuilder(apiKey, allowedUsers, sdApiUrl), dbOpens, urlParses).Ok?
    ensures Build(NewBuilder(apiKey, allowedUsers, sdApiUrl), dbOpens, urlParses).value.txt2imgDefaults == DefaultTxt2Img()
    ensures Build(NewBuilder(apiKey, allowedUsers, sdApiUrl), dbOpens, urlParses).value.img2imgDefaults == DefaultImg2Img()
  {
  }
}
