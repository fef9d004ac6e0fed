/**
 * The settings dialogue of the older bot (src/bot/handlers/settings.rs):
 * the summary of a request that the settings keyboard displays, the
 * keyboard itself, the in-place updates of one named setting (the
 * image-to-image one clamps), and the handlers that move the dialogue
 * between the ready state and the two settings states.
 */
module LegacySettings {
  import opened Common
  import opened Text
  import opened Records
  import LegacyTxt2Img
  import LegacyImg2Img
  import BotSettings

  type Txt2Img = LegacyTxt2Img.Txt2ImgRequest
  type Img2Img = LegacyImg2Img.Img2ImgRequest

  /**
   * The dialogue state these handlers match on: ready to generate, or
   * editing one of the two requests with the setting awaiting a value.
   */
  datatype State =
    | Ready(txt2img: Txt2Img, img2img: Img2Img)
    | SettingsTxt2Img(selection: Option<string>, txt2img: Txt2Img, img2img: Img2Img)
    | SettingsImg2Img(selection: Option<string>, txt2img: Txt2Img, img2img: Img2Img)

  /** `InlineKeyboardButton::callback(text, data)`. */
  datatype Button = Button(text: string, data: string)

  const CancelButton := Button("Cancel", "settings_back")

  /**
   * A denoising strength as the request holds it: the text-to-image
   * request keeps a whole number, the image-to-image one a float.
   */
  datatype Strength = Whole(n: u32) | Fraction(f: Float)

  function WholeOf(o: Option<u32>): (r: Option<Strength>)
    ensures r.Some? <==> o.Some?
    ensures o.Some? ==> r.value == Whole(o.value)
  {
    match o
    case Some(n) => Some(Whole(n))
    case None => None
  }

  function FractionOf(o: Option<Float>): (r: Option<Strength>)
    ensures r.Some? <==> o.Some?
    ensures o.Some? ==> r.value == Fraction(o.value)
  {
    match o
    case Some(f) => Some(Fraction(f))
    case None => None
  }

  /**
   * `Settings` (settings.rs:24-39). The denoising strength is copied from
   * the request as it is.
   */
  datatype Settings = Settings(
    steps: u32,
    seed: i64,
    batchSize: u32,
    nIter: u32,
    cfgScale: Float,
    width: u32,
    height: u32,
    negativePrompt: string,
    styles: seq<string>,
    restoreFaces: bool,
    tiling: bool,
    denoisingStrength: Option<Strength>,
    samplerIndex: string
  )

  /** The twelve fields `try_from` insists on. */
  predicate Txt2ImgComplete(r: Txt2Img)
  {
    r.steps.Some? && r.seed.Some? && r.batchSize.Some? && r.nIter.Some? && r.cfgScale.Some?
    && r.width.Some? && r.height.Some? && r.negativePrompt.Some? && r.styles.Some?
    && r.restoreFaces.Some? && r.tiling.Some? && r.samplerIndex.Some?
  }

  predicate Img2ImgComplete(r: Img2Img)
  {
    r.steps.Some? && r.seed.Some? && r.batchSize.Some? && r.nIter.Some? && r.cfgScale.Some?
    && r.width.Some? && r.height.Some? && r.negativePrompt.Some? && r.styles.Some?
    && r.restoreFaces.Some? && r.tiling.Some? && r.samplerIndex.Some?
  }

  /** The error texts of `try_from`, one per required field. */
  const MissingMessages: set<string> := {
    "Missing steps!", "Missing seed!", "Missing batch_size!", "Missing n_iter!", "Missing cfg_scale!",
    "Missing width!", "Missing height!", "Missing negative_prompt!", "Missing styles!",
    "Missing restore_faces!", "Missing tiling!", "Missing sampler_index!"
  }

  /**
   * `TryFrom<&Txt2ImgRequest> for Settings` (settings.rs:97-125): the
   * fields are checked in declaration order and the first missing one
   * names the error.
   */
  function FromTxt2Img(r: Txt2Img): (s: Result<Settings>)
    ensures s.Ok? <==> Txt2ImgComplete(r)
    ensures s.Ok? ==> s.value == Settings(r.steps.value, r.seed.value, r.batchSize.value, r.nIter.value,
      r.cfgScale.value, r.width.value, r.height.value, r.negativePrompt.value, r.styles.value,
      r.restoreFaces.value, r.tiling.value, WholeOf(r.denoisingStrength), r.samplerIndex.value)
    ensures s.Err? ==> s.msg in MissingMessages
    ensures r.steps.None? ==> s == Err("Missing steps!")
  {
    if r.steps.None? then Err("Missing steps!")
    else if r.seed.None? then Err("Missing seed!")
    else if r.batchSize.None? then Err("Missing batch_size!")
    else if r.nIter.None? then Err("Missing n_iter!")
    else if r.cfgScale.None? then Err("Missing cfg_scale!")
    else if r.width.None? then Err("Missing width!")
    else if r.height.None? then Err("Missing height!")
    else if r.negativePrompt.None? then Err("Missing negative_prompt!")
    else if r.styles.None? then Err("Missing styles!")
    else if r.restoreFaces.None? then Err("Missing restore_faces!")
    else if r.tiling.None? then Err("Missing tiling!")
    else if r.samplerIndex.None? then Err("Missing sampler_index!")
    else Ok(Settings(r.steps.value, r.seed.value, r.batchSize.value, r.nIter.value, r.cfgScale.value,
                     r.width.value, r.height.value, r.negativePrompt.value, r.styles.value,
                     r.restoreFaces.value, r.tiling.value, WholeOf(r.denoisingStrength), r.samplerIndex.value))
  }

  /** `TryFrom<&Img2ImgRequest> for Settings` (settings.rs:135-163). */
  function FromImg2Img(r: Img2Img): (s: Result<Settings>)
    ensures s.Ok? <==> Img2ImgComplete(r)
    ensures s.Ok? ==> s.value == Settings(r.steps.value, r.seed.value, r.batchSize.value, r.nIter.value,
      r.cfgScale.value, r.width.value, r.height.value, r.negativePrompt.value, r.styles.value,
      r.restoreFaces.value, r.tiling.value, FractionOf(r.denoisingStrength), r.samplerIndex.value)
    ensures s.Err? ==> s.msg in MissingMessages
    ensures r.steps.None? ==> s == Err("Missing steps!")
  {
    if r.steps.None? then Err("Missing steps!")
    else if r.seed.None? then Err("Missing seed!")
    else if r.batchSize.None? then Err("Missing batch_size!")
    else if r.nIter.None? then Err("Missing n_iter!")
    else if r.cfgScale.None? then Err("Missing cfg_scale!")
    else if r.width.None? then Err("Missing width!")
    else if r.height.None? then Err("Missing height!")
    else if r.negativePrompt.None? then Err("Missing negative_prompt!")
    else if r.styles.None? then Err("Missing styles!")
    else if r.restoreFaces.None? then Err("Missing restore_faces!")
    else if r.tiling.None? then Err("Missing tiling!")
    else if r.samplerIndex.None? then Err("Missing sampler_index!")
    else Ok(Settings(r.steps.value, r.seed.value, r.batchSize.value, r.nIter.value, r.cfgScale.value,
                     r.width.value, r.height.value, r.negativePrompt.value, r.styles.value,
                     r.restoreFaces.value, r.tiling.value, FractionOf(r.denoisingStrength), r.samplerIndex.value))
  }

  /** The summary does not look at the prompt or the sampler name. */
  lemma Txt2ImgSummaryIgnoresPrompt(t: Txt2Img, p: Option<string>, n: Option<string>)
    ensures FromTxt2Img(t.(prompt := p, samplerName := n)) == FromTxt2Img(t)
  {
  }

  /** The summary does not look at the prompt, the sampler name or the init images. */
  lemma Img2ImgSummaryIgnoresPrompt(i: Img2Img, p: Option<string>, n: Option<string>)
    ensures FromImg2Img(i.(prompt := p, samplerName := n, initImages := None)) == FromImg2Img(i)
  {
  }

  /** `bool`'s `Display`. */
  function BoolText(b: bool): (r: string)
    ensures r == "true" <==> b
    ensures r == "false" <==> !b
  {
    if b then "true" else "false"
  }

  /** `Display` of a denoising strength: an integer in decimal, a float as `show` writes it. */
  function ShowStrength(d: Strength, show: Float -> string): string
  {
    match d
    case Whole(n) => FormatInt(n)
    case Fraction(f) => show(f)
  }

  /**
   * `Settings::keyboard` (settings.rs:42-94): five fixed rows of two, then
   * the denoising button beside Cancel when there is a denoising strength,
   * else Cancel alone. `show` is how `f64` is displayed.
   */
  function Keyboard(s: Settings, show: Float -> string): seq<seq<Button>>
  {
    var rows := [
      [Button("Steps: " + FormatInt(s.steps), "settings_steps"), Button("Seed: " + FormatInt(s.seed), "settings_seed")],
      [Button("Batch Count: " + FormatInt(s.nIter), "settings_count"), Button("CFG Scale: " + show(s.cfgScale), "settings_cfg")],
      [Button("Width: " + FormatInt(s.width), "settings_width"), Button("Height: " + FormatInt(s.height), "settings_height")],
      [Button("Negative Prompt", "settings_negative"), Button("Styles", "settings_styles")],
      [Button("Tiling: " + BoolText(s.tiling), "settings_tiling"), Button("Restore Faces: " + BoolText(s.restoreFaces), "settings_faces")]
    ];
    match s.denoisingStrength
    case Some(d) => rows + [[Button("Denoising Strength: " + ShowStrength(d, show), "settings_denoising"), CancelButton]]
    case None => rows + [[CancelButton]]
  }

  /** The setting names both updates accept; a button's data is `settings_` and one of these, or `settings_back`. */
  const SettingNames: set<string> :=
    {"steps", "seed", "count", "cfg", "width", "height", "negative", "styles", "tiling", "faces", "denoising"}

  /**
   * The layout: six rows, two buttons in each of the first five, Cancel
   * last, and a denoising button exactly when there is a strength to show;
   * the first button shows the step count.
   */
  lemma KeyboardLayout(s: Settings, show: Float -> string)
    ensures var k := Keyboard(s, show);
      && |k| == 6
      && (forall j :: 0 <= j < 5 ==> |k[j]| == 2)
      && |k[5]| == (if s.denoisingStrength.Some? then 2 else 1)
      && k[5][|k[5]| - 1] == CancelButton
      && k[0][0].text == "Steps: " + FormatInt(s.steps)
      && (s.denoisingStrength.Some? ==> k[5][0].data == "settings_denoising")
  {
  }

  /** Every button of the keyboard but Cancel selects a setting the updates know. */
  lemma KeyboardNamesKnown(s: Settings, show: Float -> string, j: nat, b: Button)
    requires j < |Keyboard(s, show)| && b in Keyboard(s, show)[j] && b != CancelButton
    ensures StripPrefix(b.data, "settings_").Some?
    ensures StripPrefix(b.data, "settings_").value in SettingNames
  {
    var k := Keyboard(s, show);
    assert j < 5 || (s.denoisingStrength.Some? && b == k[5][0]);
    var name := b.data[9..];
    assert b.data == "settings_" + name;
    assert b.data[..9] == "settings_";
  }

  /** The text of a parse error; the error types' own messages are not modelled. */
  const ParseFailed := "could not parse the value"

  /** A parsed setting value and the field it is for. */
  datatype Write =
    | WriteSteps(steps: u32)
    | WriteSeed(seed: i64)
    | WriteCount(count: u32)
    | WriteCfg(cfg: Float)
    | WriteWidth(width: u32)
    | WriteHeight(height: u32)
    | WriteNegative(negative: string)
    | WriteStyles(styles: seq<string>)
    | WriteTiling(tiling: bool)
    | WriteFaces(faces: bool)
    | WriteDenoising(strength: Strength)

  /**
   * The parsing both update functions share, for every setting but the
   * denoising strength: the value is parsed into the named field's type and
   * the styles are the value split at every single space.
   */
  function SharedWrite(setting: string, value: string): (w: Result<Write>)
    requires setting in SettingNames && setting != "denoising"
    ensures setting in {"steps", "count", "width", "height"} ==> (w.Ok? <==> ParseU32(value).Some?)
    ensures setting == "seed" ==> (w.Ok? <==> ParseI64(value).Some?)
    ensures setting == "cfg" ==> (w.Ok? <==> ParseFloat(value).Some?)
    ensures setting in {"tiling", "faces"} ==> (w.Ok? <==> ParseBool(value).Some?)
    ensures setting in {"negative", "styles"} ==> w.Ok?
    ensures w.Err? ==> w.msg == ParseFailed
    ensures w.Ok? ==> !w.value.WriteDenoising? && WriteName(w.value) == setting
  {
    match setting
    case "steps" => if ParseU32(value).Some? then Ok(WriteSteps(ParseU32(value).value)) else Err(ParseFailed)
    case "seed" => if ParseI64(value).Some? then Ok(WriteSeed(ParseI64(value).value)) else Err(ParseFailed)
    case "count" => if ParseU32(value).Some? then Ok(WriteCount(ParseU32(value).value)) else Err(ParseFailed)
    case "cfg" => if ParseFloat(value).Some? then Ok(WriteCfg(ParseFloat(value).value)) else Err(ParseFailed)
    case "width" => if ParseU32(value).Some? then Ok(WriteWidth(ParseU32(value).value)) else Err(ParseFailed)
    case "height" => if ParseU32(value).Some? then Ok(WriteHeight(ParseU32(value).value)) else Err(ParseFailed)
    case "negative" => Ok(WriteNegative(value))
    case "styles" => Ok(WriteStyles(Split(value, ' ')))
    case "tiling" => if ParseBool(value).Some? then Ok(WriteTiling(ParseBool(value).value)) else Err(ParseFailed)
    case _ => if ParseBool(value).Some? then Ok(WriteFaces(ParseBool(value).value)) else Err(ParseFailed)
  }

  /**
   * The parsing half of `update_txt2img_setting` (settings.rs:315-328):
   * the value is parsed into the named field's type (the denoising
   * strength is a whole number here); the styles are the value split at
   * every single space; an unknown name is an error.
   */
  function Txt2ImgWrite(setting: string, value: string): (w: Result<Write>)
    ensures setting !in SettingNames ==> w == Err("Got invalid setting: " + setting)
    ensures setting in {"steps", "count", "width", "height", "denoising"} ==> (w.Ok? <==> ParseU32(value).Some?)
    ensures setting == "seed" ==> (w.Ok? <==> ParseI64(value).Some?)
    ensures setting == "cfg" ==> (w.Ok? <==> ParseFloat(value).Some?)
    ensures setting in {"tiling", "faces"} ==> (w.Ok? <==> ParseBool(value).Some?)
    ensures setting in {"negative", "styles"} ==> w.Ok?
    ensures w.Err? && setting in SettingNames ==> w.msg == ParseFailed
    ensures w.Ok? && w.value.WriteDenoising? ==> w.value.strength.Whole?
    ensures w.Ok? ==> WriteName(w.value) == setting
  {
    if setting == "denoising" then
      if ParseU32(value).Some? then Ok(WriteDenoising(Whole(ParseU32(value).value))) else Err(ParseFailed)
    else if setting in SettingNames then SharedWrite(setting, value)
    else Err("Got invalid setting: " + setting)
  }

  /** The assignment half: the value goes, unclamped, into its field (`count` is `n_iter`, `faces` is `restore_faces`). */
  function Txt2ImgApply(r: Txt2Img, w: Write): Txt2Img
    requires w.WriteDenoising? ==> w.strength.Whole?
  {
    match w
    case WriteSteps(v) => LegacyTxt2Img.Set(r, LegacyTxt2Img.WithSteps(v))
    case WriteSeed(v) => LegacyTxt2Img.Set(r, LegacyTxt2Img.WithSeed(v))
    case WriteCount(v) => LegacyTxt2Img.Set(r, LegacyTxt2Img.WithNIter(v))
    case WriteCfg(v) => LegacyTxt2Img.Set(r, LegacyTxt2Img.WithCfgScale(v))
    case WriteWidth(v) => LegacyTxt2Img.Set(r, LegacyTxt2Img.WithWidth(v))
    case WriteHeight(v) => LegacyTxt2Img.Set(r, LegacyTxt2Img.WithHeight(v))
    case WriteNegative(v) => LegacyTxt2Img.Set(r, LegacyTxt2Img.WithNegativePrompt(v))
    case WriteStyles(v) => LegacyTxt2Img.Set(r, LegacyTxt2Img.WithStyles(v))
    case WriteTiling(v) => LegacyTxt2Img.Set(r, LegacyTxt2Img.WithTiling(v))
    case WriteFaces(v) => LegacyTxt2Img.Set(r, LegacyTxt2Img.WithRestoreFaces(v))
    case WriteDenoising(d) => r.(denoisingStrength := Some(d.n))
  }

  /** `update_txt2img_setting` (settings.rs:306-331) on the request's value. */
  function Txt2ImgUpdate(r: Txt2Img, setting: string, value: string): (u: Result<Txt2Img>)
    ensures u.Ok? <==> Txt2ImgWrite(setting, value).Ok?
    ensures u.Err? ==> u.msg == Txt2ImgWrite(setting, value).msg
  {
    match Txt2ImgWrite(setting, value)
    case Ok(w) => Ok(Txt2ImgApply(r, w))
    case Err(e) => Err(e)
  }

  /** The setting name a write is for. */
  function WriteName(w: Write): string
  {
    match w
    case WriteSteps(_) => "steps"
    case WriteSeed(_) => "seed"
    case WriteCount(_) => "count"
    case WriteCfg(_) => "cfg"
    case WriteWidth(_) => "width"
    case WriteHeight(_) => "height"
    case WriteNegative(_) => "negative"
    case WriteStyles(_) => "styles"
    case WriteTiling(_) => "tiling"
    case WriteFaces(_) => "faces"
    case WriteDenoising(_) => "denoising"
  }

  /**
   * A text-to-image write changes only the field it is for: putting that
   * field back gives the old request.
   */
  lemma Txt2ImgApplyOneField(r: Txt2Img, w: Write)
    requires w.WriteDenoising? ==> w.strength.Whole?
    ensures var u := Txt2ImgApply(r, w);
      && (w.WriteSteps? ==> u == r.(steps := Some(w.steps)))
      && (w.WriteSeed? ==> u == r.(seed := Some(w.seed)))
      && (w.WriteCount? ==> u == r.(nIter := Some(w.count)))
      && (w.WriteCfg? ==> u == r.(cfgScale := Some(w.cfg)))
      && (w.WriteWidth? ==> u == r.(width := Some(w.width)))
      && (w.WriteHeight? ==> u == r.(height := Some(w.height)))
      && (w.WriteNegative? ==> u == r.(negativePrompt := Some(w.negative)))
      && (w.WriteStyles? ==> u == r.(styles := Some(w.styles)))
      && (w.WriteTiling? ==> u == r.(tiling := Some(w.tiling)))
      && (w.WriteFaces? ==> u == r.(restoreFaces := Some(w.faces)))
      && (w.WriteDenoising? ==> u == r.(denoisingStrength := Some(w.strength.n)))
  {
  }

  /**
   * The styles value is split at single spaces: the pieces hold no space,
   * joining them with spaces gives the value back, and two spaces in a row
   * give an empty style.
   */
  lemma StylesSplit(r: Txt2Img, value: string)
    ensures var u := Txt2ImgUpdate(r, "styles", value).value;
      && u.styles.Some?
      && Join(u.styles.value, ' ') == value
      && (forall k :: 0 <= k < |u.styles.value| ==> ' ' !in u.styles.value[k])
    ensures Txt2ImgUpdate(r, "styles", "a  b").value.styles == Some(["a", "", "b"])
  {
    SplitJoin(value, ' ');
    assert "a  b" == "a" + [' '] + " b";
    assert " b" == "" + [' '] + "b";
    SplitAtSep("a", " b", ' ');
    SplitAtSep("", "b", ' ');
    SplitWithoutSep("b", ' ');
    assert Split("a  b", ' ') == ["a", "", "b"];
  }

  /** Entering the step count the keyboard shows stores the request unchanged. */
  lemma Txt2ImgRetypeSteps(r: Txt2Img)
    requires r.steps.Some?
    ensures Txt2ImgUpdate(r, "steps", FormatInt(r.steps.value)) == Ok(r)
  {
    ParseFormatU32(r.steps.value);
  }

  /** A write keeps every field `try_from` needs, so after a successful update the summary still exists. */
  lemma Txt2ImgApplyKeepsComplete(r: Txt2Img, w: Write)
    requires w.WriteDenoising? ==> w.strength.Whole?
    requires Txt2ImgComplete(r)
    ensures Txt2ImgComplete(Txt2ImgApply(r, w))
  {
    Txt2ImgApplyOneField(r, w);
  }

  /** `f64::clamp(lo, hi)` as `clamp(v, lo, hi)`; floating point is not modelled, so the clamp is supplied. */
  type FloatClamp = (Float, Float, Float) -> Float

  const CfgLow := Float("0.0")
  const CfgHigh := Float("20.0")
  const DenoisingLow := Float("0.0")
  const DenoisingHigh := Float("1.0")

  /**
   * The parsing half of `update_img2img_setting` (settings.rs:342-367):
   * as for text-to-image, but the denoising strength is a float and the
   * error for an unknown name reads differently.
   */
  function Img2ImgWrite(setting: string, value: string): (w: Result<Write>)
    ensures setting !in SettingNames ==> w == Err("invalid setting: " + setting)
    ensures setting in {"steps", "count", "width", "height"} ==> (w.Ok? <==> ParseU32(value).Some?)
    ensures setting == "seed" ==> (w.Ok? <==> ParseI64(value).Some?)
    ensures setting in {"cfg", "denoising"} ==> (w.Ok? <==> ParseFloat(value).Some?)
    ensures setting in {"tiling", "faces"} ==> (w.Ok? <==> ParseBool(value).Some?)
    ensures setting in {"negative", "styles"} ==> w.Ok?
    ensures w.Err? && setting in SettingNames ==> w.msg == ParseFailed
    ensures w.Ok? && w.value.WriteDenoising? ==> w.value.strength.Fraction?
    ensures w.Ok? ==> WriteName(w.value) == setting
  {
    if setting == "denoising" then
      if ParseFloat(value).Some? then Ok(WriteDenoising(Fraction(ParseFloat(value).value))) else Err(ParseFailed)
    else if setting in SettingNames then SharedWrite(setting, value)
    else Err("invalid setting: " + setting)
  }

  /**
   * The assignment half, with the clamps: steps are capped at 200, the
   * seed is raised to at least -1, the count is clamped to [1, 10], width
   * and height are rounded down to a multiple of 64 and clamped to
   * [64, 1024], and the CFG scale and the denoising strength go through
   * `clamp`.
   */
  function Img2ImgApply(r: Img2Img, w: Write, clamp: FloatClamp): Img2Img
    requires w.WriteDenoising? ==> w.strength.Fraction?
  {
    match w
    case WriteSteps(v) => LegacyImg2Img.Set(r, LegacyImg2Img.WithSteps(if v < 200 then v else 200))
    case WriteSeed(v) => LegacyImg2Img.Set(r, LegacyImg2Img.WithSeed(if v > -1 then v else -1))
    case WriteCount(v) => LegacyImg2Img.Set(r, LegacyImg2Img.WithNIter(BotSettings.ClampU32(v, 1, 10)))
    case WriteCfg(v) => LegacyImg2Img.Set(r, LegacyImg2Img.WithCfgScale(clamp(v, CfgLow, CfgHigh)))
    case WriteWidth(v) => LegacyImg2Img.Set(r, LegacyImg2Img.WithWidth(BotSettings.RoundToGrid(v)))
    case WriteHeight(v) => LegacyImg2Img.Set(r, LegacyImg2Img.WithHeight(BotSettings.RoundToGrid(v)))
    case WriteNegative(v) => LegacyImg2Img.Set(r, LegacyImg2Img.WithNegativePrompt(v))
    case WriteStyles(v) => LegacyImg2Img.Set(r, LegacyImg2Img.WithStyles(v))
    case WriteTiling(v) => LegacyImg2Img.Set(r, LegacyImg2Img.WithTiling(v))
    case WriteFaces(v) => LegacyImg2Img.Set(r, LegacyImg2Img.WithRestoreFaces(v))
    case WriteDenoising(d) =>
      LegacyImg2Img.Set(r, LegacyImg2Img.WithDenoisingStrength(clamp(d.f, DenoisingLow, DenoisingHigh)))
  }

  /** `update_img2img_setting` (settings.rs:333-370) on the request's value. */
  function Img2ImgUpdate(r: Img2Img, setting: string, value: string, clamp: FloatClamp): (u: Result<Img2Img>)
    ensures u.Ok? <==> Img2ImgWrite(setting, value).Ok?
    ensures u.Err? ==> u.msg == Img2ImgWrite(setting, value).msg
  {
    match Img2ImgWrite(setting, value)
    case Ok(w) => Ok(Img2ImgApply(r, w, clamp))
    case Err(e) => Err(e)
  }

  /** The image-to-image update keeps the integer settings within their bounds. */
  lemma Img2ImgBounds(r: Img2Img, setting: string, value: string, clamp: FloatClamp)
    requires Img2ImgUpdate(r, setting, value, clamp).Ok?
    ensures var u := Img2ImgUpdate(r, setting, value, clamp).value;
      && (setting == "steps" ==> u.steps.Some? && u.steps.value <= 200)
      && (setting == "seed" ==> u.seed.Some? && u.seed.value >= -1)
      && (setting == "count" ==> u.nIter.Some? && 1 <= u.nIter.value <= 10)
      && (setting == "width" ==> u.width.Some? && u.width.value % 64 == 0 && 64 <= u.width.value <= 1024)
      && (setting == "height" ==> u.height.Some? && u.height.value % 64 == 0 && 64 <= u.height.value <= 1024)
  {
  }

  /** Within the bounds the integers are stored as typed; a width is rounded down to the grid. */
  lemma Img2ImgInRange(r: Img2Img, value: string, clamp: FloatClamp)
    ensures ParseU32(value).Some? && ParseU32(value).value <= 200 ==>
      Img2ImgUpdate(r, "steps", value, clamp) == Ok(r.(steps := ParseU32(value)))
    ensures ParseI64(value).Some? && ParseI64(value).value >= -1 ==>
      Img2ImgUpdate(r, "seed", value, clamp) == Ok(r.(seed := ParseI64(value)))
    ensures ParseU32(value).Some? && 1 <= ParseU32(value).value <= 10 ==>
      Img2ImgUpdate(r, "count", value, clamp) == Ok(r.(nIter := ParseU32(value)))
    ensures ParseU32(value).Some? && 64 <= ParseU32(value).value < 1088 ==>
      var w := Img2ImgUpdate(r, "width", value, clamp).value.width.value;
      w <= ParseU32(value).value < w + 64
  {
  }

  /**
   * An image-to-image write changes only the field it is for, storing the
   * clamped value.
   */
  lemma Img2ImgApplyOneField(r: Img2Img, w: Write, clamp: FloatClamp)
    requires w.WriteDenoising? ==> w.strength.Fraction?
    ensures var u := Img2ImgApply(r, w, clamp);
      && (w.WriteSteps? ==> u == r.(steps := Some(if w.steps < 200 then w.steps else 200)))
      && (w.WriteSeed? ==> u == r.(seed := Some(if w.seed > -1 then w.seed else -1)))
      && (w.WriteCount? ==> u == r.(nIter := Some(BotSettings.ClampU32(w.count, 1, 10))))
      && (w.WriteCfg? ==> u == r.(cfgScale := Some(clamp(w.cfg, CfgLow, CfgHigh))))
      && (w.WriteWidth? ==> u == r.(width := Some(BotSettings.RoundToGrid(w.width))))
      && (w.WriteHeight? ==> u == r.(height := Some(BotSettings.RoundToGrid(w.height))))
      && (w.WriteNegative? ==> u == r.(negativePrompt := Some(w.negative)))
      && (w.WriteStyles? ==> u == r.(styles := Some(w.styles)))
      && (w.WriteTiling? ==> u == r.(tiling := Some(w.tiling)))
      && (w.WriteFaces? ==> u == r.(restoreFaces := Some(w.faces)))
      && (w.WriteDenoising? ==> u == r.(denoisingStrength := Some(clamp(w.strength.f, DenoisingLow, DenoisingHigh))))
  {
  }

  lemma Img2ImgApplyKeepsComplete(r: Img2Img, w: Write, clamp: FloatClamp)
    requires w.WriteDenoising? ==> w.strength.Fraction?
    requires Img2ImgComplete(r)
    ensures Img2ImgComplete(Img2ImgApply(r, w, clamp))
  {
    Img2ImgApplyOneField(r, w, clamp);
  }

  /** A write of one of the whole-number settings. */
  predicate WholeWrite(w: Write)
  {
    w.WriteSteps? || w.WriteSeed? || w.WriteCount? || w.WriteWidth? || w.WriteHeight? || w.WriteDenoising?
  }

  /**
   * `update_txt2img_setting` on the request in place: it changes exactly
   * as the update says when the update succeeds, and not at all otherwise.
   */
  method UpdateTxt2ImgSetting(txt2img: LegacyTxt2Img.Txt2ImgBuilder, setting: string, value: string)
    returns (r: Result<()>)
    modifies txt2img
    ensures var w := Txt2ImgWrite(setting, value);
      && (r.Ok? <==> w.Ok?)
      && (w.Ok? ==> txt2img.Value() == Txt2ImgApply(old(txt2img.Value()), w.value))
      && (w.Err? ==> r == Err(w.msg) && txt2img.Value() == old(txt2img.Value()))
  {
    var w := Txt2ImgWrite(setting, value);
    if w.Err? {
      return Err(w.msg);
    }
    if WholeWrite(w.value) {
      StoreTxt2ImgWhole(txt2img, w.value);
    } else {
      StoreTxt2ImgOther(txt2img, w.value);
    }
    r := Ok(());
  }

  /** The assignment of a whole-number setting. */
  method StoreTxt2ImgWhole(txt2img: LegacyTxt2Img.Txt2ImgBuilder, w: Write)
    requires WholeWrite(w) && (w.WriteDenoising? ==> w.strength.Whole?)
    modifies txt2img
    ensures txt2img.Value() == Txt2ImgApply(old(txt2img.Value()), w)
  {
    match w {
      case WriteSteps(v) => txt2img.WithSteps(v);
      case WriteSeed(v) => txt2img.WithSeed(v);
      case WriteCount(v) => txt2img.WithNIter(v);
      case WriteWidth(v) => txt2img.WithWidth(v);
      case WriteHeight(v) => txt2img.WithHeight(v);
      case WriteDenoising(d) => txt2img.denoisingStrength := Some(d.n);
    }
  }

  /** The assignment of the CFG scale, a text or a flag. */
  method StoreTxt2ImgOther(txt2img: LegacyTxt2Img.Txt2ImgBuilder, w: Write)
    requires !WholeWrite(w)
    modifies txt2img
    ensures txt2img.Value() == Txt2ImgApply(old(txt2img.Value()), w)
  {
    match w {
      case WriteCfg(v) => txt2img.WithCfgScale(v);
      case WriteNegative(v) => txt2img.WithNegativePrompt(v);
      case WriteStyles(v) => txt2img.WithStyles(v);
      case WriteTiling(v) => txt2img.WithTiling(v);
      case WriteFaces(v) => txt2img.WithRestoreFaces(v);
    }
  }

  /** `update_img2img_setting` on the request in place, clamping as `Img2ImgApply` says. */
  method UpdateImg2ImgSetting(img2img: LegacyImg2Img.Img2ImgBuilder, setting: string, value: string, clamp: FloatClamp)
    returns (r: Result<()>)
    modifies img2img
    ensures var w := Img2ImgWrite(setting, value);
      && (r.Ok? <==> w.Ok?)
      && (w.Ok? ==> img2img.Value() == Img2ImgApply(old(img2img.Value()), w.value, clamp))
      && (w.Err? ==> r == Err(w.msg) && img2img.Value() == old(img2img.Value()))
  {
    var w := Img2ImgWrite(setting, value);
    if w.Err? {
      return Err(w.msg);
    }
    if WholeWrite(w.value) && !w.value.WriteDenoising? {
      StoreImg2ImgWhole(img2img, w.value, clamp);
    } else {
      StoreImg2ImgOther(img2img, w.value, clamp);
    }
    r := Ok(());
  }

  /** The assignment of a whole-number setting, clamped. */
  method StoreImg2ImgWhole(img2img: LegacyImg2Img.Img2ImgBuilder, w: Write, clamp: FloatClamp)
    requires WholeWrite(w) && !w.WriteDenoising?
    modifies img2img
    ensures img2img.Value() == Img2ImgApply(old(img2img.Value()), w, clamp)
  {
    match w {
      case WriteSteps(v) => img2img.WithSteps(if 200 < v then 200 else v);
      case WriteSeed(v) => img2img.WithSeed(if -1 > v then -1 else v);
      case WriteCount(v) => img2img.WithNIter(if v < 1 then 1 else if v > 10 then 10 else v);
      case WriteWidth(v) =>
        var x := v;
        x := x - x % 64;
        img2img.WithWidth(if x < 64 then 64 else if x > 1024 then 1024 else x);
      case WriteHeight(v) =>
        var x := v;
        x := x - x % 64;
        img2img.WithHeight(if x < 64 then 64 else if x > 1024 then 1024 else x);
    }
  }

  /** The assignment of the CFG scale, the denoising strength, a text or a flag. */
  method StoreImg2ImgOther(img2img: LegacyImg2Img.Img2ImgBuilder, w: Write, clamp: FloatClamp)
    requires !WholeWrite(w) || w.WriteDenoising?
    requires w.WriteDenoising? ==> w.strength.Fraction?
    modifies img2img
    ensures img2img.Value() == Img2ImgApply(old(img2img.Value()), w, clamp)
  {
    match w {
      case WriteCfg(v) => img2img.WithCfgScale(clamp(v, CfgLow, CfgHigh));
      case WriteDenoising(d) => img2img.WithDenoisingStrength(clamp(d.f, DenoisingLow, DenoisingHigh));
      case WriteNegative(v) => img2img.WithNegativePrompt(v);
      case WriteStyles(v) => img2img.WithStyles(v);
      case WriteTiling(v) => img2img.WithTiling(v);
      case WriteFaces(v) => img2img.WithRestoreFaces(v);
    }
  }

  const MessageGone := "Sorry, this message is no longer available."
  const Oops := "Oops, something went wrong."
  const SomethingWrong := "Sorry, something went wrong."
  const InvalidState := "Invalid settings state"

  /** What a handler sends back. */
  datatype Reply =
    | Answer(text: string)                // the callback is answered with this text, cached for 60 seconds
    | Menu(keyboard: seq<seq<Button>>)    // "Please make a selection." with the settings keyboard
    | AskValue                            // the callback is answered, then "Please enter a new value."
    | BackToPrompt                        // the callback is answered and the menu becomes "Please enter a prompt."
    | InvalidValue(text: string)          // the text is sent as a message

  /** A handler's outcome: the state it stored, if any, and its reply or the error it returned. */
  datatype Effect = Effect(stored: Option<State>, reply: Result<Reply>)

  /** What the message a callback came with replied to. */
  datatype Parent = PhotoParent | TextParent | OtherParent

  /** The message a callback came with: no longer available, or there, with the message it replied to. */
  datatype Source = Gone | Present(parent: Option<Parent>)

  /** The menu for a summary, or the summary's error. */
  function MenuOf(s: Result<Settings>, show: Float -> string): (r: Result<Reply>)
    ensures r.Ok? <==> s.Ok?
    ensures s.Ok? ==> r.value == Menu(Keyboard(s.value, show))
    ensures s.Err? ==> r.msg == s.msg
  {
    match s
    case Ok(v) => Ok(Menu(Keyboard(v, show)))
    case Err(e) => Err(e)
  }

  /**
   * `handle_settings` (settings.rs:173-237), in a ready state: a photo
   * parent opens the image-to-image settings and a text parent the
   * text-to-image ones, with nothing selected; the state is stored before
   * the summary is built, so it is stored even when the summary fails.
   * Anything else stores nothing and answers with an apology.
   */
  function HandleSettings(t: Txt2Img, i: Img2Img, source: Source, show: Float -> string): (e: Effect)
    ensures source == Gone ==> e == Effect(None, Ok(Answer(MessageGone)))
    ensures source.Present? && (source.parent.None? || source.parent == Some(OtherParent)) ==>
      e == Effect(None, Ok(Answer(Oops)))
    ensures source == Present(Some(PhotoParent)) ==>
      e == Effect(Some(SettingsImg2Img(None, t, i)), MenuOf(FromImg2Img(i), show))
    ensures source == Present(Some(TextParent)) ==>
      e == Effect(Some(SettingsTxt2Img(None, t, i)), MenuOf(FromTxt2Img(t), show))
  {
    match source
    case Gone => Effect(None, Ok(Answer(MessageGone)))
    case Present(None) => Effect(None, Ok(Answer(Oops)))
    case Present(Some(PhotoParent)) => Effect(Some(SettingsImg2Img(None, t, i)), MenuOf(FromImg2Img(i), show))
    case Present(Some(TextParent)) => Effect(Some(SettingsTxt2Img(None, t, i)), MenuOf(FromTxt2Img(t), show))
    case Present(Some(OtherParent)) => Effect(None, Ok(Answer(Oops)))
  }

  /** Opening the settings never loses a request, and the image-to-image ones open even without a summary. */
  lemma HandleSettingsStoresFirst(t: Txt2Img, i: Img2Img, show: Float -> string)
    requires !Img2ImgComplete(i)
    ensures var e := HandleSettings(t, i, Present(Some(PhotoParent)), show);
      && e.stored == Some(SettingsImg2Img(None, t, i))
      && e.reply.Err? && e.reply.msg in MissingMessages
  {
  }

  /**
   * `handle_settings_button` (settings.rs:239-304): the data must name a
   * setting after `settings_`; `back` returns to the ready state with the
   * same requests; any other name becomes the selection, in a settings
   * state only.
   */
  function HandleSettingsButton(state: State, hasMessage: bool, data: Option<string>): (e: Effect)
    ensures !hasMessage || data.None? || !StartsWith(data.value, "settings_") ==>
      e == Effect(None, Ok(Answer(SomethingWrong)))
    ensures hasMessage && data == Some("settings_back") ==>
      e == Effect(Some(Ready(state.txt2img, state.img2img)), Ok(BackToPrompt))
    ensures hasMessage && data.Some? && StartsWith(data.value, "settings_") && data.value != "settings_back" ==>
      e == (if state.Ready? then Effect(None, Ok(Answer(SomethingWrong)))
            else Effect(Some(state.(selection := Some(data.value[9..]))), Ok(AskValue)))
  {
    if !hasMessage || data.None? then Effect(None, Ok(Answer(SomethingWrong)))
    else
      match StripPrefix(data.value, "settings_")
      case None => Effect(None, Ok(Answer(SomethingWrong)))
      case Some(setting) =>
        if setting == "back" then Effect(Some(Ready(state.txt2img, state.img2img)), Ok(BackToPrompt))
        else if state.Ready? then Effect(None, Ok(Answer(SomethingWrong)))
        else Effect(Some(state.(selection := Some(setting))), Ok(AskValue))
  }

  /**
   * The callback filter only asks for `settings`, so data such as
   * `settingsX` reaches the button handler, which refuses it.
   */
  lemma ButtonNeedsUnderscore(state: State)
    ensures SettingsCallback(Some("settingsX"))
    ensures HandleSettingsButton(state, true, Some("settingsX")) == Effect(None, Ok(Answer(SomethingWrong)))
  {
    assert "settingsX"[8] != "settings_"[8];
    assert "settingsX"[..8] == "settings";
  }

  /** Opening the settings and pressing Cancel gives back the ready state it started from. */
  lemma OpenThenCancel(t: Txt2Img, i: Img2Img, parent: Parent, show: Float -> string)
    requires parent != OtherParent
    ensures var entered := HandleSettings(t, i, Present(Some(parent)), show).stored.value;
      HandleSettingsButton(entered, true, Some("settings_back")).stored == Some(Ready(t, i))
  {
  }

  const ValidValuePrefix := "Please enter a valid value: "

  /**
   * `handle_settings_value` (settings.rs:372-417): the selected setting is
   * updated from the text; an invalid value is reported and nothing is
   * stored; otherwise the selection is cleared and the state is stored
   * once the summary of the updated request has been built. A ready state
   * is an error.
   */
  function SettingsValue(state: State, text: string, clamp: FloatClamp, show: Float -> string): (e: Effect)
    ensures state.Ready? ==> e == Effect(None, Err(InvalidState))
    ensures e.stored.Some? ==> (
      && !e.stored.value.Ready? && e.stored.value.selection.None?
      && (state.SettingsTxt2Img? <==> e.stored.value.SettingsTxt2Img?)
      && (state.SettingsImg2Img? <==> e.stored.value.SettingsImg2Img?)
      && (state.SettingsTxt2Img? ==> e.stored.value.img2img == state.img2img)
      && (state.SettingsImg2Img? ==> e.stored.value.txt2img == state.txt2img))
    ensures state.SettingsTxt2Img? && state.selection.Some? && Txt2ImgUpdate(state.txt2img, state.selection.value, text).Err? ==>
      e == Effect(None, Ok(InvalidValue(ValidValuePrefix + Txt2ImgUpdate(state.txt2img, state.selection.value, text).msg + ".")))
    ensures state.SettingsImg2Img? && state.selection.Some? && Img2ImgUpdate(state.img2img, state.selection.value, text, clamp).Err? ==>
      e == Effect(None, Ok(InvalidValue(ValidValuePrefix + Img2ImgUpdate(state.img2img, state.selection.value, text, clamp).msg + ".")))
    ensures state.SettingsTxt2Img? && e.stored.Some? ==>
      e.stored.value.txt2img == (if state.selection.Some? then Txt2ImgUpdate(state.txt2img, state.selection.value, text).value else state.txt2img)
    ensures state.SettingsImg2Img? && e.stored.Some? ==>
      e.stored.value.img2img == (if state.selection.Some? then Img2ImgUpdate(state.img2img, state.selection.value, text, clamp).value else state.img2img)
    ensures e.stored.Some? <==> e.reply.Ok? && e.reply.value.Menu?
  {
    match state
    case Ready(_, _) => Effect(None, Err(InvalidState))
    case SettingsTxt2Img(selection, t, i) =>
      var u := if selection.Some? then Txt2ImgUpdate(t, selection.value, text) else Ok(t);
      if u.Err? then Effect(None, Ok(InvalidValue(ValidValuePrefix + u.msg + ".")))
      else (
        match FromTxt2Img(u.value)
        case Err(m) => Effect(None, Err(m))
        case Ok(s) => Effect(Some(SettingsTxt2Img(None, u.value, i)), Ok(Menu(Keyboard(s, show)))))
    case SettingsImg2Img(selection, t, i) =>
      var u := if selection.Some? then Img2ImgUpdate(i, selection.value, text, clamp) else Ok(i);
      if u.Err? then Effect(None, Ok(InvalidValue(ValidValuePrefix + u.msg + ".")))
      else (
        match FromImg2Img(u.value)
        case Err(m) => Effect(None, Err(m))
        case Ok(s) => Effect(Some(SettingsImg2Img(None, t, u.value)), Ok(Menu(Keyboard(s, show)))))
  }

  /**
   * `handle_settings_value` as the source runs it: the selected request is
   * updated in place and the selection cleared on the state it read.
   */
  method HandleSettingsValue(state: State, text: string, clamp: FloatClamp, show: Float -> string) returns (e: Effect)
    ensures e == SettingsValue(state, text, clamp, show)
  {
    if state.Ready? {
      return Effect(None, Err(InvalidState));
    }
    if state.SettingsTxt2Img? {
      var txt2img := new LegacyTxt2Img.Txt2ImgBuilder(state.txt2img);
      if state.selection.Some? {
        var u := UpdateTxt2ImgSetting(txt2img, state.selection.value, text);
        if u.Err? {
          return Effect(None, Ok(InvalidValue(ValidValuePrefix + u.msg + ".")));
        }
      }
      var settings := FromTxt2Img(txt2img.Value());
      if settings.Err? {
        return Effect(None, Err(settings.msg));
      }
      e := Effect(Some(SettingsTxt2Img(None, txt2img.Value(), state.img2img)), Ok(Menu(Keyboard(settings.value, show))));
    } else {
      var img2img := new LegacyImg2Img.Img2ImgBuilder(state.img2img);
      if state.selection.Some? {
        var u := UpdateImg2ImgSetting(img2img, state.selection.value, text, clamp);
        if u.Err? {
          return Effect(None, Ok(InvalidValue(ValidValuePrefix + u.msg + ".")));
        }
      }
      var settings := FromImg2Img(img2img.Value());
      if settings.Err? {
        return Effect(None, Err(settings.msg));
      }
      e := Effect(Some(SettingsImg2Img(None, state.txt2img, img2img.Value())), Ok(Menu(Keyboard(settings.value, show))));
    }
  }

  /**
   * Pressing a setting's button and then sending a valid value stores the
   * updated request with nothing selected, and shows its keyboard.
   */
  lemma SelectThenValue(t: Txt2Img, i: Img2Img, name: string, text: string, clamp: FloatClamp, show: Float -> string)
    requires name != "back" && Txt2ImgComplete(t) && Txt2ImgUpdate(t, name, text).Ok?
    ensures var selected := HandleSettingsButton(SettingsTxt2Img(None, t, i), true, Some("settings_" + name)).stored;
      && selected == Some(SettingsTxt2Img(Some(name), t, i))
      && SettingsValue(selected.value, text, clamp, show).stored == Some(SettingsTxt2Img(None, Txt2ImgUpdate(t, name, text).value, i))
  {
    var data := "settings_" + name;
    assert data[..9] == "settings_";
    assert data[9..] == name;
    Txt2ImgApplyKeepsComplete(t, Txt2ImgWrite(name, text).value);
  }

  /** An invalid value keeps the selection: sending a valid one next still updates the chosen setting. */
  lemma InvalidKeepsSelection(t: Txt2Img, i: Img2Img, name: string, text: string, clamp: FloatClamp, show: Float -> string)
    requires Txt2ImgUpdate(t, name, text).Err?
    ensures SettingsValue(SettingsTxt2Img(Some(name), t, i), text, clamp, show).stored.None?
    ensures SettingsValue(SettingsTxt2Img(Some(name), t, i), text, clamp, show).reply.value.InvalidValue?
  {
  }

  /** `SettingsCommands` (settings.rs:15-22). */
  datatype SettingsCommand = Txt2ImgSettings | Img2ImgSettings

  /**
   * The settings command handler (settings.rs:420-473): from any state,
   * the chosen request is opened for editing with nothing selected, the
   * state is stored, and then the summary is shown or its error returned.
   */
  function SettingsCommandEffect(state: State, cmd: SettingsCommand, show: Float -> string): (e: Effect)
    ensures cmd == Img2ImgSettings ==>
      e == Effect(Some(SettingsImg2Img(None, state.txt2img, state.img2img)), MenuOf(FromImg2Img(state.img2img), show))
    ensures cmd == Txt2ImgSettings ==>
      e == Effect(Some(SettingsTxt2Img(None, state.txt2img, state.img2img)), MenuOf(FromTxt2Img(state.txt2img), show))
  {
    match cmd
    case Img2ImgSettings => Effect(Some(SettingsImg2Img(None, state.txt2img, state.img2img)), MenuOf(FromImg2Img(state.img2img), show))
    case Txt2ImgSettings => Effect(Some(SettingsTxt2Img(None, state.txt2img, state.img2img)), MenuOf(FromTxt2Img(state.txt2img), show))
  }

  /** The command keeps both requests and drops any selection, whatever state it starts from. */
  lemma CommandKeepsRequests(state: State, cmd: SettingsCommand, show: Float -> string)
    ensures var s := SettingsCommandEffect(state, cmd, show).stored.value;
      s.txt2img == state.txt2img && s.img2img == state.img2img && !s.Ready? && s.selection.None?
  {
  }

  /** With requests whose fields are all unset, the command stores the settings state and fails on the missing steps. */
  lemma CommandOnEmptyRequests(cmd: SettingsCommand, show: Float -> string)
    ensures var e := SettingsCommandEffect(Ready(LegacyTxt2Img.Default(), LegacyImg2Img.Default()), cmd, show);
      e.stored.Some? && e.reply == Err("Missing steps!")
  {
  }

  /** The callback filter (settings.rs:475-481). */
  predicate SettingsCallback(data: Option<string>)
  {
    data.Some? && StartsWith(data.value, "settings")
  }

  /** An update the settings schema is offered. */
  datatype Update =
    | CommandMessage(cmd: SettingsCommand)
    | TextMessage(text: string)
    | OtherMessage
    | CallbackQuery(data: Option<string>)

  /** The handler an update reaches. */
  datatype Route = RunCommand(cmd: SettingsCommand) | ToValue(text: string) | AskValid | ToHandleSettings | ToButton | NotHandled

  /**
   * `settings_schema` (settings.rs:419-548): commands first; in a settings
   * state a text is a value and any other message is refused; a settings
   * callback opens the settings in a ready state and is a button press in
   * a settings state.
   */
  function RouteSettings(state: State, u: Update): (r: Route)
    ensures u.CommandMessage? ==> r == RunCommand(u.cmd)
    ensures u.TextMessage? ==> r == (if state.Ready? then NotHandled else ToValue(u.text))
    ensures u.OtherMessage? ==> r == (if state.Ready? then NotHandled else AskValid)
    ensures u.CallbackQuery? ==>
      r == (if !SettingsCallback(u.data) then NotHandled else if state.Ready? then ToHandleSettings else ToButton)
  {
    match u
    case CommandMessage(cmd) => RunCommand(cmd)
    case TextMessage(text) => if state.Ready? then NotHandled else ToValue(text)
    case OtherMessage => if state.Ready? then NotHandled else AskValid
    case CallbackQuery(data) =>
      if !SettingsCallback(data) then NotHandled
      else if state.Ready? then ToHandleSettings
      else ToButton
  }

  /** In a ready state, messages pass the settings schema by; in a settings state every message stops there. */
  lemma RouteByState(state: State, u: Update)
    requires !u.CommandMessage? && !u.CallbackQuery?
    ensures state.Ready? <==> RouteSettings(state, u) == NotHandled
  {
  }
}
