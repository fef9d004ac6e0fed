/**
 * The settings dialogue of the backend-neutral bot
 * (crates/stable-diffusion-bot/src/bot/handlers/settings.rs): the settings
 * keyboard, parsing and clamping a typed value into a setter call, and the
 * state each handler leaves behind. A setter call on a boxed `GenParams`
 * is `SalParams.Assign` on what its getters report.
 */
module BotSettings {
  import opened Common
  import opened Text
  import opened SalParams
  import opened BotHandlers

  /** `Settings` (settings.rs:32-53): the values the keyboard shows. */
  datatype Settings = Settings(
    steps: Option<u32>,
    seed: Option<i64>,
    batchSize: Option<u32>,
    nIter: Option<u32>,
    cfgScale: Option<Float>,
    width: Option<u32>,
    height: Option<u32>,
    negativePrompt: Option<string>,
    denoisingStrength: Option<Float>,
    samplerIndex: Option<string>
  )

  /** `From<&dyn GenParams> for Settings` (settings.rs:111-126): one getter per field, `count` as `n_iter`. */
  function FromParams(v: ParamValues): (s: Settings)
    ensures s.steps == v.steps && s.seed == v.seed && s.batchSize == v.batchSize
    ensures s.nIter == v.count && s.cfgScale == v.cfg && s.width == v.width && s.height == v.height
    ensures s.negativePrompt == v.negativePrompt && s.denoisingStrength == v.denoising
    ensures s.samplerIndex == v.sampler
  {
    Settings(v.steps, v.seed, v.batchSize, v.count, v.cfg, v.width, v.height,
             v.negativePrompt, v.denoising, v.sampler)
  }

  /** An inline keyboard button: its label and its callback data. */
  datatype Button = Button(text: string, data: string)

  const CancelButton := Button("Cancel", "settings_back")

  /**
   * The candidate buttons of `Settings::keyboard` (settings.rs:59-99), one
   * per shown setting in a fixed order, absent where the setting is; the
   * float labels use the given formatting of `f32`.
   */
  function Candidates(s: Settings, show: Float -> string): (r: seq<Option<Button>>)
    ensures |r| == 9 && r[8] == Some(CancelButton)
  {
    [ if s.steps.Some? then Some(Button("Steps: " + FormatInt(s.steps.value), "settings_steps")) else None,
      if s.seed.Some? then Some(Button("Seed: " + FormatInt(s.seed.value), "settings_seed")) else None,
      if s.nIter.Some? then Some(Button("Batch Count: " + FormatInt(s.nIter.value), "settings_count")) else None,
      if s.cfgScale.Some? then Some(Button("CFG Scale: " + show(s.cfgScale.value), "settings_cfg")) else None,
      if s.width.Some? then Some(Button("Width: " + FormatInt(s.width.value), "settings_width")) else None,
      if s.height.Some? then Some(Button("Height: " + FormatInt(s.height.value), "settings_height")) else None,
      if s.negativePrompt.Some? then Some(Button("Negative Prompt", "settings_negative")) else None,
      if s.denoisingStrength.Some? then
        Some(Button("Denoising Strength: " + show(s.denoisingStrength.value), "settings_denoising"))
      else None,
      Some(CancelButton) ]
  }

  /** `flatten` over options: the present values, in order. */
  function Present<T>(xs: seq<Option<T>>): (r: seq<T>)
    ensures |r| <= |xs|
  {
    if |xs| == 0 then []
    else (if xs[0].Some? then [xs[0].value] else []) + Present(xs[1..])
  }

  /** `chunks(n)`: consecutive rows of `n`, the last one possibly shorter. */
  function Chunks<T>(xs: seq<T>, n: nat): seq<seq<T>>
    requires n > 0
    decreases |xs|
  {
    if |xs| == 0 then [] else if |xs| <= n then [xs] else [xs[..n]] + Chunks(xs[n..], n)
  }

  /** The buttons of a keyboard, row after row. */
  function Concat<T>(rows: seq<seq<T>>): seq<T>
  {
    if |rows| == 0 then [] else rows[0] + Concat(rows[1..])
  }

  /** `Settings::keyboard` (settings.rs:57-108): the present buttons in rows of two. */
  function Keyboard(s: Settings, show: Float -> string): seq<seq<Button>>
  {
    Chunks(Present(Candidates(s, show)), 2)
  }

  lemma {:induction false} PresentAppend<T>(xs: seq<Option<T>>, ys: seq<Option<T>>)
    ensures Present(xs + ys) == Present(xs) + Present(ys)
    decreases |xs|
  {
    if |xs| > 0 {
      PresentAppend(xs[1..], ys);
      assert (xs + ys)[1..] == xs[1..] + ys;
    } else {
      assert xs + ys == ys;
    }
  }

  lemma {:induction false} PresentMembers<T>(xs: seq<Option<T>>, x: T)
    ensures x in Present(xs) <==> Some(x) in xs
    decreases |xs|
  {
    if |xs| > 0 {
      PresentMembers(xs[1..], x);
      assert xs == [xs[0]] + xs[1..];
    }
  }

  lemma {:induction false} ConcatChunks<T>(xs: seq<T>, n: nat)
    requires n > 0
    ensures Concat(Chunks(xs, n)) == xs
    decreases |xs|
  {
    if |xs| > n {
      ConcatChunks(xs[n..], n);
      assert xs == xs[..n] + xs[n..];
    }
  }

  lemma {:induction false} ChunkSizes<T>(xs: seq<T>, n: nat)
    requires n > 0
    ensures forall i :: 0 <= i < |Chunks(xs, n)| ==> 1 <= |Chunks(xs, n)[i]| <= n
    ensures forall i :: 0 <= i < |Chunks(xs, n)| - 1 ==> |Chunks(xs, n)[i]| == n
    decreases |xs|
  {
    if |xs| > n {
      ChunkSizes(xs[n..], n);
    }
  }

  /**
   * The keyboard holds one button per present setting, in the fixed order,
   * then Cancel last; every row but the last has two buttons, the last one
   * or two.
   */
  lemma KeyboardLayout(s: Settings, show: Float -> string)
    ensures Concat(Keyboard(s, show)) == Present(Candidates(s, show))
    ensures |Keyboard(s, show)| > 0
    ensures forall i :: 0 <= i < |Keyboard(s, show)| - 1 ==> |Keyboard(s, show)[i]| == 2
    ensures 1 <= |Keyboard(s, show)[|Keyboard(s, show)| - 1]| <= 2
    ensures var b := Concat(Keyboard(s, show)); |b| > 0 && b[|b| - 1] == CancelButton
    ensures forall b :: b in Concat(Keyboard(s, show)) <==> Some(b) in Candidates(s, show)
  {
    var c := Candidates(s, show);
    ConcatChunks(Present(c), 2);
    ChunkSizes(Present(c), 2);
    PresentAppend(c[..8], [c[8]]);
    assert c == c[..8] + [c[8]];
    assert Present([c[8]]) == [CancelButton];
    forall b
      ensures b in Present(c) <==> Some(b) in c
    {
      PresentMembers(c, b);
    }
  }

  /** The steps button is shown exactly when the steps are known. */
  lemma KeyboardShowsSteps(s: Settings, show: Float -> string)
    ensures (exists b :: b in Concat(Keyboard(s, show)) && b.data == "settings_steps") <==> s.steps.Some?
  {
    KeyboardLayout(s, show);
    var c := Candidates(s, show);
    if s.steps.Some? {
      assert c[0].value in Concat(Keyboard(s, show));
    }
  }

  const ParseFailed := "could not parse the value"

  /** `value.parse()?` for the setter of `setting`, unclamped. */
  function Txt2ImgUpdate(setting: string, value: string): (r: Result<Setting>)
    ensures setting !in {"steps", "seed", "count", "cfg", "width", "height", "negative", "denoising"}
      ==> r == Err("Got invalid setting: " + setting)
    ensures setting == "negative" ==> r == Ok(SetNegativePrompt(value))
    ensures setting in {"steps", "count", "width", "height"} ==> (r.Ok? <==> ParseU32(value).Some?)
    ensures setting == "seed" ==> (r.Ok? <==> ParseI64(value).Some?)
    ensures setting in {"cfg", "denoising"} ==> (r.Ok? <==> ParseFloat(value).Some?)
  {
    match setting
    case "steps" => if ParseU32(value).Some? then Ok(SetSteps(ParseU32(value).value)) else Err(ParseFailed)
    case "seed" => if ParseI64(value).Some? then Ok(SetSeed(ParseI64(value).value)) else Err(ParseFailed)
    case "count" => if ParseU32(value).Some? then Ok(SetCount(ParseU32(value).value)) else Err(ParseFailed)
    case "cfg" => if ParseFloat(value).Some? then Ok(SetCfg(ParseFloat(value).value)) else Err(ParseFailed)
    case "width" => if ParseU32(value).Some? then Ok(SetWidth(ParseU32(value).value)) else Err(ParseFailed)
    case "height" => if ParseU32(value).Some? then Ok(SetHeight(ParseU32(value).value)) else Err(ParseFailed)
    case "negative" => Ok(SetNegativePrompt(value))
    case "denoising" =>
      if ParseFloat(value).Some? then Ok(SetDenoising(ParseFloat(value).value)) else Err(ParseFailed)
    case _ => Err("Got invalid setting: " + setting)
  }

  /** Text-to-image values are stored exactly as typed. */
  lemma Txt2ImgUnclamped(value: string)
    ensures ParseU32(value).Some? ==> Txt2ImgUpdate("width", value) == Ok(SetWidth(ParseU32(value).value))
    ensures ParseU32(value).Some? ==> Txt2ImgUpdate("height", value) == Ok(SetHeight(ParseU32(value).value))
    ensures ParseU32(value).Some? ==> Txt2ImgUpdate("steps", value) == Ok(SetSteps(ParseU32(value).value))
    ensures ParseU32(value).Some? ==> Txt2ImgUpdate("count", value) == Ok(SetCount(ParseU32(value).value))
    ensures ParseI64(value).Some? ==> Txt2ImgUpdate("seed", value) == Ok(SetSeed(ParseI64(value).value))
  {
  }

  /** `value -= value % 64; value.clamp(64, 1024)`. */
  function RoundToGrid(v: u32): (r: u32)
    ensures r % 64 == 0 && 64 <= r <= 1024
    ensures 64 <= v < 1088 ==> r <= v < r + 64
    ensures v < 64 ==> r == 64
    ensures v >= 1024 ==> r == 1024
  {
    var m := v - v % 64;
    if m < 64 then 64 else if m > 1024 then 1024 else m
  }

  /** `u32::clamp(lo, hi)`. */
  function ClampU32(v: u32, lo: u32, hi: u32): (r: u32)
    requires lo <= hi
    ensures lo <= r <= hi
    ensures lo <= v <= hi ==> r == v
  {
    if v < lo then lo else if v > hi then hi else v
  }

  /**
   * The setter call for an image-to-image value (settings.rs:321-341):
   * steps at most 200, seed at least -1, count within [1, 10], width and
   * height on the 64-pixel grid within [64, 1024].
   */
  function Img2ImgUpdate(setting: string, value: string): (r: Result<Setting>)
    ensures setting !in {"steps", "seed", "count", "cfg", "width", "height", "negative", "denoising"}
      ==> r == Err("invalid setting: " + setting)
    ensures setting == "negative" ==> r == Ok(SetNegativePrompt(value))
    ensures setting in {"steps", "count", "width", "height"} ==> (r.Ok? <==> ParseU32(value).Some?)
    ensures setting == "seed" ==> (r.Ok? <==> ParseI64(value).Some?)
    ensures setting in {"cfg", "denoising"} ==> (r.Ok? <==> ParseFloat(value).Some?)
  {
    match setting
    case "steps" =>
      if ParseU32(value).Some? then Ok(SetSteps(if ParseU32(value).value < 200 then ParseU32(value).value else 200))
      else Err(ParseFailed)
    case "seed" =>
      if ParseI64(value).Some? then Ok(SetSeed(if ParseI64(value).value > -1 then ParseI64(value).value else -1))
      else Err(ParseFailed)
    case "count" =>
      if ParseU32(value).Some? then Ok(SetCount(ClampU32(ParseU32(value).value, 1, 10))) else Err(ParseFailed)
    case "cfg" => if ParseFloat(value).Some? then Ok(SetCfg(ParseFloat(value).value)) else Err(ParseFailed)
    case "width" =>
      if ParseU32(value).Some? then Ok(SetWidth(RoundToGrid(ParseU32(value).value))) else Err(ParseFailed)
    case "height" =>
      if ParseU32(value).Some? then Ok(SetHeight(RoundToGrid(ParseU32(value).value))) else Err(ParseFailed)
    case "negative" => Ok(SetNegativePrompt(value))
    case "denoising" =>
      if ParseFloat(value).Some? then Ok(SetDenoising(ParseFloat(value).value)) else Err(ParseFailed)
    case _ => Err("invalid setting: " + setting)
  }

  /** Every image-to-image value that is stored lies within its bounds. */
  lemma Img2ImgBounds(setting: string, value: string)
    requires Img2ImgUpdate(setting, value).Ok?
    ensures var s := Img2ImgUpdate(setting, value).value;
      && (s.SetSteps? ==> s.steps <= 200)
      && (s.SetSeed? ==> s.seed >= -1)
      && (s.SetCount? ==> 1 <= s.count <= 10)
      && (s.SetWidth? ==> s.width % 64 == 0 && 64 <= s.width <= 1024)
      && (s.SetHeight? ==> s.height % 64 == 0 && 64 <= s.height <= 1024)
  {
  }

  /** Within the bounds, image-to-image values are the typed ones (rounded down to the grid for sizes). */
  lemma Img2ImgKeepsInRange(value: string)
    ensures ParseU32(value).Some? && ParseU32(value).value <= 200 ==>
      Img2ImgUpdate("steps", value) == Ok(SetSteps(ParseU32(value).value))
    ensures ParseI64(value).Some? && ParseI64(value).value >= -1 ==>
      Img2ImgUpdate("seed", value) == Ok(SetSeed(ParseI64(value).value))
    ensures ParseU32(value).Some? && 1 <= ParseU32(value).value <= 10 ==>
      Img2ImgUpdate("count", value) == Ok(SetCount(ParseU32(value).value))
    ensures ParseU32(value).Some? && 64 <= ParseU32(value).value < 1088 ==>
      var w := Img2ImgUpdate("width", value).value.width;
      w <= ParseU32(value).value < w + 64
  {
  }

  /** Both updates parse the same names the same way and differ only in clamping and the error text. */
  lemma UpdatesAgreeOnFormat(setting: string, value: string)
    ensures Txt2ImgUpdate(setting, value).Ok? <==> Img2ImgUpdate(setting, value).Ok?
    ensures Txt2ImgUpdate(setting, value).Ok? ==>
      SameGetter(Txt2ImgUpdate(setting, value).value, Img2ImgUpdate(setting, value).value)
  {
  }

  /**
   * `update_txt2img_setting` (settings.rs:288-310) on what the params
   * report: the setter runs only when its value parsed.
   */
  function UpdateTxt2ImgSetting(params: ParamValues, setting: string, value: string): (r: Result<ParamValues>)
    ensures r.Ok? <==> Txt2ImgUpdate(setting, value).Ok?
    ensures r.Ok? ==> r.value == Assign(params, Txt2ImgUpdate(setting, value).value)
    ensures r.Err? ==> r.msg == Txt2ImgUpdate(setting, value).msg
  {
    match Txt2ImgUpdate(setting, value)
    case Ok(s) => Ok(Assign(params, s))
    case Err(e) => Err(e)
  }

  /** `update_img2img_setting` (settings.rs:312-342) on what the params report. */
  function UpdateImg2ImgSetting(params: ParamValues, setting: string, value: string): (r: Result<ParamValues>)
    ensures r.Ok? <==> Img2ImgUpdate(setting, value).Ok?
    ensures r.Ok? ==> r.value == Assign(params, Img2ImgUpdate(setting, value).value)
    ensures r.Err? ==> r.msg == Img2ImgUpdate(setting, value).msg
  {
    match Img2ImgUpdate(setting, value)
    case Ok(s) => Ok(Assign(params, s))
    case Err(e) => Err(e)
  }

  /** After a successful image-to-image width update the shown width is on the grid, and nothing else moved. */
  lemma Img2ImgWidthShown(params: ParamValues, value: string)
    requires UpdateImg2ImgSetting(params, "width", value).Ok?
    ensures var p := UpdateImg2ImgSetting(params, "width", value).value;
      p.width.Some? && p.width.value % 64 == 0 && 64 <= p.width.value <= 1024
      && p.(width := params.width) == params
  {
    Img2ImgBounds("width", value);
  }

  /** `filter_settings_callback_query` (settings.rs:510-513). */
  predicate SettingsCallback(data: Option<string>)
  {
    data.Some? && StartsWith(data.value, "settings")
  }

  /** `filter_settings_state` (settings.rs:515-526). */
  predicate FilterSettingsState(s: State)
  {
    s.Ready? && (s.botState.SettingsTxt2Img? || s.botState.SettingsImg2Img?)
  }

  /** `filter_map_settings_state` (settings.rs:528-544): the selection and both params of a settings state. */
  function FilterMapSettingsState(s: State): (r: Option<(Option<string>, ParamValues, ParamValues)>)
    ensures r.Some? ==> s.Ready? && !s.botState.Generate? && r.value == (s.botState.selection, s.txt2img, s.img2img)
  {
    match s
    case Ready(SettingsTxt2Img(sel), t, i) => Some((sel, t, i))
    case Ready(SettingsImg2Img(sel), t, i) => Some((sel, t, i))
    case _ => None
  }

  /** The two settings-state filters accept exactly the same states. */
  lemma SettingsFiltersAgree(s: State)
    ensures FilterSettingsState(s) <==> FilterMapSettingsState(s).Some?
    ensures s.New? || (s.Ready? && s.botState.Generate?) ==> !FilterSettingsState(s)
  {
  }

  /** Every candidate button's data is a settings button's. */
  lemma CandidateData(s: Settings, show: Float -> string, k: nat)
    requires k < 9 && Candidates(s, show)[k].Some?
    ensures StartsWith(Candidates(s, show)[k].value.data, "settings_")
  {
  }

  /** Every keyboard button's data passes the settings callback filter. */
  lemma KeyboardDataIsSettings(s: Settings, show: Float -> string, b: Button)
    requires b in Concat(Keyboard(s, show))
    ensures SettingsCallback(Some(b.data))
  {
    KeyboardLayout(s, show);
    var c := Candidates(s, show);
    var k :| 0 <= k < |c| && c[k] == Some(b);
    CandidateData(s, show, k);
    assert b.data[..8] == b.data[..9][..8];
  }

  /** `map_settings` (settings.rs:439-449): the stored params, or the APIs' defaults before `/start`. */
  function MapSettings(cfg: Config, s: State): (r: (ParamValues, ParamValues))
    ensures s.New? ==> r == (cfg.txt2imgParams, cfg.img2imgParams)
    ensures s.Ready? ==> r == (s.txt2img, s.img2img)
  {
    match s
    case Ready(_, t, i) => (t, i)
    case New => (cfg.txt2imgParams, cfg.img2imgParams)
  }

  /**
   * `state_or_default` (settings.rs:344-359): the stored state; a failed
   * read counts as no state, and no state as ready with the defaults.
   */
  function StateOrDefault(cfg: Config, stored: Result<Option<State>>): (s: State)
    ensures stored.Ok? && stored.value.Some? ==> s == stored.value.value
    ensures stored.Err? || stored.value.None? ==> s == NewWithDefaults(cfg.txt2imgParams, cfg.img2imgParams)
  {
    if stored.Ok? && stored.value.Some? then stored.value.value
    else NewWithDefaults(cfg.txt2imgParams, cfg.img2imgParams)
  }

  /** What the message a settings button was pressed under replied to. */
  datatype Parent = PhotoParent | TextParent | OtherParent

  /** A settings keyboard being shown: the new state and the settings it displays. */
  datatype Shown = Shown(state: State, settings: Settings)

  /**
   * `handle_settings` (settings.rs:143-197): a photo opens the
   * image-to-image settings and a text the text-to-image ones, with
   * nothing selected; any other message changes nothing.
   */
  function HandleSettings(txt2img: ParamValues, img2img: ParamValues, parent: Parent): (r: Option<Shown>)
    ensures parent == PhotoParent ==>
      r == Some(Shown(Ready(SettingsImg2Img(None), txt2img, img2img), FromParams(img2img)))
    ensures parent == TextParent ==>
      r == Some(Shown(Ready(SettingsTxt2Img(None), txt2img, img2img), FromParams(txt2img)))
    ensures parent == OtherParent ==> r.None?
  {
    match parent
    case PhotoParent => Some(Shown(Ready(SettingsImg2Img(None), txt2img, img2img), FromParams(img2img)))
    case TextParent => Some(Shown(Ready(SettingsTxt2Img(None), txt2img, img2img), FromParams(txt2img)))
    case OtherParent => None
  }

  /** The outcome of a settings button. */
  datatype ButtonOutcome =
    | Rejected             // "Sorry, something went wrong.", no state change
    | Canceled(state: State)
    | Selected(state: State)
    | Failed(msg: string)  // the read of the dialogue failed: the error is returned, nothing is answered

  /** The stored state with `setting` selected, when it is a settings state. */
  function Select(s: State, setting: string): Option<State>
  {
    match s
    case Ready(SettingsTxt2Img(_), t, i) => Some(Ready(SettingsTxt2Img(Some(setting)), t, i))
    case Ready(SettingsImg2Img(_), t, i) => Some(Ready(SettingsImg2Img(Some(setting)), t, i))
    case _ => None
  }

  /**
   * `handle_settings_button` (settings.rs:199-286), given the params of
   * the current settings state and the state read back from storage. A
   * failed read is returned as the handler's error (`map_err(..)?`); a
   * successful read without a state falls back to the defaults, as
   * `unwrap_or_else` does, which is what `StateOrDefault` gives for it.
   */
  function HandleSettingsButton(cfg: Config, txt2img: ParamValues, img2img: ParamValues,
                                stored: Result<Option<State>>, hasMessage: bool,
                                data: Option<string>): (r: ButtonOutcome)
    ensures !hasMessage || data.None? ==> r == Rejected
    ensures hasMessage && data.Some? && !StartsWith(data.value, "settings_") ==> r == Rejected
    ensures hasMessage && data == Some("settings_back") ==> r == Canceled(Ready(Generate, txt2img, img2img))
    ensures (hasMessage && data.Some? && StartsWith(data.value, "settings_") && data.value != "settings_back"
             && stored.Err?) ==> r == Failed(stored.msg)
    ensures r.Failed? ==> stored.Err?
    ensures r.Selected? <==> (hasMessage && data.Some? && StartsWith(data.value, "settings_")
                              && data.value != "settings_back" && stored.Ok?
                              && FilterSettingsState(StateOrDefault(cfg, stored)))
    ensures r.Selected? ==> (var s := StateOrDefault(cfg, stored);
      && stored.Ok? && (stored.value.Some? ==> s == stored.value.value)
      && (stored.value.None? ==> s == NewWithDefaults(cfg.txt2imgParams, cfg.img2imgParams))
      && FilterSettingsState(s) && r.state.Ready? && !r.state.botState.Generate?
      && r.state.txt2img == s.txt2img && r.state.img2img == s.img2img
      && r.state.botState.SettingsTxt2Img? == s.botState.SettingsTxt2Img?
      && r.state.botState.selection == Some(data.value[|"settings_"|..]))
  {
    if !hasMessage || data.None? then Rejected
    else
      match StripPrefix(data.value, "settings_")
      case None => Rejected
      case Some(setting) =>
        if setting == "back" then Canceled(Ready(Generate, txt2img, img2img))
        else if stored.Err? then Failed(stored.msg)
        else
          match Select(StateOrDefault(cfg, stored), setting)
          case Some(s) => Selected(s)
          case None => Rejected
  }

  /** The outcome of a typed settings value. */
  datatype ValueOutcome =
    | Invalid(reply: string)                // the state is left as it was
    | Updated(state: State, shown: Settings)

  /**
   * `handle_txt2img_settings_value` (settings.rs:377-406): with a
   * selection, the value updates the text-to-image params or is refused;
   * either way without a selection afterwards once it is accepted.
   */
  function HandleTxt2ImgSettingsValue(selection: Option<string>, txt2img: ParamValues, img2img: ParamValues,
                                      text: string): (r: ValueOutcome)
    ensures r.Invalid? <==> selection.Some? && UpdateTxt2ImgSetting(txt2img, selection.value, text).Err?
    ensures r.Invalid? ==> r.reply == "Please enter a valid value: " + UpdateTxt2ImgSetting(txt2img, selection.value, text).msg + "."
    ensures r.Updated? ==> (var t := if selection.Some? then UpdateTxt2ImgSetting(txt2img, selection.value, text).value else txt2img;
      r.state == Ready(SettingsTxt2Img(None), t, img2img) && r.shown == FromParams(t))
  {
    if selection.Some? && UpdateTxt2ImgSetting(txt2img, selection.value, text).Err? then
      Invalid("Please enter a valid value: " + UpdateTxt2ImgSetting(txt2img, selection.value, text).msg + ".")
    else
      var t := if selection.Some? then UpdateTxt2ImgSetting(txt2img, selection.value, text).value else txt2img;
      Updated(Ready(SettingsTxt2Img(None), t, img2img), FromParams(t))
  }

  /** `handle_img2img_settings_value` (settings.rs:408-437), the image-to-image counterpart. */
  function HandleImg2ImgSettingsValue(selection: Option<string>, txt2img: ParamValues, img2img: ParamValues,
                                      text: string): (r: ValueOutcome)
    ensures r.Invalid? <==> selection.Some? && UpdateImg2ImgSetting(img2img, selection.value, text).Err?
    ensures r.Invalid? ==> r.reply == "Please enter a valid value: " + UpdateImg2ImgSetting(img2img, selection.value, text).msg + "."
    ensures r.Updated? ==> (var i := if selection.Some? then UpdateImg2ImgSetting(img2img, selection.value, text).value else img2img;
      r.state == Ready(SettingsImg2Img(None), txt2img, i) && r.shown == FromParams(i))
  {
    if selection.Some? && UpdateImg2ImgSetting(img2img, selection.value, text).Err? then
      Invalid("Please enter a valid value: " + UpdateImg2ImgSetting(img2img, selection.value, text).msg + ".")
    else
      var i := if selection.Some? then UpdateImg2ImgSetting(img2img, selection.value, text).value else img2img;
      Updated(Ready(SettingsImg2Img(None), txt2img, i), FromParams(i))
  }

  /** The dialogue state after a typed value: refused values leave it as it was, selection included. */
  function AfterValue(current: State, outcome: ValueOutcome): State
  {
    if outcome.Updated? then outcome.state else current
  }

  /**
   * Selecting a setting and typing a valid value stores exactly that
   * setter call and clears the selection; a refused value keeps the
   * selection so that the user can try again.
   */
  lemma SelectThenValue(t: ParamValues, i: ParamValues, setting: string, text: string)
    ensures var current := Ready(SettingsImg2Img(Some(setting)), t, i);
      var next := AfterValue(current, HandleImg2ImgSettingsValue(Some(setting), t, i, text));
      && (Img2ImgUpdate(setting, text).Ok? ==>
            next == Ready(SettingsImg2Img(None), t, Assign(i, Img2ImgUpdate(setting, text).value)))
      && (Img2ImgUpdate(setting, text).Err? ==> next == current)
  {
  }

  /** A text-to-image size typed into the settings is shown back unchanged on the keyboard. */
  lemma Txt2ImgWidthShownBack(t: ParamValues, i: ParamValues, text: string)
    requires ParseU32(text).Some?
    ensures var r := HandleTxt2ImgSettingsValue(Some("width"), t, i, text);
      r.Updated? && r.shown.width == Some(ParseU32(text).value)
  {
    Txt2ImgUnclamped(text);
  }
}
