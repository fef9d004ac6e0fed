/**
 * The handlers of src/bot/handlers/mod.rs. Lines 123-430 of that file
 * repeat src/bot/handlers/settings.rs:24-331 line for line (the summary,
 * its keyboard, `handle_settings`, `handle_settings_button` and
 * `update_txt2img_setting`), so those are the `LegacySettings` members.
 * What differs is modelled here: `update_img2img_setting` clamps nothing
 * and names an unknown setting the way the text-to-image update does,
 * `handle_settings_value` reports an invalid value without the error, and
 * `handle_rerun` dispatches a rerun by the parent message.
 */
module LegacyHandlers {
  import opened Common
  import opened Text
  import LegacyTxt2Img
  import LegacyImg2Img
  import LegacySettings

  type Img2Img = LegacyImg2Img.Img2ImgRequest
  type State = LegacySettings.State
  type Write = LegacySettings.Write

  /**
   * The parsing half of `update_img2img_setting` (mod.rs:441-455): the
   * value is parsed into the named field's type (the denoising strength
   * as a float); an unknown name is an error.
   */
  function Img2ImgWrite(setting: string, value: string): (w: Result<Write>)
    ensures setting !in LegacySettings.SettingNames ==> w == Err("Got invalid setting: " + setting)
    ensures setting in {"steps", "count", "width", "height"} ==> (w.Ok? <==> ParseU32(value).Some?)
    ensures setting == "seed" ==> (w.Ok? <==> ParseI64(value).Some?)
    ensures setting in {"cfg", "denoising"} ==> (w.Ok? <==> ParseFloat(value).Some?)
    ensures setting in {"tiling", "faces"} ==> (w.Ok? <==> ParseBool(value).Some?)
    ensures setting in {"negative", "styles"} ==> w.Ok?
    ensures w.Err? && setting in LegacySettings.SettingNames ==> w.msg == LegacySettings.ParseFailed
    ensures w.Ok? && w.value.WriteDenoising? ==> w.value.strength.Fraction?
    ensures w.Ok? ==> LegacySettings.WriteName(w.value) == setting
  {
    if setting == "denoising" then
      if ParseFloat(value).Some? then Ok(LegacySettings.WriteDenoising(LegacySettings.Fraction(ParseFloat(value).value)))
      else Err(LegacySettings.ParseFailed)
    else if setting in LegacySettings.SettingNames then LegacySettings.SharedWrite(setting, value)
    else Err("Got invalid setting: " + setting)
  }

  /** The assignment half: the parsed value goes, unclamped, into its field. */
  function Img2ImgApply(r: Img2Img, w: Write): Img2Img
    requires w.WriteDenoising? ==> w.strength.Fraction?
  {
    match w
    case WriteSteps(v) => LegacyImg2Img.Set(r, LegacyImg2Img.WithSteps(v))
    case WriteSeed(v) => LegacyImg2Img.Set(r, LegacyImg2Img.WithSeed(v))
    case WriteCount(v) => LegacyImg2Img.Set(r, LegacyImg2Img.WithNIter(v))
    case WriteCfg(v) => LegacyImg2Img.Set(r, LegacyImg2Img.WithCfgScale(v))
    case WriteWidth(v) => LegacyImg2Img.Set(r, LegacyImg2Img.WithWidth(v))
    case WriteHeight(v) => LegacyImg2Img.Set(r, LegacyImg2Img.WithHeight(v))
    case WriteNegative(v) => LegacyImg2Img.Set(r, LegacyImg2Img.WithNegativePrompt(v))
    case WriteStyles(v) => LegacyImg2Img.Set(r, LegacyImg2Img.WithStyles(v))
    case WriteTiling(v) => LegacyImg2Img.Set(r, LegacyImg2Img.WithTiling(v))
    case WriteFaces(v) => LegacyImg2Img.Set(r, LegacyImg2Img.WithRestoreFaces(v))
    case WriteDenoising(d) => LegacyImg2Img.Set(r, LegacyImg2Img.WithDenoisingStrength(d.f))
  }

  /** `update_img2img_setting` (mod.rs:432-457) on the request's value. */
  function Img2ImgUpdate(r: Img2Img, setting: string, value: string): (u: Result<Img2Img>)
    ensures u.Ok? <==> Img2ImgWrite(setting, value).Ok?
    ensures u.Err? ==> u.msg == Img2ImgWrite(setting, value).msg
  {
    match Img2ImgWrite(setting, value)
    case Ok(w) => Ok(Img2ImgApply(r, w))
    case Err(e) => Err(e)
  }

  /** A write changes only the field it is for, and stores the parsed value as it is. */
  lemma Img2ImgApplyOneField(r: Img2Img, w: Write)
    requires w.WriteDenoising? ==> w.strength.Fraction?
    ensures var u := Img2ImgApply(r, w);
      && (w.WriteSteps? ==> u == r.(steps := Some(w.steps)))
      && (w.WriteSeed? ==> u == r.(seed := Some(w.seed)))
      && (w.WriteCount? ==> u == r.(nIter := Some(w.count)))
      && (w.WriteCfg? ==> u == r.(cfgScale := Some(w.cfg)))
      && (w.WriteWidth? ==> u == r.(width := Some(w.width)))
      && (w.WriteHeight? ==> u == r.(height := Some(w.height)))
      && (w.WriteNegative? ==> u == r.(negativePrompt := Some(w.negative)))
      && (w.WriteStyles? ==> u == r.(styles := Some(w.styles)))
      && (w.WriteTiling? ==> u == r.(tiling := Some(w.tiling)))
      && (w.WriteFaces? ==> u == r.(restoreFaces := Some(w.faces)))
      && (w.WriteDenoising? ==> u == r.(denoisingStrength := Some(w.strength.f)))
  {
  }

  /** A write keeps every field the summary needs. */
  lemma Img2ImgApplyKeepsComplete(r: Img2Img, w: Write)
    requires w.WriteDenoising? ==> w.strength.Fraction?
    requires LegacySettings.Img2ImgComplete(r)
    ensures LegacySettings.Img2ImgComplete(Img2ImgApply(r, w))
  {
    Img2ImgApplyOneField(r, w);
  }

  /**
   * This update and the clamping one of settings.rs accept the same
   * names and the same values; they differ in the message for an unknown
   * name, and in what they store.
   */
  lemma SameValuesAsClamping(setting: string, value: string)
    ensures Img2ImgWrite(setting, value).Ok? <==> LegacySettings.Img2ImgWrite(setting, value).Ok?
    ensures Img2ImgWrite(setting, value).Ok? ==> Img2ImgWrite(setting, value) == LegacySettings.Img2ImgWrite(setting, value)
    ensures setting !in LegacySettings.SettingNames ==>
      Img2ImgWrite(setting, value).msg == "Got " + LegacySettings.Img2ImgWrite(setting, value).msg
  {
    if setting == "denoising" {
    } else if setting in LegacySettings.SettingNames {
      assert Img2ImgWrite(setting, value) == LegacySettings.SharedWrite(setting, value);
      assert LegacySettings.Img2ImgWrite(setting, value) == LegacySettings.SharedWrite(setting, value);
    } else {
      assert "Got invalid setting: " + setting == "Got " + ("invalid setting: " + setting);
    }
  }

  /** Steps of 500 are stored as 500 here, where settings.rs stores 200. */
  lemma NoStepsCap(r: Img2Img, clamp: LegacySettings.FloatClamp)
    ensures Img2ImgUpdate(r, "steps", "500") == Ok(r.(steps := Some(500)))
    ensures LegacySettings.Img2ImgUpdate(r, "steps", "500", clamp) == Ok(r.(steps := Some(200)))
  {
    assert "500"[..2] == "50" && "50"[..1] == "5" && "5"[..0] == "";
    assert ParseU32("500") == Some(500);
    Img2ImgApplyOneField(r, LegacySettings.WriteSteps(500));
    LegacySettings.Img2ImgApplyOneField(r, LegacySettings.WriteSteps(500), clamp);
  }

  /** A write of a number other than the denoising strength. */
  predicate NumberWrite(w: Write)
  {
    w.WriteSteps? || w.WriteSeed? || w.WriteCount? || w.WriteWidth? || w.WriteHeight?
  }

  /**
   * `update_img2img_setting` on the request in place: it changes exactly
   * as the update says when the update succeeds, and not at all otherwise.
   */
  method UpdateImg2ImgSetting(img2img: LegacyImg2Img.Img2ImgBuilder, setting: string, value: string)
    returns (r: Result<()>)
    modifies img2img
    ensures var w := Img2ImgWrite(setting, value);
      && (r.Ok? <==> w.Ok?)
      && (w.Ok? ==> img2img.Value() == Img2ImgApply(old(img2img.Value()), w.value))
      && (w.Err? ==> r == Err(w.msg) && img2img.Value() == old(img2img.Value()))
  {
    var w := Img2ImgWrite(setting, value);
    if w.Err? {
      return Err(w.msg);
    }
    if NumberWrite(w.value) {
      StoreImg2ImgNumber(img2img, w.value);
    } else {
      StoreImg2ImgOther(img2img, w.value);
    }
    r := Ok(());
  }

  /** The assignment of a number. */
  method StoreImg2ImgNumber(img2img: LegacyImg2Img.Img2ImgBuilder, w: Write)
    requires NumberWrite(w)
    modifies img2img
    ensures img2img.Value() == Img2ImgApply(old(img2img.Value()), w)
  {
    match w {
      case WriteSteps(v) => img2img.WithSteps(v);
      case WriteSeed(v) => img2img.WithSeed(v);
      case WriteCount(v) => img2img.WithNIter(v);
      case WriteWidth(v) => img2img.WithWidth(v);
      case WriteHeight(v) => img2img.WithHeight(v);
    }
  }

  /** The assignment of the CFG scale, the denoising strength, a text or a flag. */
  method StoreImg2ImgOther(img2img: LegacyImg2Img.Img2ImgBuilder, w: Write)
    requires !NumberWrite(w)
    requires w.WriteDenoising? ==> w.strength.Fraction?
    modifies img2img
    ensures img2img.Value() == Img2ImgApply(old(img2img.Value()), w)
  {
    match w {
      case WriteCfg(v) => img2img.WithCfgScale(v);
      case WriteDenoising(d) => img2img.WithDenoisingStrength(d.f);
      case WriteNegative(v) => img2img.WithNegativePrompt(v);
      case WriteStyles(v) => img2img.WithStyles(v);
      case WriteTiling(v) => img2img.WithTiling(v);
      case WriteFaces(v) => img2img.WithRestoreFaces(v);
    }
  }

  const ValidValue := "Please enter a valid value."

  /**
   * `handle_settings_value` (mod.rs:459-506): the selected setting is
   * updated from the text; an invalid value is reported, without the
   * error, and nothing is stored; otherwise the selection is cleared and
   * the state is stored once the summary of the updated request has been
   * built. A ready state is an error.
   */
  function SettingsValue(state: State, text: string, show: Float -> string): (e: LegacySettings.Effect)
    ensures state.Ready? ==> e == LegacySettings.Effect(None, Err(LegacySettings.InvalidState))
    ensures e.stored.Some? ==> (
      && !e.stored.value.Ready? && e.stored.value.selection.None?
      && (state.SettingsTxt2Img? <==> e.stored.value.SettingsTxt2Img?)
      && (state.SettingsImg2Img? <==> e.stored.value.SettingsImg2Img?)
      && (state.SettingsTxt2Img? ==> e.stored.value.img2img == state.img2img)
      && (state.SettingsImg2Img? ==> e.stored.value.txt2img == state.txt2img))
    ensures state.SettingsTxt2Img? && state.selection.Some? &&
            LegacySettings.Txt2ImgUpdate(state.txt2img, state.selection.value, text).Err? ==>
      e == LegacySettings.Effect(None, Ok(LegacySettings.InvalidValue(ValidValue)))
    ensures state.SettingsImg2Img? && state.selection.Some? && Img2ImgUpdate(state.img2img, state.selection.value, text).Err? ==>
      e == LegacySettings.Effect(None, Ok(LegacySettings.InvalidValue(ValidValue)))
    ensures state.SettingsTxt2Img? && e.stored.Some? ==>
      e.stored.value.txt2img ==
        (if state.selection.Some? then LegacySettings.Txt2ImgUpdate(state.txt2img, state.selection.value, text).value
         else state.txt2img)
    ensures state.SettingsImg2Img? && e.stored.Some? ==>
      e.stored.value.img2img == (if state.selection.Some? then Img2ImgUpdate(state.img2img, state.selection.value, text).value else state.img2img)
    ensures e.stored.Some? <==> e.reply.Ok? && e.reply.value.Menu?
  {
    match state
    case Ready(_, _) => LegacySettings.Effect(None, Err(LegacySettings.InvalidState))
    case SettingsTxt2Img(selection, t, i) =>
      var u := if selection.Some? then LegacySettings.Txt2ImgUpdate(t, selection.value, text) else Ok(t);
      if u.Err? then LegacySettings.Effect(None, Ok(LegacySettings.InvalidValue(ValidValue)))
      else (
        match LegacySettings.FromTxt2Img(u.value)
        case Err(m) => LegacySettings.Effect(None, Err(m))
        case Ok(s) =>
          LegacySettings.Effect(Some(LegacySettings.SettingsTxt2Img(None, u.value, i)),
                                Ok(LegacySettings.Menu(LegacySettings.Keyboard(s, show)))))
    case SettingsImg2Img(selection, t, i) =>
      var u := if selection.Some? then Img2ImgUpdate(i, selection.value, text) else Ok(i);
      if u.Err? then LegacySettings.Effect(None, Ok(LegacySettings.InvalidValue(ValidValue)))
      else (
        match LegacySettings.FromImg2Img(u.value)
        case Err(m) => LegacySettings.Effect(None, Err(m))
        case Ok(s) =>
          LegacySettings.Effect(Some(LegacySettings.SettingsImg2Img(None, t, u.value)),
                                Ok(LegacySettings.Menu(LegacySettings.Keyboard(s, show)))))
  }

  /**
   * `handle_settings_value` as the source runs it: the selected request is
   * updated in place and the selection cleared on the state it read.
   */
  method HandleSettingsValue(state: State, text: string, show: Float -> string) returns (e: LegacySettings.Effect)
    ensures e == SettingsValue(state, text, show)
  {
    if state.Ready? {
      return LegacySettings.Effect(None, Err(LegacySettings.InvalidState));
    }
    if state.SettingsTxt2Img? {
      var txt2img := new LegacyTxt2Img.Txt2ImgBuilder(state.txt2img);
      if state.selection.Some? {
        var u := LegacySettings.UpdateTxt2ImgSetting(txt2img, state.selection.value, text);
        if u.Err? {
          return LegacySettings.Effect(None, Ok(LegacySettings.InvalidValue(ValidValue)));
        }
      }
      var settings := LegacySettings.FromTxt2Img(txt2img.Value());
      if settings.Err? {
        return LegacySettings.Effect(None, Err(settings.msg));
      }
      e := LegacySettings.Effect(Some(LegacySettings.SettingsTxt2Img(None, txt2img.Value(), state.img2img)),
                                 Ok(LegacySettings.Menu(LegacySettings.Keyboard(settings.value, show))));
    } else {
      var img2img := new LegacyImg2Img.Img2ImgBuilder(state.img2img);
      if state.selection.Some? {
        var u := UpdateImg2ImgSetting(img2img, state.selection.value, text);
        if u.Err? {
          return LegacySettings.Effect(None, Ok(LegacySettings.InvalidValue(ValidValue)));
        }
      }
      var settings := LegacySettings.FromImg2Img(img2img.Value());
      if settings.Err? {
        return LegacySettings.Effect(None, Err(settings.msg));
      }
      e := LegacySettings.Effect(Some(LegacySettings.SettingsImg2Img(None, state.txt2img, img2img.Value())),
                                 Ok(LegacySettings.Menu(LegacySettings.Keyboard(settings.value, show))));
    }
  }

  /**
   * A valid image-to-image value on a complete request is stored, with
   * nothing selected, and the menu is shown again.
   */
  lemma ValidImg2ImgValueStored(t: LegacySettings.Txt2Img, i: Img2Img, name: string, text: string, show: Float -> string)
    requires LegacySettings.Img2ImgComplete(i) && Img2ImgUpdate(i, name, text).Ok?
    ensures SettingsValue(LegacySettings.SettingsImg2Img(Some(name), t, i), text, show).stored ==
      Some(LegacySettings.SettingsImg2Img(None, t, Img2ImgUpdate(i, name, text).value))
  {
    Img2ImgApplyKeepsComplete(i, Img2ImgWrite(name, text).value);
  }

  /** How a callback query is answered: plainly, or with a text cached for 60 seconds. */
  datatype CallbackAnswer = Plain | Cached(text: string)

  /** Which generation a rerun starts again. */
  datatype Generation = RunImg2Img | RunTxt2Img

  /**
   * The outcome of a rerun: the answer to the callback, the generation it
   * ran, whether the old keyboard was cleared, and the handler's result.
   */
  datatype Rerun = Rerun(answer: CallbackAnswer, ran: Option<Generation>, clearsKeyboard: bool, result: Result<()>)

  /**
   * `handle_rerun` (mod.rs:63-121): a photo parent re-runs the
   * image-to-image generation and a text parent the text-to-image one;
   * `generated` is the result of that handler (image.rs), and only when it
   * succeeds is the old keyboard cleared. A missing message or parent, or a
   * parent of another kind, is answered with an apology.
   */
  function HandleRerun(source: LegacySettings.Source, generated: Result<()>): (r: Rerun)
    ensures r.ran.Some? <==> source.Present? && source.parent.Some? && source.parent.value != LegacySettings.OtherParent
    ensures r.ran == Some(RunImg2Img) <==> source == LegacySettings.Present(Some(LegacySettings.PhotoParent))
    ensures r.ran == Some(RunTxt2Img) <==> source == LegacySettings.Present(Some(LegacySettings.TextParent))
    ensures r.ran.Some? ==> r.answer == Plain && r.result == generated && (r.clearsKeyboard <==> generated.Ok?)
    ensures r.ran.None? ==> r.result == Ok(()) && !r.clearsKeyboard
    ensures source == LegacySettings.Gone ==> r.answer == Cached(LegacySettings.MessageGone)
    ensures source.Present? && r.ran.None? ==> r.answer == Cached(LegacySettings.Oops)
  {
    match source
    case Gone => Rerun(Cached(LegacySettings.MessageGone), None, false, Ok(()))
    case Present(None) => Rerun(Cached(LegacySettings.Oops), None, false, Ok(()))
    case Present(Some(parent)) =>
      match parent
      case PhotoParent => Rerun(Plain, Some(RunImg2Img), generated.Ok?, generated)
      case TextParent => Rerun(Plain, Some(RunTxt2Img), generated.Ok?, generated)
      case OtherParent => Rerun(Cached(LegacySettings.Oops), None, false, Ok(()))
  }

  /** The keyboard is only cleared after a generation has been run and has succeeded. */
  lemma ClearedOnlyAfterRun(source: LegacySettings.Source, generated: Result<()>)
    ensures HandleRerun(source, generated).clearsKeyboard ==> HandleRerun(source, generated).ran.Some? && generated.Ok?
    ensures HandleRerun(source, generated).result.Err? ==> generated.Err?
  {
  }
}
