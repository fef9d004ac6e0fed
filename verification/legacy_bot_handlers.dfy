/**
 * The single-file handlers of the first version of the bot
 * (src/bot/handlers.rs). Its caption text, `handle_image`, `do_txt2img`,
 * `handle_prompt`, `keyboard` and `Response::send` are the code of
 * src/bot/handlers/image.rs line for line, and its `handle_rerun` and
 * `/help` handler those of src/bot/handlers/mod.rs, so those are the
 * `LegacyImage` and `LegacyHandlers` members. What differs is modelled
 * here: `Response::new` decodes the images itself, and `do_img2img`
 * assigns the prompt field directly.
 */
module LegacyBotHandlers {
  import opened Common
  import Base64
  import BotImage
  import BotHandlers
  import LegacyImg2Img
  import LegacyBot
  import LegacyImage

  /** Which command descriptions `/help` lists. */
  datatype HelpText =
    | AllCommands       // the simple and the authenticated commands
    | UsernameCommands  // the simple commands, qualified with the bot's username
    | SimpleCommands    // the simple commands

  /**
   * `unauthenticated_commands_handler` (handlers.rs:33-61): an allowed
   * sender sees every command; otherwise a group or supergroup gets the
   * username-qualified list and any other chat the plain one. The sender
   * is unwrapped, so a message without one is not accepted.
   */
  function Help(cfg: LegacyBot.Config, sender: Option<u64>, kind: BotHandlers.ChatKind): (h: HelpText)
    requires sender.Some?
    ensures h == AllCommands <==> sender.value in cfg.allowedUsers
    ensures h == UsernameCommands <==>
      sender.value !in cfg.allowedUsers && (kind == BotHandlers.Group || kind == BotHandlers.Supergroup)
  {
    if sender.value in cfg.allowedUsers then AllCommands
    else if kind == BotHandlers.Group || kind == BotHandlers.Supergroup then UsernameCommands
    else SimpleCommands
  }

  /**
   * Unlike the later bot (crates/stable-diffusion-bot/src/bot/handlers/mod.rs),
   * only the sender counts here: where the later bot shows every command
   * because the chat is allowed, this one does not for a sender who is not.
   */
  lemma HelpIgnoresChat(legacy: LegacyBot.Config, cfg: BotHandlers.Config, state: BotHandlers.State,
                        chat: int, sender: u64, kind: BotHandlers.ChatKind)
    requires chat in cfg.allowed && sender as int !in cfg.allowed && sender !in legacy.allowedUsers
    ensures BotHandlers.HandleCommand(cfg, BotHandlers.HelpCommand, state, chat, Some(sender as int), kind).1
      == BotHandlers.HelpReply(BotHandlers.AllCommands)
    ensures Help(legacy, Some(sender), kind) != AllCommands
  {
  }

  const DecodeFailed := "Failed to decode image"

  /**
   * The `map(decode).collect::<anyhow::Result<Vec<_>>>()` of
   * `Response::new` (handlers.rs:77-84): every image decoded in order, or
   * the error of the first that is not Base64.
   */
  function DecodeImages(images: seq<string>): (r: Result<seq<seq<u8>>>)
    ensures r.Err? ==> r.msg == DecodeFailed
    ensures r.Ok? ==> |r.value| == |images|
    decreases |images|
  {
    if |images| == 0 then Ok([])
    else
      match Base64.Decode(images[0])
      case None => Err(DecodeFailed)
      case Some(first) =>
        match DecodeImages(images[1..])
        case Err(e) => Err(e)
        case Ok(rest) => Ok([first] + rest)
  }

  /** The inline decoding agrees with the one `Photo::album` uses. */
  lemma {:induction false} DecodeImagesAgree(images: seq<string>)
    ensures DecodeImages(images).Ok? <==> BotImage.DecodeAll(images).Some?
    ensures DecodeImages(images).Ok? ==> DecodeImages(images).value == BotImage.DecodeAll(images).value
    decreases |images|
  {
    if |images| > 0 {
      DecodeImagesAgree(images[1..]);
    }
  }

  /**
   * `Response::new` (handlers.rs:75-100): the images are decoded; then one
   * image is `Single`, two or more an `Album` in input order, and none an
   * error.
   */
  function ResponseNew(caption: string, images: seq<string>, source: int): (r: Result<LegacyImage.Response>)
    ensures DecodeImages(images).Err? ==> r == Err(DecodeFailed)
    ensures DecodeImages(images).Ok? && |images| == 0 ==> r == Err(LegacyImage.NoImages)
    ensures DecodeImages(images).Ok? && |images| == 1 ==>
      r == Ok(LegacyImage.Response(caption, LegacyImage.Single(DecodeImages(images).value[0]), source))
    ensures DecodeImages(images).Ok? && |images| >= 2 ==>
      r == Ok(LegacyImage.Response(caption, LegacyImage.Album(DecodeImages(images).value), source))
  {
    match DecodeImages(images)
    case Err(e) => Err(e)
    case Ok(decoded) =>
      if |decoded| == 1 then Ok(LegacyImage.Response(caption, LegacyImage.Single(decoded[0]), source))
      else if |decoded| >= 2 then Ok(LegacyImage.Response(caption, LegacyImage.Album(decoded), source))
      else Err(LegacyImage.NoImages)
  }

  /** This `Response::new` and the one of image.rs build the same reply and fail on the same inputs. */
  lemma ResponseNewAgrees(caption: string, images: seq<string>, source: int)
    ensures ResponseNew(caption, images, source) == LegacyImage.ResponseNew(caption, images, source)
  {
    DecodeImagesAgree(images);
  }

  /**
   * `do_img2img` (handlers.rs:182-220), updating the dialogue's img2img
   * request in place; the prompt is assigned to the field rather than
   * through `with_prompt`, which comes to the same steps as image.rs.
   */
  method DoImg2Img(img2img: LegacyImg2Img.Img2ImgBuilder, caption: Option<string>, photo: seq<BotImage.PhotoSize>,
                   download: string -> Result<seq<u8>>, attach: LegacyImage.Attach,
                   send: LegacyImg2Img.Img2ImgRequest -> Result<LegacyImage.ImgResponse>)
    returns (r: Result<LegacyImage.ImgResponse>, notice: Option<string>)
    modifies img2img
    ensures LegacyImage.Img2ImgRun(r, img2img.Value(), notice)
      == LegacyImage.Img2ImgSteps(old(img2img.Value()), caption, photo, download, attach, send)
  {
    if caption.None? {
      return Err(LegacyImage.NoPrompt), Some(LegacyImage.PromptRequired);
    }
    img2img.prompt := Some(caption.value);
    if |photo| == 0 {
      return Err(LegacyImage.NoPhotos), Some(LegacyImage.SomethingWrong);
    }
    var tallest := photo[BotImage.TallestIndex(photo)];
    var file := download(tallest.fileId);
    if file.Err? {
      return Err(file.msg), None;
    }
    img2img.initImages := attach(img2img.initImages, file.value);
    var resp := send(img2img.Value());
    if resp.Err? {
      return Err(resp.msg), None;
    }
    img2img.initImages := None;
    return Ok(resp.value), None;
  }
}
