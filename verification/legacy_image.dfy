/**
 * The generation handlers of the first version of the bot
 * (src/bot/handlers/image.rs): decoding the server's images into a
 * photo or an album, sending them with the caption placed once, the
 * caption text, the steps around an img2img or txt2img call, and the reply
 * keyboard.
 */
module LegacyImage {
  import opened Common
  import opened Text
  import Base64
  import BotImage
  import LegacyTxt2Img
  import LegacyImg2Img
  import LegacySettings
  import LegacyBot

  type Button = LegacySettings.Button

  // ---------------------------------------------------------------------
  // Decoded images
  // ---------------------------------------------------------------------

  /** `enum Photo`: one image, or an album of several. */
  datatype Photo = Single(image: seq<u8>) | Album(images: seq<seq<u8>>)

  const DecodeFailed := "Failed to decode image"
  const NoImages := "Must provide at least one image!"

  /** `Photo::single` (image.rs:25-32): one Base64 image. */
  function PhotoSingle(photo: string): (r: Result<Photo>)
    ensures r.Ok? <==> Base64.Decode(photo).Some?
    ensures r.Ok? ==> r.value == Single(Base64.Decode(photo).value)
    ensures r.Err? ==> r.msg == DecodeFailed
  {
    match Base64.Decode(photo)
    case None => Err(DecodeFailed)
    case Some(image) => Ok(Single(image))
  }

  /**
   * `Photo::album` (image.rs:34-56): any undecodable entry is an error;
   * then one image is `Single`, two or more an `Album` in input order, and
   * none an error.
   */
  function MakeAlbum(photos: seq<string>): (r: Result<Photo>)
    ensures BotImage.DecodeAll(photos).None? ==> r == Err(DecodeFailed)
    ensures BotImage.DecodeAll(photos).Some? && |photos| == 0 ==> r == Err(NoImages)
    ensures BotImage.DecodeAll(photos).Some? && |photos| == 1 ==> r == Ok(Single(BotImage.DecodeAll(photos).value[0]))
    ensures BotImage.DecodeAll(photos).Some? && |photos| >= 2 ==> r == Ok(Album(BotImage.DecodeAll(photos).value))
  {
    match BotImage.DecodeAll(photos)
    case None => Err(DecodeFailed)
    case Some(images) =>
      if |images| == 1 then Ok(Single(images[0]))
      else if |images| >= 2 then Ok(Album(images))
      else Err(NoImages)
  }

  /** An album of one entry is what `Photo::single` makes of it. */
  lemma AlbumOfOne(photo: string)
    ensures MakeAlbum([photo]) == PhotoSingle(photo)
  {
    assert [photo][1..] == [];
  }

  /** Encoded images come back as they were: one as `Single`, several as an `Album` in order. */
  lemma AlbumOfEncoded(images: seq<seq<u8>>)
    ensures var photos := seq(|images|, i requires 0 <= i < |images| => Base64.Encode(images[i]));
      && (|images| == 0 ==> MakeAlbum(photos) == Err(NoImages))
      && (|images| == 1 ==> MakeAlbum(photos) == Ok(Single(images[0])))
      && (|images| >= 2 ==> MakeAlbum(photos) == Ok(Album(images)))
  {
    var photos := seq(|images|, i requires 0 <= i < |images| => Base64.Encode(images[i]));
    forall i | 0 <= i < |photos|
      ensures Base64.Decode(photos[i]) == Some(images[i])
    {
      Base64.DecodeEncode(images[i]);
    }
    var d := BotImage.DecodeAll(photos).value;
    assert d == images by {
      assert forall i :: 0 <= i < |photos| ==> Some(d[i]) == Some(images[i]);
    }
  }

  // ---------------------------------------------------------------------
  // The reply
  // ---------------------------------------------------------------------

  /** `struct Response`: the caption, the decoded images and the message replied to. */
  datatype Response = Response(caption: string, images: Photo, source: int)

  /** `Response::new` (image.rs:66-73): fails exactly when `Photo::album` does. */
  function ResponseNew(caption: string, images: seq<string>, source: int): (r: Result<Response>)
    ensures r.Ok? <==> MakeAlbum(images).Ok?
    ensures r.Err? ==> r.msg == MakeAlbum(images).msg
    ensures r.Ok? ==> r.value == Response(caption, MakeAlbum(images).value, source)
  {
    match MakeAlbum(images)
    case Err(e) => Err(e)
    case Ok(photo) => Ok(Response(caption, photo, source))
  }

  /** `keyboard()` (image.rs:261-266): one row, Rerun then Settings. */
  function Keyboard(): (k: seq<seq<Button>>)
    ensures |k| == 1 && |k[0]| == 2
    ensures k[0][0].data == "rerun" && k[0][1].data == "settings"
  {
    [[LegacySettings.Button("Rerun", "rerun"), LegacySettings.Button("Settings", "settings")]]
  }

  /**
   * Both buttons reach a handler: Rerun the rerun endpoint in a ready
   * state, Settings the settings callback filter and not the rerun one.
   */
  lemma KeyboardRouted(cfg: LegacyBot.Config, t: LegacyTxt2Img.Txt2ImgRequest, i: LegacyImg2Img.Img2ImgRequest)
    ensures LegacyBot.Route(cfg, LegacyBot.Ready(t, i), LegacyBot.CallbackUpdate(Some(Keyboard()[0][0].data)))
      == LegacyBot.RerunEndpoint
    ensures LegacySettings.SettingsCallback(Some(Keyboard()[0][1].data))
    ensures LegacyBot.Route(cfg, LegacyBot.Ready(t, i), LegacyBot.CallbackUpdate(Some(Keyboard()[0][1].data)))
      == LegacyBot.Unhandled
  {
    assert "settings"[..5] != "rerun" by { assert "settings"[0] != "rerun"[0]; }
  }

  /** The messages `Response::send` sends, each replying to `replyTo`. */
  datatype Outgoing =
    | PhotoMessage(image: seq<u8>, caption: string, keyboard: seq<seq<Button>>, replyTo: int)  // MarkdownV2
    | MediaGroup(media: seq<BotImage.Media>, replyTo: int)
    | TextMessage(text: string, keyboard: seq<seq<Button>>, replyTo: int)

  const AlbumPrompt := "What would you like to do? Select below, or enter a new prompt."

  /**
   * `Response::send` (image.rs:75-107): a single image goes out as a photo
   * with the caption and keyboard; an album as a media group whose first
   * photo alone takes the caption (`caption.take()`), followed by a text
   * message carrying the keyboard.
   */
  method Send(resp: Response) returns (out: seq<Outgoing>)
    ensures resp.images.Single? ==> out == [PhotoMessage(resp.images.image, resp.caption, Keyboard(), resp.source)]
    ensures resp.images.Album? ==> (|out| == 2
      && out[0].MediaGroup? && out[0].replyTo == resp.source
      && BotImage.CaptionedOnce(out[0].media, resp.images.images, resp.caption)
      && out[1] == TextMessage(AlbumPrompt, Keyboard(), resp.source))
  {
    match resp.images
    case Single(image) =>
      out := [PhotoMessage(image, resp.caption, Keyboard(), resp.source)];
    case Album(images) =>
      var caption: Option<string> := Some(resp.caption);
      var media: seq<BotImage.Media> := [];
      var k := 0;
      while k < |images|
        invariant 0 <= k <= |images| && |media| == k
        invariant caption == if k == 0 then Some(resp.caption) else None
        invariant forall i :: 0 <= i < k ==> media[i] == BotImage.Media(images[i], if i == 0 then Some(resp.caption) else None)
      {
        media := media + [BotImage.Media(images[k], caption)];
        caption := None;
        k := k + 1;
      }
      out := [MediaGroup(media, resp.source), TextMessage(AlbumPrompt, Keyboard(), resp.source)];
  }

  // ---------------------------------------------------------------------
  // The caption
  // ---------------------------------------------------------------------

  /**
   * `MessageText::new_with_infotxt` (image.rs:113-120): the escaped
   * prompt as code, a line break, then the escaped infotext with the
   * prompt taken off its front and the rest trimmed.
   */
  function CaptionWithInfo(escape: string -> string, prompt: string, infotxt: string): (r: string)
    ensures StartsWith(r, "`" + escape(prompt) + "`\n")
    ensures r[|escape(prompt)| + 3..] == escape(BotImage.InfoBody(prompt, infotxt))
  {
    var head := "`" + escape(prompt) + "`\n";
    var r := head + escape(BotImage.InfoBody(prompt, infotxt));
    assert r[..|head|] == head;
    r
  }

  /** `MessageText::new` (image.rs:122-125): the escaped prompt as code. */
  function CaptionPlain(escape: string -> string, prompt: string): (r: string)
    ensures |r| == |escape(prompt)| + 2 && r[0] == '`' && r[|r| - 1] == '`'
    ensures r[1..|r| - 1] == escape(prompt)
  {
    "`" + escape(prompt) + "`"
  }

  /** What `ImgResponse::info` parses out of the server's info text. */
  datatype ImageInfo = ImageInfo(prompt: Option<string>, infotexts: Option<seq<string>>)

  /** An `ImgResponse`: the Base64 images and the parsed info (or why it did not parse). */
  datatype ImgResponse = ImgResponse(images: seq<string>, info: Result<ImageInfo>)

  const NoPromptInInfo := "No prompt in image info response"

  /**
   * `TryFrom<&ImgResponse<T>> for MessageText` (image.rs:136-153): fails
   * when the info does not parse or has no prompt; uses the first infotext
   * when there is one.
   */
  function CaptionOf(escape: string -> string, info: Result<ImageInfo>): (r: Result<string>)
    ensures info.Err? ==> r == Err(info.msg)
    ensures info.Ok? && info.value.prompt.None? ==> r == Err(NoPromptInInfo)
    ensures r.Ok? <==> info.Ok? && info.value.prompt.Some?
    ensures r.Ok? && info.value.infotexts.Some? && |info.value.infotexts.value| > 0 ==>
      r.value == CaptionWithInfo(escape, info.value.prompt.value, info.value.infotexts.value[0])
    ensures r.Ok? && !(info.value.infotexts.Some? && |info.value.infotexts.value| > 0) ==>
      r.value == CaptionPlain(escape, info.value.prompt.value)
  {
    match info
    case Err(e) => Err(e)
    case Ok(i) =>
      if i.prompt.None? then Err(NoPromptInInfo)
      else if i.infotexts.Some? && |i.infotexts.value| > 0 then Ok(CaptionWithInfo(escape, i.prompt.value, i.infotexts.value[0]))
      else Ok(CaptionPlain(escape, i.prompt.value))
  }

  /** Only the first infotext matters. */
  lemma CaptionFirstInfotextOnly(escape: string -> string, prompt: Option<string>, first: string,
                                 rest1: seq<string>, rest2: seq<string>)
    ensures CaptionOf(escape, Ok(ImageInfo(prompt, Some([first] + rest1))))
      == CaptionOf(escape, Ok(ImageInfo(prompt, Some([first] + rest2))))
  {
  }

  const CaptionFailed := "Failed to build caption from response"
  const ResponseFailed := "Failed to create response!"

  /**
   * The reply `handle_image` and `handle_prompt` build from a generation
   * (image.rs:208-210, 247-249): the caption and the decoded images, with
   * the context each failure is reported under.
   */
  function BuildResponse(escape: string -> string, resp: ImgResponse, source: int): (r: Result<Response>)
    ensures r.Ok? <==> CaptionOf(escape, resp.info).Ok? && MakeAlbum(resp.images).Ok?
    ensures CaptionOf(escape, resp.info).Err? ==> r == Err(CaptionFailed)
    ensures CaptionOf(escape, resp.info).Ok? && MakeAlbum(resp.images).Err? ==> r == Err(ResponseFailed)
    ensures r.Ok? ==> r.value == Response(CaptionOf(escape, resp.info).value, MakeAlbum(resp.images).value, source)
  {
    match CaptionOf(escape, resp.info)
    case Err(_) => Err(CaptionFailed)
    case Ok(caption) =>
      match ResponseNew(caption, resp.images, source)
      case Err(_) => Err(ResponseFailed)
      case Ok(response) => Ok(response)
  }

  // ---------------------------------------------------------------------
  // img2img and txt2img
  // ---------------------------------------------------------------------

  const PromptRequired := "A prompt is required to run img2img."
  const NoPrompt := "No prompt provided for img2img"
  const SomethingWrong := "Something went wrong."
  const NoPhotos := "Photo vec was empty!"

  /**
   * What `with_image` does to `init_images` with the downloaded bytes;
   * src/api/img2img.rs has no `with_image`, so it is a parameter.
   */
  type Attach = (Option<seq<string>>, seq<u8>) -> Option<seq<string>>

  /** The request as sent: the caption as prompt and the photo attached. */
  function WithPhoto(req: LegacyImg2Img.Img2ImgRequest, prompt: string, bytes: seq<u8>, attach: Attach): (r: LegacyImg2Img.Img2ImgRequest)
    ensures r.prompt == Some(prompt) && r.initImages == attach(req.initImages, bytes)
    ensures r.(prompt := req.prompt, initImages := req.initImages) == req
  {
    req.(prompt := Some(prompt), initImages := attach(req.initImages, bytes))
  }

  /** The outcome of `do_img2img`: the result, the request as left behind, and the chat message sent on a missing input. */
  datatype Img2ImgRun = Img2ImgRun(result: Result<ImgResponse>, request: LegacyImg2Img.Img2ImgRequest, notice: Option<string>)

  /**
   * `do_img2img` (image.rs:155-193) on values: the caption becomes the
   * prompt, the tallest photo size is downloaded and attached, the request
   * is sent, and after a successful send the images are taken out again.
   * Each `?` returns with the request as it stands.
   */
  function Img2ImgSteps(req: LegacyImg2Img.Img2ImgRequest, caption: Option<string>, photo: seq<BotImage.PhotoSize>,
                        download: string -> Result<seq<u8>>, attach: Attach,
                        send: LegacyImg2Img.Img2ImgRequest -> Result<ImgResponse>): Img2ImgRun
  {
    if caption.None? then Img2ImgRun(Err(NoPrompt), req, Some(PromptRequired))
    else
      var withPrompt := LegacyImg2Img.Set(req, LegacyImg2Img.WithPrompt(caption.value));
      if |photo| == 0 then Img2ImgRun(Err(NoPhotos), withPrompt, Some(SomethingWrong))
      else
        match download(photo[BotImage.TallestIndex(photo)].fileId)
        case Err(e) => Img2ImgRun(Err(e), withPrompt, None)
        case Ok(bytes) =>
          var withImage := WithPhoto(req, caption.value, bytes, attach);
          match send(withImage)
          case Err(e) => Img2ImgRun(Err(e), withImage, None)
          case Ok(resp) => Img2ImgRun(Ok(resp), withImage.(initImages := None), None)
  }

  /** `do_img2img` (image.rs:155-193), updating the dialogue's img2img request in place. */
  method DoImg2Img(img2img: LegacyImg2Img.Img2ImgBuilder, caption: Option<string>, photo: seq<BotImage.PhotoSize>,
                   download: string -> Result<seq<u8>>, attach: Attach,
                   send: LegacyImg2Img.Img2ImgRequest -> Result<ImgResponse>)
    returns (r: Result<ImgResponse>, notice: Option<string>)
    modifies img2img
    ensures Img2ImgRun(r, img2img.Value(), notice) == Img2ImgSteps(old(img2img.Value()), caption, photo, download, attach, send)
  {
    if caption.None? {
      return Err(NoPrompt), Some(PromptRequired);
    }
    img2img.WithPrompt(caption.value);
    if |photo| == 0 {
      return Err(NoPhotos), Some(SomethingWrong);
    }
    var tallest := photo[BotImage.TallestIndex(photo)];
    var file := download(tallest.fileId);
    if file.Err? {
      return Err(file.msg), None;
    }
    img2img.initImages := attach(img2img.initImages, file.value);
    var resp := send(img2img.Value());
    if resp.Err? {
      return Err(resp.msg), None;
    }
    img2img.initImages := None;
    return Ok(resp.value), None;
  }

  /** Without a caption nothing is sent and the request is unchanged. */
  lemma Img2ImgNeedsCaption(req: LegacyImg2Img.Img2ImgRequest, photo: seq<BotImage.PhotoSize>,
                            download: string -> Result<seq<u8>>, attach: Attach,
                            send: LegacyImg2Img.Img2ImgRequest -> Result<ImgResponse>)
    ensures Img2ImgSteps(req, None, photo, download, attach, send) == Img2ImgRun(Err(NoPrompt), req, Some(PromptRequired))
  {
  }

  /** A successful run had a caption and a photo, and downloaded the tallest size. */
  lemma Img2ImgSuccessInputs(req: LegacyImg2Img.Img2ImgRequest, caption: Option<string>, photo: seq<BotImage.PhotoSize>,
                             download: string -> Result<seq<u8>>, attach: Attach,
                             send: LegacyImg2Img.Img2ImgRequest -> Result<ImgResponse>)
    requires Img2ImgSteps(req, caption, photo, download, attach, send).result.Ok?
    ensures caption.Some? && |photo| > 0
    ensures download(photo[BotImage.TallestIndex(photo)].fileId).Ok?
  {
  }

  /**
   * What a successful run sent: the request with the caption as prompt
   * and the tallest photo attached.
   */
  lemma Img2ImgSuccessSent(req: LegacyImg2Img.Img2ImgRequest, caption: Option<string>, photo: seq<BotImage.PhotoSize>,
                           download: string -> Result<seq<u8>>, attach: Attach,
                           send: LegacyImg2Img.Img2ImgRequest -> Result<ImgResponse>)
    requires Img2ImgSteps(req, caption, photo, download, attach, send).result.Ok?
    requires caption.Some? && |photo| > 0 && download(photo[BotImage.TallestIndex(photo)].fileId).Ok?
    ensures var bytes := download(photo[BotImage.TallestIndex(photo)].fileId).value;
      send(WithPhoto(req, caption.value, bytes, attach)) == Img2ImgSteps(req, caption, photo, download, attach, send).result
  {
  }

  /** A successful run leaves the request with the caption as prompt and no images, every other field as before. */
  lemma Img2ImgSuccessLeaves(req: LegacyImg2Img.Img2ImgRequest, caption: Option<string>, photo: seq<BotImage.PhotoSize>,
                             download: string -> Result<seq<u8>>, attach: Attach,
                             send: LegacyImg2Img.Img2ImgRequest -> Result<ImgResponse>)
    requires Img2ImgSteps(req, caption, photo, download, attach, send).result.Ok?
    ensures caption.Some?
    ensures Img2ImgSteps(req, caption, photo, download, attach, send).request
      == req.(prompt := Some(caption.value), initImages := None)
  {
  }

  /** `do_txt2img` (image.rs:222-232): the text becomes the prompt, in place, and the request is sent. */
  method DoTxt2Img(txt2img: LegacyTxt2Img.Txt2ImgBuilder, prompt: string,
                   send: LegacyTxt2Img.Txt2ImgRequest -> Result<ImgResponse>)
    returns (r: Result<ImgResponse>)
    modifies txt2img
    ensures txt2img.Value() == old(txt2img.Value()).(prompt := Some(prompt))
    ensures r == send(txt2img.Value())
  {
    txt2img.WithPrompt(prompt);
    r := send(txt2img.Value());
  }

  /** A handler's outcome: the state it stored, if any, and the reply it sent or its error. */
  datatype Handled = Handled(stored: Option<LegacyBot.State>, reply: Result<Response>)

  /**
   * `handle_prompt` (image.rs:234-259) on values: the request with the
   * text as prompt is sent; the reply is built from the response; only
   * after the reply is the state stored, with the new prompt and the
   * img2img request as it was.
   */
  function HandlePrompt(t: LegacyTxt2Img.Txt2ImgRequest, i: LegacyImg2Img.Img2ImgRequest, text: string,
                        escape: string -> string, send: LegacyTxt2Img.Txt2ImgRequest -> Result<ImgResponse>,
                        source: int): (h: Handled)
    ensures h.stored.Some? <==> h.reply.Ok?
    ensures h.stored.Some? ==> h.stored.value == LegacyBot.Ready(t.(prompt := Some(text)), i)
    ensures send(t.(prompt := Some(text))).Err? ==> h == Handled(None, Err(send(t.(prompt := Some(text))).msg))
    ensures h.reply.Ok? ==> Ok(h.reply.value) == BuildResponse(escape, send(t.(prompt := Some(text))).value, source)
  {
    var t' := LegacyTxt2Img.Set(t, LegacyTxt2Img.WithPrompt(text));
    match send(t')
    case Err(e) => Handled(None, Err(e))
    case Ok(resp) =>
      match BuildResponse(escape, resp, source)
      case Err(e) => Handled(None, Err(e))
      case Ok(response) => Handled(Some(LegacyBot.Ready(t', i)), Ok(response))
  }

  /**
   * `handle_image` (image.rs:195-220) on values: the img2img steps run;
   * the reply is built from the response; only after the reply is the
   * state stored, with the txt2img request as it was.
   */
  function HandleImage(t: LegacyTxt2Img.Txt2ImgRequest, i: LegacyImg2Img.Img2ImgRequest, caption: Option<string>,
                       photo: seq<BotImage.PhotoSize>, download: string -> Result<seq<u8>>, attach: Attach,
                       send: LegacyImg2Img.Img2ImgRequest -> Result<ImgResponse>, escape: string -> string,
                       source: int): (h: Handled)
    ensures h.stored.Some? <==> h.reply.Ok?
    ensures var run := Img2ImgSteps(i, caption, photo, download, attach, send);
      && (run.result.Err? ==> h == Handled(None, Err(run.result.msg)))
      && (h.stored.Some? ==> h.stored.value == LegacyBot.Ready(t, run.request))
      && (h.reply.Ok? ==> Ok(h.reply.value) == BuildResponse(escape, run.result.value, source))
  {
    var run := Img2ImgSteps(i, caption, photo, download, attach, send);
    match run.result
    case Err(e) => Handled(None, Err(e))
    case Ok(resp) =>
      match BuildResponse(escape, resp, source)
      case Err(e) => Handled(None, Err(e))
      case Ok(response) => Handled(Some(LegacyBot.Ready(t, run.request)), Ok(response))
  }

  /** A stored img2img run keeps the request's settings: only the prompt changed, and no image stays behind. */
  lemma ImageStoresCleanRequest(t: LegacyTxt2Img.Txt2ImgRequest, i: LegacyImg2Img.Img2ImgRequest, caption: Option<string>,
                                photo: seq<BotImage.PhotoSize>, download: string -> Result<seq<u8>>, attach: Attach,
                                send: LegacyImg2Img.Img2ImgRequest -> Result<ImgResponse>, escape: string -> string,
                                source: int)
    requires HandleImage(t, i, caption, photo, download, attach, send, escape, source).stored.Some?
    ensures caption.Some?
    ensures HandleImage(t, i, caption, photo, download, attach, send, escape, source).stored.value
      == LegacyBot.Ready(t, i.(prompt := Some(caption.value), initImages := None))
  {
    Img2ImgSuccessLeaves(i, caption, photo, download, attach, send);
  }
}
