/**
 * Image generation replies of the backend-specific bot
 * (crates/stable-diffusion-bot/src/bot/handlers/image.rs): decoding the
 * returned images, the caption, the reply keyboard and its callbacks, and
 * the in-place request updates of `do_img2img` and `handle_reuse`.
 *
 * Telegram, the download of a photo and the Stable Diffusion server are
 * parameters; MarkdownV2 escaping (`teloxide::utils::markdown::escape`)
 * is a parameter too, since its code is not part of this model.
 */
module BotImage {
  import opened Common
  import opened Text
  import Base64
  import SdTxt2Img
  import SdImg2Img
  import Bot

  // ---------------------------------------------------------------------
  // Decoded images
  // ---------------------------------------------------------------------

  /** `enum Photo`: one image, or an album of several. */
  datatype Photo = Single(image: seq<u8>) | Album(images: seq<seq<u8>>)

  const DecodeFailed := "Failed to decode image"
  const NoImages := "Must provide at least one image!"

  /** Decodes every entry, in order; `None` as soon as one is not Base64. */
  function DecodeAll(photos: seq<string>): (r: Option<seq<seq<u8>>>)
    ensures r.Some? <==> forall i :: 0 <= i < |photos| ==> Base64.Decode(photos[i]).Some?
    ensures r.Some? ==> (|r.value| == |photos|
      && forall i :: 0 <= i < |photos| ==> Base64.Decode(photos[i]) == Some(r.value[i]))
    decreases |photos|
  {
    if |photos| == 0 then Some([])
    else
      match Base64.Decode(photos[0])
      case None => None
      case Some(first) =>
        match DecodeAll(photos[1..])
        case None => None
        case Some(rest) => Some([first] + rest)
  }

  /**
   * `Photo::album` (image.rs:46-68): any undecodable entry is an error;
   * then one image is `Single`, two or more an `Album` in input order, and
   * none an error.
   */
  function MakeAlbum(photos: seq<string>): (r: Result<Photo>)
    ensures DecodeAll(photos).None? ==> r == Err(DecodeFailed)
    ensures DecodeAll(photos).Some? && |photos| == 0 ==> r == Err(NoImages)
    ensures DecodeAll(photos).Some? && |photos| == 1 ==> r == Ok(Single(DecodeAll(photos).value[0]))
    ensures DecodeAll(photos).Some? && |photos| >= 2 ==> r == Ok(Album(DecodeAll(photos).value))
  {
    match DecodeAll(photos)
    case None => Err(DecodeFailed)
    case Some(images) =>
      if |images| == 1 then Ok(Single(images[0]))
      else if |images| >= 2 then Ok(Album(images))
      else Err(NoImages)
  }

  /** Encoded images come back as they were: one as `Single`, several as an `Album` in order. */
  lemma AlbumOfEncoded(images: seq<seq<u8>>)
    ensures |images| == 0 ==> MakeAlbum(SdImg2Img.EncodeAll(images)) == Err(NoImages)
    ensures |images| == 1 ==> MakeAlbum(SdImg2Img.EncodeAll(images)) == Ok(Single(images[0]))
    ensures |images| >= 2 ==> MakeAlbum(SdImg2Img.EncodeAll(images)) == Ok(Album(images))
  {
    var photos := SdImg2Img.EncodeAll(images);
    forall i | 0 <= i < |photos|
      ensures Base64.Decode(photos[i]) == Some(images[i])
    {
      Base64.DecodeEncode(images[i]);
    }
    var d := DecodeAll(photos).value;
    assert d == images by {
      assert forall i :: 0 <= i < |photos| ==> Some(d[i]) == Some(images[i]);
    }
  }

  // ---------------------------------------------------------------------
  // The reply keyboard and its callbacks
  // ---------------------------------------------------------------------

  /** `InlineKeyboardButton::callback(text, data)`. */
  datatype Button = Button(text: string, data: string)

  /** The seed button (image.rs:299-303): a die for -1, a recycling sign with the seed otherwise. */
  function SeedButton(seed: i64): (b: Button)
    ensures seed == -1 ==> b == Button("\U{1F3B2} Seed", "reuse/-1")
    ensures seed != -1 ==> b == Button("\U{267B}\U{FE0F} Seed", "reuse/" + FormatInt(seed))
  {
    if seed == -1 then Button("\U{1F3B2} Seed", "reuse/-1")
    else Button("\U{267B}\U{FE0F} Seed", "reuse/" + FormatInt(seed))
  }

  /** `keyboard(seed)` (image.rs:298-309): one row of Rerun, the seed button and Settings. */
  function Keyboard(seed: i64): (k: seq<seq<Button>>)
    ensures |k| == 1 && |k[0]| == 3
    ensures k[0][0] == Button("\U{1F504} Rerun", "rerun")
    ensures k[0][1] == SeedButton(seed)
    ensures k[0][2] == Button("\U{2699}\U{FE0F} Settings", "settings")
  {
    [[Button("\U{1F504} Rerun", "rerun"), SeedButton(seed), Button("\U{2699}\U{FE0F} Settings", "settings")]]
  }

  /** The first field that parses as an `i64` (`flat_map(str::parse::<i64>).next()`). */
  function FirstParsed(fields: seq<string>): (r: Option<i64>)
    ensures r.None? <==> forall i :: 0 <= i < |fields| ==> ParseI64(fields[i]).None?
    ensures r.Some? ==> exists i :: (0 <= i < |fields| && ParseI64(fields[i]) == r
      && forall j :: 0 <= j < i ==> ParseI64(fields[j]).None?)
    decreases |fields|
  {
    if |fields| == 0 then None
    else if ParseI64(fields[0]).Some? then ParseI64(fields[0])
    else
      var r := FirstParsed(fields[1..]);
      assert r.Some? ==> exists i :: (0 <= i < |fields| && ParseI64(fields[i]) == r
        && forall j :: 0 <= j < i ==> ParseI64(fields[j]).None?) by {
        if r.Some? {
          var i :| 0 <= i < |fields[1..]| && ParseI64(fields[1..][i]) == r
            && forall j :: 0 <= j < i ==> ParseI64(fields[1..][j]).None?;
          assert ParseI64(fields[i + 1]) == r;
          assert forall j :: 0 <= j < i + 1 ==> ParseI64(fields[j]).None? by {
            forall j | 0 <= j < i + 1
              ensures ParseI64(fields[j]).None?
            {
              if j > 0 {
                assert fields[j] == fields[1..][j - 1];
              }
            }
          }
        }
      }
      r
  }

  /**
   * The reuse callback filter (image.rs:462-466): data starting with
   * "reuse", and the first '/'-separated field after the first that parses
   * as an `i64`.
   */
  function ReuseSeed(data: Option<string>): (r: Option<i64>)
    ensures r.Some? ==> data.Some? && StartsWith(data.value, "reuse")
    ensures data.Some? && StartsWith(data.value, "reuse") ==> r == FirstParsed(Split(data.value, '/')[1..])
  {
    if data.Some? && StartsWith(data.value, "reuse") then FirstParsed(Split(data.value, '/')[1..]) else None
  }

  /** The rerun callback filter (image.rs:470). */
  predicate RerunCallback(data: Option<string>)
  {
    data.Some? && StartsWith(data.value, "rerun")
  }

  /** The data "reuse/" followed by a formatted number splits into "reuse" and that number. */
  lemma SplitReuseData(n: int)
    ensures Split("reuse/" + FormatInt(n), '/') == ["reuse", FormatInt(n)]
  {
    var x := FormatInt(n);
    assert '/' !in "reuse";
    assert "reuse/" + x == "reuse" + ['/'] + x;
    SplitAtSep("reuse", x, '/');
    if '/' in x {
      FormatIntChars(n, '/');
    }
    SplitWithoutSep(x, '/');
  }

  /** The seed button's data gives its seed back, for every `i64`. */
  lemma ReuseRoundTrip(seed: i64)
    ensures ReuseSeed(Some(SeedButton(seed).data)) == Some(seed)
  {
    var x := FormatInt(seed);
    if seed == -1 {
      assert NatDigits(1) == "1";
      assert "reuse/-1" == "reuse/" + x;
    }
    assert StartsWith("reuse/" + x, "reuse");
    SplitReuseData(seed);
    assert Split("reuse/" + x, '/')[1..] == [x];
    ParseFormatI64(seed);
  }

  /** Where the callback part of `image_schema` (image.rs:468-474) sends a button press. */
  datatype CallbackRoute = ReuseRoute(seed: i64) | RerunRoute | Unrouted

  /** Callbacks are handled only in a `Ready` state; the reuse branch is tried first. */
  function RouteCallback(state: Bot.State, data: Option<string>): (r: CallbackRoute)
    ensures !state.Ready? ==> r == Unrouted
    ensures r.ReuseRoute? <==> state.Ready? && ReuseSeed(data).Some?
    ensures r.ReuseRoute? ==> ReuseSeed(data) == Some(r.seed)
    ensures r == RerunRoute <==> state.Ready? && ReuseSeed(data).None? && RerunCallback(data)
  {
    if !state.Ready? then Unrouted
    else match ReuseSeed(data)
      case Some(seed) => ReuseRoute(seed)
      case None => if RerunCallback(data) then RerunRoute else Unrouted
  }

  /**
   * In a `Ready` state the reply keyboard's buttons route as labelled:
   * Rerun reruns, the seed button reuses its seed, and Settings is left to
   * the settings dialogue.
   */
  lemma KeyboardRoutes(txt2img: SdTxt2Img.Txt2ImgRequest, img2img: SdImg2Img.Img2ImgRequest, seed: i64)
    ensures var state := Bot.State.Ready(txt2img, img2img);
      var row := Keyboard(seed)[0];
      RouteCallback(state, Some(row[0].data)) == RerunRoute
      && RouteCallback(state, Some(row[1].data)) == ReuseRoute(seed)
      && RouteCallback(state, Some(row[2].data)) == Unrouted
  {
    assert !StartsWith("rerun", "reuse") by { assert "rerun"[..5] != "reuse"; }
    assert StartsWith("rerun", "rerun");
    assert !StartsWith("settings", "reuse") by { assert "settings"[..5] != "reuse"; }
    assert !StartsWith("settings", "rerun") by { assert "settings"[..5] != "rerun"; }
    ReuseRoundTrip(seed);
  }

  // ---------------------------------------------------------------------
  // Captions
  // ---------------------------------------------------------------------

  /** An opening `Seed: ` followed by a digit: where `Seed: (?P<seed>\d+)` can match. */
  predicate SeedAt(s: string)
  {
    StartsWith(s, "Seed: ") && |s| > 6 && IsDigit(s[6])
  }

  /**
   * `RE.replace(s, "Seed: `$seed`")` (image.rs:135-143): the leftmost
   * match, with its whole run of digits, has the digits put in backticks.
   */
  function MarkSeed(s: string): (r: string)
    decreases |s|
  {
    if |s| == 0 then s
    else if SeedAt(s) then
      var n := DigitRun(s[6..]);
      "Seed: `" + s[6..6 + n] + "`" + s[6 + n..]
    else [s[0]] + MarkSeed(s[1..])
  }

  /** No match starts before position `i`. */
  predicate NoSeedBefore(s: string, i: nat)
    requires i <= |s|
  {
    forall j :: 0 <= j < i ==> !SeedAt(s[j..])
  }

  /** A character where no match starts is copied as it is. */
  lemma MarkSeedStep(s: string)
    requires |s| > 0 && !SeedAt(s)
    ensures MarkSeed(s) == [s[0]] + MarkSeed(s[1..])
  {
  }

  /** Dropping the first character keeps the rest free of matches. */
  lemma NoSeedBeforeTail(s: string, i: nat)
    requires 0 < i <= |s| && NoSeedBefore(s, i)
    ensures NoSeedBefore(s[1..], i - 1)
  {
    forall j | 0 <= j < i - 1
      ensures !SeedAt(s[1..][j..])
    {
      assert s[1..][j..] == s[j + 1..];
      assert !SeedAt(s[j + 1..]);
    }
  }

  /** Text before the first match is copied as it is. */
  lemma {:induction false} MarkSeedSkip(s: string, i: nat)
    requires i <= |s| && NoSeedBefore(s, i)
    ensures MarkSeed(s) == s[..i] + MarkSeed(s[i..])
    decreases i
  {
    if i > 0 {
      assert s[0..] == s;
      MarkSeedStep(s);
      var t := s[1..];
      NoSeedBeforeTail(s, i);
      MarkSeedSkip(t, i - 1);
      assert t[i - 1..] == s[i..];
      assert [s[0]] + t[..i - 1] == s[..i];
    }
  }

  /** Without a match the text is left as it is. */
  lemma MarkSeedUnmatched(s: string)
    requires forall i :: 0 <= i <= |s| ==> !SeedAt(s[i..])
    ensures MarkSeed(s) == s
  {
    MarkSeedSkip(s, |s|);
    assert s[..|s|] == s;
  }

  /**
   * With a first match at `i`, everything before it is kept, the digits
   * after `Seed: ` are wrapped in backticks, and the rest is kept.
   */
  lemma MarkSeedFirst(s: string, i: nat)
    requires i < |s| && SeedAt(s[i..]) && NoSeedBefore(s, i)
    ensures var n := DigitRun(s[i + 6..]);
      1 <= n && i + 6 + n <= |s|
      && AllDigits(s[i + 6..i + 6 + n])
      && MarkSeed(s) == s[..i] + ("Seed: `" + s[i + 6..i + 6 + n] + "`" + s[i + 6 + n..])
  {
    MarkSeedSkip(s, i);
    MarkSeedInside(s, i);
  }

  /** A match at position `i`, read through the slices of `s`. */
  lemma MarkSeedInside(s: string, i: nat)
    requires i < |s| && SeedAt(s[i..])
    ensures var n := DigitRun(s[i + 6..]);
      1 <= n && i + 6 + n <= |s|
      && AllDigits(s[i + 6..i + 6 + n])
      && MarkSeed(s[i..]) == "Seed: `" + s[i + 6..i + 6 + n] + "`" + s[i + 6 + n..]
  {
    var u := s[i..];
    MarkSeedAt(u);
    SliceShift(s, i, 6);
    var n := DigitRun(s[i + 6..]);
    SliceShift(s, i, 6 + n);
    SliceRangeShift(s, i, 6, 6 + n);
  }

  lemma SliceShift(s: string, i: nat, a: nat)
    requires i + a <= |s|
    ensures s[i..][a..] == s[i + a..]
  {
  }

  lemma SliceRangeShift(s: string, i: nat, a: nat, b: nat)
    requires a <= b && i + b <= |s|
    ensures s[i..][a..b] == s[i + a..i + b]
  {
  }

  /** A match at the front: its digits are wrapped in backticks. */
  lemma MarkSeedAt(u: string)
    requires SeedAt(u)
    ensures var n := DigitRun(u[6..]);
      1 <= n && 6 + n <= |u| && AllDigits(u[6..6 + n])
      && MarkSeed(u) == "Seed: `" + u[6..6 + n] + "`" + u[6 + n..]
  {
    var n := DigitRun(u[6..]);
    assert u[6..][0] == u[6];
    assert 1 <= n;
    assert 6 + n <= |u|;
    assert |u| > 0;
    assert MarkSeed(u) == "Seed: `" + u[6..6 + n] + "`" + u[6 + n..];
    assert u[6..][..n] == u[6..6 + n];
  }

  /** The infotext without the prompt in front of it, when it is there, then trimmed. */
  function InfoBody(prompt: string, infotxt: string): (r: string)
    ensures StartsWith(infotxt, prompt) ==> r == Trim(infotxt[|prompt|..])
    ensures !StartsWith(infotxt, prompt) ==> r == Trim(infotxt)
  {
    Trim(StripPrefix(infotxt, prompt).UnwrapOr(infotxt))
  }

  /** The body never starts or ends with whitespace. */
  lemma InfoBodyTrimmed(prompt: string, infotxt: string)
    ensures var r := InfoBody(prompt, infotxt);
      |r| > 0 ==> !IsWhitespace(r[0]) && !IsWhitespace(r[|r| - 1])
  {
    var t := TrimStart(StripPrefix(infotxt, prompt).UnwrapOr(infotxt));
    var r := TrimEnd(t);
    if |r| > 0 {
      assert r[0] == t[0];
    }
  }

  /**
   * `MessageText::new_with_infotxt` (image.rs:132-146): the escaped prompt
   * as code, a line break, then the escaped body with its seed marked.
   */
  function CaptionWithInfo(escape: string -> string, prompt: string, infotxt: string): (r: string)
    ensures StartsWith(r, "`" + escape(prompt) + "`\n")
    ensures r[|escape(prompt)| + 3..] == MarkSeed(escape(InfoBody(prompt, infotxt)))
  {
    var head := "`" + escape(prompt) + "`\n";
    var r := head + MarkSeed(escape(InfoBody(prompt, infotxt)));
    assert r[..|head|] == head;
    r
  }

  /** `MessageText::new` (image.rs:147-150): the escaped prompt as code. */
  function CaptionPlain(escape: string -> string, prompt: string): (r: string)
    ensures |r| == |escape(prompt)| + 2 && r[0] == '`' && r[|r| - 1] == '`'
    ensures r[1..|r| - 1] == escape(prompt)
  {
    "`" + escape(prompt) + "`"
  }

  /** What `ImgResponse::info` parses out of the server's info text. */
  datatype ImageInfo = ImageInfo(prompt: Option<string>, infotexts: Option<seq<string>>, seed: Option<i64>)

  /** An `ImgResponse`: the Base64 images, the requested seed, and the parsed info (or why it did not parse). */
  datatype ImgResponse = ImgResponse(images: seq<string>, requestedSeed: Option<i64>, info: Result<ImageInfo>)

  const NoPromptInInfo := "No prompt in image info response"

  /**
   * `TryFrom<&ImgResponse<T>> for MessageText` (image.rs:161-178): fails
   * when the info does not parse or has no prompt; uses the first infotext
   * when there is one.
   */
  function CaptionOf(escape: string -> string, info: Result<ImageInfo>): (r: Result<string>)
    ensures info.Err? ==> r == Err(info.msg)
    ensures info.Ok? && info.value.prompt.None? ==> r == Err(NoPromptInInfo)
    ensures r.Ok? <==> info.Ok? && info.value.prompt.Some?
    ensures r.Ok? && info.value.infotexts.Some? && |info.value.infotexts.value| > 0 ==>
      r.value == CaptionWithInfo(escape, info.value.prompt.value, info.value.infotexts.value[0])
    ensures r.Ok? && !(info.value.infotexts.Some? && |info.value.infotexts.value| > 0) ==>
      r.value == CaptionPlain(escape, info.value.prompt.value)
  {
    match info
    case Err(e) => Err(e)
    case Ok(i) =>
      if i.prompt.None? then Err(NoPromptInInfo)
      else if i.infotexts.Some? && |i.infotexts.value| > 0 then Ok(CaptionWithInfo(escape, i.prompt.value, i.infotexts.value[0]))
      else Ok(CaptionPlain(escape, i.prompt.value))
  }

  /** Only the first infotext matters, and the seed in the info never does. */
  lemma CaptionFirstInfotextOnly(escape: string -> string, prompt: Option<string>, first: string,
                                 rest1: seq<string>, rest2: seq<string>, seed1: Option<i64>, seed2: Option<i64>)
    ensures CaptionOf(escape, Ok(ImageInfo(prompt, Some([first] + rest1), seed1)))
      == CaptionOf(escape, Ok(ImageInfo(prompt, Some([first] + rest2), seed2)))
  {
  }

  // ---------------------------------------------------------------------
  // The displayed seed and the reply
  // ---------------------------------------------------------------------

  /**
   * The seed the keyboard offers (image.rs:233-237, 278-282): -1 when the
   * server used the requested seed, else the server's seed, or -1 without one.
   */
  function DisplayedSeed(resp: ImgResponse): (r: Result<i64>)
    ensures resp.info.Err? ==> r == Err(resp.info.msg)
    ensures resp.info.Ok? ==> r.Ok?
  {
    match resp.info
    case Err(e) => Err(e)
    case Ok(info) => Ok(if info.seed == resp.requestedSeed then -1 else info.seed.UnwrapOr(-1))
  }

  /**
   * A seed other than -1 is offered exactly when the server reports it and
   * it differs from the requested one.
   */
  lemma DisplayedSeedOffered(resp: ImgResponse, seed: i64)
    requires resp.info.Ok? && seed != -1
    ensures DisplayedSeed(resp) == Ok(seed) <==> resp.info.value.seed == Some(seed) && resp.requestedSeed != Some(seed)
  {
  }

  /** A server that echoes the requested seed gets the random-seed button. */
  lemma EchoedSeedRandomizes(resp: ImgResponse)
    requires resp.info.Ok? && resp.info.value.seed == resp.requestedSeed
    ensures DisplayedSeed(resp) == Ok(-1)
    ensures Keyboard(DisplayedSeed(resp).value)[0][1].data == "reuse/-1"
  {
  }

  /** `struct Response`: the caption, the decoded images, the message replied to, and the seed for the keyboard. */
  datatype Response = Response(caption: string, images: Photo, source: int, seed: i64)

  /** `Response::new` (image.rs:79-92): fails exactly when `Photo::album` does. */
  function ResponseNew(caption: string, images: seq<string>, seed: i64, source: int): (r: Result<Response>)
    ensures r.Ok? <==> MakeAlbum(images).Ok?
    ensures r.Err? ==> r.msg == MakeAlbum(images).msg
    ensures r.Ok? ==> r.value == Response(caption, MakeAlbum(images).value, source, seed)
  {
    match MakeAlbum(images)
    case Err(e) => Err(e)
    case Ok(photo) => Ok(Response(caption, photo, source, seed))
  }

  const CaptionFailed := "Failed to build caption from response"
  const ResponseFailed := "Failed to create response!"

  /**
   * The reply `handle_image` and `handle_prompt` build from a generation
   * (image.rs:233-243, 278-288): the displayed seed, the caption and the
   * decoded images, with the context each failure is reported under.
   */
  function BuildResponse(escape: string -> string, resp: ImgResponse, source: int): (r: Result<Response>)
    ensures resp.info.Err? ==> r == Err(resp.info.msg)
    ensures resp.info.Ok? && resp.info.value.prompt.None? ==> r == Err(CaptionFailed)
    ensures r.Ok? <==> resp.info.Ok? && resp.info.value.prompt.Some? && MakeAlbum(resp.images).Ok?
    ensures (resp.info.Ok? && resp.info.value.prompt.Some? && MakeAlbum(resp.images).Err?) ==> r == Err(ResponseFailed)
    ensures r.Ok? ==> (r.value.seed == DisplayedSeed(resp).value && r.value.source == source
      && Ok(r.value.caption) == CaptionOf(escape, resp.info)
      && Ok(r.value.images) == MakeAlbum(resp.images))
  {
    match DisplayedSeed(resp)
    case Err(e) => Err(e)
    case Ok(seed) =>
      match CaptionOf(escape, resp.info)
      case Err(_) => Err(CaptionFailed)
      case Ok(caption) =>
        match ResponseNew(caption, resp.images, seed, source)
        case Err(_) => Err(ResponseFailed)
        case Ok(response) => Ok(response)
  }

  // ---------------------------------------------------------------------
  // Sending
  // ---------------------------------------------------------------------

  /** One entry of a media group: an image and its caption, if any. */
  datatype Media = Media(image: seq<u8>, caption: Option<string>)

  /** The messages `Response::send` sends, each replying to `replyTo`. */
  datatype Outgoing =
    | PhotoMessage(image: seq<u8>, caption: string, keyboard: seq<seq<Button>>, replyTo: int)  // MarkdownV2
    | MediaGroup(media: seq<Media>, replyTo: int)
    | TextMessage(text: string, keyboard: seq<seq<Button>>, replyTo: int)

  const AlbumPrompt := "What would you like to do? Select below, or enter a new prompt."

  /** The images in order, the caption on the first and on no other. */
  predicate CaptionedOnce(media: seq<Media>, images: seq<seq<u8>>, caption: string)
  {
    |media| == |images|
    && forall i :: 0 <= i < |media| ==> media[i] == Media(images[i], if i == 0 then Some(caption) else None)
  }

  /**
   * `Response::send` (image.rs:94-126): a single image goes out as a photo
   * with the caption and keyboard; an album as a media group whose first
   * photo alone takes the caption (`caption.take()`), followed by a text
   * message carrying the keyboard.
   */
  method Send(resp: Response) returns (out: seq<Outgoing>)
    ensures resp.images.Single? ==> out == [PhotoMessage(resp.images.image, resp.caption, Keyboard(resp.seed), resp.source)]
    ensures resp.images.Album? ==> (|out| == 2
      && out[0].MediaGroup? && out[0].replyTo == resp.source
      && CaptionedOnce(out[0].media, resp.images.images, resp.caption)
      && out[1] == TextMessage(AlbumPrompt, Keyboard(resp.seed), resp.source))
  {
    match resp.images
    case Single(image) =>
      out := [PhotoMessage(image, resp.caption, Keyboard(resp.seed), resp.source)];
    case Album(images) =>
      var caption: Option<string> := Some(resp.caption);
      var media: seq<Media> := [];
      var k := 0;
      while k < |images|
        invariant 0 <= k <= |images| && |media| == k
        invariant caption == if k == 0 then Some(resp.caption) else None
        invariant forall i :: 0 <= i < k ==> media[i] == Media(images[i], if i == 0 then Some(resp.caption) else None)
      {
        media := media + [Media(images[k], caption)];
        caption := None;
        k := k + 1;
      }
      out := [MediaGroup(media, resp.source), TextMessage(AlbumPrompt, Keyboard(resp.seed), resp.source)];
  }

  /** In a captioned album, exactly one photo has a caption. */
  lemma CaptionedOnceUnique(media: seq<Media>, images: seq<seq<u8>>, caption: string, i: nat)
    requires CaptionedOnce(media, images, caption) && i < |media|
    ensures media[i].caption.Some? <==> i == 0
    ensures media[i].image == images[i]
  {
  }

  // ---------------------------------------------------------------------
  // img2img
  // ---------------------------------------------------------------------

  /** A `PhotoSize`: the file to download and its height. */
  datatype PhotoSize = PhotoSize(fileId: string, height: u32)

  /**
   * The size `reduce(|a, p| if a.height > p.height { a } else { p })`
   * picks: the tallest, and of equally tall ones the last.
   */
  function TallestIndex(sizes: seq<PhotoSize>): (k: nat)
    requires |sizes| > 0
    ensures k < |sizes|
    ensures forall j :: 0 <= j < |sizes| ==> sizes[j].height <= sizes[k].height
    ensures forall j :: k < j < |sizes| ==> sizes[j].height < sizes[k].height
    decreases |sizes|
  {
    if |sizes| == 1 then 0
    else
      var k := TallestIndex(sizes[..|sizes| - 1]);
      if sizes[k].height > sizes[|sizes| - 1].height then k else |sizes| - 1
  }

  const PromptRequired := "A prompt is required to run img2img."
  const NoPrompt := "No prompt provided for img2img"
  const SomethingWrong := "Something went wrong."
  const NoPhotos := "Photo vec was empty!"

  /** The outcome of `do_img2img`: the result, the request as left behind, and the chat message sent on a missing input. */
  datatype Img2ImgRun = Img2ImgRun(result: Result<ImgResponse>, request: SdImg2Img.Img2ImgRequest, notice: Option<string>)

  /**
   * `do_img2img` (image.rs:180-218) on values: the caption becomes the
   * prompt, the tallest photo size is downloaded and added as an image, the
   * request is sent, and after a successful send the images are taken out
   * again. Each `?` returns with the request as it stands.
   */
  function Img2ImgSteps(req: SdImg2Img.Img2ImgRequest, caption: Option<string>, photo: seq<PhotoSize>,
                        download: string -> Result<seq<u8>>,
                        send: SdImg2Img.Img2ImgRequest -> Result<ImgResponse>): Img2ImgRun
  {
    if caption.None? then Img2ImgRun(Err(NoPrompt), req, Some(PromptRequired))
    else
      var withPrompt := SdImg2Img.Set(req, SdImg2Img.Setter.WithPrompt(caption.value));
      if |photo| == 0 then Img2ImgRun(Err(NoPhotos), withPrompt, Some(SomethingWrong))
      else
        match download(photo[TallestIndex(photo)].fileId)
        case Err(e) => Img2ImgRun(Err(e), withPrompt, None)
        case Ok(bytes) =>
          var withImage := SdImg2Img.AddImage(withPrompt, bytes);
          match send(withImage)
          case Err(e) => Img2ImgRun(Err(e), withImage, None)
          case Ok(resp) => Img2ImgRun(Ok(resp), withImage.(initImages := None), None)
  }

  /** `do_img2img` (image.rs:180-218), updating the dialogue's img2img request in place. */
  method DoImg2Img(img2img: SdImg2Img.Img2ImgBuilder, caption: Option<string>, photo: seq<PhotoSize>,
                   download: string -> Result<seq<u8>>,
                   send: SdImg2Img.Img2ImgRequest -> Result<ImgResponse>)
    returns (r: Result<ImgResponse>, notice: Option<string>)
    modifies img2img
    ensures Img2ImgRun(r, img2img.Value(), notice) == Img2ImgSteps(old(img2img.Value()), caption, photo, download, send)
  {
    if caption.None? {
      return Err(NoPrompt), Some(PromptRequired);
    }
    img2img.WithPrompt(caption.value);
    if |photo| == 0 {
      return Err(NoPhotos), Some(SomethingWrong);
    }
    var tallest := photo[TallestIndex(photo)];
    var file := download(tallest.fileId);
    if file.Err? {
      return Err(file.msg), None;
    }
    img2img.WithImage(file.value);
    var resp := send(img2img.Value());
    if resp.Err? {
      return Err(resp.msg), None;
    }
    img2img.initImages := None;
    return Ok(resp.value), None;
  }

  /** Without a caption nothing is sent and the request is unchanged. */
  lemma Img2ImgNeedsCaption(req: SdImg2Img.Img2ImgRequest, photo: seq<PhotoSize>,
                            download: string -> Result<seq<u8>>,
                            send: SdImg2Img.Img2ImgRequest -> Result<ImgResponse>)
    ensures Img2ImgSteps(req, None, photo, download, send) == Img2ImgRun(Err(NoPrompt), req, Some(PromptRequired))
  {
  }

  /**
   * A successful run sent the request with the caption as prompt and the
   * tallest photo's bytes as its last image, and leaves the request with
   * that prompt and no images, every other field as before.
   */
  lemma Img2ImgSuccess(req: SdImg2Img.Img2ImgRequest, caption: Option<string>, photo: seq<PhotoSize>,
                       download: string -> Result<seq<u8>>,
                       send: SdImg2Img.Img2ImgRequest -> Result<ImgResponse>)
    requires Img2ImgSteps(req, caption, photo, download, send).result.Ok?
    ensures caption.Some? && |photo| > 0
    ensures var bytes := download(photo[TallestIndex(photo)].fileId);
      var sent := SdImg2Img.AddImage(req.(prompt := Some(caption.value)), bytes.value);
      bytes.Ok?
      && send(sent) == Img2ImgSteps(req, caption, photo, download, send).result
      && |SdImg2Img.HeldImages(sent)| > 0
      && Base64.Decode(SdImg2Img.HeldImages(sent)[|SdImg2Img.HeldImages(sent)| - 1]) == Some(bytes.value)
    ensures Img2ImgSteps(req, caption, photo, download, send).request
      == req.(prompt := Some(caption.value), initImages := None)
  {
    var bytes := download(photo[TallestIndex(photo)].fileId).value;
    Base64.DecodeEncode(bytes);
  }

  // ---------------------------------------------------------------------
  // Reusing a seed
  // ---------------------------------------------------------------------

  /** The message the pressed button is on, and whether the message it replies to has a photo or text. */
  datatype ParentMessage = ParentMessage(hasPhoto: bool, hasText: bool)
  datatype CallbackMessage = CallbackMessage(replyTo: Option<ParentMessage>)

  const NoLongerAvailable := "Sorry, this message is no longer available."
  const Oops := "Oops, something went wrong."
  const SeedRandomized := "Seed randomized."

  /** The callback answer (cached for 60 seconds on failures) and the keyboard the message is given, if any. */
  datatype ReuseReply = ReuseReply(answer: string, cached: bool, markup: Option<seq<seq<Button>>>)

  /** The outcome of `handle_reuse`: both requests, the dialogue state stored (if any) and the reply. */
  datatype Reuse = Reuse(txt2img: SdTxt2Img.Txt2ImgRequest, img2img: SdImg2Img.Img2ImgRequest,
                         stored: Option<Bot.State>, reply: ReuseReply)

  /** The answer after the seed was stored (image.rs:424-436). */
  function ReuseDone(seed: i64): ReuseReply
  {
    if seed == -1 then ReuseReply(SeedRandomized, false, None)
    else ReuseReply("Seed set to " + FormatInt(seed) + ".", false, Some(Keyboard(-1)))
  }

  /**
   * `handle_reuse` (image.rs:375-439) on values: the seed goes to img2img
   * for a photo parent, else to txt2img for a text parent, and the state
   * is stored; without a message, a parent, or either, nothing changes.
   */
  function ReuseSteps(t: SdTxt2Img.Txt2ImgRequest, i: SdImg2Img.Img2ImgRequest, message: Option<CallbackMessage>,
                      seed: i64): Reuse
  {
    var done := ReuseDone(seed);
    if message.None? then Reuse(t, i, None, ReuseReply(NoLongerAvailable, true, None))
    else if message.value.replyTo.None? then Reuse(t, i, None, ReuseReply(Oops, true, None))
    else if message.value.replyTo.value.hasPhoto then
      var i' := SdImg2Img.Set(i, SdImg2Img.Setter.WithSeed(seed));
      Reuse(t, i', Some(Bot.State.Ready(t, i')), done)
    else if message.value.replyTo.value.hasText then
      var t' := SdTxt2Img.Set(t, SdTxt2Img.Setter.WithSeed(seed));
      Reuse(t', i, Some(Bot.State.Ready(t', i)), done)
    else Reuse(t, i, None, ReuseReply(Oops, true, None))
  }

  /** `handle_reuse` (image.rs:375-439), setting the seed on the requests in place. */
  method HandleReuse(txt2img: SdTxt2Img.Txt2ImgBuilder, img2img: SdImg2Img.Img2ImgBuilder,
                     message: Option<CallbackMessage>, seed: i64)
    returns (stored: Option<Bot.State>, reply: ReuseReply)
    modifies txt2img, img2img
    ensures Reuse(txt2img.Value(), img2img.Value(), stored, reply)
      == ReuseSteps(old(txt2img.Value()), old(img2img.Value()), message, seed)
  {
    if message.None? {
      return None, ReuseReply(NoLongerAvailable, true, None);
    }
    if message.value.replyTo.None? {
      return None, ReuseReply(Oops, true, None);
    }
    var parent := message.value.replyTo.value;
    if parent.hasPhoto {
      img2img.WithSeed(seed);
      stored := Some(Bot.State.Ready(txt2img.Value(), img2img.Value()));
    } else if parent.hasText {
      txt2img.WithSeed(seed);
      stored := Some(Bot.State.Ready(txt2img.Value(), img2img.Value()));
    } else {
      return None, ReuseReply(Oops, true, None);
    }
    if seed == -1 {
      reply := ReuseReply(SeedRandomized, false, None);
    } else {
      reply := ReuseReply("Seed set to " + FormatInt(seed) + ".", false, Some(Keyboard(-1)));
    }
    assert reply == ReuseDone(seed);
  }

  /**
   * The seed lands on the request of the parent's kind, the other request
   * is untouched, and the stored state holds both; otherwise nothing changes.
   */
  lemma ReuseTargets(t: SdTxt2Img.Txt2ImgRequest, i: SdImg2Img.Img2ImgRequest, message: Option<CallbackMessage>,
                     seed: i64)
    ensures var r := ReuseSteps(t, i, message, seed);
      var parent := if message.Some? then message.value.replyTo else None;
      (parent.Some? && parent.value.hasPhoto ==>
        r.img2img == i.(seed := Some(seed)) && r.txt2img == t && r.stored == Some(Bot.State.Ready(t, r.img2img)))
      && (parent.Some? && !parent.value.hasPhoto && parent.value.hasText ==>
        r.txt2img == t.(seed := Some(seed)) && r.img2img == i && r.stored == Some(Bot.State.Ready(r.txt2img, i)))
      && (parent.None? || (!parent.value.hasPhoto && !parent.value.hasText) ==>
        r.txt2img == t && r.img2img == i && r.stored.None? && r.reply.cached)
  {
  }

  /**
   * After a stored update the answer names the seed; a fixed seed also
   * resets the keyboard to the random-seed button, whose callback reuses -1.
   */
  lemma ReuseAnswer(t: SdTxt2Img.Txt2ImgRequest, i: SdImg2Img.Img2ImgRequest, message: Option<CallbackMessage>,
                    seed: i64)
    requires ReuseSteps(t, i, message, seed).stored.Some?
    ensures var r := ReuseSteps(t, i, message, seed).reply;
      (seed == -1 ==> r == ReuseReply(SeedRandomized, false, None))
      && (seed != -1 ==> (r.answer == "Seed set to " + FormatInt(seed) + "." && r.markup == Some(Keyboard(-1))
          && ReuseSeed(Some(r.markup.value[0][1].data)) == Some(-1)))
  {
    assert ReuseSteps(t, i, message, seed).reply == ReuseDone(seed);
    ReuseRoundTrip(-1);
  }
}
