/**
 * The ComfyUI adapter of crates/sal-e-api/src/api.rs. Unlike the one in
 * lib.rs it patches a copy of the chosen graph before running it: a seed
 * of -1 is replaced by a random non-negative seed, and for image-to-image
 * the `LoadImage` node first gets the name of the uploaded file.
 *
 * The `ComfyParams` this file builds has the fields of the lib.rs one (a
 * graph, a count and an image), so `SalLib.ComfyState` is reused. The
 * random draw is a parameter.
 */
module SalApi {
  import opened Common
  import opened SalParams
  import ComfyPrompt
  import SalLib

  /**
   * `i64::abs` as compiled without overflow checks: the absolute value,
   * except that `i64::MIN` has none and is returned unchanged.
   */
  function WrappingAbs(x: i64): (r: i64)
    ensures x != I64_MIN ==> r as int == (if x < 0 then -x else x)
    ensures x == I64_MIN ==> r == x
  {
    if x == I64_MIN then x else if x < 0 then -x else x
  }

  /** The draw `i64::MIN` gives a negative replacement seed as written. */
  lemma WrappingAbsNegative()
    ensures WrappingAbs(I64_MIN) < 0
  {
  }

  /**
   * The replacement for a seed of -1: the absolute value of the draw,
   * saturated at `i64::MAX` for the one draw that has no absolute value.
   */
  function SeedFromDraw(draw: i64): (r: i64)
    ensures 0 <= r
    ensures draw != I64_MIN ==> r == WrappingAbs(draw)
    ensures draw == I64_MIN ==> r == I64_MAX
  {
    if draw == I64_MIN then I64_MAX else WrappingAbs(draw)
  }

  /**
   * Every non-negative seed is a replacement: the draw itself gives it, and
   * only the draws of the same magnitude (and `i64::MIN`, for `i64::MAX`) do.
   */
  lemma SeedFromDrawPreimage(seed: i64, draw: i64)
    ensures 0 <= seed ==> SeedFromDraw(seed) == seed
    ensures SeedFromDraw(draw) == seed ==> (draw == seed || draw == -seed || (seed == I64_MAX && draw == I64_MIN))
  {
  }

  /**
   * `seed_mut().unwrap()` after `seed()` succeeded: the seed accessor can
   * write wherever it can read. The accessors share their node lookup,
   * which is not part of this model, so this is required of them.
   */
  ghost predicate SeedWritable(acc: GraphAccess)
  {
    forall g, x: i64 :: acc.read(g).seed.Some? ==> acc.store(g, SetSeed(x)).Some?
  }

  /** The seed rule: a seed of -1 becomes `SeedFromDraw(draw)`; anything else is left alone. */
  function PatchSeed(acc: GraphAccess, g: ComfyPrompt.Prompt, draw: i64): (r: ComfyPrompt.Prompt)
    requires SeedWritable(acc)
    ensures acc.read(g).seed != Some(-1) ==> r == g
    ensures acc.read(g).seed == Some(-1) ==> Some(r) == acc.store(g, SetSeed(SeedFromDraw(draw)))
  {
    if acc.read(g).seed == Some(-1) then acc.store(g, SetSeed(SeedFromDraw(draw))).value else g
  }

  /**
   * For every draw but `i64::MIN` the seed rule writes what api.rs writes,
   * `draw.abs()`; that one draw is the correction listed under Findings.
   */
  lemma PatchSeedAsWritten(acc: GraphAccess, g: ComfyPrompt.Prompt, draw: i64)
    requires SeedWritable(acc)
    requires draw != I64_MIN
    ensures acc.read(g).seed == Some(-1) ==> Some(PatchSeed(acc, g, draw)) == acc.store(g, SetSeed(WrappingAbs(draw)))
    ensures acc.read(g).seed != Some(-1) ==> PatchSeed(acc, g, draw) == g
  {
  }

  /**
   * When the seed accessor writes exactly the seed, the patched graph
   * reports a non-negative seed in place of -1 and everything else as before.
   */
  lemma PatchSeedReports(acc: GraphAccess, g: ComfyPrompt.Prompt, draw: i64)
    requires SeedWritable(acc)
    requires StoresExactly(acc, g, SetSeed(SeedFromDraw(draw)))
    ensures acc.read(g).seed == Some(-1) ==>
      GraphValues(acc, PatchSeed(acc, g, draw)) == GraphValues(acc, g).(seed := Some(SeedFromDraw(draw)))
    ensures acc.read(g).seed == Some(-1) ==> 0 <= GraphValues(acc, PatchSeed(acc, g, draw)).seed.value
    ensures acc.read(g).seed != Some(-1) ==> GraphValues(acc, PatchSeed(acc, g, draw)) == GraphValues(acc, g)
  {
    if acc.read(g).seed == Some(-1) {
      var s := SetSeed(SeedFromDraw(draw));
      assert Assign(GraphValues(acc, g), s) == GraphValues(acc, g).(seed := Some(SeedFromDraw(draw)));
    }
  }

  /** `txt2img`: the chosen graph with the seed rule applied is run and reported; the params are the unpatched ones. */
  function Txt2ImgResult(api: SalLib.ComfyPromptApi, config: SalLib.GenConfig, acc: GraphAccess, draw: i64,
                         execute: SalLib.Execute): (r: Result<SalLib.Response>)
    requires SeedWritable(acc)
    ensures r.Ok? <==> execute(PatchSeed(acc, SalLib.ComfyBase(api, config).prompt, draw)).Ok?
    ensures r.Err? ==> r.msg == execute(PatchSeed(acc, SalLib.ComfyBase(api, config).prompt, draw)).msg
    ensures r.Ok? ==> (r.value.params == PatchSeed(acc, SalLib.ComfyBase(api, config).prompt, draw)
      && r.value.genParams == SalLib.ComfyBase(api, config)
      && execute(r.value.params) == Ok(r.value.images))
  {
    var base := SalLib.ComfyBase(api, config);
    var prompt := PatchSeed(acc, base.prompt, draw);
    match execute(prompt)
    case Err(e) => Err(e)
    case Ok(images) => Ok(SalLib.Response(images, prompt, base))
  }

  /** `ComfyPromptApi::txt2img` of api.rs: clones the graph, then overwrites its seed in place. */
  method Txt2Img(api: SalLib.ComfyPromptApi, config: SalLib.GenConfig, acc: GraphAccess, draw: i64,
                 execute: SalLib.Execute) returns (r: Result<SalLib.Response>)
    requires SeedWritable(acc)
    ensures r == Txt2ImgResult(api, config, acc, draw, execute)
  {
    var base := SalLib.ComfyBase(api, config);
    var prompt := base.prompt;
    if acc.read(prompt).seed == Some(-1) {
      prompt := acc.store(prompt, SetSeed(SeedFromDraw(draw))).value;
    }
    var images := execute(prompt);
    if images.Err? {
      return Err(images.msg);
    }
    return Ok(SalLib.Response(images.value, prompt, base));
  }

  /**
   * `img2img`: the image check, the upload, the `LoadImage` patch, then
   * the seed rule on the patched copy; the response reports that copy and
   * the unpatched params.
   */
  function Img2ImgResult(api: SalLib.ComfyPromptApi, config: SalLib.GenConfig, acc: GraphAccess, draw: i64,
                         upload: SalLib.Upload, execute: SalLib.Execute): (r: Result<SalLib.Response>)
    requires SeedWritable(acc)
    ensures SalLib.ComfyBase(api, config).image.None? ==> r == Err(SalLib.ImageRequired)
    ensures SalLib.ComfyBase(api, config).image.Some? && upload(SalLib.ComfyBase(api, config).image.value).Err?
      ==> r == Err(SalLib.UploadFailed)
    ensures r.Ok? ==> (SalLib.ComfyBase(api, config).image.Some?
      && upload(SalLib.ComfyBase(api, config).image.value).Ok?
      && acc.storeImage(SalLib.ComfyBase(api, config).prompt, upload(SalLib.ComfyBase(api, config).image.value).value).Ok?
      && r.value.params == PatchSeed(acc, acc.storeImage(SalLib.ComfyBase(api, config).prompt,
                                                         upload(SalLib.ComfyBase(api, config).image.value).value).value, draw)
      && r.value.genParams == SalLib.ComfyBase(api, config)
      && execute(r.value.params) == Ok(r.value.images))
  {
    var base := SalLib.ComfyBase(api, config);
    if base.image.None? then Err(SalLib.ImageRequired)
    else if upload(base.image.value).Err? then Err(SalLib.UploadFailed)
    else
      match acc.storeImage(base.prompt, upload(base.image.value).value)
      case Err(e) => Err(e)
      case Ok(loaded) =>
        var prompt := PatchSeed(acc, loaded, draw);
        match execute(prompt)
        case Err(e) => Err(e)
        case Ok(images) => Ok(SalLib.Response(images, prompt, base))
  }

  /** `ComfyPromptApi::img2img` of api.rs: clones the graph, then overwrites the image name and the seed in place. */
  method Img2Img(api: SalLib.ComfyPromptApi, config: SalLib.GenConfig, acc: GraphAccess, draw: i64,
                 upload: SalLib.Upload, execute: SalLib.Execute) returns (r: Result<SalLib.Response>)
    requires SeedWritable(acc)
    ensures r == Img2ImgResult(api, config, acc, draw, upload, execute)
  {
    var base := SalLib.ComfyBase(api, config);
    if base.image.None? {
      return Err(SalLib.ImageRequired);
    }
    var resp := upload(base.image.value);
    if resp.Err? {
      return Err(SalLib.UploadFailed);
    }
    var prompt := base.prompt;
    var loaded := acc.storeImage(prompt, resp.value);
    if loaded.Err? {
      return Err(loaded.msg);
    }
    prompt := loaded.value;
    if acc.read(prompt).seed == Some(-1) {
      prompt := acc.store(prompt, SetSeed(SeedFromDraw(draw))).value;
    }
    var images := execute(prompt);
    if images.Err? {
      return Err(images.msg);
    }
    return Ok(SalLib.Response(images.value, prompt, base));
  }

  /** Without an image, `img2img` fails the same way whatever the draw, the uploader and the server. */
  lemma Img2ImgImageFirst(api: SalLib.ComfyPromptApi, config: SalLib.GenConfig, acc: GraphAccess,
                          draw1: i64, draw2: i64, upload1: SalLib.Upload, upload2: SalLib.Upload,
                          execute1: SalLib.Execute, execute2: SalLib.Execute)
    requires SeedWritable(acc)
    requires SalLib.ComfyBase(api, config).image.None?
    ensures Img2ImgResult(api, config, acc, draw1, upload1, execute1)
      == Img2ImgResult(api, config, acc, draw2, upload2, execute2)
  {
  }

  /**
   * A graph whose seed is not -1 is run exactly as the lib.rs adapter runs
   * it: the two `txt2img`s then agree.
   */
  lemma Txt2ImgAgreesWithLib(api: SalLib.ComfyPromptApi, config: SalLib.GenConfig, acc: GraphAccess, draw: i64,
                             execute: SalLib.Execute)
    requires SeedWritable(acc)
    requires acc.read(SalLib.ComfyBase(api, config).prompt).seed != Some(-1)
    ensures Txt2ImgResult(api, config, acc, draw, execute) == SalLib.Txt2Img(api, config, execute)
  {
  }
}
