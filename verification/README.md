# stable-diffusion-bot, modelled in Dafny

This project models the deterministic core of capslock/stable-diffusion-bot
and proves properties of that model. The bot is a Telegram bot that sends
prompts to a Stable Diffusion backend (the AUTOMATIC1111 web UI API or a
ComfyUI workflow graph) and replies with the generated images.

The repository holds two generations of the code, and they do not behave
alike. Each generation, and each file, is modelled with its own types:

- **`crates/`, the newer generation**
  - `stable-diffusion-api`: flat request records with in-place builders and `merge`.
    Modules `SdTxt2Img` and `SdImg2Img`.
  - `sal-e-api`: the backend-neutral `GenParams` layer and the adapters that prepare
    requests. Modules `SalParams`, `SalGenParams`, `SalLib` and `SalApi`.
  - `comfyui-api`:
    - the workflow graph (`ComfyPrompt`);
    - its recursive visitor (`ComfyVisitor`);
    - the `ImageInfo` fold (`ComfyImageInfo`);
    - the setters that write into nodes (`ComfySetter`);
    - the websocket update handling of both `execute_prompt` versions (`ComfyUpdates`, `ComfyExecute`).
  - `stable-diffusion-bot`: the dialogue state, defaults and builder (`Bot`), the
    command handlers and filters (`BotHandlers`), the settings state machine
    (`BotSettings`) and the image replies (`BotImage`).
- **`src/`, the older generation**
  - the request records: `LegacyApi` for the by-value builders of `src/api.rs`,
    `LegacyTxt2Img` and `LegacyImg2Img` for the in-place ones;
  - the routing (`LegacyBot`);
  - the settings handlers with clamping (`LegacySettings`);
  - the unclamped handlers and the rerun (`LegacyHandlers`);
  - the image replies (`LegacyImage`);
  - the single-file handlers of `src/bot/handlers.rs` (`LegacyBotHandlers`).
- **Shared pieces**
  - `Common` and `Text`: `Option`, `Result`, fixed-width integer ranges, and Rust's
    `str::parse`, `split`, `trim` and `strip_prefix`.
  - `Records`: the field views of the request records.
  - `Base64`: the padded standard alphabet of section 4 of RFC 4648, with both round
    trips proved.

**How state is modelled.**

- Where the source mutates through `&mut self` (builders, `GenParams` setters,
  `do_img2img`, `Response::send`, the settings updates), the model is a class with
  those fields, or a method over one.
  - Each method's `ensures` ties the new state to a pure function of the old one.
  - The laws are proved about that function.
- Pure matches and by-value builders are functions.
- Network calls, uploads, downloads, history lookups, random draws and the Telegram
  transport are function parameters.

## Model

| member | source | states |
|---|---|---|
| SdTxt2Img.Default | crates/stable-diffusion-api/src/txt2img.rs:12-13 | the derived `Default` leaves every field `None` |
| SdTxt2Img.Extensional | crates/stable-diffusion-api/src/txt2img.rs:13-96 | two requests that agree on every field are the same request |
| SdTxt2Img.SetGet | crates/stable-diffusion-api/src/txt2img.rs:111-376 | each scalar `with_*` sets its own field to `Some(v)` and leaves every other field unchanged |
| SdTxt2Img.AddStyleGet | crates/stable-diffusion-api/src/txt2img.rs:146-153 | `with_style` appends one style, creating a one-element list when styles is `None`; no other field changes |
| SdTxt2Img.StyleAfterStyles | crates/stable-diffusion-api/src/txt2img.rs:128-131 | `with_styles` replaces the whole list: `with_style` after it gives that list plus the style |
| SdTxt2Img.MergeGet | crates/stable-diffusion-api/src/txt2img.rs:383-429 | every field of `a.merge(b)` is `b`'s value when `Some`, otherwise `a`'s |
| SdTxt2Img.MergeDefault | crates/stable-diffusion-api/src/txt2img.rs:383-429 | merging an all-`None` request changes nothing, and merging into an all-`None` request gives the argument |
| SdTxt2Img.MergeAssociative | crates/stable-diffusion-api/src/txt2img.rs:383-429 | `merge` is associative |
| SdTxt2Img.MergeIdempotent | crates/stable-diffusion-api/src/txt2img.rs:383-429 | `a.merge(a) == a` |
| SdTxt2Img.MergeSetter | crates/stable-diffusion-api/src/txt2img.rs:383-429 | merging a default request with one builder call applied is that builder call |
| SdTxt2Img.Txt2ImgBuilder.constructor | crates/stable-diffusion-api/src/txt2img.rs:12-13 | a builder holds the record it starts from |
| SdTxt2Img.Txt2ImgBuilder.WithPrompt | crates/stable-diffusion-api/src/txt2img.rs:111-114 | the record afterwards is the old one with the `WithPrompt` setter applied: that field set, nothing else changed |
| SdTxt2Img.Txt2ImgBuilder.WithStyles | crates/stable-diffusion-api/src/txt2img.rs:128-131 | the record afterwards is the old one with the `WithStyles` setter applied: that field set, nothing else changed |
| SdTxt2Img.Txt2ImgBuilder.WithSeed | crates/stable-diffusion-api/src/txt2img.rs:168-171 | the record afterwards is the old one with the `WithSeed` setter applied: that field set, nothing else changed |
| SdTxt2Img.Txt2ImgBuilder.WithSubseed | crates/stable-diffusion-api/src/txt2img.rs:186-189 | the record afterwards is the old one with the `WithSubseed` setter applied: that field set, nothing else changed |
| SdTxt2Img.Txt2ImgBuilder.WithSubseedStrength | crates/stable-diffusion-api/src/txt2img.rs:203-206 | the record afterwards is the old one with the `WithSubseedStrength` setter applied: that field set, nothing else changed |
| SdTxt2Img.Txt2ImgBuilder.WithSamplerName | crates/stable-diffusion-api/src/txt2img.rs:220-223 | the record afterwards is the old one with the `WithSamplerName` setter applied: that field set, nothing else changed |
| SdTxt2Img.Txt2ImgBuilder.WithBatchSize | crates/stable-diffusion-api/src/txt2img.rs:237-240 | the record afterwards is the old one with the `WithBatchSize` setter applied: that field set, nothing else changed |
| SdTxt2Img.Txt2ImgBuilder.WithNIter | crates/stable-diffusion-api/src/txt2img.rs:254-257 | the record afterwards is the old one with the `WithNIter` setter applied: that field set, nothing else changed |
| SdTxt2Img.Txt2ImgBuilder.WithSteps | crates/stable-diffusion-api/src/txt2img.rs:271-274 | the record afterwards is the old one with the `WithSteps` setter applied: that field set, nothing else changed |
| SdTxt2Img.Txt2ImgBuilder.WithCfgScale | crates/stable-diffusion-api/src/txt2img.rs:288-291 | the record afterwards is the old one with the `WithCfgScale` setter applied: that field set, nothing else changed |
| SdTxt2Img.Txt2ImgBuilder.WithWidth | crates/stable-diffusion-api/src/txt2img.rs:305-308 | the record afterwards is the old one with the `WithWidth` setter applied: that field set, nothing else changed |
| SdTxt2Img.Txt2ImgBuilder.WithHeight | crates/stable-diffusion-api/src/txt2img.rs:322-325 | the record afterwards is the old one with the `WithHeight` setter applied: that field set, nothing else changed |
| SdTxt2Img.Txt2ImgBuilder.WithRestoreFaces | crates/stable-diffusion-api/src/txt2img.rs:339-342 | the record afterwards is the old one with the `WithRestoreFaces` setter applied: that field set, nothing else changed |
| SdTxt2Img.Txt2ImgBuilder.WithTiling | crates/stable-diffusion-api/src/txt2img.rs:356-359 | the record afterwards is the old one with the `WithTiling` setter applied: that field set, nothing else changed |
| SdTxt2Img.Txt2ImgBuilder.WithNegativePrompt | crates/stable-diffusion-api/src/txt2img.rs:373-376 | the record afterwards is the old one with the `WithNegativePrompt` setter applied: that field set, nothing else changed |
| SdTxt2Img.Txt2ImgBuilder.WithStyle | crates/stable-diffusion-api/src/txt2img.rs:146-153 | the record afterwards is the old one with the style appended, as `AddStyleGet` describes |
| SdImg2Img.Default | crates/stable-diffusion-api/src/img2img.rs:12-13 | the derived `Default` leaves every field `None` |
| SdImg2Img.Extensional | crates/stable-diffusion-api/src/img2img.rs:13-58 | two requests that agree on every field are the same request |
| SdImg2Img.SetGet | crates/stable-diffusion-api/src/img2img.rs:190-416 | each scalar `with_*` sets its own field to `Some(v)` and leaves every other field unchanged |
| SdImg2Img.ExtendStylesGet | crates/stable-diffusion-api/src/img2img.rs:147-154 | `with_styles` extends the existing list rather than replacing it, creating it when absent; no other field changes |
| SdImg2Img.AddStyleIsExtend | crates/stable-diffusion-api/src/img2img.rs:169-176 | `with_style(s)` appends one style, the same as `with_styles([s])`, whether or not a list exists |
| SdImg2Img.ExtendStylesTwice | crates/stable-diffusion-api/src/img2img.rs:147-154 | two `with_styles` calls add both lists, in order |
| SdImg2Img.AddImagesGet | crates/stable-diffusion-api/src/img2img.rs:121-133 | `with_images` keeps the images already held and appends one entry per image, in input order; each entry decodes back to its image; no other field changes |
| SdImg2Img.AddImageGet | crates/stable-diffusion-api/src/img2img.rs:92-104 | `with_image` gives exactly one entry when there was no list, and otherwise appends exactly one at the end; the last entry decodes to the bytes just added |
| SdImg2Img.AddImageIsAddImages | crates/stable-diffusion-api/src/img2img.rs:92-104 | `with_image(x)` is `with_images([x])` in both branches |
| SdImg2Img.Img2ImgBuilder.constructor | crates/stable-diffusion-api/src/img2img.rs:12-13 | a builder holds the record it starts from |
| SdImg2Img.Img2ImgBuilder.WithPrompt | crates/stable-diffusion-api/src/img2img.rs:73-76 | the record afterwards is the old one with the `WithPrompt` setter applied: that field set, nothing else changed |
| SdImg2Img.Img2ImgBuilder.WithDenoisingStrength | crates/stable-diffusion-api/src/img2img.rs:190-193 | the record afterwards is the old one with the `WithDenoisingStrength` setter applied: that field set, nothing else changed |
| SdImg2Img.Img2ImgBuilder.WithSeed | crates/stable-diffusion-api/src/img2img.rs:208-211 | the record afterwards is the old one with the `WithSeed` setter applied: that field set, nothing else changed |
| SdImg2Img.Img2ImgBuilder.WithSubseed | crates/stable-diffusion-api/src/img2img.rs:226-229 | the record afterwards is the old one with the `WithSubseed` setter applied: that field set, nothing else changed |
| SdImg2Img.Img2ImgBuilder.WithSubseedStrength | crates/stable-diffusion-api/src/img2img.rs:243-246 | the record afterwards is the old one with the `WithSubseedStrength` setter applied: that field set, nothing else changed |
| SdImg2Img.Img2ImgBuilder.WithSamplerName | crates/stable-diffusion-api/src/img2img.rs:260-263 | the record afterwards is the old one with the `WithSamplerName` setter applied: that field set, nothing else changed |
| SdImg2Img.Img2ImgBuilder.WithBatchSize | crates/stable-diffusion-api/src/img2img.rs:277-280 | the record afterwards is the old one with the `WithBatchSize` setter applied: that field set, nothing else changed |
| SdImg2Img.Img2ImgBuilder.WithNIter | crates/stable-diffusion-api/src/img2img.rs:294-297 | the record afterwards is the old one with the `WithNIter` setter applied: that field set, nothing else changed |
| SdImg2Img.Img2ImgBuilder.WithSteps | crates/stable-diffusion-api/src/img2img.rs:311-314 | the record afterwards is the old one with the `WithSteps` setter applied: that field set, nothing else changed |
| SdImg2Img.Img2ImgBuilder.WithCfgScale | crates/stable-diffusion-api/src/img2img.rs:328-331 | the record afterwards is the old one with the `WithCfgScale` setter applied: that field set, nothing else changed |
| SdImg2Img.Img2ImgBuilder.WithWidth | crates/stable-diffusion-api/src/img2img.rs:345-348 | the record afterwards is the old one with the `WithWidth` setter applied: that field set, nothing else changed |
| SdImg2Img.Img2ImgBuilder.WithHeight | crates/stable-diffusion-api/src/img2img.rs:362-365 | the record afterwards is the old one with the `WithHeight` setter applied: that field set, nothing else changed |
| SdImg2Img.Img2ImgBuilder.WithRestoreFaces | crates/stable-diffusion-api/src/img2img.rs:379-382 | the record afterwards is the old one with the `WithRestoreFaces` setter applied: that field set, nothing else changed |
| SdImg2Img.Img2ImgBuilder.WithTiling | crates/stable-diffusion-api/src/img2img.rs:396-399 | the record afterwards is the old one with the `WithTiling` setter applied: that field set, nothing else changed |
| SdImg2Img.Img2ImgBuilder.WithNegativePrompt | crates/stable-diffusion-api/src/img2img.rs:413-416 | the record afterwards is the old one with the `WithNegativePrompt` setter applied: that field set, nothing else changed |
| SdImg2Img.Img2ImgBuilder.WithStyles | crates/stable-diffusion-api/src/img2img.rs:147-154 | the record afterwards has the styles extended, as `ExtendStylesGet` describes |
| SdImg2Img.Img2ImgBuilder.WithStyle | crates/stable-diffusion-api/src/img2img.rs:169-176 | the record afterwards has the style appended |
| SdImg2Img.Img2ImgBuilder.WithImages | crates/stable-diffusion-api/src/img2img.rs:121-133 | encodes the images one by one in a loop; the record afterwards is the one `AddImagesGet` describes |
| SdImg2Img.Img2ImgBuilder.WithImage | crates/stable-diffusion-api/src/img2img.rs:92-104 | the record afterwards is the one `AddImageGet` describes |
| LegacyApi.Default | src/api.rs:16-17 | the derived `Default` leaves every field `None` |
| LegacyApi.Extensional | src/api.rs:17-59 | two requests that agree on every field are the same request |
| LegacyApi.SetGet | src/api.rs:62-174 | each by-value `with_X` returns the request with `X = Some(v)` and every other field unchanged |
| LegacyApi.AddStyleGet | src/api.rs:76-83 | `with_style` appends to the styles, or creates a one-element list when they are `None`; no other field changes |
| LegacyApi.StyleAfterStyles | src/api.rs:69-74 | `with_styles` replaces the list: `with_style` after it gives that list plus the style |
| LegacyApi.SetCommute | src/api.rs:62-174 | builder calls on different fields commute |
| LegacyApi.SetLastWins | src/api.rs:62-174 | of two builder calls on the same field, the last one wins |
| LegacyTxt2Img.Default | src/api/txt2img.rs:56-57 | the derived `Default` leaves every field `None` |
| LegacyTxt2Img.Extensional | src/api/txt2img.rs:57-99 | two requests that agree on every field are the same request |
| LegacyTxt2Img.SetGet | src/api/txt2img.rs:102-184 | each `with_X` sets exactly its own field to `Some(v)` and leaves every other field unchanged |
| LegacyTxt2Img.AddStyleGet | src/api/txt2img.rs:112-119 | `with_style` appends one style, or creates a one-element list when styles is `None`; no other field changes |
| LegacyTxt2Img.StyleAfterStyles | src/api/txt2img.rs:107-110 | `with_styles` replaces the list, unlike the crate version, which extends it: `with_style` after it gives that list plus the style |
| LegacyTxt2Img.SetCommute | src/api/txt2img.rs:102-184 | setters on different fields commute |
| LegacyTxt2Img.SetLastWins | src/api/txt2img.rs:102-184 | repeated setters on one field keep the last value |
| LegacyTxt2Img.Txt2ImgBuilder.constructor | src/api/txt2img.rs:56-57 | a builder holds the record it starts from |
| LegacyTxt2Img.Txt2ImgBuilder.WithPrompt | src/api/txt2img.rs:102-105 | in place: the record afterwards is the old one with the `WithPrompt` setter applied, so only that field changes |
| LegacyTxt2Img.Txt2ImgBuilder.WithStyles | src/api/txt2img.rs:107-110 | in place: the record afterwards is the old one with the `WithStyles` setter applied, so only that field changes |
| LegacyTxt2Img.Txt2ImgBuilder.WithSeed | src/api/txt2img.rs:121-124 | in place: the record afterwards is the old one with the `WithSeed` setter applied, so only that field changes |
| LegacyTxt2Img.Txt2ImgBuilder.WithSubseed | src/api/txt2img.rs:126-129 | in place: the record afterwards is the old one with the `WithSubseed` setter applied, so only that field changes |
| LegacyTxt2Img.Txt2ImgBuilder.WithSubseedStrength | src/api/txt2img.rs:131-134 | in place: the record afterwards is the old one with the `WithSubseedStrength` setter applied, so only that field changes |
| LegacyTxt2Img.Txt2ImgBuilder.WithSamplerName | src/api/txt2img.rs:136-139 | in place: the record afterwards is the old one with the `WithSamplerName` setter applied, so only that field changes |
| LegacyTxt2Img.Txt2ImgBuilder.WithBatchSize | src/api/txt2img.rs:141-144 | in place: the record afterwards is the old one with the `WithBatchSize` setter applied, so only that field changes |
| LegacyTxt2Img.Txt2ImgBuilder.WithNIter | src/api/txt2img.rs:146-149 | in place: the record afterwards is the old one with the `WithNIter` setter applied, so only that field changes |
| LegacyTxt2Img.Txt2ImgBuilder.WithSteps | src/api/txt2img.rs:151-154 | in place: the record afterwards is the old one with the `WithSteps` setter applied, so only that field changes |
| LegacyTxt2Img.Txt2ImgBuilder.WithCfgScale | src/api/txt2img.rs:156-159 | in place: the record afterwards is the old one with the `WithCfgScale` setter applied, so only that field changes |
| LegacyTxt2Img.Txt2ImgBuilder.WithWidth | src/api/txt2img.rs:161-164 | in place: the record afterwards is the old one with the `WithWidth` setter applied, so only that field changes |
| LegacyTxt2Img.Txt2ImgBuilder.WithHeight | src/api/txt2img.rs:166-169 | in place: the record afterwards is the old one with the `WithHeight` setter applied, so only that field changes |
| LegacyTxt2Img.Txt2ImgBuilder.WithRestoreFaces | src/api/txt2img.rs:171-174 | in place: the record afterwards is the old one with the `WithRestoreFaces` setter applied, so only that field changes |
| LegacyTxt2Img.Txt2ImgBuilder.WithTiling | src/api/txt2img.rs:176-179 | in place: the record afterwards is the old one with the `WithTiling` setter applied, so only that field changes |
| LegacyTxt2Img.Txt2ImgBuilder.WithNegativePrompt | src/api/txt2img.rs:181-184 | in place: the record afterwards is the old one with the `WithNegativePrompt` setter applied, so only that field changes |
| LegacyTxt2Img.Txt2ImgBuilder.WithStyle | src/api/txt2img.rs:112-119 | in place: the record afterwards has the style appended, as `AddStyleGet` describes |
| LegacyImg2Img.Default | src/api/img2img.rs:55-56 | the derived `Default` leaves every field `None` |
| LegacyImg2Img.Extensional | src/api/img2img.rs:56-101 | two requests that agree on every field are the same request |
| LegacyImg2Img.SetGet | src/api/img2img.rs:104-191 | each `with_X` sets exactly its own field to `Some(v)` and leaves every other field unchanged |
| LegacyImg2Img.AddStyleGet | src/api/img2img.rs:114-121 | `with_style` appends one style, or creates a one-element list when styles is `None`; no other field changes |
| LegacyImg2Img.StyleAfterStyles | src/api/img2img.rs:109-112 | `with_styles` replaces the list, unlike the crate version, which extends it: `with_style` after it gives that list plus the style |
| LegacyImg2Img.SetCommute | src/api/img2img.rs:104-191 | setters on different fields commute |
| LegacyImg2Img.SetLastWins | src/api/img2img.rs:104-191 | repeated setters on one field keep the last value |
| LegacyImg2Img.Img2ImgBuilder.constructor | src/api/img2img.rs:55-56 | a builder holds the record it starts from |
| LegacyImg2Img.Img2ImgBuilder.WithPrompt | src/api/img2img.rs:104-107 | in place: the record afterwards is the old one with the `WithPrompt` setter applied, so only that field changes |
| LegacyImg2Img.Img2ImgBuilder.WithStyles | src/api/img2img.rs:109-112 | in place: the record afterwards is the old one with the `WithStyles` setter applied, so only that field changes |
| LegacyImg2Img.Img2ImgBuilder.WithDenoisingStrength | src/api/img2img.rs:123-126 | in place: the record afterwards is the old one with the `WithDenoisingStrength` setter applied, so only that field changes |
| LegacyImg2Img.Img2ImgBuilder.WithSeed | src/api/img2img.rs:128-131 | in place: the record afterwards is the old one with the `WithSeed` setter applied, so only that field changes |
| LegacyImg2Img.Img2ImgBuilder.WithSubseed | src/api/img2img.rs:133-136 | in place: the record afterwards is the old one with the `WithSubseed` setter applied, so only that field changes |
| LegacyImg2Img.Img2ImgBuilder.WithSubseedStrength | src/api/img2img.rs:138-141 | in place: the record afterwards is the old one with the `WithSubseedStrength` setter applied, so only that field changes |
| LegacyImg2Img.Img2ImgBuilder.WithSamplerName | src/api/img2img.rs:143-146 | in place: the record afterwards is the old one with the `WithSamplerName` setter applied, so only that field changes |
| LegacyImg2Img.Img2ImgBuilder.WithBatchSize | src/api/img2img.rs:148-151 | in place: the record afterwards is the old one with the `WithBatchSize` setter applied, so only that field changes |
| LegacyImg2Img.Img2ImgBuilder.WithNIter | src/api/img2img.rs:153-156 | in place: the record afterwards is the old one with the `WithNIter` setter applied, so only that field changes |
| LegacyImg2Img.Img2ImgBuilder.WithSteps | src/api/img2img.rs:158-161 | in place: the record afterwards is the old one with the `WithSteps` setter applied, so only that field changes |
| LegacyImg2Img.Img2ImgBuilder.WithCfgScale | src/api/img2img.rs:163-166 | in place: the record afterwards is the old one with the `WithCfgScale` setter applied, so only that field changes |
| LegacyImg2Img.Img2ImgBuilder.WithWidth | src/api/img2img.rs:168-171 | in place: the record afterwards is the old one with the `WithWidth` setter applied, so only that field changes |
| LegacyImg2Img.Img2ImgBuilder.WithHeight | src/api/img2img.rs:173-176 | in place: the record afterwards is the old one with the `WithHeight` setter applied, so only that field changes |
| LegacyImg2Img.Img2ImgBuilder.WithRestoreFaces | src/api/img2img.rs:178-181 | in place: the record afterwards is the old one with the `WithRestoreFaces` setter applied, so only that field changes |
| LegacyImg2Img.Img2ImgBuilder.WithTiling | src/api/img2img.rs:183-186 | in place: the record afterwards is the old one with the `WithTiling` setter applied, so only that field changes |
| LegacyImg2Img.Img2ImgBuilder.WithNegativePrompt | src/api/img2img.rs:188-191 | in place: the record afterwards is the old one with the `WithNegativePrompt` setter applied, so only that field changes |
| LegacyImg2Img.Img2ImgBuilder.WithStyle | src/api/img2img.rs:114-121 | in place: the record afterwards has the style appended, as `AddStyleGet` describes |
| SalParams.Assign | crates/sal-e-api/src/lib.rs:79-114 | after a setter its own getter reports the new value and every other getter what it reported before |
| SalParams.AssignLaws | crates/sal-e-api/src/lib.rs:79-114 | setting one getter twice keeps the second value; setting two different getters commutes |
| SalParams.Fallback | crates/sal-e-api/src/gen_params.rs:286-400 | with no defaults the user values are reported; otherwise the image (and every value) is the user's when present, else the default's |
| SalParams.FallbackSlots | crates/sal-e-api/src/gen_params.rs:286-400 | every getter of `Txt2ImgParams`/`Img2ImgParams` reports the `user_params` value if present, else the `defaults` value, else none |
| SalParams.FallbackAssign | crates/sal-e-api/src/gen_params.rs:292-398 | `set_X` writes only the user value, so after it `X()` reports the new value whatever the defaults hold |
| SalParams.Txt2ImgValues | crates/sal-e-api/src/lib.rs:352-445 | the getters of a `Txt2ImgRequest`: `count` reads `n_iter`, `sampler` reads `sampler_index`, and `image()` is always none |
| SalParams.Txt2ImgPut | crates/sal-e-api/src/lib.rs:352-445 | `set_X(v)` on a `Txt2ImgRequest` makes `X()` report `v` and changes no other getter; `set_count` writes `n_iter` |
| SalParams.Txt2ImgPutOthers | crates/sal-e-api/src/lib.rs:352-445 | a setter of a `Txt2ImgRequest` changes no field other than its own |
| SalParams.Img2ImgValues | crates/sal-e-api/src/lib.rs:449-562 | the getters of an `Img2ImgRequest`: as for text-to-image, except that `image()` is the last decoded init image |
| SalParams.Img2ImgPut | crates/sal-e-api/src/lib.rs:449-536 | `set_X(v)` on an `Img2ImgRequest` makes `X()` report `v`, changes no other getter and leaves the init images alone |
| SalParams.Img2ImgPutOthers | crates/sal-e-api/src/lib.rs:449-536 | a setter of an `Img2ImgRequest` changes no field other than its own |
| SalParams.Txt2ImgFrom | crates/sal-e-api/src/gen_params.rs:262-282 | `Txt2ImgParams::from(p)` builds user params that report what `p` reports, except the image; styles, sampler name and hires fields stay unset |
| SalParams.Img2ImgFrom | crates/sal-e-api/src/gen_params.rs:415-436 | `Img2ImgParams::from(p)` builds user params that report what `p` reports; the image is not carried over |
| SalParams.LastImage | crates/sal-e-api/src/lib.rs:538-555 | `image()` is some exactly when there is a non-empty list whose entries all decode, and then it is the decoding of the last entry |
| SalParams.ImageAfterAdd | crates/sal-e-api/src/lib.rs:556-562 | `set_image(Some(b))` then `image()` gives `b` when every earlier entry decodes; any undecodable entry keeps `image()` none |
| SalParams.GraphValues | crates/sal-e-api/src/lib.rs:125-256 | a graph's getters report no count and no image; those live outside the graph |
| SalGenParams.PresentMembers | crates/sal-e-api/src/gen_params.rs:70-116 | `apply_to` writes exactly the overrides that are present, and never the count |
| SalGenParams.StoreOrSkip | crates/sal-e-api/src/gen_params.rs:74-113 | one `x_mut().map(..)` step writes the value, or leaves the graph unchanged when no node holds the parameter |
| SalGenParams.StoreAllAssigns | crates/sal-e-api/src/gen_params.rs:70-116 | when every write lands exactly, the patched graph reports the assigned values |
| SalGenParams.StoreAllSkips | crates/sal-e-api/src/gen_params.rs:70-116 | when no node holds any of the parameters, the copy equals the template: a missing node is silently skipped |
| SalGenParams.AssignAllAppend | crates/sal-e-api/src/gen_params.rs:70-116 | writing two lists of setter calls is writing the first, then the second |
| SalGenParams.AssignStepsFallback | crates/sal-e-api/src/gen_params.rs:70-116 | the ten steps of `apply_to` give, field by field, the override where present and the graph's value elsewhere |
| SalGenParams.ApplyReports | crates/sal-e-api/src/gen_params.rs:70-116 | after `apply_to`, the result's getters report each present override and the template's value elsewhere, which is what the `ComfyParams` getters report |
| SalGenParams.ComfyParams.Values | crates/sal-e-api/src/gen_params.rs:145-252 | the getters prefer the override field and fall back to the template graph; `count()` is always `Some(count)`; without a template only the overrides are reported |
| SalGenParams.ComfyParams.Set | crates/sal-e-api/src/gen_params.rs:150-243 | `set_x(v)` stores the override (or the count) and leaves the template untouched; afterwards the getters report `v` |
| SalGenParams.ComfyParams.SetImage | crates/sal-e-api/src/gen_params.rs:250-252 | `set_image` replaces the image held and nothing else |
| SalGenParams.ComfyParams.ApplyTo | crates/sal-e-api/src/gen_params.rs:70-116 | with no override present the copy is the template unchanged; the template itself is never modified |
| SalGenParams.ComfyParams.Apply | crates/sal-e-api/src/gen_params.rs:118-120 | `apply()` is none exactly when no template is held, and otherwise `apply_to` of the template |
| SalGenParams.ComfyParams.constructor | crates/sal-e-api/src/gen_params.rs:123-141 | `ComfyParams::from(p)` takes every reported value as an override, defaults the count to 1 and holds no template |
| SalGenParams.Txt2ImgParams.Values | crates/sal-e-api/src/gen_params.rs:285-405 | the getters report the user value when present, else the default, else none; never an image |
| SalGenParams.Txt2ImgParams.Set | crates/sal-e-api/src/gen_params.rs:292-398 | `set_x(v)` writes only `user_params`, the defaults never change, and `x()` afterwards reports `v` |
| SalGenParams.Txt2ImgParams.SetImage | crates/sal-e-api/src/gen_params.rs:401-405 | `image()` stays none: `set_image` is a no-op |
| SalGenParams.Txt2ImgParams.constructor | crates/sal-e-api/src/gen_params.rs:262-282 | `Txt2ImgParams::from(p)` reports what `p` reports (no image) and has no defaults |
| SalGenParams.Img2ImgParams.Values | crates/sal-e-api/src/gen_params.rs:438-572 | the getters report the user value, else the default, else none; the image is the last user init image, only when all decode |
| SalGenParams.Img2ImgParams.Set | crates/sal-e-api/src/gen_params.rs:445-551 | `set_x(v)` writes only `user_params`, the defaults never change, and `x()` afterwards reports `v` |
| SalGenParams.Img2ImgParams.SetImage | crates/sal-e-api/src/gen_params.rs:554-578 | `set_image(None)` clears `init_images`; `set_image(Some(b))` appends `b`, so `image()` is `b` when every earlier entry decodes and none otherwise; nothing else changes |
| SalGenParams.Img2ImgParams.constructor | crates/sal-e-api/src/gen_params.rs:415-436 | `Img2ImgParams::from(p)` reports what `p` reports, without defaults or image |
| SalGenParams.ConversionKeepsValues | crates/sal-e-api/src/gen_params.rs:123-141 | a `Txt2ImgParams` built from `p` reports what `p` reports, and a `ComfyParams` built from that reports it again with the count defaulting to 1 |
| SalLib.Txt2ImgRequestParams.constructor | crates/sal-e-api/src/lib.rs:352 | wraps the request it is given |
| SalLib.Txt2ImgRequestParams.Values | crates/sal-e-api/src/lib.rs:352-445 | `image()` is always none and `count()` reads `n_iter` |
| SalLib.Txt2ImgRequestParams.Set | crates/sal-e-api/src/lib.rs:352-440 | `set_x(v)` makes the field `Some(v)`, so `x()` then reports `v`; `set_count` writes `n_iter` |
| SalLib.Img2ImgRequestParams.constructor | crates/sal-e-api/src/lib.rs:449 | wraps the request it is given |
| SalLib.Img2ImgRequestParams.Values | crates/sal-e-api/src/lib.rs:449-555 | `image()` is the last init image when every one decodes; `count()` reads `n_iter` |
| SalLib.Img2ImgRequestParams.Set | crates/sal-e-api/src/lib.rs:449-536 | `set_x(v)` makes the field `Some(v)` and keeps the init images; `x()` then reports `v` |
| SalLib.Img2ImgRequestParams.SetImage | crates/sal-e-api/src/lib.rs:556-562 | `set_image(None)` removes all init images; `set_image(Some(b))` appends `b`, and `image()` then gives `b` exactly when every earlier entry decodes |
| SalLib.ComfyParams.constructor | crates/sal-e-api/src/lib.rs:117-121 | holds the graph, count and image it is given |
| SalLib.ComfyParams.Values | crates/sal-e-api/src/lib.rs:125-256 | the getters read the graph's accessors; `count()` is `Some(count)` and `image()` the image held |
| SalLib.ComfyParams.Set | crates/sal-e-api/src/lib.rs:132-248 | `set_count` stores the count outside the graph; every other setter writes into the graph, and is a silent no-op when no node holds the parameter |
| SalLib.ComfyParams.SetImage | crates/sal-e-api/src/lib.rs:256-258 | `set_image` replaces the image and nothing else |
| SalLib.NewComfyPromptApi | crates/sal-e-api/src/lib.rs:269-281 | `ComfyPromptApi::new` holds the template graph, with no node hints |
| SalLib.NewReportsTemplate | crates/sal-e-api/src/lib.rs:269-281 | a new adapter reports what its template reports, a count of 1 and no image |
| SalLib.ComfyBase | crates/sal-e-api/src/lib.rs:306 | the passed params are used only when they are a `ComfyParams`; otherwise the stored params |
| SalLib.Txt2Img | crates/sal-e-api/src/lib.rs:304-313 | `txt2img` runs the chosen graph unpatched; on success it reports those images, that graph and those params; a failed run is its error |
| SalLib.Img2Img | crates/sal-e-api/src/lib.rs:321-344 | `img2img` is `Img2ImgResult` |
| SalLib.Img2ImgRun | crates/sal-e-api/src/lib.rs:333-337 | once an image is held and uploaded, the `LoadImage` input of a copy is the uploaded name and that copy is run; a failed patch or run is the error |
| SalLib.ImageRequiredFirst | crates/sal-e-api/src/lib.rs:325-332 | without an image, `img2img` fails with "Required image was not provided" whatever the uploader and the server would do |
| SalLib.Img2ImgResult | crates/sal-e-api/src/lib.rs:321-344 | no image: "Required image was not provided"; failed upload: "Failed to upload file"; success reports the unpatched base graph and params |
| SalLib.WebUiTxt2ImgRequest | crates/sal-e-api/src/lib.rs:579-585 | the web UI adapter sends the passed params when they are a `Txt2ImgRequest`, else its stored defaults |
| SalLib.WebUiImg2ImgRequest | crates/sal-e-api/src/lib.rs:601-607 | the web UI adapter sends the passed params when they are an `Img2ImgRequest`, else its stored defaults |
| SalApi.WrappingAbs | crates/sal-e-api/src/api.rs:64 | `i64::abs` without overflow checks: the absolute value, except that `i64::MIN` comes back unchanged |
| SalApi.WrappingAbsNegative | crates/sal-e-api/src/api.rs:64 | the draw `i64::MIN` gives a negative replacement seed as written |
| SalApi.SeedFromDraw | crates/sal-e-api/src/api.rs:63-65 | the corrected replacement seed of the finding below: always non-negative; for every draw but `i64::MIN` it is the source's `draw.abs()`, and for `i64::MIN`, where the source overflows, it saturates at `i64::MAX` |
| SalApi.SeedFromDrawPreimage | crates/sal-e-api/src/api.rs:63-65 | every non-negative seed is a possible replacement, and only draws of the same magnitude give it |
| SalApi.PatchSeed | crates/sal-e-api/src/api.rs:63-65 | a seed that reads -1 is overwritten with the corrected replacement; any other seed leaves the graph untouched |
| SalApi.PatchSeedAsWritten | crates/sal-e-api/src/api.rs:63-65 | for every draw but `i64::MIN` the seed rule writes exactly the source's `draw.abs()` |
| SalApi.PatchSeedReports | crates/sal-e-api/src/api.rs:63-65 | after the patch the graph reports the corrected, non-negative seed in place of -1 and everything else as before |
| SalApi.Txt2ImgResult | crates/sal-e-api/src/api.rs:58-73 | `txt2img` runs the seed-patched copy; the response's `params` is that copy and `gen_params` the unpatched base params; a failed run is its error |
| SalApi.Txt2Img | crates/sal-e-api/src/api.rs:58-73 | the in-place clone-and-overwrite is `Txt2ImgResult` |
| SalApi.Img2ImgResult | crates/sal-e-api/src/api.rs:82-108 | `img2img`: no image fails with "Required image was not provided" before upload; then upload, `LoadImage` set to the uploaded name, the same seed rule; the response reports the patched copy and the unpatched params |
| SalApi.Img2Img | crates/sal-e-api/src/api.rs:82-108 | the in-place clone-and-overwrite is `Img2ImgResult` |
| SalApi.Img2ImgImageFirst | crates/sal-e-api/src/api.rs:85-92 | without an image, the result does not depend on the draw, the uploader or the server |
| SalApi.Txt2ImgAgreesWithLib | crates/sal-e-api/src/api.rs:58-73 | for a graph whose seed is not -1, this `txt2img` and the one of `crates/sal-e-api/src/lib.rs` give the same result |
| ComfyPrompt.FromPair | crates/comfyui-api/src/models/prompt.rs:104-111 | a (node id, output index) pair becomes the connection with exactly those two fields |
| ComfyPrompt.ToPair | crates/comfyui-api/src/models/prompt.rs:113-122 | the pair a connection serialises to converts back to the same connection |
| ComfyPrompt.PairRoundTrip | crates/comfyui-api/src/models/prompt.rs:95-122 | connection to pair after pair to connection is the identity, so the `(String, u32)` wire form loses nothing |
| ComfyPrompt.Literal | crates/comfyui-api/src/models/prompt.rs:124-132 | an input yields a literal exactly when it is the `Value` variant, and then that value |
| ComfyPrompt.VariantIndex | crates/comfyui-api/src/models/prompt.rs:24-66 | every known node is one of the eighteen variants of `Node` |
| ComfyPrompt.ClassType | crates/comfyui-api/src/models/prompt.rs:24-66 | the `class_type` tag is the variant's name, and only SVDimg2vidConditioning is tagged "SVD_img2vid_Conditioning" |
| ComfyPrompt.ClassOf | crates/comfyui-api/src/models/prompt.rs:13-75 | a known node carries its variant's tag, a generic node its own `class_type` string |
| ComfyPrompt.ClassTagsDistinct | crates/comfyui-api/src/models/prompt.rs:24-66 | no two variants share a tag, so the tag decides the variant when deserialising |
| ComfyPrompt.ClassTypeDistinct | crates/comfyui-api/src/models/prompt.rs:24-66 | two known nodes have the same tag if and only if they are the same variant |
| ComfyVisitor.InputTarget | crates/comfyui-api/src/comfy/visitor.rs:272-276 | a connection input leads to exactly its node, a literal input to nothing |
| ComfyVisitor.GenericTargets | crates/comfyui-api/src/comfy/visitor.rs:257-264 | everything a generic node descends into is the target of one of its connection-valued inputs |
| ComfyVisitor.GenericTargetsComplete | crates/comfyui-api/src/comfy/visitor.rs:257-264 | every connection-valued input of a generic node is followed |
| ComfyVisitor.GenericTargetsLiterals | crates/comfyui-api/src/comfy/visitor.rs:257-264 | a generic node whose inputs are all literals is a leaf |
| ComfyVisitor.Targets | crates/comfyui-api/src/comfy/visitor.rs:226-514 | the order in which each node class's `walk_*` descends: a KSampler ends with positive, negative, model and latent image, a CLIPTextEncode goes text then clip, a VAEDecode goes vae then samples |
| ComfyVisitor.BatchSizeNotFollowed | crates/comfyui-api/src/comfy/visitor.rs:314-317 | an EmptyLatentImage's `batch_size` connection is never followed |
| ComfyVisitor.LoadersVisitOwnInputs | crates/comfyui-api/src/comfy/visitor.rs:325-431 | loaders, the sampler selector and LoadImage descend only into their own inputs, and with literal inputs they are leaves |
| ComfyVisitor.Next | crates/comfyui-api/src/comfy/visitor.rs:213-264 | known nodes go through `walk_node`, unknown ones through `walk_generic_node` |
| ComfyVisitor.Walk | crates/comfyui-api/src/comfy/visitor.rs:13-34 | the walk from a node visits that node first |
| ComfyVisitor.WalkAll | crates/comfyui-api/src/comfy/visitor.rs:202-211 | the walks from a list of targets, in turn, visit at least one node per target |
| ComfyVisitor.WalkRanks | crates/comfyui-api/src/comfy/visitor.rs:202-276 | every node the walk reaches exists in the graph, and every node after the first lies strictly below the start, so the start is never revisited |
| ComfyVisitor.WalkAllRanks | crates/comfyui-api/src/comfy/visitor.rs:202-276 | the walks from targets ranked below a bound stay below that bound |
| ComfyVisitor.WalkNodes | crates/comfyui-api/src/comfy/visitor.rs:13-34 | the first node a visitor is handed is the start node |
| ComfyVisitor.WalkNodesUnfold | crates/comfyui-api/src/comfy/visitor.rs:13-34 | the nodes handed over are the start node, then those of the walks from its targets |
| ComfyVisitor.WalkAllNodesUnfold | crates/comfyui-api/src/comfy/visitor.rs:202-211 | the nodes from a list of targets are those of the first target, then those of the rest |
| ComfyVisitor.WalkAllContains | crates/comfyui-api/src/comfy/visitor.rs:202-211 | the walk from each target is part of the combined walk |
| ComfyVisitor.WalkClosed | crates/comfyui-api/src/comfy/visitor.rs:213-276 | the visited set is closed under the walk's edges: every target of a visited node is visited |
| ComfyVisitor.WalkAllClosed | crates/comfyui-api/src/comfy/visitor.rs:213-276 | the same closure for the combined walks from a list of targets |
| ComfyVisitor.WalkedTwice | crates/comfyui-api/src/comfy/visitor.rs:348-351 | with no visited set, a VAEDecode whose vae and samples come from one node walks that node's subgraph twice |
| ComfyVisitor.LeafWalk | crates/comfyui-api/src/comfy/visitor.rs:272-276 | a node with no connection input is walked alone |
| ComfyVisitor.ChainWalk | crates/comfyui-api/src/comfy/visitor.rs:13-34 | a node with a single target is followed by exactly the walk from that target |
| ComfyImageInfo.CollectAppend | crates/comfyui-api/src/comfy/mod.rs:205-260 | observing two stretches of the walk in turn is observing their concatenation |
| ComfyImageInfo.Last | crates/comfyui-api/src/comfy/mod.rs:223-259 | "the last node wins": some value is found exactly when some node holds one |
| ComfyImageInfo.CollectSeed | crates/comfyui-api/src/comfy/mod.rs:247-259 | the seed is that of the last KSampler or SamplerCustom holding a literal seed, or the earlier one if none does |
| ComfyImageInfo.CollectModel | crates/comfyui-api/src/comfy/mod.rs:223-235 | the model is that of the last checkpoint loader holding a literal name |
| ComfyImageInfo.CollectWidth | crates/comfyui-api/src/comfy/mod.rs:237-245 | the width is that of the last EmptyLatentImage holding a literal width |
| ComfyImageInfo.CollectHeight | crates/comfyui-api/src/comfy/mod.rs:237-245 | the height is that of the last EmptyLatentImage holding a literal height |
| ComfyImageInfo.CollectPrompts | crates/comfyui-api/src/comfy/mod.rs:210-221 | the prompt is the first literal CLIPTextEncode text reached and the negative prompt the second; a field once set is never overwritten |
| ComfyImageInfo.InfoFromCollect | crates/comfyui-api/src/comfy/mod.rs:283-305 | the visitor's fields with defaults filled in equal an independent reading of the visited nodes |
| ComfyImageInfo.ImageInfoVisitor.constructor | crates/comfyui-api/src/comfy/mod.rs:262-271 | a fresh visitor holds the prompt and no fields |
| ComfyImageInfo.ImageInfoVisitor.Record | crates/comfyui-api/src/comfy/mod.rs:210-259 | the overriding `visit_*` methods update the fields exactly as the reference observation of one node |
| ComfyImageInfo.ImageInfoVisitor.VisitNodeOrUnknown | crates/comfyui-api/src/comfy/mod.rs:205-259 | after visiting a node, the fields are the old ones updated by every node of the walk from it, in walk order |
| ComfyImageInfo.ImageInfoVisitor.VisitEach | crates/comfyui-api/src/comfy/visitor.rs:202-211 | visiting a node's targets in turn updates the fields by all their walks, in order |
| ComfyImageInfo.NewFromPrompt | crates/comfyui-api/src/comfy/mod.rs:283-305 | an absent output node is exactly the error case, with its message; otherwise the report describes the nodes the walk from the output reaches |
| ComfyImageInfo.SimpleWalkable | crates/comfyui-api/examples/simple.rs:6-96 | the example graph's connections all lead to nodes of lower rank, so the walk is defined on it |
| ComfyImageInfo.SimpleNext | crates/comfyui-api/examples/simple.rs:9-92 | the targets of each node of the example graph, in walk order |
| ComfyImageInfo.SimpleCollect | crates/comfyui-api/examples/simple.rs:9-92 | walking the example graph from "9" collects both texts, the 1024x1024 size, the checkpoint and the seed |
| ComfyImageInfo.SimpleScenario | crates/comfyui-api/examples/simple.rs:9-92 | the report for output node "9" of the example graph |
| ComfySetter.TargetClass | crates/comfyui-api/src/comfy/setter.rs:211-330 | each setter is declared for one class: the prompt setters for CLIPTextEncode, the model for CheckpointLoaderSimple, the size for EmptyLatentImage, the seed for KSampler |
| ComfySetter.Read | crates/comfyui-api/src/comfy/setter.rs:203-387 | a setter's slot is found only in a known node, and, except for the delegating seed setter, only in a node of the setter's class |
| ComfySetter.Written | crates/comfyui-api/src/comfy/setter.rs:197-200 | a write succeeds exactly when the node has the slot; reading it back gives the value written, and the node keeps its class |
| ComfySetter.LastWriteWins | crates/comfyui-api/src/comfy/setter.rs:197-200 | writing the same slot twice leaves only the second value |
| ComfySetter.SizeSlotsIndependent | crates/comfyui-api/src/comfy/setter.rs:268-305 | writing the width leaves the height as it was |
| ComfySetter.EditablePrompt.constructor | crates/comfyui-api/src/models/prompt.rs:7-11 | the mutable graph starts as the prompt's workflow |
| ComfySetter.EditablePrompt.SetValue | crates/comfyui-api/src/comfy/setter.rs:197-200 | writes into node `id`'s slot, or fails and leaves the graph unchanged |
| ComfySetter.EditablePrompt.Set | crates/comfyui-api/src/comfy/setter.rs:144-150 | writes into the node the guess picks for the setter's class; "Failed to find node" when there is none; the graph changes at most at that node |
| ComfySetter.EditablePrompt.SetFrom | crates/comfyui-api/src/comfy/setter.rs:162-171 | writes into the node found from the output node; "Failed to find node" when none is found or its id is absent |
| ComfySetter.EditablePrompt.SetNode | crates/comfyui-api/src/comfy/setter.rs:183-186 | writes into node `id`, which must exist since the lookup is unwrapped |
| ComfySetter.EditablePrompt.SetWith | crates/comfyui-api/src/comfy/setter.rs:109-119 | applies the closure to the guessed node of the class; fails to find or to cast, leaving the graph unchanged, otherwise |
| ComfySetter.EditablePrompt.SetNodeWith | crates/comfyui-api/src/comfy/setter.rs:121-126 | applies the closure to node `id`; fails to get when it is absent and to cast when it has another class |
| ComfySetter.SetTargetsClass | crates/comfyui-api/src/comfy/setter.rs:144-150 | `set` only writes into a node of the setter's class, and that node keeps its class |
| ComfyUpdates.ImageOutputs | crates/comfyui-api/src/comfy/mod.rs:92-103 | every pair kept is an image output of the history, with its node id |
| ComfyUpdates.ImageOutputsComplete | crates/comfyui-api/src/comfy/mod.rs:92-103 | no image output of the history is dropped |
| ComfyUpdates.FilterUpdate | crates/comfyui-api/src/comfy/mod.rs:86-116 | it fails exactly on interruption or an execution error, with their messages; it finishes exactly on an `Executing` update that names no node but has a prompt id, and then lists the history's image outputs; an executed node reports its images; every other update is dropped |
| ComfyUpdates.PromptState | crates/comfyui-api/src/comfy/mod.rs:124-133 | a transport error becomes one "Error occurred" item; a message yields no item exactly when `filter_update` drops it, and otherwise the item `filter_update` gives |
| ComfyUpdates.PromptStatesAppend | crates/comfyui-api/src/comfy/mod.rs:124-133 | the state stream of a longer message list extends that of its prefix |
| ComfyUpdates.PromptStatesQuiet | crates/comfyui-api/src/comfy/mod.rs:86-116 | status, progress, start and cache updates produce nothing |
| ComfyUpdates.Tag | crates/comfyui-api/src/comfy/mod.rs:160 | a download becomes an item tagged with its node, or the download's error |
| ComfyUpdates.FetchedItems | crates/comfyui-api/src/comfy/mod.rs:156-161 | item `k` is the download of image `k`, every item before the last succeeded, and the stream is cut short only by a failure |
| ComfyUpdates.FetchedAll | crates/comfyui-api/src/comfy/mod.rs:156-161 | one item per image with no failure if and only if every download succeeds |
| ComfyUpdates.FinishedItemsSkip | crates/comfyui-api/src/comfy/mod.rs:163-175 | completion yields nothing for a node already reported, and an error only as its last item |
| ComfyUpdates.StreamErrorLast | crates/comfyui-api/src/comfy/mod.rs:145-180 | the image stream yields an error only as its last item |
| ComfyUpdates.StreamStops | crates/comfyui-api/src/comfy/mod.rs:163-178 | nothing after completion or an error is read |
| ComfyUpdates.StreamThenFinished | crates/comfyui-api/src/comfy/mod.rs:150-176 | when completion follows node reports, it yields only the outputs of nodes not reported before, so no node's images are yielded twice |
| ComfyUpdates.FetchEach | crates/comfyui-api/src/comfy/mod.rs:156-161 | the download loop yields exactly the reference item list and reports whether it failed |
| ComfyUpdates.YieldFinished | crates/comfyui-api/src/comfy/mod.rs:163-176 | the completion loop yields exactly the reference items for the outputs not yet reported |
| ComfyUpdates.StreamPrompt | crates/comfyui-api/src/comfy/mod.rs:145-180 | the loop over the states yields exactly the reference stream, starting with no node reported |
| ComfyUpdates.StreamStep | crates/comfyui-api/src/comfy/mod.rs:152-178 | one state's effect on the stream: an error ends it, completion ends it with the unreported outputs, a node report adds its downloads and marks the node reported |
| ComfyUpdates.ExecutePrompt | crates/comfyui-api/src/comfy/mod.rs:192-202 | the call fails exactly when the stream ended with an error, with that error; otherwise it returns every item of the stream in order |
| ComfyExecute.FlatImages | crates/comfyui-api/src/comfy.rs:82-95 | every image listed comes from an image output of the history |
| ComfyExecute.FlatImagesComplete | crates/comfyui-api/src/comfy.rs:82-95 | every image of every image output is listed |
| ComfyExecute.FlatImagesAppend | crates/comfyui-api/src/comfy.rs:82-95 | flattening two lists of outputs is flattening each in turn |
| ComfyExecute.FetchResult | crates/comfyui-api/src/comfy.rs:96-108 | the downloads succeed exactly when each one does, giving the files in order; otherwise "Failed to get image" |
| ComfyExecute.FetchAll | crates/comfyui-api/src/comfy.rs:96-108 | the fold over the awaited downloads equals that result |
| ComfyExecute.ExecutePrompt | crates/comfyui-api/src/comfy.rs:72-133 | the message loop returns exactly the reference outcome of the message list |
| ComfyExecute.OutcomeSkips | crates/comfyui-api/src/comfy.rs:79-126 | start, cache, executed, progress and status updates, and executing updates naming a node, do not change the outcome |
| ComfyExecute.OutcomeNoCompletion | crates/comfyui-api/src/comfy.rs:130-132 | a stream that ends without completion, interruption or error gives no images |
| ComfyExecute.OutcomeCompletion | crates/comfyui-api/src/comfy.rs:80-108 | at the first completion the result is the download of every image the history lists, and later messages are never read |
| ComfyExecute.OutcomeFailure | crates/comfyui-api/src/comfy.rs:117-123 | interruption or an execution error before completion fails the call with its payload |
| Bot.DefaultState | crates/stable-diffusion-bot/src/bot/mod.rs:22-25 | a chat starts in the `New` state |
| Bot.NewWithDefaults | crates/stable-diffusion-bot/src/bot/mod.rs:42-46 | the state is `Ready` and holds exactly the two requests given |
| Bot.DefaultTxt2Img | crates/stable-diffusion-bot/src/bot/mod.rs:48-64 | the built-in text-to-image defaults (no styles, random seed, Euler, one 512×512 image in 50 steps, CFG 7.0, no face restoration or tiling, empty negative prompt), and every other field unset |
| Bot.DefaultImg2Img | crates/stable-diffusion-bot/src/bot/mod.rs:66-84 | the same defaults plus denoising strength 0.75 and resize mode 1, and every other field (the initial images among them) unset |
| Bot.DefaultsAgree | crates/stable-diffusion-bot/src/bot/mod.rs:48-84 | the two defaults agree on seed, steps, size, count and negative prompt |
| Bot.NewBuilder | crates/stable-diffusion-bot/src/bot/mod.rs:172-181 | a new builder holds the key, the users and the URL, and no database path or defaults |
| Bot.BuilderFields | crates/stable-diffusion-bot/src/bot/mod.rs:196-235 | each builder method replaces its own field and keeps every other one |
| Bot.BuilderCommute | crates/stable-diffusion-bot/src/bot/mod.rs:196-235 | builder calls on different fields commute, and the last call on a field wins |
| Bot.Build | crates/stable-diffusion-bot/src/bot/mod.rs:246-277 | building fails exactly when the database does not open ("failed to open db", checked first) or the URL does not parse ("Failed to initialize sd api"); a built bot uses the supplied defaults or else the built-in ones, and exactly the listed users |
| Bot.AuthAfterBuild | crates/stable-diffusion-bot/src/bot/mod.rs:101-105 | in a built bot, an update passes the user filter exactly when its user was listed to the builder, and never without a user |
| Bot.NewBuildsDefaults | crates/stable-diffusion-bot/src/bot/mod.rs:172-181 | a builder fresh from `new` builds with the built-in defaults whenever the URL parses |
| BotHandlers.NewWithDefaults | crates/stable-diffusion-bot/src/bot/handlers/settings.rs:350-356 | a ready state in the default bot state, holding the two params given |
| BotHandlers.FilterMapBotState | crates/stable-diffusion-bot/src/bot/handlers/mod.rs:79-84 | passes exactly the `Ready` states, with their bot state |
| BotHandlers.FilterMapSettings | crates/stable-diffusion-bot/src/bot/handlers/mod.rs:86-93 | passes exactly the `Ready` states, with their two params |
| BotHandlers.FiltersSplitReady | crates/stable-diffusion-bot/src/bot/handlers/mod.rs:79-93 | the two filters accept the same states and together give back the whole state |
| BotHandlers.AuthFilterIff | crates/stable-diffusion-bot/src/bot/handlers/mod.rs:95-105 | an update passes if and only if its chat or its user is allowed; an update with neither never passes |
| BotHandlers.HandleCommand | crates/stable-diffusion-bot/src/bot/handlers/mod.rs:30-76 | `/start` resets the dialogue to ready with the APIs' params and greets; `/settings` answers that it is not implemented; `/help` lists every command when the chat or the sender is allowed, else the username-qualified list in groups and the plain one elsewhere; only `/start` changes the state |
| BotHandlers.StartResets | crates/stable-diffusion-bot/src/bot/handlers/mod.rs:57-67 | `/start` gives the same outcome whatever the old state, and leaves the bot ready to generate |
| BotHandlers.AllowedSenderSeesAll | crates/stable-diffusion-bot/src/bot/handlers/mod.rs:39-48 | an allowed sender sees every command list in any chat |
| BotSettings.FromParams | crates/stable-diffusion-bot/src/bot/handlers/settings.rs:111-126 | every field of the settings is the matching getter of the params, the count shown as `n_iter` |
| BotSettings.Candidates | crates/stable-diffusion-bot/src/bot/handlers/settings.rs:57-99 | nine candidate buttons in a fixed order, Cancel always last |
| BotSettings.PresentMembers | crates/stable-diffusion-bot/src/bot/handlers/settings.rs:101-102 | `flatten` keeps exactly the present values |
| BotSettings.ConcatChunks | crates/stable-diffusion-bot/src/bot/handlers/settings.rs:103-106 | cutting into rows and joining them back gives the original button list |
| BotSettings.ChunkSizes | crates/stable-diffusion-bot/src/bot/handlers/settings.rs:103-106 | every row has between one and `n` buttons, and every row but the last exactly `n` |
| BotSettings.KeyboardLayout | crates/stable-diffusion-bot/src/bot/handlers/settings.rs:57-109 | the keyboard holds exactly the present settings' buttons in order, then Cancel last; rows of two, the last of one or two |
| BotSettings.KeyboardShowsSteps | crates/stable-diffusion-bot/src/bot/handlers/settings.rs:59-63 | the steps button is shown if and only if the steps are known |
| BotSettings.Txt2ImgUpdate | crates/stable-diffusion-bot/src/bot/handlers/settings.rs:288-310 | an unknown setting fails with "Got invalid setting"; the negative prompt is stored as typed; a numeric setting succeeds exactly when its value parses as the setter's type |
| BotSettings.Txt2ImgUnclamped | crates/stable-diffusion-bot/src/bot/handlers/settings.rs:299-304 | text-to-image numbers are stored exactly as parsed |
| BotSettings.RoundToGrid | crates/stable-diffusion-bot/src/bot/handlers/settings.rs:327-336 | the result is a multiple of 64 within [64, 1024]; in range it is the value rounded down to the grid |
| BotSettings.ClampU32 | crates/stable-diffusion-bot/src/bot/handlers/settings.rs:325 | the result lies within the bounds and equals the value when the value does |
| BotSettings.Img2ImgUpdate | crates/stable-diffusion-bot/src/bot/handlers/settings.rs:312-342 | as the text-to-image update, but with the "invalid setting" error and the values clamped |
| BotSettings.Img2ImgBounds | crates/stable-diffusion-bot/src/bot/handlers/settings.rs:323-336 | every stored image-to-image value is within its bounds: steps at most 200, seed at least -1, count in [1, 10], sizes on the 64-pixel grid in [64, 1024] |
| BotSettings.Img2ImgKeepsInRange | crates/stable-diffusion-bot/src/bot/handlers/settings.rs:323-336 | within the bounds the typed value is stored, sizes rounded down to the grid |
| BotSettings.UpdatesAgreeOnFormat | crates/stable-diffusion-bot/src/bot/handlers/settings.rs:288-342 | both updates accept the same inputs and call the same setter; they differ only in clamping and in the error text |
| BotSettings.UpdateTxt2ImgSetting | crates/stable-diffusion-bot/src/bot/handlers/settings.rs:288-310 | the params change by exactly the parsed setter call when the value parses, and the error is passed on otherwise |
| BotSettings.UpdateImg2ImgSetting | crates/stable-diffusion-bot/src/bot/handlers/settings.rs:312-342 | the same for the clamped image-to-image setter call |
| BotSettings.Img2ImgWidthShown | crates/stable-diffusion-bot/src/bot/handlers/settings.rs:327-331 | after a width update the width is on the grid and nothing else moved |
| BotSettings.FilterMapSettingsState | crates/stable-diffusion-bot/src/bot/handlers/settings.rs:528-544 | what passes is a ready settings state, with its selection and both params |
| BotSettings.SettingsFiltersAgree | crates/stable-diffusion-bot/src/bot/handlers/settings.rs:515-544 | the two settings-state filters accept exactly the same states, and neither accepts `New` or the generate state |
| BotSettings.KeyboardDataIsSettings | crates/stable-diffusion-bot/src/bot/handlers/settings.rs:57-99 | every button of the settings keyboard passes the settings callback filter of settings.rs:510-513 |
| BotSettings.MapSettings | crates/stable-diffusion-bot/src/bot/handlers/settings.rs:439-449 | the stored params, or the APIs' defaults before `/start` |
| BotSettings.StateOrDefault | crates/stable-diffusion-bot/src/bot/handlers/settings.rs:344-359 | the stored state; a failed read counts as none, and none gives ready with the APIs' defaults |
| BotSettings.HandleSettings | crates/stable-diffusion-bot/src/bot/handlers/settings.rs:152-197 | a photo parent opens the image-to-image settings and a text parent the text-to-image ones, with nothing selected; any other parent changes nothing |
| BotSettings.HandleSettingsButton | crates/stable-diffusion-bot/src/bot/handlers/settings.rs:199-286 | no message or no "settings_" data is rejected; "settings_back" returns to generating; for any other button a failed read of the dialogue is returned as the error, unanswered; otherwise the stored state (or the defaults when none is stored) gets the setting selected, exactly when it is a settings state, keeping the params and the kind |
| BotSettings.HandleTxt2ImgSettingsValue | crates/stable-diffusion-bot/src/bot/handlers/settings.rs:377-406 | a value that fails for the selection is refused with the error in the reply; otherwise the params are updated, the selection cleared and the new settings shown |
| BotSettings.HandleImg2ImgSettingsValue | crates/stable-diffusion-bot/src/bot/handlers/settings.rs:408-437 | the image-to-image counterpart |
| BotSettings.SelectThenValue | crates/stable-diffusion-bot/src/bot/handlers/settings.rs:377-437 | selecting a setting then typing a valid value stores exactly that setter call and clears the selection; a refused value keeps the selection for another try |
| BotSettings.Txt2ImgWidthShownBack | crates/stable-diffusion-bot/src/bot/handlers/settings.rs:377-406 | a typed text-to-image width is shown back unchanged |
| BotImage.DecodeAll | crates/stable-diffusion-bot/src/bot/handlers/image.rs:47-52 | succeeds exactly when every entry is Base64, giving each decoded entry in order |
| BotImage.MakeAlbum | crates/stable-diffusion-bot/src/bot/handlers/image.rs:46-68 | any undecodable entry is an error; none is an error; one image is `Single`; two or more are an `Album` in input order |
| BotImage.AlbumOfEncoded | crates/stable-diffusion-bot/src/bot/handlers/image.rs:46-68 | images the request encodes come back unchanged, one as `Single`, several as an `Album` |
| BotImage.SeedButton | crates/stable-diffusion-bot/src/bot/handlers/image.rs:299-303 | a die for -1, a recycling sign with the seed otherwise |
| BotImage.Keyboard | crates/stable-diffusion-bot/src/bot/handlers/image.rs:298-309 | one row: Rerun, the seed button, Settings |
| BotImage.FirstParsed | crates/stable-diffusion-bot/src/bot/handlers/image.rs:464 | none exactly when no field parses; otherwise the first field that parses |
| BotImage.ReuseSeed | crates/stable-diffusion-bot/src/bot/handlers/image.rs:461-465 | only data starting with "reuse" passes, giving the first '/'-separated field after the first that parses as an `i64` |
| BotImage.SplitReuseData | crates/stable-diffusion-bot/src/bot/handlers/image.rs:300-302 | the seed button's data splits into "reuse" and the formatted seed |
| BotImage.ReuseRoundTrip | crates/stable-diffusion-bot/src/bot/handlers/image.rs:300-302 | parsing the seed button's data gives its seed back, for every `i64` |
| BotImage.RouteCallback | crates/stable-diffusion-bot/src/bot/handlers/image.rs:458-472 | callbacks are handled only in a `Ready` state; reuse is tried first, then rerun |
| BotImage.KeyboardRoutes | crates/stable-diffusion-bot/src/bot/handlers/image.rs:298-309 | in a `Ready` state Rerun reruns, the seed button reuses its seed and Settings is not taken by the image schema |
| BotImage.MarkSeedSkip | crates/stable-diffusion-bot/src/bot/handlers/image.rs:134-143 | text before the first `Seed: <digits>` match is copied unchanged |
| BotImage.MarkSeedUnmatched | crates/stable-diffusion-bot/src/bot/handlers/image.rs:134-143 | with no match the text is unchanged |
| BotImage.MarkSeedFirst | crates/stable-diffusion-bot/src/bot/handlers/image.rs:134-143 | the digits of the first match are wrapped in backticks and everything around them is kept |
| BotImage.InfoBody | crates/stable-diffusion-bot/src/bot/handlers/image.rs:141 | the prompt is stripped from the front of the infotext when present, then the rest is trimmed |
| BotImage.InfoBodyTrimmed | crates/stable-diffusion-bot/src/bot/handlers/image.rs:141 | the body never starts or ends with whitespace |
| BotImage.CaptionWithInfo | crates/stable-diffusion-bot/src/bot/handlers/image.rs:132-146 | the escaped prompt as code on its own line, then the escaped body with its seed marked |
| BotImage.CaptionPlain | crates/stable-diffusion-bot/src/bot/handlers/image.rs:147-150 | the escaped prompt between backticks |
| BotImage.CaptionOf | crates/stable-diffusion-bot/src/bot/handlers/image.rs:161-178 | fails exactly when the info does not parse or has no prompt; uses the first infotext when there is one |
| BotImage.CaptionFirstInfotextOnly | crates/stable-diffusion-bot/src/bot/handlers/image.rs:161-178 | later infotexts and the info's seed never change the caption |
| BotImage.DisplayedSeed | crates/stable-diffusion-bot/src/bot/handlers/image.rs:233-237 | the seed offered is found whenever the info parses |
| BotImage.DisplayedSeedOffered | crates/stable-diffusion-bot/src/bot/handlers/image.rs:233-237 | a seed other than -1 is offered if and only if the server reports it and it differs from the requested seed |
| BotImage.EchoedSeedRandomizes | crates/stable-diffusion-bot/src/bot/handlers/image.rs:278-282 | when the server echoes the requested seed, the keyboard gets the random-seed button |
| BotImage.ResponseNew | crates/stable-diffusion-bot/src/bot/handlers/image.rs:79-92 | fails exactly when `Photo::album` fails, with its error; otherwise the reply with its images |
| BotImage.BuildResponse | crates/stable-diffusion-bot/src/bot/handlers/image.rs:233-243 | a reply exists exactly when the info parses, has a prompt and the images decode into an album; an info error is passed on, a missing prompt is "Failed to build caption from response" and an album failure "Failed to create response!"; the reply carries the displayed seed, the caption and the decoded images |
| BotImage.Send | crates/stable-diffusion-bot/src/bot/handlers/image.rs:94-126 | a single image goes out as one captioned photo with the keyboard; an album as a media group whose first photo alone has the caption, then a text message with the keyboard |
| BotImage.CaptionedOnceUnique | crates/stable-diffusion-bot/src/bot/handlers/image.rs:104-111 | in a sent album exactly one photo, the first, carries the caption |
| BotImage.TallestIndex | crates/stable-diffusion-bot/src/bot/handlers/image.rs:197-199 | the size picked is the tallest, and among equally tall sizes the last |
| BotImage.DoImg2Img | crates/stable-diffusion-bot/src/bot/handlers/image.rs:180-218 | the result, the request left behind and the notice equal the reference steps of `do_img2img` |
| BotImage.Img2ImgNeedsCaption | crates/stable-diffusion-bot/src/bot/handlers/image.rs:187-193 | without a caption nothing is sent, the request is unchanged and the user is told a prompt is needed |
| BotImage.Img2ImgSuccess | crates/stable-diffusion-bot/src/bot/handlers/image.rs:195-217 | a successful run sent the caption as prompt and the tallest photo's bytes as the last image, and leaves the prompt set and no images |
| BotImage.HandleReuse | crates/stable-diffusion-bot/src/bot/handlers/image.rs:375-439 | the requests left behind, the stored state and the answer equal the reference steps of `handle_reuse` |
| BotImage.ReuseTargets | crates/stable-diffusion-bot/src/bot/handlers/image.rs:405-423 | the seed lands on image-to-image for a photo parent and on text-to-image for a text parent; the other request is untouched; with no usable parent nothing changes |
| BotImage.ReuseAnswer | crates/stable-diffusion-bot/src/bot/handlers/image.rs:424-438 | after an update the answer names the seed, and a fixed seed resets the keyboard to the random-seed button, whose data reuses -1 |
| LegacyBot.DefaultState | src/bot/mod.rs:22-41 | a new chat is ready, with two requests whose fields are all unset |
| LegacyBot.AuthFilterIff | src/bot/mod.rs:98-102 | a message passes exactly when it has a sender and that sender is an allowed user |
| LegacyBot.Route | src/bot/mod.rs:97-147 | `/help` always reaches its handler; `/set` only for allowed senders; photos and texts from allowed senders reach image and prompt handling only in a `Ready` state; callbacks starting with "rerun" reach the rerun handler in a `Ready` state, whatever the sender |
| LegacyBot.UnauthorisedOnlyHelp | src/bot/mod.rs:97-147 | a sender who is not allowed can reach nothing but `/help` |
| LegacyBot.NextNeverGenerates | src/bot/mod.rs:121-139 | in the `Next` state no image, prompt or rerun handler is reached |
| LegacyBot.CallbacksIgnoreUsers | src/bot/mod.rs:131-139 | callback routing does not depend on the allowed users |
| LegacyBot.CommandIsNoPrompt | src/bot/mod.rs:97-147 | a command text is never taken for a prompt |
| LegacyBot.SetReply | src/bot/mod.rs:113-116 | the reply to `/set` reads back as the value sent |
| LegacySettings.FromTxt2Img | src/bot/handlers/settings.rs:97-125 | the summary exists exactly when every required field is set, and then holds those fields; otherwise the error names the first missing field in declaration order |
| LegacySettings.FromImg2Img | src/bot/handlers/settings.rs:135-163 | the same for the image-to-image request |
| LegacySettings.Txt2ImgSummaryIgnoresPrompt | src/bot/handlers/settings.rs:97-125 | the summary does not depend on the prompt or the sampler name |
| LegacySettings.Img2ImgSummaryIgnoresPrompt | src/bot/handlers/settings.rs:135-163 | the summary does not depend on the prompt, the sampler name or the initial images |
| LegacySettings.BoolText | src/bot/handlers/settings.rs:69-76 | a flag is shown as "true" or "false" |
| LegacySettings.KeyboardLayout | src/bot/handlers/settings.rs:41-95 | six rows, two buttons in each of the first five, Cancel last, and a denoising button exactly when there is a strength; the first button shows the steps |
| LegacySettings.KeyboardNamesKnown | src/bot/handlers/settings.rs:41-95 | every button but Cancel selects, after `settings_`, a setting the updates know |
| LegacySettings.Txt2ImgWrite | src/bot/handlers/settings.rs:315-328 | each named setting succeeds exactly when its value parses as the field's type (text and styles always do); an unknown name fails with "Got invalid setting" |
| LegacySettings.Txt2ImgUpdate | src/bot/handlers/settings.rs:306-331 | the update succeeds exactly when the value parses for the named setting, with the parse error otherwise |
| LegacySettings.Txt2ImgApplyOneField | src/bot/handlers/settings.rs:315-328 | a write changes only the field it names |
| LegacySettings.StylesSplit | src/bot/handlers/settings.rs:323 | the styles are the value split at single spaces: no piece holds a space, joining with spaces gives the value back, and two spaces give an empty style |
| LegacySettings.Txt2ImgRetypeSteps | src/bot/handlers/settings.rs:316 | typing back the shown step count leaves the request unchanged |
| LegacySettings.Txt2ImgApplyKeepsComplete | src/bot/handlers/settings.rs:315-328 | a write never unsets a field the summary needs |
| LegacySettings.Img2ImgWrite | src/bot/handlers/settings.rs:342-367 | as for text-to-image, with the denoising strength a float and the "invalid setting" error |
| LegacySettings.Img2ImgUpdate | src/bot/handlers/settings.rs:333-370 | the update succeeds exactly when the value parses for the named setting |
| LegacySettings.Img2ImgBounds | src/bot/handlers/settings.rs:343-359 | stored integers lie within their bounds: steps at most 200, seed at least -1, count in [1, 10], sizes on the 64-pixel grid in [64, 1024] |
| LegacySettings.Img2ImgInRange | src/bot/handlers/settings.rs:343-359 | within the bounds the typed integer is stored, a size rounded down to the grid |
| LegacySettings.Img2ImgApplyOneField | src/bot/handlers/settings.rs:342-367 | a write changes only the field it names, storing the clamped value |
| LegacySettings.Img2ImgApplyKeepsComplete | src/bot/handlers/settings.rs:342-367 | a write never unsets a field the summary needs |
| LegacySettings.UpdateTxt2ImgSetting | src/bot/handlers/settings.rs:306-331 | in place: the request changes exactly as the write says when it parses, and not at all otherwise |
| LegacySettings.UpdateImg2ImgSetting | src/bot/handlers/settings.rs:333-370 | in place, with clamping: the request changes exactly as the write says when it parses, and not at all otherwise |
| LegacySettings.MenuOf | src/bot/handlers/settings.rs:173-237 | the settings menu is shown exactly when the summary exists, and otherwise its error is returned |
| LegacySettings.HandleSettings | src/bot/handlers/settings.rs:173-237 | a photo parent opens the image-to-image settings and a text parent the text-to-image ones, with nothing selected; a vanished message or another parent stores nothing and gets an apology |
| LegacySettings.HandleSettingsStoresFirst | src/bot/handlers/settings.rs:200-210 | the settings state is stored before the summary is built, so it is stored even when the summary fails |
| LegacySettings.HandleSettingsButton | src/bot/handlers/settings.rs:239-304 | data not starting with `settings_` is refused; `back` returns to the ready state with the same requests; any other name becomes the selection, in a settings state only |
| LegacySettings.ButtonNeedsUnderscore | src/bot/handlers/settings.rs:474-481 | data such as `settingsX` passes the callback filter but is refused by the button handler |
| LegacySettings.OpenThenCancel | src/bot/handlers/settings.rs:173-304 | opening the settings and pressing Cancel gives back the ready state it started from |
| LegacySettings.SettingsValue | src/bot/handlers/settings.rs:372-417 | in a ready state it is an error; an invalid value is reported and nothing is stored; otherwise the selected request is updated, the other kept, the selection cleared, and the state is stored exactly when the menu is shown |
| LegacySettings.HandleSettingsValue | src/bot/handlers/settings.rs:372-417 | the in-place handler has exactly the effect the reference gives |
| LegacySettings.SelectThenValue | src/bot/handlers/settings.rs:239-417 | pressing a setting's button and sending a valid value stores the updated request with nothing selected |
| LegacySettings.InvalidKeepsSelection | src/bot/handlers/settings.rs:372-417 | an invalid value stores nothing, so the selection survives for the next try |
| LegacySettings.SettingsCommandEffect | src/bot/handlers/settings.rs:420-473 | from any state the chosen request is opened for editing with nothing selected and stored, then its summary shown or its error returned |
| LegacySettings.CommandKeepsRequests | src/bot/handlers/settings.rs:420-473 | the command keeps both requests and drops any selection |
| LegacySettings.CommandOnEmptyRequests | src/bot/handlers/settings.rs:420-473 | on requests with nothing set, the state is stored and the reply fails with "Missing steps!" |
| LegacySettings.RouteSettings | src/bot/handlers/settings.rs:419-548 | commands first; in a settings state a text is a value and anything else is refused; a settings callback opens the settings in a ready state and is a button press in a settings state |
| LegacySettings.RouteByState | src/bot/handlers/settings.rs:419-548 | in a ready state plain messages pass the settings schema by; in a settings state they all stop there |
| LegacyHandlers.Img2ImgWrite | src/bot/handlers/mod.rs:441-455 | each named setting succeeds exactly when its value parses as the field's type; an unknown name fails with "Got invalid setting" |
| LegacyHandlers.Img2ImgUpdate | src/bot/handlers/mod.rs:432-457 | the update succeeds exactly when the value parses for the named setting, with the parse error otherwise |
| LegacyHandlers.Img2ImgApplyOneField | src/bot/handlers/mod.rs:441-455 | a write changes only the field it names and stores the parsed value unclamped |
| LegacyHandlers.Img2ImgApplyKeepsComplete | src/bot/handlers/mod.rs:441-455 | a write never unsets a field the summary needs |
| LegacyHandlers.SameValuesAsClamping | src/bot/handlers/mod.rs:432-457 | this update and the one of settings.rs accept the same names and values; they differ in the unknown-name message and in what they store |
| LegacyHandlers.NoStepsCap | src/bot/handlers/mod.rs:443 | 500 steps are stored as 500 here, where the update of src/bot/handlers/settings.rs:344 stores 200 |
| LegacyHandlers.UpdateImg2ImgSetting | src/bot/handlers/mod.rs:432-457 | in place: the request changes exactly as the write says when it parses, and not at all otherwise |
| LegacyHandlers.SettingsValue | src/bot/handlers/mod.rs:459-506 | the selected setting of the request being edited is updated from the text; an invalid value is reported without its error and stores nothing; otherwise the selection is cleared, the other request kept, and the state stored exactly when the menu is shown; a ready state is an error |
| LegacyHandlers.HandleSettingsValue | src/bot/handlers/mod.rs:459-506 | the in-place handler has exactly the effect the reference gives |
| LegacyHandlers.ValidImg2ImgValueStored | src/bot/handlers/mod.rs:459-506 | a valid image-to-image value on a complete request is stored with nothing selected |
| LegacyHandlers.HandleRerun | src/bot/handlers/mod.rs:63-121 | a photo parent re-runs image-to-image and a text parent text-to-image; the keyboard is cleared exactly when that run succeeds; a missing message or parent, or another kind of parent, gets an apology and runs nothing |
| LegacyHandlers.ClearedOnlyAfterRun | src/bot/handlers/mod.rs:63-121 | the keyboard is only cleared after a run that succeeded, and the handler fails only when the run did |
| LegacyImage.PhotoSingle | src/bot/handlers/image.rs:25-32 | succeeds exactly when the entry is Base64, giving its bytes |
| LegacyImage.MakeAlbum | src/bot/handlers/image.rs:34-56 | any undecodable entry is an error; none is an error; one image is `Single`; two or more are an `Album` in input order |
| LegacyImage.AlbumOfOne | src/bot/handlers/image.rs:25-56 | an album of one entry is what `Photo::single` makes of it |
| LegacyImage.AlbumOfEncoded | src/bot/handlers/image.rs:34-56 | Base64-encoded images come back unchanged, one as `Single`, several as an `Album` |
| LegacyImage.ResponseNew | src/bot/handlers/image.rs:66-73 | fails exactly when `Photo::album` fails, with its error; otherwise the reply with its images |
| LegacyImage.Keyboard | src/bot/handlers/image.rs:261-266 | one row: Rerun, then Settings |
| LegacyImage.KeyboardRouted | src/bot/handlers/image.rs:261-266 | in a ready state Rerun reaches the rerun handler, and Settings passes the settings callback filter but not the rerun one |
| LegacyImage.Send | src/bot/handlers/image.rs:75-107 | a single image goes out as one captioned photo with the keyboard; an album as a media group whose first photo alone has the caption, then a text message with the keyboard |
| LegacyImage.CaptionWithInfo | src/bot/handlers/image.rs:113-120 | the escaped prompt as code on its own line, then the escaped infotext with the prompt taken off its front and trimmed |
| LegacyImage.CaptionPlain | src/bot/handlers/image.rs:122-125 | the escaped prompt between backticks |
| LegacyImage.CaptionOf | src/bot/handlers/image.rs:136-153 | fails exactly when the info does not parse or has no prompt; uses the first infotext when there is one |
| LegacyImage.CaptionFirstInfotextOnly | src/bot/handlers/image.rs:136-153 | later infotexts never change the caption |
| LegacyImage.BuildResponse | src/bot/handlers/image.rs:208-210 | a reply exists exactly when the caption and the album both do; a caption failure is reported first |
| LegacyImage.WithPhoto | src/bot/handlers/image.rs:170-186 | the request sent has the caption as prompt and the photo attached, and every other field as before |
| LegacyImage.DoImg2Img | src/bot/handlers/image.rs:155-193 | the result, the request left behind and the notice equal the reference steps of `do_img2img` |
| LegacyImage.Img2ImgNeedsCaption | src/bot/handlers/image.rs:162-168 | without a caption nothing is sent, the request is unchanged and the user is told a prompt is needed |
| LegacyImage.Img2ImgSuccessInputs | src/bot/handlers/image.rs:162-190 | a successful run had a caption and a photo, and downloaded the tallest size |
| LegacyImage.Img2ImgSuccessSent | src/bot/handlers/image.rs:170-188 | what a successful run sent: the caption as prompt and the tallest photo attached |
| LegacyImage.Img2ImgSuccessLeaves | src/bot/handlers/image.rs:186-190 | a successful run leaves the caption as prompt and no images, every other field as before |
| LegacyImage.DoTxt2Img | src/bot/handlers/image.rs:222-232 | the text becomes the prompt in place and exactly that request is sent |
| LegacyImage.HandlePrompt | src/bot/handlers/image.rs:234-259 | the request with the text as prompt is sent, the reply built from the response, and the state is stored only after a reply, with the new prompt and the other request as it was |
| LegacyImage.HandleImage | src/bot/handlers/image.rs:195-220 | the img2img steps run, the reply is built from the response, and the state is stored only after a reply, with the text-to-image request as it was |
| LegacyImage.ImageStoresCleanRequest | src/bot/handlers/image.rs:186-220 | a stored img2img run keeps every setting: only the prompt changed and no image stays behind |
| LegacyBotHandlers.Help | src/bot/handlers.rs:33-61 | an allowed sender sees every command; otherwise groups and supergroups get the username-qualified list and other chats the plain one |
| LegacyBotHandlers.HelpIgnoresChat | src/bot/handlers.rs:33-61 | unlike the later bot, where an allowed chat sees every command, a sender who is not allowed never does here |
| LegacyBotHandlers.DecodeImages | src/bot/handlers.rs:77-84 | an error is always "Failed to decode image"; a success decodes one entry per input |
| LegacyBotHandlers.DecodeImagesAgree | src/bot/handlers.rs:77-84 | the inline decoding succeeds exactly when that of `Photo::album` does, with the same images |
| LegacyBotHandlers.ResponseNew | src/bot/handlers.rs:75-100 | any undecodable entry is an error; none is an error; one image is `Single`; two or more are an `Album` in input order |
| LegacyBotHandlers.ResponseNewAgrees | src/bot/handlers.rs:75-100 | this `Response::new` builds the same reply, and fails on the same inputs, as the one of image.rs |
| LegacyBotHandlers.DoImg2Img | src/bot/handlers.rs:182-220 | assigning the prompt field directly gives the same result, request and notice as the steps of image.rs |
| Base64.SymbolValue | crates/stable-diffusion-api/src/img2img.rs:99 | a character has a value only when it is a symbol of the standard alphabet, and the value maps back to it |
| Base64.EncodeLength | crates/stable-diffusion-api/src/img2img.rs:99 | the padded standard encoding has four symbols for every started group of three bytes |
| Base64.DecodeEncode | src/bot/handlers/image.rs:25-32 | decoding the encoding of any bytes gives those bytes back |
| Base64.EncodeDecode | src/bot/handlers/image.rs:25-32 | only a canonical padded encoding decodes: whatever decodes to some bytes is their encoding |
| Base64.DecodeIff | src/bot/handlers/image.rs:25-32 | a string decodes to some bytes exactly when it is their encoding |
| Text.StripPrefix | crates/stable-diffusion-bot/src/bot/handlers/image.rs:141 | succeeds exactly when the string starts with the prefix, and the prefix followed by the rest is the string |
| Text.Split | src/bot/handlers/mod.rs:450 | at least one piece, and no piece holds the separator |
| Text.SplitJoin | src/bot/handlers/mod.rs:450 | joining the pieces with the separator gives the string back |
| Text.SplitWithoutSep | src/bot/handlers/mod.rs:450 | a string without the separator is a single piece |
| Text.SplitAtSep | src/bot/handlers/mod.rs:450 | the text before the first separator is the first piece, and the rest splits on its own |
| Text.TrimStart | crates/stable-diffusion-bot/src/bot/handlers/image.rs:141 | the result is a suffix of the string; what was dropped is whitespace, and the result does not start with whitespace |
| Text.TrimEnd | crates/stable-diffusion-bot/src/bot/handlers/image.rs:141 | the result is a prefix of the string; what was dropped is whitespace, and the result does not end with whitespace |
| Text.ParseU32 | crates/stable-diffusion-bot/src/bot/handlers/settings.rs:299-304 | a parsed `u32` is the value of the digits after an optional `+` |
| Text.ParseBool | src/bot/handlers/settings.rs:325-326 | parses exactly "true" and "false", to true and false |
| Text.NatDigitsValue | crates/stable-diffusion-bot/src/bot/handlers/image.rs:302 | the decimal digits of a number have that number as their value |
| Text.FormatIntChars | crates/stable-diffusion-bot/src/bot/handlers/image.rs:302 | a formatted integer holds only digits and a minus sign |
| Text.ParseFormatI64 | crates/stable-diffusion-bot/src/bot/handlers/image.rs:302-465 | formatting an `i64` and parsing it back gives the same number |
| Text.ParseFormatU32 | crates/stable-diffusion-bot/src/bot/handlers/settings.rs:299-304 | formatting a `u32` and parsing it back gives the same number |

## Left out

- **Transport and I/O.** These are function parameters or are not modelled. The source's `async` sequencing becomes the order of steps in each method.
  - the HTTP clients of the web UI and ComfyUI;
  - the ComfyUI websocket;
  - uploads, downloads and history lookups;
  - the Telegram API.
- **Startup.** Configuration loading, the startup code, logging and dialogue storage are not modelled. A stored dialogue state is an explicit value that the handlers read and return.
- **dptree dispatch.** The schemas of `crates/stable-diffusion-bot/src/bot/mod.rs:100-117`, `settings.rs` (`settings_schema`) and `image.rs` (`image_schema`) appear only as the filters and routes in the table above. The handler chaining and dependency injection of dptree are left out.
- **Command parsing.** teloxide's parsing of a message into a command is taken as an input, already parsed.
- **Floating point.**
  - Floats are one opaque value with no arithmetic.
  - The float clamps of the clamping image-to-image update in `src/bot/handlers/settings.rs` are a supplied function.
  - `BotSettings.Img2ImgUpdate`: the clamps of the CFG scale to [0, 20] and of the denoising strength to [0, 1] are not modelled. Those two values are stored as parsed.
- **Error text.**
  - Rust's parse errors all become one `ParseFailed` message, because the error types' own text is not modelled.
  - `anyhow` contexts keep only their outermost message.
- **MarkdownV2 escaping.** teloxide's `escape` is a parameter, since its code is not part of this model.
- **Randomness.** The random seed of `rand::random::<i64>()` is a draw parameter.
- **Accessors.**
  - The getter slots `get_value`/`get_value_mut`, `guess_node_mut` and `find_node` of the ComfyUI crate are not part of this model. They are parameters: `SalParams.GraphAccess`, together with what the model requires of it.
  - Node lookup by class is modelled as "the first id of an explicit id order whose node has the class".
  - `chat_is_allowed` is not defined in the sources. It is modelled as membership of the allowed set.
- **The workflow walk.**
  - The recursive walk is defined only for graphs whose connections all name an existing node of lower rank.
  - The source panics on a dangling id and does not terminate on a cycle. Neither case is modelled.
- **HashMap order.** Where the iteration order of a `HashMap` is observable (generic node inputs, history outputs), it is an explicit sequence.
- **Integers.** They are unbounded, with `u32`, `i32` and `i64` as subset types. The one place where overflow matters, `i64::abs`, is written out as `SalApi.WrappingAbs`, and the seed rule uses the corrected `SalApi.SeedFromDraw` of the finding below.
- **The seed replacement.** The model of api.rs writes the corrected seed of the finding below, not the source's `draw.abs()` (api.rs:64, 99). For the draw `i64::MIN` it stores `i64::MAX`, where the source panics or stores `i64::MIN`. For every other draw it writes what the source writes (`SalApi.PatchSeedAsWritten`).
  - `SalApi.PatchSeed`, `SalApi.PatchSeedReports`: the seed they write and report for `i64::MIN` is the corrected one.
  - `SalApi.Txt2ImgResult`, `SalApi.Txt2Img`, `SalApi.Img2ImgResult`, `SalApi.Img2Img`: they run and report a graph patched with the corrected seed.
- **Panics.** A panic of the source is a precondition or is not represented.
  - `LegacyBotHandlers.Help`: `requires sender.Some?` stands for the `msg.from().unwrap()` of `src/bot/handlers.rs:42`, which panics on a message without a sender.
  - `BotHandlers.HandleCommand`: `requires cmd == HelpCommand && chat !in cfg.allowed ==> sender.Some?` stands for the `msg.from().unwrap()` of `crates/stable-diffusion-bot/src/bot/handlers/mod.rs:41`, reached by `/help` in a chat that is not allowed.
  - `ComfyUpdates.FilterUpdate`: the history is a total function, so the `.unwrap()` on a failed `get_prompt` lookup (`crates/comfyui-api/src/comfy/mod.rs:91`) and its panic are not represented.
- **Seed digits.** `BotImage.MarkSeed` matches ASCII digits only, where the regex crate's `\d` in `Seed: (?P<seed>\d+)` (`crates/stable-diffusion-bot/src/bot/handlers/image.rs:135`) also matches other Unicode decimal digits.
- **Sources that do not fit together.** Each file is modelled as written, with the missing pieces as parameters:
  - The dialogue `State` of `src/bot/mod.rs` has no settings variants, but `src/bot/handlers/settings.rs` uses them. The settings states are therefore modelled in `LegacySettings`.
  - `src/bot/handlers/mod.rs` does not declare `mod settings`.
  - `ImgResponse` is not defined in the sources. It is a record of the images and the info text.
  - `src/api/img2img.rs` has no `with_image`. Attaching the image is the `Attach` parameter.
  - The crate's `State` (`crates/stable-diffusion-bot/src/bot/mod.rs`) has no `bot_state`, but the handlers use a `BotState`, and `BotState` is not defined in the sources.
  - The `GenParams`-based handlers sit beside the `Txt2ImgRequest`-based `image.rs` and `bot/mod.rs` in the crate. Each is modelled with its own types.
  - The denoising strength of `src/api/txt2img.rs` is a `u32`, where the image-to-image request uses `f64`. The model keeps both types.
- **Other code.** Tests, examples other than `crates/comfyui-api/examples/simple.rs`, and the derived `Serialize`/`Deserialize` impls are not modelled. The JSON shape only matters at the transport, which is left out.

## Findings

| source | as written | input that shows it | evidently intended | confidence | as-written member | corrected member |
|---|---|---|---|---|---|---|
| crates/sal-e-api/src/api.rs:64 | a seed of -1 is replaced by `rand::random::<i64>().abs()` (the same at line 99) | the draw `i64::MIN`: `abs` overflows, which panics in a debug build and in a release build returns `i64::MIN`, a negative seed | a non-negative random seed, for example `unsigned_abs` or a saturating absolute value | not executed | SalApi.WrappingAbsNegative | SalApi.SeedFromDraw |
