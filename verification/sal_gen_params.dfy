/**
 * The `GenParams` implementations of crates/sal-e-api/src/gen_params.rs:
 * `ComfyParams`, which holds overrides on top of a ComfyUI workflow
 * template and writes them into a copy of it (`apply_to`), and
 * `Txt2ImgParams` / `Img2ImgParams`, which hold the user's request on top
 * of optional defaults.
 */
module SalGenParams {
  import opened Common
  import opened SalParams
  import SdTxt2Img
  import SdImg2Img
  import ComfyPrompt

  /** An optional setter call in front of `rest`. */
  function Step(o: Option<Setting>, rest: seq<Setting>): (r: seq<Setting>)
    ensures forall s :: s in r <==> o == Some(s) || s in rest
  {
    if o.Some? then [o.value] + rest else rest
  }

  /**
   * The overrides that are present, as the setter calls `apply_to` makes
   * in its order: seed, steps, cfg, width, height, prompt, negative
   * prompt, denoising, sampler, batch size. The count is never written
   * into the graph.
   */
  function Present(v: ParamValues): seq<Setting>
  {
    Step(Slot(v, SetSeed(0)),
    Step(Slot(v, SetSteps(0)),
    Step(Slot(v, SetCfg(Float(""))),
    Step(Slot(v, SetWidth(0)),
    Step(Slot(v, SetHeight(0)),
    Step(Slot(v, SetPrompt("")),
    Step(Slot(v, SetNegativePrompt("")),
    Step(Slot(v, SetDenoising(Float(""))),
    Step(Slot(v, SetSampler("")),
    Step(Slot(v, SetBatchSize(0)), []))))))))))
  }

  /** `apply_to` writes exactly the overrides that are present, and never the count. */
  lemma PresentMembers(v: ParamValues, s: Setting)
    ensures s in Present(v) <==> Reports(v, s) && !s.SetCount?
  {
  }

  /**
   * One `_ = prompt.x_mut().map(|p| *p = x)`: the graph with the value
   * written, or the graph unchanged when no node holds the parameter.
   */
  function StoreOrSkip(acc: GraphAccess, g: ComfyPrompt.Prompt, s: Setting): (r: ComfyPrompt.Prompt)
    ensures acc.store(g, s).None? ==> r == g
  {
    match acc.store(g, s)
    case Some(g') => g'
    case None => g
  }

  /** The writes of `apply_to`, one after another. */
  function StoreAll(acc: GraphAccess, g: ComfyPrompt.Prompt, ss: seq<Setting>): ComfyPrompt.Prompt
    decreases |ss|
  {
    if |ss| == 0 then g else StoreAll(acc, StoreOrSkip(acc, g, ss[0]), ss[1..])
  }

  /** The values the getters should report after the setter calls `ss`. */
  function AssignAll(v: ParamValues, ss: seq<Setting>): ParamValues
    decreases |ss|
  {
    if |ss| == 0 then v else AssignAll(Assign(v, ss[0]), ss[1..])
  }

  /** Every write of `ss` finds its node and changes exactly its parameter. */
  ghost predicate AllStored(acc: GraphAccess, g: ComfyPrompt.Prompt, ss: seq<Setting>)
    decreases |ss|
  {
    |ss| == 0
    || (acc.store(g, ss[0]).Some? && StoresExactly(acc, g, ss[0])
        && AllStored(acc, acc.store(g, ss[0]).value, ss[1..]))
  }

  /** Writes that all land report exactly the values assigned. */
  lemma {:induction false} StoreAllAssigns(acc: GraphAccess, g: ComfyPrompt.Prompt, ss: seq<Setting>)
    requires AllStored(acc, g, ss)
    ensures GraphValues(acc, StoreAll(acc, g, ss)) == AssignAll(GraphValues(acc, g), ss)
    decreases |ss|
  {
    if |ss| > 0 {
      StoreAllAssigns(acc, acc.store(g, ss[0]).value, ss[1..]);
    }
  }

  /** When no node holds any of the parameters, every write is skipped and the graph is unchanged. */
  lemma {:induction false} StoreAllSkips(acc: GraphAccess, g: ComfyPrompt.Prompt, ss: seq<Setting>)
    requires forall k :: 0 <= k < |ss| ==> acc.store(g, ss[k]).None?
    ensures StoreAll(acc, g, ss) == g
    decreases |ss|
  {
    if |ss| > 0 {
      assert acc.store(g, ss[0]).None?;
      forall k | 0 <= k < |ss| - 1
        ensures acc.store(g, ss[1..][k]).None?
      {
        assert ss[1..][k] == ss[k + 1];
      }
      StoreAllSkips(acc, g, ss[1..]);
    }
  }

  /** Assigning two lists of setter calls is assigning the first, then the second. */
  lemma {:induction false} AssignAllAppend(v: ParamValues, a: seq<Setting>, b: seq<Setting>)
    ensures AssignAll(v, a + b) == AssignAll(AssignAll(v, a), b)
    decreases |a|
  {
    if |a| == 0 {
      assert a + b == b;
    } else {
      assert (a + b)[0] == a[0];
      assert (a + b)[1..] == a[1..] + b;
      AssignAllAppend(Assign(v, a[0]), a[1..], b);
    }
  }

  /** The value update of one optional setter call. */
  function AssignStep(v: ParamValues, o: Option<Setting>): ParamValues
  {
    if o.Some? then Assign(v, o.value) else v
  }

  /** Assigning an optional call in front of `rest`. */
  lemma AssignAllStep(v: ParamValues, o: Option<Setting>, rest: seq<Setting>)
    ensures AssignAll(v, Step(o, rest)) == AssignAll(AssignStep(v, o), rest)
  {
    if o.Some? {
      assert Step(o, rest)[0] == o.value;
      assert Step(o, rest)[1..] == rest;
    }
  }

  /**
   * Assigning the present overrides to what a graph reports gives the
   * override where there is one and the graph's value elsewhere: the
   * getter fallback of `ComfyParams`.
   */
  lemma AssignAllPresent(v: ParamValues, ov: ParamValues)
    ensures AssignAll(v, Present(ov)) == AssignStep(AssignStep(AssignStep(AssignStep(AssignStep(AssignStep(AssignStep(AssignStep(AssignStep(AssignStep(v, Slot(ov, SetSeed(0))), Slot(ov, SetSteps(0))), Slot(ov, SetCfg(Float("")))), Slot(ov, SetWidth(0))), Slot(ov, SetHeight(0))), Slot(ov, SetPrompt(""))), Slot(ov, SetNegativePrompt(""))), Slot(ov, SetDenoising(Float("")))), Slot(ov, SetSampler(""))), Slot(ov, SetBatchSize(0)))
  {
    var o1, o2, o3, o4, o5 := Slot(ov, SetSeed(0)), Slot(ov, SetSteps(0)), Slot(ov, SetCfg(Float(""))),
      Slot(ov, SetWidth(0)), Slot(ov, SetHeight(0));
    var o6, o7, o8, o9, o10 := Slot(ov, SetPrompt("")), Slot(ov, SetNegativePrompt("")),
      Slot(ov, SetDenoising(Float(""))), Slot(ov, SetSampler("")), Slot(ov, SetBatchSize(0));
    var r10 := Step(o10, []);
    var r9 := Step(o9, r10);
    var r8 := Step(o8, r9);
    var r7 := Step(o7, r8);
    var r6 := Step(o6, r7);
    var r5 := Step(o5, r6);
    var r4 := Step(o4, r5);
    var r3 := Step(o3, r4);
    var r2 := Step(o2, r3);
    var v1 := AssignStep(v, o1);
    var v2 := AssignStep(v1, o2);
    var v3 := AssignStep(v2, o3);
    var v4 := AssignStep(v3, o4);
    var v5 := AssignStep(v4, o5);
    var v6 := AssignStep(v5, o6);
    var v7 := AssignStep(v6, o7);
    var v8 := AssignStep(v7, o8);
    var v9 := AssignStep(v8, o9);
    var v10 := AssignStep(v9, o10);
    AssignAllStep(v, o1, r2);
    AssignAllStep(v1, o2, r3);
    AssignAllStep(v2, o3, r4);
    AssignAllStep(v3, o4, r5);
    AssignAllStep(v4, o5, r6);
    AssignAllStep(v5, o6, r7);
    AssignAllStep(v6, o7, r8);
    AssignAllStep(v7, o8, r9);
    AssignAllStep(v8, o9, r10);
    AssignAllStep(v9, o10, []);
    assert AssignAll(v, Present(ov)) == v10;
  }

  /** The first five steps: seed, steps, cfg, width and height. */
  lemma AssignStepsFirst(v: ParamValues, ov: ParamValues)
    ensures AssignStep(AssignStep(AssignStep(AssignStep(AssignStep(v, Slot(ov, SetSeed(0))), Slot(ov, SetSteps(0))), Slot(ov, SetCfg(Float("")))), Slot(ov, SetWidth(0))), Slot(ov, SetHeight(0)))
      == v.(seed := ov.seed.Or(v.seed), steps := ov.steps.Or(v.steps), cfg := ov.cfg.Or(v.cfg),
            width := ov.width.Or(v.width), height := ov.height.Or(v.height))
  {
    var v1 := AssignStep(v, Slot(ov, SetSeed(0)));
    assert v1 == v.(seed := ov.seed.Or(v.seed));
    var v2 := AssignStep(v1, Slot(ov, SetSteps(0)));
    assert v2 == v1.(steps := ov.steps.Or(v.steps));
    var v3 := AssignStep(v2, Slot(ov, SetCfg(Float(""))));
    assert v3 == v2.(cfg := ov.cfg.Or(v.cfg));
    var v4 := AssignStep(v3, Slot(ov, SetWidth(0)));
    assert v4 == v3.(width := ov.width.Or(v.width));
  }

  /** The last five steps: prompt, negative prompt, denoising, sampler and batch size. */
  lemma AssignStepsLast(w: ParamValues, ov: ParamValues)
    ensures AssignStep(AssignStep(AssignStep(AssignStep(AssignStep(w, Slot(ov, SetPrompt(""))), Slot(ov, SetNegativePrompt(""))), Slot(ov, SetDenoising(Float("")))), Slot(ov, SetSampler(""))), Slot(ov, SetBatchSize(0)))
      == w.(prompt := ov.prompt.Or(w.prompt), negativePrompt := ov.negativePrompt.Or(w.negativePrompt),
            denoising := ov.denoising.Or(w.denoising), sampler := ov.sampler.Or(w.sampler),
            batchSize := ov.batchSize.Or(w.batchSize))
  {
    var v6 := AssignStep(w, Slot(ov, SetPrompt("")));
    assert v6 == w.(prompt := ov.prompt.Or(w.prompt));
    var v7 := AssignStep(v6, Slot(ov, SetNegativePrompt("")));
    assert v7 == v6.(negativePrompt := ov.negativePrompt.Or(w.negativePrompt));
    var v8 := AssignStep(v7, Slot(ov, SetDenoising(Float(""))));
    assert v8 == v7.(denoising := ov.denoising.Or(w.denoising));
    var v9 := AssignStep(v8, Slot(ov, SetSampler("")));
    assert v9 == v8.(sampler := ov.sampler.Or(w.sampler));
  }

  /** The ten steps together give the getter fallback. */
  lemma AssignStepsFallback(v: ParamValues, ov: ParamValues)
    ensures AssignStep(AssignStep(AssignStep(AssignStep(AssignStep(AssignStep(AssignStep(AssignStep(AssignStep(AssignStep(v, Slot(ov, SetSeed(0))), Slot(ov, SetSteps(0))), Slot(ov, SetCfg(Float("")))), Slot(ov, SetWidth(0))), Slot(ov, SetHeight(0))), Slot(ov, SetPrompt(""))), Slot(ov, SetNegativePrompt(""))), Slot(ov, SetDenoising(Float("")))), Slot(ov, SetSampler(""))), Slot(ov, SetBatchSize(0)))
      == Fallback(ov, Some(v)).(count := v.count, image := v.image)
  {
    AssignStepsFirst(v, ov);
    var w := v.(seed := ov.seed.Or(v.seed), steps := ov.steps.Or(v.steps), cfg := ov.cfg.Or(v.cfg),
                width := ov.width.Or(v.width), height := ov.height.Or(v.height));
    AssignStepsLast(w, ov);
  }

  /**
   * `apply_to` on graph `g`, when every present override finds its node
   * and each write is exact: the result's getters report each override
   * where there is one and the template's value elsewhere, which is what
   * the `ComfyParams` getters report.
   */
  lemma ApplyReports(acc: GraphAccess, ov: ParamValues, g: ComfyPrompt.Prompt)
    requires AllStored(acc, g, Present(ov))
    ensures GraphValues(acc, StoreAll(acc, g, Present(ov)))
      == Fallback(ov, Some(GraphValues(acc, g))).(count := None, image := None)
  {
    StoreAllAssigns(acc, g, Present(ov));
    AssignAllPresent(GraphValues(acc, g), ov);
    AssignStepsFallback(GraphValues(acc, g), ov);
  }

  /**
   * `ComfyParams` (gen_params.rs): optional overrides of every parameter,
   * the count, the input image and an optional workflow template.
   */
  class ComfyParams {
    var prompt: Option<ComfyPrompt.Prompt>
    var seed: Option<i64>
    var steps: Option<u32>
    var count: u32
    var cfg: Option<Float>
    var width: Option<u32>
    var height: Option<u32>
    var promptText: Option<string>
    var negativePromptText: Option<string>
    var denoising: Option<Float>
    var sampler: Option<string>
    var batchSize: Option<u32>
    var image: Option<seq<u8>>

    /** The overrides as getter values; the count is always present. */
    function Overrides(): ParamValues
      reads this
    {
      ParamValues(seed, steps, Some(count), cfg, width, height, promptText, negativePromptText,
                  denoising, sampler, batchSize, image)
    }

    /** What the template's getters report, when there is a template. */
    function Template(acc: GraphAccess): Option<ParamValues>
      reads this
    {
      if prompt.Some? then Some(GraphValues(acc, prompt.value)) else None
    }

    /**
     * The getters: the override when present, else the template graph's
     * value; `count()` is always `Some(count)` and `image()` the image held.
     */
    function Values(acc: GraphAccess): (v: ParamValues)
      reads this
      ensures v.count == Some(count) && v.image == image
      ensures forall s :: Slot(Overrides(), s).Some? ==> Slot(v, s) == Slot(Overrides(), s)
      ensures prompt.None? ==> v == Overrides()
      ensures forall s :: prompt.Some? && Slot(Overrides(), s).None? ==> Slot(v, s) == Slot(GraphValues(acc, prompt.value), s)
    {
      if prompt.Some? then FallbackSlots(Overrides(), GraphValues(acc, prompt.value)); Fallback(Overrides(), Template(acc))
      else Fallback(Overrides(), Template(acc))
    }

    /** `set_x(v)`: stores the override (or the count); the template is untouched. */
    method Set(s: Setting)
      modifies this
      ensures Overrides() == Assign(old(Overrides()), s)
      ensures prompt == old(prompt)
      ensures forall acc :: Values(acc) == Assign(old(Values(acc)), s)
    {
      match s {
        case SetSeed(x) => seed := Some(x);
        case SetSteps(x) => steps := Some(x);
        case SetCount(x) => count := x;
        case SetCfg(x) => cfg := Some(x);
        case SetWidth(x) => width := Some(x);
        case SetHeight(x) => height := Some(x);
        case SetPrompt(x) => promptText := Some(x);
        case SetNegativePrompt(x) => negativePromptText := Some(x);
        case SetDenoising(x) => denoising := Some(x);
        case SetSampler(x) => sampler := Some(x);
        case SetBatchSize(x) => batchSize := Some(x);
      }
      assert Overrides() == Assign(old(Overrides()), s);
      forall acc
        ensures Values(acc) == Assign(old(Values(acc)), s)
      {
        assert Template(acc) == old(Template(acc));
        FallbackAssign(old(Overrides()), old(Template(acc)), s);
      }
    }

    /** `set_image`: replaces the image held. */
    method SetImage(img: Option<seq<u8>>)
      modifies this
      ensures Overrides() == old(Overrides()).(image := img)
      ensures prompt == old(prompt)
    {
      image := img;
    }

    /** `apply_to`: the present overrides written into a copy of `g`, skipping any that find no node. */
    function ApplyTo(acc: GraphAccess, g: ComfyPrompt.Prompt): (r: ComfyPrompt.Prompt)
      reads this
      ensures Present(Overrides()) == [] ==> r == g
    {
      StoreAll(acc, g, Present(Overrides()))
    }

    /** `apply`: the template with the overrides applied, or none without a template. */
    function Apply(acc: GraphAccess): (r: Option<ComfyPrompt.Prompt>)
      reads this
      ensures r.None? <==> prompt.None?
      ensures r.Some? ==> r.value == ApplyTo(acc, prompt.value)
    {
      if prompt.Some? then Some(ApplyTo(acc, prompt.value)) else None
    }

    /**
     * `From<&dyn GenParams>`: every reported value becomes an override,
     * the count defaults to 1, and there is no template.
     */
    constructor From(v: ParamValues)
      ensures prompt.None?
      ensures Overrides() == v.(count := Some(v.count.UnwrapOr(1)))
    {
      prompt := None;
      seed := v.seed;
      steps := v.steps;
      count := v.count.UnwrapOr(1);
      cfg := v.cfg;
      width := v.width;
      height := v.height;
      promptText := v.prompt;
      negativePromptText := v.negativePrompt;
      denoising := v.denoising;
      sampler := v.sampler;
      batchSize := v.batchSize;
      image := v.image;
    }
  }

  /** The defaults' values, if there are defaults. */
  function Txt2ImgDefaults(defaults: Option<SdTxt2Img.Txt2ImgRequest>): Option<ParamValues>
  {
    if defaults.Some? then Some(Txt2ImgValues(defaults.value)) else None
  }

  /** `Txt2ImgParams`: the user's request and optional defaults. */
  class Txt2ImgParams {
    var userParams: SdTxt2Img.Txt2ImgRequest
    var defaults: Option<SdTxt2Img.Txt2ImgRequest>

    /** The getters: the user's value, else the defaults', else none; never an image. */
    function Values(): (v: ParamValues)
      reads this
      ensures v.image.None?
      ensures forall s :: Slot(Txt2ImgValues(userParams), s).Some? ==> Slot(v, s) == Slot(Txt2ImgValues(userParams), s)
      ensures defaults.None? ==> v == Txt2ImgValues(userParams)
    {
      if defaults.Some? then FallbackSlots(Txt2ImgValues(userParams), Txt2ImgDefaults(defaults).value); Fallback(Txt2ImgValues(userParams), Txt2ImgDefaults(defaults))
      else Fallback(Txt2ImgValues(userParams), Txt2ImgDefaults(defaults))
    }

    /** `set_x(v)`: writes only `user_params`; the defaults never change. */
    method Set(s: Setting)
      modifies this
      ensures userParams == Txt2ImgPut(old(userParams), s) && defaults == old(defaults)
      ensures Values() == Assign(old(Values()), s)
    {
      FallbackAssign(Txt2ImgValues(userParams), Txt2ImgDefaults(defaults), s);
      userParams := Txt2ImgPut(userParams, s);
    }

    /** `set_image` is ignored: a text-to-image request carries no image. */
    method SetImage(img: Option<seq<u8>>)
      ensures Values().image.None?
    {
    }

    /** `From<&dyn GenParams>`: the reported values as the user's request, without defaults. */
    constructor From(v: ParamValues)
      ensures userParams == Txt2ImgFrom(v) && defaults.None?
      ensures Values() == v.(image := None)
    {
      userParams := Txt2ImgFrom(v);
      defaults := None;
    }
  }

  /** The defaults' values, if there are defaults; the defaults' images are never read. */
  function Img2ImgDefaults(defaults: Option<SdImg2Img.Img2ImgRequest>): Option<ParamValues>
  {
    if defaults.Some? then Some(Img2ImgValues(defaults.value).(image := None)) else None
  }

  /** `Img2ImgParams`: the user's request and optional defaults. */
  class Img2ImgParams {
    var userParams: SdImg2Img.Img2ImgRequest
    var defaults: Option<SdImg2Img.Img2ImgRequest>

    /**
     * The getters: the user's value, else the defaults', else none; the
     * image is the last of the user's init images, and only when all decode.
     */
    function Values(): (v: ParamValues)
      reads this
      ensures v.image == LastImage(userParams.initImages)
      ensures forall s :: Slot(Img2ImgValues(userParams), s).Some? ==> Slot(v, s) == Slot(Img2ImgValues(userParams), s)
      ensures defaults.None? ==> v == Img2ImgValues(userParams)
    {
      if defaults.Some? then FallbackSlots(Img2ImgValues(userParams), Img2ImgDefaults(defaults).value); Fallback(Img2ImgValues(userParams), Img2ImgDefaults(defaults))
      else Fallback(Img2ImgValues(userParams), Img2ImgDefaults(defaults))
    }

    /** `set_x(v)`: writes only `user_params`; the defaults never change. */
    method Set(s: Setting)
      modifies this
      ensures userParams == Img2ImgPut(old(userParams), s) && defaults == old(defaults)
      ensures Values() == Assign(old(Values()), s)
    {
      FallbackAssign(Img2ImgValues(userParams), Img2ImgDefaults(defaults), s);
      userParams := Img2ImgPut(userParams, s);
    }

    /**
     * `set_image(Some(b))` appends `b` to the init images (`with_image`);
     * `set_image(None)` drops them all. Nothing else changes.
     */
    method SetImage(img: Option<seq<u8>>)
      modifies this
      ensures img.Some? ==> userParams == SdImg2Img.AddImage(old(userParams), img.value)
      ensures img.None? ==> userParams == old(userParams).(initImages := None)
      ensures defaults == old(defaults)
      ensures Values() == old(Values()).(image := Values().image)
      ensures img.None? ==> Values().image.None?
      ensures img.Some? && AllDecode(SdImg2Img.HeldImages(old(userParams))) ==> Values().image == img
      ensures img.Some? && !AllDecode(SdImg2Img.HeldImages(old(userParams))) ==> Values().image.None?
    {
      if img.Some? {
        SdImg2Img.AddImageGet(userParams, img.value);
        ImageAfterAdd(userParams, img.value);
        userParams := SdImg2Img.AddImage(userParams, img.value);
      } else {
        userParams := userParams.(initImages := None);
      }
    }

    /** `From<&dyn GenParams>`: the reported values as the user's request, without defaults or image. */
    constructor From(v: ParamValues)
      ensures userParams == Img2ImgFrom(v) && defaults.None?
      ensures Values() == v.(image := None)
    {
      userParams := Img2ImgFrom(v);
      defaults := None;
    }
  }

  /**
   * Converting between the `GenParams` implementations keeps every scalar
   * value: a `Txt2ImgParams` built from `p` reports what `p` reports, and a
   * `ComfyParams` built from it reports that again, with the count
   * defaulting to 1 where there was none.
   */
  lemma ConversionKeepsValues(v: ParamValues)
    ensures Fallback(Txt2ImgValues(Txt2ImgFrom(v)), None) == v.(image := None)
    ensures Fallback(Txt2ImgValues(Txt2ImgFrom(v)), None).(count := Some(v.count.UnwrapOr(1)))
      == v.(image := None, count := Some(v.count.UnwrapOr(1)))
  {
  }
}
