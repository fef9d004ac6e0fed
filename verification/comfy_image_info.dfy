/**
 * `ImageInfo::new_from_prompt` and its `ImageInfoVisitor`
 * (crates/comfyui-api/src/comfy/mod.rs): the generation parameters read
 * off a workflow graph by walking it from the output node. The first
 * CLIPTextEncode reached with a literal text gives the prompt and the next
 * one the negative prompt; the seed, the model and the size come from the
 * last node of the right class that holds them as literals.
 */
module ComfyImageInfo {
  import opened Common
  import opened ComfyPrompt
  import opened ComfyVisitor

  /** The optional fields of `ImageInfoVisitor`, as a value. */
  datatype Collected = Collected(
    promptText: Option<string>,
    negativePromptText: Option<string>,
    model: Option<string>,
    width: Option<u32>,
    height: Option<u32>,
    seed: Option<i64>)

  const Nothing: Collected := Collected(None, None, None, None, None, None)

  /** `ImageInfo`: what the bot reports about a ComfyUI generation. */
  datatype ImageInfo = ImageInfo(
    prompt: string,
    negativePrompt: string,
    width: u32,
    height: u32,
    model: string,
    seed: i64)

  /**
   * What the overriding `visit_*` of `ImageInfoVisitor` record on reaching
   * one node, before the walk descends from it, field by field: a literal
   * CLIPTextEncode text fills the prompt if it is unset and otherwise the
   * negative prompt if that is unset; a literal seed, checkpoint name or
   * size overwrites what was there.
   */
  function Observe(s: Collected, n: NodeOrUnknown): Collected
  {
    Collected(
      if s.promptText.None? then First(TextOf(n)) else s.promptText,
      if s.promptText.Some? && s.negativePromptText.None? then First(TextOf(n)) else s.negativePromptText,
      ModelOf(n).Or(s.model),
      WidthOf(n).Or(s.width),
      HeightOf(n).Or(s.height),
      SeedOf(n).Or(s.seed))
  }

  /** The fields after observing the nodes `ns` in turn. */
  function Collect(s: Collected, ns: seq<NodeOrUnknown>): Collected
    decreases |ns|
  {
    if |ns| == 0 then s else Collect(Observe(s, ns[0]), ns[1..])
  }

  /** Observing `a` and then `b` is observing `a + b`. */
  lemma {:induction false} CollectAppend(s: Collected, a: seq<NodeOrUnknown>, b: seq<NodeOrUnknown>)
    ensures Collect(s, a + b) == Collect(Collect(s, a), b)
    decreases |a|
  {
    if |a| > 0 {
      assert (a + b)[0] == a[0];
      assert (a + b)[1..] == a[1..] + b;
      CollectAppend(Observe(s, a[0]), a[1..], b);
    } else {
      assert a + b == b;
    }
  }

  // Reference definitions: what each field is, read off the visited nodes directly.

  /** The literal text of a CLIPTextEncode, if the node is one and holds one. */
  function TextOf(n: NodeOrUnknown): seq<string>
  {
    if n.KnownNode? && n.node.CLIPTextEncode? && n.node.clipTextEncode.text.Value?
    then [n.node.clipTextEncode.text.value] else []
  }

  /** The literal texts of the CLIPTextEncode nodes among `ns`, in order. */
  function LiteralTexts(ns: seq<NodeOrUnknown>): seq<string>
  {
    if |ns| == 0 then [] else TextOf(ns[0]) + LiteralTexts(ns[1..])
  }

  function SeedOf(n: NodeOrUnknown): Option<i64>
  {
    if n.KnownNode? && n.node.KSampler? then Literal(n.node.kSampler.seed)
    else if n.KnownNode? && n.node.SamplerCustom? then Literal(n.node.samplerCustom.noiseSeed)
    else None
  }

  function ModelOf(n: NodeOrUnknown): Option<string>
  {
    if n.KnownNode? && n.node.CheckpointLoaderSimple? then Literal(n.node.checkpointLoaderSimple.ckptName)
    else if n.KnownNode? && n.node.ImageOnlyCheckpointLoader? then Literal(n.node.imageOnlyCheckpointLoader.ckptName)
    else None
  }

  function WidthOf(n: NodeOrUnknown): Option<u32>
  {
    if n.KnownNode? && n.node.EmptyLatentImage? then Literal(n.node.emptyLatentImage.width) else None
  }

  function HeightOf(n: NodeOrUnknown): Option<u32>
  {
    if n.KnownNode? && n.node.EmptyLatentImage? then Literal(n.node.emptyLatentImage.height) else None
  }

  /** The last present value of a sequence of options, scanning from the end. */
  function Last<T>(xs: seq<Option<T>>): (r: Option<T>)
    ensures r.Some? <==> exists k :: 0 <= k < |xs| && xs[k].Some?
  {
    if |xs| == 0 then None
    else if xs[|xs| - 1].Some? then xs[|xs| - 1]
    else Last(xs[..|xs| - 1])
  }

  /** Putting an option in front only matters when nothing later is present. */
  lemma {:induction false} LastCons<T>(x: Option<T>, xs: seq<Option<T>>)
    ensures Last([x] + xs) == Last(xs).Or(x)
    decreases |xs|
  {
    if |xs| > 0 {
      assert ([x] + xs)[..|[x] + xs| - 1] == [x] + xs[..|xs| - 1];
      LastCons(x, xs[..|xs| - 1]);
    } else {
      assert [x] + xs == [x];
    }
  }

  function Seeds(ns: seq<NodeOrUnknown>): (r: seq<Option<i64>>)
    ensures |r| == |ns| && forall k :: 0 <= k < |ns| ==> r[k] == SeedOf(ns[k])
  {
    seq(|ns|, k requires 0 <= k < |ns| => SeedOf(ns[k]))
  }

  function Models(ns: seq<NodeOrUnknown>): (r: seq<Option<string>>)
    ensures |r| == |ns| && forall k :: 0 <= k < |ns| ==> r[k] == ModelOf(ns[k])
  {
    seq(|ns|, k requires 0 <= k < |ns| => ModelOf(ns[k]))
  }

  function Widths(ns: seq<NodeOrUnknown>): (r: seq<Option<u32>>)
    ensures |r| == |ns| && forall k :: 0 <= k < |ns| ==> r[k] == WidthOf(ns[k])
  {
    seq(|ns|, k requires 0 <= k < |ns| => WidthOf(ns[k]))
  }

  function Heights(ns: seq<NodeOrUnknown>): (r: seq<Option<u32>>)
    ensures |r| == |ns| && forall k :: 0 <= k < |ns| ==> r[k] == HeightOf(ns[k])
  {
    seq(|ns|, k requires 0 <= k < |ns| => HeightOf(ns[k]))
  }

  lemma SeedsCons(ns: seq<NodeOrUnknown>)
    requires |ns| > 0
    ensures Seeds(ns) == [SeedOf(ns[0])] + Seeds(ns[1..])
  {
  }

  lemma ModelsCons(ns: seq<NodeOrUnknown>)
    requires |ns| > 0
    ensures Models(ns) == [ModelOf(ns[0])] + Models(ns[1..])
  {
  }

  lemma WidthsCons(ns: seq<NodeOrUnknown>)
    requires |ns| > 0
    ensures Widths(ns) == [WidthOf(ns[0])] + Widths(ns[1..])
  {
  }

  lemma HeightsCons(ns: seq<NodeOrUnknown>)
    requires |ns| > 0
    ensures Heights(ns) == [HeightOf(ns[0])] + Heights(ns[1..])
  {
  }

  /** The last node holding a seed literal wins; nodes without one change nothing. */
  lemma {:induction false} CollectSeed(s: Collected, ns: seq<NodeOrUnknown>)
    ensures Collect(s, ns).seed == Last(Seeds(ns)).Or(s.seed)
    decreases |ns|
  {
    if |ns| > 0 {
      CollectSeed(Observe(s, ns[0]), ns[1..]);
      SeedsCons(ns);
      LastCons(SeedOf(ns[0]), Seeds(ns[1..]));
    }
  }

  /** The last checkpoint loader holding a literal name gives the model. */
  lemma {:induction false} CollectModel(s: Collected, ns: seq<NodeOrUnknown>)
    ensures Collect(s, ns).model == Last(Models(ns)).Or(s.model)
    decreases |ns|
  {
    if |ns| > 0 {
      CollectModel(Observe(s, ns[0]), ns[1..]);
      ModelsCons(ns);
      LastCons(ModelOf(ns[0]), Models(ns[1..]));
    }
  }

  /** The last EmptyLatentImage holding a literal width gives the width. */
  lemma {:induction false} CollectWidth(s: Collected, ns: seq<NodeOrUnknown>)
    ensures Collect(s, ns).width == Last(Widths(ns)).Or(s.width)
    decreases |ns|
  {
    if |ns| > 0 {
      CollectWidth(Observe(s, ns[0]), ns[1..]);
      WidthsCons(ns);
      LastCons(WidthOf(ns[0]), Widths(ns[1..]));
    }
  }

  /** The last EmptyLatentImage holding a literal height gives the height. */
  lemma {:induction false} CollectHeight(s: Collected, ns: seq<NodeOrUnknown>)
    ensures Collect(s, ns).height == Last(Heights(ns)).Or(s.height)
    decreases |ns|
  {
    if |ns| > 0 {
      CollectHeight(Observe(s, ns[0]), ns[1..]);
      HeightsCons(ns);
      LastCons(HeightOf(ns[0]), Heights(ns[1..]));
    }
  }

  function First(texts: seq<string>): Option<string>
  {
    if |texts| > 0 then Some(texts[0]) else None
  }

  function Second(texts: seq<string>): Option<string>
  {
    if |texts| > 1 then Some(texts[1]) else None
  }

  /**
   * The prompt is the first literal CLIPTextEncode text reached and the
   * negative prompt the next one; later ones are ignored. Stated for each
   * way the two fields can be filled before the walk.
   */
  lemma {:induction false} CollectPrompts(s: Collected, ns: seq<NodeOrUnknown>)
    ensures var r := Collect(s, ns); var t := LiteralTexts(ns);
      && (s.promptText.None? && s.negativePromptText.None? ==>
            r.promptText == First(t) && r.negativePromptText == Second(t))
      && (s.promptText.Some? && s.negativePromptText.None? ==>
            r.promptText == s.promptText && r.negativePromptText == First(t))
      && (s.negativePromptText.Some? ==> r.negativePromptText == s.negativePromptText)
      && (s.promptText.Some? ==> r.promptText == s.promptText)
    decreases |ns|
  {
    if |ns| > 0 {
      CollectPrompts(Observe(s, ns[0]), ns[1..]);
    }
  }

  /** The report assembled from the visited nodes; absent fields become "" or 0. */
  function InfoFrom(ns: seq<NodeOrUnknown>): ImageInfo
  {
    var texts := LiteralTexts(ns);
    ImageInfo(
      First(texts).UnwrapOr(""),
      Second(texts).UnwrapOr(""),
      Last(Widths(ns)).UnwrapOr(0),
      Last(Heights(ns)).UnwrapOr(0),
      Last(Models(ns)).UnwrapOr(""),
      Last(Seeds(ns)).UnwrapOr(0))
  }

  /** The report built from the visitor's fields; absent fields become "" or 0. */
  function Report(c: Collected): ImageInfo
  {
    ImageInfo(c.promptText.UnwrapOr(""), c.negativePromptText.UnwrapOr(""),
      c.width.UnwrapOr(0), c.height.UnwrapOr(0), c.model.UnwrapOr(""), c.seed.UnwrapOr(0))
  }

  /** Observing `ns` from no fields reports exactly the reference reading of `ns`. */
  lemma InfoFromCollect(ns: seq<NodeOrUnknown>)
    ensures Report(Collect(Nothing, ns)) == InfoFrom(ns)
  {
    CollectSeed(Nothing, ns);
    CollectModel(Nothing, ns);
    CollectWidth(Nothing, ns);
    CollectHeight(Nothing, ns);
    CollectPrompts(Nothing, ns);
  }

  /** `ImageInfoVisitor`: the graph it reads and the fields it overwrites as it walks. */
  class ImageInfoVisitor {
    const prompt: Prompt
    var promptText: Option<string>
    var negativePromptText: Option<string>
    var model: Option<string>
    var width: Option<u32>
    var height: Option<u32>
    var seed: Option<i64>

    function Fields(): Collected
      reads this
    {
      Collected(promptText, negativePromptText, model, width, height, seed)
    }

    constructor (prompt: Prompt)
      ensures this.prompt == prompt && Fields() == Nothing
    {
      this.prompt := prompt;
      promptText := None;
      negativePromptText := None;
      model := None;
      width := None;
      height := None;
      seed := None;
    }

    /** The field updates of the overriding `visit_*` methods, for one node. */
    method Record(n: NodeOrUnknown)
      modifies this
      ensures Fields() == Observe(old(Fields()), n)
    {
      match n {
        case KnownNode(CLIPTextEncode(c)) =>
          if promptText.None? {
            if c.text.Value? {
              promptText := Some(c.text.value);
            }
          } else if negativePromptText.None? {
            if c.text.Value? {
              negativePromptText := Some(c.text.value);
            }
          }
        case KnownNode(CheckpointLoaderSimple(c)) =>
          if c.ckptName.Value? {
            model := Some(c.ckptName.value);
          }
        case KnownNode(ImageOnlyCheckpointLoader(c)) =>
          if c.ckptName.Value? {
            model := Some(c.ckptName.value);
          }
        case KnownNode(EmptyLatentImage(e)) =>
          if e.width.Value? {
            width := Some(e.width.value);
          }
          if e.height.Value? {
            height := Some(e.height.value);
          }
        case KnownNode(KSampler(k)) =>
          if k.seed.Value? {
            seed := Some(k.seed.value);
          }
        case KnownNode(SamplerCustom(c)) =>
          if c.noiseSeed.Value? {
            seed := Some(c.noiseSeed.value);
          }
        case _ =>
      }
    }

    /** `visit_node_or_unknown` on the node `id`: record it, then walk on from it. */
    method VisitNodeOrUnknown(ghost rank: map<string, nat>, id: string)
      requires Walkable(prompt, rank) && id in prompt.workflow
      modifies this
      ensures Fields() == Collect(old(Fields()), WalkNodes(prompt, rank, id))
      decreases rank[id], 1
    {
      var n := prompt.workflow[id];
      Record(n);
      VisitEach(rank, Next(n), rank[id]);
      WalkNodesUnfold(prompt, rank, id);
      CollectAppend(old(Fields()), [n], WalkAllNodes(prompt, rank, Next(n), rank[id]));
    }

    /** The `visit_input` / `visit_node_or_unknown` calls of one `walk_*`, in order. */
    method VisitEach(ghost rank: map<string, nat>, ids: seq<string>, ghost bound: nat)
      requires Walkable(prompt, rank)
      requires forall k :: 0 <= k < |ids| ==> ids[k] in prompt.workflow && ids[k] in rank && rank[ids[k]] < bound
      modifies this
      ensures Fields() == Collect(old(Fields()), WalkAllNodes(prompt, rank, ids, bound))
      decreases bound, 0, |ids|
    {
      if |ids| > 0 {
        VisitNodeOrUnknown(rank, ids[0]);
        VisitEach(rank, ids[1..], bound);
        WalkAllNodesUnfold(prompt, rank, ids, bound);
        CollectAppend(old(Fields()), WalkNodes(prompt, rank, ids[0]), WalkAllNodes(prompt, rank, ids[1..], bound));
      } else {
        assert WalkAllNodes(prompt, rank, ids, bound) == [];
      }
    }
  }

  /**
   * `ImageInfo::new_from_prompt`: an absent output node is an error;
   * otherwise the report describes the nodes the walk from it reaches.
   */
  method NewFromPrompt(prompt: Prompt, ghost rank: map<string, nat>, outputNode: string) returns (r: Result<ImageInfo>)
    requires Walkable(prompt, rank)
    ensures outputNode !in prompt.workflow <==> r.Err?
    ensures outputNode !in prompt.workflow ==> r == Err("Output node not found: " + outputNode)
    ensures outputNode in prompt.workflow ==> r == Ok(InfoFrom(WalkNodes(prompt, rank, outputNode)))
  {
    if outputNode !in prompt.workflow {
      return Err("Output node not found: " + outputNode);
    }
    var visitor := new ImageInfoVisitor(prompt);
    visitor.VisitNodeOrUnknown(rank, outputNode);
    InfoFromCollect(WalkNodes(prompt, rank, outputNode));
    r := Ok(ImageInfo(
      visitor.promptText.UnwrapOr(""),
      visitor.negativePromptText.UnwrapOr(""),
      visitor.width.UnwrapOr(0),
      visitor.height.UnwrapOr(0),
      visitor.model.UnwrapOr(""),
      visitor.seed.UnwrapOr(0)));
  }


  // The graph of crates/comfyui-api/examples/simple.rs.

  const Node3: NodeOrUnknown := KnownNode(KSampler(KSamplerInputs(
    Value(Float("8")), Value(Float("1")), Value("euler"), Value("normal"), Value(18566256), Value(20),
    NodeConnection("6", 0), NodeConnection("7", 0), NodeConnection("4", 0), NodeConnection("5", 0))))
  const Node4: NodeOrUnknown := KnownNode(CheckpointLoaderSimple(CheckpointLoaderSimpleInputs(Value("sd\\sd_xl_base_1.0.safetensors"))))
  const Node5: NodeOrUnknown := KnownNode(EmptyLatentImage(EmptyLatentImageInputs(Value(1), Value(1024), Value(1024))))
  const Node6: NodeOrUnknown := KnownNode(CLIPTextEncode(CLIPTextEncodeInputs(Value("masterpiece best quality girl"), NodeConnection("4", 1))))
  const Node7: NodeOrUnknown := KnownNode(CLIPTextEncode(CLIPTextEncodeInputs(Value("bad hands"), NodeConnection("4", 1))))
  const Node8: NodeOrUnknown := KnownNode(VAEDecode(VAEDecodeInputs(NodeConnection("3", 0), NodeConnection("4", 2))))
  const Node9: NodeOrUnknown := KnownNode(SaveImage(SaveImageInputs(Value("ComfyUI"), NodeConnection("8", 0))))

  function SimplePrompt(): Prompt
  {
    Prompt(map["3" := Node3, "4" := Node4, "5" := Node5, "6" := Node6, "7" := Node7, "8" := Node8, "9" := Node9])
  }

  /** A rank for the example graph: each node ranks above the nodes it draws from. */
  ghost function SimpleRank(): map<string, nat>
  {
    map["4" := 0, "5" := 0, "6" := 1, "7" := 1, "3" := 2, "8" := 3, "9" := 4]
  }

  /** The facts about the example graph and its rank that the walk uses, one lookup each. */
  ghost predicate IsSimple(p: Prompt, r: map<string, nat>)
  {
    && p.workflow.Keys == {"3", "4", "5", "6", "7", "8", "9"}
    && r.Keys == {"3", "4", "5", "6", "7", "8", "9"}
    && p.workflow["3"] == Node3 && p.workflow["4"] == Node4 && p.workflow["5"] == Node5
    && p.workflow["6"] == Node6 && p.workflow["7"] == Node7 && p.workflow["8"] == Node8
    && p.workflow["9"] == Node9
    && r["4"] == 0 && r["5"] == 0 && r["6"] == 1 && r["7"] == 1 && r["3"] == 2 && r["8"] == 3 && r["9"] == 4
  }

  lemma SimpleIsSimple()
    ensures IsSimple(SimplePrompt(), SimpleRank())
  {
  }

  lemma SimpleNextSampler()
    ensures Next(Node3) == ["6", "7", "4", "5"]
  {
  }

  lemma SimpleNextLoaders()
    ensures Next(Node4) == [] && Next(Node5) == []
  {
  }

  lemma SimpleNextEncoders()
    ensures Next(Node6) == ["4"] && Next(Node7) == ["4"]
  {
  }

  lemma SimpleNextOutputs()
    ensures Next(Node8) == ["4", "3"] && Next(Node9) == ["8"]
  {
  }

  lemma SimpleNext()
    ensures Next(Node3) == ["6", "7", "4", "5"] && Next(Node4) == [] && Next(Node5) == []
    ensures Next(Node6) == ["4"] && Next(Node7) == ["4"] && Next(Node8) == ["4", "3"] && Next(Node9) == ["8"]
  {
    SimpleNextSampler();
    SimpleNextLoaders();
    SimpleNextEncoders();
    SimpleNextOutputs();
  }

  /** Every connection of the example names a node of lower rank. */
  lemma SimpleWalkable(p: Prompt, r: map<string, nat>)
    requires IsSimple(p, r)
    ensures Walkable(p, r)
  {
    SimpleNext();
    forall id | id in p.workflow
      ensures id in r && forall k :: 0 <= k < |Next(p.workflow[id])| ==>
        Next(p.workflow[id])[k] in p.workflow && Next(p.workflow[id])[k] in r && r[Next(p.workflow[id])[k]] < r[id]
    {
      assert id in {"3", "4", "5", "6", "7", "8", "9"};
    }
  }

  /** The loaders and the text encoders. */
  lemma SimpleLowerNodes(p: Prompt, r: map<string, nat>)
    requires IsSimple(p, r) && Walkable(p, r)
    ensures WalkNodes(p, r, "4") == [Node4] && WalkNodes(p, r, "5") == [Node5]
    ensures WalkNodes(p, r, "6") == [Node6] + WalkNodes(p, r, "4")
    ensures WalkNodes(p, r, "7") == [Node7] + WalkNodes(p, r, "4")
  {
    SimpleNext();
    WalkAllNodesNone(p, r, 0);
    WalkAllNodesNone(p, r, 1);
    WalkNodesUnfold(p, r, "4");
    WalkNodesUnfold(p, r, "5");
    WalkAllNodesCons(p, r, "4", [], 1);
    assert ["4"] + [] == ["4"];
    WalkNodesUnfold(p, r, "6");
    WalkNodesUnfold(p, r, "7");
  }

  lemma SimpleSamplerTail(p: Prompt, r: map<string, nat>)
    requires IsSimple(p, r) && Walkable(p, r)
    ensures WalkAllNodes(p, r, ["4", "5"], 2) == WalkNodes(p, r, "4") + WalkNodes(p, r, "5")
  {
    var w5 := WalkNodes(p, r, "5");
    WalkAllNodesNone(p, r, 2);
    WalkAllNodesCons(p, r, "5", [], 2);
    assert ["5"] + [] == ["5"];
    assert w5 + [] == w5;
    WalkAllNodesCons(p, r, "4", ["5"], 2);
    assert ["4"] + ["5"] == ["4", "5"];
  }

  /** The KSampler "3" descends into its positive, negative, model and latent inputs in turn. */
  lemma SimpleSamplerNodes(p: Prompt, r: map<string, nat>)
    requires IsSimple(p, r) && Walkable(p, r)
    ensures WalkNodes(p, r, "3")
      == [Node3] + (WalkNodes(p, r, "6") + (WalkNodes(p, r, "7") + (WalkNodes(p, r, "4") + WalkNodes(p, r, "5"))))
  {
    SimpleNextSampler();
    SimpleSamplerTail(p, r);
    WalkAllNodesCons(p, r, "7", ["4", "5"], 2);
    assert ["7"] + ["4", "5"] == ["7", "4", "5"];
    WalkAllNodesCons(p, r, "6", ["7", "4", "5"], 2);
    assert ["6"] + ["7", "4", "5"] == ["6", "7", "4", "5"];
    WalkNodesUnfold(p, r, "3");
  }

  /** The save node "9" reaches the decoder "8", which draws on "4" before "3". */
  lemma SimpleTopNodes(p: Prompt, r: map<string, nat>)
    requires IsSimple(p, r) && Walkable(p, r)
    ensures WalkNodes(p, r, "8") == [Node8] + WalkNodes(p, r, "4") + WalkNodes(p, r, "3")
    ensures WalkNodes(p, r, "9") == [Node9] + WalkNodes(p, r, "8")
  {
    SimpleNext();
    WalkAllNodesNone(p, r, 3);
    WalkAllNodesNone(p, r, 4);
    WalkAllNodesCons(p, r, "3", [], 3);
    WalkAllNodesCons(p, r, "4", ["3"], 3);
    WalkAllNodesCons(p, r, "8", [], 4);
    assert ["3"] + [] == ["3"] && ["4"] + ["3"] == ["4", "3"] && ["8"] + [] == ["8"];
    WalkNodesUnfold(p, r, "8");
    WalkNodesUnfold(p, r, "9");
  }

  /** Observing one node, then the rest. */
  lemma CollectCons(s: Collected, n: NodeOrUnknown, ns: seq<NodeOrUnknown>)
    ensures Collect(s, [n] + ns) == Collect(Observe(s, n), ns)
  {
    assert ([n] + ns)[0] == n && ([n] + ns)[1..] == ns;
  }

  lemma CollectOne(s: Collected, n: NodeOrUnknown)
    ensures Collect(s, [n]) == Observe(s, n)
  {
    assert [n][1..] == [];
  }

  /** What the visitor holds after the loaders and encoders, from any starting fields. */
  lemma SimpleLowerCollect(p: Prompt, r: map<string, nat>, s: Collected)
    requires IsSimple(p, r) && Walkable(p, r)
    ensures Collect(s, WalkNodes(p, r, "4")) == Observe(s, Node4)
    ensures Collect(s, WalkNodes(p, r, "5")) == Observe(s, Node5)
    ensures Collect(s, WalkNodes(p, r, "6")) == Observe(Observe(s, Node6), Node4)
    ensures Collect(s, WalkNodes(p, r, "7")) == Observe(Observe(s, Node7), Node4)
  {
    SimpleLowerNodes(p, r);
    CollectOne(s, Node4);
    CollectOne(s, Node5);
    CollectCons(s, Node6, [Node4]);
    CollectCons(s, Node7, [Node4]);
    CollectOne(Observe(s, Node6), Node4);
    CollectOne(Observe(s, Node7), Node4);
  }

  /** What each example node records. */
  lemma SimpleObserve(s: Collected)
    ensures Observe(s, Node3) == s.(seed := Some(18566256))
    ensures Observe(s, Node4) == s.(model := Some("sd\\sd_xl_base_1.0.safetensors"))
    ensures Observe(s, Node5) == s.(width := Some(1024), height := Some(1024))
    ensures Observe(s, Node8) == s && Observe(s, Node9) == s
  {
  }

  /** The encoders fill the prompt first and then the negative prompt. */
  lemma SimpleObserveText(s: Collected)
    ensures s.promptText.None? ==> Observe(s, Node6) == s.(promptText := Some("masterpiece best quality girl"))
    ensures s.promptText.Some? && s.negativePromptText.None? ==>
      Observe(s, Node7) == s.(negativePromptText := Some("bad hands"))
  {
  }

  /** The walk from "3" records the sampler, then the walks from its four inputs in turn. */
  lemma SimpleSamplerSteps(p: Prompt, r: map<string, nat>, s: Collected)
    requires IsSimple(p, r) && Walkable(p, r)
    ensures Collect(s, WalkNodes(p, r, "3"))
      == Collect(Collect(Collect(Collect(Observe(s, Node3), WalkNodes(p, r, "6")), WalkNodes(p, r, "7")),
           WalkNodes(p, r, "4")), WalkNodes(p, r, "5"))
  {
    var w6 := WalkNodes(p, r, "6");
    var w7 := WalkNodes(p, r, "7");
    var w4 := WalkNodes(p, r, "4");
    var w5 := WalkNodes(p, r, "5");
    SimpleSamplerNodes(p, r);
    CollectCons(s, Node3, w6 + (w7 + (w4 + w5)));
    var s1 := Observe(s, Node3);
    CollectAppend(s1, w6, w7 + (w4 + w5));
    CollectAppend(Collect(s1, w6), w7, w4 + w5);
    CollectAppend(Collect(Collect(s1, w6), w7), w4, w5);
  }

  /** The walk from "3", entered with only the model known, fills in every field. */
  lemma SimpleSamplerCollect(p: Prompt, r: map<string, nat>)
    requires IsSimple(p, r) && Walkable(p, r)
    ensures Collect(Nothing.(model := Some("sd\\sd_xl_base_1.0.safetensors")), WalkNodes(p, r, "3"))
      == Collected(Some("masterpiece best quality girl"), Some("bad hands"), Some("sd\\sd_xl_base_1.0.safetensors"),
                   Some(1024), Some(1024), Some(18566256))
  {
    var s0 := Nothing.(model := Some("sd\\sd_xl_base_1.0.safetensors"));
    SimpleSamplerSteps(p, r, s0);
    SimpleObserve(s0);
    var s1 := s0.(seed := Some(18566256));
    SimpleLowerCollect(p, r, s1);
    SimpleObserveText(s1);
    var s2 := s1.(promptText := Some("masterpiece best quality girl"));
    SimpleObserve(Observe(s1, Node6));
    SimpleLowerCollect(p, r, s2);
    SimpleObserveText(s2);
    var s3 := s2.(negativePromptText := Some("bad hands"));
    SimpleObserve(Observe(s2, Node7));
    SimpleLowerCollect(p, r, s3);
    SimpleObserve(s3);
  }

  /**
   * For the example graph and output node "9", the visitor ends holding the
   * positive and negative texts, the 1024x1024 size, the checkpoint and the
   * KSampler seed.
   */
  lemma SimpleCollect(p: Prompt, r: map<string, nat>)
    requires IsSimple(p, r) && Walkable(p, r)
    ensures Collect(Nothing, WalkNodes(p, r, "9"))
      == Collected(Some("masterpiece best quality girl"), Some("bad hands"), Some("sd\\sd_xl_base_1.0.safetensors"),
                   Some(1024), Some(1024), Some(18566256))
  {
    SimpleTopNodes(p, r);
    var w8 := WalkNodes(p, r, "8");
    var w4 := WalkNodes(p, r, "4");
    var w3 := WalkNodes(p, r, "3");
    SimpleObserve(Nothing);
    CollectCons(Nothing, Node9, w8);
    assert [Node8] + w4 + w3 == [Node8] + (w4 + w3);
    CollectCons(Nothing, Node8, w4 + w3);
    CollectAppend(Nothing, w4, w3);
    SimpleLowerCollect(p, r, Nothing);
    SimpleSamplerCollect(p, r);
  }

  /** The report for output node "9" of the example graph. */
  lemma SimpleScenario()
    ensures Walkable(SimplePrompt(), SimpleRank())
    ensures InfoFrom(WalkNodes(SimplePrompt(), SimpleRank(), "9"))
      == ImageInfo("masterpiece best quality girl", "bad hands", 1024, 1024, "sd\\sd_xl_base_1.0.safetensors", 18566256)
  {
    SimpleIsSimple();
    SimpleWalkable(SimplePrompt(), SimpleRank());
    SimpleCollect(SimplePrompt(), SimpleRank());
    InfoFromCollect(WalkNodes(SimplePrompt(), SimpleRank(), "9"));
  }
}
