/**
 * The ComfyUI workflow graph (crates/comfyui-api/src/models/prompt.rs): a
 * prompt is a finite map from node id to a node, which is either one of the
 * known node classes or a generic node (class tag plus named inputs). Node
 * inputs are either literal values or connections to an output of another
 * node; slots that are typed as connections cannot hold literals.
 */
module ComfyPrompt {
  import opened Common

  /** A link to output `outputIndex` of node `nodeId`. */
  datatype NodeConnection = NodeConnection(nodeId: string, outputIndex: u32)

  /** `From<(String, u32)> for NodeConnection`. */
  function FromPair(p: (string, u32)): (c: NodeConnection)
    ensures c.nodeId == p.0 && c.outputIndex == p.1
  {
    NodeConnection(p.0, p.1)
  }

  /** `From<NodeConnection> for (String, u32)`: the inverse of `FromPair`. */
  function ToPair(c: NodeConnection): (p: (string, u32))
    ensures FromPair(p) == c
  {
    (c.nodeId, c.outputIndex)
  }

  /** Converting a pair to a connection and back gives the pair. */
  lemma PairRoundTrip(p: (string, u32))
    ensures ToPair(FromPair(p)) == p
  {
  }

  /** `Input<T>`: a connection to another node's output, or a literal widget value. */
  datatype Input<T> = Connection(connection: NodeConnection) | Value(value: T)

  /** The literal held by an input, if it holds one. */
  function Literal<T>(i: Input<T>): (r: Option<T>)
    ensures r.Some? <==> i.Value?
    ensures i.Value? ==> r.value == i.value
  {
    match i
    case Connection(_) => None
    case Value(v) => Some(v)
  }

  datatype KSamplerInputs = KSamplerInputs(
    cfg: Input<Float>,
    denoise: Input<Float>,
    samplerName: Input<string>,
    scheduler: Input<string>,
    seed: Input<i64>,
    steps: Input<i32>,
    positive: NodeConnection,
    negative: NodeConnection,
    model: NodeConnection,
    latentImage: NodeConnection)

  datatype CLIPTextEncodeInputs = CLIPTextEncodeInputs(text: Input<string>, clip: NodeConnection)

  datatype EmptyLatentImageInputs = EmptyLatentImageInputs(
    batchSize: Input<u32>,
    width: Input<u32>,
    height: Input<u32>)

  datatype CheckpointLoaderSimpleInputs = CheckpointLoaderSimpleInputs(ckptName: Input<string>)

  datatype VAELoaderInputs = VAELoaderInputs(vaeName: Input<string>)

  datatype VAEDecodeInputs = VAEDecodeInputs(samples: NodeConnection, vae: NodeConnection)

  datatype PreviewImageInputs = PreviewImageInputs(images: NodeConnection)

  datatype KSamplerSelectInputs = KSamplerSelectInputs(samplerName: Input<string>)

  datatype SamplerCustomInputs = SamplerCustomInputs(
    addNoise: Input<bool>,
    cfg: Input<Float>,
    noiseSeed: Input<i64>,
    latentImage: NodeConnection,
    model: NodeConnection,
    positive: NodeConnection,
    negative: NodeConnection,
    sampler: NodeConnection,
    sigmas: NodeConnection)

  datatype SDTurboSchedulerInputs = SDTurboSchedulerInputs(steps: Input<u32>, model: NodeConnection)

  datatype ImageOnlyCheckpointLoaderInputs = ImageOnlyCheckpointLoaderInputs(ckptName: Input<string>)

  /** `file_to_upload` is the input serialised as "choose file to upload". */
  datatype LoadImageInputs = LoadImageInputs(fileToUpload: Input<string>, image: Input<string>)

  datatype SVDimg2vidConditioningInputs = SVDimg2vidConditioningInputs(
    augmentationLevel: Input<Float>,
    fps: Input<u32>,
    width: Input<u32>,
    height: Input<u32>,
    motionBucketId: Input<u32>,
    videoFrames: Input<u32>,
    clipVision: NodeConnection,
    initImage: NodeConnection,
    vae: NodeConnection)

  datatype VideoLinearCFGGuidanceInputs = VideoLinearCFGGuidanceInputs(minCfg: Input<Float>, model: NodeConnection)

  /** `encodingMethod` is the Rust field `method` (a Dafny keyword). */
  datatype SaveAnimatedWEBPInputs = SaveAnimatedWEBPInputs(
    filenamePrefix: Input<string>,
    fps: Input<u32>,
    lossless: Input<bool>,
    encodingMethod: Input<string>,
    quality: Input<u32>,
    images: NodeConnection)

  datatype LoraLoaderInputs = LoraLoaderInputs(
    loraName: Input<string>,
    strengthModel: Input<Float>,
    strengthClip: Input<Float>,
    model: NodeConnection,
    clip: NodeConnection)

  datatype ModelSamplingDiscreteInputs = ModelSamplingDiscreteInputs(
    sampling: Input<string>,
    zsnr: Input<bool>,
    model: NodeConnection)

  datatype SaveImageInputs = SaveImageInputs(filenamePrefix: Input<string>, images: NodeConnection)

  /** The known node classes, each with its typed inputs. */
  datatype Node =
    | KSampler(kSampler: KSamplerInputs)
    | CLIPTextEncode(clipTextEncode: CLIPTextEncodeInputs)
    | EmptyLatentImage(emptyLatentImage: EmptyLatentImageInputs)
    | CheckpointLoaderSimple(checkpointLoaderSimple: CheckpointLoaderSimpleInputs)
    | VAELoader(vaeLoader: VAELoaderInputs)
    | VAEDecode(vaeDecode: VAEDecodeInputs)
    | PreviewImage(previewImage: PreviewImageInputs)
    | KSamplerSelect(kSamplerSelect: KSamplerSelectInputs)
    | SamplerCustom(samplerCustom: SamplerCustomInputs)
    | SDTurboScheduler(sdTurboScheduler: SDTurboSchedulerInputs)
    | ImageOnlyCheckpointLoader(imageOnlyCheckpointLoader: ImageOnlyCheckpointLoaderInputs)
    | LoadImage(loadImage: LoadImageInputs)
    | SVDimg2vidConditioning(svdImg2vidConditioning: SVDimg2vidConditioningInputs)
    | VideoLinearCFGGuidance(videoLinearCfgGuidance: VideoLinearCFGGuidanceInputs)
    | SaveAnimatedWEBP(saveAnimatedWebp: SaveAnimatedWEBPInputs)
    | LoraLoader(loraLoader: LoraLoaderInputs)
    | ModelSamplingDiscrete(modelSamplingDiscrete: ModelSamplingDiscreteInputs)
    | SaveImage(saveImage: SaveImageInputs)

  /** An input of a generic node: exactly one of bool, int, float, string or connection. */
  datatype GenericValue =
    | BoolValue(b: bool)
    | IntValue(i: i64)
    | FloatValue(x: Float)
    | StringValue(s: string)
    | ConnectionValue(c: NodeConnection)

  /**
   * A node of a class the model does not know. Its inputs are a `HashMap`;
   * the sequence lists them in that map's iteration order, which the walk
   * over the node follows.
   */
  datatype GenericNode = GenericNode(classType: string, inputs: seq<(string, GenericValue)>)

  datatype NodeOrUnknown = KnownNode(node: Node) | UnknownNode(generic: GenericNode)

  /** `Prompt`: the workflow graph, indexed by node id. */
  datatype Prompt = Prompt(workflow: map<string, NodeOrUnknown>)

  /** The position of a node's variant in the `Node` enum. */
  function VariantIndex(n: Node): (k: nat)
    ensures k < 18
  {
    match n
    case KSampler(_) => 0
    case CLIPTextEncode(_) => 1
    case EmptyLatentImage(_) => 2
    case CheckpointLoaderSimple(_) => 3
    case VAELoader(_) => 4
    case VAEDecode(_) => 5
    case PreviewImage(_) => 6
    case KSamplerSelect(_) => 7
    case SamplerCustom(_) => 8
    case SDTurboScheduler(_) => 9
    case ImageOnlyCheckpointLoader(_) => 10
    case LoadImage(_) => 11
    case SVDimg2vidConditioning(_) => 12
    case VideoLinearCFGGuidance(_) => 13
    case SaveAnimatedWEBP(_) => 14
    case LoraLoader(_) => 15
    case ModelSamplingDiscrete(_) => 16
    case SaveImage(_) => 17
  }

  /** The tags of the `Node` variants, in declaration order. */
  const ClassTags: seq<string> := [
    "KSampler", "CLIPTextEncode", "EmptyLatentImage", "CheckpointLoaderSimple",
    "VAELoader", "VAEDecode", "PreviewImage", "KSamplerSelect", "SamplerCustom",
    "SDTurboScheduler", "ImageOnlyCheckpointLoader", "LoadImage",
    "SVD_img2vid_Conditioning", "VideoLinearCFGGuidance", "SaveAnimatedWEBP",
    "LoraLoader", "ModelSamplingDiscrete", "SaveImage"]

  /**
   * The `class_type` tag a known node is serialised with: its variant name,
   * except that SVDimg2vidConditioning is renamed.
   */
  function ClassType(n: Node): (tag: string)
    ensures tag == ClassTags[VariantIndex(n)]
    ensures n.SVDimg2vidConditioning? <==> tag == "SVD_img2vid_Conditioning"
  {
    match n
    case KSampler(_) => "KSampler"
    case CLIPTextEncode(_) => "CLIPTextEncode"
    case EmptyLatentImage(_) => "EmptyLatentImage"
    case CheckpointLoaderSimple(_) => "CheckpointLoaderSimple"
    case VAELoader(_) => "VAELoader"
    case VAEDecode(_) => "VAEDecode"
    case PreviewImage(_) => "PreviewImage"
    case KSamplerSelect(_) => "KSamplerSelect"
    case SamplerCustom(_) => "SamplerCustom"
    case SDTurboScheduler(_) => "SDTurboScheduler"
    case ImageOnlyCheckpointLoader(_) => "ImageOnlyCheckpointLoader"
    case LoadImage(_) => "LoadImage"
    case SVDimg2vidConditioning(_) => "SVD_img2vid_Conditioning"
    case VideoLinearCFGGuidance(_) => "VideoLinearCFGGuidance"
    case SaveAnimatedWEBP(_) => "SaveAnimatedWEBP"
    case LoraLoader(_) => "LoraLoader"
    case ModelSamplingDiscrete(_) => "ModelSamplingDiscrete"
    case SaveImage(_) => "SaveImage"
  }

  /** The class tag of any node of the graph. */
  function ClassOf(n: NodeOrUnknown): (tag: string)
    ensures n.KnownNode? ==> tag == ClassType(n.node)
    ensures n.UnknownNode? ==> tag == n.generic.classType
  {
    match n
    case KnownNode(k) => ClassType(k)
    case UnknownNode(g) => g.classType
  }

  /** The eighteen tags are pairwise distinct. */
  lemma {:induction false} ClassTagsDistinct(i: nat, j: nat)
    requires i < |ClassTags| && j < |ClassTags|
    ensures ClassTags[i] == ClassTags[j] <==> i == j
  {
    if i != j {
      assert |ClassTags[i]| != |ClassTags[j]| || ClassTags[i][0] != ClassTags[j][0]
        || ClassTags[i][1] != ClassTags[j][1] || ClassTags[i][2] != ClassTags[j][2]
        || ClassTags[i][|ClassTags[i]| - 1] != ClassTags[j][|ClassTags[j]| - 1]
        || ClassTags[i][3] != ClassTags[j][3];
    }
  }

  /** Two known nodes carry the same class tag exactly when they are the same variant. */
  lemma ClassTypeDistinct(a: Node, b: Node)
    ensures ClassType(a) == ClassType(b) <==> VariantIndex(a) == VariantIndex(b)
  {
    ClassTagsDistinct(VariantIndex(a), VariantIndex(b));
  }
}
