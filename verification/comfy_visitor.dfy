/**
 * The default traversal of the workflow graph
 * (crates/comfyui-api/src/comfy/visitor.rs). Starting from one node, the
 * walk visits the node, then, in a fixed order per node class, every input
 * that is a connection, recursing into the connected node. A literal input
 * ends its branch. There is no visited set, so a node reachable along two
 * paths is walked twice, and a cycle would never terminate: the walk is
 * defined for graphs that carry a rank which every connection decreases.
 *
 * A visitor that overrides some `visit_*` methods and then calls the
 * matching `walk_*` sees the nodes in the order listed by `Walk`.
 */
module ComfyVisitor {
  import opened Common
  import opened ComfyPrompt

  /** `walk_input`: a connection is followed, a literal value ends the branch. */
  function InputTarget<T>(i: Input<T>): (r: seq<string>)
    ensures |r| <= 1
    ensures r == [] <==> i.Value?
    ensures i.Connection? ==> r == [i.connection.nodeId]
  {
    match i
    case Connection(c) => [c.nodeId]
    case Value(_) => []
  }

  /** `walk_generic_node`: the connection-valued inputs, in the map's iteration order. */
  function GenericTargets(inputs: seq<(string, GenericValue)>): (r: seq<string>)
    ensures |r| <= |inputs|
    ensures forall k :: 0 <= k < |r| ==> exists j :: 0 <= j < |inputs| && inputs[j].1.ConnectionValue? && inputs[j].1.c.nodeId == r[k]
  {
    if |inputs| == 0 then []
    else
      var rest := GenericTargets(inputs[1..]);
      assert forall j :: 0 <= j < |inputs[1..]| ==> inputs[1..][j] == inputs[j + 1];
      match inputs[0].1
      case ConnectionValue(c) => [c.nodeId] + rest
      case _ => rest
  }

  /** Every connection-valued input of a generic node is followed; literals are not. */
  lemma {:induction false} GenericTargetsComplete(inputs: seq<(string, GenericValue)>, j: nat)
    requires j < |inputs| && inputs[j].1.ConnectionValue?
    ensures inputs[j].1.c.nodeId in GenericTargets(inputs)
  {
    if j > 0 {
      GenericTargetsComplete(inputs[1..], j - 1);
    }
  }

  /** A generic node with no connection-valued input is a leaf of the walk. */
  lemma {:induction false} GenericTargetsLiterals(inputs: seq<(string, GenericValue)>)
    requires forall j :: 0 <= j < |inputs| ==> !inputs[j].1.ConnectionValue?
    ensures GenericTargets(inputs) == []
  {
    if |inputs| > 0 {
      GenericTargetsLiterals(inputs[1..]);
    }
  }

  /**
   * `walk_node` and the per-class `walk_*`: the ids the walk descends into
   * from a known node, in visiting order.
   */
  function Targets(n: Node): (r: seq<string>)
    ensures n.EmptyLatentImage? ==> r == InputTarget(n.emptyLatentImage.width) + InputTarget(n.emptyLatentImage.height)
    ensures n.KSampler? ==> (|r| >= 4 && r[|r| - 4..] ==
      [n.kSampler.positive.nodeId, n.kSampler.negative.nodeId, n.kSampler.model.nodeId, n.kSampler.latentImage.nodeId])
    ensures n.CLIPTextEncode? ==> r == InputTarget(n.clipTextEncode.text) + [n.clipTextEncode.clip.nodeId]
    ensures n.VAEDecode? ==> r == [n.vaeDecode.vae.nodeId, n.vaeDecode.samples.nodeId]
  {
    match n
    case KSampler(k) =>
      InputTarget(k.cfg) + InputTarget(k.denoise) + InputTarget(k.samplerName) + InputTarget(k.scheduler)
        + InputTarget(k.seed) + InputTarget(k.steps) + [k.positive.nodeId, k.negative.nodeId, k.model.nodeId, k.latentImage.nodeId]
    case CLIPTextEncode(c) => InputTarget(c.text) + [c.clip.nodeId]
    case EmptyLatentImage(e) => InputTarget(e.width) + InputTarget(e.height)
    case CheckpointLoaderSimple(c) => InputTarget(c.ckptName)
    case VAELoader(v) => InputTarget(v.vaeName)
    case VAEDecode(v) => [v.vae.nodeId, v.samples.nodeId]
    case PreviewImage(v) => [v.images.nodeId]
    case KSamplerSelect(k) => InputTarget(k.samplerName)
    case SamplerCustom(s) =>
      InputTarget(s.addNoise) + InputTarget(s.cfg) + InputTarget(s.noiseSeed)
        + [s.positive.nodeId, s.negative.nodeId, s.model.nodeId, s.latentImage.nodeId, s.sampler.nodeId, s.sigmas.nodeId]
    case SDTurboScheduler(s) => InputTarget(s.steps) + [s.model.nodeId]
    case ImageOnlyCheckpointLoader(c) => InputTarget(c.ckptName)
    case LoadImage(l) => InputTarget(l.fileToUpload) + InputTarget(l.image)
    case SVDimg2vidConditioning(s) =>
      InputTarget(s.augmentationLevel) + InputTarget(s.fps) + InputTarget(s.width) + InputTarget(s.height)
        + InputTarget(s.motionBucketId) + InputTarget(s.videoFrames) + [s.clipVision.nodeId, s.initImage.nodeId, s.vae.nodeId]
    case VideoLinearCFGGuidance(v) => InputTarget(v.minCfg) + [v.model.nodeId]
    case SaveAnimatedWEBP(s) =>
      InputTarget(s.filenamePrefix) + InputTarget(s.fps) + InputTarget(s.lossless)
        + InputTarget(s.encodingMethod) + InputTarget(s.quality) + [s.images.nodeId]
    case LoraLoader(l) =>
      InputTarget(l.loraName) + InputTarget(l.strengthModel) + InputTarget(l.strengthClip) + [l.model.nodeId, l.clip.nodeId]
    case ModelSamplingDiscrete(m) => InputTarget(m.sampling) + InputTarget(m.zsnr) + [m.model.nodeId]
    case SaveImage(s) => InputTarget(s.filenamePrefix) + [s.images.nodeId]
  }

  /**
   * The walk does not follow an EmptyLatentImage's `batch_size`: a node
   * connected only there is never visited from it.
   */
  lemma BatchSizeNotFollowed(e: EmptyLatentImageInputs)
    requires e.batchSize.Connection?
    requires e.width.Connection? ==> e.width.connection.nodeId != e.batchSize.connection.nodeId
    requires e.height.Connection? ==> e.height.connection.nodeId != e.batchSize.connection.nodeId
    ensures e.batchSize.connection.nodeId !in Targets(EmptyLatentImage(e))
  {
  }

  /** A loader-type node descends only into its own inputs: with literal inputs it is a leaf. */
  lemma LoadersVisitOwnInputs(n: Node)
    requires n.CheckpointLoaderSimple? || n.VAELoader? || n.KSamplerSelect? || n.ImageOnlyCheckpointLoader? || n.LoadImage?
    ensures |Targets(n)| <= 2
    ensures n.CheckpointLoaderSimple? && n.checkpointLoaderSimple.ckptName.Value? ==> Targets(n) == []
    ensures n.VAELoader? && n.vaeLoader.vaeName.Value? ==> Targets(n) == []
    ensures n.KSamplerSelect? && n.kSamplerSelect.samplerName.Value? ==> Targets(n) == []
    ensures n.ImageOnlyCheckpointLoader? && n.imageOnlyCheckpointLoader.ckptName.Value? ==> Targets(n) == []
    ensures n.LoadImage? && n.loadImage.fileToUpload.Value? && n.loadImage.image.Value? ==> Targets(n) == []
  {
  }

  /** `walk_node_or_unknown`: known nodes go through `walk_node`, unknown ones through `walk_generic_node`. */
  function Next(n: NodeOrUnknown): (r: seq<string>)
    ensures n.KnownNode? ==> r == Targets(n.node)
    ensures n.UnknownNode? ==> r == GenericTargets(n.generic.inputs)
  {
    match n
    case KnownNode(k) => Targets(k)
    case UnknownNode(g) => GenericTargets(g.inputs)
  }

  /**
   * The graph can be walked: every id the walk descends into from a node of
   * the graph names a node of the graph (the source indexes the map and
   * aborts otherwise), of strictly lower rank (so there is no cycle).
   */
  ghost predicate Walkable(p: Prompt, rank: map<string, nat>)
  {
    forall id :: id in p.workflow ==>
      id in rank &&
      forall k :: 0 <= k < |Next(p.workflow[id])| ==>
        Next(p.workflow[id])[k] in p.workflow && Next(p.workflow[id])[k] in rank
        && rank[Next(p.workflow[id])[k]] < rank[id]
  }

  /** The ids visited by the walk started at `id`, in visiting order (pre-order). */
  function Walk(p: Prompt, ghost rank: map<string, nat>, id: string): (r: seq<string>)
    requires Walkable(p, rank) && id in p.workflow
    ensures |r| >= 1 && r[0] == id
    decreases rank[id], 1
  {
    [id] + WalkAll(p, rank, Next(p.workflow[id]), rank[id])
  }

  /** The walks from each of `ids` in turn, concatenated. */
  function WalkAll(p: Prompt, ghost rank: map<string, nat>, ids: seq<string>, ghost bound: nat): (r: seq<string>)
    requires Walkable(p, rank)
    requires forall k :: 0 <= k < |ids| ==> ids[k] in p.workflow && ids[k] in rank && rank[ids[k]] < bound
    ensures |r| >= |ids|
    decreases bound, 0, |ids|
  {
    if |ids| == 0 then []
    else Walk(p, rank, ids[0]) + WalkAll(p, rank, ids[1..], bound)
  }

  /**
   * Every id the walk reaches names a node of the graph, and every node
   * below the start has a lower rank, so the start is never revisited.
   */
  lemma {:induction false} WalkRanks(p: Prompt, rank: map<string, nat>, id: string)
    requires Walkable(p, rank) && id in p.workflow
    ensures forall k :: 0 <= k < |Walk(p, rank, id)| ==> Walk(p, rank, id)[k] in p.workflow && Walk(p, rank, id)[k] in rank
    ensures forall k :: 1 <= k < |Walk(p, rank, id)| ==> rank[Walk(p, rank, id)[k]] < rank[id]
    decreases rank[id], 1
  {
    WalkAllRanks(p, rank, Next(p.workflow[id]), rank[id]);
  }

  lemma {:induction false} WalkAllRanks(p: Prompt, rank: map<string, nat>, ids: seq<string>, bound: nat)
    requires Walkable(p, rank)
    requires forall k :: 0 <= k < |ids| ==> ids[k] in p.workflow && ids[k] in rank && rank[ids[k]] < bound
    ensures forall k :: 0 <= k < |WalkAll(p, rank, ids, bound)| ==>
      WalkAll(p, rank, ids, bound)[k] in p.workflow && WalkAll(p, rank, ids, bound)[k] in rank
      && rank[WalkAll(p, rank, ids, bound)[k]] < bound
    decreases bound, 0, |ids|
  {
    if |ids| > 0 {
      WalkRanks(p, rank, ids[0]);
      WalkAllRanks(p, rank, ids[1..], bound);
      var w := Walk(p, rank, ids[0]);
      var rest := WalkAll(p, rank, ids[1..], bound);
      assert WalkAll(p, rank, ids, bound) == w + rest;
      BelowAppend(p, rank, w, rest, bound);
    }
  }

  /** Joining two lists of ids that name nodes ranked below `bound` gives another. */
  lemma BelowAppend(p: Prompt, rank: map<string, nat>, a: seq<string>, b: seq<string>, bound: nat)
    requires forall k :: 0 <= k < |a| ==> a[k] in p.workflow && a[k] in rank && rank[a[k]] < bound
    requires forall k :: 0 <= k < |b| ==> b[k] in p.workflow && b[k] in rank && rank[b[k]] < bound
    ensures forall k :: 0 <= k < |a + b| ==> (a + b)[k] in p.workflow && (a + b)[k] in rank && rank[(a + b)[k]] < bound
  {
    forall k | 0 <= k < |a + b|
      ensures (a + b)[k] in p.workflow && (a + b)[k] in rank && rank[(a + b)[k]] < bound
    {
      if k < |a| {
        assert (a + b)[k] == a[k];
      } else {
        assert (a + b)[k] == b[k - |a|];
      }
    }
  }

  /** The nodes named by `ids`, in order. */
  function Nodes(p: Prompt, ids: seq<string>): (r: seq<NodeOrUnknown>)
    requires forall k :: 0 <= k < |ids| ==> ids[k] in p.workflow
    ensures |r| == |ids|
  {
    seq(|ids|, k requires 0 <= k < |ids| => p.workflow[ids[k]])
  }

  lemma NodesAppend(p: Prompt, a: seq<string>, b: seq<string>)
    requires forall k :: 0 <= k < |a| ==> a[k] in p.workflow
    requires forall k :: 0 <= k < |b| ==> b[k] in p.workflow
    ensures forall k :: 0 <= k < |a + b| ==> (a + b)[k] in p.workflow
    ensures Nodes(p, a + b) == Nodes(p, a) + Nodes(p, b)
  {
    assert forall k :: 0 <= k < |a + b| ==> (a + b)[k] == if k < |a| then a[k] else b[k - |a|];
  }

  /** The nodes a visitor is handed by the walk from `id`, in order. */
  function WalkNodes(p: Prompt, ghost rank: map<string, nat>, id: string): (r: seq<NodeOrUnknown>)
    requires Walkable(p, rank) && id in p.workflow
    ensures |r| >= 1 && r[0] == p.workflow[id]
  {
    WalkRanks(p, rank, id);
    Nodes(p, Walk(p, rank, id))
  }

  /** The nodes a visitor is handed by the walks from `ids`, in order. */
  function WalkAllNodes(p: Prompt, ghost rank: map<string, nat>, ids: seq<string>, ghost bound: nat): seq<NodeOrUnknown>
    requires Walkable(p, rank)
    requires forall k :: 0 <= k < |ids| ==> ids[k] in p.workflow && ids[k] in rank && rank[ids[k]] < bound
  {
    WalkAllRanks(p, rank, ids, bound);
    Nodes(p, WalkAll(p, rank, ids, bound))
  }

  /** The nodes handed over from `id`: the node itself, then those of the walks from its targets. */
  lemma WalkNodesUnfold(p: Prompt, rank: map<string, nat>, id: string)
    requires Walkable(p, rank) && id in p.workflow
    ensures WalkNodes(p, rank, id) == [p.workflow[id]] + WalkAllNodes(p, rank, Next(p.workflow[id]), rank[id])
  {
    WalkAllRanks(p, rank, Next(p.workflow[id]), rank[id]);
    NodesAppend(p, [id], WalkAll(p, rank, Next(p.workflow[id]), rank[id]));
  }

  /** The nodes handed over from `ids`: those from the first, then those from the rest. */
  lemma WalkAllNodesUnfold(p: Prompt, rank: map<string, nat>, ids: seq<string>, bound: nat)
    requires Walkable(p, rank)
    requires forall k :: 0 <= k < |ids| ==> ids[k] in p.workflow && ids[k] in rank && rank[ids[k]] < bound
    requires |ids| > 0
    ensures WalkAllNodes(p, rank, ids, bound) == WalkNodes(p, rank, ids[0]) + WalkAllNodes(p, rank, ids[1..], bound)
  {
    WalkRanks(p, rank, ids[0]);
    WalkAllRanks(p, rank, ids[1..], bound);
    NodesAppend(p, Walk(p, rank, ids[0]), WalkAll(p, rank, ids[1..], bound));
  }

  /** The walk from `ids[j]` is part of the concatenated walk. */
  lemma {:induction false} WalkAllContains(p: Prompt, rank: map<string, nat>, ids: seq<string>, bound: nat, j: nat, x: string)
    requires Walkable(p, rank)
    requires forall k :: 0 <= k < |ids| ==> ids[k] in p.workflow && ids[k] in rank && rank[ids[k]] < bound
    requires j < |ids| && x in Walk(p, rank, ids[j])
    ensures x in WalkAll(p, rank, ids, bound)
    decreases |ids|
  {
    if j > 0 {
      WalkAllContains(p, rank, ids[1..], bound, j - 1, x);
    }
  }

  /**
   * The set of visited nodes is closed under the walk's edges: whatever node
   * the walk reaches, every id that node descends into is visited too.
   */
  lemma {:induction false} WalkClosed(p: Prompt, rank: map<string, nat>, id: string, x: string, t: string)
    requires Walkable(p, rank) && id in p.workflow && x in Walk(p, rank, id)
    ensures x in p.workflow
    ensures t in Next(p.workflow[x]) ==> t in Walk(p, rank, id)
    decreases rank[id], 1
  {
    WalkRanks(p, rank, id);
    var ids := Next(p.workflow[id]);
    if x == id {
      if t in ids {
        var j :| 0 <= j < |ids| && ids[j] == t;
        WalkAllContains(p, rank, ids, rank[id], j, t);
      }
    } else {
      WalkAllClosed(p, rank, ids, rank[id], x, t);
    }
  }

  lemma {:induction false} WalkAllClosed(p: Prompt, rank: map<string, nat>, ids: seq<string>, bound: nat, x: string, t: string)
    requires Walkable(p, rank)
    requires forall k :: 0 <= k < |ids| ==> ids[k] in p.workflow && ids[k] in rank && rank[ids[k]] < bound
    requires x in WalkAll(p, rank, ids, bound)
    ensures x in p.workflow
    ensures t in Next(p.workflow[x]) ==> t in WalkAll(p, rank, ids, bound)
    decreases bound, 0, |ids|
  {
    var w := Walk(p, rank, ids[0]);
    var rest := WalkAll(p, rank, ids[1..], bound);
    assert WalkAll(p, rank, ids, bound) == w + rest;
    if x in w {
      WalkClosed(p, rank, ids[0], x, t);
    } else {
      WalkAllClosed(p, rank, ids[1..], bound, x, t);
    }
  }

  /**
   * There is no visited set: when a VAEDecode takes its vae and its samples
   * from the same node, the walk covers that node's subgraph twice.
   */
  lemma WalkedTwice(p: Prompt, rank: map<string, nat>, id: string)
    requires Walkable(p, rank) && id in p.workflow
    requires p.workflow[id].KnownNode? && p.workflow[id].node.VAEDecode?
    requires p.workflow[id].node.vaeDecode.vae.nodeId == p.workflow[id].node.vaeDecode.samples.nodeId
    ensures var c := p.workflow[id].node.vaeDecode.vae.nodeId;
      c in p.workflow && Walk(p, rank, id) == [id] + Walk(p, rank, c) + Walk(p, rank, c)
  {
    var c := p.workflow[id].node.vaeDecode.vae.nodeId;
    var ids := Next(p.workflow[id]);
    assert ids == [c, c];
    assert ids[0] == c && c in p.workflow;
    assert ids[1..] == [c];
    assert ids[1..][1..] == [];
    assert WalkAll(p, rank, ids[1..][1..], rank[id]) == [];
    assert WalkAll(p, rank, ids[1..], rank[id]) == Walk(p, rank, c);
    assert WalkAll(p, rank, ids, rank[id]) == Walk(p, rank, c) + Walk(p, rank, c);
  }

  /** A node whose inputs are all literals is walked alone. */
  lemma LeafWalk(p: Prompt, rank: map<string, nat>, id: string)
    requires Walkable(p, rank) && id in p.workflow && Next(p.workflow[id]) == []
    ensures Walk(p, rank, id) == [id]
  {
  }

  /** A node with exactly one target is followed by the walk from that target. */
  lemma ChainWalk(p: Prompt, rank: map<string, nat>, id: string, t: string)
    requires Walkable(p, rank) && id in p.workflow && Next(p.workflow[id]) == [t]
    ensures t in p.workflow && Walk(p, rank, id) == [id] + Walk(p, rank, t)
  {
    var ids := Next(p.workflow[id]);
    assert ids[0] == t && t in p.workflow;
    assert ids[1..] == [];
    assert WalkAll(p, rank, ids, rank[id]) == Walk(p, rank, t) + WalkAll(p, rank, [], rank[id]);
  }

  /** No ids, no nodes. */
  lemma WalkAllNodesNone(p: Prompt, rank: map<string, nat>, bound: nat)
    requires Walkable(p, rank)
    ensures WalkAllNodes(p, rank, [], bound) == []
  {
  }

  /** The nodes handed over from `[id] + ids`: those from `id`, then those from `ids`. */
  lemma WalkAllNodesCons(p: Prompt, rank: map<string, nat>, id: string, ids: seq<string>, bound: nat)
    requires Walkable(p, rank)
    requires id in p.workflow && id in rank && rank[id] < bound
    requires forall k :: 0 <= k < |ids| ==> ids[k] in p.workflow && ids[k] in rank && rank[ids[k]] < bound
    ensures forall k :: 0 <= k < |[id] + ids| ==> ([id] + ids)[k] in p.workflow && ([id] + ids)[k] in rank && rank[([id] + ids)[k]] < bound
    ensures WalkAllNodes(p, rank, [id] + ids, bound) == WalkNodes(p, rank, id) + WalkAllNodes(p, rank, ids, bound)
  {
    assert ([id] + ids)[1..] == ids;
    WalkAllNodesUnfold(p, rank, [id] + ids, bound);
  }
}
