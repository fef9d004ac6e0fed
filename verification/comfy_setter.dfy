/**
 * Writing values into a ComfyUI workflow graph
 * (crates/comfyui-api/src/comfy/setter.rs). A setter carries one value and
 * names the class of node it writes to; `set` locates a node of that class,
 * `set_from` the node its lookup finds from an output node, `set_node` a
 * node by id, and the value goes into the setter's input slot of that node.
 *
 * How nodes are located (`guess_node_mut`, each getter's `find_node`) and
 * which slot a getter exposes (`get_value_mut`) live in code that is not
 * part of this model: the lookups are function parameters, and the slot of
 * each setter is the input its name refers to, which must hold a literal.
 */
module ComfySetter {
  import opened Common
  import opened ComfyPrompt

  /** The concrete setters, each with the value it writes. */
  datatype Setter =
    | PromptSetter(prompt: string)
    | NegativePromptSetter(negativePrompt: string)
    | ModelSetter(model: string)
    | WidthSetter(width: u32)
    | HeightSetter(height: u32)
    | SeedSetter(seed: i64)

  /**
   * The node class a setter is declared for: the `N` of its
   * `Setter<T, N>` impl, which is the primary class `KSampler` for the
   * delegating seed setter.
   */
  function TargetClass(s: Setter): (tag: string)
    ensures tag in ClassTags
    ensures s.PromptSetter? || s.NegativePromptSetter? ==> tag == "CLIPTextEncode"
    ensures s.ModelSetter? ==> tag == "CheckpointLoaderSimple"
    ensures s.WidthSetter? || s.HeightSetter? ==> tag == "EmptyLatentImage"
    ensures s.SeedSetter? ==> tag == "KSampler"
  {
    match s
    case PromptSetter(_) => ClassTags[1]
    case NegativePromptSetter(_) => ClassTags[1]
    case ModelSetter(_) => ClassTags[3]
    case WidthSetter(_) => ClassTags[2]
    case HeightSetter(_) => ClassTags[2]
    case SeedSetter(_) => ClassTags[0]
  }

  /**
   * The getter side: the value in the setter's slot of `n`, as a setter of
   * the same kind, when `n` has that slot and it holds a literal. The seed
   * setter delegates to the KSampler seed and then to the SamplerCustom
   * noise seed.
   */
  function Read(s: Setter, n: NodeOrUnknown): (r: Option<Setter>)
    ensures r.Some? ==> n.KnownNode?
    ensures r.Some? && !s.SeedSetter? ==> ClassType(n.node) == TargetClass(s)
  {
    match s
    case PromptSetter(_) =>
      if n.KnownNode? && n.node.CLIPTextEncode? && n.node.clipTextEncode.text.Value?
      then Some(PromptSetter(n.node.clipTextEncode.text.value)) else None
    case NegativePromptSetter(_) =>
      if n.KnownNode? && n.node.CLIPTextEncode? && n.node.clipTextEncode.text.Value?
      then Some(NegativePromptSetter(n.node.clipTextEncode.text.value)) else None
    case ModelSetter(_) =>
      if n.KnownNode? && n.node.CheckpointLoaderSimple? && n.node.checkpointLoaderSimple.ckptName.Value?
      then Some(ModelSetter(n.node.checkpointLoaderSimple.ckptName.value)) else None
    case WidthSetter(_) =>
      if n.KnownNode? && n.node.EmptyLatentImage? && n.node.emptyLatentImage.width.Value?
      then Some(WidthSetter(n.node.emptyLatentImage.width.value)) else None
    case HeightSetter(_) =>
      if n.KnownNode? && n.node.EmptyLatentImage? && n.node.emptyLatentImage.height.Value?
      then Some(HeightSetter(n.node.emptyLatentImage.height.value)) else None
    case SeedSetter(_) =>
      if n.KnownNode? && n.node.KSampler? then
        if n.node.kSampler.seed.Value? then Some(SeedSetter(n.node.kSampler.seed.value)) else None
      else if n.KnownNode? && n.node.SamplerCustom? && n.node.samplerCustom.noiseSeed.Value?
      then Some(SeedSetter(n.node.samplerCustom.noiseSeed.value)) else None
  }

  /**
   * `set_value` on one node: the node with the setter's value in its slot,
   * or `None` when the getter finds no slot there.
   */
  function Written(s: Setter, n: NodeOrUnknown): (r: Option<NodeOrUnknown>)
    ensures r.Some? <==> Read(s, n).Some?
    ensures r.Some? ==> Read(s, r.value) == Some(s)
    ensures r.Some? ==> r.value.KnownNode? && ClassOf(r.value) == ClassOf(n)
  {
    if Read(s, n).None? then None
    else
      match s
      case PromptSetter(v) => Some(KnownNode(CLIPTextEncode(n.node.clipTextEncode.(text := Value(v)))))
      case NegativePromptSetter(v) => Some(KnownNode(CLIPTextEncode(n.node.clipTextEncode.(text := Value(v)))))
      case ModelSetter(v) =>
        Some(KnownNode(CheckpointLoaderSimple(n.node.checkpointLoaderSimple.(ckptName := Value(v)))))
      case WidthSetter(v) => Some(KnownNode(EmptyLatentImage(n.node.emptyLatentImage.(width := Value(v)))))
      case HeightSetter(v) => Some(KnownNode(EmptyLatentImage(n.node.emptyLatentImage.(height := Value(v)))))
      case SeedSetter(v) =>
        if n.node.KSampler? then Some(KnownNode(KSampler(n.node.kSampler.(seed := Value(v)))))
        else Some(KnownNode(SamplerCustom(n.node.samplerCustom.(noiseSeed := Value(v)))))
  }

  /** Two setters of the same kind write the same slot. */
  predicate SameSlot(s: Setter, t: Setter)
  {
    && s.PromptSetter? == t.PromptSetter? && s.NegativePromptSetter? == t.NegativePromptSetter?
    && s.ModelSetter? == t.ModelSetter? && s.WidthSetter? == t.WidthSetter?
    && s.HeightSetter? == t.HeightSetter? && s.SeedSetter? == t.SeedSetter?
  }

  /** Writing the same slot again overrides the first write. */
  lemma LastWriteWins(s: Setter, t: Setter, n: NodeOrUnknown)
    requires Written(s, n).Some? && SameSlot(s, t)
    ensures Written(t, Written(s, n).value) == Written(t, n)
  {
  }

  /** The width and the height are separate slots: writing one leaves the other. */
  lemma SizeSlotsIndependent(w: u32, h: u32, n: NodeOrUnknown)
    requires Written(WidthSetter(w), n).Some?
    ensures Read(HeightSetter(h), Written(WidthSetter(w), n).value) == Read(HeightSetter(h), n)
  {
  }

  /** The message of a failed node lookup. */
  const FindFailed: string := "Failed to find node"

  /** The message of a failed downcast to the node's concrete class. */
  const CastFailed: string := "Failed to cast node"

  /** The message `get_node_mut` reports for an absent id. */
  const GetFailed: string := "failed to get node"

  /**
   * The error of `get_value_mut` when the node has no literal in the slot.
   * Its text comes from the getters, which are not part of this model.
   */
  const NoSlot: string := "no value to set"

  /**
   * `guess_node_mut::<N>(prompt, None)`: a heuristic that picks a node of
   * class `N`, given the graph and the class tag; `None` if it finds none.
   */
  type Guess = (map<string, NodeOrUnknown>, string) -> Option<string>

  /** The guess only returns nodes of the graph that have the requested class. */
  ghost predicate GuessSound(guess: Guess)
  {
    forall w, cls :: guess(w, cls).Some? ==>
      guess(w, cls).value in w && ClassOf(w[guess(w, cls).value]) == cls
  }

  /** `Getter::find_node(prompt, Some(output))` of a setter: an id, or none. */
  type FindNode = (Setter, map<string, NodeOrUnknown>, string) -> Option<string>

  /**
   * A closure passed to `set_with`: it edits the node in place and returns
   * a result. Both the edited node and the result are returned, since an
   * edit made before an error stays in place.
   */
  type Edit = NodeOrUnknown -> (NodeOrUnknown, Result<()>)

  /** The `Prompt` being edited through `&mut self`. */
  class EditablePrompt {
    var workflow: map<string, NodeOrUnknown>

    constructor (prompt: Prompt)
      ensures workflow == prompt.workflow
    {
      workflow := prompt.workflow;
    }

    /**
     * `set_value` on the node `id`: writes the setter's value into its slot,
     * or fails without changing the graph when the node has none.
     */
    method SetValue(s: Setter, id: string) returns (r: Result<()>)
      requires id in workflow
      modifies this
      ensures Written(s, old(workflow)[id]).None? ==> r == Err(NoSlot) && workflow == old(workflow)
      ensures Written(s, old(workflow)[id]).Some? ==>
        r == Ok(()) && workflow == old(workflow)[id := Written(s, old(workflow)[id]).value]
    {
      var written := Written(s, workflow[id]);
      if written.None? {
        return Err(NoSlot);
      }
      workflow := workflow[id := written.value];
      return Ok(());
    }

    /**
     * `Setter::set`: writes into the node the guess picks for the setter's
     * class, or fails with "Failed to find node" and leaves the graph as it
     * was.
     */
    method Set(s: Setter, guess: Guess) returns (r: Result<()>)
      requires GuessSound(guess)
      modifies this
      ensures var g := guess(old(workflow), TargetClass(s));
        && (g.None? ==> r == Err(FindFailed) && workflow == old(workflow))
        && (g.Some? && Written(s, old(workflow)[g.value]).None? ==> r == Err(NoSlot) && workflow == old(workflow))
        && (g.Some? && Written(s, old(workflow)[g.value]).Some? ==>
              r == Ok(()) && workflow == old(workflow)[g.value := Written(s, old(workflow)[g.value]).value])
    {
      var g := guess(workflow, TargetClass(s));
      if g.None? {
        return Err(FindFailed);
      }
      r := SetValue(s, g.value);
    }

    /**
     * `Setter::set_from`: writes into the node the setter's lookup finds
     * from `output`; fails with "Failed to find node" when it finds none or
     * names an absent id.
     */
    method SetFrom(s: Setter, findNode: FindNode, output: string) returns (r: Result<()>)
      modifies this
      ensures var f := findNode(s, old(workflow), output);
        && (f.None? || f.value !in old(workflow) ==> r == Err(FindFailed) && workflow == old(workflow))
        && (f.Some? && f.value in old(workflow) && Written(s, old(workflow)[f.value]).None? ==>
              r == Err(NoSlot) && workflow == old(workflow))
        && (f.Some? && f.value in old(workflow) && Written(s, old(workflow)[f.value]).Some? ==>
              r == Ok(()) && workflow == old(workflow)[f.value := Written(s, old(workflow)[f.value]).value])
    {
      var f := findNode(s, workflow, output);
      if f.None? || f.value !in workflow {
        return Err(FindFailed);
      }
      r := SetValue(s, f.value);
    }

    /** `Setter::set_node`: the id must name a node (the lookup is unwrapped). */
    method SetNode(s: Setter, id: string) returns (r: Result<()>)
      requires id in workflow
      modifies this
      ensures Written(s, old(workflow)[id]).None? ==> r == Err(NoSlot) && workflow == old(workflow)
      ensures Written(s, old(workflow)[id]).Some? ==>
        r == Ok(()) && workflow == old(workflow)[id := Written(s, old(workflow)[id]).value]
    {
      r := SetValue(s, id);
    }

    /**
     * `SetExt::set_with`: applies the closure to the node the guess picks
     * for class `cls`, which must be a known node; fails with "Failed to
     * find node" when there is none.
     */
    method SetWith(cls: string, guess: Guess, f: Edit) returns (r: Result<()>)
      requires GuessSound(guess)
      modifies this
      ensures var g := guess(old(workflow), cls);
        && (g.None? ==> r == Err(FindFailed) && workflow == old(workflow))
        && (g.Some? && old(workflow)[g.value].UnknownNode? ==> r == Err(CastFailed) && workflow == old(workflow))
        && (g.Some? && old(workflow)[g.value].KnownNode? ==>
              r == f(old(workflow)[g.value]).1 && workflow == old(workflow)[g.value := f(old(workflow)[g.value]).0])
    {
      var g := guess(workflow, cls);
      if g.None? {
        return Err(FindFailed);
      }
      var node := workflow[g.value];
      if node.UnknownNode? {
        return Err(CastFailed);
      }
      var (edited, result) := f(node);
      workflow := workflow[g.value := edited];
      r := result;
    }

    /**
     * `SetExt::set_node_with`: applies the closure to node `id` when it
     * exists and has class `cls`.
     */
    method SetNodeWith(cls: string, id: string, f: Edit) returns (r: Result<()>)
      modifies this
      ensures id !in old(workflow) ==> r == Err(GetFailed) && workflow == old(workflow)
      ensures id in old(workflow) && ClassOf(old(workflow)[id]) != cls ==> r == Err(CastFailed) && workflow == old(workflow)
      ensures id in old(workflow) && old(workflow)[id].UnknownNode? ==> r == Err(CastFailed) && workflow == old(workflow)
      ensures id in old(workflow) && old(workflow)[id].KnownNode? && ClassOf(old(workflow)[id]) == cls ==>
        r == f(old(workflow)[id]).1 && workflow == old(workflow)[id := f(old(workflow)[id]).0]
    {
      if id !in workflow {
        return Err(GetFailed);
      }
      var node := workflow[id];
      if node.UnknownNode? || ClassOf(node) != cls {
        return Err(CastFailed);
      }
      var (edited, result) := f(node);
      workflow := workflow[id := edited];
      r := result;
    }
  }

  /**
   * `set` never writes into a node of another class: whatever it changes
   * is a node of the setter's class, which keeps its class.
   */
  lemma SetTargetsClass(s: Setter, guess: Guess, w: map<string, NodeOrUnknown>)
    requires GuessSound(guess)
    requires guess(w, TargetClass(s)).Some? && Written(s, w[guess(w, TargetClass(s)).value]).Some?
    ensures var id := guess(w, TargetClass(s)).value;
      ClassOf(w[id]) == TargetClass(s) && ClassOf(Written(s, w[id]).value) == TargetClass(s)
  {
  }
}
