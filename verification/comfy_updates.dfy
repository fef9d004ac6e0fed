/**
 * How `Comfy` turns the websocket updates of one prompt into generated
 * images (crates/comfyui-api/src/comfy/mod.rs): `filter_update` keeps the
 * updates that matter, `stream_prompt` fetches the images of each executed
 * node and, at completion, those of the nodes it has not reported yet, and
 * `execute_prompt` collects everything or stops at the first error.
 *
 * The websocket is an explicit list of messages, the history lookup and
 * the image download are function parameters.
 */
module ComfyUpdates {
  import opened Common

  /** `Image`: where ComfyUI stored a generated file. */
  datatype Image = Image(filename: string, subfolder: string, folderType: string)

  /**
   * The websocket `Update`s, as this file reads them. The payloads of an
   * interruption or an execution error are kept as their `Debug` text.
   */
  datatype Update =
    | Status
    | Progress
    | ExecutionStart
    | Executing(promptId: Option<string>, node: Option<string>)
    | Executed(executedNode: string, images: seq<Image>)
    | ExecutionCached
    | ExecutionInterrupted(interrupted: string)
    | ExecutionError(error: string)

  /** An output of the history entry: images, or something else (kept as JSON). */
  datatype NodeOutputOrUnknown = NodeOutput(outputImages: seq<Image>) | Unknown(json: JsonValue)

  /**
   * A history lookup: the outputs of a finished prompt by node id, listed
   * in the iteration order of the history's `HashMap`.
   */
  type History = string -> seq<(string, NodeOutputOrUnknown)>

  /** An image download: the file's bytes or the error it failed with. */
  type Fetch = Image -> Result<seq<u8>>

  /** One item of the image stream: the node id and the bytes of one of its images. */
  type Item = Result<(string, seq<u8>)>

  /** `State`: one node's images, or completion with the images of every node. */
  datatype State =
    | Running(node: string, nodeImages: seq<Image>)
    | Finished(outputs: seq<(string, seq<Image>)>)

  /** The outputs that are images, with their node ids, in order; the others are skipped. */
  function ImageOutputs(outputs: seq<(string, NodeOutputOrUnknown)>): (r: seq<(string, seq<Image>)>)
    ensures |r| <= |outputs|
    ensures forall k :: 0 <= k < |r| ==>
      exists j :: 0 <= j < |outputs| && outputs[j] == (r[k].0, NodeOutput(r[k].1))
    decreases |outputs|
  {
    if |outputs| == 0 then []
    else
      var rest := ImageOutputs(outputs[1..]);
      assert forall j :: 0 <= j < |outputs[1..]| ==> outputs[1..][j] == outputs[j + 1];
      match outputs[0].1
      case NodeOutput(images) => [(outputs[0].0, images)] + rest
      case Unknown(_) => rest
  }

  /** No image output is skipped. */
  lemma {:induction false} ImageOutputsComplete(outputs: seq<(string, NodeOutputOrUnknown)>, j: nat)
    requires j < |outputs| && outputs[j].1.NodeOutput?
    ensures (outputs[j].0, outputs[j].1.outputImages) in ImageOutputs(outputs)
    decreases |outputs|
  {
    if j > 0 {
      ImageOutputsComplete(outputs[1..], j - 1);
    }
  }

  /**
   * `filter_update`: completion (an `Executing` update naming no node, for
   * a known prompt id) fetches the prompt's outputs from the history; an
   * executed node reports its images; an interruption or an execution error
   * is an error; everything else is dropped. Completion is not checked
   * against the prompt that was submitted.
   */
  function FilterUpdate(u: Update, history: History): (r: Result<Option<State>>)
    ensures r.Err? <==> u.ExecutionInterrupted? || u.ExecutionError?
    ensures u.ExecutionInterrupted? ==> r == Err("Execution interrupted: " + u.interrupted)
    ensures u.ExecutionError? ==> r == Err("Execution error: " + u.error)
    ensures u.Executed? ==> r == Ok(Some(Running(u.executedNode, u.images)))
    ensures (r.Ok? && r.value.Some? && r.value.value.Finished?)
      <==> (u.Executing? && u.node.None? && u.promptId.Some?)
    ensures u.Executing? && u.node.None? && u.promptId.Some? ==>
      r == Ok(Some(Finished(ImageOutputs(history(u.promptId.value)))))
    ensures r == Ok(None) <==>
      !(u.Executed? || u.ExecutionInterrupted? || u.ExecutionError? || (u.Executing? && u.node.None? && u.promptId.Some?))
  {
    match u
    case Executing(promptId, node) =>
      if node.None? && promptId.Some? then Ok(Some(Finished(ImageOutputs(history(promptId.value)))))
      else Ok(None)
    case Executed(node, images) => Ok(Some(Running(node, images)))
    case ExecutionInterrupted(data) => Err("Execution interrupted: " + data)
    case ExecutionError(data) => Err("Execution error: " + data)
    case _ => Ok(None)
  }

  /**
   * The `filter_map` closure of `prompt_impl` for one websocket message: a
   * transport error becomes an error item, a filtered-out update no item.
   */
  function PromptState(m: Result<Update>, history: History): (r: seq<Result<State>>)
    ensures |r| <= 1
    ensures m.Err? ==> r == [Err("Error occurred: " + m.msg)]
    ensures m.Ok? ==> (r == [] <==> FilterUpdate(m.value, history) == Ok(None))
    ensures m.Ok? && |r| == 1 ==>
      (r[0].Ok? <==> FilterUpdate(m.value, history).Ok?)
      && (r[0].Ok? ==> FilterUpdate(m.value, history) == Ok(Some(r[0].value)))
      && (r[0].Err? ==> FilterUpdate(m.value, history) == Err(r[0].msg))
  {
    match m
    case Err(e) => [Err("Error occurred: " + e)]
    case Ok(u) =>
      match FilterUpdate(u, history)
      case Ok(Some(s)) => [Ok(s)]
      case Ok(None) => []
      case Err(e) => [Err(e)]
  }

  /** The stream `prompt_impl` returns, for the websocket messages `msgs`. */
  function PromptStates(msgs: seq<Result<Update>>, history: History): (r: seq<Result<State>>)
    ensures |r| <= |msgs|
    decreases |msgs|
  {
    if |msgs| == 0 then [] else PromptState(msgs[0], history) + PromptStates(msgs[1..], history)
  }

  /** The stream of a longer message list extends the stream of its prefix. */
  lemma {:induction false} PromptStatesAppend(a: seq<Result<Update>>, b: seq<Result<Update>>, history: History)
    ensures PromptStates(a + b, history) == PromptStates(a, history) + PromptStates(b, history)
    decreases |a|
  {
    if |a| == 0 {
      assert a + b == b;
    } else {
      assert (a + b)[0] == a[0];
      assert (a + b)[1..] == a[1..] + b;
      PromptStatesAppend(a[1..], b, history);
    }
  }

  /** Status, progress, start and cache updates produce nothing. */
  lemma {:induction false} PromptStatesQuiet(msgs: seq<Result<Update>>, history: History)
    requires forall k :: 0 <= k < |msgs| ==>
      msgs[k].Ok? && (msgs[k].value.Status? || msgs[k].value.Progress? || msgs[k].value.ExecutionStart? || msgs[k].value.ExecutionCached?)
    ensures PromptStates(msgs, history) == []
    decreases |msgs|
  {
    if |msgs| > 0 {
      PromptStatesQuiet(msgs[1..], history);
    }
  }

  /** A download result as a stream item for `node`. */
  function Tag(node: string, fetched: Result<seq<u8>>): (r: Item)
    ensures r.Ok? <==> fetched.Ok?
    ensures r.Ok? ==> r.value == (node, fetched.value)
    ensures r.Err? ==> r.msg == fetched.msg
  {
    match fetched
    case Ok(bytes) => Ok((node, bytes))
    case Err(e) => Err(e)
  }

  /** The stream ended with an error. */
  predicate Failed(items: seq<Item>)
  {
    |items| > 0 && items[|items| - 1].Err?
  }

  /**
   * `for await image in fut { yield Ok((node.clone(), image?)) }`: the
   * downloads of `images` in order, up to and including the first failure,
   * which ends the stream.
   */
  function Fetched(node: string, images: seq<Image>, fetch: Fetch): (r: seq<Item>)
    ensures |r| <= |images|
    decreases |images|
  {
    if |images| == 0 then []
    else
      match fetch(images[0])
      case Err(e) => [Err(e)]
      case Ok(bytes) => [Ok((node, bytes))] + Fetched(node, images[1..], fetch)
  }

  /**
   * Item `k` is the download of image `k`; every item but the last
   * succeeded; and the stream stops early only after a failure.
   */
  lemma {:induction false} FetchedItems(node: string, images: seq<Image>, fetch: Fetch)
    ensures forall k :: 0 <= k < |Fetched(node, images, fetch)| ==> Fetched(node, images, fetch)[k] == Tag(node, fetch(images[k]))
    ensures forall k :: 0 <= k < |Fetched(node, images, fetch)| - 1 ==> Fetched(node, images, fetch)[k].Ok?
    ensures |Fetched(node, images, fetch)| == |images| || Failed(Fetched(node, images, fetch))
    decreases |images|
  {
    if |images| > 0 && fetch(images[0]).Ok? {
      FetchedItems(node, images[1..], fetch);
      var rest := Fetched(node, images[1..], fetch);
      var r := Fetched(node, images, fetch);
      assert r == [Ok((node, fetch(images[0]).value))] + rest;
      forall k | 1 <= k < |r|
        ensures r[k] == rest[k - 1] && images[k] == images[1..][k - 1]
      {
      }
    }
  }

  /** `Fetched` yields one item per image exactly when every download succeeds. */
  lemma FetchedAll(node: string, images: seq<Image>, fetch: Fetch)
    ensures !Failed(Fetched(node, images, fetch)) <==> forall k :: 0 <= k < |images| ==> fetch(images[k]).Ok?
  {
    var r := Fetched(node, images, fetch);
    FetchedItems(node, images, fetch);
    if !Failed(r) {
      assert |r| == |images|;
      forall k | 0 <= k < |images|
        ensures fetch(images[k]).Ok?
      {
        assert r[k] == Tag(node, fetch(images[k]));
      }
    } else {
      assert r[|r| - 1] == Tag(node, fetch(images[|r| - 1]));
    }
  }

  /**
   * The completion branch of `stream_prompt`: the images of each output
   * node not in `executed`, in order, until a download fails.
   */
  function FinishedItems(outputs: seq<(string, seq<Image>)>, executed: set<string>, fetch: Fetch): seq<Item>
    decreases |outputs|
  {
    if |outputs| == 0 then []
    else if outputs[0].0 in executed then FinishedItems(outputs[1..], executed, fetch)
    else
      var f := Fetched(outputs[0].0, outputs[0].1, fetch);
      if Failed(f) then f else f + FinishedItems(outputs[1..], executed, fetch)
  }

  /**
   * Completion yields nothing for a node already reported, and an error
   * only as its last item.
   */
  lemma {:induction false} FinishedItemsSkip(outputs: seq<(string, seq<Image>)>, executed: set<string>, fetch: Fetch)
    ensures forall k :: 0 <= k < |FinishedItems(outputs, executed, fetch)| ==>
      FinishedItems(outputs, executed, fetch)[k].Ok? ==> FinishedItems(outputs, executed, fetch)[k].value.0 !in executed
    ensures forall k :: 0 <= k < |FinishedItems(outputs, executed, fetch)| - 1 ==> FinishedItems(outputs, executed, fetch)[k].Ok?
    decreases |outputs|
  {
    if |outputs| > 0 {
      var r := FinishedItems(outputs, executed, fetch);
      var rest := FinishedItems(outputs[1..], executed, fetch);
      FinishedItemsSkip(outputs[1..], executed, fetch);
      if outputs[0].0 in executed {
        assert r == rest;
      } else {
        var f := Fetched(outputs[0].0, outputs[0].1, fetch);
        FetchedItems(outputs[0].0, outputs[0].1, fetch);
        forall k | 0 <= k < |f|
          ensures f[k].Ok? ==> f[k].value.0 == outputs[0].0
        {
          assert f[k] == Tag(outputs[0].0, fetch(outputs[0].1[k]));
        }
        if Failed(f) {
          assert r == f;
        } else {
          assert r == f + rest;
          ConcatItems(f, rest);
        }
      }
    }
  }

  /** Item `k` of a concatenation, and where its errors can be. */
  lemma ConcatItems(f: seq<Item>, rest: seq<Item>)
    requires !Failed(f) && forall k :: 0 <= k < |f| - 1 ==> f[k].Ok?
    requires forall k :: 0 <= k < |rest| - 1 ==> rest[k].Ok?
    ensures forall k :: 0 <= k < |f + rest| ==> (f + rest)[k] == if k < |f| then f[k] else rest[k - |f|]
    ensures forall k :: 0 <= k < |f + rest| - 1 ==> (f + rest)[k].Ok?
    ensures Failed(f + rest) <==> Failed(rest)
  {
  }

  /**
   * The stream `stream_prompt` yields after the states `states`, when the
   * nodes in `executed` have already been reported: each executed node's
   * images as they arrive, then at completion the images of the nodes not
   * yet reported, and then nothing more. An error is yielded and ends the
   * stream.
   */
  function Stream(states: seq<Result<State>>, executed: set<string>, fetch: Fetch): seq<Item>
    decreases |states|
  {
    if |states| == 0 then []
    else
      match states[0]
      case Err(e) => [Err(e)]
      case Ok(Running(node, images)) =>
        var f := Fetched(node, images, fetch);
        if Failed(f) then f else f + Stream(states[1..], executed + {node}, fetch)
      case Ok(Finished(outputs)) => FinishedItems(outputs, executed, fetch)
  }

  /** The stream yields an error only as its last item. */
  lemma {:induction false} StreamErrorLast(states: seq<Result<State>>, executed: set<string>, fetch: Fetch)
    ensures forall k :: 0 <= k < |Stream(states, executed, fetch)| - 1 ==> Stream(states, executed, fetch)[k].Ok?
    decreases |states|
  {
    if |states| > 0 {
      match states[0]
      case Err(_) =>
      case Ok(Running(node, images)) =>
        var f := Fetched(node, images, fetch);
        FetchedItems(node, images, fetch);
        if !Failed(f) {
          var rest := Stream(states[1..], executed + {node}, fetch);
          StreamErrorLast(states[1..], executed + {node}, fetch);
          assert Stream(states, executed, fetch) == f + rest;
          ConcatItems(f, rest);
        }
      case Ok(Finished(outputs)) =>
        FinishedItemsSkip(outputs, executed, fetch);
    }
  }

  /** A state that ends the stream: an error or completion. */
  predicate Ends(s: Result<State>)
  {
    s.Err? || s.value.Finished?
  }

  /** Nothing after completion or an error is looked at. */
  lemma {:induction false} StreamStops(a: seq<Result<State>>, b: seq<Result<State>>, executed: set<string>, fetch: Fetch)
    requires exists k :: 0 <= k < |a| && Ends(a[k])
    ensures Stream(a + b, executed, fetch) == Stream(a, executed, fetch)
    decreases |a|
  {
    assert (a + b)[0] == a[0];
    assert (a + b)[1..] == a[1..] + b;
    if !Ends(a[0]) {
      var k :| 0 <= k < |a| && Ends(a[k]);
      assert a[1..][k - 1] == a[k];
      forall ex: set<string> ensures Stream(a[1..] + b, ex, fetch) == Stream(a[1..], ex, fetch) {
        StreamStops(a[1..], b, ex, fetch);
      }
    }
  }

  /** The ids of the nodes the `Running` states among `states` report. */
  function RunningNodes(states: seq<Result<State>>): (r: set<string>)
    ensures forall k :: 0 <= k < |states| ==> states[k].Ok? && states[k].value.Running? ==> states[k].value.node in r
    decreases |states|
  {
    if |states| == 0 then {}
    else
      var rest := RunningNodes(states[1..]);
      assert forall k :: 1 <= k < |states| ==> states[k] == states[1..][k - 1];
      if states[0].Ok? && states[0].value.Running? then {states[0].value.node} + rest else rest
  }

  /**
   * De-duplication: when completion follows node reports that all arrived,
   * it yields only the images of the output nodes not reported before, so
   * no node's images are yielded twice.
   */
  lemma {:induction false} StreamThenFinished(states: seq<Result<State>>, executed: set<string>,
                                              outputs: seq<(string, seq<Image>)>, fetch: Fetch)
    requires forall k :: 0 <= k < |states| ==> states[k].Ok? && states[k].value.Running?
    requires !Failed(Stream(states, executed, fetch))
    ensures Stream(states + [Ok(Finished(outputs))], executed, fetch)
      == Stream(states, executed, fetch) + FinishedItems(outputs, executed + RunningNodes(states), fetch)
    decreases |states|
  {
    var tail := [Ok(Finished(outputs))];
    if |states| == 0 {
      assert states + tail == tail;
      assert Stream(states, executed, fetch) == [];
      assert RunningNodes(states) == {};
      assert executed + RunningNodes(states) == executed;
    } else {
      assert (states + tail)[0] == states[0];
      assert (states + tail)[1..] == states[1..] + tail;
      var node := states[0].value.node;
      var f := Fetched(node, states[0].value.nodeImages, fetch);
      var rest := Stream(states[1..], executed + {node}, fetch);
      assert !Failed(f);
      assert Stream(states, executed, fetch) == f + rest;
      FetchedItems(node, states[0].value.nodeImages, fetch);
      StreamErrorLast(states[1..], executed + {node}, fetch);
      ConcatItems(f, rest);
      StreamThenFinished(states[1..], executed + {node}, outputs, fetch);
      assert executed + {node} + RunningNodes(states[1..]) == executed + RunningNodes(states);
    }
  }

  /**
   * The `for await image in fut` loop: downloads `images` in order and
   * yields each, stopping after the first failure.
   */
  method FetchEach(node: string, images: seq<Image>, fetch: Fetch) returns (items: seq<Item>, failed: bool)
    ensures items == Fetched(node, images, fetch)
    ensures failed == Failed(items)
  {
    items := [];
    failed := false;
    var j := 0;
    while j < |images| && !failed
      invariant 0 <= j <= |images|
      invariant !failed ==> items + Fetched(node, images[j..], fetch) == Fetched(node, images, fetch)
      invariant !failed ==> !Failed(items)
      invariant failed ==> items == Fetched(node, images, fetch) && Failed(items)
      decreases |images| - j
    {
      assert images[j..][0] == images[j];
      assert images[j..][1..] == images[j + 1..];
      match fetch(images[j]) {
        case Err(e) =>
          items := items + [Err(e)];
          failed := true;
        case Ok(bytes) =>
          items := items + [Ok((node, bytes))];
      }
      j := j + 1;
    }
    if !failed {
      assert images[j..] == [];
    }
  }

  /** One step of `FinishedItems`. */
  lemma FinishedItemsCons(outputs: seq<(string, seq<Image>)>, executed: set<string>, fetch: Fetch)
    requires |outputs| > 0
    ensures outputs[0].0 in executed ==> FinishedItems(outputs, executed, fetch) == FinishedItems(outputs[1..], executed, fetch)
    ensures outputs[0].0 !in executed && Failed(Fetched(outputs[0].0, outputs[0].1, fetch)) ==>
      FinishedItems(outputs, executed, fetch) == Fetched(outputs[0].0, outputs[0].1, fetch)
    ensures outputs[0].0 !in executed && !Failed(Fetched(outputs[0].0, outputs[0].1, fetch)) ==>
      FinishedItems(outputs, executed, fetch)
      == Fetched(outputs[0].0, outputs[0].1, fetch) + FinishedItems(outputs[1..], executed, fetch)
  {
  }

  /** The completion branch: every output node not yet reported, in order. */
  method YieldFinished(outputs: seq<(string, seq<Image>)>, executed: set<string>, fetch: Fetch) returns (items: seq<Item>)
    ensures items == FinishedItems(outputs, executed, fetch)
  {
    items := [];
    var i := 0;
    var failed := false;
    while i < |outputs| && !failed
      invariant 0 <= i <= |outputs|
      invariant !failed ==> items + FinishedItems(outputs[i..], executed, fetch) == FinishedItems(outputs, executed, fetch)
      invariant failed ==> items == FinishedItems(outputs, executed, fetch)
      decreases |outputs| - i
    {
      assert outputs[i..][0] == outputs[i];
      assert outputs[i..][1..] == outputs[i + 1..];
      FinishedItemsCons(outputs[i..], executed, fetch);
      var (node, images) := outputs[i];
      if node !in executed {
        var f, stop := FetchEach(node, images, fetch);
        items := items + f;
        failed := stop;
      }
      i := i + 1;
    }
    if !failed {
      assert outputs[i..] == [];
    }
  }

  /**
   * `stream_prompt` over the states `prompt_impl` produced: every item it
   * yields, in order.
   */
  method StreamPrompt(states: seq<Result<State>>, fetch: Fetch) returns (items: seq<Item>)
    ensures items == Stream(states, {}, fetch)
  {
    var executed: set<string> := {};
    items := [];
    var i := 0;
    var done := false;
    while i < |states| && !done
      invariant 0 <= i <= |states|
      invariant !done ==> items + Stream(states[i..], executed, fetch) == Stream(states, {}, fetch)
      invariant done ==> items == Stream(states, {}, fetch)
      decreases |states| - i
    {
      StreamStep(states, i, executed, fetch);
      ghost var before := items;
      match states[i] {
        case Err(e) =>
          items := items + [Err(e)];
          done := true;
        case Ok(Running(node, images)) =>
          var f, failed := FetchEach(node, images, fetch);
          items := items + f;
          done := failed;
          executed := executed + {node};
          if !failed {
            ConcatAssoc(before, f, Stream(states[i + 1..], executed, fetch));
          }
        case Ok(Finished(outputs)) =>
          var f := YieldFinished(outputs, executed, fetch);
          items := items + f;
          done := true;
      }
      i := i + 1;
    }
    if !done {
      assert states[i..] == [];
    }
  }

  lemma ConcatAssoc(a: seq<Item>, b: seq<Item>, c: seq<Item>)
    ensures (a + b) + c == a + (b + c)
  {
  }

  /** The stream after state `i`, in terms of the stream after state `i + 1`. */
  lemma StreamStep(states: seq<Result<State>>, i: nat, executed: set<string>, fetch: Fetch)
    requires i < |states|
    ensures states[i].Err? ==> Stream(states[i..], executed, fetch) == [Err(states[i].msg)]
    ensures states[i].Ok? && states[i].value.Finished? ==>
      Stream(states[i..], executed, fetch) == FinishedItems(states[i].value.outputs, executed, fetch)
    ensures states[i].Ok? && states[i].value.Running? ==>
      var f := Fetched(states[i].value.node, states[i].value.nodeImages, fetch);
      Stream(states[i..], executed, fetch)
        == if Failed(f) then f else f + Stream(states[i + 1..], executed + {states[i].value.node}, fetch)
  {
    assert states[i..][0] == states[i];
    assert states[i..][1..] == states[i + 1..];
  }

  /**
   * `execute_prompt`: all items of the image stream, in order, or the
   * first error. Because the stream yields an error only as its last item,
   * the call fails exactly when the stream ended with an error.
   */
  method ExecutePrompt(msgs: seq<Result<Update>>, history: History, fetch: Fetch) returns (r: Result<seq<(string, seq<u8>)>>)
    ensures var s := Stream(PromptStates(msgs, history), {}, fetch);
      && (r.Err? <==> Failed(s))
      && (r.Err? ==> r.msg == s[|s| - 1].msg)
      && (r.Ok? ==> |r.value| == |s| && forall k :: 0 <= k < |s| ==> s[k] == Ok(r.value[k]))
  {
    var stream := StreamPrompt(PromptStates(msgs, history), fetch);
    StreamErrorLast(PromptStates(msgs, history), {}, fetch);
    assert forall k :: 0 <= k < |stream| - 1 ==> stream[k].Ok?;
    var images := [];
    var i := 0;
    while i < |stream|
      invariant 0 <= i <= |stream|
      invariant |images| == i && forall k :: 0 <= k < i ==> stream[k] == Ok(images[k])
    {
      match stream[i] {
        case Ok(image) =>
          images := images + [image];
        case Err(e) =>
          assert i == |stream| - 1;
          return Err(e);
      }
      i := i + 1;
    }
    assert !Failed(stream);
    return Ok(images);
  }
}
