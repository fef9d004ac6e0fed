/**
 * The older `Comfy::execute_prompt` (crates/comfyui-api/src/comfy.rs): it
 * reads the websocket updates until the prompt completes, then downloads
 * every image the history lists for it. Interruption, an execution error
 * or a transport error ends the call with an error.
 *
 * The websocket is an explicit list of messages; the history lookup and
 * the image download are function parameters.
 */
module ComfyExecute {
  import opened Common

  /** `Image`: where ComfyUI stored a generated file. */
  datatype Image = Image(filename: string, subfolder: string, folderType: string)

  /**
   * The websocket `Update`s as this file reads them: `Executing` always
   * carries a prompt id. Interruption and error payloads are kept as their
   * `Debug` text.
   */
  datatype Update =
    | Status
    | Progress
    | ExecutionStart
    | Executing(promptId: string, node: Option<string>)
    | Executed(executedNode: string, images: seq<Image>)
    | ExecutionCached
    | ExecutionInterrupted(interrupted: string)
    | ExecutionError(error: string)

  /** An output of the history entry: images, or something else (kept as JSON). */
  datatype NodeOutputOrUnknown = NodeOutput(outputImages: seq<Image>) | Unknown(json: JsonValue)

  /**
   * A history lookup: the outputs of a prompt, in the iteration order of
   * the history's `HashMap`, or the error the request failed with.
   */
  type History = string -> Result<seq<NodeOutputOrUnknown>>

  /** An image download: the file's bytes or the error it failed with. */
  type Fetch = Image -> Result<seq<u8>>

  /** The error `try_fold` reports for a failed download. */
  const FetchFailed: string := "Failed to get image"

  /** The images of every image output, flattened in order; other outputs are skipped. */
  function FlatImages(outputs: seq<NodeOutputOrUnknown>): (r: seq<Image>)
    ensures forall x :: x in r ==> exists o :: o in outputs && o.NodeOutput? && x in o.outputImages
    decreases |outputs|
  {
    if |outputs| == 0 then []
    else
      var rest := FlatImages(outputs[1..]);
      assert forall o :: o in outputs[1..] ==> o in outputs;
      match outputs[0]
      case NodeOutput(images) => images + rest
      case Unknown(_) => rest
  }

  /** Every image of every image output is fetched. */
  lemma {:induction false} FlatImagesComplete(outputs: seq<NodeOutputOrUnknown>, j: nat, image: Image)
    requires j < |outputs| && outputs[j].NodeOutput? && image in outputs[j].outputImages
    ensures image in FlatImages(outputs)
    decreases |outputs|
  {
    if j > 0 {
      FlatImagesComplete(outputs[1..], j - 1, image);
    }
  }

  /** Flattening two lists of outputs is flattening each. */
  lemma {:induction false} FlatImagesAppend(a: seq<NodeOutputOrUnknown>, b: seq<NodeOutputOrUnknown>)
    ensures FlatImages(a + b) == FlatImages(a) + FlatImages(b)
    decreases |a|
  {
    if |a| == 0 {
      assert a + b == b;
    } else {
      assert (a + b)[0] == a[0];
      assert (a + b)[1..] == a[1..] + b;
      FlatImagesAppend(a[1..], b);
    }
  }

  /** What downloading `images` gives: every file in order, or the download error. */
  function FetchResult(images: seq<Image>, fetch: Fetch): (r: Result<seq<seq<u8>>>)
    ensures r.Ok? <==> forall k :: 0 <= k < |images| ==> fetch(images[k]).Ok?
    ensures r.Ok? ==> |r.value| == |images| && forall k :: 0 <= k < |images| ==> r.value[k] == fetch(images[k]).value
    ensures r.Err? ==> r.msg == FetchFailed
  {
    if forall k :: 0 <= k < |images| ==> fetch(images[k]).Ok?
    then Ok(seq(|images|, k requires 0 <= k < |images| => fetch(images[k]).value))
    else Err(FetchFailed)
  }

  /**
   * The `join_all(...).try_fold(...)` of the completion branch: every
   * download is awaited, then the files are pushed in order and the first
   * failure replaces the result by an error.
   */
  method FetchAll(images: seq<Image>, fetch: Fetch) returns (r: Result<seq<seq<u8>>>)
    ensures r == FetchResult(images, fetch)
  {
    var acc: seq<seq<u8>> := [];
    var i := 0;
    while i < |images|
      invariant 0 <= i <= |images|
      invariant |acc| == i && forall k :: 0 <= k < i ==> fetch(images[k]).Ok? && acc[k] == fetch(images[k]).value
    {
      match fetch(images[i]) {
        case Err(_) =>
          return Err(FetchFailed);
        case Ok(bytes) =>
          acc := acc + [bytes];
      }
      i := i + 1;
    }
    assert acc == seq(|images|, k requires 0 <= k < |images| => fetch(images[k]).value);
    return Ok(acc);
  }

  /** The updates the loop passes over. */
  predicate Ignored(u: Update)
  {
    u.Status? || u.Progress? || u.ExecutionStart? || u.ExecutionCached? || u.Executed?
    || (u.Executing? && u.node.Some?)
  }

  /** What `execute_prompt` returns for the websocket messages `msgs`. */
  function Outcome(msgs: seq<Result<Update>>, history: History, fetch: Fetch): Result<seq<seq<u8>>>
    decreases |msgs|
  {
    if |msgs| == 0 then Ok([])
    else
      match msgs[0]
      case Err(e) => Err("Error occurred: " + e)
      case Ok(u) =>
        match u
        case Executing(promptId, None) =>
          (match history(promptId)
           case Err(e) => Err(e)
           case Ok(outputs) => FetchResult(FlatImages(outputs), fetch))
        case ExecutionInterrupted(data) => Err("Execution interrupted: " + data)
        case ExecutionError(data) => Err("Execution error: " + data)
        case _ => Outcome(msgs[1..], history, fetch)
  }

  /**
   * `Comfy::execute_prompt` over the messages that arrive after the prompt
   * was submitted.
   */
  method ExecutePrompt(msgs: seq<Result<Update>>, history: History, fetch: Fetch) returns (r: Result<seq<seq<u8>>>)
    ensures r == Outcome(msgs, history, fetch)
  {
    var i := 0;
    while i < |msgs|
      invariant 0 <= i <= |msgs|
      invariant Outcome(msgs[i..], history, fetch) == Outcome(msgs, history, fetch)
    {
      assert msgs[i..][0] == msgs[i];
      assert msgs[i..][1..] == msgs[i + 1..];
      match msgs[i] {
        case Err(e) =>
          return Err("Error occurred: " + e);
        case Ok(u) =>
          match u {
            case Executing(promptId, node) =>
              if node.None? {
                var task := history(promptId);
                if task.Err? {
                  return Err(task.msg);
                }
                r := FetchAll(FlatImages(task.value), fetch);
                return;
              }
            case ExecutionInterrupted(data) =>
              return Err("Execution interrupted: " + data);
            case ExecutionError(data) =>
              return Err("Execution error: " + data);
            case _ =>
          }
      }
      i := i + 1;
    }
    assert msgs[i..] == [];
    return Ok([]);
  }

  /** Updates the loop passes over do not change the result. */
  lemma {:induction false} OutcomeSkips(a: seq<Result<Update>>, b: seq<Result<Update>>, history: History, fetch: Fetch)
    requires forall k :: 0 <= k < |a| ==> a[k].Ok? && Ignored(a[k].value)
    ensures Outcome(a + b, history, fetch) == Outcome(b, history, fetch)
    decreases |a|
  {
    if |a| == 0 {
      assert a + b == b;
    } else {
      assert (a + b)[0] == a[0];
      assert (a + b)[1..] == a[1..] + b;
      OutcomeSkips(a[1..], b, history, fetch);
    }
  }

  /** A stream that ends without completion, interruption or error gives no images. */
  lemma OutcomeNoCompletion(msgs: seq<Result<Update>>, history: History, fetch: Fetch)
    requires forall k :: 0 <= k < |msgs| ==> msgs[k].Ok? && Ignored(msgs[k].value)
    ensures Outcome(msgs, history, fetch) == Ok([])
  {
    OutcomeSkips(msgs, [], history, fetch);
    assert msgs + [] == msgs;
  }

  /**
   * At the first completion the result is the download of every image the
   * history lists for that prompt; later messages are never read.
   */
  lemma OutcomeCompletion(a: seq<Result<Update>>, promptId: string, b: seq<Result<Update>>,
                          history: History, fetch: Fetch)
    requires forall k :: 0 <= k < |a| ==> a[k].Ok? && Ignored(a[k].value)
    ensures Outcome(a + [Ok(Executing(promptId, None))] + b, history, fetch)
      == match history(promptId)
         case Err(e) => Err(e)
         case Ok(outputs) => FetchResult(FlatImages(outputs), fetch)
  {
    assert a + [Ok(Executing(promptId, None))] + b == a + ([Ok(Executing(promptId, None))] + b);
    OutcomeSkips(a, [Ok(Executing(promptId, None))] + b, history, fetch);
  }

  /** Interruption or an execution error before completion fails the call with its payload. */
  lemma OutcomeFailure(a: seq<Result<Update>>, u: Update, b: seq<Result<Update>>, history: History, fetch: Fetch)
    requires forall k :: 0 <= k < |a| ==> a[k].Ok? && Ignored(a[k].value)
    requires u.ExecutionInterrupted? || u.ExecutionError?
    ensures u.ExecutionInterrupted? ==> Outcome(a + [Ok(u)] + b, history, fetch) == Err("Execution interrupted: " + u.interrupted)
    ensures u.ExecutionError? ==> Outcome(a + [Ok(u)] + b, history, fetch) == Err("Execution error: " + u.error)
  {
    assert a + [Ok(u)] + b == a + ([Ok(u)] + b);
    OutcomeSkips(a, [Ok(u)] + b, history, fetch);
  }
}
