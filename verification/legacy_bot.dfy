/**
 * The dialogue state and the update routing of the first version of the
 * bot (src/bot/mod.rs): which endpoint of the dispatch tree an update
 * reaches, given the stored state and the allowed users.
 */
module LegacyBot {
  import opened Common
  import opened Text
  import LegacyTxt2Img
  import LegacyImg2Img

  /** The per-chat dialogue state of this version. */
  datatype State =
    | Ready(txt2img: LegacyTxt2Img.Txt2ImgRequest, img2img: LegacyImg2Img.Img2ImgRequest)
    | Next

  /** `State::default()`: ready, with two empty requests. */
  function DefaultState(): (s: State)
    ensures s.Ready?
    ensures forall f :: LegacyTxt2Img.Get(s.txt2img, f) == None
    ensures forall f :: LegacyImg2Img.Get(s.img2img, f) == None
  {
    Ready(LegacyTxt2Img.Default(), LegacyImg2Img.Default())
  }

  /** The part of `ConfigParameters` the routing reads: the allowed user ids. */
  datatype Config = Config(allowedUsers: set<u64>)

  /**
   * `auth_filter`: the message's sender is an allowed user; a message
   * without a sender is rejected.
   */
  predicate AuthFilter(cfg: Config, from: Option<u64>)
  {
    match from
    case Some(user) => user in cfg.allowedUsers
    case None => false
  }

  /** The filter passes exactly when the message has a sender and that sender is allowed. */
  lemma AuthFilterIff(cfg: Config, from: Option<u64>)
    ensures AuthFilter(cfg, from) <==> exists user :: from == Some(user) && user in cfg.allowedUsers
  {
    if AuthFilter(cfg, from) {
      assert from == Some(from.value) && from.value in cfg.allowedUsers;
    }
  }

  /**
   * What a text message parses as: `/help` of the unauthenticated
   * commands, or `/set <value>` of the authenticated ones.
   */
  datatype Command = Help | Set(value: u64)

  /** The content of a message; a text carries what it parses as, if it is a command. */
  datatype Body =
    | PhotoBody
    | TextBody(text: string, command: Option<Command>)
    | OtherBody

  datatype Update =
    | MessageUpdate(from: Option<u64>, body: Body)
    | CallbackUpdate(data: Option<string>)
    | OtherUpdate

  /** The endpoint an update is dispatched to. */
  datatype Endpoint =
    | HelpEndpoint           // unauthenticated_commands_handler
    | SetEndpoint(value: u64)
    | ImageEndpoint          // handle_image
    | PromptEndpoint         // handle_prompt
    | RerunEndpoint          // handle_rerun
    | Unhandled              // the default handler

  predicate IsCommand(u: Update, c: Command)
  {
    u.MessageUpdate? && u.body.TextBody? && u.body.command == Some(c)
  }

  /**
   * `schema()`: messages try the unauthenticated commands, then the
   * authenticated command, then (for allowed senders) photos and texts in a
   * `Ready` state; callback queries whose data starts with "rerun" go to
   * `handle_rerun` in a `Ready` state, without the sender check.
   */
  function Route(cfg: Config, state: State, u: Update): (e: Endpoint)
    ensures e == HelpEndpoint <==> IsCommand(u, Help)
    ensures e.SetEndpoint? ==> IsCommand(u, Set(e.value)) && AuthFilter(cfg, u.from)
    ensures e.SetEndpoint? <==>
      exists v :: IsCommand(u, Set(v)) && AuthFilter(cfg, u.from)
    ensures e == ImageEndpoint <==>
      u.MessageUpdate? && u.body.PhotoBody? && AuthFilter(cfg, u.from) && state.Ready?
    ensures e == PromptEndpoint <==>
      u.MessageUpdate? && u.body.TextBody? && u.body.command.None? && AuthFilter(cfg, u.from) && state.Ready?
    ensures e == RerunEndpoint <==>
      u.CallbackUpdate? && u.data.Some? && StartsWith(u.data.value, "rerun") && state.Ready?
  {
    match u
    case MessageUpdate(from, body) =>
      if body.TextBody? && body.command == Some(Help) then HelpEndpoint
      else if !AuthFilter(cfg, from) then Unhandled
      else if body.TextBody? && body.command.Some? then SetEndpoint(body.command.value.value)
      else if body.PhotoBody? && state.Ready? then ImageEndpoint
      else if body.TextBody? && state.Ready? then PromptEndpoint
      else Unhandled
    case CallbackUpdate(data) =>
      if data.Some? && StartsWith(data.value, "rerun") && state.Ready? then RerunEndpoint else Unhandled
    case OtherUpdate => Unhandled
  }

  /** A message from a sender who is not allowed can only reach `/help`. */
  lemma UnauthorisedOnlyHelp(cfg: Config, state: State, from: Option<u64>, body: Body)
    requires !AuthFilter(cfg, from)
    ensures Route(cfg, state, MessageUpdate(from, body)) in {HelpEndpoint, Unhandled}
  {
  }

  /** In the `Next` state nothing is generated: no image, prompt or rerun endpoint is reached. */
  lemma NextNeverGenerates(cfg: Config, u: Update)
    ensures Route(cfg, Next, u) !in {ImageEndpoint, PromptEndpoint, RerunEndpoint}
  {
  }

  /** Callback queries are not checked against the allowed users. */
  lemma CallbacksIgnoreUsers(cfg1: Config, cfg2: Config, state: State, data: Option<string>)
    ensures Route(cfg1, state, CallbackUpdate(data)) == Route(cfg2, state, CallbackUpdate(data))
  {
  }

  /** A command text is never taken for a prompt. */
  lemma CommandIsNoPrompt(cfg: Config, state: State, from: Option<u64>, text: string, c: Command)
    ensures Route(cfg, state, MessageUpdate(from, TextBody(text, Some(c)))) != PromptEndpoint
  {
  }

  /** The reply of `/set`: the value in decimal. */
  function SetReply(value: u64): (text: string)
    ensures Magnitude(text) == Some(value as nat)
  {
    NatDigitsValue(value);
    FormatInt(value)
  }
}
