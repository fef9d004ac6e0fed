/**
 * The dialogue state of the backend-neutral bot and its command handlers
 * (crates/stable-diffusion-bot/src/bot/handlers/mod.rs). The dialogue holds
 * two boxed `GenParams`; each is represented by what its getters report
 * (`SalParams.ParamValues`).
 */
module BotHandlers {
  import opened Common
  import opened SalParams

  /** Where a chat is in the settings dialogue; the selection is the setting awaiting a value. */
  datatype BotState =
    | Generate
    | SettingsTxt2Img(selection: Option<string>)
    | SettingsImg2Img(selection: Option<string>)

  /** `BotState::default()`. */
  const DefaultBotState: BotState := Generate

  /** The per-chat dialogue state of this version: not started, or ready with both parameter sets. */
  datatype State =
    | New
    | Ready(botState: BotState, txt2img: ParamValues, img2img: ParamValues)

  /**
   * The configuration the handlers read: the ids `chat_is_allowed`
   * accepts, and what `gen_params` of each API returns.
   */
  datatype Config = Config(allowed: set<int>, txt2imgParams: ParamValues, img2imgParams: ParamValues)

  /** `State::new_with_defaults` for this version of the state. */
  function NewWithDefaults(txt2img: ParamValues, img2img: ParamValues): (s: State)
    ensures s.Ready? && s.botState == DefaultBotState && s.txt2img == txt2img && s.img2img == img2img
  {
    Ready(DefaultBotState, txt2img, img2img)
  }

  /** `filter_map_bot_state` (mod.rs:79-84). */
  function FilterMapBotState(s: State): (r: Option<BotState>)
    ensures r.Some? <==> s.Ready?
    ensures r.Some? ==> r.value == s.botState
  {
    match s
    case Ready(b, _, _) => Some(b)
    case New => None
  }

  /** `filter_map_settings` (mod.rs:86-93). */
  function FilterMapSettings(s: State): (r: Option<(ParamValues, ParamValues)>)
    ensures r.Some? <==> s.Ready?
    ensures r.Some? ==> r.value == (s.txt2img, s.img2img)
  {
    match s
    case Ready(_, t, i) => Some((t, i))
    case New => None
  }

  /** The two filters accept the same states, and together they recover a `Ready` state. */
  lemma FiltersSplitReady(s: State)
    ensures FilterMapBotState(s).Some? <==> FilterMapSettings(s).Some?
    ensures FilterMapBotState(s).Some? ==>
      s == Ready(FilterMapBotState(s).value, FilterMapSettings(s).value.0, FilterMapSettings(s).value.1)
  {
  }

  /**
   * `auth_filter` (mod.rs:95-105): the update's chat is allowed or its
   * user is; a side the update lacks does not count.
   */
  predicate AuthFilter(cfg: Config, chat: Option<int>, user: Option<int>)
  {
    (chat.Some? && chat.value in cfg.allowed) || (user.Some? && user.value in cfg.allowed)
  }

  /** An update passes exactly when one of the ids it carries is allowed. */
  lemma AuthFilterIff(cfg: Config, chat: Option<int>, user: Option<int>)
    ensures AuthFilter(cfg, chat, user) <==> exists id :: id in cfg.allowed && (chat == Some(id) || user == Some(id))
    ensures chat.None? && user.None? ==> !AuthFilter(cfg, chat, user)
  {
    if AuthFilter(cfg, chat, user) {
      var id := if chat.Some? && chat.value in cfg.allowed then chat.value else user.value;
      assert id in cfg.allowed && (chat == Some(id) || user == Some(id));
    }
  }

  /** The kind of chat a command arrives in. */
  datatype ChatKind = Private | Group | Supergroup | Channel

  /** Which command descriptions `/help` lists. */
  datatype HelpText =
    | AllCommands       // the simple, settings and generation commands
    | UsernameCommands  // the simple commands, qualified with the bot's username
    | SimpleCommands    // the simple commands

  /** The commands available before authentication. */
  datatype Command = HelpCommand | StartCommand | SettingsCommand

  const StartReply := "This bot generates images using stable diffusion! Enter a prompt to get started!"
  const SettingsReply := "Sorry, not yet implemented."

  /** What a command replies. */
  datatype Reply = HelpReply(help: HelpText) | TextReply(text: string)

  /**
   * `unauthenticated_commands_handler` (mod.rs:30-76): the reply and the
   * new dialogue state. `/help` reads the sender only when the chat is not
   * allowed, and unwraps it there, so a sender is then required.
   */
  function HandleCommand(cfg: Config, cmd: Command, state: State, chat: int, sender: Option<int>,
                         kind: ChatKind): (r: (State, Reply))
    requires cmd == HelpCommand && chat !in cfg.allowed ==> sender.Some?
    ensures cmd == StartCommand ==> r.0 == Ready(DefaultBotState, cfg.txt2imgParams, cfg.img2imgParams)
    ensures cmd != StartCommand ==> r.0 == state
    ensures cmd == StartCommand ==> r.1 == TextReply(StartReply)
    ensures cmd == SettingsCommand ==> r.1 == TextReply(SettingsReply)
    ensures cmd == HelpCommand ==> r.1.HelpReply?
    ensures cmd == HelpCommand && (chat in cfg.allowed || sender.value in cfg.allowed) ==> r.1 == HelpReply(AllCommands)
    ensures cmd == HelpCommand && !(chat in cfg.allowed || sender.value in cfg.allowed) ==>
      r.1 == HelpReply(if kind == Group || kind == Supergroup then UsernameCommands else SimpleCommands)
  {
    match cmd
    case HelpCommand =>
      var help :=
        if chat in cfg.allowed || sender.value in cfg.allowed then AllCommands
        else if kind == Group || kind == Supergroup then UsernameCommands
        else SimpleCommands;
      (state, HelpReply(help))
    case StartCommand => (Ready(DefaultBotState, cfg.txt2imgParams, cfg.img2imgParams), TextReply(StartReply))
    case SettingsCommand => (state, TextReply(SettingsReply))
  }

  /** `/start` forgets any earlier dialogue: the outcome does not depend on the old state. */
  lemma StartResets(cfg: Config, s1: State, s2: State, chat: int, sender: Option<int>, kind: ChatKind)
    ensures HandleCommand(cfg, StartCommand, s1, chat, sender, kind) == HandleCommand(cfg, StartCommand, s2, chat, sender, kind)
    ensures FilterMapBotState(HandleCommand(cfg, StartCommand, s1, chat, sender, kind).0) == Some(Generate)
  {
  }

  /** A sender allowed in its own right sees every command list, in any chat. */
  lemma AllowedSenderSeesAll(cfg: Config, state: State, chat: int, sender: int, kind: ChatKind)
    requires sender in cfg.allowed
    ensures HandleCommand(cfg, HelpCommand, state, chat, Some(sender), kind).1 == HelpReply(AllCommands)
  {
  }
}
