/**
  The `Chat` component of the TrackStar Twitch-chat plugin. It subscribes to
  four bus topics, keeps a `Config` in memory and a copy of it in the
  plugin's key-value store, and answers one bus message at a time:

  - a configuration get or set request,
  - a track update from TrackStar, which may be announced in chat,
  - a Twitch chat message, which may be an "!id" command asking for a track,
  - a request to announce the current track.

  Each handler produces at most one reply, issues at most one track lookup
  to TrackStar and sends at most one chat message. Everything the bus, the
  store, the template renderer and the message codecs answer is a
  parameter.
 */
module TwitchChat {
  import opened Wrappers
  import opened GoStrings
  import opened GoTime
  import opened ChatCommand

  /** The template used when the configured one is blank. */
  const DefaultTemplate := "{{ .track_update.track.artist }}" + " - " + "{{ .track_update.track.title }}"

  /** The bus topics the component subscribes to, by their enum names. */
  const TopicRequest := "TRACKSTAR_TWITCH_CHAT_REQUEST"
  const TopicCommand := "TRACKSTAR_TWITCH_CHAT_COMMAND"
  const TopicTrackstarEvent := "TRACKSTAR_EVENT"
  const TopicChatEvent := "TWITCH_EVENTSUB_EVENT"

  /** The subscriptions made at startup, in order. */
  const SubscribedTopics := [TopicRequest, TopicCommand, TopicChatEvent, TopicTrackstarEvent]

  /** How long, in milliseconds, each handler waits for TrackStar's answer. */
  const ChatLookupTimeout := 5000
  const AnnounceLookupTimeout := 1000

  // ---------------------------------------------------------------------
  // Routing
  // ---------------------------------------------------------------------

  /**
    The numeric message types the routing table is keyed by. They come from
    generated protocol code, so they are a parameter here.
   */
  datatype TypeCodes = TypeCodes(
    configGet: int,
    trackAnnounce: int,
    configSet: int,
    chatMessage: int,
    trackUpdate: int)

  /** The five handlers. */
  datatype HandlerKind = GetConfig | TrackAnnounce | SetConfig | ChatMessage | TrackUpdateEvent

  /**
    The handler the routing table gives a (topic, message type) pair, if
    any: a pair is routed exactly when some handler is registered under it.
   */
  function Route(codes: TypeCodes, topic: string, mtype: int): (r: Option<HandlerKind>)
    ensures r.Some? <==> exists h :: topic == TopicOf(h) && mtype == CodeOf(codes, h)
  {
    if topic == TopicRequest && mtype == codes.configGet then
      assert CodeOf(codes, GetConfig) == mtype; Some(GetConfig)
    else if topic == TopicRequest && mtype == codes.trackAnnounce then
      assert CodeOf(codes, TrackAnnounce) == mtype; Some(TrackAnnounce)
    else if topic == TopicCommand && mtype == codes.configSet then
      assert CodeOf(codes, SetConfig) == mtype; Some(SetConfig)
    else if topic == TopicChatEvent && mtype == codes.chatMessage then
      assert CodeOf(codes, ChatMessage) == mtype; Some(ChatMessage)
    else if topic == TopicTrackstarEvent && mtype == codes.trackUpdate then
      assert CodeOf(codes, TrackUpdateEvent) == mtype; Some(TrackUpdateEvent)
    else None
  }

  /** The topic each handler is registered under. */
  function TopicOf(h: HandlerKind): string {
    match h
    case GetConfig => TopicRequest
    case TrackAnnounce => TopicRequest
    case SetConfig => TopicCommand
    case ChatMessage => TopicChatEvent
    case TrackUpdateEvent => TopicTrackstarEvent
  }

  /** The message type each handler is registered under. */
  function CodeOf(codes: TypeCodes, h: HandlerKind): int {
    match h
    case GetConfig => codes.configGet
    case TrackAnnounce => codes.trackAnnounce
    case SetConfig => codes.configSet
    case ChatMessage => codes.chatMessage
    case TrackUpdateEvent => codes.trackUpdate
  }

  /** The pairs the routing table is written with. */
  function RoutedPairs(codes: TypeCodes): set<(string, int)> {
    {(TopicRequest, codes.configGet), (TopicRequest, codes.trackAnnounce),
     (TopicCommand, codes.configSet), (TopicChatEvent, codes.chatMessage),
     (TopicTrackstarEvent, codes.trackUpdate)}
  }

  /** The four topics are pairwise different. */
  lemma TopicsDistinct()
    ensures TopicRequest != TopicCommand && TopicRequest != TopicChatEvent && TopicRequest != TopicTrackstarEvent
    ensures TopicCommand != TopicChatEvent && TopicCommand != TopicTrackstarEvent
    ensures TopicChatEvent != TopicTrackstarEvent
  {
    assert TopicRequest[22] != TopicCommand[22];
    assert |TopicRequest| == |TopicCommand| == 29 && |TopicChatEvent| == 21 && |TopicTrackstarEvent| == 15;
  }

  /**
    The routing table sends exactly its five (topic, type) pairs to a
    handler and every other pair to none.
   */
  lemma RoutingTable(codes: TypeCodes)
    ensures forall t, m :: Route(codes, t, m).Some? <==> (t, m) in RoutedPairs(codes)
  {
  }

  /**
    Each handler is reached by the pair it is registered under, and a pair
    that reaches a handler is that handler's. The two request types must
    differ, as a Go map literal with a repeated key does not compile.
   */
  lemma RoutingInverse(codes: TypeCodes)
    requires codes.configGet != codes.trackAnnounce
    ensures forall h :: Route(codes, TopicOf(h), CodeOf(codes, h)) == Some(h)
    ensures forall t, m :: Route(codes, t, m).Some? ==>
      t == TopicOf(Route(codes, t, m).value) && m == CodeOf(codes, Route(codes, t, m).value)
  {
    TopicsDistinct();
  }

  /** No two handlers share a (topic, type) pair: the table has five entries. */
  lemma RoutedPairsCount(codes: TypeCodes)
    requires codes.configGet != codes.trackAnnounce
    ensures |RoutedPairs(codes)| == 5
  {
    TopicsDistinct();
    var a := {(TopicRequest, codes.configGet), (TopicRequest, codes.trackAnnounce)};
    var b := {(TopicCommand, codes.configSet), (TopicChatEvent, codes.chatMessage)};
    assert |a| == 2 && |b| == 2 && a * b == {};
    var c := {(TopicTrackstarEvent, codes.trackUpdate)};
    assert (a + b) * c == {};
    assert RoutedPairs(codes) == a + b + c;
  }

  // ---------------------------------------------------------------------
  // Configuration and replies
  // ---------------------------------------------------------------------

  /** The component's configuration: who posts, where, with what template, and whether track updates are announced. */
  datatype Config = Config(sendAs: string, sendTo: string, template: string, announce: bool)

  /** The zero configuration. */
  const EmptyConfig := Config("", "", "", false)

  /** A bus error: an optional detail and an optional message for the user. */
  datatype BusError = BusError(detail: Option<string>, userMessage: Option<string>)

  /** The payload of a reply. */
  datatype Body = NoBody | ConfigGetResponse(config: Option<Config>) | ConfigSetResponse(config: Option<Config>)

  /** A reply on the bus. */
  datatype Reply = Reply(body: Body, error: Option<BusError>)

  /** What a handler returns: no reply, a reply, or a crash from dereferencing a nil pointer. */
  datatype Outcome = NoReply | Replied(reply: Reply) | Crash

  /**
    A reply carrying `body`; when marshalling the body fails, the reply
    carries the marshalling error and no body.
   */
  function WithBody(body: Body, marshalError: Option<BusError>): (r: Reply)
    ensures marshalError.None? ==> r == Reply(body, None)
    ensures marshalError.Some? ==> r.error == marshalError && r.body == NoBody
  {
    if marshalError.Some? then Reply(NoBody, marshalError) else Reply(body, None)
  }

  /**
    The record a write stores: a configuration is stored as it is, and a nil
    one as the record whose every field is empty, false or blank.
   */
  function Persisted(cfg: Option<Config>): (p: Config)
    ensures cfg.Some? ==> p == cfg.value
    ensures cfg.None? ==> p.sendAs == "" && p.sendTo == "" && p.template == "" && !p.announce
  {
    match cfg
    case Some(c) => c
    case None => EmptyConfig
  }

  /** The new memory, store and reply of a configuration set. */
  datatype SetOutcome = SetOutcome(cfg: Option<Config>, stored: Option<Config>, reply: Reply)

  /**
    A configuration set request: a malformed request is answered with its
    decoding error and changes nothing. Otherwise the request's
    configuration, possibly absent, replaces the one in memory before it is
    written; a failed write is reported as the user message of the reply
    and leaves the store as it was, but not the memory. A successful write
    stores the new configuration and echoes it back.
   */
  function SetConfigStep(
    cfg: Option<Config>, stored: Option<Config>,
    decoded: Result<Option<Config>, BusError>, write: Option<string>, marshalError: Option<BusError>): (r: SetOutcome)
    ensures decoded.Failure? ==> r == SetOutcome(cfg, stored, Reply(NoBody, Some(decoded.error)))
    ensures decoded.Success? ==> r.cfg == decoded.value
    ensures decoded.Success? && write.Some? ==>
      r.stored == stored && r.reply == Reply(NoBody, Some(BusError(None, Some(write.value))))
    ensures decoded.Success? && write.None? ==>
      r.stored == Some(Persisted(r.cfg)) && r.reply == WithBody(ConfigSetResponse(r.cfg), marshalError)
  {
    match decoded
    case Failure(e) => SetOutcome(cfg, stored, Reply(NoBody, Some(e)))
    case Success(next) =>
      if write.Some? then SetOutcome(next, stored, Reply(NoBody, Some(BusError(None, Some(write.value)))))
      else SetOutcome(next, Some(Persisted(next)), WithBody(ConfigSetResponse(next), marshalError))
  }

  // ---------------------------------------------------------------------
  // Announcing a track
  // ---------------------------------------------------------------------

  /** A chat message to send: its text, the profile that posts it and the channel it goes to. */
  datatype ChatSend = ChatSend(text: string, profile: string, channel: string)

  /** A track lookup sent to TrackStar: how many seconds back, and how long to wait. */
  datatype Lookup = Lookup(deltaSeconds: nat, timeoutMs: nat)

  /** A track update, known by the outcome of encoding it as JSON. */
  datatype TrackUpdate = TrackUpdate(json: Result<string, string>)

  /** A Twitch chat-message event; its message part may be absent. */
  datatype ChatEvent = ChatEvent(message: Option<string>)

  /**
    How a lookup went: the request could not be encoded (nothing is sent),
    waiting for the answer failed or timed out, or an answer came with an
    optional error and the outcome of decoding its track.
   */
  datatype LookupOutcome =
    | NotMarshalled(cause: BusError)
    | WaitFailed(reason: string)
    | Answered(error: Option<BusError>, response: Result<TrackUpdate, BusError>)

  /** The template renderer: a template and a JSON context give a text or an error. */
  type Renderer = (string, string) -> Result<string, string>

  /** What the sending step depends on: the renderer and the outcome of encoding the chat request. */
  datatype Output = Output(render: Renderer, marshalError: Option<BusError>)

  /** The render context `{"track_update": <json>}`. */
  function RenderContext(json: string): (ctx: string)
    ensures |ctx| == |json| + 18
    ensures ctx[..17] == "{\"track_update\": " && ctx[17..|ctx| - 1] == json && ctx[|ctx| - 1] == '}'
  {
    var ctx := "{" + "\"track_update\": " + json + "}";
    assert ctx[..17] == "{\"track_update\": ";
    ctx
  }

  /** Two different tracks never share a render context. */
  lemma RenderContextInjective(a: string, b: string)
    requires RenderContext(a) == RenderContext(b)
    ensures a == b
  {
    var ca := RenderContext(a);
    assert a == ca[17..|ca| - 1];
  }

  /**
    The template of a possibly nil configuration, read without crashing: it
    is the template of the record a write would store for it, so empty when
    the configuration is nil.
   */
  function TemplateOf(cfg: Option<Config>): (t: string)
    ensures t == Persisted(cfg).template
    ensures cfg.None? ==> t == ""
  {
    match cfg
    case Some(c) => c.template
    case None => ""
  }

  /** What the sending step does: nothing, send one chat message, or crash on a nil configuration. */
  datatype SendStep = Skip | Emit(send: ChatSend) | Crashes

  /** The rendered text for a track, when it encodes and renders. */
  function Rendered(cfg: Option<Config>, tu: TrackUpdate, out: Output): Result<string, string> {
    match tu.json
    case Failure(e) => Failure(e)
    case Success(json) => out.render(TemplateOf(cfg), RenderContext(json))
  }

  /**
    Announcing a track: it is encoded as JSON, placed in the render context
    and rendered with the configured template; one chat message with that
    text, posted as `sendAs` to `sendTo`, is sent when all of that works and
    the chat request encodes. The template is read safely from a nil
    configuration, but the profile is not, so a nil configuration crashes
    once rendering has worked.
   */
  function SendStepOf(cfg: Option<Config>, tu: TrackUpdate, out: Output): (step: SendStep)
    ensures step.Emit? <==> Rendered(cfg, tu, out).Success? && cfg.Some? && out.marshalError.None?
    ensures step.Emit? ==> step.send == ChatSend(Rendered(cfg, tu, out).value, cfg.value.sendAs, cfg.value.sendTo)
    ensures step.Crashes? <==> Rendered(cfg, tu, out).Success? && cfg.None?
  {
    match Rendered(cfg, tu, out)
    case Failure(_) => Skip
    case Success(text) =>
      if cfg.None? then Crashes
      else if out.marshalError.Some? then Skip
      else Emit(ChatSend(text, cfg.value.sendAs, cfg.value.sendTo))
  }

  /** The chat messages a sending step sends. */
  function SentBy(step: SendStep): (sent: seq<ChatSend>)
    ensures |sent| <= 1 && (sent != [] <==> step.Emit?)
  {
    if step.Emit? then [step.send] else []
  }

  /** What one handler does: its outcome, the lookups it issues and the chat messages it sends. */
  datatype Effect = Effect(outcome: Outcome, issued: seq<Lookup>, sent: seq<ChatSend>)

  /** No reply, no lookup, no message. */
  const Quiet := Effect(NoReply, [], [])

  /** The end of a handler that reaches the sending step and would otherwise return `done`. */
  function Finish(step: SendStep, issued: seq<Lookup>, done: Outcome): (e: Effect)
    ensures e.issued == issued && e.sent == SentBy(step)
    ensures e.outcome == if step.Crashes? then Crash else done
  {
    Effect(if step.Crashes? then Crash else done, issued, SentBy(step))
  }

  /**
    A track update event: never a reply and never a lookup. A nil
    configuration crashes on the announce flag, before anything is sent;
    with announcing off or an undecodable event nothing is sent; otherwise
    the track goes through the sending step.
   */
  function TrackUpdateEffect(cfg: Option<Config>, decoded: Result<TrackUpdate, BusError>, out: Output): (e: Effect)
    ensures !e.outcome.Replied? && e.issued == [] && |e.sent| <= 1
    ensures e.outcome.Crash? <==> cfg.None?
    ensures cfg.None? ==> e == Effect(Crash, [], [])
    ensures cfg.Some? && (!cfg.value.announce || decoded.Failure?) ==> e == Quiet
    ensures cfg.Some? && cfg.value.announce && decoded.Success? ==>
      e.outcome == NoReply && e.sent == SentBy(SendStepOf(cfg, decoded.value, out))
  {
    if cfg.None? then Effect(Crash, [], [])
    else if !cfg.value.announce then Quiet
    else match decoded
      case Failure(_) => Quiet
      case Success(tu) => Finish(SendStepOf(cfg, tu, out), [], NoReply)
  }

  /**
    A Twitch chat message: never a reply. An undecodable event does
    nothing and an event without its message part crashes. A line that is
    not an "!id" command does nothing; otherwise one lookup asking for the
    command's look-back is issued, and only a decodable answer, whatever
    its error field says, reaches the sending step. Apart from a missing
    message part, it crashes exactly when that step does.
   */
  function ChatMessageEffect(cfg: Option<Config>, event: Result<ChatEvent, BusError>, lookup: LookupOutcome, out: Output): (e: Effect)
    ensures !e.outcome.Replied? && |e.sent| <= 1
    ensures e.outcome.Crash? ==> event.Success? && (event.value.message.None? || cfg.None?)
    ensures e.outcome.Crash? <==>
      event.Success? && (event.value.message.None? ||
        (CommandDelta(event.value.message.value).Some? && lookup.Answered? && lookup.response.Success? &&
         SendStepOf(cfg, lookup.response.value, out).Crashes?))
    ensures e.issued != [] <==>
      event.Success? && event.value.message.Some? && CommandDelta(event.value.message.value).Some? && !lookup.NotMarshalled?
    ensures e.issued != [] ==> e.issued == [Lookup(CommandDelta(event.value.message.value).value, ChatLookupTimeout)]
    ensures e.sent != [] ==> e.issued != [] && lookup.Answered? && lookup.response.Success?
    ensures e.issued != [] && lookup.Answered? && lookup.response.Success? ==>
      e.sent == SentBy(SendStepOf(cfg, lookup.response.value, out))
  {
    match event
    case Failure(_) => Quiet
    case Success(ev) =>
      match ev.message
      case None => Effect(Crash, [], [])
      case Some(text) =>
        match CommandDelta(text)
        case None => Quiet
        case Some(delta) =>
          var issued := [Lookup(delta, ChatLookupTimeout)];
          match lookup
          case NotMarshalled(_) => Quiet
          case WaitFailed(_) => Effect(NoReply, issued, [])
          case Answered(_, Failure(_)) => Effect(NoReply, issued, [])
          case Answered(_, Success(tu)) => Finish(SendStepOf(cfg, tu, out), issued, NoReply)
  }

  /**
    A request to announce the current track: it always asks for the latest
    track. A wait failure gives no reply at all; an error in TrackStar's
    answer, or an answer that does not decode, is the reply's error; and
    only a clean answer reaches the sending step. After it the reply
    carries no error and no body, even when the step sent nothing because
    rendering or encoding failed; it crashes only when the step does.
   */
  function TrackAnnounceEffect(cfg: Option<Config>, lookup: LookupOutcome, out: Output): (e: Effect)
    ensures |e.sent| <= 1
    ensures e.issued == [] <==> lookup.NotMarshalled?
    ensures e.issued != [] ==> e.issued == [Lookup(0, AnnounceLookupTimeout)]
    ensures lookup.NotMarshalled? || lookup.WaitFailed? ==> e.outcome == NoReply && e.sent == []
    ensures lookup.Answered? && lookup.error.Some? ==> e.outcome == Replied(Reply(NoBody, lookup.error)) && e.sent == []
    ensures lookup.Answered? && lookup.error.None? && lookup.response.Failure? ==>
      e.outcome == Replied(Reply(NoBody, Some(lookup.response.error))) && e.sent == []
    ensures e.sent != [] ==> e.outcome == Replied(Reply(NoBody, None))
    ensures lookup.Answered? && lookup.error.None? && lookup.response.Success? ==>
      var step := SendStepOf(cfg, lookup.response.value, out);
      e.sent == SentBy(step) && e.outcome == (if step.Crashes? then Crash else Replied(Reply(NoBody, None)))
    ensures e.outcome.Crash? <==>
      lookup.Answered? && lookup.error.None? && lookup.response.Success? && SendStepOf(cfg, lookup.response.value, out).Crashes?
  {
    var issued := [Lookup(0, AnnounceLookupTimeout)];
    match lookup
    case NotMarshalled(_) => Quiet
    case WaitFailed(_) => Effect(NoReply, issued, [])
    case Answered(Some(err), _) => Effect(Replied(Reply(NoBody, Some(err))), issued, [])
    case Answered(None, Failure(err)) => Effect(Replied(Reply(NoBody, Some(err))), issued, [])
    case Answered(None, Success(tu)) => Finish(SendStepOf(cfg, tu, out), issued, Replied(Reply(NoBody, None)))
  }

  /**
    "!id" and an announce request ask for the same track, and with the same
    clean answer they send the same chat message; only the wait differs.
   */
  lemma BareCommandAnnouncesLikeRequest(cfg: Option<Config>, tu: TrackUpdate, out: Output)
    ensures var chat := ChatMessageEffect(cfg, Success(ChatEvent(Some("!id"))), Answered(None, Success(tu)), out);
      var announce := TrackAnnounceEffect(cfg, Answered(None, Success(tu)), out);
      chat.sent == announce.sent && chat.issued == [Lookup(0, ChatLookupTimeout)] && announce.issued == [Lookup(0, AnnounceLookupTimeout)]
  {
    NoArgumentExamples();
  }

  /**
    With announcing on, a track update sends the same chat message as an
    announce request answered with that track.
   */
  lemma UpdateAnnouncesLikeRequest(cfg: Config, tu: TrackUpdate, out: Output)
    requires cfg.announce
    ensures TrackUpdateEffect(Some(cfg), Success(tu), out).sent
         == TrackAnnounceEffect(Some(cfg), Answered(None, Success(tu)), out).sent
  {
  }

  // ---------------------------------------------------------------------
  // Startup
  // ---------------------------------------------------------------------

  /** The outcome of loading the stored configuration. */
  datatype LoadResult = Loaded(config: Config) | NotFound | LoadFailed(reason: string)

  /**
    What startup depends on: whether each subscription succeeds, the load,
    the Twitch profile names (or the error listing them), and the error, if
    any, of each of the two writes startup may make.
   */
  datatype Boot = Boot(
    subscribe: string -> bool,
    load: LoadResult,
    profiles: Result<seq<string>, string>,
    fillWrite: Option<string>,
    sendToWrite: Option<string>)

  /** The configuration in memory and the record in the store. */
  datatype Startup = Startup(cfg: Config, stored: Option<Config>)

  /** Index of the first topic whose subscription fails, or `|topics|` when all succeed. */
  function FirstFailed(topics: seq<string>, subscribe: string -> bool): (k: nat)
    ensures k <= |topics|
    ensures forall j :: 0 <= j < k ==> subscribe(topics[j])
    ensures k < |topics| ==> !subscribe(topics[k])
  {
    if topics == [] then 0
    else if !subscribe(topics[0]) then 0
    else 1 + FirstFailed(topics[1..], subscribe)
  }

  /** `FirstFailed` is pinned down by its contract. */
  lemma FirstFailedAt(topics: seq<string>, subscribe: string -> bool, k: nat)
    requires k <= |topics|
    requires forall j :: 0 <= j < k ==> subscribe(topics[j])
    requires k < |topics| ==> !subscribe(topics[k])
    ensures FirstFailed(topics, subscribe) == k
  {
  }

  /** The configuration read at startup: the loaded one, or the empty one. */
  function LoadedConfig(load: LoadResult): Config {
    if load.Loaded? then load.config else EmptyConfig
  }

  /** The store's record before startup: present exactly when loading found one. */
  function Record(load: LoadResult): Option<Config> {
    if load.Loaded? then Some(load.config) else None
  }

  /** Writing the configuration in memory to the store, or the startup error. */
  function Written(s: Startup, write: Option<string>): (r: Result<Startup, string>)
    ensures write.Some? ==> r == Failure("writing config: " + write.value)
    ensures write.None? ==> r == Success(Startup(s.cfg, Some(s.cfg)))
  {
    if write.Some? then Failure("writing config: " + write.value)
    else Success(s.(stored := Some(s.cfg)))
  }

  /** An empty `sendAs` is filled with the first Twitch profile, and written. */
  function FillSendAs(s: Startup, profiles: Result<seq<string>, string>, write: Option<string>): (r: Result<Startup, string>)
    ensures r.Failure? <==> s.cfg.sendAs == "" && (profiles.Failure? || profiles.value == [] || write.Some?)
    ensures r.Success? && s.cfg.sendAs == "" ==>
      r.value.cfg == s.cfg.(sendAs := profiles.value[0]) && r.value.stored == Some(r.value.cfg)
    ensures r.Success? && s.cfg.sendAs != "" ==> r.value == s
  {
    if s.cfg.sendAs != "" then Success(s)
    else match profiles
      case Failure(e) => Failure("listing twitch profile: " + e)
      case Success(names) =>
        if names == [] then Failure("no available profiles")
        else Written(s.(cfg := s.cfg.(sendAs := names[0])), write)
  }

  /** When `sendTo` is empty, `sendAs` is overwritten with it, and written. */
  function CopySendTo(s: Startup, write: Option<string>): (r: Result<Startup, string>)
    ensures r.Failure? <==> s.cfg.sendTo == "" && write.Some?
    ensures r.Success? && s.cfg.sendTo == "" ==>
      r.value.cfg == s.cfg.(sendAs := "") && r.value.stored == Some(r.value.cfg)
    ensures r.Success? && s.cfg.sendTo != "" ==> r.value == s
  {
    if s.cfg.sendTo != "" then Success(s)
    else Written(s.(cfg := s.cfg.(sendAs := s.cfg.sendTo)), write)
  }

  /** The default template replaces a blank one; nothing else changes. */
  function WithDefaultTemplate(c: Config): (d: Config)
    ensures d.sendAs == c.sendAs && d.sendTo == c.sendTo && d.announce == c.announce
    ensures d.template == if IsBlank(c.template) then DefaultTemplate else c.template
  {
    if IsBlank(c.template) then c.(template := DefaultTemplate) else c
  }

  /** After defaulting, the template is never blank. */
  lemma DefaultedTemplateNotBlank(c: Config)
    ensures !IsBlank(WithDefaultTemplate(c).template)
  {
    assert !IsSpace(DefaultTemplate[0]);
  }

  /**
    The configuration part of startup. A missing record is fine, any other
    load error is fatal. An empty `sendAs` is filled with the first Twitch
    profile and written, failing when profiles cannot be listed, when there
    are none, or when the write fails. Then, when `sendTo` is empty,
    `sendAs` is overwritten with that empty `sendTo` and written again. A
    blank template is finally replaced with the default in memory only, so
    the store keeps it blank.
   */
  function ResolveConfig(boot: Boot): (r: Result<Startup, string>)
    ensures r.Success? ==> r.value.stored.Some? && r.value.cfg == WithDefaultTemplate(r.value.stored.value)
    ensures r.Success? ==> r.value.stored.value.template == LoadedConfig(boot.load).template
  {
    if boot.load.LoadFailed? then Failure("loading config: " + boot.load.reason)
    else
      var filled := FillSendAs(Startup(LoadedConfig(boot.load), Record(boot.load)), boot.profiles, boot.fillWrite);
      if filled.Failure? then Failure(filled.error)
      else
        var copied := CopySendTo(filled.value, boot.sendToWrite);
        if copied.Failure? then Failure(copied.error)
        else Success(copied.value.(cfg := WithDefaultTemplate(copied.value.cfg)))
  }

  /**
    The profile a started component posts as: none at all when no channel
    is configured, even when one was just filled in from the profile list;
    otherwise the loaded one, or the first profile when none was loaded.
    The channel and the announce flag are the loaded ones.
   */
  lemma ResolvedProfile(boot: Boot)
    requires ResolveConfig(boot).Success?
    ensures LoadedConfig(boot.load).sendAs == "" ==> boot.profiles.Success? && |boot.profiles.value| > 0
    ensures var loaded := LoadedConfig(boot.load);
      var cfg := ResolveConfig(boot).value.cfg;
      cfg.sendTo == loaded.sendTo && cfg.announce == loaded.announce
      && cfg.sendAs == (if loaded.sendTo == "" then ""
                        else if loaded.sendAs == "" then boot.profiles.value[0]
                        else loaded.sendAs)
  {
    var loaded := LoadedConfig(boot.load);
    var filled := FillSendAs(Startup(loaded, Record(boot.load)), boot.profiles, boot.fillWrite);
    var copied := CopySendTo(filled.value, boot.sendToWrite);
    assert filled.Success? && copied.Success? by {
      assert !boot.load.LoadFailed?;
    }
    var cfg := copied.value.cfg;
    assert ResolveConfig(boot).value.cfg == WithDefaultTemplate(cfg);
    assert cfg.sendTo == loaded.sendTo && cfg.announce == loaded.announce;
    assert cfg.sendAs == if loaded.sendTo == "" then "" else filled.value.cfg.sendAs;
    assert loaded.sendAs == "" ==> filled.value.cfg.sendAs == boot.profiles.value[0];
  }

  /**
    Startup: subscriptions are made in order and the first failure is
    fatal; then the configuration is resolved.
   */
  function Bootstrap(boot: Boot): (r: Result<Startup, string>)
    ensures r.Success? ==> r == ResolveConfig(boot)
  {
    var k := FirstFailed(SubscribedTopics, boot.subscribe);
    if k < |SubscribedTopics| then Failure("subscribing to " + SubscribedTopics[k])
    else ResolveConfig(boot)
  }

  /**
    Which startups fail: a failed subscription, a load error other than a
    missing record, an empty `sendAs` with no profile to fill it or a
    failed write of it, or an empty `sendTo` whose write fails.
   */
  lemma BootstrapFails(boot: Boot)
    ensures var loaded := LoadedConfig(boot.load);
      Bootstrap(boot).Failure? <==>
        FirstFailed(SubscribedTopics, boot.subscribe) < |SubscribedTopics|
        || boot.load.LoadFailed?
        || (loaded.sendAs == "" && (boot.profiles.Failure? || boot.profiles.value == [] || boot.fillWrite.Some?))
        || (loaded.sendTo == "" && boot.sendToWrite.Some?)
  {
  }

  /**
    After startup an empty channel always comes with an empty profile, even
    when a profile was just filled in from the profile list.
   */
  lemma BootstrapNoChannelNoProfile(boot: Boot)
    requires Bootstrap(boot).Success?
    ensures Bootstrap(boot).value.cfg.sendTo == "" ==> Bootstrap(boot).value.cfg.sendAs == ""
  {
    ResolvedProfile(boot);
  }

  // ---------------------------------------------------------------------
  // The component
  // ---------------------------------------------------------------------

  /**
    The component's state: the configuration in memory (nil after a set
    request without one), the record in the key-value store, and the chat
    messages and lookups it has sent so far.
   */
  class Chat {
    var cfg: Option<Config>
    var stored: Option<Config>
    var outbox: seq<ChatSend>
    var lookups: seq<Lookup>

    /** A component with the empty configuration in memory, over the store's record. */
    constructor (record: Option<Config>)
      ensures cfg == Some(EmptyConfig) && stored == record && outbox == [] && lookups == []
    {
      cfg := Some(EmptyConfig);
      stored := record;
      outbox := [];
      lookups := [];
    }

    /**
      Startup: subscribes, loads, fills and copies the profile with a write
      after each change, and defaults the template. It fails exactly when
      `Bootstrap` does, with the same error, and otherwise starts from the
      configuration and record `Bootstrap` gives, having sent nothing.
     */
    static method New(boot: Boot) returns (r: Result<Chat, string>)
      ensures r.Failure? <==> Bootstrap(boot).Failure?
      ensures r.Failure? ==> r.error == Bootstrap(boot).error
      ensures r.Success? ==> (fresh(r.value)
        && r.value.cfg == Some(Bootstrap(boot).value.cfg) && r.value.stored == Bootstrap(boot).value.stored
        && r.value.outbox == [] && r.value.lookups == [])
    {
      for i := 0 to |SubscribedTopics|
        invariant forall j :: 0 <= j < i ==> boot.subscribe(SubscribedTopics[j])
      {
        var topic := SubscribedTopics[i];
        if !boot.subscribe(topic) {
          FirstFailedAt(SubscribedTopics, boot.subscribe, i);
          return Failure("subscribing to " + topic);
        }
      }
      FirstFailedAt(SubscribedTopics, boot.subscribe, |SubscribedTopics|);

      var c := new Chat(Record(boot.load));
      match boot.load {
        case LoadFailed(reason) =>
          return Failure("loading config: " + reason);
        case Loaded(loaded) =>
          c.cfg := Some(loaded);
        case NotFound =>
      }
      ghost var start := Startup(LoadedConfig(boot.load), Record(boot.load));
      assert c.cfg == Some(start.cfg) && c.stored == start.stored;

      if c.cfg.value.sendAs == "" {
        match boot.profiles {
          case Failure(e) =>
            return Failure("listing twitch profile: " + e);
          case Success(names) =>
            if |names| == 0 {
              return Failure("no available profiles");
            }
            c.cfg := Some(c.cfg.value.(sendAs := names[0]));
            var err := c.WriteCfg(boot.fillWrite);
            if err.Some? {
              return Failure("writing config: " + err.value);
            }
        }
      }
      ghost var filled := FillSendAs(start, boot.profiles, boot.fillWrite).value;
      assert c.cfg == Some(filled.cfg) && c.stored == filled.stored;

      if c.cfg.value.sendTo == "" {
        c.cfg := Some(c.cfg.value.(sendAs := c.cfg.value.sendTo));
        var err := c.WriteCfg(boot.sendToWrite);
        if err.Some? {
          return Failure("writing config: " + err.value);
        }
      }
      ghost var copied := CopySendTo(filled, boot.sendToWrite).value;
      assert c.cfg == Some(copied.cfg) && c.stored == copied.stored;

      if TrimSpace(c.cfg.value.template) == "" {
        c.cfg := Some(c.cfg.value.(template := DefaultTemplate));
      }
      return Success(c);
    }

    /**
      Writes the configuration in memory to the store. On failure the
      store is unchanged and the error is returned.
     */
    method WriteCfg(write: Option<string>) returns (err: Option<string>)
      modifies this`stored
      ensures err == write
      ensures stored == if write.None? then Some(Persisted(cfg)) else old(stored)
    {
      if write.Some? {
        return write;
      }
      stored := Some(Persisted(cfg));
      return None;
    }

    /** A configuration get request: the configuration in memory, possibly nil. */
    function HandleRequestGetConfig(marshalError: Option<BusError>): (r: Reply)
      reads this`cfg
      ensures marshalError.None? ==> r == Reply(ConfigGetResponse(cfg), None)
      ensures marshalError.Some? ==> r.error == marshalError
    {
      WithBody(ConfigGetResponse(cfg), marshalError)
    }

    /** A configuration set request, as `SetConfigStep` describes it. */
    method HandleCommandSetConfig(decoded: Result<Option<Config>, BusError>, write: Option<string>, marshalError: Option<BusError>)
      returns (reply: Reply)
      modifies this`cfg, this`stored
      ensures var r := SetConfigStep(old(cfg), old(stored), decoded, write, marshalError);
        cfg == r.cfg && stored == r.stored && reply == r.reply
    {
      match decoded {
        case Failure(e) =>
          return Reply(NoBody, Some(e));
        case Success(next) =>
          cfg := next;
          var err := WriteCfg(write);
          if err.Some? {
            return Reply(NoBody, Some(BusError(None, Some(err.value))));
          }
          return WithBody(ConfigSetResponse(cfg), marshalError);
      }
    }

    /**
      The sending step: builds the render context piece by piece, renders,
      and sends at most one chat message.
     */
    method SendTrackUpdate(tu: TrackUpdate, out: Output) returns (crashed: bool)
      modifies this`outbox
      ensures crashed == SendStepOf(cfg, tu, out).Crashes?
      ensures outbox == old(outbox) + SentBy(SendStepOf(cfg, tu, out))
    {
      if tu.json.Failure? {
        return false;
      }
      var json := "";
      json := json + "{";
      json := json + "\"track_update\": ";
      json := json + tu.json.value;
      json := json + "}";
      assert json == RenderContext(tu.json.value);
      var output := out.render(TemplateOf(cfg), json);
      if output.Failure? {
        return false;
      }
      if cfg.None? {
        return true;
      }
      if out.marshalError.Some? {
        return false;
      }
      outbox := outbox + [ChatSend(output.value, cfg.value.sendAs, cfg.value.sendTo)];
      return false;
    }

    /** A track update event, as `TrackUpdateEffect` describes it. */
    method HandleTrackUpdate(decoded: Result<TrackUpdate, BusError>, out: Output) returns (outcome: Outcome)
      modifies this`outbox
      ensures outcome == TrackUpdateEffect(cfg, decoded, out).outcome
      ensures outbox == old(outbox) + TrackUpdateEffect(cfg, decoded, out).sent
    {
      if cfg.None? {
        return Crash;
      }
      if !cfg.value.announce {
        return NoReply;
      }
      if decoded.Failure? {
        return NoReply;
      }
      var crashed := SendTrackUpdate(decoded.value, out);
      return if crashed then Crash else NoReply;
    }

    /** A Twitch chat message, as `ChatMessageEffect` describes it. */
    method HandleChatMessage(event: Result<ChatEvent, BusError>, lookup: LookupOutcome, out: Output) returns (outcome: Outcome)
      modifies this`outbox, this`lookups
      ensures var e := ChatMessageEffect(cfg, event, lookup, out);
        outcome == e.outcome && lookups == old(lookups) + e.issued && outbox == old(outbox) + e.sent
    {
      if event.Failure? {
        return NoReply;
      }
      if event.value.message.None? {
        return Crash;
      }
      var text := ToLower(event.value.message.value);
      if !HasPrefix(text, CommandPrefix) {
        return NoReply;
      }
      text := CommandArgument(text);
      var delta: nat := 0;
      if text != "" {
        match ParseDuration(text) {
          case Some(d) => delta := WholeSeconds(d);
          case None =>
        }
      }
      assert Some(delta) == CommandDelta(event.value.message.value);
      if lookup.NotMarshalled? {
        return NoReply;
      }
      lookups := lookups + [Lookup(delta, ChatLookupTimeout)];
      if lookup.WaitFailed? {
        return NoReply;
      }
      if lookup.response.Failure? {
        return NoReply;
      }
      var crashed := SendTrackUpdate(lookup.response.value, out);
      return if crashed then Crash else NoReply;
    }

    /** A request to announce the current track, as `TrackAnnounceEffect` describes it. */
    method HandleRequestTrackAnnounce(lookup: LookupOutcome, out: Output) returns (outcome: Outcome)
      modifies this`outbox, this`lookups
      ensures var e := TrackAnnounceEffect(cfg, lookup, out);
        outcome == e.outcome && lookups == old(lookups) + e.issued && outbox == old(outbox) + e.sent
    {
      if lookup.NotMarshalled? {
        return NoReply;
      }
      lookups := lookups + [Lookup(0, AnnounceLookupTimeout)];
      if lookup.WaitFailed? {
        return NoReply;
      }
      if lookup.error.Some? {
        return Replied(Reply(NoBody, lookup.error));
      }
      if lookup.response.Failure? {
        return Replied(Reply(NoBody, Some(lookup.response.error)));
      }
      var crashed := SendTrackUpdate(lookup.response.value, out);
      return if crashed then Crash else Replied(Reply(NoBody, None));
    }
  }

  /**
    A set request followed by a get request: the get answers with the
    configuration just set, whether or not it could be stored.
   */
  method SetThenGet(c: Chat, next: Option<Config>, write: Option<string>) returns (setReply: Reply, getReply: Reply)
    modifies c`cfg, c`stored
    ensures c.cfg == next && c.outbox == old(c.outbox) && c.lookups == old(c.lookups)
    ensures getReply == Reply(ConfigGetResponse(next), None)
    ensures write.Some? ==> c.stored == old(c.stored) && setReply.error == Some(BusError(None, Some(write.value)))
    ensures write.None? ==> c.stored == Some(Persisted(next)) && setReply == Reply(ConfigSetResponse(next), None)
  {
    setReply := c.HandleCommandSetConfig(Success(next), write, None);
    getReply := c.HandleRequestGetConfig(None);
  }
}
