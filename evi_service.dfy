/**
 * The server-side session proxy of server/services/eviService.js: one client
 * connection, its upstream bridge to the conversational engine, and the rows
 * it writes.
 *
 * Each socket or database event is one handler call. The pure functions below
 * (one per handler, over a `Session` value) are the specification; the class
 * `Connection` is the handler code itself, with the closure variables
 * `humeSocket`, `chatId` and `chatGroupId` as fields, and every outbound effect
 * (frame sent, close, SQL statement, release of the pooled client) appended to
 * `log`. Lemmas about whole event traces are stated on the functions.
 */
module EviService {
  import opened Wrappers
  import opened DbEnums
  import opened Sockets

  type Uuid = string

  /** Prosody scores, emotion name to score. */
  type Scores = map<string, real>

  // ---------------------------------------------------------------------------
  // Upstream frames and their classification (parseHumeEventForDb)
  // ---------------------------------------------------------------------------

  /** An upstream frame after `JSON.parse`; absent fields are `None`. */
  datatype HumeMessage = HumeMessage(
    msgType: string,
    content: Option<string>,        // message?.content
    prosodyScores: Option<Scores>,  // models?.prosody?.scores
    toolCall: Option<string>)       // tool_call, as its JSON text

  /** The record `parseHumeEventForDb` builds for insertion. */
  datatype DbEvent = DbEvent(
    role: EventRole,
    eventType: EventType,
    messageText: Option<string>,
    emotionFeatures: Option<Scores>,
    toolCallData: Option<string>)

  /** JavaScript truthiness of an optional string: present and not empty. */
  predicate Truthy(s: Option<string>)
  {
    s.Some? && s.value != ""
  }

  /** The upstream frame types that are persisted. */
  predicate IsPersistedType(t: string)
  {
    t == "user_message" || t == "assistant_message" || t == "tool_call"
  }

  /**
   * Maps an upstream frame to the row to insert, or `None` for every frame
   * type that is not persisted (errors, interruptions, end markers, audio
   * output and unknown types).
   */
  function ParseHumeEventForDb(m: HumeMessage): (r: Option<DbEvent>)
    ensures r.Some? <==> IsPersistedType(m.msgType)
    ensures m.msgType == "user_message" ==> r.Some? && r.value.role == User && r.value.eventType == UserMessage
    ensures m.msgType == "assistant_message" ==> r.Some? && r.value.role == Agent && r.value.eventType == AgentMessage
    ensures m.msgType == "tool_call" ==> r.Some? && r.value.role == Agent && r.value.eventType == ToolCall
    ensures r.Some? ==> (r.value.messageText.Some? <==> Truthy(m.content))
    ensures r.Some? && r.value.messageText.Some? ==> r.value.messageText == m.content
    ensures r.Some? ==> r.value.emotionFeatures == m.prosodyScores && r.value.toolCallData == m.toolCall
  {
    var messageText := if Truthy(m.content) then m.content else None;
    match m.msgType
    case "user_message" => Some(DbEvent(User, UserMessage, messageText, m.prosodyScores, m.toolCall))
    case "assistant_message" => Some(DbEvent(Agent, AgentMessage, messageText, m.prosodyScores, m.toolCall))
    case "tool_call" => Some(DbEvent(Agent, ToolCall, messageText, m.prosodyScores, m.toolCall))
    case _ => None
  }

  // ---------------------------------------------------------------------------
  // Rows and effects
  // ---------------------------------------------------------------------------

  /** A `chats` row as inserted at session start. */
  datatype ChatRow = ChatRow(
    id: Uuid,
    chatGroupId: Uuid,
    profileId: Option<string>,
    configId: Option<string>,
    status: ChatStatus,
    customSessionId: Option<string>,
    modality: string)

  /** A `chat_events` row; `chatId` is the closure's `chatId` at logging time. */
  datatype EventRow = EventRow(
    id: Uuid,
    chatId: Option<Uuid>,
    role: EventRole,
    eventType: EventType,
    messageText: Option<string>,
    emotionFeatures: Option<Scores>,
    toolCallData: Option<string>)

  /** Frames the proxy sends to the client. */
  datatype OutFrame =
    | SessionReady(chatId: Option<Uuid>)
    | Relay(raw: string)                  // an upstream frame, verbatim
    | ErrorFrame(message: string)

  /** Payloads the proxy sends upstream. */
  datatype UpstreamPayload =
    | Audio(data: seq<bv8>)
    | UserInput(text: string)

  /** Every outbound effect of one connection, in issue order. */
  datatype Effect =
    | SendToClient(frame: OutFrame)
    | CloseClient(code: int)
    | ConnectUpstream
    | SendToUpstream(payload: UpstreamPayload)
    | CloseUpstream
    | Begin
    | Commit
    | Rollback
    | InsertGroup(groupId: Uuid, numChats: nat, active: bool)
    | InsertChat(chat: ChatRow)
    | InsertEvent(eventRow: EventRow)
    | MarkChatComplete(chatId: Uuid)
    | MarkGroupInactive(groupId: Uuid)
    | ReleaseDbClient

  /**
   * `logChatEvent`: nothing for a frame that is not persisted, otherwise one
   * insert under the fresh id `eventId` (a new uuid on every call). A failing
   * insert is caught inside the function, so it adds no further effect.
   */
  function LogChatEvent(chatId: Option<Uuid>, m: HumeMessage, eventId: Uuid): (effects: seq<Effect>)
    ensures |effects| <= 1
    ensures effects == [] <==> !IsPersistedType(m.msgType)
    ensures forall e :: e in effects ==> e.InsertEvent? && e.eventRow.id == eventId && e.eventRow.chatId == chatId
    ensures effects != [] ==>
              var row := effects[0].eventRow;
              ParseHumeEventForDb(m)
              == Some(DbEvent(row.role, row.eventType, row.messageText, row.emotionFeatures, row.toolCallData))
  {
    match ParseHumeEventForDb(m)
    case None => []
    case Some(ev) =>
      [InsertEvent(EventRow(eventId, chatId, ev.role, ev.eventType, ev.messageText, ev.emotionFeatures, ev.toolCallData))]
  }

  /**
   * Insertion is not idempotent: a redelivered frame logged under two fresh
   * ids gives two rows with the same content.
   */
  lemma RedeliveryInsertsTwice(chatId: Option<Uuid>, m: HumeMessage, id1: Uuid, id2: Uuid)
    requires IsPersistedType(m.msgType) && id1 != id2
    ensures var both := LogChatEvent(chatId, m, id1) + LogChatEvent(chatId, m, id2);
            |both| == 2 && both[0].InsertEvent? && both[1].InsertEvent?
            && both[0].eventRow.id != both[1].eventRow.id
            && both[0].eventRow.(id := id2) == both[1].eventRow
  {
  }

  // ---------------------------------------------------------------------------
  // Client frames and the connection's environment
  // ---------------------------------------------------------------------------

  /** `payload` of a `start_session` frame; absent fields are `None`. */
  datatype StartPayload = StartPayload(
    profileId: Option<string>,
    configId: Option<string>,
    customSessionId: Option<string>,
    modality: Option<string>)

  /** A client frame after `JSON.parse`, as far as the handler reads it. */
  datatype ClientJson = ClientJson(
    msgType: string,
    payload: Option<StartPayload>,
    text: Option<string>)

  /**
   * A client frame: binary or text, its bytes, and what `JSON.parse` makes of
   * it (`None` when it throws, or when the value is `null` so that reading a
   * property throws).
   */
  datatype ClientFrame = ClientFrame(isBinary: bool, data: seq<bv8>, json: Option<ClientJson>)

  /** The SQL statement of session start that throws, if any. */
  datatype DbStep = ProfileQuery | BeginStatement | GroupInsert | ChatInsert | CommitStatement

  /** What the environment supplies while a config frame is handled: two fresh uuids and a failing statement. */
  datatype StartOracle = StartOracle(groupId: Uuid, chatId: Uuid, fault: Option<DbStep>)

  /** Statement `step` throws while this config frame is handled. */
  predicate Throws(o: StartOracle, step: DbStep)
  {
    o.fault.Some? && o.fault.value == step
  }

  /**
   * The authenticated user, the `profiles` table as profile id to owning user,
   * and whether the upstream API key is configured.
   */
  datatype Env = Env(userId: Uuid, profiles: map<string, Uuid>, apiKeySet: bool)

  /** The profile check of lines 114-117: a row exists with that id and this user. */
  predicate OwnsProfile(env: Env, profileId: Option<string>)
  {
    profileId.Some? && profileId.value in env.profiles && env.profiles[profileId.value] == env.userId
  }

  predicate ValidModality(modality: Option<string>)
  {
    modality == Some("chat") || modality == Some("voice")
  }

  // ---------------------------------------------------------------------------
  // The per-connection state machine, as pure functions
  // ---------------------------------------------------------------------------

  /** The closure variables of one connection plus the client socket's state. */
  datatype Session = Session(
    client: ReadyState,
    hume: Option<ReadyState>,
    chatId: Option<Uuid>,
    chatGroupId: Option<Uuid>)

  /** What a handler leaves behind: the new state and the effects it issued. */
  datatype Step = Step(next: Session, effects: seq<Effect>)

  /** A fresh connection: client open, no upstream socket, no rows. */
  const Initial := Session(Open, None, None, None)

  /** `ws.close()`: starts the closing handshake unless one is under way. */
  function AfterClose(s: ReadyState): ReadyState
  {
    if s == Open || s == Connecting then Closing else s
  }

  /** The catch of lines 182-186: ROLLBACK, then close with 1011. */
  function InitFailure(s: Session, done: seq<Effect>): Step
  {
    Step(s.(client := AfterClose(s.client)), done + [Rollback, CloseClient(InternalError)])
  }

  /** The frame parses to a `start_session` object. */
  predicate IsStart(f: ClientFrame)
  {
    f.json.Some? && f.json.value.msgType == "start_session"
  }

  /**
   * The configuration frame passes every check of the start handler: it is a
   * `start_session` with a payload, the modality is `chat` or `voice`, and the
   * profile belongs to the user.
   */
  predicate ValidStart(env: Env, f: ClientFrame)
  {
    && IsStart(f) && f.json.value.payload.Some?
    && ValidModality(f.json.value.payload.value.modality)
    && OwnsProfile(env, f.json.value.payload.value.profileId)
  }

  /** How the start handler ends for one configuration frame. */
  datatype StartOutcome =
    | Malformed          // JSON.parse throws, or there is no payload to destructure
    | NotStartSession    // closed with 1002
    | BadModality        // closed with 1008
    | ProfileRejected    // closed with 1008
    | Failed(step: DbStep)  // a statement threw: ROLLBACK, closed with 1011
    | MissingApiKey      // rows committed, then closed with 1011
    | Bridged            // rows committed and the upstream socket created

  /**
   * The order in which the start handler checks a configuration frame:
   * parse, message type, payload, modality, profile query, ownership, then the
   * transaction's statements, then the API key.
   */
  function Outcome(env: Env, f: ClientFrame, o: StartOracle): (r: StartOutcome)
    ensures r == Malformed <==> f.json.None? || (IsStart(f) && f.json.value.payload.None?)
    ensures r == NotStartSession <==> f.json.Some? && !IsStart(f)
    ensures r == BadModality <==>
              IsStart(f) && f.json.value.payload.Some? && !ValidModality(f.json.value.payload.value.modality)
    ensures r == Failed(ProfileQuery) <==>
              IsStart(f) && f.json.value.payload.Some? && ValidModality(f.json.value.payload.value.modality)
              && Throws(o, ProfileQuery)
    ensures r == ProfileRejected <==>
              IsStart(f) && f.json.value.payload.Some? && ValidModality(f.json.value.payload.value.modality)
              && !Throws(o, ProfileQuery) && !ValidStart(env, f)
    ensures r.Failed? && r.step != ProfileQuery <==> ValidStart(env, f) && o.fault.Some? && !Throws(o, ProfileQuery)
    ensures r.Failed? ==> Throws(o, r.step)
    ensures r == MissingApiKey <==> ValidStart(env, f) && o.fault.None? && !env.apiKeySet
    ensures r == Bridged <==> ValidStart(env, f) && o.fault.None? && env.apiKeySet
  {
    if f.json.None? then Malformed
    else if !IsStart(f) then NotStartSession
    else if f.json.value.payload.None? then Malformed
    else if !ValidModality(f.json.value.payload.value.modality) then BadModality
    else if Throws(o, ProfileQuery) then Failed(ProfileQuery)
    else if !ValidStart(env, f) then ProfileRejected
    else if o.fault.Some? then Failed(o.fault.value)
    else if !env.apiKeySet then MissingApiKey
    else Bridged
  }

  /** The `chats` row the start handler inserts. */
  function ChatRowOf(f: ClientFrame, o: StartOracle): ChatRow
    requires f.json.Some? && f.json.value.payload.Some? && f.json.value.payload.value.modality.Some?
  {
    var p := f.json.value.payload.value;
    ChatRow(o.chatId, o.groupId, p.profileId, p.configId, Active, p.customSessionId, p.modality.value)
  }

  /** The statements that completed before statement `step` threw. */
  function CompletedBefore(f: ClientFrame, o: StartOracle, step: DbStep): (done: seq<Effect>)
    requires step == CommitStatement ==>
               f.json.Some? && f.json.value.payload.Some? && f.json.value.payload.value.modality.Some?
    ensures Commit !in done
  {
    match step
    case ProfileQuery => []
    case BeginStatement => []
    case GroupInsert => [Begin]
    case ChatInsert => [Begin, InsertGroup(o.groupId, 1, true)]
    case CommitStatement => [Begin, InsertGroup(o.groupId, 1, true), InsertChat(ChatRowOf(f, o))]
  }

  /**
   * A client frame while no upstream socket exists: it is taken as the
   * session-start configuration. The ids assigned before a failing statement
   * stay assigned.
   */
  function ConfigFrame(s: Session, env: Env, f: ClientFrame, o: StartOracle): (r: Step)
    requires s.hume.None?
    ensures r.next.hume.Some? <==> Outcome(env, f, o) == Bridged
    ensures r.next.hume.Some? ==> r.next.hume == Some(Connecting) && r.next.chatId == Some(o.chatId)
                                  && r.next.chatGroupId == Some(o.groupId)
    ensures r.next.hume.None? ==> r.next.client == AfterClose(s.client)
    ensures forall e :: e in r.effects ==> !IsFinalisation(e)
  {
    var closed := s.(client := AfterClose(s.client));
    match Outcome(env, f, o)
    case Malformed => InitFailure(s, [])
    case NotStartSession => Step(closed, [CloseClient(ProtocolError)])
    case BadModality => Step(closed, [CloseClient(PolicyViolation)])
    case ProfileRejected => Step(closed, [CloseClient(PolicyViolation)])
    case Failed(step) => Transaction(s, env, f, o)
    case MissingApiKey => Transaction(s, env, f, o)
    case Bridged => Transaction(s, env, f, o)
  }

  /**
   * The transaction of the start handler, for a frame whose modality passed:
   * the statements up to the one that throws, then the catch block; or all
   * four, committed, then the upstream socket if the API key is set. The ids
   * assigned before a failing statement stay assigned.
   */
  function Transaction(s: Session, env: Env, f: ClientFrame, o: StartOracle): Step
    requires IsStart(f) && f.json.value.payload.Some? && ValidModality(f.json.value.payload.value.modality)
  {
    match o.fault
    case Some(step) =>
      var withGroup := if step == ChatInsert || step == CommitStatement then s.(chatGroupId := Some(o.groupId)) else s;
      var withChat := if step == CommitStatement then withGroup.(chatId := Some(o.chatId)) else withGroup;
      InitFailure(withChat, CompletedBefore(f, o, step))
    case None =>
      if !env.apiKeySet then
        Step(s.(client := AfterClose(s.client), chatGroupId := Some(o.groupId), chatId := Some(o.chatId)),
             [Begin, InsertGroup(o.groupId, 1, true), InsertChat(ChatRowOf(f, o)), Commit, CloseClient(InternalError)])
      else
        Step(s.(hume := Some(Connecting), chatGroupId := Some(o.groupId), chatId := Some(o.chatId)),
             [Begin, InsertGroup(o.groupId, 1, true), InsertChat(ChatRowOf(f, o)), Commit, ConnectUpstream])
  }

  /**
   * How each outcome of the start handler shows in its effects: 1002 for a
   * frame that is not `start_session`, 1008 for a bad modality or a profile of
   * someone else, ROLLBACK and 1011 for a frame that cannot be read or a
   * statement that throws (after the statements that completed), and the four
   * statements of the transaction, committed, before the API key is looked at.
   */
  lemma ConfigFrameOutcomes(s: Session, env: Env, f: ClientFrame, o: StartOracle)
    requires s.hume.None?
    ensures var out := Outcome(env, f, o);
            var r := ConfigFrame(s, env, f, o);
            && (out == NotStartSession ==> r.effects == [CloseClient(ProtocolError)])
            && (out == BadModality || out == ProfileRejected ==> r.effects == [CloseClient(PolicyViolation)])
            && (out == Malformed ==> r.effects == [Rollback, CloseClient(InternalError)])
            && (out.Failed? ==> r.effects == CompletedBefore(f, o, out.step) + [Rollback, CloseClient(InternalError)])
            && (out == MissingApiKey || out == Bridged ==>
                  r.effects == [Begin, InsertGroup(o.groupId, 1, true), InsertChat(ChatRowOf(f, o)), Commit,
                                if out == Bridged then ConnectUpstream else CloseClient(InternalError)])
    ensures Commit in ConfigFrame(s, env, f, o).effects <==> ValidStart(env, f) && o.fault.None?
  {
  }

  /**
   * A client frame once the upstream socket exists: audio is forwarded
   * unchanged and text only as a well-formed `user_input`, both only while
   * the upstream socket is open; everything else is dropped.
   */
  function RouteFrame(s: Session, f: ClientFrame): (r: Step)
    requires s.hume.Some?
    ensures r.next == s
    ensures |r.effects| <= 1
    ensures forall e :: e in r.effects ==> e.SendToUpstream?
    ensures r.effects != [] ==> s.hume == Some(Open)
    ensures f.isBinary ==> r.effects == (if s.hume == Some(Open) then [SendToUpstream(Audio(f.data))] else [])
    ensures !f.isBinary && r.effects != [] ==>
              f.json.Some? && f.json.value.msgType == "user_input" && Truthy(f.json.value.text)
              && r.effects == [SendToUpstream(UserInput(f.json.value.text.value))]
  {
    if f.isBinary then
      Step(s, if s.hume == Some(Open) then [SendToUpstream(Audio(f.data))] else [])
    else
      match f.json
      case None => Step(s, [])
      case Some(command) =>
        if command.msgType == "user_input" && Truthy(command.text) && s.hume == Some(Open) then
          Step(s, [SendToUpstream(UserInput(command.text.value))])
        else
          Step(s, [])
  }

  /**
   * The client's `message` handler: the configuration frame while no upstream
   * socket exists, routing afterwards. A routed frame changes nothing and can
   * only be forwarded upstream; no client frame finalises anything.
   */
  function ClientMessage(s: Session, env: Env, f: ClientFrame, o: StartOracle): (r: Step)
    ensures s.hume.None? ==> (r.next.hume.Some? <==> Outcome(env, f, o) == Bridged)
    ensures s.hume.Some? ==> r.next == s && forall e :: e in r.effects ==> e.SendToUpstream?
    ensures forall e :: e in r.effects ==> !IsFinalisation(e)
  {
    if s.hume.None? then ConfigFrame(s, env, f, o) else RouteFrame(s, f)
  }

  /** Upstream `open`: the client learns the new chat id. */
  function UpstreamOpen(s: Session): (r: Step)
    ensures s.hume == Some(Connecting) ==>
              r.next == s.(hume := Some(Open)) && r.effects == [SendToClient(SessionReady(s.chatId))]
    ensures s.hume != Some(Connecting) ==> r == Step(s, [])
  {
    if s.hume == Some(Connecting) then Step(s.(hume := Some(Open)), [SendToClient(SessionReady(s.chatId))])
    else Step(s, [])
  }

  /** Upstream `message`: log it, then relay it verbatim while the client is open. */
  function UpstreamMessage(s: Session, raw: string, m: HumeMessage, eventId: Uuid): (r: Step)
    ensures r.next == s
    ensures s.hume.None? ==> r.effects == []
    ensures s.hume.Some? ==>
              r.effects == LogChatEvent(s.chatId, m, eventId)
                           + (if s.client == Open then [SendToClient(Relay(raw))] else [])
  {
    if s.hume.None? then Step(s, [])
    else Step(s, LogChatEvent(s.chatId, m, eventId) + (if s.client == Open then [SendToClient(Relay(raw))] else []))
  }

  /** Upstream `error`: an error frame to the client; the session goes on. */
  function UpstreamError(s: Session): (r: Step)
    ensures r.next == s
    ensures r.effects == (if s.hume.Some? && s.client == Open then [SendToClient(ErrorFrame("Hume connection error."))] else [])
  {
    Step(s, if s.hume.Some? && s.client == Open then [SendToClient(ErrorFrame("Hume connection error."))] else [])
  }

  /** Upstream `close`: close the client normally if it is still open. */
  function UpstreamClose(s: Session): (r: Step)
    ensures s.hume.None? ==> r == Step(s, [])
    ensures s.hume.Some? ==> r.next.hume == Some(Closed) && r.next.chatId == s.chatId && r.next.chatGroupId == s.chatGroupId
    ensures r.effects == (if s.hume.Some? && s.client == Open then [CloseClient(NormalClosure)] else [])
  {
    if s.hume.None? then Step(s, [])
    else if s.client == Open then Step(s.(hume := Some(Closed), client := Closing), [CloseClient(NormalClosure)])
    else Step(s.(hume := Some(Closed)), [])
  }

  /**
   * Client `close`: close upstream, finalise the chat and its group when they
   * were created, and release the pooled database client.
   */
  function ClientClose(s: Session): (r: Step)
    ensures r.next.client == Closed && r.next.chatId == s.chatId && r.next.chatGroupId == s.chatGroupId
    ensures r.next.hume.Some? <==> s.hume.Some?
    ensures r.effects == (if s.hume.Some? then [CloseUpstream] else [])
                         + (if s.chatId.Some? then [MarkChatComplete(s.chatId.value)] else [])
                         + (if s.chatGroupId.Some? then [MarkGroupInactive(s.chatGroupId.value)] else [])
                         + [ReleaseDbClient]
  {
    var closeUpstream := if s.hume.Some? then [CloseUpstream] else [];
    var chat := if s.chatId.Some? then [MarkChatComplete(s.chatId.value)] else [];
    var group := if s.chatGroupId.Some? then [MarkGroupInactive(s.chatGroupId.value)] else [];
    var hume := if s.hume.Some? then Some(AfterClose(s.hume.value)) else None;
    Step(s.(client := Closed, hume := hume), closeUpstream + chat + group + [ReleaseDbClient])
  }

  /** Client `error`: only closes upstream. */
  function ClientError(s: Session): (r: Step)
    ensures r.next.chatId == s.chatId && r.next.chatGroupId == s.chatGroupId && r.next.client == s.client
    ensures r.effects == (if s.hume.Some? then [CloseUpstream] else [])
  {
    if s.hume.Some? then Step(s.(hume := Some(AfterClose(s.hume.value))), [CloseUpstream]) else Step(s, [])
  }

  /** The database cleanup of client `close`. */
  predicate IsFinalisation(e: Effect)
  {
    e.MarkChatComplete? || e.MarkGroupInactive? || e.ReleaseDbClient?
  }

  /** The events a connection reacts to. */
  datatype Event =
    | ClientMessageEvent(frame: ClientFrame, oracle: StartOracle)
    | UpstreamOpened
    | UpstreamMessageEvent(raw: string, message: HumeMessage, eventId: Uuid)
    | UpstreamErrored
    | UpstreamClosed
    | ClientClosed
    | ClientErrored

  /**
   * One event of the connection. The chat and group ids are assigned only by
   * the configuration frame; no other event changes them.
   */
  function Handle(s: Session, env: Env, ev: Event): (r: Step)
    ensures !(ev.ClientMessageEvent? && s.hume.None?) ==>
              r.next.chatId == s.chatId && r.next.chatGroupId == s.chatGroupId
  {
    match ev
    case ClientMessageEvent(f, o) => ClientMessage(s, env, f, o)
    case UpstreamOpened => UpstreamOpen(s)
    case UpstreamMessageEvent(raw, m, id) => UpstreamMessage(s, raw, m, id)
    case UpstreamErrored => UpstreamError(s)
    case UpstreamClosed => UpstreamClose(s)
    case ClientClosed => ClientClose(s)
    case ClientErrored => ClientError(s)
  }

  /** A run of handler `h` over a trace of events, one event after another. */
  function RunWith(h: (Session, Event) -> Step, s: Session, evs: seq<Event>): Step
    decreases |evs|
  {
    if evs == [] then Step(s, [])
    else
      var first := h(s, evs[0]);
      var rest := RunWith(h, first.next, evs[1..]);
      Step(rest.next, first.effects + rest.effects)
  }

  /** The connection's handlers over a trace of events. */
  function Run(s: Session, env: Env, evs: seq<Event>): Step
  {
    RunWith((t, ev) => Handle(t, env, ev), s, evs)
  }

  /** Effects counted by kind. */
  function Count(effects: seq<Effect>, e: Effect): nat
  {
    multiset(effects)[e]
  }

  /** Running two traces in turn is running their concatenation. */
  lemma {:induction false} RunWithSplit(h: (Session, Event) -> Step, s: Session, a: seq<Event>, b: seq<Event>)
    decreases |a|
    ensures RunWith(h, s, a + b).next == RunWith(h, RunWith(h, s, a).next, b).next
    ensures RunWith(h, s, a + b).effects == RunWith(h, s, a).effects + RunWith(h, RunWith(h, s, a).next, b).effects
  {
    if a != [] {
      assert (a + b)[0] == a[0] && (a + b)[1..] == a[1..] + b;
      RunWithSplit(h, h(s, a[0]).next, a[1..], b);
    } else {
      assert a + b == b;
    }
  }

  /** An upstream socket only ever exists together with a committed chat and group. */
  predicate BridgeInv(s: Session)
  {
    s.hume.Some? ==> s.chatId.Some? && s.chatGroupId.Some?
  }

  /** No `session_ready` frame without a chat id. */
  predicate ReadyCarriesChat(effects: seq<Effect>)
  {
    forall e :: e in effects && e.SendToClient? && e.frame.SessionReady? ==> e.frame.chatId.Some?
  }

  /** One handler keeps `BridgeInv` and only announces a session with its chat id. */
  lemma HandleKeepsBridgeInv(s: Session, env: Env, ev: Event)
    requires BridgeInv(s)
    ensures BridgeInv(Handle(s, env, ev).next) && ReadyCarriesChat(Handle(s, env, ev).effects)
  {
    match ev
    case ClientMessageEvent(f, o) =>
      if s.hume.None? {
        var r := ConfigFrame(s, env, f, o);
        assert forall e :: e in r.effects ==> !e.SendToClient? by {
          var out := Outcome(env, f, o);
          if out.Failed? {
            assert r.effects == CompletedBefore(f, o, out.step) + [Rollback, CloseClient(InternalError)];
          }
        }
      }
    case UpstreamMessageEvent(raw, m, id) =>
    case _ =>
  }

  /** No trace breaks `BridgeInv`, and every `session_ready` frame carries the chat id. */
  lemma {:induction false} RunKeepsBridgeInv(s: Session, env: Env, evs: seq<Event>)
    decreases |evs|
    requires BridgeInv(s)
    ensures BridgeInv(Run(s, env, evs).next)
    ensures ReadyCarriesChat(Run(s, env, evs).effects)
  {
    if evs != [] {
      var h := (t, ev) => Handle(t, env, ev);
      HandleKeepsBridgeInv(s, env, evs[0]);
      RunKeepsBridgeInv(h(s, evs[0]).next, env, evs[1..]);
      assert Run(s, env, evs).effects == h(s, evs[0]).effects + Run(h(s, evs[0]).next, env, evs[1..]).effects;
    }
  }

  /** The cleanup of client `close`, counted. */
  lemma ClientCloseCounts(s: Session)
    ensures Count(ClientClose(s).effects, ReleaseDbClient) == 1
    ensures s.chatId.Some? ==> Count(ClientClose(s).effects, MarkChatComplete(s.chatId.value)) == 1
    ensures s.chatGroupId.Some? ==> Count(ClientClose(s).effects, MarkGroupInactive(s.chatGroupId.value)) == 1
  {
    var closeUpstream := if s.hume.Some? then [CloseUpstream] else [];
    var chat := if s.chatId.Some? then [MarkChatComplete(s.chatId.value)] else [];
    var group := if s.chatGroupId.Some? then [MarkGroupInactive(s.chatGroupId.value)] else [];
    var es := ClientClose(s).effects;
    assert es == closeUpstream + chat + group + [ReleaseDbClient];
    assert multiset(es) == multiset(closeUpstream) + multiset(chat) + multiset(group) + multiset{ReleaseDbClient};
  }

  /** Only client `close` finalises: no other handler issues a cleanup effect. */
  lemma HandleFinalises(s: Session, env: Env, ev: Event)
    ensures ev != ClientClosed ==> forall e :: e in Handle(s, env, ev).effects ==> !IsFinalisation(e)
    ensures ev == ClientClosed ==> Handle(s, env, ev) == ClientClose(s)
  {
    match ev
    case ClientMessageEvent(f, o) =>
      if s.hume.None? {
        var r := ConfigFrame(s, env, f, o);
        var out := Outcome(env, f, o);
        if out.Failed? {
          assert r.effects == CompletedBefore(f, o, out.step) + [Rollback, CloseClient(InternalError)];
        }
      }
    case UpstreamMessageEvent(raw, m, id) =>
    case _ =>
  }

  /** One handler, counted: the cleanup effects come from client `close` alone, once each. */
  lemma HandleCounts(s: Session, env: Env, ev: Event, chat: Uuid, group: Uuid)
    ensures Count(Handle(s, env, ev).effects, ReleaseDbClient) == (if ev == ClientClosed then 1 else 0)
    ensures s.chatId == Some(chat) ==>
              Count(Handle(s, env, ev).effects, MarkChatComplete(chat)) == (if ev == ClientClosed then 1 else 0)
    ensures s.chatGroupId == Some(group) ==>
              Count(Handle(s, env, ev).effects, MarkGroupInactive(group)) == (if ev == ClientClosed then 1 else 0)
  {
    HandleFinalises(s, env, ev);
    if ev == ClientClosed {
      ClientCloseCounts(s);
    } else {
      var es := Handle(s, env, ev).effects;
      assert ReleaseDbClient !in es && MarkChatComplete(chat) !in es && MarkGroupInactive(group) !in es;
    }
  }

  /** The effects of a trace are those of its first event followed by those of the rest. */
  lemma RunCons(s: Session, env: Env, evs: seq<Event>)
    requires evs != []
    ensures Run(s, env, evs).next == Run(Handle(s, env, evs[0]).next, env, evs[1..]).next
    ensures multiset(Run(s, env, evs).effects)
            == multiset(Handle(s, env, evs[0]).effects) + multiset(Run(Handle(s, env, evs[0]).next, env, evs[1..]).effects)
    ensures multiset(evs) == multiset{evs[0]} + multiset(evs[1..])
  {
    assert evs == [evs[0]] + evs[1..];
  }

  /** A trace of one event is that event's handler. */
  lemma RunSingle(s: Session, env: Env, ev: Event)
    ensures Run(s, env, [ev]) == Handle(s, env, ev)
  {
    var first := Handle(s, env, ev);
    assert [ev][1..] == [];
    assert RunWith((t, x) => Handle(t, env, x), first.next, []) == Step(first.next, []);
    assert first.effects + [] == first.effects;
  }

  /** The pooled database client is released once per client `close` event, whatever else happens. */
  lemma {:induction false} ReleasesMatchClientCloses(s: Session, env: Env, evs: seq<Event>)
    decreases |evs|
    ensures Count(Run(s, env, evs).effects, ReleaseDbClient) == multiset(evs)[ClientClosed]
  {
    if evs != [] {
      RunCons(s, env, evs);
      HandleCounts(s, env, evs[0], "", "");
      ReleasesMatchClientCloses(Handle(s, env, evs[0]).next, env, evs[1..]);
    }
  }

  /** The bridge exists with this chat and this group. */
  predicate BridgedTo(s: Session, chat: Uuid, group: Uuid)
  {
    s.hume.Some? && s.chatId == Some(chat) && s.chatGroupId == Some(group)
  }

  /**
   * Once the bridge exists, the chat and group ids never change, and each
   * client `close` event marks that chat COMPLETE and that group inactive
   * exactly once.
   */
  lemma {:induction false} FinalisedOncePerClose(s: Session, env: Env, evs: seq<Event>, chat: Uuid, group: Uuid)
    decreases |evs|
    requires BridgedTo(s, chat, group)
    ensures BridgedTo(Run(s, env, evs).next, chat, group)
    ensures Count(Run(s, env, evs).effects, MarkChatComplete(chat)) == multiset(evs)[ClientClosed]
    ensures Count(Run(s, env, evs).effects, MarkGroupInactive(group)) == multiset(evs)[ClientClosed]
  {
    if evs != [] {
      var first := Handle(s, env, evs[0]);
      assert BridgedTo(first.next, chat, group);
      RunCons(s, env, evs);
      HandleCounts(s, env, evs[0], chat, group);
      FinalisedOncePerClose(first.next, env, evs[1..], chat, group);
    }
  }

  /**
   * A bridged session that ends with the client disconnecting, whatever
   * happened before: upstream is closed, the chat is marked COMPLETE and the
   * group inactive exactly once, and the database client is released exactly
   * once.
   */
  lemma BridgedSessionEnds(s: Session, env: Env, middle: seq<Event>, chat: Uuid, group: Uuid)
    requires BridgedTo(s, chat, group)
    requires ClientClosed !in middle
    ensures var r := Run(s, env, middle + [ClientClosed]);
            && CloseUpstream in r.effects
            && Count(r.effects, MarkChatComplete(chat)) == 1
            && Count(r.effects, MarkGroupInactive(group)) == 1
            && Count(r.effects, ReleaseDbClient) == 1
            && r.next.client == Closed
  {
    var evs := middle + [ClientClosed];
    var mid := Run(s, env, middle);
    FinalisedOncePerClose(s, env, middle, chat, group);
    RunSplit(s, env, middle, [ClientClosed]);
    RunSingle(mid.next, env, ClientClosed);
    var last := ClientClose(mid.next);
    assert Run(mid.next, env, [ClientClosed]) == last;
    assert CloseUpstream in last.effects && last.next.client == Closed;
    assert Run(s, env, evs).effects == mid.effects + last.effects;
    assert multiset(middle)[ClientClosed] == 0;
    assert multiset(evs) == multiset(middle) + multiset{ClientClosed};
    FinalisedOncePerClose(s, env, evs, chat, group);
    ReleasesMatchClientCloses(s, env, evs);
  }

  /** `Run` over two traces in turn is `Run` over their concatenation. */
  lemma RunSplit(s: Session, env: Env, a: seq<Event>, b: seq<Event>)
    ensures Run(s, env, a + b).next == Run(Run(s, env, a).next, env, b).next
    ensures Run(s, env, a + b).effects == Run(s, env, a).effects + Run(Run(s, env, a).next, env, b).effects
  {
    RunWithSplit((t, ev) => Handle(t, env, ev), s, a, b);
  }

  // ---------------------------------------------------------------------------
  // The handler code
  // ---------------------------------------------------------------------------

  /** One client connection: the closure variables of `handleConnection` and its effect log. */
  class Connection {
    const env: Env
    var client: ReadyState
    var humeSocket: Option<ReadyState>
    var chatId: Option<Uuid>
    var chatGroupId: Option<Uuid>
    var log: seq<Effect>

    function State(): Session
      reads this
    {
      Session(client, humeSocket, chatId, chatGroupId)
    }

    /** A new connection, after the pooled database client has been acquired. */
    constructor (env: Env)
      ensures this.env == env && State() == Initial && log == []
    {
      this.env := env;
      client := Open;
      humeSocket := None;
      chatId := None;
      chatGroupId := None;
      log := [];
    }

    method Emit(e: Effect)
      modifies this
      ensures State() == old(State()) && log == old(log) + [e]
    {
      log := log + [e];
    }

    method CloseClientWith(code: int)
      modifies this
      ensures State() == old(State()).(client := AfterClose(old(client))) && log == old(log) + [CloseClient(code)]
    {
      log := log + [CloseClient(code)];
      if client == Open || client == Connecting {
        client := Closing;
      }
    }

    /** The catch block of the config handler. */
    method FailStart()
      modifies this
      ensures State() == InitFailure(old(State()), []).next
      ensures log == old(log) + InitFailure(old(State()), []).effects
    {
      Emit(Rollback);
      CloseClientWith(InternalError);
    }

    /** The client `message` handler. */
    method OnClientMessage(f: ClientFrame, o: StartOracle)
      modifies this
      ensures State() == ClientMessage(old(State()), env, f, o).next
      ensures log == old(log) + ClientMessage(old(State()), env, f, o).effects
    {
      if humeSocket.None? {
        StartSession(f, o);
      } else if f.isBinary {
        if humeSocket == Some(Open) {
          Emit(SendToUpstream(Audio(f.data)));
        }
      } else if f.json.Some? {
        var command := f.json.value;
        if command.msgType == "user_input" && Truthy(command.text) && humeSocket == Some(Open) {
          Emit(SendToUpstream(UserInput(command.text.value)));
        }
      }
    }

    /** The configuration branch of the `message` handler: checks, then the transaction. */
    method StartSession(f: ClientFrame, o: StartOracle)
      requires humeSocket.None?
      modifies this
      ensures State() == ConfigFrame(old(State()), env, f, o).next
      ensures log == old(log) + ConfigFrame(old(State()), env, f, o).effects
    {
      if f.json.None? {
        FailStart();
        return;
      }
      var config := f.json.value;
      if config.msgType != "start_session" {
        CloseClientWith(ProtocolError);
        return;
      }
      if config.payload.None? {
        FailStart();
        return;
      }
      var p := config.payload.value;
      if !ValidModality(p.modality) {
        CloseClientWith(PolicyViolation);
        return;
      }
      if Throws(o, ProfileQuery) {
        FailStart();
        return;
      }
      if !OwnsProfile(env, p.profileId) {
        CloseClientWith(PolicyViolation);
        return;
      }
      CreateRows(f, o);
    }

    /** BEGIN, the two inserts, COMMIT, then the upstream socket; the catch on any failure. */
    method CreateRows(f: ClientFrame, o: StartOracle)
      requires ValidStart(env, f) && !Throws(o, ProfileQuery)
      modifies this
      ensures State() == Transaction(old(State()), env, f, o).next
      ensures log == old(log) + Transaction(old(State()), env, f, o).effects
    {
      if Throws(o, BeginStatement) {
        FailStart();
        return;
      }
      Emit(Begin);
      if Throws(o, GroupInsert) {
        FailStart();
        return;
      }
      Emit(InsertGroup(o.groupId, 1, true));
      chatGroupId := Some(o.groupId);
      if Throws(o, ChatInsert) {
        FailStart();
        return;
      }
      Emit(InsertChat(ChatRowOf(f, o)));
      chatId := Some(o.chatId);
      if Throws(o, CommitStatement) {
        FailStart();
        return;
      }
      Emit(Commit);
      if !env.apiKeySet {
        CloseClientWith(InternalError);
        return;
      }
      humeSocket := Some(Connecting);
      Emit(ConnectUpstream);
    }

    /** Upstream `open`. */
    method OnUpstreamOpen()
      modifies this
      ensures State() == UpstreamOpen(old(State())).next
      ensures log == old(log) + UpstreamOpen(old(State())).effects
    {
      if humeSocket == Some(Connecting) {
        humeSocket := Some(Open);
        Emit(SendToClient(SessionReady(chatId)));
      }
    }

    /** Upstream `message`. */
    method OnUpstreamMessage(raw: string, m: HumeMessage, eventId: Uuid)
      modifies this
      ensures State() == UpstreamMessage(old(State()), raw, m, eventId).next
      ensures log == old(log) + UpstreamMessage(old(State()), raw, m, eventId).effects
    {
      if humeSocket.Some? {
        log := log + LogChatEvent(chatId, m, eventId);
        if client == Open {
          Emit(SendToClient(Relay(raw)));
        }
      }
    }

    /** Upstream `error`. */
    method OnUpstreamError()
      modifies this
      ensures State() == UpstreamError(old(State())).next
      ensures log == old(log) + UpstreamError(old(State())).effects
    {
      if humeSocket.Some? && client == Open {
        Emit(SendToClient(ErrorFrame("Hume connection error.")));
      }
    }

    /** Upstream `close`. */
    method OnUpstreamClose()
      modifies this
      ensures State() == UpstreamClose(old(State())).next
      ensures log == old(log) + UpstreamClose(old(State())).effects
    {
      if humeSocket.Some? {
        humeSocket := Some(Closed);
        if client == Open {
          CloseClientWith(NormalClosure);
        }
      }
    }

    /** Client `close`: the cleanup of lines 215-230. */
    method OnClientClose()
      modifies this
      ensures State() == ClientClose(old(State())).next
      ensures log == old(log) + ClientClose(old(State())).effects
    {
      client := Closed;
      if humeSocket.Some? {
        Emit(CloseUpstream);
        humeSocket := Some(AfterClose(humeSocket.value));
      }
      if chatId.Some? {
        Emit(MarkChatComplete(chatId.value));
      }
      if chatGroupId.Some? {
        Emit(MarkGroupInactive(chatGroupId.value));
      }
      Emit(ReleaseDbClient);
    }

    /** Client `error`. */
    method OnClientError()
      modifies this
      ensures State() == ClientError(old(State())).next
      ensures log == old(log) + ClientError(old(State())).effects
    {
      if humeSocket.Some? {
        Emit(CloseUpstream);
        humeSocket := Some(AfterClose(humeSocket.value));
      }
    }
  }
}
