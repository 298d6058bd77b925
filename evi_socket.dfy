/**
 * The unified EVI socket hook of the client (useEviSocket.ts): an expiry
 * check with a 60-second buffer and no refresh, the `start_session`
 * handshake, the `onmessage` switch with its speaking flag, and gated sends.
 */
module EviSocket {
  import opened Wrappers
  import opened Sockets
  import opened ClientJwt
  import opened Text
  import ChatSockets

  // ---------------------------------------------------------------------------
  // Token expiry
  // ---------------------------------------------------------------------------

  /**
   * `decodeJwt` of this hook: the second `.`-separated segment goes to `atob`
   * as it is, without an emptiness check, without translating the Base64url
   * alphabet and without UTF-8 decoding, and the binary string is parsed.
   * With no second segment `atob` receives the nine-character string
   * "undefined", which is not valid Base64, so the result is `null`.
   */
  function DecodeUnchecked(token: string, decode: Decoders): (r: Option<Payload>)
    ensures SecondPart(token, '.').None? ==> r.None?
    ensures SecondPart(token, '.').Some? ==>
              var bin := decode.atob(SecondPart(token, '.').value);
              (r.Some? <==> bin.Some? && decode.parse(bin.value).Some?)
              && (r.Some? ==> r == decode.parse(bin.value))
  {
    match SecondPart(token, '.')
    case None => None
    case Some(seg) =>
      match decode.atob(seg)
      case None => None
      case Some(bin) => decode.parse(bin)
  }

  /** The buffer the hook uses. */
  const ExpiryBufferSeconds := 60

  /**
   * `isTokenExpired`: fail-closed on a missing payload or `exp`; otherwise
   * `exp` is compared with the current time in seconds, not floored, which
   * is the comparison `exp * 1000 < now + 60000` in milliseconds.
   */
  function IsTokenExpired(token: string, nowMs: int, decode: Decoders): (expired: bool)
    ensures DecodeUnchecked(token, decode).None? ==> expired
    ensures DecodeUnchecked(token, decode).Some? && DecodeUnchecked(token, decode).value.exp.None? ==> expired
    ensures DecodeUnchecked(token, decode).Some? && DecodeUnchecked(token, decode).value.exp.Some? ==>
              (expired <==> DecodeUnchecked(token, decode).value.exp.value * 1000 < nowMs + ExpiryBufferSeconds * 1000)
  {
    match DecodeUnchecked(token, decode)
    case None => true
    case Some(payload) =>
      match payload.exp
      case None => true
      case Some(exp) =>
        ExpiredInMilliseconds(exp, nowMs);
        (exp as real) < (nowMs as real) / 1000.0 + ExpiryBufferSeconds as real
  }

  /** The unfloored comparison is exact in milliseconds. */
  lemma ExpiredInMilliseconds(exp: int, nowMs: int)
    ensures (exp as real) < (nowMs as real) / 1000.0 + ExpiryBufferSeconds as real
            <==> exp * 1000 < nowMs + ExpiryBufferSeconds * 1000
  {
    var e := exp as real;
    var n := nowMs as real;
    assert e < n / 1000.0 + 60.0 <==> e * 1000.0 < n + 60000.0;
    assert (exp * 1000) as real == e * 1000.0;
  }

  /**
   * A Base64url segment that uses `-` or `_` never decodes in this hook, so
   * such a token always counts as expired here, whatever the chat hook
   * reads from it.
   */
  lemma UrlAlphabetTokenExpires(token: string, nowMs: int, decode: Decoders)
    requires StrictAtob(decode)
    requires SecondPart(token, '.').Some?
    requires '-' in SecondPart(token, '.').value || '_' in SecondPart(token, '.').value
    ensures DecodeUnchecked(token, decode).None?
    ensures IsTokenExpired(token, nowMs, decode)
  {
    var seg := SecondPart(token, '.').value;
    assert decode.atob(seg).None?;
  }

  /**
   * Where the two decoders read the same payload, every token the text-chat
   * hook treats as expired (30 s, floored) this hook treats as expired too
   * (60 s, unfloored). They read the same payload when the segment is
   * non-empty and its bytes are their own UTF-8 reading (plain ASCII JSON);
   * a segment using the Base64url characters is expired here in any case.
   */
  lemma ChatExpiredImpliesEviExpired(token: string, nowMs: int, decode: Decoders)
    requires StrictAtob(decode)
    requires SecondPart(token, '.').Some? && SecondPart(token, '.').value != ""
    requires var bin := decode.atob(SecondPart(token, '.').value);
             bin.Some? ==> decode.utf8(bin.value) == bin
    requires ChatSockets.IsTokenExpired(token, nowMs, ChatSockets.ExpiryBufferSeconds, decode)
    ensures IsTokenExpired(token, nowMs, decode)
  {
    var seg := SecondPart(token, '.').value;
    if '-' in seg || '_' in seg {
      UrlAlphabetTokenExpires(token, nowMs, decode);
    } else {
      FromBase64UrlKeepsStandard(seg);
      assert DecodeJwt(token, decode) == DecodeUnchecked(token, decode);
      match DecodeUnchecked(token, decode) {
        case None =>
        case Some(payload) =>
          match payload.exp {
            case None =>
            case Some(exp) =>
              ChatSockets.ExpiredFromMillisecond(exp, nowMs, ChatSockets.ExpiryBufferSeconds);
              ExpiredInMilliseconds(exp, nowMs);
          }
      }
    }
  }

  // ---------------------------------------------------------------------------
  // The speaking flag
  // ---------------------------------------------------------------------------

  /** The event types that change `isAssistantSpeaking`. */
  predicate ChangesSpeaking(msgType: string)
  {
    msgType == "assistant_message" || msgType == "assistant_end" || msgType == "user_interruption"
  }

  /** The flag after one event: set by an assistant message, cleared by its end or an interruption. */
  function SpeakingAfter(speaking: bool, msgType: string): (s: bool)
    ensures ChangesSpeaking(msgType) ==> (s <==> msgType == "assistant_message")
    ensures !ChangesSpeaking(msgType) ==> s == speaking
  {
    if msgType == "assistant_message" then true
    else if msgType == "assistant_end" || msgType == "user_interruption" then false
    else speaking
  }

  /** The flag after a sequence of event types. */
  function SpeakingAfterAll(speaking: bool, types: seq<string>): bool
    decreases |types|
  {
    if types == [] then speaking
    else SpeakingAfter(SpeakingAfterAll(speaking, types[..|types| - 1]), types[|types| - 1])
  }

  /** Events that do not touch the flag leave its initial value. */
  lemma {:induction false} SpeakingKeptWithoutChange(speaking: bool, types: seq<string>)
    decreases |types|
    requires forall i :: 0 <= i < |types| ==> !ChangesSpeaking(types[i])
    ensures SpeakingAfterAll(speaking, types) == speaking
  {
    if types != [] {
      SpeakingKeptWithoutChange(speaking, types[..|types| - 1]);
    }
  }

  /**
   * The flag is decided by the last event that changes it: it is set iff that
   * event was an assistant message.
   */
  lemma {:induction false} SpeakingFollowsLastChange(speaking: bool, types: seq<string>, j: nat)
    decreases |types|
    requires j < |types| && ChangesSpeaking(types[j])
    requires forall k :: j < k < |types| ==> !ChangesSpeaking(types[k])
    ensures SpeakingAfterAll(speaking, types) == (types[j] == "assistant_message")
  {
    if j < |types| - 1 {
      var init := types[..|types| - 1];
      assert !ChangesSpeaking(types[|types| - 1]);
      SpeakingFollowsLastChange(speaking, init, j);
    }
  }

  // ---------------------------------------------------------------------------
  // The hook's state and handlers
  // ---------------------------------------------------------------------------

  datatype ConnectionState = Disconnected | Dialling | Connected | Errored
  datatype AuthStatus = Pending | Success | Failed
  datatype Modality = Chat | Voice

  /** A history entry; the assistant's carries its prosody scores when the frame has them. */
  datatype HistoryEntry =
    | UserEntry(text: string)
    | AssistantEntry(content: Option<string>, emotions: Option<map<string, real>>)

  /** A frame from the server after `JSON.parse`. */
  datatype HumeEvent = HumeEvent(msgType: string, message: FrameMessage, scores: Option<map<string, real>>)

  /**
   * The frames the switch reads without throwing inside a state updater: an
   * assistant message carries a `message`, an error's `message` is not an object.
   */
  predicate HandledEvent(e: HumeEvent)
  {
    (e.msgType == "assistant_message" ==> !e.message.NoMessage?)
    && (e.msgType == "error" ==> !e.message.Object?)
  }

  /** What the hook sends. */
  datatype OutFrame =
    | StartSession(profileId: string, modality: Modality)
    | UserInput(text: string)
    | AudioData(data: seq<bv8>)

  const SessionExpired := "Your session has expired. Please log in again."
  const AuthenticationFailed := "Authentication failed. Please log in again."
  const ConnectionErrorMessage := "A connection error occurred."
  const NotActive := "Connection is not active. Please wait or try reconnecting."
  const UnknownError := "An unknown error occurred."

  /** JavaScript truthiness of an optional string. */
  predicate Present(s: Option<string>)
  {
    s.Some? && s.value != ""
  }

  /** The error an `error` frame sets: its message when truthy, a fixed text otherwise. */
  function ErrorText(m: FrameMessage): (e: string)
    requires !m.Object?
    ensures m.Text? && m.s != "" ==> e == m.s
    ensures !(m.Text? && m.s != "") ==> e == UnknownError
  {
    if m.Text? && m.s != "" then m.s else UnknownError
  }

  class EviSocketClient {
    const profileId: Option<string>
    const modality: Modality
    var chatHistory: seq<HistoryEntry>
    var isAssistantSpeaking: bool
    var connectionState: ConnectionState
    var authStatus: AuthStatus
    var error: Option<string>
    /** `ws.current`: the current socket's state, `None` before the first one. */
    var socket: Option<ReadyState>
    var reconnectAttempts: nat
    /**
     * Superseded sockets whose `onclose` has still to fire. `connect` only
     * calls `close()` on the old socket and leaves its handlers attached.
     */
    var staleCloses: nat
    /** Tokens each new socket was opened with, the frames sent, the frames `onEvent` saw. */
    var socketsOpened: seq<string>
    var sent: seq<OutFrame>
    var observed: seq<HumeEvent>

    /** A socket exists only once a profile was there to connect with. */
    predicate Valid()
      reads this
    {
      socket.Some? ==> Present(profileId)
    }

    constructor (profile: Option<string>, mode: Modality)
      ensures Valid()
      ensures profileId == profile && modality == mode
      ensures chatHistory == [] && !isAssistantSpeaking && connectionState == Disconnected && authStatus == Pending
      ensures error.None? && socket.None? && reconnectAttempts == 0 && staleCloses == 0
      ensures socketsOpened == [] && sent == [] && observed == []
    {
      profileId := profile;
      modality := mode;
      chatHistory := [];
      isAssistantSpeaking := false;
      connectionState := Disconnected;
      authStatus := Pending;
      error := None;
      socket := None;
      reconnectAttempts := 0;
      staleCloses := 0;
      socketsOpened := [];
      sent := [];
      observed := [];
    }

    /**
     * `connect` (also the manual `reconnect`): without a profile it only sets
     * the status to pending. Otherwise the current socket is asked to close,
     * the state becomes connecting, and a socket is opened only with a
     * present, unexpired token; there is no refresh. A new socket replaces an
     * old one whose close is still to come, and that close stays pending.
     */
    method Connect(storedToken: Option<string>, nowMs: int, decode: Decoders)
      requires Valid()
      modifies this
      ensures Valid()
      ensures !Present(profileId) ==>
                authStatus == Pending && socket == old(socket) && connectionState == old(connectionState)
                && error == old(error) && socketsOpened == old(socketsOpened)
      ensures var usable := Present(storedToken) && !IsTokenExpired(storedToken.value, nowMs, decode);
              && (Present(profileId) ==> connectionState == Dialling)
              && (Present(profileId) && !usable ==>
                    authStatus == Failed && error == Some(SessionExpired) && socketsOpened == old(socketsOpened)
                    && socket == (if old(socket).Some? && old(socket).value in {Connecting, Open}
                                  then Some(Closing) else old(socket)))
              && (Present(profileId) && usable ==>
                    authStatus == Success && error == old(error) && socket == Some(Connecting)
                    && socketsOpened == old(socketsOpened) + [storedToken.value])
      ensures staleCloses == (if Present(profileId) && Present(storedToken)
                                 && !IsTokenExpired(storedToken.value, nowMs, decode)
                                 && old(socket).Some? && old(socket).value != Closed
                              then old(staleCloses) + 1 else old(staleCloses))
      ensures chatHistory == old(chatHistory) && isAssistantSpeaking == old(isAssistantSpeaking)
      ensures reconnectAttempts == old(reconnectAttempts) && sent == old(sent) && observed == old(observed)
    {
      if !Present(profileId) {
        authStatus := Pending;
        return;
      }
      if socket == Some(Connecting) || socket == Some(Open) {
        socket := Some(Closing);
      }
      connectionState := Dialling;
      if !Present(storedToken) || IsTokenExpired(storedToken.value, nowMs, decode) {
        authStatus := Failed;
        error := Some(SessionExpired);
        return;
      }
      authStatus := Success;
      if socket.Some? && socket.value != Closed {
        staleCloses := staleCloses + 1;
      }
      socket := Some(Connecting);
      socketsOpened := socketsOpened + [storedToken.value];
    }

    /** `onopen`: the handshake frame, and nothing else; the hook is not yet connected. */
    method OnOpen()
      requires Valid() && socket == Some(Connecting)
      modifies this
      ensures Valid()
      ensures socket == Some(Open) && sent == old(sent) + [StartSession(profileId.value, modality)]
      ensures connectionState == old(connectionState) && authStatus == old(authStatus) && error == old(error)
      ensures chatHistory == old(chatHistory) && isAssistantSpeaking == old(isAssistantSpeaking)
      ensures reconnectAttempts == old(reconnectAttempts) && observed == old(observed)
      ensures socketsOpened == old(socketsOpened) && staleCloses == old(staleCloses)
    {
      socket := Some(Open);
      sent := sent + [StartSession(profileId.value, modality)];
    }

    /**
     * `onmessage`: a frame that does not parse throws before anything
     * happens; a parsed frame is first shown to `onEvent`, then switched on
     * its type.
     */
    method OnMessage(frame: Option<HumeEvent>)
      requires socket.Some?
      requires frame.Some? ==> HandledEvent(frame.value)
      modifies this
      ensures frame.None? ==>
                observed == old(observed) && chatHistory == old(chatHistory) && connectionState == old(connectionState)
                && isAssistantSpeaking == old(isAssistantSpeaking) && error == old(error)
                && reconnectAttempts == old(reconnectAttempts)
      ensures frame.Some? ==>
                var e := frame.value;
                && observed == old(observed) + [e]
                && isAssistantSpeaking == SpeakingAfter(old(isAssistantSpeaking), e.msgType)
                && connectionState == (if e.msgType == "session_ready" then Connected else old(connectionState))
                && reconnectAttempts == (if e.msgType == "session_ready" then 0 else old(reconnectAttempts))
                && chatHistory == old(chatHistory)
                                  + (if e.msgType == "assistant_message"
                                     then [AssistantEntry(ContentOf(e.message), e.scores)] else [])
                && error == (if e.msgType == "session_ready" then None
                             else if e.msgType == "error" then Some(ErrorText(e.message))
                             else old(error))
      ensures socket == old(socket) && authStatus == old(authStatus) && sent == old(sent)
      ensures socketsOpened == old(socketsOpened) && staleCloses == old(staleCloses)
    {
      if frame.None? {
        return;
      }
      var data := frame.value;
      observed := observed + [data];
      match data.msgType {
        case "session_ready" =>
          connectionState := Connected;
          reconnectAttempts := 0;
          error := None;
        case "assistant_message" =>
          chatHistory := chatHistory + [AssistantEntry(ContentOf(data.message), data.scores)];
          isAssistantSpeaking := true;
        case "assistant_end" =>
          isAssistantSpeaking := false;
        case "user_interruption" =>
          isAssistantSpeaking := false;
        case "error" =>
          error := Some(ErrorText(data.message));
        case _ =>
      }
    }

    /** `onclose`: disconnected; 1008 also fails authentication. Nothing reconnects. */
    method OnClose(code: int)
      requires socket.Some?
      modifies this
      ensures socket == Some(Closed) && connectionState == Disconnected
      ensures code == PolicyViolation ==> error == Some(AuthenticationFailed) && authStatus == Failed
      ensures code != PolicyViolation ==> error == old(error) && authStatus == old(authStatus)
      ensures socketsOpened == old(socketsOpened) && sent == old(sent) && reconnectAttempts == old(reconnectAttempts)
      ensures chatHistory == old(chatHistory) && isAssistantSpeaking == old(isAssistantSpeaking)
      ensures observed == old(observed) && staleCloses == old(staleCloses)
    {
      socket := Some(Closed);
      connectionState := Disconnected;
      if code == PolicyViolation {
        error := Some(AuthenticationFailed);
        authStatus := Failed;
      }
    }

    /**
     * The `onclose` of a superseded socket fires: the same handler runs, so
     * the hook reports itself disconnected (and, on 1008, failed) while the
     * current socket is untouched and may well be connecting or open.
     */
    method OnStaleClose(code: int)
      requires staleCloses > 0
      modifies this
      ensures staleCloses == old(staleCloses) - 1
      ensures connectionState == Disconnected && socket == old(socket)
      ensures code == PolicyViolation ==> error == Some(AuthenticationFailed) && authStatus == Failed
      ensures code != PolicyViolation ==> error == old(error) && authStatus == old(authStatus)
      ensures socketsOpened == old(socketsOpened) && sent == old(sent) && reconnectAttempts == old(reconnectAttempts)
      ensures chatHistory == old(chatHistory) && isAssistantSpeaking == old(isAssistantSpeaking)
      ensures observed == old(observed)
    {
      staleCloses := staleCloses - 1;
      connectionState := Disconnected;
      if code == PolicyViolation {
        error := Some(AuthenticationFailed);
        authStatus := Failed;
      }
    }

    /** `onerror`. */
    method OnError()
      requires socket.Some?
      modifies this
      ensures error == Some(ConnectionErrorMessage) && connectionState == Errored
      ensures socket == old(socket) && authStatus == old(authStatus) && socketsOpened == old(socketsOpened)
      ensures sent == old(sent) && chatHistory == old(chatHistory) && isAssistantSpeaking == old(isAssistantSpeaking)
      ensures reconnectAttempts == old(reconnectAttempts) && observed == old(observed) && staleCloses == old(staleCloses)
    {
      error := Some(ConnectionErrorMessage);
      connectionState := Errored;
    }

    /** `sendTextInput`: on an open socket a `user_input` frame is sent and the history grows. */
    method SendTextInput(text: string)
      modifies this
      ensures socket == Some(Open) ==>
                sent == old(sent) + [UserInput(text)] && chatHistory == old(chatHistory) + [UserEntry(text)]
                && error == old(error)
      ensures socket != Some(Open) ==>
                sent == old(sent) && chatHistory == old(chatHistory) && error == Some(NotActive)
      ensures socket == old(socket) && connectionState == old(connectionState) && authStatus == old(authStatus)
      ensures isAssistantSpeaking == old(isAssistantSpeaking)
      ensures reconnectAttempts == old(reconnectAttempts) && socketsOpened == old(socketsOpened)
      ensures observed == old(observed) && staleCloses == old(staleCloses)
    {
      if socket == Some(Open) {
        sent := sent + [UserInput(text)];
        chatHistory := chatHistory + [UserEntry(text)];
      } else {
        error := Some(NotActive);
      }
    }

    /** `sendAudioInput`: on an open socket the data is sent; otherwise it is dropped silently. */
    method SendAudioInput(data: seq<bv8>)
      modifies this`sent
      ensures sent == (if socket == Some(Open) then old(sent) + [AudioData(data)] else old(sent))
    {
      if socket == Some(Open) {
        sent := sent + [AudioData(data)];
      }
    }
  }
}
