/**
 * The text-chat socket hook of the client (useChatSockets.ts): token expiry
 * with a 30-second buffer, a single-flight token refresh, the socket's
 * handlers with exponential-backoff reconnection, and sending.
 *
 * Clock readings, `localStorage` and the refresh response are inputs; the
 * hook's refs and state are the fields of `ChatSocketClient`.
 */
module ChatSockets {
  import opened Wrappers
  import opened Sockets
  import opened ClientJwt
  import AuthJwt

  // ---------------------------------------------------------------------------
  // Token expiry
  // ---------------------------------------------------------------------------

  /**
   * `isTokenExpired`: fail-closed, so a token that does not decode or has no
   * numeric `exp` counts as expired; otherwise `exp` is compared with the
   * current second, floored, plus the buffer.
   */
  function IsTokenExpired(token: string, nowMs: int, bufferSeconds: int, decode: Decoders): (expired: bool)
    ensures DecodeJwt(token, decode).None? ==> expired
    ensures DecodeJwt(token, decode).Some? && DecodeJwt(token, decode).value.exp.None? ==> expired
    ensures DecodeJwt(token, decode).Some? && DecodeJwt(token, decode).value.exp.Some? ==>
              (expired <==> (DecodeJwt(token, decode).value.exp.value - bufferSeconds + 1) * 1000 <= nowMs)
  {
    match DecodeJwt(token, decode)
    case None => true
    case Some(payload) =>
      match payload.exp
      case None => true
      case Some(exp) =>
        ExpiredFromMillisecond(exp, nowMs, bufferSeconds);
        exp < nowMs / 1000 + bufferSeconds
  }

  /** The buffer the hook uses. */
  const ExpiryBufferSeconds := 30

  /**
   * The floored comparison in milliseconds: a token with expiry `exp` counts as
   * expired from the millisecond `(exp - buffer + 1) * 1000` on.
   */
  lemma {:induction false} ExpiredFromMillisecond(exp: int, nowMs: int, bufferSeconds: int)
    ensures exp < nowMs / 1000 + bufferSeconds <==> (exp - bufferSeconds + 1) * 1000 <= nowMs
  {
    var q := nowMs / 1000;
    assert nowMs == q * 1000 + nowMs % 1000 && 0 <= nowMs % 1000 < 1000;
    if exp < q + bufferSeconds {
      assert exp - bufferSeconds + 1 <= q;
      assert (exp - bufferSeconds + 1) * 1000 <= q * 1000;
    } else {
      assert q + 1 <= exp - bufferSeconds + 1;
      assert (q + 1) * 1000 <= (exp - bufferSeconds + 1) * 1000;
    }
  }

  // ---------------------------------------------------------------------------
  // Reconnection policy
  // ---------------------------------------------------------------------------

  const MaxReconnectAttempts := 3

  function Pow2(k: nat): (p: nat)
    ensures p >= 1
  {
    if k == 0 then 1 else 2 * Pow2(k - 1)
  }

  /** `Math.pow(2, attempt) * 1000`: the delay before reconnection attempt `attempt`. */
  function BackoffDelay(attempt: nat): nat
  {
    Pow2(attempt) * 1000
  }

  /** What the `close` handler decides. */
  datatype CloseDecision =
    | AuthFailure                          // code 1008: no retry
    | Retry(attempt: nat, delay: nat)      // attempt counter after the increment, and the timer delay
    | GiveUp                               // the ceiling was reached: terminal error
    | NoRetry                              // a clean close below the ceiling

  /** The decision of the `close` handler for the current attempt counter. */
  function DecideOnClose(attempts: nat, code: int, wasClean: bool): (d: CloseDecision)
    ensures code == PolicyViolation <==> d == AuthFailure
    ensures d.Retry? <==> code != PolicyViolation && !wasClean && attempts < MaxReconnectAttempts
    ensures d.Retry? ==> d.attempt == attempts + 1 <= MaxReconnectAttempts && d.delay == BackoffDelay(d.attempt)
    ensures d == GiveUp <==> code != PolicyViolation && attempts >= MaxReconnectAttempts
  {
    if code == PolicyViolation then AuthFailure
    else if !wasClean && attempts < MaxReconnectAttempts then Retry(attempts + 1, BackoffDelay(attempts + 1))
    else if attempts >= MaxReconnectAttempts then GiveUp
    else NoRetry
  }

  /** A socket close, as the handler sees it. */
  datatype CloseEvent = CloseEvent(code: int, wasClean: bool)

  /**
   * The retry delays scheduled by successive closes when no connection opens
   * in between (an open resets the counter).
   */
  function RetryDelays(attempts: nat, closes: seq<CloseEvent>): seq<nat>
    decreases |closes|
  {
    if closes == [] then []
    else
      match DecideOnClose(attempts, closes[0].code, closes[0].wasClean)
      case Retry(next, delay) => [delay] + RetryDelays(next, closes[1..])
      case _ => RetryDelays(attempts, closes[1..])
  }

  /** Between two successful opens at most three retries are ever scheduled. */
  lemma {:induction false} AtMostThreeRetries(attempts: nat, closes: seq<CloseEvent>)
    decreases |closes|
    requires attempts <= MaxReconnectAttempts
    ensures |RetryDelays(attempts, closes)| <= MaxReconnectAttempts - attempts
  {
    if closes != [] {
      match DecideOnClose(attempts, closes[0].code, closes[0].wasClean)
      case Retry(next, delay) => AtMostThreeRetries(next, closes[1..]);
      case _ => AtMostThreeRetries(attempts, closes[1..]);
    }
  }

  /**
   * A run of unclean closes (none of them 1008) from a fresh counter schedules
   * exactly the delays 2000, 4000 and 8000 ms and then gives up.
   */
  lemma {:induction false} UncleanClosesBackOff(closes: seq<CloseEvent>)
    requires |closes| >= 4
    requires forall i :: 0 <= i < |closes| ==> !closes[i].wasClean && closes[i].code != PolicyViolation
    ensures RetryDelays(0, closes) == [2000, 4000, 8000]
    ensures DecideOnClose(3, closes[3].code, closes[3].wasClean) == GiveUp
  {
    var rest := closes[3..];
    assert closes[1..][1..][1..] == rest;
    GivesUpAfterCeiling(rest);
    assert RetryDelays(3, rest) == [];
    assert RetryDelays(2, closes[2..]) == [8000];
    assert RetryDelays(1, closes[1..]) == [4000, 8000];
  }

  /** At the ceiling no close schedules anything. */
  lemma {:induction false} GivesUpAfterCeiling(closes: seq<CloseEvent>)
    decreases |closes|
    ensures RetryDelays(MaxReconnectAttempts, closes) == []
  {
    if closes != [] {
      GivesUpAfterCeiling(closes[1..]);
    }
  }

  // ---------------------------------------------------------------------------
  // The hook's state and handlers
  // ---------------------------------------------------------------------------

  datatype ConnectionState = Disconnected | Dialling | Connected | Errored
  datatype AuthStatus = Pending | Success | Failed

  /** The chat history entry; the assistant's content may be absent in the frame. */
  datatype Message = UserMessage(text: string) | AssistantMessage(content: Option<string>)

  /** A server frame after `JSON.parse`. */
  datatype ServerFrame = ServerFrame(msgType: string, message: FrameMessage)

  /**
   * The frames the handler reads without throwing inside a state updater: an
   * assistant message carries a `message`, an error's `message` is not an object.
   */
  predicate HandledFrame(f: ServerFrame)
  {
    (f.msgType == "assistant_message" ==> !f.message.NoMessage?)
    && (f.msgType == "error" ==> !f.message.Object?)
  }

  /** The outcome of the refresh request, once its response is read. */
  datatype RefreshOutcome =
    | RefreshFailed                      // network error, unreadable body, or a status that is not ok
    | RefreshOk(token: Option<string>)   // the body's `token`, absent or present

  const SessionExpired := "Your session has expired. Please log in again."
  const AuthenticationFailed := "Authentication failed. Please log in again."
  const ConnectionLost := "Connection lost. Maximum reconnection attempts exceeded."
  const ParseError := "Error parsing server response"
  const SocketError := "WebSocket connection error occurred"
  const NotInitialised := "WebSocket is not initialized"

  /** The body the hook posts to the refresh endpoint. */
  function RefreshBody(refreshToken: string): map<string, string>
  {
    map["token" := refreshToken]
  }

  /**
   * The refresh body names its field `token`, while the server's refresh
   * handler reads `refreshToken`: the handler answers every such body with
   * 401. (The server as deployed does not route `/api/auth/refresh` to the
   * handler at all; the hook ends in `RefreshFailed` either way.)
   */
  lemma RefreshBodyAlwaysRejected(refreshToken: string, verify: AuthJwt.Verifier, sign: AuthJwt.Signer)
    ensures AuthJwt.Refresh(RefreshBody(refreshToken), verify, sign)
            == AuthJwt.Json(401, map["message" := AuthJwt.RefreshRequired])
  {
  }

  /** JavaScript truthiness of a stored item. */
  predicate Present(item: Option<string>)
  {
    item.Some? && item.value != ""
  }

  /** The name the send error uses for a socket state. */
  function StateName(s: ReadyState): string
  {
    match s
    case Connecting => "CONNECTING"
    case Open => "OPEN"
    case Closing => "CLOSING"
    case Closed => "CLOSED"
  }

  class ChatSocketClient {
    var messages: seq<Message>
    var isLoading: bool
    var connectionState: ConnectionState
    var authStatus: AuthStatus
    var error: Option<string>
    /** `ws.current`: the current socket's state, `None` when there is none. */
    var socket: Option<ReadyState>
    var reconnectAttempts: nat
    /** The delay of the pending reconnection timer, if one is pending. */
    var retryTimer: Option<nat>
    var isRefreshing: bool
    /** `localStorage` items `token` and `refreshToken`. */
    var storedToken: Option<string>
    var storedRefreshToken: Option<string>
    /** Tokens each new socket was opened with, the refresh bodies posted, the frames sent. */
    var socketsOpened: seq<string>
    var refreshRequests: seq<map<string, string>>
    var sent: seq<string>

    /** The attempt counter never exceeds the ceiling. */
    predicate Valid()
      reads this
    {
      reconnectAttempts <= MaxReconnectAttempts
    }

    constructor (token: Option<string>, refreshToken: Option<string>)
      ensures Valid()
      ensures messages == [] && !isLoading && connectionState == Disconnected && authStatus == Pending
      ensures error.None? && socket.None? && reconnectAttempts == 0 && retryTimer.None? && !isRefreshing
      ensures storedToken == token && storedRefreshToken == refreshToken
      ensures socketsOpened == [] && refreshRequests == [] && sent == []
    {
      messages := [];
      isLoading := false;
      connectionState := Disconnected;
      authStatus := Pending;
      error := None;
      socket := None;
      reconnectAttempts := 0;
      retryTimer := None;
      isRefreshing := false;
      storedToken := token;
      storedRefreshToken := refreshToken;
      socketsOpened := [];
      refreshRequests := [];
      sent := [];
    }

    /** `cleanup`: cancel the timer and drop the current socket with its handlers. */
    method Cleanup()
      modifies this
      ensures retryTimer.None? && socket.None?
      ensures messages == old(messages) && isLoading == old(isLoading) && connectionState == old(connectionState)
      ensures authStatus == old(authStatus) && error == old(error) && reconnectAttempts == old(reconnectAttempts)
      ensures isRefreshing == old(isRefreshing) && storedToken == old(storedToken)
      ensures storedRefreshToken == old(storedRefreshToken) && socketsOpened == old(socketsOpened)
      ensures refreshRequests == old(refreshRequests) && sent == old(sent)
    {
      retryTimer := None;
      socket := None;
    }

    /** No usable token: the connection attempt ends. */
    method AbortConnect()
      modifies this
      ensures authStatus == Failed && error == Some(SessionExpired)
      ensures messages == old(messages) && isLoading == old(isLoading) && connectionState == old(connectionState)
      ensures socket == old(socket) && reconnectAttempts == old(reconnectAttempts) && retryTimer == old(retryTimer)
      ensures isRefreshing == old(isRefreshing) && storedToken == old(storedToken)
      ensures storedRefreshToken == old(storedRefreshToken) && socketsOpened == old(socketsOpened)
      ensures refreshRequests == old(refreshRequests) && sent == old(sent)
    {
      authStatus := Failed;
      error := Some(SessionExpired);
    }

    /** The part of `connect` after a token is in hand: a new socket. */
    method OpenSocket(token: string)
      modifies this
      ensures authStatus == Success && connectionState == Dialling && error.None?
      ensures socket == Some(Connecting) && socketsOpened == old(socketsOpened) + [token]
      ensures messages == old(messages) && isLoading == old(isLoading)
      ensures reconnectAttempts == old(reconnectAttempts) && retryTimer == old(retryTimer)
      ensures isRefreshing == old(isRefreshing) && storedToken == old(storedToken)
      ensures storedRefreshToken == old(storedRefreshToken)
      ensures refreshRequests == old(refreshRequests) && sent == old(sent)
    {
      authStatus := Success;
      connectionState := Dialling;
      error := None;
      socket := Some(Connecting);
      socketsOpened := socketsOpened + [token];
    }

    /**
     * What `connect` leaves behind, from the state it started in: with a usable
     * stored token a socket is opened at once; otherwise the refresh starts,
     * unless one is already in flight (then the attempt fails), and without a
     * refresh token both tokens are removed and the attempt fails.
     */
    twostate predicate ConnectOutcome(nowMs: int, decode: Decoders)
      reads this
    {
      var usable := Present(old(storedToken))
                    && !IsTokenExpired(old(storedToken).value, nowMs, ExpiryBufferSeconds, decode);
      && retryTimer.None? && messages == old(messages) && isLoading == old(isLoading) && sent == old(sent)
      && (usable ==> socket == Some(Connecting) && authStatus == Success && connectionState == Dialling
                     && socketsOpened == old(socketsOpened) + [old(storedToken).value]
                     && refreshRequests == old(refreshRequests) && isRefreshing == old(isRefreshing) && error.None?
                     && storedToken == old(storedToken) && storedRefreshToken == old(storedRefreshToken))
      && (!usable ==> socket.None? && socketsOpened == old(socketsOpened)
                      && connectionState == old(connectionState))
      && (!usable && old(isRefreshing) ==>
            authStatus == Failed && error == Some(SessionExpired) && isRefreshing
            && refreshRequests == old(refreshRequests) && storedToken == old(storedToken)
            && storedRefreshToken == old(storedRefreshToken))
      && (!usable && !old(isRefreshing) && !Present(old(storedRefreshToken)) ==>
            authStatus == Failed && error == Some(SessionExpired) && !isRefreshing
            && storedToken.None? && storedRefreshToken.None? && refreshRequests == old(refreshRequests))
      && (!usable && !old(isRefreshing) && Present(old(storedRefreshToken)) ==>
            isRefreshing && authStatus == old(authStatus) && error == old(error)
            && storedToken == old(storedToken) && storedRefreshToken == old(storedRefreshToken)
            && refreshRequests == old(refreshRequests) + [RefreshBody(old(storedRefreshToken).value)])
    }

    /**
     * `connect` up to its first `await`: with a usable stored token a socket is
     * opened at once; otherwise the refresh starts, unless one is already in
     * flight (then the attempt fails), and without a refresh token both tokens
     * are removed and the attempt fails. A started refresh is completed by
     * `FinishRefresh`.
     */
    method Connect(nowMs: int, decode: Decoders)
      requires Valid()
      modifies this
      ensures Valid()
      ensures reconnectAttempts == old(reconnectAttempts)
      ensures ConnectOutcome(nowMs, decode)
    {
      Cleanup();
      var token := storedToken;
      if Present(token) && !IsTokenExpired(token.value, nowMs, ExpiryBufferSeconds, decode) {
        OpenSocket(token.value);
        return;
      }
      if isRefreshing {
        AbortConnect();
        return;
      }
      isRefreshing := true;
      if !Present(storedRefreshToken) {
        storedToken := None;
        storedRefreshToken := None;
        isRefreshing := false;
        AbortConnect();
        return;
      }
      refreshRequests := refreshRequests + [RefreshBody(storedRefreshToken.value)];
    }

    /**
     * The refresh response arrives: the flag is cleared on every path; a
     * failure removes both tokens; an ok response stores its `token` (an
     * absent one is stored as the string "undefined") and, when it is
     * truthy, `connect` goes on with it without checking its expiry.
     */
    method FinishRefresh(outcome: RefreshOutcome)
      requires isRefreshing
      modifies this
      ensures !isRefreshing
      ensures retryTimer == old(retryTimer) && reconnectAttempts == old(reconnectAttempts)
      ensures messages == old(messages) && isLoading == old(isLoading) && sent == old(sent)
      ensures refreshRequests == old(refreshRequests)
      ensures outcome.RefreshFailed? ==> storedToken.None? && storedRefreshToken.None?
      ensures outcome.RefreshOk? ==>
                storedToken == Some(if outcome.token.Some? then outcome.token.value else "undefined")
                && storedRefreshToken == old(storedRefreshToken)
      ensures outcome.RefreshOk? && Present(outcome.token) ==>
                socket == Some(Connecting) && authStatus == Success && connectionState == Dialling && error.None?
                && socketsOpened == old(socketsOpened) + [outcome.token.value]
      ensures !(outcome.RefreshOk? && Present(outcome.token)) ==>
                authStatus == Failed && error == Some(SessionExpired) && socket == old(socket)
                && socketsOpened == old(socketsOpened) && connectionState == old(connectionState)
    {
      var token: Option<string>;
      match outcome {
        case RefreshFailed =>
          storedToken := None;
          storedRefreshToken := None;
          token := None;
        case RefreshOk(t) =>
          storedToken := Some(if t.Some? then t.value else "undefined");
          token := t;
      }
      isRefreshing := false;
      if !Present(token) {
        AbortConnect();
        return;
      }
      OpenSocket(token.value);
    }

    /** `onopen`: connected, and the attempt counter starts again from 0. */
    method OnOpen()
      requires Valid()
      modifies this
      ensures Valid()
      ensures old(socket) == Some(Connecting) ==>
                socket == Some(Open) && connectionState == Connected && error.None? && reconnectAttempts == 0
      ensures old(socket) != Some(Connecting) ==>
                socket == old(socket) && connectionState == old(connectionState) && error == old(error)
                && reconnectAttempts == old(reconnectAttempts)
      ensures messages == old(messages) && isLoading == old(isLoading) && authStatus == old(authStatus)
      ensures retryTimer == old(retryTimer) && sent == old(sent) && socketsOpened == old(socketsOpened)
      ensures isRefreshing == old(isRefreshing) && storedToken == old(storedToken)
      ensures storedRefreshToken == old(storedRefreshToken) && refreshRequests == old(refreshRequests)
    {
      if socket == Some(Connecting) {
        socket := Some(Open);
        connectionState := Connected;
        error := None;
        reconnectAttempts := 0;
      }
    }

    /**
     * `onmessage`, for a frame that parsed (`Some`) or did not (`None`): an
     * assistant message ends loading and is appended with its `content`; an
     * error frame sets the error to its `message` and ends loading; an
     * unparsable frame is reported as a parse error.
     */
    method OnMessage(frame: Option<ServerFrame>)
      requires socket.Some?
      requires frame.Some? ==> HandledFrame(frame.value)
      modifies this
      ensures frame.None? ==> error == Some(ParseError) && messages == old(messages) && isLoading == old(isLoading)
      ensures frame.Some? && frame.value.msgType == "assistant_message" ==>
                !isLoading && error == old(error)
                && messages == old(messages) + [AssistantMessage(ContentOf(frame.value.message))]
      ensures frame.Some? && frame.value.msgType == "error" ==>
                !isLoading && messages == old(messages)
                && error == (if frame.value.message.Text? then Some(frame.value.message.s) else None)
      ensures frame.Some? && frame.value.msgType != "assistant_message" && frame.value.msgType != "error" ==>
                error == old(error) && messages == old(messages) && isLoading == old(isLoading)
      ensures socket == old(socket) && connectionState == old(connectionState) && authStatus == old(authStatus)
      ensures reconnectAttempts == old(reconnectAttempts) && retryTimer == old(retryTimer) && sent == old(sent)
      ensures isRefreshing == old(isRefreshing) && storedToken == old(storedToken)
      ensures storedRefreshToken == old(storedRefreshToken) && refreshRequests == old(refreshRequests)
      ensures socketsOpened == old(socketsOpened)
    {
      if frame.None? {
        error := Some(ParseError);
        return;
      }
      var data := frame.value;
      if data.msgType == "assistant_message" {
        isLoading := false;
        messages := messages + [AssistantMessage(ContentOf(data.message))];
      } else if data.msgType == "error" {
        error := if data.message.Text? then Some(data.message.s) else None;
        isLoading := false;
      }
    }

    /** `onclose`: disconnected; then no retry on 1008, backoff on an unclean close below the ceiling. */
    method OnClose(code: int, wasClean: bool)
      requires Valid() && socket.Some?
      modifies this
      ensures Valid()
      ensures socket == Some(Closed) && connectionState == Disconnected && !isLoading
      ensures var d := DecideOnClose(old(reconnectAttempts), code, wasClean);
              && (d == AuthFailure ==> error == Some(AuthenticationFailed) && authStatus == Failed
                                       && retryTimer == old(retryTimer) && reconnectAttempts == old(reconnectAttempts))
              && (d.Retry? ==> reconnectAttempts == d.attempt && retryTimer == Some(d.delay)
                               && error == old(error) && authStatus == old(authStatus))
              && (d == GiveUp ==> error == Some(ConnectionLost) && retryTimer == old(retryTimer)
                                  && reconnectAttempts == old(reconnectAttempts) && authStatus == old(authStatus))
              && (d == NoRetry ==> error == old(error) && retryTimer == old(retryTimer)
                                   && reconnectAttempts == old(reconnectAttempts) && authStatus == old(authStatus))
      ensures messages == old(messages) && sent == old(sent) && socketsOpened == old(socketsOpened)
      ensures isRefreshing == old(isRefreshing) && storedToken == old(storedToken)
      ensures storedRefreshToken == old(storedRefreshToken) && refreshRequests == old(refreshRequests)
    {
      socket := Some(Closed);
      connectionState := Disconnected;
      isLoading := false;
      if code == PolicyViolation {
        error := Some(AuthenticationFailed);
        authStatus := Failed;
        return;
      }
      if !wasClean && reconnectAttempts < MaxReconnectAttempts {
        reconnectAttempts := reconnectAttempts + 1;
        retryTimer := Some(BackoffDelay(reconnectAttempts));
      } else if reconnectAttempts >= MaxReconnectAttempts {
        error := Some(ConnectionLost);
      }
    }

    /** `onerror`. */
    method OnError()
      requires socket.Some?
      modifies this
      ensures connectionState == Errored && error == Some(SocketError) && !isLoading
      ensures socket == old(socket) && messages == old(messages) && authStatus == old(authStatus)
      ensures reconnectAttempts == old(reconnectAttempts) && retryTimer == old(retryTimer) && sent == old(sent)
      ensures isRefreshing == old(isRefreshing) && storedToken == old(storedToken)
      ensures storedRefreshToken == old(storedRefreshToken) && refreshRequests == old(refreshRequests)
      ensures socketsOpened == old(socketsOpened)
    {
      connectionState := Errored;
      error := Some(SocketError);
      isLoading := false;
    }

    /** The reconnection timer fires and runs `connect`. */
    method RetryTimerFires(nowMs: int, decode: Decoders)
      requires Valid() && retryTimer.Some?
      modifies this
      ensures Valid() && reconnectAttempts == old(reconnectAttempts)
      ensures ConnectOutcome(nowMs, decode)
    {
      Connect(nowMs, decode);
    }

    /** `reconnect`: a manual attempt with the counter reset. */
    method Reconnect(nowMs: int, decode: Decoders)
      requires Valid()
      modifies this
      ensures Valid() && reconnectAttempts == 0
      ensures ConnectOutcome(nowMs, decode)
    {
      reconnectAttempts := 0;
      Connect(nowMs, decode);
    }

    /**
     * `handleSendMessage`: only an open socket sends; the message is then
     * appended and loading starts. Otherwise the error names the socket state
     * and the history is unchanged.
     */
    method HandleSendMessage(content: string)
      modifies this
      ensures socket == Some(Open) ==>
                messages == old(messages) + [UserMessage(content)] && sent == old(sent) + [content]
                && isLoading && error.None?
      ensures socket != Some(Open) ==> messages == old(messages) && sent == old(sent) && isLoading == old(isLoading)
      ensures socket.None? ==> error == Some(NotInitialised)
      ensures socket.Some? && socket != Some(Open) ==>
                error == Some("Cannot send message. WebSocket state: " + StateName(socket.value))
      ensures socket == old(socket) && connectionState == old(connectionState) && authStatus == old(authStatus)
      ensures reconnectAttempts == old(reconnectAttempts) && retryTimer == old(retryTimer)
      ensures isRefreshing == old(isRefreshing) && storedToken == old(storedToken)
      ensures storedRefreshToken == old(storedRefreshToken) && refreshRequests == old(refreshRequests)
      ensures socketsOpened == old(socketsOpened)
    {
      if socket.None? {
        error := Some(NotInitialised);
        return;
      }
      if socket == Some(Open) {
        messages := messages + [UserMessage(content)];
        sent := sent + [content];
        isLoading := true;
        error := None;
      } else {
        error := Some("Cannot send message. WebSocket state: " + StateName(socket.value));
      }
    }
  }
}
