/**
 * The earlier real-time chat handler (rtchatService.js): the upstream socket
 * is opened first, then the group and chat rows are created in one
 * transaction for the user's newest profile; frames are relayed and logged
 * until the first close or error from either socket settles the wait; the
 * `finally` block then closes what is open, finalises the rows and releases
 * the database client.
 */
module RtchatService {
  import opened Wrappers
  import opened Sockets

  type Uuid = string

  /** The statements of the initialisation transaction that can throw. */
  datatype InitStep = BeginStep | ProfileStep | GroupStep | ChatStep | CommitStep

  /**
   * What the outside world answers during initialisation: whether the
   * upstream socket opens, the user's profile ids newest first, the ids the
   * inserts return, and the statement that throws, if any.
   */
  datatype InitOracle = InitOracle(upstreamOpens: bool, profiles: seq<Uuid>, groupId: Uuid, chatId: Uuid,
                                   fault: Option<InitStep>)

  /**
   * An upstream frame. `message` is `None` when the frame has no `message`
   * object; inside it, `content` is `None` when that field is absent.
   */
  datatype UpstreamMsg = UpstreamMsg(msgType: string, message: Option<MessageBody>,
                                     scores: Option<map<string, real>>)

  datatype MessageBody = MessageBody(content: Option<string>)

  /** A `chat_events` row; a `text` of `None` is the NULL an absent `content` binds to. */
  datatype EventRow = EventRow(chatId: Uuid, role: string, eventType: string, text: Option<string>,
                               emotions: map<string, real>)

  datatype ClientFrame = Relay(msg: UpstreamMsg) | ErrorFrame(message: string)

  /** Every outbound action, in order. */
  datatype Effect =
    | ConnectUpstream
    | Begin
    | ProfileQuery(userId: string)
    | InsertGroup(groupId: Uuid)
    | InsertChat(chatId: Uuid, chatGroupId: Uuid, profileId: Uuid)
    | Commit
    | Rollback
    | SendToClient(frame: ClientFrame)
    | SendUserInput(text: string)
    | InsertEvent(row: EventRow)
    | CloseUpstream
    | MarkChatComplete(id: Uuid)
    | MarkGroupInactive(id: Uuid)
    | ReleaseDbClient
    | CloseClient

  const InitErrorMessage := "Server error during chat initialization."

  /** Statements sent to the database. */
  predicate IsDbStatement(e: Effect)
  {
    e.Begin? || e.ProfileQuery? || e.InsertGroup? || e.InsertChat? || e.Commit?
  }

  predicate Throws(o: InitOracle, step: InitStep)
  {
    o.fault.Some? && o.fault.value == step
  }

  /**
   * The result of the `try` block up to the wait, with the `catch` block when
   * it threw; `upstreamOpen` records whether the upstream socket got open.
   */
  datatype InitResult = InitResult(effects: seq<Effect>, chatId: Option<Uuid>, chatGroupId: Option<Uuid>,
                                   upstreamOpen: bool, ok: bool)

  /** The `catch` block: a rollback, and an error frame if the client is still open. */
  function Recover(clientOpen: bool): (effects: seq<Effect>)
    ensures |effects| >= 1 && effects[0] == Rollback
    ensures SendToClient(ErrorFrame(InitErrorMessage)) in effects <==> clientOpen
    ensures forall e :: e in effects ==> !IsDbStatement(e) && e != ReleaseDbClient
  {
    [Rollback] + (if clientOpen then [SendToClient(ErrorFrame(InitErrorMessage))] else [])
  }

  /** The initialisation statements in the order the handler issues them. */
  function Statements(userId: string, o: InitOracle): seq<Effect>
  {
    [ConnectUpstream, Begin, ProfileQuery(userId), InsertGroup(o.groupId),
     InsertChat(o.chatId, o.groupId, if o.profiles == [] then "" else o.profiles[0]), Commit]
  }

  /** How many of the statements are issued: up to and including the one that throws. */
  function Reached(o: InitOracle): (n: nat)
    ensures 1 <= n <= 6
  {
    if !o.upstreamOpens then 1
    else if Throws(o, BeginStep) then 2
    else if Throws(o, ProfileStep) || o.profiles == [] then 3
    else if Throws(o, GroupStep) then 4
    else if Throws(o, ChatStep) then 5
    else 6
  }

  /**
   * The initialisation: the statements up to the one that throws, then the
   * `catch` block. The group id is assigned once its insert returns and the
   * chat id once the chat insert returns.
   */
  function Initialise(userId: string, o: InitOracle, clientOpen: bool): (r: InitResult)
    ensures |r.effects| >= 1 && r.effects[0] == ConnectUpstream
    ensures r.ok ==> r.chatId.Some?
    ensures r.chatId.Some? ==> r.chatGroupId.Some?
    ensures r.upstreamOpen == o.upstreamOpens && (r.ok ==> r.upstreamOpen)
    ensures ReleaseDbClient !in r.effects && CloseUpstream !in r.effects && CloseClient !in r.effects
  {
    var n := Reached(o);
    var ok := n == 6 && !Throws(o, CommitStep);
    InitResult(Statements(userId, o)[..n] + (if ok then [] else Recover(clientOpen)),
               if n == 6 then Some(o.chatId) else None,
               if n >= 5 then Some(o.groupId) else None,
               o.upstreamOpens,
               ok)
  }

  /**
   * Initialisation succeeds exactly when the upstream socket opens, no
   * statement throws and the user has a profile; the chat then belongs to the
   * newest profile, and both rows are committed.
   */
  lemma InitialiseSucceeds(userId: string, o: InitOracle, clientOpen: bool)
    ensures var r := Initialise(userId, o, clientOpen);
            && (r.ok <==> o.upstreamOpens && o.fault.None? && o.profiles != [])
            && (r.ok ==> r.effects == [ConnectUpstream, Begin, ProfileQuery(userId), InsertGroup(o.groupId),
                                       InsertChat(o.chatId, o.groupId, o.profiles[0]), Commit]
                         && r.chatId == Some(o.chatId) && r.chatGroupId == Some(o.groupId))
  {
    var r := Initialise(userId, o, clientOpen);
    if r.ok {
      assert Statements(userId, o)[..6] == Statements(userId, o);
    }
  }

  /** No database statement is issued before the upstream socket is open. */
  lemma UpstreamBeforeDatabase(userId: string, o: InitOracle, clientOpen: bool)
    ensures var r := Initialise(userId, o, clientOpen);
            forall i :: 0 <= i < |r.effects| && IsDbStatement(r.effects[i]) ==> 0 < i && o.upstreamOpens
  {
    var r := Initialise(userId, o, clientOpen);
    var n := Reached(o);
    var rec := if r.ok then [] else Recover(clientOpen);
    assert r.effects == Statements(userId, o)[..n] + rec;
    forall i | n <= i < |r.effects|
      ensures !IsDbStatement(r.effects[i])
    {
      assert r.effects[i] == rec[i - n] && rec[i - n] in rec;
    }
    forall i | 0 <= i < n
      ensures r.effects[i] == Statements(userId, o)[i]
    {
    }
  }

  /**
   * A failure rolls back and ends with the `catch` block. One after a row id
   * was assigned leaves that id set although its row rolled back, so the
   * `finally` block still issues the update for it.
   */
  lemma FailureRollsBack(userId: string, o: InitOracle, clientOpen: bool)
    ensures var r := Initialise(userId, o, clientOpen);
            && (!r.ok ==> r.effects[|r.effects| - |Recover(clientOpen)|..] == Recover(clientOpen))
            && ((!r.ok && r.chatGroupId.Some?)
                <==> (o.upstreamOpens && o.profiles != [] && (Throws(o, ChatStep) || Throws(o, CommitStep))))
  {
    var r := Initialise(userId, o, clientOpen);
    if !r.ok {
      var st := Statements(userId, o)[..Reached(o)];
      assert r.effects == st + Recover(clientOpen);
      assert r.effects[|st|..] == Recover(clientOpen);
    }
  }

  /**
   * A failed initialisation runs `finally` with the upstream socket open
   * exactly when it got open, so that socket is closed exactly then; the
   * database client is released once and the client socket closed iff open.
   */
  lemma FailedStartClosesUpstream(userId: string, o: InitOracle, clientOpen: bool)
    ensures var r := Initialise(userId, o, clientOpen);
            var effects := r.effects + Cleanup(r.upstreamOpen, r.chatId, r.chatGroupId, clientOpen);
            !r.ok ==> (CloseUpstream in effects <==> o.upstreamOpens)
                      && (CloseClient in effects <==> clientOpen)
                      && ReleaseDbClient in effects
  {
    var r := Initialise(userId, o, clientOpen);
    var c := Cleanup(r.upstreamOpen, r.chatId, r.chatGroupId, clientOpen);
    CleanupActions(r.upstreamOpen, r.chatId, r.chatGroupId, clientOpen);
    CleanupReleasesOnce(r.upstreamOpen, r.chatId, r.chatGroupId, clientOpen);
    assert ReleaseDbClient in c;
    assert forall e :: e in r.effects + c <==> e in r.effects || e in c;
  }

  /**
   * What is stored for a relayed frame: a user or assistant message with its
   * content (NULL when the `message` object has none), scores defaulting to
   * `{}`. Reading `content` of a frame without a `message` object throws
   * inside the `try`, and nothing is stored.
   */
  function EventFor(chatId: Uuid, msg: UpstreamMsg): (effects: seq<Effect>)
    ensures |effects| <= 1
    ensures effects != [] <==> (msg.msgType == "user_message" || msg.msgType == "assistant_message") && msg.message.Some?
    ensures effects != [] ==>
              && effects[0].InsertEvent?
              && var row := effects[0].row;
              && row.chatId == chatId && row.eventType == msg.msgType
              && row.text == msg.message.value.content && row.emotions == msg.scores.GetOr(map[])
              && row.role == (if msg.msgType == "user_message" then "user" else "assistant")
  {
    if msg.message.None? then []
    else if msg.msgType == "user_message" then
      [InsertEvent(EventRow(chatId, "user", "user_message", msg.message.value.content, msg.scores.GetOr(map[])))]
    else if msg.msgType == "assistant_message" then
      [InsertEvent(EventRow(chatId, "assistant", "assistant_message", msg.message.value.content,
                            msg.scores.GetOr(map[])))]
    else []
  }

  /** `[x]` when `b` holds, nothing otherwise. */
  function When(b: bool, x: Effect): seq<Effect>
  {
    if b then [x] else []
  }

  /** The row updates of the `finally` block, for the ids that are set. */
  function FinaliseRows(chatId: Option<Uuid>, chatGroupId: Option<Uuid>): seq<Effect>
  {
    When(chatId.Some?, MarkChatComplete(if chatId.Some? then chatId.value else ""))
    + When(chatGroupId.Some?, MarkGroupInactive(if chatGroupId.Some? then chatGroupId.value else ""))
  }

  /** The `finally` block. */
  function Cleanup(upstreamOpen: bool, chatId: Option<Uuid>, chatGroupId: Option<Uuid>, clientOpen: bool)
    : (effects: seq<Effect>)
    ensures |effects| == (if upstreamOpen then 1 else 0) + (if chatId.Some? then 1 else 0)
                         + (if chatGroupId.Some? then 1 else 0) + 1 + (if clientOpen then 1 else 0)
  {
    When(upstreamOpen, CloseUpstream) + FinaliseRows(chatId, chatGroupId) + [ReleaseDbClient]
    + When(clientOpen, CloseClient)
  }

  /**
   * The `finally` block closes each socket iff it is open, completes the chat
   * iff its id is set and deactivates the group iff its id is set.
   */
  lemma CleanupActions(upstreamOpen: bool, chatId: Option<Uuid>, chatGroupId: Option<Uuid>, clientOpen: bool)
    ensures var effects := Cleanup(upstreamOpen, chatId, chatGroupId, clientOpen);
            && (CloseUpstream in effects <==> upstreamOpen)
            && (CloseClient in effects <==> clientOpen)
            && (forall id :: MarkChatComplete(id) in effects <==> chatId == Some(id))
            && (forall id :: MarkGroupInactive(id) in effects <==> chatGroupId == Some(id))
  {
    var a := When(upstreamOpen, CloseUpstream);
    var cf := When(chatId.Some?, MarkChatComplete(if chatId.Some? then chatId.value else ""));
    var gf := When(chatGroupId.Some?, MarkGroupInactive(if chatGroupId.Some? then chatGroupId.value else ""));
    var r := [ReleaseDbClient];
    var c := When(clientOpen, CloseClient);
    assert Cleanup(upstreamOpen, chatId, chatGroupId, clientOpen) == a + (cf + gf) + r + c;
    forall x
      ensures x in a + (cf + gf) + r + c <==> x in a || x in cf || x in gf || x in r || x in c
    {
    }
  }

  /** What the `finally` block does before releasing the database client. */
  function BeforeRelease(upstreamOpen: bool, chatId: Option<Uuid>, chatGroupId: Option<Uuid>): seq<Effect>
  {
    When(upstreamOpen, CloseUpstream) + FinaliseRows(chatId, chatGroupId)
  }

  /**
   * The `finally` block releases the database client exactly once, whatever
   * state it finds: its effects are the release with no other release before
   * or after it.
   */
  lemma CleanupReleasesOnce(upstreamOpen: bool, chatId: Option<Uuid>, chatGroupId: Option<Uuid>, clientOpen: bool)
    ensures Cleanup(upstreamOpen, chatId, chatGroupId, clientOpen)
            == BeforeRelease(upstreamOpen, chatId, chatGroupId) + [ReleaseDbClient] + When(clientOpen, CloseClient)
    ensures ReleaseDbClient !in BeforeRelease(upstreamOpen, chatId, chatGroupId)
    ensures ReleaseDbClient !in When(clientOpen, CloseClient)
  {
  }

  datatype Phase = Initialising | Waiting | Done

  /** One `handleConnection` call. */
  class Session {
    const userId: string
    var client: ReadyState
    var upstream: Option<ReadyState>
    var chatId: Option<Uuid>
    var chatGroupId: Option<Uuid>
    var settled: bool
    var phase: Phase
    var log: seq<Effect>
    /** Once the handler has ended: the log before and after its one release. */
    ghost var preRelease: seq<Effect>
    ghost var postRelease: seq<Effect>

    /**
     * The database client is released exactly once, when the handler ends;
     * while waiting both rows exist; the wait settles only after a successful
     * initialisation.
     */
    ghost predicate Valid()
      reads this
    {
      && (phase != Done ==> ReleaseDbClient !in log)
      && (phase == Done ==>
            log == preRelease + [ReleaseDbClient] + postRelease
            && ReleaseDbClient !in preRelease && ReleaseDbClient !in postRelease)
      && (phase == Waiting ==> chatId.Some? && chatGroupId.Some? && !settled)
      && (settled ==> phase == Done)
    }

    constructor (user: string)
      ensures Valid() && userId == user
      ensures client == Open && upstream.None? && chatId.None? && chatGroupId.None?
      ensures !settled && phase == Initialising && log == []
    {
      userId := user;
      client := Open;
      upstream := None;
      chatId := None;
      chatGroupId := None;
      settled := false;
      phase := Initialising;
      log := [];
    }

    /** Appending effects without a release keeps the invariant. */
    method Append(effects: seq<Effect>)
      requires Valid() && ReleaseDbClient !in effects
      modifies this`log, this`postRelease
      ensures Valid() && log == old(log) + effects
    {
      if phase == Done {
        postRelease := postRelease + effects;
      }
      log := log + effects;
    }

    /** The `finally` block, run once. */
    method Finish()
      requires Valid() && phase != Done
      modifies this
      ensures Valid() && phase == Done && settled == old(settled)
      ensures log == old(log) + Cleanup(old(upstream) == Some(Open), chatId, chatGroupId, old(client) == Open)
      ensures upstream == (if old(upstream) == Some(Open) then Some(Closing) else old(upstream))
      ensures client == (if old(client) == Open then Closing else old(client))
      ensures chatId == old(chatId) && chatGroupId == old(chatGroupId)
    {
      CleanupReleasesOnce(upstream == Some(Open), chatId, chatGroupId, client == Open);
      ghost var before := BeforeRelease(upstream == Some(Open), chatId, chatGroupId);
      ghost var after := When(client == Open, CloseClient);
      assert log + (before + [ReleaseDbClient] + after) == (log + before) + [ReleaseDbClient] + after;
      preRelease := log + before;
      postRelease := after;
      log := log + Cleanup(upstream == Some(Open), chatId, chatGroupId, client == Open);
      if upstream == Some(Open) {
        upstream := Some(Closing);
      }
      if client == Open {
        client := Closing;
      }
      phase := Done;
    }

    /**
     * The `try` block up to the wait: with a successful initialisation the
     * listeners are attached and the handler waits; otherwise the `catch` and
     * `finally` blocks run at once.
     */
    method Start(o: InitOracle)
      requires Valid() && phase == Initialising && upstream.None? && chatId.None? && chatGroupId.None?
      modifies this
      ensures Valid()
      ensures var r := Initialise(userId, o, old(client) == Open);
              && chatId == r.chatId && chatGroupId == r.chatGroupId
              && (r.ok ==> phase == Waiting && upstream == Some(Open) && log == old(log) + r.effects)
              && (!r.ok ==> phase == Done && upstream == (if o.upstreamOpens then Some(Closing) else None)
                            && log == old(log) + r.effects
                                      + Cleanup(o.upstreamOpens, r.chatId, r.chatGroupId, old(client) == Open))
    {
      var r := Initialise(userId, o, client == Open);
      AfterInit(r);
    }

    /** What follows the initialisation's outcome `r`. */
    method AfterInit(r: InitResult)
      requires Valid() && phase == Initialising && upstream.None? && chatId.None? && chatGroupId.None?
      requires ReleaseDbClient !in r.effects && (r.chatId.Some? ==> r.chatGroupId.Some?)
      requires r.ok ==> r.chatId.Some? && r.upstreamOpen
      modifies this
      ensures Valid()
      ensures chatId == r.chatId && chatGroupId == r.chatGroupId
      ensures r.ok ==> phase == Waiting && upstream == Some(Open) && log == old(log) + r.effects
      ensures !r.ok ==> phase == Done && upstream == (if r.upstreamOpen then Some(Closing) else None)
                        && log == old(log) + r.effects
                                  + Cleanup(r.upstreamOpen, r.chatId, r.chatGroupId, old(client) == Open)
    {
      Append(r.effects);
      chatId := r.chatId;
      chatGroupId := r.chatGroupId;
      if r.upstreamOpen {
        upstream := Some(Open);
      }
      if r.ok {
        phase := Waiting;
      } else {
        Finish();
      }
    }

    /** A client frame: forwarded as user input only while the upstream socket is open. */
    method OnClientMessage(text: string)
      requires Valid() && phase != Initialising
      modifies this`log, this`postRelease
      ensures Valid()
      ensures log == old(log) + (if upstream == Some(Open) then [SendUserInput(text)] else [])
    {
      if upstream == Some(Open) {
        Append([SendUserInput(text)]);
      }
    }

    /** An upstream frame: ignored unless the client is open; then relayed and stored. */
    method OnUpstreamMessage(msg: UpstreamMsg)
      requires Valid() && phase != Initialising && chatId.Some?
      modifies this`log, this`postRelease
      ensures Valid()
      ensures client != Open ==> log == old(log)
      ensures client == Open ==> log == old(log) + [SendToClient(Relay(msg))] + EventFor(chatId.value, msg)
    {
      if client != Open {
        return;
      }
      Append([SendToClient(Relay(msg))] + EventFor(chatId.value, msg));
    }

    /** `once(...)`: the first close or error while waiting settles the wait and runs `finally`. */
    method Settle()
      requires Valid()
      modifies this
      ensures Valid() && chatId == old(chatId) && chatGroupId == old(chatGroupId)
      ensures old(phase) == Waiting ==>
                settled && phase == Done
                && log == old(log) + Cleanup(old(upstream) == Some(Open), chatId, chatGroupId, old(client) == Open)
                && upstream == (if old(upstream) == Some(Open) then Some(Closing) else old(upstream))
                && client == (if old(client) == Open then Closing else old(client))
      ensures old(phase) != Waiting ==>
                log == old(log) && phase == old(phase) && settled == old(settled)
                && upstream == old(upstream) && client == old(client)
    {
      if phase == Waiting && !settled {
        Finish();
        settled := true;
      }
    }

    /** The client socket closed; while waiting, `finally` runs with only the upstream socket to close. */
    method OnClientClose()
      requires Valid()
      modifies this
      ensures Valid() && client == Closed && chatId == old(chatId) && chatGroupId == old(chatGroupId)
      ensures old(phase) == Waiting ==>
                settled && phase == Done
                && log == old(log) + Cleanup(old(upstream) == Some(Open), chatId, chatGroupId, false)
                && upstream == (if old(upstream) == Some(Open) then Some(Closing) else old(upstream))
      ensures old(phase) != Waiting ==> log == old(log) && phase == old(phase) && upstream == old(upstream)
    {
      client := Closed;
      Settle();
    }

    /** The upstream socket closed; while waiting, `finally` runs with only the client to close. */
    method OnUpstreamClose()
      requires Valid()
      modifies this
      ensures Valid() && chatId == old(chatId) && chatGroupId == old(chatGroupId)
      ensures upstream == (if old(upstream).Some? then Some(Closed) else None)
      ensures old(phase) == Waiting ==>
                settled && phase == Done
                && log == old(log) + Cleanup(false, chatId, chatGroupId, old(client) == Open)
                && client == (if old(client) == Open then Closing else old(client))
      ensures old(phase) != Waiting ==> log == old(log) && phase == old(phase) && client == old(client)
    {
      if upstream.Some? {
        upstream := Some(Closed);
      }
      Settle();
    }

    /** An error from either socket settles the wait in the same way. */
    method OnSocketError()
      requires Valid()
      modifies this
      ensures Valid() && chatId == old(chatId) && chatGroupId == old(chatGroupId)
      ensures old(phase) == Waiting ==>
                settled && phase == Done
                && log == old(log) + Cleanup(old(upstream) == Some(Open), chatId, chatGroupId, old(client) == Open)
                && upstream == (if old(upstream) == Some(Open) then Some(Closing) else old(upstream))
                && client == (if old(client) == Open then Closing else old(client))
      ensures old(phase) != Waiting ==>
                log == old(log) && phase == old(phase) && upstream == old(upstream) && client == old(client)
    {
      Settle();
    }
  }
}
