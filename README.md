# ELI: a verified model of the real-time chat proxy and its client decisions

ELI is a voice and text companion. Its server is a WebSocket proxy that
sits between the browser and the Hume EVI service. For every client
connection it:

- waits for a `start_session` configuration frame;
- checks the modality and that the profile belongs to the authenticated user;
- creates a chat group row and a chat row in one transaction;
- opens the upstream socket;
- relays frames both ways, logging the conversational ones as `chat_events` rows;
- finalises the rows and releases its pooled database client when the client goes away.

Two earlier versions of the same handler are still in the repository:

- `rtchatService.js`, which uses try/catch/finally and a settle-once wait;
- `chat-hume.py`, which uses an event counter and a `finally` block.

Beside the proxy the server has:

- a bulk importer for recorded conversations (`conversationService.js`);
- a JWT middleware (`authJWT.js`).

The client side consists of:

- two socket hooks: `useChatSockets.ts`, with refresh and exponential backoff, and `useEviSocket.ts`, with the `start_session` handshake;
- a microphone recorder;
- the dashboard's emotion averaging;
- the emotion catalogue lookup;
- the five-step sign-up flow: validation, list edits, the shared form and the progress stepper.

The model has one Dafny module per source file, plus a few shared modules:

- `Wrappers`: `Option`;
- `DbEnums`: the chat status and turn role and type enumerations;
- `Sockets`: the WebSocket `readyState` and close codes;
- `Text`: JavaScript `split`, `trim` and `includes`;
- `ClientJwt`: the chat hook's JWT payload decoding and the decoding steps both hooks use.

Each source file is modelled in its own form:

- **Handlers that assign closure variables or refs become classes.** Their fields are those variables. Their methods have `modifies` clauses. Every outbound effect (frame sent, close code, row inserted or updated, client released) goes into a `log` or an equivalent sequence field.
- **The main proxy (`EviService`).** Each handler method is proved equal to a pure transition function over a `Session` value. The properties of whole traces are lemmas about those functions. Examples:
  - the database client is released once per client `close`;
  - an upstream socket only exists together with its chat and group ids.
- **Pure helpers stay functions.** This covers `parseHumeEventForDb`, the token predicates, the stepper, the list edits and the form merge.
- **Loops become `while` loops with invariants.** This covers the ingestion loop, the dashboard collection and aggregation loops, the track-stopping loop and the Python forwarding loop. Each is proved against a specification function.

Sockets, the database, `fetch`, `localStorage`, clocks, uuids, JSON and
Base64 decoding and JWT signing and verification are not modelled as such.
They appear as parameters ("oracles"): the uuid an insert gets, the
statement that throws, the decoded payload, the verifier's answer. The
model proves what the code decides for every such answer.

Some behaviour of the code is easy to misread; the model follows the code:

- **Turn inserts are not idempotent.** `logChatEvent` generates a fresh uuid per call, so a redelivered frame is stored twice (`EviService.RedeliveryInsertsTwice`).
- **Sends are gated on the socket only.** Both hooks send whenever the socket is OPEN, whether or not `session_ready` has arrived.
- **Refresh request.** The chat hook posts `{ token }` to `/api/auth/refresh`, while the server's refresh handler reads `refreshToken`. The handler would answer this body with 401 (`ChatSockets.RefreshBodyAlwaysRejected`). As deployed, though, no route reaches the handler: server/server.js:12 mounts only server/api.js, whose routes are `/signup` and `/login`, so the request gets Express's 404. Either way the response is not ok and the hook ends in `RefreshFailed`.
- **Commit before the key check.** In the main proxy the rows are committed before the API key is checked. A missing key therefore leaves committed rows behind a 1011 close.
- **Unparsable first frame.** An unparsable first frame lands in the `catch` block: it is rolled back and closed with 1011, not 1002.
- **Re-importing a conversation fails.** The importer catches the duplicate-id error of the config insert, but it uses no savepoint, so PostgreSQL has already aborted the transaction. The group upsert after it fails and the whole import rolls back. Importing any conversation whose config is already stored therefore ends in the generic error (`ConversationService.Database.Ingest`).
- **Dead length check.** The importer's length check after pad/truncate can never fire: `Normalise` always yields 768 entries. The model therefore has no branch for it.
- **The two hooks decode tokens differently.** The chat hook translates the Base64url alphabet and reads the bytes as UTF-8; the EVI hook hands the segment to `atob` as it is. A token whose payload segment uses `-` or `_` is therefore always expired for the EVI hook (`EviSocket.UrlAlphabetTokenExpires`).

## Model

| member | source | states |
|---|---|---|
| EviService.ParseHumeEventForDb | server/services/eviService.js:12-49 | a row exactly for user_message, assistant_message and tool_call, with roles (USER, USER_MESSAGE), (AGENT, AGENT_MESSAGE), (AGENT, TOOL_CALL); the text is the content when truthy, else null; scores and tool call default to null |
| EviService.LogChatEvent | server/services/eviService.js:57-80 | no effect for an unclassified frame, otherwise exactly one insert under the fresh id for this chat whose role, type, text, scores and tool call are exactly what ParseHumeEventForDb gives; a DB error adds nothing |
| EviService.RedeliveryInsertsTwice | server/services/eviService.js:57-76 | logging the same frame twice gives two rows with distinct ids and identical content: insertion is not idempotent |
| EviService.Outcome | server/services/eviService.js:100-187 | the order of checks on the first frame: parse, type, payload, modality, profile query, ownership, statements, API key; each outcome characterised by an if-and-only-if |
| EviService.ClientMessage | server/services/eviService.js:98-212 | while no upstream socket exists the frame is the configuration (an upstream socket results iff the outcome is Bridged); afterwards a frame changes nothing and can only be forwarded upstream; no client frame finalises |
| EviService.CompletedBefore | server/services/eviService.js:119-134 | the statements that completed before a failing one, never including COMMIT |
| EviService.ConfigFrame | server/services/eviService.js:100-187 | an upstream socket is created iff the outcome is Bridged, with the new chat and group ids; otherwise the client is closed; the config frame never finalises |
| EviService.ConfigFrameOutcomes | server/services/eviService.js:104-186 | 1002 for a non-start frame, 1008 for a bad modality or foreign profile, ROLLBACK+1011 after the completed statements on a throw or unparsable frame, BEGIN/group(1, active)/chat/COMMIT before the API-key check; COMMIT happens iff the start is valid and nothing throws |
| EviService.RouteFrame | server/services/eviService.js:190-211 | binary frames forwarded unchanged iff upstream is OPEN; text only as `{type:"user_input", text}` for a JSON user_input with truthy text; everything else dropped; state unchanged |
| EviService.UpstreamOpen | server/services/eviService.js:149-153 | session_ready with the chat id is sent when the upstream socket opens |
| EviService.UpstreamMessage | server/services/eviService.js:155-163 | the frame is logged, then relayed verbatim only while the client is open |
| EviService.UpstreamError | server/services/eviService.js:165-170 | an `error` frame to an open client; nothing else changes |
| EviService.UpstreamClose | server/services/eviService.js:172-177 | an open client is closed with 1000 |
| EviService.ClientClose | server/services/eviService.js:215-230 | upstream closed iff it exists; chat COMPLETE iff chatId set; group inactive iff chatGroupId set; client released |
| EviService.ClientError | server/services/eviService.js:232-237 | only closes upstream; ids and client state unchanged |
| EviService.HandleKeepsBridgeInv | server/services/eviService.js:93-177 | every handler keeps "upstream exists implies chat and group ids set" and only announces session_ready with a chat id |
| EviService.Handle | server/services/eviService.js:98-237 | the chat and group ids change only on the configuration frame |
| EviService.RunKeepsBridgeInv | server/services/eviService.js:93-237 | the same over any trace of events |
| EviService.ClientCloseCounts | server/services/eviService.js:215-230 | client close releases once, completes the set chat once and deactivates the set group once |
| EviService.HandleFinalises | server/services/eviService.js:98-237 | no handler but client close issues a finalisation effect |
| EviService.HandleCounts | server/services/eviService.js:98-237 | per event, releases, chat completions and group deactivations are counted: one each on client close, none otherwise |
| EviService.ReleasesMatchClientCloses | server/services/eviService.js:215-230 | over any trace the DB client is released exactly as often as the client closes |
| EviService.FinalisedOncePerClose | server/services/eviService.js:215-230 | once bridged, the ids never change and each client close finalises that chat and group once |
| EviService.BridgedSessionEnds | server/services/eviService.js:215-230 | a bridged session ending with a client close has upstream closed, the chat completed, the group deactivated and the client released exactly once |
| EviService.Connection.constructor | server/services/eviService.js:89-95 | a new connection has no upstream socket, no ids and an empty log |
| EviService.Connection.OnClientMessage | server/services/eviService.js:98-212 | the client message handler's new state and log are those of the transition function |
| EviService.Connection.StartSession | server/services/eviService.js:100-187 | the config branch's new state and log are those of ConfigFrame |
| EviService.Connection.CreateRows | server/services/eviService.js:119-186 | the transaction, then the upstream socket or the 1011 close, or the catch block |
| EviService.Connection.FailStart | server/services/eviService.js:182-186 | ROLLBACK then close 1011 |
| EviService.Connection.OnUpstreamOpen | server/services/eviService.js:149-153 | as UpstreamOpen |
| EviService.Connection.OnUpstreamMessage | server/services/eviService.js:155-163 | as UpstreamMessage |
| EviService.Connection.OnUpstreamError | server/services/eviService.js:165-170 | as UpstreamError |
| EviService.Connection.OnUpstreamClose | server/services/eviService.js:172-177 | as UpstreamClose |
| EviService.Connection.OnClientClose | server/services/eviService.js:215-230 | as ClientClose |
| EviService.Connection.OnClientError | server/services/eviService.js:232-237 | as ClientError |
| ConversationService.Normalise | server/services/conversationService.js:97-109 | the result has exactly 768 entries: the input's prefix, zero-padded |
| ConversationService.NormaliseKeepsExactVectors | server/services/conversationService.js:97-103 | a 768-entry vector is stored unchanged |
| ConversationService.NormaliseIdempotent | server/services/conversationService.js:97-109 | normalising twice is normalising once |
| ConversationService.Prepare | server/services/conversationService.js:69-112 | an event is inserted iff its type is USER_MESSAGE or AGENT_MESSAGE and it is not a user message with a non-array embedding; an embedding is stored only for a user message whose parsed metadata has one, normalised |
| ConversationService.InsertEvents | server/services/conversationService.js:69-130 | the loop's inserts with ON CONFLICT DO NOTHING: stored ids are kept |
| ConversationService.InsertEventsKeepsExisting | server/services/conversationService.js:114-129 | ON CONFLICT DO NOTHING: stored rows are never overwritten |
| ConversationService.InsertedEventsAreKept | server/services/conversationService.js:69-130 | a new row exists exactly for the id of an event the loop keeps |
| ConversationService.InsertedEventsAreValid | server/services/conversationService.js:69-130 | every new row belongs to the chat, has a recognised type, and any embedding has dimension 768 |
| ConversationService.InsertEventsGrows | server/services/conversationService.js:114-129 | stored ids only grow as the loop advances |
| ConversationService.FirstInsertWins | server/services/conversationService.js:114-129 | with duplicate ids the first kept event's row is the stored one |
| ConversationService.UpsertGroup | server/services/conversationService.js:49-58 | a new group starts with one chat, inactive; an existing one gets one more chat and the new start time; other groups unchanged |
| ConversationService.UpsertCountsChats | server/services/conversationService.js:49-58 | k imports into a new group leave it inactive with k chats, its first and its latest start time |
| ConversationService.Database.constructor | server/services/conversationService.js:18-19 | empty tables over the given users, no release yet |
| ConversationService.Database.Ingest | server/services/conversationService.js:18-143 | commits iff the user exists, the config is present and not yet stored, and no issued statement (BEGIN, user lookup, config, group, chat, an issued event insert, COMMIT) fails; then config, group, chat (event_count = page length) and events are written and the chat id returned; on every failure the tables are as before and the generic error is returned; the client is released exactly once |
| ConversationService.Database.Write | server/services/conversationService.js:38-132 | for a new config: commits iff neither the group upsert, the chat insert, an issued event insert nor COMMIT fails, and then the config, group, chat and event tables are the stated updates |
| ConversationService.Database.StoreEvents | server/services/conversationService.js:68-130 | the loop stops exactly when the insert the fault names is issued; otherwise the event table equals InsertEvents over the whole page |
| RtchatService.Recover | server/services/rtchatService.js:134-143 | ROLLBACK first, an error frame iff the client is open, no statement and no release |
| RtchatService.Initialise | server/services/rtchatService.js:50-81 | the upstream connection comes first; success implies both ids set; no release |
| RtchatService.InitialiseSucceeds | server/services/rtchatService.js:50-81 | success iff upstream opens, no statement throws and the user has a profile; then the chat uses the newest profile and both rows are committed |
| RtchatService.UpstreamBeforeDatabase | server/services/rtchatService.js:52-56 | no database statement is issued before the upstream socket is open |
| RtchatService.FailureRollsBack | server/services/rtchatService.js:65-143 | a failure ends with the catch block; the group id stays set exactly when the chat insert or COMMIT threw |
| RtchatService.FailedStartClosesUpstream | server/services/rtchatService.js:50-53 | a failed initialisation followed by finally closes the upstream socket iff it got open, closes the client iff open, and releases the DB client |
| RtchatService.EventFor | server/services/rtchatService.js:98-114 | a row only for user_message/assistant_message frames with a message object, roles user/assistant, the content (NULL when absent), scores defaulting to `{}` |
| RtchatService.Cleanup | server/services/rtchatService.js:144-173 | one effect per open socket and per set id, plus the one release |
| RtchatService.CleanupActions | server/services/rtchatService.js:144-173 | finally closes each socket iff open, completes the chat iff its id is set, deactivates the group iff its id is set |
| RtchatService.CleanupReleasesOnce | server/services/rtchatService.js:144-173 | finally releases the DB client exactly once |
| RtchatService.Session.constructor | server/services/rtchatService.js:42-48 | no ids, no upstream socket, nothing logged |
| RtchatService.Session.Finish | server/services/rtchatService.js:144-173 | the finally block's effects are appended and the sockets move to closing |
| RtchatService.Session.Start | server/services/rtchatService.js:50-143 | the try block's effects; on failure the catch and finally run at once, closing the upstream socket iff it got open |
| RtchatService.Session.AfterInit | server/services/rtchatService.js:83-173 | after a successful init the handler waits with the upstream open; otherwise finally runs with the upstream socket open iff it got open |
| RtchatService.Session.OnClientMessage | server/services/rtchatService.js:86-92 | a client frame goes upstream only while upstream is open |
| RtchatService.Session.OnUpstreamMessage | server/services/rtchatService.js:95-115 | nothing unless the client is open; then relayed and stored |
| RtchatService.Session.Settle | server/services/rtchatService.js:118-173 | a pending wait settles once: the finally effects for the current socket states and ids are appended and the open sockets move to closing; otherwise nothing changes |
| RtchatService.Session.OnClientClose | server/services/rtchatService.js:128 | the client is closed; a pending wait runs finally without closing the client |
| RtchatService.Session.OnUpstreamClose | server/services/rtchatService.js:130 | the upstream is closed; a pending wait runs finally without closing the upstream |
| RtchatService.Session.OnSocketError | server/services/rtchatService.js:129-131 | a pending wait runs finally for the current socket states |
| ChatHume.GetCurrentUserId | server/chat-hume.py:73-83 | None for an empty token or a decode error, otherwise the payload's userId |
| ChatHume.RowOf | server/chat-hume.py:132-139 | the stored row has the message's type, role and content, and its scores, or `{}` when it has none |
| ChatHume.StoredRows | server/chat-hume.py:128-142 | only user_message and assistant_message are stored, at most one row per message |
| ChatHume.StoredRowsAppend | server/chat-hume.py:128-142 | rows for a concatenation are the rows of each part |
| ChatHume.OnlyStoredTypesCount | server/chat-hume.py:130-132 | messages of other types are never stored |
| ChatHume.Stop | server/chat-hume.py:130-142 | the loop stops at the first stored type without a message body |
| ChatHume.StopAt | server/chat-hume.py:128-148 | the loop stops at a commit that raises, at the first malformed stored message, or at the end, never later than a fault-free run |
| ChatHume.StoredRowsGrow | server/chat-hume.py:128-142 | the rows stored for a shorter prefix are a prefix of the rows for a longer one |
| ChatHume.CommitFaultKeepsPrefix | server/chat-hume.py:139-142 | a commit that raises in the loop only loses rows: the committed rows are a prefix of a fault-free run's |
| ChatHume.Endpoint.constructor | server/chat-hume.py:101-102 | no group, no chat, nothing sent |
| ChatHume.Endpoint.Serve | server/chat-hume.py:88-156 | no user id: close 1008 before any row exists; a failing group or chat commit leaves only the rows committed before it and the exception escapes; otherwise every upstream message up to the stop is forwarded and stored types are committed with the counter equal to the rows; finally ends the chat and deactivates the group iff no commit raised, else the exception escapes and they stay open |
| ChatHume.Endpoint.ForwardToHume | server/chat-hume.py:123-126 | every frontend frame goes upstream, in order |
| ChatHume.Endpoint.ForwardToFrontend | server/chat-hume.py:128-142 | every message up to the malformed one or the one whose commit raises is forwarded; the commit failure is reported iff it strikes a stored message the loop reaches; event_count equals the number of committed rows |
| ChatHume.Endpoint.Finalise | server/chat-hume.py:150-155 | when the commit succeeds the chat is ended iff it exists and the group goes inactive iff it exists; when it raises nothing is written and the exception propagates |
| AuthJwt.ExtractToken | server/middleware/authJWT.js:10-11 | no header gives none; the empty header gives `""`; otherwise the second space-separated part, present iff the header contains a space, and exactly the text between the first space and the next one or the end |
| AuthJwt.BearerTokenExtracted | server/middleware/authJWT.js:10-11 | `Bearer <token>` yields exactly the token, whatever follows a further space |
| AuthJwt.Authenticate | server/middleware/authJWT.js:9-23 | 401 iff no token; next with the verified claims iff verification succeeds; otherwise 403 with the fixed message |
| AuthJwt.EmptyHeaderIsForbidden | server/middleware/authJWT.js:11-19 | an empty Authorization header yields 403, not 401 |
| AuthJwt.Refresh | server/middleware/authJWT.js:30-50 | 401 iff refreshToken is missing; 200 iff it verifies under the refresh secret, with a token re-issued from userId and email only; otherwise 403 |
| AuthJwt.Reissue | server/middleware/authJWT.js:43-44 | the token signs only userId and email, with the access secret, for 15 minutes |
| AuthJwt.ReissueIgnoresOtherClaims | server/middleware/authJWT.js:43-44 | the re-issued token depends only on userId and email |
| AuthJwt.Exchange.AuthenticateToken | server/middleware/authJWT.js:9-23 | either req.user is set and next() is called exactly once, or a response is written and next() is not called |
| AuthJwt.Exchange.HandleTokenRefresh | server/middleware/authJWT.js:30-50 | writes the Refresh response and never calls next() |
| ClientJwt.DecodeJwt | Eli-Frontend/hooks/useChatSockets.ts:18-32 | null without a non-empty second dot-separated segment; otherwise a payload iff atob of the translated segment, the UTF-8 step and JSON.parse all succeed, and then the parsed payload |
| ClientJwt.FromBase64Url | Eli-Frontend/hooks/useChatSockets.ts:22 | `-` becomes `+`, `_` becomes `/`, nothing else changes |
| ClientJwt.FromBase64UrlKeepsStandard | Eli-Frontend/hooks/useChatSockets.ts:22 | a segment in the standard alphabet is unchanged |
| ChatSockets.IsTokenExpired | Eli-Frontend/hooks/useChatSockets.ts:40-49 | fail-closed: expired when the payload or a numeric exp is missing; otherwise expired iff now is at least (exp - buffer + 1) * 1000 ms, the floored comparison |
| ChatSockets.ExpiredFromMillisecond | Eli-Frontend/hooks/useChatSockets.ts:47-48 | the floored test flips exactly at millisecond (exp - buffer + 1) * 1000 |
| ChatSockets.DecideOnClose | Eli-Frontend/hooks/useChatSockets.ts:192-211 | 1008 means auth failure and never a retry; retry iff unclean and attempts < 3, with attempt + 1 and 2^(attempt+1)*1000 ms; give up at the ceiling |
| ChatSockets.AtMostThreeRetries | Eli-Frontend/hooks/useChatSockets.ts:203-210 | between opens at most 3 - attempts retries are scheduled |
| ChatSockets.UncleanClosesBackOff | Eli-Frontend/hooks/useChatSockets.ts:203-210 | unclean closes from a fresh counter schedule 2000, 4000, 8000 ms, then give up |
| ChatSockets.GivesUpAfterCeiling | Eli-Frontend/hooks/useChatSockets.ts:208-210 | at the ceiling nothing is scheduled |
| ChatSockets.RefreshBodyAlwaysRejected | Eli-Frontend/hooks/useChatSockets.ts:107-111 | the body `{token}` never carries refreshToken, so the server's refresh handler, were it routed, would answer 401 |
| ChatSockets.ChatSocketClient.constructor | Eli-Frontend/hooks/useChatSockets.ts:57-68 | the hook's initial state |
| ChatSockets.ChatSocketClient.Cleanup | Eli-Frontend/hooks/useChatSockets.ts:73-87 | the timer is cancelled and the socket dropped; nothing else changes |
| ChatSockets.ChatSocketClient.AbortConnect | Eli-Frontend/hooks/useChatSockets.ts:144-149 | auth failed with the session-expired error and no socket created |
| ChatSockets.ChatSocketClient.OpenSocket | Eli-Frontend/hooks/useChatSockets.ts:152-160 | auth success, connecting, error cleared, a new socket with this token |
| ChatSockets.ChatSocketClient.Connect | Eli-Frontend/hooks/useChatSockets.ts:135-149 | a usable token opens a socket and clears the error; otherwise a refresh starts unless one is in flight (then the attempt fails); no refresh token removes both tokens and fails; the stored tokens are otherwise unchanged |
| ChatSockets.ChatSocketClient.FinishRefresh | Eli-Frontend/hooks/useChatSockets.ts:98-130 | the flag is cleared on every path; a failure removes both tokens; a truthy new token is stored and connected with |
| ChatSockets.ChatSocketClient.OnOpen | Eli-Frontend/hooks/useChatSockets.ts:162-167 | connected, error cleared, attempts reset to 0; the refresh flag, stored tokens, requests and history unchanged |
| ChatSockets.ChatSocketClient.OnMessage | Eli-Frontend/hooks/useChatSockets.ts:169-190 | assistant messages are appended and end loading; error frames set the error; unparsable frames set the parse error; socket, counters, tokens and requests unchanged |
| ChatSockets.ChatSocketClient.OnClose | Eli-Frontend/hooks/useChatSockets.ts:192-211 | disconnected and not loading, then the DecideOnClose decision: auth failure, a scheduled retry, or the terminal error; tokens and requests unchanged |
| ChatSockets.ChatSocketClient.OnError | Eli-Frontend/hooks/useChatSockets.ts:213-218 | error state and message, loading ends; socket, counters, tokens and requests unchanged |
| ChatSockets.ChatSocketClient.RetryTimerFires | Eli-Frontend/hooks/useChatSockets.ts:207 | the timer runs connect with the counter kept: a socket for a usable token, otherwise the refresh or the auth failure |
| ChatSockets.ChatSocketClient.Reconnect | Eli-Frontend/hooks/useChatSockets.ts:233-236 | attempts reset to 0, then connect with its full outcome |
| ChatSockets.ChatSocketClient.HandleSendMessage | Eli-Frontend/hooks/useChatSockets.ts:238-260 | only an open socket sends and appends a USER message; otherwise the error names the state and history is unchanged; socket, counters, tokens and requests unchanged |
| EviSocket.DecodeUnchecked | Eli-Frontend/hooks/useEviSocket.ts:25-31 | null without a second segment; otherwise a payload iff plain atob of the untranslated segment and JSON.parse succeed (no UTF-8 step), and then the parsed payload |
| EviSocket.UrlAlphabetTokenExpires | Eli-Frontend/hooks/useEviSocket.ts:25-37 | a payload segment using `-` or `_` never decodes in the EVI hook, so the token is expired there |
| EviSocket.IsTokenExpired | Eli-Frontend/hooks/useEviSocket.ts:33-37 | fail-closed; otherwise expired iff exp * 1000 < now + 60000 ms, the unfloored comparison |
| EviSocket.ExpiredInMilliseconds | Eli-Frontend/hooks/useEviSocket.ts:36 | the unfloored test is exactly exp*1000 < now + 60000 |
| EviSocket.ChatExpiredImpliesEviExpired | Eli-Frontend/hooks/useEviSocket.ts:25-37 | with a strict atob and a payload that is its own UTF-8 reading, a token the chat hook treats as expired the EVI hook treats as expired too |
| EviSocket.SpeakingAfter | Eli-Frontend/hooks/useEviSocket.ts:147-168 | speaking set by assistant_message, cleared by assistant_end or user_interruption, otherwise unchanged |
| EviSocket.SpeakingKeptWithoutChange | Eli-Frontend/hooks/useEviSocket.ts:147-168 | events that do not touch the flag keep it |
| EviSocket.SpeakingFollowsLastChange | Eli-Frontend/hooks/useEviSocket.ts:147-168 | the flag is decided by the last changing event |
| EviSocket.ErrorText | Eli-Frontend/hooks/useEviSocket.ts:170-173 | the frame's message when truthy, else the fixed text |
| EviSocket.EviSocketClient.constructor | Eli-Frontend/hooks/useEviSocket.ts:51-59 | the hook's initial state |
| EviSocket.EviSocketClient.Connect | Eli-Frontend/hooks/useEviSocket.ts:90-115 | no profile: pending, no socket; otherwise connecting, and a socket only for a present unexpired token, else auth failed with no refresh; a replaced socket whose close is still to come keeps its handlers |
| EviSocket.EviSocketClient.OnOpen | Eli-Frontend/hooks/useEviSocket.ts:117-128 | exactly one start_session frame with profile and modality; not yet connected; nothing else changes |
| EviSocket.EviSocketClient.OnMessage | Eli-Frontend/hooks/useEviSocket.ts:130-177 | onEvent sees every parsed frame first; connected only on session_ready, which resets attempts and clears the error; the speaking flag and history follow the switch |
| EviSocket.EviSocketClient.OnClose | Eli-Frontend/hooks/useEviSocket.ts:179-186 | disconnected; 1008 also fails auth; no reconnect; nothing else changes |
| EviSocket.EviSocketClient.OnStaleClose | Eli-Frontend/hooks/useEviSocket.ts:179-186 | a replaced socket's close still runs the handler: disconnected, and on 1008 auth failed, while the current socket is untouched |
| EviSocket.EviSocketClient.OnError | Eli-Frontend/hooks/useEviSocket.ts:188-192 | error state and message; nothing else changes |
| EviSocket.EviSocketClient.SendTextInput | Eli-Frontend/hooks/useEviSocket.ts:62-81 | an open socket sends user_input and appends to history; otherwise an error and history unchanged; counters and observed events unchanged |
| EviSocket.EviSocketClient.SendAudioInput | Eli-Frontend/hooks/useEviSocket.ts:84-88 | sent iff the socket is open, silently dropped otherwise |
| AudioRecorder.Recorder.constructor | Eli-Frontend/hooks/useAudioRecorder.ts:10-12 | not recording, no recorder, no stream |
| AudioRecorder.Recorder.StartRecording | Eli-Frontend/hooks/useAudioRecorder.ts:14-42 | no-op while recording; a granted device sets the stream; a created recorder starts with 250 ms and isRecording; a failure changes nothing else |
| AudioRecorder.Recorder.OnDataAvailable | Eli-Frontend/hooks/useAudioRecorder.ts:28-32 | only non-empty chunks reach the callback |
| AudioRecorder.Recorder.StopRecording | Eli-Frontend/hooks/useAudioRecorder.ts:44-54 | stops a recording recorder, stops every track and drops the stream, always leaves isRecording false |
| AudioRecorder.StopTracks | Eli-Frontend/hooks/useAudioRecorder.ts:50 | every track is stopped |
| DashboardData.Collect | Eli-Frontend/hooks/useDashboardData.ts:49-62 | at most five lists are collected |
| DashboardData.CollectedFromChats | Eli-Frontend/hooks/useDashboardData.ts:55-61 | each collected list is a non-empty ok response of a chat |
| DashboardData.VisitsUntilFull | Eli-Frontend/hooks/useDashboardData.ts:50-53 | chats are visited in order; collection stops exactly when five lists are held |
| DashboardData.Emotions | Eli-Frontend/hooks/useDashboardData.ts:70-78 | the emotions present are exactly those with a positive count |
| DashboardData.Averages | Eli-Frontend/hooks/useDashboardData.ts:80-85 | keys are exactly the emotions present, each the sum of its scores over its count |
| DashboardData.SumWithinBounds | Eli-Frontend/hooks/useDashboardData.ts:72-78 | a sum of bounded scores lies between count*lo and count*hi |
| DashboardData.AverageWithinBounds | Eli-Frontend/hooks/useDashboardData.ts:80-85 | each average lies within the range of the scores it averages |
| DashboardData.Dashboard.constructor | Eli-Frontend/hooks/useDashboardData.ts:21-23 | no data, loading, no error |
| DashboardData.Dashboard.FetchAndProcess | Eli-Frontend/hooks/useDashboardData.ts:26-95 | no token: error and null data, no request; a rejected chat list: its message after one request; a chat list that is not ok: the fixed error; a rejected analytics request: its message and null data, after requesting the chats up to it; otherwise the averages of the collected lists (`{}` when none); loading always ends |
| DashboardData.Dashboard.CollectRecent | Eli-Frontend/hooks/useDashboardData.ts:49-62 | fails iff a visited chat's request rejects, having requested the chats up to it; otherwise collects Collect(...) and requests exactly the visited chats |
| DashboardData.CollectLoop | Eli-Frontend/hooks/useDashboardData.ts:50-62 | the loop with its break equals Collect and Visited, or stops at the first visited chat whose request rejects |
| DashboardData.IndexOf | Eli-Frontend/hooks/useDashboardData.ts:50-57 | the first position of a visited chat, so the requests before it do not include it |
| DashboardData.FlattenLists | Eli-Frontend/hooks/useDashboardData.ts:72 | the loop equals `flat()` |
| DashboardData.AggregateScores | Eli-Frontend/hooks/useDashboardData.ts:70-78 | totals and counts per emotion present |
| DashboardData.AverageAll | Eli-Frontend/hooks/useDashboardData.ts:80-85 | the loop equals Averages |
| EmotionsService.KeyOrder | Eli-Frontend/data/services/emotions.service.ts:6-8 | map keys: each name once, ordered by first occurrence |
| EmotionsService.LastIndex | Eli-Frontend/data/services/emotions.service.ts:6-8 | the value of a key is its last entry in the list |
| EmotionsService.FindIndex | Eli-Frontend/data/services/emotions.service.ts:26 | the first key contained in the query, or none |
| EmotionsService.GetEmotionDetails | Eli-Frontend/data/services/emotions.service.ts:24-31 | the default named after the query, or a catalogue entry with a non-empty name that occurs in the query |
| EmotionsService.MatchReturnsStoredEntry | Eli-Frontend/data/services/emotions.service.ts:24-31 | a match returns the stored entry unchanged, named by the first matching key in insertion order |
| EmotionsService.NoMatchGivesDefault | Eli-Frontend/data/services/emotions.service.ts:10-30 | no match gives the default entry renamed to the query |
| EmotionsService.ResultIsCatalogueOrDefault | Eli-Frontend/data/services/emotions.service.ts:24-31 | the lookup is total: a catalogue entry or the renamed default |
| EmotionsService.LaterDuplicateWins | Eli-Frontend/data/services/emotions.service.ts:6-31 | a later entry with the same name replaces the earlier one |
| SignupAccount.ValidateForm | Eli-Frontend/app/signup/1-account.tsx:20-34 | valid iff no error; each rule's field is in the record iff the rule fires, with the later rule's message |
| SignupAccount.CheckSignInDetails | Eli-Frontend/app/signup/1-account.tsx:23-27 | blank full name required; no '@' gives "Please enter a valid email" even when blank; a password under 6 UTF-16 code units (JavaScript `length`) gives the length message even when empty |
| SignupAccount.CheckAboutYou | Eli-Frontend/app/signup/1-account.tsx:28-30 | blank preferred name and relationship, and empty date of birth, each add their message; earlier keys kept |
| SignupAccount.ValidIffEveryRulePasses | Eli-Frontend/app/signup/1-account.tsx:32-33 | no error iff every rule passes |
| SignupAccount.RequiredMessagesNeverShown | Eli-Frontend/app/signup/1-account.tsx:24-27 | "Email is required" and "Password is required" are always overwritten |
| SignupAccount.AccountStep.constructor | Eli-Frontend/app/signup/1-account.tsx:17-18 | no errors, no navigation |
| SignupAccount.AccountStep.HandleNext | Eli-Frontend/app/signup/1-account.tsx:36-40 | errors stored; navigates to the persona step iff valid |
| SignupAccount.AccountStep.HandleInputChange | Eli-Frontend/app/signup/1-account.tsx:42-47 | only the named field changes; only its error is cleared, and only if it was set |
| SignupAccount.InputChangeKeepsShape | Eli-Frontend/app/signup/1-account.tsx:42-43 | an input change keeps the form complete and well typed |
| SignupContext.InitialValue | Eli-Frontend/context/signupContext.tsx:39-60 | list fields start as empty lists, the rest as strings |
| SignupContext.InitialFormDataIsComplete | Eli-Frontend/context/signupContext.tsx:39-60 | the initial form has every field, well typed, lists empty |
| SignupContext.InitialPresets | Eli-Frontend/context/signupContext.tsx:46-53 | English, ELI, warm, moderate, friendly |
| SignupContext.InitialRoutinePresets | Eli-Frontend/context/signupContext.tsx:40-58 | 07:00, 22:00, weekly; account fields empty |
| SignupContext.UpdateFormData | Eli-Frontend/context/signupContext.tsx:67-69 | keys in the partial take its values; all others unchanged |
| SignupContext.UpdateKeepsShape | Eli-Frontend/context/signupContext.tsx:67-69 | a well-typed update keeps the form complete and well typed |
| SignupContext.EmptyUpdateIsIdentity | Eli-Frontend/context/signupContext.tsx:68 | an empty partial changes nothing |
| SignupContext.UpdateIdempotent | Eli-Frontend/context/signupContext.tsx:68 | the same partial twice equals once |
| SignupContext.UpdatesCompose | Eli-Frontend/context/signupContext.tsx:67-69 | two updates are one merged update, later values winning |
| SignupContext.ResetFormData | Eli-Frontend/context/signupContext.tsx:71-73 | exactly the initial values, whatever was entered |
| SignupPersona.RemoveAll | Eli-Frontend/app/signup/2-persona.tsx:50 | every occurrence of the item removed, every other item kept with its number of occurrences |
| SignupPersona.RemoveAllAppend | Eli-Frontend/app/signup/2-persona.tsx:50 | filtering distributes over concatenation |
| SignupPersona.RemoveAbsent | Eli-Frontend/app/signup/2-persona.tsx:50 | unchecking an absent item changes nothing |
| SignupPersona.RemoveAllIsSubsequence | Eli-Frontend/app/signup/2-persona.tsx:50 | the remaining items keep their order |
| SignupPersona.ToggleItem | Eli-Frontend/app/signup/2-persona.tsx:49-52 | checking appends even a present item; unchecking removes every occurrence (the same toggle as the activity handler at Eli-Frontend/app/signup/4-routine.tsx:39-44 and the notification handler at Eli-Frontend/app/signup/5-finish.tsx:39-44) |
| SignupPersona.CheckThenUncheck | Eli-Frontend/app/signup/2-persona.tsx:49-52 | checking then unchecking an absent item restores the list |
| SignupPersona.AddPerson | Eli-Frontend/app/signup/2-persona.tsx:54-59 | appends the trimmed input and clears it iff it trims to something; otherwise nothing changes |
| SignupPersona.AddedNamesAreNotBlank | Eli-Frontend/app/signup/2-persona.tsx:54-59 | an added name always has a non-white-space character |
| SignupPersona.RemoveAt | Eli-Frontend/app/signup/2-persona.tsx:61-64 | an index in range removes exactly that entry, the rest in order; any other index changes nothing |
| SignupLayout.StepsTable | Eli-Frontend/components/signup/signupLayout.tsx:14-20 | five steps numbered 1..5 with distinct paths |
| SignupLayout.Find | Eli-Frontend/components/signup/signupLayout.tsx:24 | the first step whose path is the route, or none |
| SignupLayout.CurrentStep | Eli-Frontend/components/signup/signupLayout.tsx:24 | the current step is one of the steps: the matching step's number |
| SignupLayout.CurrentStepOfRoute | Eli-Frontend/components/signup/signupLayout.tsx:14-24 | the current step is in 1..5: the matching step's number, or 1 |
| SignupLayout.StatusOf | Eli-Frontend/components/signup/signupLayout.tsx:56-62 | done iff below current, active iff equal, upcoming iff above |
| SignupLayout.ViewOf | Eli-Frontend/components/signup/signupLayout.tsx:56-78 | check icon iff below current; dark label iff at most current; a connector after all but the last step, teal iff below current |
| SignupLayout.Stepper | Eli-Frontend/components/signup/signupLayout.tsx:52-80 | one view per step |
| SignupLayout.StepperShape | Eli-Frontend/components/signup/signupLayout.tsx:56-62 | exactly one active step and current - 1 done ones |
| SignupLayout.ConnectorsAfterFinishedSteps | Eli-Frontend/components/signup/signupLayout.tsx:74-78 | four connectors, teal iff the step is below current |
| Text.Split | server/middleware/authJWT.js:11 | `split` with a one-character separator: at least one part, none containing the separator |
| Text.JoinSplit | server/middleware/authJWT.js:11 | joining the parts of a split gives back the string |
| Text.SecondPart | Eli-Frontend/hooks/useChatSockets.ts:20 | `split(sep)[1]` exists iff the separator occurs, and is the separator-free text between the first separator and the next one or the end |
| Text.SecondPartUnique | server/middleware/authJWT.js:11 | any text between the first separator and the next one or the end is the second piece |
| Text.Trim | Eli-Frontend/app/signup/2-persona.tsx:55-56 | `trim()` is empty iff the string is all white space, and otherwise starts and ends with a non-white-space character |
| Text.TrimKeepsSlice | Eli-Frontend/app/signup/2-persona.tsx:55-56 | trimming removes only surrounding white space |
| Text.TrimIdempotent | Eli-Frontend/app/signup/2-persona.tsx:55-56 | trimming twice is trimming once |
| Text.IncludesIff | Eli-Frontend/data/services/emotions.service.ts:26 | `includes` is contiguous-substring occurrence |
| Text.Includes | Eli-Frontend/data/services/emotions.service.ts:26 | only a key no longer than the query can occur; the empty key always occurs |
| Text.Utf16Length | Eli-Frontend/app/signup/1-account.tsx:26 | JavaScript `length`: between one and two units per character, equal to the character count iff no character lies outside the Basic Multilingual Plane |

## Left out

- **Real I/O.** Sockets, the `pg` pool and SQL text, the Hume SDK, `fetch`, `localStorage`, timers and `console` logging are not modelled. They are parameters or effect-log entries. SQL semantics beyond the inserts, upserts and updates named in the effects are out of scope.
- **Concurrency.** Each handler runs atomically, one event after another. This leaves out client frames arriving during the `await`s of the start handler (eviService.js), and the interleaving of the two `asyncio.gather` loops in chat-hume.py. The latter are modelled one after the other.
- **Decoding and crypto.** JSON parsing, Base64 decoding, `decodeURIComponent`, `jwt.verify`/`jwt.sign`/`jwt.decode` and uuid generation are oracles. They are not defined.
- **Floating point.** Scores, embeddings and averages are reals. The model does not capture the rounding of `totalScore / count`.
- ChatSockets.ChatSocketClient.OnMessage: requires that the frame does not throw inside a React state updater. An assistant message without a `message` object makes the updater throw later, at render time. Such frames are excluded rather than modelled.
- EviSocket.EviSocketClient.OnMessage: the same exclusion as the chat hook's message handler, for the same reason.
- **Other write failures.** In the two Node proxies (eviService.js and rtchatService.js), failures of the finalisation updates and of the per-frame event inserts are caught and logged, so they add no effect in the model. The Python proxy is different: its commits are not caught on their own, and `ChatHume.Endpoint.Serve` models each one failing. The importer is different too: any failing statement rolls back the whole import, and `ConversationService.Database.Ingest` models that.
- ChatHume.CommitFault: a commit that raised is taken to leave the SQLAlchemy session needing a rollback, so the `finally` block's commit raises as well. A commit that raises only at the database's COMMIT, with the session still usable, is not modelled separately.
- EviSocket.EviSocketClient.OnStaleClose: only the replaced socket's close is modelled. Its `onerror` (fired when `close()` aborts a socket that was still connecting) is not.
- DashboardData.AggregateScores: the analytics values are taken to be numbers. server/api/chats.js:56 computes `AVG(value::numeric)`, which node-postgres returns as a string unless a type parser is set, and none is. With strings, `totalScore += average_score` concatenates, and an emotion present in two or more lists averages to NaN. `DashboardData.AverageWithinBounds` holds only for numeric values.
- ChatSockets.HandledFrame: also excludes `error` frames whose `message` is an object. The hook would put that object into its string-typed `error` state, which the model's `Option<string>` cannot hold.
- EviSocket.HandledEvent: the same exclusion of `error` frames with an object `message`, for the same reason.
- EviService.RouteFrame: `isBinary` stands for `Buffer.isBuffer(message)`. With `ws` 8 or later every frame, text included, arrives as a Buffer, which would make the `user_input` branch unreachable. The `ws` version is not part of this model.
- EviService.UpstreamMessage: only frames that `JSON.parse` accepts are modelled. For any other frame the listener throws before logging or relaying, and the exception leaves the handler.
- **`simulateChat`.** This scripted test driver with timers in rtchatService.js is not part of this model.
- **Timestamps.** `end_timestamp` values are not modelled. Neither is the importer's `start_timestamp` conversion beyond the group's start times.
- **Validator `trim()` test.** SignupAccount.ValidateForm states the "empty after trim" rules as "all white space". `Text.Trim` proves the two equal (`Trim(s) == []` iff `AllWhitespace(s)`).
- **Sign-up screens.** Rendering, navigation other than the account step's `router.push`, and the other sign-up steps' handlers are not modelled; the hobby/activity/notification toggle is the exception.
