/**
 * Bulk ingestion of a recorded conversation (conversationService.js): inside
 * one transaction the user is looked up by email, the upstream config row is
 * inserted, the chat group is upserted, the chat row is inserted, and then
 * every recognised event is normalised and inserted. Any error rolls
 * everything back; the database client is released on every path.
 */
module ConversationService {
  import opened Wrappers

  type Uuid = string

  /** `parsedMetadata?.segments?.[0]?.embedding`, by what the code does with it. */
  datatype EmbeddingField =
    | Absent                    // missing or falsy: no embedding is stored
    | NotAnArray                // truthy but not an array: the event is skipped
    | Values(v: seq<real>)      // an array (possibly empty, which is truthy)

  /** `event.metadata` as the loop sees it. */
  datatype Metadata =
    | NoMetadata                // missing, empty or not a string
    | Unparsable                // a string `JSON.parse` rejects: treated as null
    | Parsed(embedding: EmbeddingField)

  /** One entry of `events_page`. */
  datatype HumeEvent = HumeEvent(id: Uuid, eventType: string, role: string, text: Option<string>,
                                 emotions: Option<string>, timestamp: int, metadata: Metadata)

  datatype ConfigRef = ConfigRef(id: Uuid, version: int)

  /** The recorded conversation; a missing `config` object is `None`. */
  datatype HumeChat = HumeChat(id: Uuid, chatGroupId: Uuid, status: string, start: int, end: int,
                               eventsPage: seq<HumeEvent>, config: Option<ConfigRef>)

  datatype GroupRow = GroupRow(firstStart: int, mostRecentStart: int, numChats: nat, active: bool)
  datatype ChatRow = ChatRow(chatGroupId: Uuid, userId: Uuid, configId: Uuid, status: string, start: int,
                             end: int, eventCount: nat)
  datatype EventRow = EventRow(chatId: Uuid, timestamp: int, role: string, eventType: string,
                               text: Option<string>, emotions: Option<string>, embedding: Option<seq<real>>)

  /** What `ingestConversation` resolves with, or the error it rethrows. */
  datatype IngestResult = Ingested(chatId: Uuid) | Failed(message: string)

  /**
   * The statement that fails with a database error, if one does: `BEGIN`, the
   * user lookup, the config insert (with an error other than a duplicate
   * id), the group upsert, the chat insert, the insert for the page entry at
   * `index`, or `COMMIT`. A fault at a statement that is never issued has no
   * effect.
   */
  datatype Fault =
    | NoFault | BeginFault | UserQueryFault | ConfigFault | GroupFault | ChatFault
    | EventFault(index: nat) | CommitFault

  const ValidEventTypes: seq<string> := ["USER_MESSAGE", "AGENT_MESSAGE"]
  const VectorDimension: nat := 768
  const FailureMessage := "Failed to ingest conversation data due to a server error."

  /**
   * Zero-pad a short vector, or cut a long one, to the database's
   * dimension; the prefix that fits is kept.
   */
  function Normalise(v: seq<real>): (w: seq<real>)
    ensures |w| == VectorDimension
    ensures forall i :: 0 <= i < |v| && i < VectorDimension ==> w[i] == v[i]
    ensures forall i :: |v| <= i < VectorDimension ==> w[i] == 0.0
  {
    if |v| < VectorDimension then v + seq(VectorDimension - |v|, _ => 0.0)
    else if |v| > VectorDimension then v[..VectorDimension]
    else v
  }

  /** A vector of the right dimension is stored as it is. */
  lemma NormaliseKeepsExactVectors(v: seq<real>)
    requires |v| == VectorDimension
    ensures Normalise(v) == v
  {
  }

  /** Normalising twice changes nothing. */
  lemma NormaliseIdempotent(v: seq<real>)
    ensures Normalise(Normalise(v)) == Normalise(v)
  {
    NormaliseKeepsExactVectors(Normalise(v));
  }

  /** What the loop body does with one event. */
  datatype Prepared = Skip | Insert(row: EventRow)

  /**
   * One pass of the loop body: events of other types are skipped; a user
   * message whose metadata parsed to a non-array embedding is skipped; a
   * user message with an array embedding stores it normalised; everything
   * else is stored without an embedding.
   */
  function Prepare(chatId: Uuid, e: HumeEvent): (p: Prepared)
    ensures p.Insert? <==>
              e.eventType in ValidEventTypes
              && !(e.eventType == "USER_MESSAGE" && e.metadata.Parsed? && e.metadata.embedding.NotAnArray?)
    ensures p.Insert? ==>
              && p.row.chatId == chatId && p.row.eventType == e.eventType && p.row.role == e.role
              && p.row.text == e.text && p.row.emotions == e.emotions && p.row.timestamp == e.timestamp
              && (p.row.embedding.Some? <==>
                    e.eventType == "USER_MESSAGE" && e.metadata.Parsed? && e.metadata.embedding.Values?)
              && (p.row.embedding.Some? ==>
                    |p.row.embedding.value| == VectorDimension
                    && forall i :: 0 <= i < |e.metadata.embedding.v| && i < VectorDimension ==>
                         p.row.embedding.value[i] == e.metadata.embedding.v[i])
  {
    if e.eventType !in ValidEventTypes then Skip
    else
      var embedding :=
        if e.eventType == "USER_MESSAGE" && e.metadata.Parsed? then e.metadata.embedding else Absent;
      match embedding
      case NotAnArray => Skip
      case Absent => Insert(EventRow(chatId, e.timestamp, e.role, e.eventType, e.text, e.emotions, None))
      case Values(v) => Insert(EventRow(chatId, e.timestamp, e.role, e.eventType, e.text, e.emotions, Some(Normalise(v))))
  }

  /** `INSERT ... ON CONFLICT (id) DO NOTHING` for the first `n` events, in order. */
  function InsertEvents(rows: map<Uuid, EventRow>, chatId: Uuid, evs: seq<HumeEvent>, n: nat)
    : (r: map<Uuid, EventRow>)
    requires n <= |evs|
    ensures rows.Keys <= r.Keys
  {
    if n == 0 then rows
    else
      var before := InsertEvents(rows, chatId, evs, n - 1);
      match Prepare(chatId, evs[n - 1])
      case Skip => before
      case Insert(row) => if evs[n - 1].id in before then before else before[evs[n - 1].id := row]
  }

  /** The insert for the page entry the fault names is issued, and fails. */
  predicate EventFails(fault: Fault, chatId: Uuid, evs: seq<HumeEvent>)
  {
    fault.EventFault? && fault.index < |evs| && Prepare(chatId, evs[fault.index]).Insert?
  }

  /** Rows that were already stored are never overwritten. */
  lemma {:induction false} InsertEventsKeepsExisting(rows: map<Uuid, EventRow>, chatId: Uuid, evs: seq<HumeEvent>,
                                                     n: nat)
    requires n <= |evs|
    ensures forall id :: id in rows ==> id in InsertEvents(rows, chatId, evs, n)
                                        && InsertEvents(rows, chatId, evs, n)[id] == rows[id]
  {
    if n > 0 {
      InsertEventsKeepsExisting(rows, chatId, evs, n - 1);
    }
  }

  /** A new row exists exactly for the id of an event the loop body keeps. */
  lemma {:induction false} InsertedEventsAreKept(rows: map<Uuid, EventRow>, chatId: Uuid, evs: seq<HumeEvent>, n: nat)
    requires n <= |evs|
    ensures forall id :: id !in rows ==>
              ((id in InsertEvents(rows, chatId, evs, n))
                <==> exists i :: 0 <= i < n && evs[i].id == id && Prepare(chatId, evs[i]).Insert?)
  {
    if n > 0 {
      var before := InsertEvents(rows, chatId, evs, n - 1);
      var after := InsertEvents(rows, chatId, evs, n);
      InsertedEventsAreKept(rows, chatId, evs, n - 1);
      InsertEventsGrows(rows, chatId, evs, n - 1);
      forall id | id !in rows && id in after
        ensures exists i :: 0 <= i < n && evs[i].id == id && Prepare(chatId, evs[i]).Insert?
      {
        if id !in before {
          assert evs[n - 1].id == id && Prepare(chatId, evs[n - 1]).Insert?;
        }
      }
      forall id | id !in rows && exists i :: 0 <= i < n && evs[i].id == id && Prepare(chatId, evs[i]).Insert?
        ensures id in after
      {
        var i :| 0 <= i < n && evs[i].id == id && Prepare(chatId, evs[i]).Insert?;
        if i < n - 1 {
          assert id in before;
        }
      }
    }
  }

  /**
   * Every new row belongs to the chat, has a recognised type, and any
   * embedding it has has the database's dimension.
   */
  lemma {:induction false} InsertedEventsAreValid(rows: map<Uuid, EventRow>, chatId: Uuid, evs: seq<HumeEvent>, n: nat)
    requires n <= |evs|
    ensures forall id :: id in InsertEvents(rows, chatId, evs, n) && id !in rows ==>
              var row := InsertEvents(rows, chatId, evs, n)[id];
              && row.chatId == chatId && row.eventType in ValidEventTypes
              && (row.embedding.Some? ==> |row.embedding.value| == VectorDimension)
  {
    if n > 0 {
      InsertedEventsAreValid(rows, chatId, evs, n - 1);
    }
  }

  /** The stored ids only grow from one event to the next. */
  lemma InsertEventsGrows(rows: map<Uuid, EventRow>, chatId: Uuid, evs: seq<HumeEvent>, n: nat)
    requires n < |evs|
    ensures InsertEvents(rows, chatId, evs, n).Keys <= InsertEvents(rows, chatId, evs, n + 1).Keys
  {
  }

  /**
   * With duplicate ids the first kept event wins: later inserts of the same
   * id do nothing.
   */
  lemma {:induction false} FirstInsertWins(rows: map<Uuid, EventRow>, chatId: Uuid, evs: seq<HumeEvent>, n: nat,
                                           i: nat)
    requires i < n <= |evs| && evs[i].id !in rows && Prepare(chatId, evs[i]).Insert?
    requires forall j :: 0 <= j < i && evs[j].id == evs[i].id ==> Prepare(chatId, evs[j]).Skip?
    ensures evs[i].id in InsertEvents(rows, chatId, evs, n)
    ensures InsertEvents(rows, chatId, evs, n)[evs[i].id] == Prepare(chatId, evs[i]).row
  {
    if n - 1 == i {
      InsertedEventsAreKept(rows, chatId, evs, i);
    } else {
      FirstInsertWins(rows, chatId, evs, n - 1, i);
    }
  }

  /**
   * The chat-group upsert: a new group starts with one chat, inactive; an
   * existing one gets the new start time and one more chat.
   */
  function UpsertGroup(groups: map<Uuid, GroupRow>, id: Uuid, start: int): (g: map<Uuid, GroupRow>)
    ensures g.Keys == groups.Keys + {id}
    ensures forall k :: k in groups && k != id ==> g[k] == groups[k]
  {
    if id in groups then groups[id := groups[id].(mostRecentStart := start, numChats := groups[id].numChats + 1)]
    else groups[id := GroupRow(start, start, 1, false)]
  }

  /** A group's rows after ingesting conversations with the given start times, in order. */
  function UpsertAll(groups: map<Uuid, GroupRow>, id: Uuid, starts: seq<int>): map<Uuid, GroupRow>
  {
    if starts == [] then groups else UpsertGroup(UpsertAll(groups, id, starts[..|starts| - 1]), id, starts[|starts| - 1])
  }

  /**
   * Ingesting `k` conversations of a group that did not exist leaves it
   * inactive, with `k` chats, its first start time and its latest one.
   */
  lemma {:induction false} UpsertCountsChats(groups: map<Uuid, GroupRow>, id: Uuid, starts: seq<int>)
    requires id !in groups && starts != []
    ensures id in UpsertAll(groups, id, starts)
    ensures UpsertAll(groups, id, starts)[id]
            == GroupRow(starts[0], starts[|starts| - 1], |starts|, false)
  {
    var init := starts[..|starts| - 1];
    if init != [] {
      UpsertCountsChats(groups, id, init);
    }
  }

  /** The database the ingestion writes to, and the pool's release counter. */
  class Database {
    var users: map<string, Uuid>
    var configs: map<Uuid, int>
    var groups: map<Uuid, GroupRow>
    var chats: map<Uuid, ChatRow>
    var events: map<Uuid, EventRow>
    var releases: nat

    constructor (accounts: map<string, Uuid>)
      ensures users == accounts && configs == map[] && groups == map[] && chats == map[] && events == map[]
      ensures releases == 0
    {
      users := accounts;
      configs := map[];
      groups := map[];
      chats := map[];
      events := map[];
      releases := 0;
    }

    /**
     * `ingestConversation`, inside `BEGIN` ... `COMMIT`. The import commits
     * exactly when the user exists, the config is present and not yet stored,
     * and no issued statement fails. A stored config makes its insert raise
     * the duplicate-id error; the code catches it, but PostgreSQL has already
     * aborted the transaction, so the group upsert after it fails and the
     * import rolls back. On a commit the config, group, chat and events are
     * written and the chat id returned, the chat's counter being the page's
     * length, skipped events included. On every failure the `ROLLBACK`
     * leaves the tables as they were and the generic error is returned.
     * Either way the client is released once.
     */
    method Ingest(data: HumeChat, email: string, fault: Fault) returns (r: IngestResult)
      modifies this
      ensures releases == old(releases) + 1 && users == old(users)
      ensures r.Ingested? <==>
                && fault !in {BeginFault, UserQueryFault, ConfigFault, GroupFault, ChatFault, CommitFault}
                && email in old(users) && data.config.Some? && data.config.value.id !in old(configs)
                && !EventFails(fault, data.id, data.eventsPage)
      ensures r.Failed? ==>
                r.message == FailureMessage && configs == old(configs) && groups == old(groups)
                && chats == old(chats) && events == old(events)
      ensures r.Ingested? ==>
                var config := data.config.value;
                && r.chatId == data.id
                && configs == old(configs)[config.id := config.version]
                && groups == UpsertGroup(old(groups), data.chatGroupId, data.start)
                && chats == (if data.id in old(chats) then old(chats)
                             else old(chats)[data.id := ChatRow(data.chatGroupId, old(users)[email], config.id,
                                                                data.status, data.start, data.end,
                                                                |data.eventsPage|)])
                && events == InsertEvents(old(events), data.id, data.eventsPage, |data.eventsPage|)
    {
      // BEGIN: what a ROLLBACK returns to.
      var configs0, groups0, chats0, events0 := configs, groups, chats, events;
      var committed := false;
      if fault != BeginFault && fault != UserQueryFault && email in users && data.config.Some? {
        var config := data.config.value;
        // A stored id raises the duplicate-id error: swallowed, but the
        // transaction is aborted and every later statement fails.
        if config.id !in configs && fault != ConfigFault {
          committed := Write(data, users[email], config, fault);
        }
      }
      if committed {
        r := Ingested(data.id);
      } else {
        configs, groups, chats, events := configs0, groups0, chats0, events0;
        r := Failed(FailureMessage);
      }
      releases := releases + 1;
    }

    /**
     * Steps 2 to 5 once the user is known and the config is new: the config,
     * group, chat and event writes, then COMMIT; `false` when a statement
     * fails, leaving the rollback to the caller.
     */
    method Write(data: HumeChat, userId: Uuid, config: ConfigRef, fault: Fault) returns (committed: bool)
      requires config.id !in configs
      modifies this`configs, this`groups, this`chats, this`events
      ensures committed <==>
                fault !in {GroupFault, ChatFault, CommitFault} && !EventFails(fault, data.id, data.eventsPage)
      ensures committed ==>
                && configs == old(configs)[config.id := config.version]
                && groups == UpsertGroup(old(groups), data.chatGroupId, data.start)
                && chats == (if data.id in old(chats) then old(chats)
                             else old(chats)[data.id := ChatRow(data.chatGroupId, userId, config.id, data.status,
                                                                data.start, data.end, |data.eventsPage|)])
                && events == InsertEvents(old(events), data.id, data.eventsPage, |data.eventsPage|)
    {
      configs := configs[config.id := config.version];
      committed := false;
      if fault == GroupFault {
        return;
      }
      groups := UpsertGroup(groups, data.chatGroupId, data.start);
      if fault == ChatFault {
        return;
      }
      if data.id !in chats {
        chats := chats[data.id := ChatRow(data.chatGroupId, userId, config.id, data.status, data.start, data.end,
                                          |data.eventsPage|)];
      }
      var stored := StoreEvents(data.id, data.eventsPage, fault);
      committed := stored && fault != CommitFault;
    }

    /** Step 5: the loop over `events_page`, stopped by a failing insert. */
    method StoreEvents(chatId: Uuid, evs: seq<HumeEvent>, fault: Fault) returns (stored: bool)
      modifies this`events
      ensures stored <==> !EventFails(fault, chatId, evs)
      ensures stored ==> events == InsertEvents(old(events), chatId, evs, |evs|)
    {
      var i := 0;
      while i < |evs|
        invariant 0 <= i <= |evs|
        invariant events == InsertEvents(old(events), chatId, evs, i)
        invariant !(fault.EventFault? && fault.index < i && Prepare(chatId, evs[fault.index]).Insert?)
      {
        var e := evs[i];
        if e.eventType !in ValidEventTypes {
          i := i + 1;
          continue;
        }
        var embedding: Option<seq<real>> := None;
        if e.eventType == "USER_MESSAGE" && e.metadata.Parsed? && !e.metadata.embedding.Absent? {
          if e.metadata.embedding.NotAnArray? {
            i := i + 1;
            continue;
          }
          embedding := Some(Normalise(e.metadata.embedding.v));
        }
        if fault == EventFault(i) {
          return false;
        }
        if e.id !in events {
          events := events[e.id := EventRow(chatId, e.timestamp, e.role, e.eventType, e.text, e.emotions, embedding)];
        }
        i := i + 1;
      }
      stored := true;
    }
  }
}
