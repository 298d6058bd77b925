/**
 * The earlier Python proxy (chat-hume.py): the user id read from the query
 * token, the 1008 gate, the group and chat rows created once the upstream
 * connection is up, per-message persistence with the chat's event counter,
 * and the `finally` block that ends the chat and deactivates the group.
 *
 * The two forwarding loops run concurrently in the source; here the
 * frontend's frames and the upstream's messages are handled one loop after
 * the other, and the sequences given are those handled before the session
 * ended.
 */
module ChatHume {
  import opened Wrappers

  /** `jwt.decode(token, secret)`: the payload's string claims, `None` on a `PyJWTError`. */
  type TokenDecoder = string -> Option<map<string, string>>

  /** `get_current_user_id`: nothing for an empty token or a decode error, else the payload's `userId`. */
  function GetCurrentUserId(token: string, decode: TokenDecoder): (userId: Option<string>)
    ensures token == "" ==> userId.None?
    ensures userId.Some? <==> token != "" && decode(token).Some? && "userId" in decode(token).value
    ensures userId.Some? ==> userId.value == decode(token).value["userId"]
  {
    if token == "" then None
    else
      match decode(token)
      case None => None
      case Some(payload) => if "userId" in payload then Some(payload["userId"]) else None
  }

  /** `message["message"]`'s role and content; `None` when either key is missing. */
  datatype HumeBody = HumeBody(role: string, content: string)

  /** An upstream message. */
  datatype HumeMsg = HumeMsg(msgType: string, body: Option<HumeBody>, scores: Option<map<string, real>>)

  datatype GroupRow = GroupRow(active: bool, numChats: nat)
  datatype ChatRow = ChatRow(userId: string, eventCount: nat, ended: bool)
  datatype EventRow = EventRow(role: string, eventType: string, text: string, emotions: map<string, real>)

  /** The message types that are stored. */
  predicate IsPersisted(msgType: string)
  {
    msgType == "user_message" || msgType == "assistant_message"
  }

  /** A stored type without its `message` body: reading it raises `KeyError`. */
  predicate Malformed(m: HumeMsg)
  {
    IsPersisted(m.msgType) && m.body.None?
  }

  /** The row stored for a message; the scores default to `{}`. */
  function RowOf(m: HumeMsg): (row: EventRow)
    requires IsPersisted(m.msgType) && m.body.Some?
    ensures row.eventType == m.msgType && row.role == m.body.value.role && row.text == m.body.value.content
    ensures m.scores.None? ==> row.emotions == map[]
    ensures m.scores.Some? ==> row.emotions == m.scores.value
  {
    EventRow(m.body.value.role, m.msgType, m.body.value.content, m.scores.GetOr(map[]))
  }

  /** The first `n` messages are well-formed. */
  predicate WellFormedUpTo(ms: seq<HumeMsg>, n: nat)
  {
    n <= |ms| && forall i :: 0 <= i < n ==> !Malformed(ms[i])
  }

  /** The rows stored for the first `n` messages, in order. */
  function StoredRows(ms: seq<HumeMsg>, n: nat): (rows: seq<EventRow>)
    requires WellFormedUpTo(ms, n)
    ensures |rows| <= n
    ensures forall r :: r in rows ==> IsPersisted(r.eventType)
  {
    if n == 0 then []
    else
      var last := ms[n - 1];
      assert !Malformed(last);
      StoredRows(ms, n - 1) + (if IsPersisted(last.msgType) then [RowOf(last)] else [])
  }

  /**
   * Storing is compositional: the rows for a concatenation are the rows for
   * each part, in order.
   */
  lemma {:induction false} StoredRowsAppend(a: seq<HumeMsg>, b: seq<HumeMsg>, n: nat)
    requires WellFormedUpTo(a, |a|) && WellFormedUpTo(b, n)
    ensures WellFormedUpTo(a + b, |a| + n)
    ensures StoredRows(a + b, |a| + n) == StoredRows(a, |a|) + StoredRows(b, n)
  {
    assert forall i :: 0 <= i < |a + b| ==> (a + b)[i] == (if i < |a| then a[i] else b[i - |a|]);
    if n == 0 {
      StoredRowsPrefix(a, a + b, |a|);
    } else {
      StoredRowsAppend(a, b, n - 1);
    }
  }

  /** The rows for a prefix do not depend on what follows it. */
  lemma {:induction false} StoredRowsPrefix(a: seq<HumeMsg>, c: seq<HumeMsg>, n: nat)
    requires WellFormedUpTo(a, n) && n <= |c| && forall i :: 0 <= i < n ==> c[i] == a[i]
    ensures WellFormedUpTo(c, n) && StoredRows(c, n) == StoredRows(a, n)
  {
    if n > 0 {
      StoredRowsPrefix(a, c, n - 1);
    }
  }

  /** Messages of other types are forwarded only, never stored. */
  lemma {:induction false} OnlyStoredTypesCount(ms: seq<HumeMsg>, n: nat)
    requires n <= |ms| && forall i :: 0 <= i < n ==> !IsPersisted(ms[i].msgType)
    ensures WellFormedUpTo(ms, n) && StoredRows(ms, n) == []
  {
    if n > 0 {
      OnlyStoredTypesCount(ms, n - 1);
    }
  }

  /** Where the forwarding loop stops: the first malformed message, or the end. */
  function Stop(ms: seq<HumeMsg>): (k: nat)
    ensures WellFormedUpTo(ms, k)
    ensures k < |ms| ==> Malformed(ms[k])
    decreases |ms|
  {
    if ms == [] || Malformed(ms[0]) then 0
    else
      var k := Stop(ms[1..]);
      assert forall i :: 1 <= i < k + 1 ==> ms[i] == ms[1..][i - 1];
      k + 1
  }

  const PolicyViolation := 1008

  /**
   * The `db.commit()` that raises, if any: the group's (line 113), the
   * chat's (line 117), the one after the stored message at the given
   * position, or the `finally` block's. A commit that raised leaves the
   * session needing a rollback that the endpoint never issues, so every
   * later commit of the call raises as well.
   */
  datatype CommitFault = NoCommitFault | GroupCommitFault | ChatCommitFault | EventCommitFault(index: nat) | FinalCommitFault

  /** The commit fault strikes inside the forwarding loop: at a stored message the loop reaches. */
  predicate EventFaultHits(ms: seq<HumeMsg>, fault: CommitFault)
  {
    fault.EventCommitFault? && fault.index < Stop(ms) && IsPersisted(ms[fault.index].msgType)
  }

  /** Where the forwarding loop stops: at the failing commit, the first malformed message, or the end. */
  function StopAt(ms: seq<HumeMsg>, fault: CommitFault): (k: nat)
    ensures k <= Stop(ms) && WellFormedUpTo(ms, k)
    ensures k < |ms| ==> Malformed(ms[k]) || EventFaultHits(ms, fault)
    ensures EventFaultHits(ms, fault) ==> k == fault.index
  {
    if EventFaultHits(ms, fault) then fault.index else Stop(ms)
  }

  /** Rows stored for a shorter prefix are a prefix of the rows for a longer one. */
  lemma {:induction false} StoredRowsGrow(ms: seq<HumeMsg>, j: nat, n: nat)
    requires j <= n && WellFormedUpTo(ms, n)
    ensures WellFormedUpTo(ms, j) && StoredRows(ms, j) <= StoredRows(ms, n)
  {
    if j < n {
      StoredRowsGrow(ms, j, n - 1);
    }
  }

  /** A failing commit only loses rows: what is committed is a prefix of what a fault-free run commits. */
  lemma CommitFaultKeepsPrefix(ms: seq<HumeMsg>, fault: CommitFault)
    ensures StoredRows(ms, StopAt(ms, fault)) <= StoredRows(ms, Stop(ms))
    ensures !EventFaultHits(ms, fault) ==> StopAt(ms, fault) == Stop(ms)
  {
    StoredRowsGrow(ms, StopAt(ms, fault), Stop(ms));
  }

  /** One `websocket_endpoint` call; the row fields hold what is committed. */
  class Endpoint {
    var closeCode: Option<int>
    var group: Option<GroupRow>
    var chat: Option<ChatRow>
    var events: seq<EventRow>
    var toFrontend: seq<HumeMsg>
    var toHume: seq<string>
    /** An exception left the endpoint: the `finally` block's own commit raised. */
    var raised: bool

    constructor ()
      ensures closeCode.None? && group.None? && chat.None? && events == [] && toFrontend == [] && toHume == []
      ensures !raised
    {
      closeCode := None;
      group := None;
      chat := None;
      events := [];
      toFrontend := [];
      toHume := [];
      raised := false;
    }

    /**
     * The endpoint: a falsy user id closes with 1008 before any row exists.
     * Otherwise, when the upstream connection comes up, the group (active, one
     * chat) and the user's chat are created; frontend text goes upstream;
     * every upstream message goes to the frontend and the stored types are
     * recorded and counted, until a stored type without a body raises or a
     * commit raises. The `finally` block then ends the chat and deactivates
     * the group, if they exist; after a failed commit, or when its own commit
     * fails, that update is lost and the exception leaves the endpoint.
     */
    method Serve(userId: Option<string>, upstreamConnects: bool, fromFrontend: seq<string>, upstream: seq<HumeMsg>,
                 fault: CommitFault)
      requires closeCode.None? && group.None? && chat.None? && events == [] && toFrontend == [] && toHume == []
      requires !raised
      modifies this
      ensures userId.None? || userId.value == "" ==>
                closeCode == Some(PolicyViolation) && group.None? && chat.None? && events == []
                && toFrontend == [] && toHume == [] && !raised
      ensures userId.Some? && userId.value != "" && !upstreamConnects ==>
                closeCode.None? && group.None? && chat.None? && events == [] && toFrontend == [] && toHume == []
                && !raised
      ensures userId.Some? && userId.value != "" && upstreamConnects && fault == GroupCommitFault ==>
                closeCode.None? && group.None? && chat.None? && events == [] && toFrontend == [] && toHume == []
                && raised
      ensures userId.Some? && userId.value != "" && upstreamConnects && fault == ChatCommitFault ==>
                closeCode.None? && group == Some(GroupRow(true, 1)) && chat.None? && events == []
                && toFrontend == [] && toHume == [] && raised
      ensures userId.Some? && userId.value != "" && upstreamConnects && fault != GroupCommitFault
              && fault != ChatCommitFault ==>
                var k := StopAt(upstream, fault);
                var finalised := !EventFaultHits(upstream, fault) && fault != FinalCommitFault;
                && closeCode.None?
                && group == Some(GroupRow(!finalised, 1))
                && chat == Some(ChatRow(userId.value, |events|, finalised))
                && events == StoredRows(upstream, k)
                && toFrontend == upstream[..if k < |upstream| then k + 1 else k]
                && toHume == fromFrontend
                && raised == !finalised
    {
      if userId.None? || userId.value == "" {
        closeCode := Some(PolicyViolation);
        return;
      }
      if !upstreamConnects {
        return;
      }
      if fault == GroupCommitFault {
        raised := true;
        return;
      }
      group := Some(GroupRow(true, 1));
      if fault == ChatCommitFault {
        raised := true;
        return;
      }
      chat := Some(ChatRow(userId.value, 0, false));
      ForwardToHume(fromFrontend);
      var commitFailed := ForwardToFrontend(upstream, fault);
      raised := Finalise(commitFailed || fault == FinalCommitFault);
    }

    /** `forward_to_hume`: every frontend text frame goes upstream as text input, in order. */
    method ForwardToHume(fromFrontend: seq<string>)
      requires toHume == []
      modifies this`toHume
      ensures toHume == fromFrontend
    {
      var j := 0;
      while j < |fromFrontend|
        invariant 0 <= j <= |fromFrontend|
        invariant toHume == fromFrontend[..j]
      {
        toHume := toHume + [fromFrontend[j]];
        j := j + 1;
      }
      assert fromFrontend[..j] == fromFrontend;
    }

    /**
     * `forward_to_frontend`: each upstream message is sent to the frontend;
     * a stored type then adds a row and bumps the chat's counter, or raises
     * when its body is missing, which ends the loop. A commit that raises
     * also ends the loop, with that message's row and count not committed.
     */
    method ForwardToFrontend(upstream: seq<HumeMsg>, fault: CommitFault) returns (commitFailed: bool)
      requires toFrontend == [] && events == [] && chat.Some? && chat.value.eventCount == 0
      modifies this`toFrontend, this`events, this`chat
      ensures commitFailed <==> EventFaultHits(upstream, fault)
      ensures var k := StopAt(upstream, fault);
              && events == StoredRows(upstream, k)
              && toFrontend == upstream[..if k < |upstream| then k + 1 else k]
      ensures chat == Some(old(chat).value.(eventCount := |events|))
    {
      var k := StopAt(upstream, fault);
      var i := 0;
      var stopped := false;
      commitFailed := false;
      while i < |upstream| && !stopped
        decreases |upstream| - i, !stopped
        invariant 0 <= i <= k
        invariant !stopped ==> toFrontend == upstream[..i] && !commitFailed
        invariant stopped ==> i == k < |upstream| && toFrontend == upstream[..k + 1]
        invariant stopped ==> (commitFailed <==> EventFaultHits(upstream, fault))
        invariant events == StoredRows(upstream, i)
        invariant chat == Some(old(chat).value.(eventCount := |events|))
      {
        var m := upstream[i];
        assert upstream[..i + 1] == upstream[..i] + [m];
        toFrontend := toFrontend + [m];
        if IsPersisted(m.msgType) && m.body.None? {
          stopped := true;
        } else if IsPersisted(m.msgType) && fault == EventCommitFault(i) {
          stopped := true;
          commitFailed := true;
        } else {
          assert i < k;
          if IsPersisted(m.msgType) {
            events := events + [RowOf(m)];
            chat := Some(chat.value.(eventCount := chat.value.eventCount + 1));
          }
          i := i + 1;
        }
      }
    }

    /**
     * The `finally` block: the chat gets its end time and the group goes
     * inactive, where they exist, unless the commit fails; then nothing is
     * written and the exception propagates.
     */
    method Finalise(commitFails: bool) returns (raises: bool)
      modifies this`chat, this`group
      ensures raises == commitFails
      ensures commitFails ==> chat == old(chat) && group == old(group)
      ensures !commitFails ==>
                chat == (if old(chat).Some? then Some(old(chat).value.(ended := true)) else None)
                && group == (if old(group).Some? then Some(old(group).value.(active := false)) else None)
    {
      raises := commitFails;
      if commitFails {
        return;
      }
      if chat.Some? {
        chat := Some(chat.value.(ended := true));
      }
      if group.Some? {
        group := Some(group.value.(active := false));
      }
    }
  }
}
