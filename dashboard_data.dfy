/**
 * The dashboard hook (useDashboardData.ts): with the stored token it fetches
 * the chat list, visits the chats in order collecting non-empty emotion
 * analytics until five lists are held, and averages each emotion's scores
 * over all collected entries.
 */
module DashboardData {
  import opened Wrappers

  type Uuid = string

  /** One entry of a chat's analytics: an emotion and its average score in that chat. */
  datatype EmotionScore = EmotionScore(emotion: string, averageScore: real)

  /** A chat's analytics as fetched: `None` when the response is not ok. */
  type AnalyticsOracle = Uuid -> Option<seq<EmotionScore>>

  /** The requests the hook issues, in order. */
  datatype Request = ChatsRequest | AnalyticsRequest(chatId: Uuid)

  /**
   * A request that rejects, or whose `json()` throws: the chat list's, or the
   * analytics request of the given chat. Either ends in the `catch` block.
   */
  datatype FetchFault = NoRejection | ChatsRejected(message: string) | AnalyticsRejected(chatId: Uuid, message: string)

  /** Per-emotion running totals. */
  datatype Aggregate = Aggregate(totalScore: real, count: nat)

  const MaxChatsToAverage: nat := 5
  const NoTokenError := "Authentication token not found."
  const ChatsError := "Failed to fetch chats."
  const UnknownError := "An unknown error occurred."

  /** `err.message || "An unknown error occurred."`. */
  function ErrorText(message: string): string
  {
    if message != "" then message else UnknownError
  }

  /** The position of the first occurrence of `x` in `v`. */
  function IndexOf(v: seq<Uuid>, x: Uuid): (k: nat)
    requires x in v
    ensures k < |v| && v[k] == x && x !in v[..k]
  {
    if v[0] == x then 0 else 1 + IndexOf(v[1..], x)
  }

  /** In `a + [x] + b` with `x` not in `a`, the first `x` follows `a`. */
  lemma IndexAfterPrefix(a: seq<Uuid>, x: Uuid, b: seq<Uuid>)
    requires x !in a
    ensures IndexOf(a + [x] + b, x) == |a| && (a + [x] + b)[..|a| + 1] == a + [x]
  {
    var v := a + [x] + b;
    var k := IndexOf(v, x);
    assert v[..|a| + 1] == a + [x];
    assert k >= |a| by {
      assert forall i :: 0 <= i < |a| ==> v[i] == a[i];
    }
    assert k <= |a| by {
      assert x in v[..|a| + 1];
    }
  }

  /** A chat contributes its analytics when the response is ok and the list is non-empty. */
  predicate Contributes(analytics: AnalyticsOracle, chatId: Uuid)
  {
    analytics(chatId).Some? && analytics(chatId).value != []
  }

  /**
   * The lists collected from `chats`, in order, while fewer than `cap` are
   * held; each is non-empty and came from a contributing chat.
   */
  function Collect(chats: seq<Uuid>, analytics: AnalyticsOracle, cap: nat): (lists: seq<seq<EmotionScore>>)
    ensures |lists| <= cap
  {
    if cap == 0 || chats == [] then []
    else if Contributes(analytics, chats[0]) then [analytics(chats[0]).value] + Collect(chats[1..], analytics, cap - 1)
    else Collect(chats[1..], analytics, cap)
  }

  /** Every collected list is non-empty and is the ok response for one of the chats. */
  lemma {:induction false} CollectedFromChats(chats: seq<Uuid>, analytics: AnalyticsOracle, cap: nat)
    ensures forall l :: l in Collect(chats, analytics, cap) ==>
              l != [] && exists c :: c in chats && analytics(c) == Some(l)
  {
    if cap > 0 && chats != [] {
      CollectedFromChats(chats[1..], analytics, if Contributes(analytics, chats[0]) then cap - 1 else cap);
      assert forall c :: c in chats[1..] ==> c in chats;
    }
  }

  /** The chats whose analytics are fetched: each one visited before the cap is reached. */
  function Visited(chats: seq<Uuid>, analytics: AnalyticsOracle, cap: nat): seq<Uuid>
  {
    if cap == 0 || chats == [] then []
    else [chats[0]] + Visited(chats[1..], analytics, if Contributes(analytics, chats[0]) then cap - 1 else cap)
  }

  /**
   * Collection stops exactly when the cap is reached: with fewer lists every
   * chat was visited, and with the cap reached the last chat visited is the
   * one that supplied the last list.
   */
  lemma {:induction false} VisitsUntilFull(chats: seq<Uuid>, analytics: AnalyticsOracle, cap: nat)
    ensures |Collect(chats, analytics, cap)| < cap ==> Visited(chats, analytics, cap) == chats
    ensures var v := Visited(chats, analytics, cap);
            |Collect(chats, analytics, cap)| == cap > 0 ==> v != [] && Contributes(analytics, v[|v| - 1])
    ensures Visited(chats, analytics, cap) <= chats
  {
    if cap > 0 && chats != [] {
      var cap' := if Contributes(analytics, chats[0]) then cap - 1 else cap;
      VisitsUntilFull(chats[1..], analytics, cap');
      assert chats == [chats[0]] + chats[1..];
    }
  }

  /** The collected lists, concatenated (`flat()`). */
  function Flatten(lists: seq<seq<EmotionScore>>): seq<EmotionScore>
  {
    if lists == [] then [] else lists[0] + Flatten(lists[1..])
  }

  /** The sum of `emotion`'s scores among the first `n` entries. */
  function SumFor(entries: seq<EmotionScore>, emotion: string, n: nat): real
    requires n <= |entries|
  {
    if n == 0 then 0.0
    else SumFor(entries, emotion, n - 1) + (if entries[n - 1].emotion == emotion then entries[n - 1].averageScore else 0.0)
  }

  /** How many of the first `n` entries are for `emotion`. */
  function CountFor(entries: seq<EmotionScore>, emotion: string, n: nat): nat
    requires n <= |entries|
  {
    if n == 0 then 0 else CountFor(entries, emotion, n - 1) + (if entries[n - 1].emotion == emotion then 1 else 0)
  }

  /** An emotion with no entries has a zero sum. */
  lemma {:induction false} UncountedSumsToZero(entries: seq<EmotionScore>, emotion: string, n: nat)
    requires n <= |entries| && CountFor(entries, emotion, n) == 0
    ensures SumFor(entries, emotion, n) == 0.0
  {
    if n > 0 {
      UncountedSumsToZero(entries, emotion, n - 1);
    }
  }

  /** The emotions among the first `n` entries: exactly those with a positive count. */
  function Emotions(entries: seq<EmotionScore>, n: nat): (s: set<string>)
    requires n <= |entries|
    ensures forall e :: e in s <==> CountFor(entries, e, n) > 0
  {
    if n == 0 then {} else Emotions(entries, n - 1) + {entries[n - 1].emotion}
  }

  /** The result: each emotion present, with the mean of its scores. */
  function Averages(entries: seq<EmotionScore>): (avg: map<string, real>)
    ensures avg.Keys == Emotions(entries, |entries|)
  {
    map e | e in Emotions(entries, |entries|) :: SumFor(entries, e, |entries|) / (CountFor(entries, e, |entries|) as real)
  }

  /** The scores of an emotion all lie in `[lo, hi]`, so their sum lies between `count * lo` and `count * hi`. */
  lemma {:induction false} SumWithinBounds(entries: seq<EmotionScore>, emotion: string, n: nat, lo: real, hi: real)
    requires n <= |entries|
    requires forall i :: 0 <= i < n && entries[i].emotion == emotion ==> lo <= entries[i].averageScore <= hi
    ensures (CountFor(entries, emotion, n) as real) * lo <= SumFor(entries, emotion, n)
            <= (CountFor(entries, emotion, n) as real) * hi
  {
    if n > 0 {
      SumWithinBounds(entries, emotion, n - 1, lo, hi);
      var c := CountFor(entries, emotion, n - 1) as real;
      if entries[n - 1].emotion == emotion {
        assert (c + 1.0) * lo == c * lo + lo && (c + 1.0) * hi == c * hi + hi;
      }
    }
  }

  /** A quotient by a positive count lies between the bounds the count scales. */
  lemma DivisionWithinBounds(s: real, c: real, lo: real, hi: real)
    requires c > 0.0 && c * lo <= s <= c * hi
    ensures lo <= s / c <= hi
  {
    assert (s / c) * c == s;
  }

  /** An average lies within the range of the scores it averages. */
  lemma AverageWithinBounds(entries: seq<EmotionScore>, emotion: string, lo: real, hi: real)
    requires emotion in Averages(entries)
    requires forall i :: 0 <= i < |entries| && entries[i].emotion == emotion ==> lo <= entries[i].averageScore <= hi
    ensures lo <= Averages(entries)[emotion] <= hi
  {
    var n := |entries|;
    SumWithinBounds(entries, emotion, n, lo, hi);
    var c := CountFor(entries, emotion, n) as real;
    var s := SumFor(entries, emotion, n);
    assert Averages(entries)[emotion] == s / c;
    DivisionWithinBounds(s, c, lo, hi);
  }

  /** One hook instance. */
  class Dashboard {
    var emotionData: Option<map<string, real>>
    var isLoading: bool
    var error: Option<string>
    var requests: seq<Request>

    constructor ()
      ensures emotionData.None? && isLoading && error.None? && requests == []
    {
      emotionData := None;
      isLoading := true;
      error := None;
      requests := [];
    }

    /**
     * `fetchAndProcessData`: a missing or empty token fails before any
     * request; a rejected or unreadable chat list fails with its message, a
     * chat list that is not ok with the fixed one; a rejected analytics
     * request fails with its message, after requesting the chats visited up
     * to it; otherwise the averages of the collected analytics are stored
     * (`{}` when there are none). Every failure leaves no data, and loading
     * always ends.
     */
    method FetchAndProcess(token: Option<string>, chats: Option<seq<Uuid>>, analytics: AnalyticsOracle, fault: FetchFault)
      modifies this
      ensures !isLoading
      ensures token.None? || token.value == "" ==>
                error == Some(NoTokenError) && emotionData.None? && requests == old(requests)
      ensures token.Some? && token.value != "" && fault.ChatsRejected? ==>
                error == Some(ErrorText(fault.message)) && emotionData.None? && requests == old(requests) + [ChatsRequest]
      ensures token.Some? && token.value != "" && !fault.ChatsRejected? && chats.None? ==>
                error == Some(ChatsError) && emotionData.None? && requests == old(requests) + [ChatsRequest]
      ensures token.Some? && token.value != "" && !fault.ChatsRejected? && chats.Some? ==>
                var visited := Visited(chats.value, analytics, MaxChatsToAverage);
                var rejected := fault.AnalyticsRejected? && fault.chatId in visited;
                && (rejected ==>
                      error == Some(ErrorText(fault.message)) && emotionData.None?
                      && requests == old(requests) + [ChatsRequest]
                                     + AnalyticsRequests(visited[..IndexOf(visited, fault.chatId) + 1]))
                && (!rejected ==>
                      error.None?
                      && emotionData == Some(Averages(Flatten(Collect(chats.value, analytics, MaxChatsToAverage))))
                      && requests == old(requests) + [ChatsRequest] + AnalyticsRequests(visited))
    {
      isLoading := true;
      error := None;
      if token.None? || token.value == "" {
        error := Some(NoTokenError);
        emotionData := None;
      } else {
        requests := requests + [ChatsRequest];
        if fault.ChatsRejected? {
          error := Some(ErrorText(fault.message));
          emotionData := None;
        } else if chats.None? {
          error := Some(ChatsError);
          emotionData := None;
        } else if chats.value == [] {
          emotionData := Some(map[]);
        } else {
          var rejects := if fault.AnalyticsRejected? then Some(fault.chatId) else None;
          var collected, failed := CollectRecent(chats.value, analytics, rejects);
          if failed {
            error := Some(ErrorText(fault.message));
            emotionData := None;
          } else if collected == [] {
            emotionData := Some(map[]);
          } else {
            var entries := FlattenLists(collected);
            var aggregates := AggregateScores(entries);
            var averaged := AverageAll(entries, aggregates);
            emotionData := Some(averaged);
          }
        }
      }
      isLoading := false;
    }

    /** The loop over the chats; each visited chat's analytics are requested, up to a rejected one. */
    method CollectRecent(chats: seq<Uuid>, analytics: AnalyticsOracle, rejects: Option<Uuid>)
      returns (collected: seq<seq<EmotionScore>>, failed: bool)
      modifies this`requests
      ensures var v := Visited(chats, analytics, MaxChatsToAverage);
              && (failed <==> rejects.Some? && rejects.value in v)
              && (failed ==> requests == old(requests) + AnalyticsRequests(v[..IndexOf(v, rejects.value) + 1]))
              && (!failed ==> collected == Collect(chats, analytics, MaxChatsToAverage)
                              && requests == old(requests) + AnalyticsRequests(v))
    {
      var visited;
      collected, visited, failed := CollectLoop(chats, analytics, rejects);
      requests := requests + AnalyticsRequests(visited);
    }
  }

  /**
   * The `for ... of` over the chats, with its `break` once five lists are
   * held; a rejected analytics request leaves the loop for the `catch`.
   */
  method CollectLoop(chats: seq<Uuid>, analytics: AnalyticsOracle, rejects: Option<Uuid>)
    returns (collected: seq<seq<EmotionScore>>, visited: seq<Uuid>, failed: bool)
    ensures var v := Visited(chats, analytics, MaxChatsToAverage);
            && (failed <==> rejects.Some? && rejects.value in v)
            && (failed ==> visited == v[..IndexOf(v, rejects.value) + 1])
            && (!failed ==> collected == Collect(chats, analytics, MaxChatsToAverage) && visited == v)
  {
    collected := [];
    visited := [];
    failed := false;
    var rest := chats;
    while rest != []
      invariant rejects.Some? ==> rejects.value !in visited
      invariant |collected| <= MaxChatsToAverage
      invariant collected + Collect(rest, analytics, MaxChatsToAverage - |collected|)
                == Collect(chats, analytics, MaxChatsToAverage)
      invariant visited + Visited(rest, analytics, MaxChatsToAverage - |collected|)
                == Visited(chats, analytics, MaxChatsToAverage)
    {
      if |collected| >= MaxChatsToAverage {
        break;
      }
      var chat := rest[0];
      var cap := MaxChatsToAverage - |collected|;
      var next := if Contributes(analytics, chat) then cap - 1 else cap;
      VisitStep(rest, analytics, cap);
      assert visited + Visited(rest, analytics, cap) == (visited + [chat]) + Visited(rest[1..], analytics, next);
      if rejects == Some(chat) {
        IndexAfterPrefix(visited, chat, Visited(rest[1..], analytics, next));
        visited := visited + [chat];
        failed := true;
        return;
      }
      visited := visited + [chat];
      var response := analytics(chat);
      if response.Some? && |response.value| > 0 {
        assert collected + Collect(rest, analytics, cap)
               == (collected + [response.value]) + Collect(rest[1..], analytics, next);
        collected := collected + [response.value];
      }
      rest := rest[1..];
    }
  }

  /** One visit: the first chat is requested, and supplies the first list if it contributes. */
  lemma VisitStep(chats: seq<Uuid>, analytics: AnalyticsOracle, cap: nat)
    requires chats != [] && cap > 0
    ensures var cap' := if Contributes(analytics, chats[0]) then cap - 1 else cap;
            && Collect(chats, analytics, cap)
               == (if Contributes(analytics, chats[0]) then [analytics(chats[0]).value] else [])
                  + Collect(chats[1..], analytics, cap')
            && Visited(chats, analytics, cap) == [chats[0]] + Visited(chats[1..], analytics, cap')
  {
  }

  /** The analytics requests for the given chats, in order. */
  function AnalyticsRequests(chats: seq<Uuid>): (rs: seq<Request>)
    ensures |rs| == |chats|
    ensures forall i :: 0 <= i < |chats| ==> rs[i] == AnalyticsRequest(chats[i])
  {
    if chats == [] then [] else [AnalyticsRequest(chats[0])] + AnalyticsRequests(chats[1..])
  }

  /** `flat()`, as a loop. */
  method FlattenLists(lists: seq<seq<EmotionScore>>) returns (entries: seq<EmotionScore>)
    ensures entries == Flatten(lists)
  {
    entries := [];
    var i := |lists|;
    var tail: seq<EmotionScore> := [];
    while i > 0
      invariant 0 <= i <= |lists|
      invariant tail == Flatten(lists[i..])
    {
      i := i - 1;
      assert lists[i..] == [lists[i]] + lists[i + 1..];
      tail := lists[i] + tail;
    }
    assert lists[0..] == lists;
    entries := tail;
  }

  /** The `forEach` that builds the per-emotion totals and counts. */
  method AggregateScores(entries: seq<EmotionScore>) returns (agg: map<string, Aggregate>)
    ensures agg.Keys == Emotions(entries, |entries|)
    ensures forall e :: e in agg ==>
              agg[e] == Aggregate(SumFor(entries, e, |entries|), CountFor(entries, e, |entries|))
  {
    agg := map[];
    var i := 0;
    while i < |entries|
      invariant 0 <= i <= |entries|
      invariant agg.Keys == Emotions(entries, i)
      invariant forall e :: e in agg ==> agg[e] == Aggregate(SumFor(entries, e, i), CountFor(entries, e, i))
    {
      var entry := entries[i];
      if entry.emotion !in agg {
        UncountedSumsToZero(entries, entry.emotion, i);
        agg := agg[entry.emotion := Aggregate(0.0, 0)];
      }
      agg := agg[entry.emotion := Aggregate(agg[entry.emotion].totalScore + entry.averageScore,
                                            agg[entry.emotion].count + 1)];
      i := i + 1;
    }
  }

  /** The `for ... in` over the totals that divides each by its count. */
  method AverageAll(entries: seq<EmotionScore>, agg: map<string, Aggregate>) returns (averaged: map<string, real>)
    requires agg.Keys == Emotions(entries, |entries|)
    requires forall e :: e in agg ==>
               agg[e] == Aggregate(SumFor(entries, e, |entries|), CountFor(entries, e, |entries|))
    ensures averaged == Averages(entries)
  {
    averaged := map[];
    var pending := agg.Keys;
    while pending != {}
      invariant pending <= agg.Keys
      invariant averaged.Keys == agg.Keys - pending
      invariant forall e :: e in averaged ==> averaged[e] == Averages(entries)[e]
      decreases |pending|
    {
      var e :| e in pending;
      assert Averages(entries)[e] == agg[e].totalScore / (agg[e].count as real);
      averaged := averaged[e := agg[e].totalScore / (agg[e].count as real)];
      pending := pending - {e};
    }
  }
}
