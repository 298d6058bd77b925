/**
 * The emotion catalogue lookup (emotions.service.ts): a map from emotion
 * name to its details, built from the catalogue list, and a lookup that
 * returns the entry of the first name, in the map's insertion order, that
 * occurs inside the queried string, or a neutral default carrying the query.
 */
module EmotionsService {
  import opened Text

  datatype EmotionCategory = Positive | Negative | Neutral

  datatype Emotion = Emotion(name: string, emoji: string, category: EmotionCategory, description: string)

  /** `defaultEmotion`. */
  const DefaultEmotion := Emotion("Unknown", "\U{1F642}", Neutral, "An emotion that is not yet categorized.")

  /** Some entry of the list has this name. */
  predicate Named(list: seq<Emotion>, name: string)
  {
    exists i :: 0 <= i < |list| && list[i].name == name
  }

  /** The index of the first entry with this name. */
  function FirstIndex(list: seq<Emotion>, name: string): (i: nat)
    requires Named(list, name)
    ensures i < |list| && list[i].name == name
    ensures forall j :: 0 <= j < i ==> list[j].name != name
  {
    if list[0].name == name then 0
    else
      assert Named(list[1..], name) by {
        var k :| 0 <= k < |list| && list[k].name == name;
        assert list[1..][k - 1].name == name;
      }
      1 + FirstIndex(list[1..], name)
  }

  /** A name's first occurrence does not move when entries are appended. */
  lemma FirstIndexPrefix(list: seq<Emotion>, more: seq<Emotion>, name: string)
    requires Named(list, name)
    ensures Named(list + more, name) && FirstIndex(list + more, name) == FirstIndex(list, name)
  {
    var i := FirstIndex(list, name);
    assert (list + more)[i] == list[i];
  }

  /** The names of a list with one more entry: the old ones keep their first index. */
  lemma NamesOfSnoc(init: seq<Emotion>, last: Emotion)
    ensures forall name :: Named(init, name) ==>
              Named(init + [last], name) && FirstIndex(init + [last], name) == FirstIndex(init, name)
    ensures forall name :: Named(init + [last], name) ==> Named(init, name) || name == last.name
  {
    var list := init + [last];
    forall name | Named(init, name)
      ensures Named(list, name) && FirstIndex(list, name) == FirstIndex(init, name)
    {
      FirstIndexPrefix(init, [last], name);
    }
    forall name | Named(list, name)
      ensures Named(init, name) || name == last.name
    {
      var k :| 0 <= k < |list| && list[k].name == name;
      if k < |init| {
        assert init[k].name == name;
      }
    }
  }

  /**
   * The keys of `new Map(list.map(e => [e.name, e]))` in iteration order:
   * each name once, in the order of its first occurrence.
   */
  function KeyOrder(list: seq<Emotion>): (keys: seq<string>)
    ensures forall name :: name in keys <==> Named(list, name)
    ensures forall a, b :: 0 <= a < b < |keys| ==> keys[a] != keys[b]
    ensures forall a, b :: 0 <= a < b < |keys| ==> FirstIndex(list, keys[a]) < FirstIndex(list, keys[b])
  {
    if list == [] then []
    else
      var init := list[..|list| - 1];
      var last := list[|list| - 1];
      assert list == init + [last];
      var keys := KeyOrder(init);
      KeyOrderSnoc(init, last, keys);
      if last.name in keys then keys else keys + [last.name]
  }

  /** Each name once, ordered by first occurrence in `list`. */
  ghost predicate IsKeyOrder(list: seq<Emotion>, keys: seq<string>)
  {
    && (forall name :: name in keys <==> Named(list, name))
    && (forall a, b :: 0 <= a < b < |keys| ==> keys[a] != keys[b])
    && (forall a, b :: 0 <= a < b < |keys| ==>
          Named(list, keys[a]) && Named(list, keys[b]) && FirstIndex(list, keys[a]) < FirstIndex(list, keys[b]))
  }

  /** One more entry adds its name at the end, unless the name is already a key. */
  lemma KeyOrderSnoc(init: seq<Emotion>, last: Emotion, keys: seq<string>)
    requires IsKeyOrder(init, keys)
    ensures IsKeyOrder(init + [last], if last.name in keys then keys else keys + [last.name])
  {
    NamesOfSnoc(init, last);
    if last.name in keys {
      SnocKnownName(init, last, keys);
    } else {
      SnocNewName(init, last, keys);
    }
  }

  /** A repeated name leaves the keys as they were. */
  lemma SnocKnownName(init: seq<Emotion>, last: Emotion, keys: seq<string>)
    requires IsKeyOrder(init, keys) && last.name in keys
    requires forall name :: Named(init, name) ==>
               Named(init + [last], name) && FirstIndex(init + [last], name) == FirstIndex(init, name)
    requires forall name :: Named(init + [last], name) ==> Named(init, name) || name == last.name
    ensures IsKeyOrder(init + [last], keys)
  {
    var list := init + [last];
    forall a | 0 <= a < |keys|
      ensures Named(list, keys[a]) && FirstIndex(list, keys[a]) == FirstIndex(init, keys[a])
    {
      assert keys[a] in keys;
    }
  }

  /** A new name goes at the end: its first index is past every earlier name's. */
  lemma SnocNewName(init: seq<Emotion>, last: Emotion, keys: seq<string>)
    requires IsKeyOrder(init, keys) && last.name !in keys
    requires forall name :: Named(init, name) ==>
               Named(init + [last], name) && FirstIndex(init + [last], name) == FirstIndex(init, name)
    requires forall name :: Named(init + [last], name) ==> Named(init, name) || name == last.name
    ensures IsKeyOrder(init + [last], keys + [last.name])
  {
    var list := init + [last];
    var extended := keys + [last.name];
    assert list[|init|].name == last.name;
    assert FirstIndex(list, last.name) == |init|;
    forall a | 0 <= a < |keys|
      ensures extended[a] == keys[a] && Named(list, keys[a]) && FirstIndex(list, keys[a]) < |init|
    {
      assert keys[a] in keys;
    }
    assert forall name :: name in extended <==> Named(list, name);
    assert forall a, b :: 0 <= a < b < |extended| ==> extended[a] != extended[b];
    forall a, b | 0 <= a < b < |extended|
      ensures Named(list, extended[a]) && Named(list, extended[b])
              && FirstIndex(list, extended[a]) < FirstIndex(list, extended[b])
    {
      if b < |keys| {
        assert Named(init, keys[a]) && Named(init, keys[b]);
      }
    }
  }

  /** `emotionMap.get(name)`: the last entry with that name, since a later `set` replaces the value. */
  function LastIndex(list: seq<Emotion>, name: string): (i: int)
    ensures -1 <= i < |list|
    ensures i >= 0 ==> list[i].name == name
    ensures i == -1 ==> !Named(list, name)
    ensures forall j :: i < j < |list| ==> list[j].name != name
  {
    if list == [] then -1
    else if list[|list| - 1].name == name then |list| - 1
    else
      var i := LastIndex(list[..|list| - 1], name);
      assert forall j :: 0 <= j < |list| - 1 ==> list[..|list| - 1][j] == list[j];
      i
  }

  /** `find(k => name.includes(k))`: the index of the first key occurring in `name`, or `|keys|`. */
  function FindIndex(keys: seq<string>, name: string): (i: nat)
    ensures i <= |keys|
    ensures i < |keys| ==> Includes(name, keys[i])
    ensures forall j :: 0 <= j < i ==> !Includes(name, keys[j])
  {
    if keys == [] then 0
    else if Includes(name, keys[0]) then 0
    else 1 + FindIndex(keys[1..], name)
  }

  /**
   * `getEmotionDetails`: the stored entry for the first matching key; with
   * no match, or with a match on the empty key (which is falsy), the default
   * entry named after the query.
   */
  function GetEmotionDetails(list: seq<Emotion>, name: string): (e: Emotion)
    ensures e == DefaultEmotion.(name := name) || (e in list && e.name != "" && Includes(name, e.name))
  {
    var keys := KeyOrder(list);
    var i := FindIndex(keys, name);
    if i < |keys| && keys[i] != "" then list[LastIndex(list, keys[i])] else DefaultEmotion.(name := name)
  }

  /**
   * A match returns the stored entry unchanged: the last catalogue entry
   * with the first key, in insertion order, that occurs in the query.
   */
  lemma MatchReturnsStoredEntry(list: seq<Emotion>, name: string)
    requires var keys := KeyOrder(list); FindIndex(keys, name) < |keys| && keys[FindIndex(keys, name)] != ""
    ensures var keys := KeyOrder(list);
            var key := keys[FindIndex(keys, name)];
            && Includes(name, key)
            && (forall j :: 0 <= j < FindIndex(keys, name) ==> !Includes(name, keys[j]))
            && GetEmotionDetails(list, name).name == key
            && exists i :: 0 <= i < |list| && GetEmotionDetails(list, name) == list[i]
                           && forall j :: i < j < |list| ==> list[j].name != key
  {
    var keys := KeyOrder(list);
    var key := keys[FindIndex(keys, name)];
    assert Named(list, key);
    var i := LastIndex(list, key);
    assert GetEmotionDetails(list, name) == list[i];
  }

  /** With no catalogue name inside the query, the default is returned under the query's name. */
  lemma NoMatchGivesDefault(list: seq<Emotion>, name: string)
    requires forall i :: 0 <= i < |list| ==> !Includes(name, list[i].name)
    ensures GetEmotionDetails(list, name) == Emotion(name, "\U{1F642}", Neutral, "An emotion that is not yet categorized.")
  {
    var keys := KeyOrder(list);
    forall k | k in keys
      ensures !Includes(name, k)
    {
      var j :| 0 <= j < |list| && list[j].name == k;
    }
  }

  /** The lookup always yields an entry of the catalogue or the default renamed; it is total. */
  lemma ResultIsCatalogueOrDefault(list: seq<Emotion>, name: string)
    ensures GetEmotionDetails(list, name) in list || GetEmotionDetails(list, name) == DefaultEmotion.(name := name)
  {
  }

  /** A later entry with the same name replaces an earlier one. */
  lemma LaterDuplicateWins(list: seq<Emotion>, e: Emotion, name: string)
    requires Includes(name, e.name) && e.name != ""
    requires forall k :: k in KeyOrder(list) && k != e.name ==> !Includes(name, k)
    ensures GetEmotionDetails(list + [e], name) == e
  {
    var l := list + [e];
    var keys := KeyOrder(l);
    assert l[|l| - 1].name == e.name;
    assert Named(l, e.name);
    var i := FindIndex(keys, name);
    assert e.name in keys;
    forall k | k in keys && k != e.name
      ensures !Includes(name, k)
    {
      var j :| 0 <= j < |l| && l[j].name == k;
      assert l[..|l| - 1] == list;
      assert j < |list| && list[j].name == k;
      assert k in KeyOrder(list);
    }
    assert LastIndex(l, e.name) == |l| - 1;
  }
}
