/**
 * The list edits of the persona step (2-persona.tsx): toggling a hobby,
 * adding an important person from the text box, and removing one by index.
 * The same add/remove toggle serves the cognitive activities of the
 * routine step (4-routine.tsx) and the notification preferences of the
 * finish step (5-finish.tsx).
 */
module SignupPersona {
  import opened Text

  /** `items.filter(h => h !== item)`: every occurrence removed, the rest in order. */
  function RemoveAll(items: seq<string>, item: string): (r: seq<string>)
    ensures item !in r
    ensures forall x :: x in r <==> x in items && x != item
    ensures |r| <= |items|
    ensures forall x :: x != item ==> multiset(r)[x] == multiset(items)[x]
  {
    if items == [] then []
    else
      assert items == [items[0]] + items[1..];
      if items[0] == item then RemoveAll(items[1..], item)
      else [items[0]] + RemoveAll(items[1..], item)
  }

  /** Filtering a concatenation filters each part. */
  lemma {:induction false} RemoveAllAppend(a: seq<string>, b: seq<string>, item: string)
    ensures RemoveAll(a + b, item) == RemoveAll(a, item) + RemoveAll(b, item)
  {
    if a != [] {
      assert (a + b)[1..] == a[1..] + b;
      RemoveAllAppend(a[1..], b, item);
    } else {
      assert a + b == b;
    }
  }

  /** Removing an item that is absent changes nothing. */
  lemma {:induction false} RemoveAbsent(items: seq<string>, item: string)
    requires item !in items
    ensures RemoveAll(items, item) == items
  {
    if items != [] {
      assert items[0] != item;
      RemoveAbsent(items[1..], item);
    }
  }

  /** `r` is `items` with some entries left out, the rest in their order. */
  predicate Subsequence(r: seq<string>, items: seq<string>)
  {
    r == [] || (items != [] && if r[0] == items[0] then Subsequence(r[1..], items[1..]) else Subsequence(r, items[1..]))
  }

  /** Unchecking keeps the surviving items in their relative order. */
  lemma {:induction false} RemoveAllIsSubsequence(items: seq<string>, item: string)
    ensures Subsequence(RemoveAll(items, item), items)
  {
    if items != [] {
      RemoveAllIsSubsequence(items[1..], item);
      var rest := RemoveAll(items[1..], item);
      if items[0] == item {
        SubsequenceOfTail(rest, items);
      } else {
        assert RemoveAll(items, item) == [items[0]] + rest;
        assert ([items[0]] + rest)[1..] == rest;
      }
    }
  }

  /** A subsequence of the tail is a subsequence of the whole. */
  lemma {:induction false} SubsequenceOfTail(r: seq<string>, items: seq<string>)
    requires items != [] && Subsequence(r, items[1..])
    ensures Subsequence(r, items)
    decreases |items|, 0
  {
    if r != [] && r[0] == items[0] {
      DropHead(r, items[1..]);
    }
  }

  /** Leaving out the first entry of a subsequence keeps it a subsequence. */
  lemma {:induction false} DropHead(r: seq<string>, t: seq<string>)
    requires r != [] && Subsequence(r, t)
    ensures Subsequence(r[1..], t)
    decreases |t|, 1
  {
    if r[0] == t[0] {
      if r[1..] != [] {
        SubsequenceOfTail(r[1..], t);
      }
    } else {
      DropHead(r, t[1..]);
      if r[1..] != [] {
        SubsequenceOfTail(r[1..], t);
      }
    }
  }

  /**
   * `handleHobbyChange`: checking appends the item at the end, even when it
   * is already there; unchecking removes every occurrence.
   */
  function ToggleItem(items: seq<string>, item: string, checked: bool): (r: seq<string>)
    ensures checked ==> r == items + [item]
    ensures !checked ==> item !in r && (forall x :: x in r <==> x in items && x != item)
  {
    if checked then items + [item] else RemoveAll(items, item)
  }

  /** Checking then unchecking an item that was absent restores the list. */
  lemma CheckThenUncheck(items: seq<string>, item: string)
    requires item !in items
    ensures ToggleItem(ToggleItem(items, item, true), item, false) == items
  {
    RemoveAllAppend(items, [item], item);
    RemoveAbsent(items, item);
    assert RemoveAll([item], item) == [];
  }

  /**
   * `addPerson`: the trimmed input is appended and the input cleared iff the
   * trimmed input is non-empty; otherwise list and input stay as they are.
   */
  function AddPerson(people: seq<string>, input: string): (r: (seq<string>, string))
    ensures Trim(input) != "" ==> r.0 == people + [Trim(input)] && r.1 == ""
    ensures Trim(input) == "" ==> r == (people, input)
  {
    var name := Trim(input);
    if name != "" then (people + [name], "") else (people, input)
  }

  /** Only a name with a non-white-space character is ever added. */
  lemma AddedNamesAreNotBlank(people: seq<string>, input: string)
    requires forall p :: p in people ==> !AllWhitespace(p)
    ensures forall p :: p in AddPerson(people, input).0 ==> !AllWhitespace(p)
  {
  }

  /**
   * `removePerson(index)`: keeps every entry whose position differs from
   * `index`; an index outside the list keeps all of them.
   */
  function RemoveAt(people: seq<string>, index: int): (r: seq<string>)
    ensures 0 <= index < |people| ==> |r| == |people| - 1
    ensures 0 <= index < |people| ==> forall i :: 0 <= i < |r| ==> r[i] == people[if i < index then i else i + 1]
    ensures !(0 <= index < |people|) ==> r == people
  {
    if people == [] then []
    else if index == 0 then people[1..]
    else [people[0]] + RemoveAt(people[1..], index - 1)
  }
}
