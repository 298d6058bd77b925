/**
 * The JavaScript string operations the core relies on: `split` with a
 * one-character separator, `trim`, and `includes`.
 */
module Text {
  import opened Wrappers

  /** `s.split(sep)`: the pieces between occurrences of `sep`, always at least one. */
  function Split(s: string, sep: char): (parts: seq<string>)
    ensures |parts| >= 1
    ensures forall i :: 0 <= i < |parts| ==> sep !in parts[i]
    ensures |parts| >= 2 <==> sep in s
    ensures sep !in s ==> parts == [s]
  {
    if s == [] then [[]]
    else if s[0] == sep then [[]] + Split(s[1..], sep)
    else
      var rest := Split(s[1..], sep);
      var parts := [[s[0]] + rest[0]] + rest[1..];
      assert forall i :: 1 <= i < |parts| ==> parts[i] == rest[i];
      assert s == [s[0]] + s[1..];
      assert sep in s <==> sep in s[1..];
      parts
  }

  /** `parts.join(sep)`. */
  function Join(parts: seq<string>, sep: char): string
    requires |parts| >= 1
  {
    if |parts| == 1 then parts[0] else parts[0] + [sep] + Join(parts[1..], sep)
  }

  /** Splitting loses nothing: joining the pieces back gives the original string. */
  lemma {:induction false} JoinSplit(s: string, sep: char)
    ensures Join(Split(s, sep), sep) == s
  {
    if s == [] {
    } else if s[0] == sep {
      JoinSplit(s[1..], sep);
      assert Split(s, sep)[1..] == Split(s[1..], sep);
    } else {
      var rest := Split(s[1..], sep);
      JoinSplit(s[1..], sep);
      var parts := Split(s, sep);
      assert parts[1..] == rest[1..];
      if |rest| == 1 {
        assert parts == [s];
      } else {
        assert Join(parts, sep) == [s[0]] + rest[0] + [sep] + Join(rest[1..], sep);
        assert Join(rest, sep) == rest[0] + [sep] + Join(rest[1..], sep);
      }
    }
  }

  /** `s.split(sep)[1]`: the second piece, `None` (undefined) when `sep` does not occur. */
  function SecondPart(s: string, sep: char): (p: Option<string>)
    ensures p.Some? <==> sep in s
    ensures p.Some? ==> sep !in p.value
    ensures p.Some? ==> IsSecondPiece(s, sep, p.value)
  {
    var parts := Split(s, sep);
    if |parts| >= 2 then
      SplitHeadShape(s, sep);
      Some(parts[1])
    else None
  }

  /**
   * `mid` is the piece between the first occurrence of `sep` in `s` and the
   * next one (or the end).
   */
  ghost predicate IsSecondPiece(s: string, sep: char, mid: string)
  {
    exists head, tail :: s == head + [sep] + mid + tail && sep !in head && (tail == [] || tail[0] == sep)
  }

  /** With two or more pieces, `s` is the first piece, the separator, the second piece and a rest that starts with the separator. */
  lemma SplitHeadShape(s: string, sep: char)
    requires |Split(s, sep)| >= 2
    ensures IsSecondPiece(s, sep, Split(s, sep)[1])
  {
    var parts := Split(s, sep);
    JoinSplit(s, sep);
    SplitJoinShape(parts, sep);
    var tail := if |parts| == 2 then [] else [sep] + Join(parts[2..], sep);
    assert s == parts[0] + [sep] + parts[1] + tail;
    assert sep !in parts[0];
    assert tail == [] || tail[0] == sep;
  }

  /** A join of two or more parts starts with the first part, the separator, then the second. */
  lemma SplitJoinShape(parts: seq<string>, sep: char)
    requires |parts| >= 2
    ensures Join(parts, sep) == parts[0] + [sep] + parts[1] + (if |parts| == 2 then [] else [sep] + Join(parts[2..], sep))
  {
    assert parts[1..][1..] == parts[2..];
  }

  /** The second piece is determined: the text between the first and the second separator. */
  lemma SecondPartUnique(s: string, sep: char, head: string, mid: string, tail: string)
    requires s == head + [sep] + mid + tail && sep !in head && sep !in mid
    requires tail == [] || tail[0] == sep
    ensures SecondPart(s, sep) == Some(mid)
  {
    Decompose(s, sep, head, mid + tail);
    var p := SecondPart(s, sep).value;
    var h, t :| s == h + [sep] + p + t && sep !in h && (t == [] || t[0] == sep);
    Decompose(s, sep, h, p + t);
    FirstSeparator(s, sep, head, h);
    assert mid + tail == p + t;
    SamePiece(mid, tail, p, t, sep);
  }

  /** Two ways of cutting the same text at its first separator or its end agree on the piece before it. */
  lemma SamePiece(mid: string, tail: string, p: string, t: string, sep: char)
    requires mid + tail == p + t && sep !in mid && sep !in p
    requires tail == [] || tail[0] == sep
    requires t == [] || t[0] == sep
    ensures mid == p
  {
    SeparatorAfter(mid, tail, sep);
    SeparatorAfter(p, t, sep);
    assert mid + tail + [sep] == p + t + [sep];
    FirstSeparator(mid + tail + [sep], sep, mid, p);
  }

  /** Where the separator after `head` sits in `head + [sep] + rest`. */
  lemma Decompose(s: string, sep: char, head: string, rest: string)
    requires s == head + [sep] + rest
    ensures |head| < |s| && s[|head|] == sep && s[..|head|] == head && s[|head| + 1..] == rest
  {
  }

  /** A piece followed by nothing or by the separator is followed by the separator once one is appended. */
  lemma SeparatorAfter(mid: string, tail: string, sep: char)
    requires tail == [] || tail[0] == sep
    ensures |mid| < |mid + tail + [sep]| && (mid + tail + [sep])[|mid|] == sep
    ensures (mid + tail + [sep])[..|mid|] == mid
  {
  }

  /** Two separator-free prefixes of `s` that are each followed by the separator are the same. */
  lemma FirstSeparator(s: string, sep: char, a: string, b: string)
    requires |a| < |s| && |b| < |s| && s[|a|] == sep && s[|b|] == sep
    requires s[..|a|] == a && s[..|b|] == b && sep !in a && sep !in b
    ensures a == b
  {
  }

  /**
   * JavaScript's `length`: the number of UTF-16 code units, so a character
   * outside the Basic Multilingual Plane counts twice.
   */
  function Utf16Length(s: string): (n: nat)
    ensures |s| <= n <= 2 * |s|
    ensures n == |s| <==> forall i :: 0 <= i < |s| ==> s[i] as int < 0x1_0000
  {
    if s == [] then 0
    else
      assert forall i :: 1 <= i < |s| ==> s[i] == s[1..][i - 1];
      (if s[0] as int < 0x1_0000 then 1 else 2) + Utf16Length(s[1..])
  }

  /** The characters `String.prototype.trim` removes: white space and line terminators. */
  const WhitespaceChars: set<char> := {
    '\t', '\n', '\U{B}', '\U{C}', '\r', ' ', '\U{A0}', '\U{1680}',
    '\U{2000}', '\U{2001}', '\U{2002}', '\U{2003}', '\U{2004}', '\U{2005}',
    '\U{2006}', '\U{2007}', '\U{2008}', '\U{2009}', '\U{200A}',
    '\U{2028}', '\U{2029}', '\U{202F}', '\U{205F}', '\U{3000}', '\U{FEFF}'
  }

  predicate IsWhitespace(c: char)
  {
    c in WhitespaceChars
  }

  predicate AllWhitespace(s: string)
  {
    forall k :: 0 <= k < |s| ==> IsWhitespace(s[k])
  }

  /**
   * `s.trim()`: `s` without its leading and trailing white space, taken off
   * one character at a time from the front, then from the back.
   */
  function Trim(s: string): (r: string)
    ensures |r| <= |s|
    ensures r == [] <==> AllWhitespace(s)
    ensures r == [] || (!IsWhitespace(r[0]) && !IsWhitespace(r[|r| - 1]))
  {
    if s == [] then []
    else if IsWhitespace(s[0]) then
      assert AllWhitespace(s) <==> AllWhitespace(s[1..]) by {
        assert forall k :: 0 <= k < |s| - 1 ==> s[1..][k] == s[k + 1];
      }
      Trim(s[1..])
    else if IsWhitespace(s[|s| - 1]) then
      assert !AllWhitespace(s) && !AllWhitespace(s[..|s| - 1]) by {
        assert s[..|s| - 1][0] == s[0];
      }
      Trim(s[..|s| - 1])
    else
      assert !AllWhitespace(s);
      s
  }

  /** `r` sits at `i` in `s` with only white space around it. */
  predicate Framed(s: string, r: string, i: int)
  {
    0 <= i <= |s| - |r| && r == s[i..i + |r|] && AllWhitespace(s[..i]) && AllWhitespace(s[i + |r|..])
  }

  /** Trimming removes only white space, around a slice of `s` that it keeps. */
  lemma {:induction false} TrimKeepsSlice(s: string)
    ensures exists i :: Framed(s, Trim(s), i)
  {
    var r := Trim(s);
    if s == [] {
      assert Framed(s, r, 0);
    } else if IsWhitespace(s[0]) {
      TrimKeepsSlice(s[1..]);
      var j :| Framed(s[1..], r, j);
      FramedAfterLeadingBlank(s, r, j);
    } else if IsWhitespace(s[|s| - 1]) {
      TrimKeepsSlice(s[..|s| - 1]);
      var j :| Framed(s[..|s| - 1], r, j);
      FramedBeforeTrailingBlank(s, r, j);
    } else {
      assert Framed(s, r, 0);
    }
  }

  /** A white-space character in front extends the leading white space. */
  lemma FramedAfterLeadingBlank(s: string, r: string, j: int)
    requires s != [] && IsWhitespace(s[0]) && Framed(s[1..], r, j)
    ensures Framed(s, r, j + 1)
  {
    var t := s[1..];
    assert t[j..j + |r|] == s[j + 1..j + 1 + |r|];
    assert t[j + |r|..] == s[j + 1 + |r|..];
    AllWhitespaceConcat([s[0]], t[..j]);
    assert [s[0]] + t[..j] == s[..j + 1];
  }

  /** A white-space character at the end extends the trailing white space. */
  lemma FramedBeforeTrailingBlank(s: string, r: string, j: int)
    requires s != [] && IsWhitespace(s[|s| - 1]) && Framed(s[..|s| - 1], r, j)
    ensures Framed(s, r, j)
  {
    var t := s[..|s| - 1];
    assert t[j..j + |r|] == s[j..j + |r|];
    assert t[..j] == s[..j];
    var tail := t[j + |r|..];
    AllWhitespaceConcat(tail, [s[|s| - 1]]);
    assert tail == s[j + |r|..|s| - 1];
    assert s[j + |r|..] == s[j + |r|..|s| - 1] + [s[|s| - 1]];
  }

  /** Both parts all white space makes the concatenation all white space. */
  lemma AllWhitespaceConcat(a: string, b: string)
    requires AllWhitespace(a) && AllWhitespace(b)
    ensures AllWhitespace(a + b)
  {
    assert forall k :: |a| <= k < |a + b| ==> (a + b)[k] == b[k - |a|];
  }

  /** Trimming twice is trimming once. */
  lemma TrimIdempotent(s: string)
    ensures Trim(Trim(s)) == Trim(s)
  {
  }

  /** `k` occurs in `s` starting at position `i`. */
  predicate OccursAt(s: string, k: string, i: int)
  {
    0 <= i <= |s| - |k| && s[i..i + |k|] == k
  }

  /** `s.includes(k)`: `k` occurs in `s` as a contiguous substring. */
  predicate Includes(s: string, k: string)
    ensures Includes(s, k) ==> |k| <= |s|
    ensures k == [] ==> Includes(s, k)
  {
    (|k| <= |s| && s[..|k|] == k) || (s != [] && Includes(s[1..], k))
  }

  /** `Includes` agrees with the positional definition of a substring. */
  lemma {:induction false} IncludesIff(s: string, k: string)
    ensures Includes(s, k) <==> exists i :: OccursAt(s, k, i)
  {
    if |k| <= |s| && s[..|k|] == k {
      assert OccursAt(s, k, 0);
    }
    if s != [] {
      IncludesIff(s[1..], k);
      if Includes(s[1..], k) {
        var i :| OccursAt(s[1..], k, i);
        assert s[1..][i..i + |k|] == s[i + 1..i + 1 + |k|];
        assert OccursAt(s, k, i + 1);
      }
      if exists i :: OccursAt(s, k, i) {
        var i :| OccursAt(s, k, i);
        if i > 0 {
          assert OccursAt(s[1..], k, i - 1);
        }
      }
    } else if exists i :: OccursAt(s, k, i) {
      var i :| OccursAt(s, k, i);
      assert i == 0;
    }
  }
}
