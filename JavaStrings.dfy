/**
 * The java.lang.String operations that the modelled code calls: indexOf,
 * lastIndexOf, substring, replace(char, char), ASCII case mapping,
 * equalsIgnoreCase and split on a one-character separator.
 */
module JavaStrings {
  import opened JavaLang

  /** `s.indexOf(c)`: the first index of `c`, or -1. */
  function IndexOf(s: string, c: char): (r: int)
    ensures r == -1 <==> c !in s
    ensures r != -1 ==> 0 <= r < |s| && s[r] == c && c !in s[..r]
  {
    if |s| == 0 then -1
    else if s[0] == c then 0
    else
      var k := IndexOf(s[1..], c);
      if k == -1 then -1 else k + 1
  }

  /** `s.lastIndexOf(c)`: the last index of `c`, or -1. */
  function LastIndexOf(s: string, c: char): (r: int)
    ensures r == -1 <==> c !in s
    ensures r != -1 ==> 0 <= r < |s| && s[r] == c && c !in s[r + 1..]
  {
    if |s| == 0 then -1
    else if s[|s| - 1] == c then |s| - 1
    else LastIndexOf(s[..|s| - 1], c)
  }

  /** `s.substring(begin, end)`, which throws unless 0 <= begin <= end <= length. */
  function Substring(s: string, begin: int, end: int): (r: Completion<string>)
    ensures r.Value? <==> 0 <= begin <= end <= |s|
    ensures r.Value? ==> |r.value| == end - begin && s == s[..begin] + r.value + s[end..]
    ensures !r.Value? ==> r == Throws(StringIndexOutOfBounds)
  {
    if 0 <= begin <= end <= |s| then Value(s[begin..end]) else Throws(StringIndexOutOfBounds)
  }

  /** `s.replace(from, to)` on characters. */
  function Replace(s: string, from: char, to: char): (r: string)
    ensures |r| == |s|
    ensures forall i :: 0 <= i < |s| ==> r[i] == (if s[i] == from then to else s[i])
  {
    if |s| == 0 then [] else [if s[0] == from then to else s[0]] + Replace(s[1..], from, to)
  }

  function LowerChar(c: char): char {
    if 'A' <= c <= 'Z' then (c as int + 32) as char else c
  }

  function UpperChar(c: char): char {
    if 'a' <= c <= 'z' then (c as int - 32) as char else c
  }

  /**
   * `s.toLowerCase()`, restricted to the ASCII letters: no upper-case letter
   * is left, and every character is the same letter as the one it replaces.
   */
  function ToLower(s: string): (r: string)
    ensures |r| == |s|
    ensures forall i :: 0 <= i < |r| ==> !('A' <= r[i] <= 'Z') && SameLetter(r[i], s[i])
  {
    seq(|s|, i requires 0 <= i < |s| => LowerChar(s[i]))
  }

  /**
   * `s.toUpperCase()`, restricted to the ASCII letters: no lower-case letter
   * is left, and every character is the same letter as the one it replaces.
   */
  function ToUpper(s: string): (r: string)
    ensures |r| == |s|
    ensures forall i :: 0 <= i < |r| ==> !('a' <= r[i] <= 'z') && SameLetter(r[i], s[i])
  {
    seq(|s|, i requires 0 <= i < |s| => UpperChar(s[i]))
  }

  /** Lower-casing text that is already lower-cased changes nothing. */
  lemma ToLowerIdempotent(s: string)
    ensures ToLower(ToLower(s)) == ToLower(s)
  {
  }

  /** Two characters that `equalsIgnoreCase` treats as the same. */
  predicate SameLetter(a: char, b: char) {
    a == b || UpperChar(a) == UpperChar(b) || LowerChar(a) == LowerChar(b)
  }

  /** `a.equalsIgnoreCase(b)`: same length, and pairwise the same letter. */
  predicate EqualsIgnoreCase(a: string, b: string) {
    |a| == |b| && forall i :: 0 <= i < |a| ==> SameLetter(a[i], b[i])
  }

  lemma SameLetterByCase(a: char, b: char)
    ensures SameLetter(a, b) <==> UpperChar(a) == UpperChar(b)
    ensures SameLetter(a, b) <==> LowerChar(a) == LowerChar(b)
  {
  }

  /** Comparing upper-cased or lower-cased text is the same as equalsIgnoreCase. */
  lemma CaseFoldingIsEqualsIgnoreCase(a: string, b: string)
    ensures ToUpper(a) == ToUpper(b) <==> EqualsIgnoreCase(a, b)
    ensures ToLower(a) == ToLower(b) <==> EqualsIgnoreCase(a, b)
  {
    if ToUpper(a) == ToUpper(b) {
      forall i | 0 <= i < |a| ensures SameLetter(a[i], b[i]) {
        assert ToUpper(a)[i] == ToUpper(b)[i];
        SameLetterByCase(a[i], b[i]);
      }
    }
    if ToLower(a) == ToLower(b) {
      forall i | 0 <= i < |a| ensures SameLetter(a[i], b[i]) {
        assert ToLower(a)[i] == ToLower(b)[i];
        SameLetterByCase(a[i], b[i]);
      }
    }
    if EqualsIgnoreCase(a, b) {
      forall i | 0 <= i < |a| ensures ToUpper(a)[i] == ToUpper(b)[i] && ToLower(a)[i] == ToLower(b)[i] {
        SameLetterByCase(a[i], b[i]);
      }
    }
  }

  // ---------------------------------------------------------------------------
  // String.split on a one-character separator
  // ---------------------------------------------------------------------------

  /** Every piece between separators, empty pieces included (a split with no limit). */
  function Pieces(s: string, sep: char): (r: seq<string>)
    ensures |r| >= 1
    ensures forall k :: 0 <= k < |r| ==> sep !in r[k]
  {
    if |s| == 0 then [""]
    else
      var rest := Pieces(s[1..], sep);
      if s[0] == sep then [""] + rest else [[s[0]] + rest[0]] + rest[1..]
  }

  /** The pieces put back together, with the separator between them. */
  function Join(parts: seq<string>, sep: char): string
    requires |parts| >= 1
  {
    if |parts| == 1 then parts[0] else parts[0] + [sep] + Join(parts[1..], sep)
  }

  /** Splitting and joining again gives back the text. */
  lemma {:induction false} JoinPieces(s: string, sep: char)
    ensures Join(Pieces(s, sep), sep) == s
  {
    if |s| > 0 {
      var rest := Pieces(s[1..], sep);
      JoinPieces(s[1..], sep);
      if s[0] == sep {
        assert Pieces(s, sep)[1..] == rest;
        assert s == [s[0]] + s[1..];
      } else if |rest| == 1 {
        assert s == [s[0]] + s[1..];
      } else {
        assert Pieces(s, sep)[1..] == rest[1..];
        assert s == [s[0]] + s[1..];
      }
    }
  }

  /** Joining separator-free pieces and splitting again gives back the pieces. */
  lemma {:induction false} PiecesOfJoin(parts: seq<string>, sep: char)
    requires |parts| >= 1
    requires forall k :: 0 <= k < |parts| ==> sep !in parts[k]
    ensures Pieces(Join(parts, sep), sep) == parts
  {
    if |parts| == 1 {
      PiecesWithoutSeparator(parts[0], sep);
    } else {
      PiecesOfJoin(parts[1..], sep);
      PiecesOfPrefix(parts[0], Join(parts[1..], sep), sep);
      assert parts == [parts[0]] + parts[1..];
    }
  }

  lemma {:induction false} PiecesWithoutSeparator(s: string, sep: char)
    requires sep !in s
    ensures Pieces(s, sep) == [s]
  {
    if |s| > 0 {
      PiecesWithoutSeparator(s[1..], sep);
      assert s == [s[0]] + s[1..];
    }
  }

  lemma {:induction false} PiecesOfPrefix(head: string, tail: string, sep: char)
    requires sep !in head
    ensures Pieces(head + [sep] + tail, sep) == [head] + Pieces(tail, sep)
  {
    if |head| == 0 {
      assert head + [sep] + tail == [sep] + tail;
      assert ([sep] + tail)[1..] == tail;
    } else {
      PiecesOfPrefix(head[1..], tail, sep);
      assert (head + [sep] + tail)[1..] == head[1..] + [sep] + tail;
      assert [head[0]] + head[1..] == head;
    }
  }

  /** Drops the empty strings at the end, as split with limit zero does. */
  function DropTrailingEmpty(parts: seq<string>): (r: seq<string>)
    ensures |r| <= |parts| && r == parts[..|r|]
    ensures forall k :: |r| <= k < |parts| ==> parts[k] == ""
    ensures |r| > 0 ==> r[|r| - 1] != ""
  {
    if |parts| == 0 then []
    else if parts[|parts| - 1] == "" then DropTrailingEmpty(parts[..|parts| - 1])
    else parts
  }

  /**
   * `s.split(",")` with a one-character separator: text without the separator
   * (the empty text included) gives itself alone; otherwise the pieces, with
   * the empty ones at the end removed.
   */
  function Split(s: string, sep: char): (r: seq<string>)
    ensures sep !in s ==> r == [s]
    ensures sep in s ==> r == DropTrailingEmpty(Pieces(s, sep))
    ensures forall k :: 0 <= k < |r| ==> sep !in r[k]
  {
    if sep !in s then [s] else DropTrailingEmpty(Pieces(s, sep))
  }

  lemma SplitExamples()
    ensures Split("a,,b,", ',') == ["a", "", "b"]
    ensures Split("", ',') == [""]
    ensures Split(",", ',') == []
    ensures Split("a", ',') == ["a"]
  {
    assert Pieces(",", ',') == ["", ""] by { assert ","[1..] == ""; }
    assert Pieces("b,", ',') == ["b", ""] by { assert "b,"[1..] == ","; assert ['b'] + "" == "b"; }
    assert Pieces(",b,", ',') == ["", "b", ""] by { assert ",b,"[1..] == "b,"; }
    assert Pieces(",,b,", ',') == ["", "", "b", ""] by { assert ",,b,"[1..] == ",b,"; }
    assert Pieces("a,,b,", ',') == ["a", "", "b", ""] by { assert "a,,b,"[1..] == ",,b,"; assert ['a'] + "" == "a"; }
  }
}
