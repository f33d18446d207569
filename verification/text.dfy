/** The string operations the source relies on, restricted to ASCII:
    `toLowerCase`, `toUpperCase`, `includes`, `trim`, `split` on one
    character and `join`. */
module Text {

  predicate IsUpperAscii(c: char) { 'A' <= c <= 'Z' }

  predicate IsLowerAscii(c: char) { 'a' <= c <= 'z' }

  function LowerChar(c: char): char
  {
    if IsUpperAscii(c) then (c as int + 32) as char else c
  }

  function UpperChar(c: char): char
  {
    if IsLowerAscii(c) then (c as int - 32) as char else c
  }

  /** `toLowerCase` on ASCII: every letter A-Z becomes a-z, nothing else moves. */
  function ToLower(s: string): (r: string)
    ensures |r| == |s|
    ensures forall i :: 0 <= i < |s| ==> r[i] == LowerChar(s[i])
  {
    seq(|s|, i requires 0 <= i < |s| => LowerChar(s[i]))
  }

  /** `toUpperCase` on ASCII. */
  function ToUpper(s: string): (r: string)
    ensures |r| == |s|
    ensures forall i :: 0 <= i < |s| ==> r[i] == UpperChar(s[i])
  {
    seq(|s|, i requires 0 <= i < |s| => UpperChar(s[i]))
  }

  /** Lower-casing forgets how the input was cased. */
  lemma LowerForgetsCase(s: string)
    ensures ToLower(ToUpper(s)) == ToLower(s)
    ensures ToLower(ToLower(s)) == ToLower(s)
  {
  }

  /** Upper-casing is idempotent. */
  lemma UpperIdempotent(s: string)
    ensures ToUpper(ToUpper(s)) == ToUpper(s)
  {
  }

  /** `needle` occurs in `haystack` starting at index `i`. */
  predicate OccursAt(haystack: string, needle: string, i: int)
  {
    0 <= i && i + |needle| <= |haystack| && haystack[i..i + |needle|] == needle
  }

  /** `haystack.includes(needle)`. */
  predicate Contains(haystack: string, needle: string)
  {
    exists i | 0 <= i <= |haystack| - |needle| :: OccursAt(haystack, needle, i)
  }

  /** The empty string occurs in every string, and every string in itself. */
  lemma ContainsTrivial(haystack: string)
    ensures Contains(haystack, "")
    ensures Contains(haystack, haystack)
  {
    assert OccursAt(haystack, "", 0);
    assert OccursAt(haystack, haystack, 0);
  }

  /** `field.toLowerCase().includes(query.toLowerCase())`. */
  predicate MatchesIgnoringCase(field: string, query: string)
  {
    Contains(ToLower(field), ToLower(query))
  }

  /** The match does not depend on the casing of either side. */
  lemma MatchIgnoresCase(field: string, query: string)
    ensures MatchesIgnoringCase(ToUpper(field), query) == MatchesIgnoringCase(field, query)
    ensures MatchesIgnoringCase(field, ToUpper(query)) == MatchesIgnoringCase(field, query)
    ensures MatchesIgnoringCase(ToLower(field), query) == MatchesIgnoringCase(field, query)
    ensures MatchesIgnoringCase(field, ToLower(query)) == MatchesIgnoringCase(field, query)
  {
    LowerForgetsCase(field);
    LowerForgetsCase(query);
  }

  /** The empty query matches every field. */
  lemma EmptyQueryMatches(field: string)
    ensures MatchesIgnoringCase(field, "")
  {
    assert ToLower("") == "";
    ContainsTrivial(ToLower(field));
  }

  /** The white space `trim` removes, restricted to ASCII. */
  predicate IsSpace(c: char)
  {
    c == ' ' || c == '\t' || c == '\n' || c == '\r' || c == '\U{0B}' || c == '\U{0C}'
  }

  /** No white space at either end. */
  predicate NoSurroundingSpace(s: string)
  {
    |s| == 0 || (!IsSpace(s[0]) && !IsSpace(s[|s| - 1]))
  }

  function TrimStart(s: string): (r: string)
    ensures |r| <= |s| && r == s[|s| - |r|..]
    ensures |r| > 0 ==> !IsSpace(r[0])
    ensures forall i :: 0 <= i < |s| - |r| ==> IsSpace(s[i])
  {
    if |s| > 0 && IsSpace(s[0]) then TrimStart(s[1..]) else s
  }

  function TrimEnd(s: string): (r: string)
    ensures |r| <= |s| && r == s[..|r|]
    ensures |r| > 0 ==> !IsSpace(r[|r| - 1])
    ensures forall i :: |r| <= i < |s| ==> IsSpace(s[i])
  {
    if |s| > 0 && IsSpace(s[|s| - 1]) then TrimEnd(s[..|s| - 1]) else s
  }

  /** `r` is the infix of `s` starting at `k`, and everything outside it is
      white space. */
  predicate TrimmedAt(s: string, r: string, k: int)
  {
    && 0 <= k <= |s| - |r|
    && r == s[k..k + |r|]
    && (forall i :: 0 <= i < k ==> IsSpace(s[i]))
    && (forall i :: k + |r| <= i < |s| ==> IsSpace(s[i]))
  }

  /** `trim`: an infix with no white space at either end, obtained by
      removing only white space. */
  function Trim(s: string): (r: string)
    ensures NoSurroundingSpace(r)
    ensures exists k :: TrimmedAt(s, r, k)
  {
    var t := TrimStart(s);
    var r := TrimEnd(t);
    TrimmedFrom(s, t, r);
    r
  }

  /** Removing leading white space and then trailing white space leaves the
      infix that begins where the leading white space ends. */
  lemma TrimmedFrom(s: string, t: string, r: string)
    requires |t| <= |s| && t == s[|s| - |t|..]
    requires forall i :: 0 <= i < |s| - |t| ==> IsSpace(s[i])
    requires |r| <= |t| && r == t[..|r|]
    requires forall j :: |r| <= j < |t| ==> IsSpace(t[j])
    requires |t| > 0 ==> !IsSpace(t[0])
    requires |r| > 0 ==> !IsSpace(r[|r| - 1])
    ensures TrimmedAt(s, r, |s| - |t|)
    ensures exists k :: TrimmedAt(s, r, k)
    ensures NoSurroundingSpace(r)
  {
    PrefixOfSuffix(s, |s| - |t|, |r|);
    TrailingSpace(s, t, |r|);
    if |r| > 0 {
      assert r[0] == t[0];
    }
    assert TrimmedAt(s, r, |s| - |t|);
  }

  /** An element missing from a sequence is missing from each infix. */
  lemma InfixExcludes<T>(s: seq<T>, k: nat, n: nat, c: T)
    requires k + n <= |s| && c !in s
    ensures c !in s[k..k + n]
  {
    var m := s[k..k + n];
    forall i | 0 <= i < |m|
      ensures m[i] != c
    {
      assert m[i] == s[k + i];
    }
  }

  lemma PrefixOfSuffix<T>(s: seq<T>, k: nat, n: nat)
    requires k + n <= |s|
    ensures s[k..][..n] == s[k..k + n]
  {
  }

  /** White space at the end of a suffix is white space at the end of the
      whole string. */
  lemma TrailingSpace(s: string, t: string, n: nat)
    requires |t| <= |s| && t == s[|s| - |t|..]
    requires forall j :: n <= j < |t| ==> IsSpace(t[j])
    ensures forall i :: |s| - |t| + n <= i < |s| ==> IsSpace(s[i])
  {
    forall i | |s| - |t| + n <= i < |s|
      ensures IsSpace(s[i])
    {
      assert s[i] == t[i - (|s| - |t|)];
    }
  }

  /** A string without surrounding white space is left alone by `trim`, also
      after one leading blank is added (as `join(", ")` adds). */
  lemma TrimFixes(s: string)
    requires NoSurroundingSpace(s)
    ensures Trim(s) == s
    ensures Trim(" " + s) == s
  {
    assert (" " + s)[1..] == s;
  }

  /** `s.split(sep)` for a one-character separator: the pieces between
      separators, always at least one (`"".split(",")` is `[""]`). */
  function Split(s: string, sep: char): (parts: seq<string>)
    ensures |parts| >= 1
    ensures forall i :: 0 <= i < |parts| ==> sep !in parts[i]
  {
    if |s| == 0 then [""]
    else
      var rest := Split(s[1..], sep);
      if s[0] == sep then [""] + rest
      else [[s[0]] + rest[0]] + rest[1..]
  }

  /** `parts.join(sep)`. */
  function Join(parts: seq<string>, sep: string): string
  {
    if |parts| == 0 then ""
    else if |parts| == 1 then parts[0]
    else parts[0] + sep + Join(parts[1..], sep)
  }

  /** Joining the pieces back with the separator gives the original string. */
  lemma {:induction false} JoinSplit(s: string, sep: char)
    ensures Join(Split(s, sep), [sep]) == s
  {
    if |s| > 0 {
      var rest := Split(s[1..], sep);
      JoinSplit(s[1..], sep);
      if s[0] == sep {
        assert ([""] + rest)[1..] == rest;
        assert s == [sep] + s[1..];
      } else {
        var parts := [[s[0]] + rest[0]] + rest[1..];
        assert parts[1..] == rest[1..];
        if |rest| > 1 {
          assert Join(rest, [sep]) == rest[0] + [sep] + Join(rest[1..], [sep]);
          assert Join(parts, [sep]) == [s[0]] + rest[0] + [sep] + Join(rest[1..], [sep]);
        }
        assert s == [s[0]] + s[1..];
      }
    }
  }

  /** A string without the separator is a single piece. */
  lemma {:induction false} SplitWithoutSeparator(s: string, sep: char)
    requires sep !in s
    ensures Split(s, sep) == [s]
  {
    if |s| > 0 {
      assert sep !in s[1..];
      SplitWithoutSeparator(s[1..], sep);
      assert [s[0]] + s[1..] == s;
    }
  }

  /** One step of `split`: the first character either ends the first piece
      (it is the separator) or joins it. */
  lemma SplitCons(c: char, u: string, sep: char)
    ensures Split([c] + u, sep) ==
      if c == sep then [""] + Split(u, sep) else [[c] + Split(u, sep)[0]] + Split(u, sep)[1..]
  {
    assert ([c] + u)[0] == c && ([c] + u)[1..] == u;
  }

  /** Re-bracketing a concatenation that starts with one element. */
  lemma ConsAppend<T>(x: T, front: seq<T>, back: seq<T>)
    ensures [x] + (front + back) == ([x] + front) + back
  {
  }

  /** Replacing the head of a non-empty prefix. */
  lemma ReplaceHead<T>(x: T, front: seq<T>, back: seq<T>)
    requires |front| >= 1
    ensures (front + back)[0] == front[0]
    ensures [x] + (front + back)[1..] == ([x] + front[1..]) + back
  {
    assert (front + back)[1..] == front[1..] + back;
  }

  /** A character put in front of both sides of a split identity stays
      on the first piece of each. */
  lemma SplitConsBoth(c: char, u: string, t: string, back: seq<string>, sep: char)
    requires Split(u, sep) == Split(t, sep) + back
    ensures Split([c] + u, sep) == Split([c] + t, sep) + back
  {
    SplitCons(c, u, sep);
    SplitCons(c, t, sep);
    var front := Split(t, sep);
    if c == sep {
      ConsAppend("", front, back);
    } else {
      ReplaceHead([c] + front[0], front, back);
    }
  }

  /** Splitting distributes over a separator: the pieces of `a` and of `b`. */
  lemma {:induction false} SplitAtSeparator(a: string, b: string, sep: char)
    ensures Split(a + [sep] + b, sep) == Split(a, sep) + Split(b, sep)
  {
    if |a| == 0 {
      assert a + [sep] + b == [sep] + b;
      SplitCons(sep, b, sep);
    } else {
      var c, t := a[0], a[1..];
      assert a == [c] + t;
      assert a + [sep] + b == [c] + (t + [sep] + b);
      SplitAtSeparator(t, b, sep);
      SplitConsBoth(c, t + [sep] + b, t, Split(b, sep), sep);
    }
  }
}
