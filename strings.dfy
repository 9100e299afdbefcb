/** The two string operations the listing queries rely on: JavaScript's
    `String.prototype.trim` and the database's case-insensitive `contains`. */
module Strings {

  /** The characters `trim` removes: ECMAScript WhiteSpace and LineTerminator. */
  predicate IsSpace(c: char) {
    c in {'\t', '\n', '\U{000B}', '\U{000C}', '\r', ' ', '\U{00A0}', '\U{1680}',
          '\U{2000}', '\U{2001}', '\U{2002}', '\U{2003}', '\U{2004}', '\U{2005}',
          '\U{2006}', '\U{2007}', '\U{2008}', '\U{2009}', '\U{200A}', '\U{2028}',
          '\U{2029}', '\U{202F}', '\U{205F}', '\U{3000}', '\U{FEFF}'}
  }

  /** `s` with its leading white space removed: a suffix of `s`, everything
      dropped is white space, and it does not start with white space. */
  function TrimStart(s: string): (r: string)
    ensures |r| <= |s| && r == s[|s| - |r|..]
    ensures forall k :: 0 <= k < |s| - |r| ==> IsSpace(s[k])
    ensures r == [] || !IsSpace(r[0])
    decreases |s|
  {
    if s != [] && IsSpace(s[0]) then TrimStart(s[1..]) else s
  }

  /** `s` with its trailing white space removed: a prefix of `s`, everything
      dropped is white space, and it does not end with white space. */
  function TrimEnd(s: string): (r: string)
    ensures |r| <= |s| && r == s[..|r|]
    ensures forall k :: |r| <= k < |s| ==> IsSpace(s[k])
    ensures r == [] || !IsSpace(r[|r| - 1])
    decreases |s|
  {
    if s != [] && IsSpace(s[|s| - 1]) then TrimEnd(s[..|s| - 1]) else s
  }

  /** `r` is `s[i..i + |r|]` and everything outside that slice is white space. */
  ghost predicate TrimmedAt(s: string, r: string, i: int) {
    && 0 <= i <= i + |r| <= |s| && r == s[i..i + |r|]
    && (forall k :: 0 <= k < i ==> IsSpace(s[k]))
    && (forall k :: i + |r| <= k < |s| ==> IsSpace(s[k]))
  }

  /** JavaScript `s.trim()`: the middle part of `s` that neither starts nor
      ends with white space; only white space is cut off. */
  function Trim(s: string): (r: string)
    ensures r == [] || (!IsSpace(r[0]) && !IsSpace(r[|r| - 1]))
    ensures exists i :: TrimmedAt(s, r, i)
  {
    var t := TrimStart(s);
    var r := TrimEnd(t);
    TrimmedAtStart(s, t, r);
    r
  }

  /** Trimming the end of a trimmed suffix leaves a slice of the original
      with only white space around it. */
  lemma TrimmedAtStart(s: string, t: string, r: string)
    requires |t| <= |s| && t == s[|s| - |t|..] && forall k :: 0 <= k < |s| - |t| ==> IsSpace(s[k])
    requires |r| <= |t| && r == t[..|r|] && forall k :: |r| <= k < |t| ==> IsSpace(t[k])
    ensures TrimmedAt(s, r, |s| - |t|)
  {
    var i := |s| - |t|;
    assert r == s[i..i + |r|];
    forall k | i + |r| <= k < |s| ensures IsSpace(s[k]) {
      assert s[k] == t[k - i];
    }
  }

  /** Case folding of one character.  Only ASCII letters are folded. */
  function Lower(c: char): char {
    if 'A' <= c <= 'Z' then (c as int - 'A' as int + 'a' as int) as char else c
  }

  /** Two texts that are equal once case is ignored. */
  ghost predicate EqualIgnoringCase(a: string, b: string) {
    |a| == |b| && forall k :: 0 <= k < |a| ==> Lower(a[k]) == Lower(b[k])
  }

  /** `needle` occurs in `hay` at position `i`, ignoring case. */
  ghost predicate OccursAt(needle: string, hay: string, i: int) {
    0 <= i <= |hay| - |needle| && EqualIgnoringCase(hay[i..i + |needle|], needle)
  }

  /** The meaning of a case-insensitive `contains`: `needle` occurs somewhere
      in `hay` once case is ignored. */
  ghost predicate OccursIgnoringCase(needle: string, hay: string) {
    exists i :: OccursAt(needle, hay, i)
  }

  /** `prefix` starts `s`, ignoring case. */
  function StartsWithIgnoringCase(prefix: string, s: string): (b: bool)
    ensures b <==> OccursAt(prefix, s, 0)
  {
    assert |prefix| <= |s| ==> s[0..|prefix|] == s[..|prefix|];
    if prefix == [] then true
    else if s == [] then false
    else
      assert |prefix| <= |s| ==> s[1..][..|prefix| - 1] == s[1..|prefix|];
      Lower(prefix[0]) == Lower(s[0]) && StartsWithIgnoringCase(prefix[1..], s[1..])
  }

  /** The database's `contains` in `insensitive` mode, tried position by
      position. */
  function ContainsIgnoringCase(hay: string, needle: string): bool
    decreases |hay|
  {
    StartsWithIgnoringCase(needle, hay)
    || (hay != [] && ContainsIgnoringCase(hay[1..], needle))
  }

  /** Dropping the first character of `hay` shifts every occurrence by one. */
  lemma OccursAtShift(needle: string, hay: string, i: nat)
    requires hay != []
    ensures OccursAt(needle, hay, i + 1) <==> OccursAt(needle, hay[1..], i)
  {
    if i + 1 <= |hay| - |needle| {
      assert hay[1..][i..i + |needle|] == hay[i + 1..i + 1 + |needle|];
    }
  }

  /** The position-by-position search finds exactly the occurrences. */
  lemma {:induction false} ContainsIgnoringCaseIsOccurrence(hay: string, needle: string)
    ensures ContainsIgnoringCase(hay, needle) <==> OccursIgnoringCase(needle, hay)
    decreases |hay|
  {
    if hay == [] {
      if OccursIgnoringCase(needle, hay) {
        var i :| OccursAt(needle, hay, i);
        assert i == 0;
      }
    } else {
      ContainsIgnoringCaseIsOccurrence(hay[1..], needle);
      if OccursIgnoringCase(needle, hay[1..]) {
        var i :| OccursAt(needle, hay[1..], i);
        OccursAtShift(needle, hay, i);
      }
      if OccursIgnoringCase(needle, hay) && !StartsWithIgnoringCase(needle, hay) {
        var i :| OccursAt(needle, hay, i);
        assert i != 0;
        OccursAtShift(needle, hay, i - 1);
      }
    }
  }
}
