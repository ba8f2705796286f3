/**
 * The string operations the application relies on from its two runtimes:
 * JavaScript's `trim`, `toLowerCase` and `includes`, and Python's `strip`,
 * `split`, `join`, `replace(old, "")` and `title`.
 * Case mapping is restricted to ASCII letters; every other character is left unchanged.
 */
module Strings {

  import opened Wrappers

  // ---------------------------------------------------------------------------
  // Whitespace and trimming
  // ---------------------------------------------------------------------------

  /** Characters removed by JavaScript's String.prototype.trim (WhiteSpace and LineTerminator). */
  predicate IsJsSpace(c: char)
  {
    c == '\t' || c == '\n' || c == '\U{000B}' || c == '\U{000C}' || c == '\r' || c == ' '
    || c == '\U{00A0}' || c == '\U{1680}' || ('\U{2000}' <= c <= '\U{200A}')
    || c == '\U{2028}' || c == '\U{2029}' || c == '\U{202F}' || c == '\U{205F}' || c == '\U{3000}'
    || c == '\U{FEFF}'
  }

  /** Characters removed by Python's str.strip() with no argument (str.isspace). */
  predicate IsPySpace(c: char)
  {
    c == '\t' || c == '\n' || c == '\U{000B}' || c == '\U{000C}' || c == '\r'
    || ('\U{001C}' <= c <= '\U{001F}') || c == ' ' || c == '\U{0085}'
    || c == '\U{00A0}' || c == '\U{1680}' || ('\U{2000}' <= c <= '\U{200A}')
    || c == '\U{2028}' || c == '\U{2029}' || c == '\U{202F}' || c == '\U{205F}' || c == '\U{3000}'
  }

  predicate AllSpace(s: string, isSpace: char -> bool)
  {
    forall i :: 0 <= i < |s| ==> isSpace(s[i])
  }

  function TrimLeft(s: string, isSpace: char -> bool): string
  {
    if s != [] && isSpace(s[0]) then TrimLeft(s[1..], isSpace) else s
  }

  function TrimRight(s: string, isSpace: char -> bool): string
  {
    if s != [] && isSpace(s[|s| - 1]) then TrimRight(s[..|s| - 1], isSpace) else s
  }

  function Trim(s: string, isSpace: char -> bool): string
  {
    TrimRight(TrimLeft(s, isSpace), isSpace)
  }

  /** JavaScript `s.trim()`. */
  function JsTrim(s: string): string { Trim(s, IsJsSpace) }

  /** Python `s.strip()`. */
  function PyStrip(s: string): string { Trim(s, IsPySpace) }

  /** TrimLeft drops exactly a leading run of spaces and stops at a non-space. */
  lemma {:induction false} TrimLeftShape(s: string, isSpace: char -> bool)
    ensures var r := TrimLeft(s, isSpace);
      && |r| <= |s| && r == s[|s| - |r|..]
      && AllSpace(s[..|s| - |r|], isSpace)
      && (r != [] ==> !isSpace(r[0]))
  {
    if s != [] && isSpace(s[0]) {
      TrimLeftShape(s[1..], isSpace);
      var r := TrimLeft(s[1..], isSpace);
      assert s[1..][..|s| - 1 - |r|] == s[1..|s| - |r|];
      assert s[..|s| - |r|] == [s[0]] + s[1..|s| - |r|];
    }
  }

  /** TrimRight drops exactly a trailing run of spaces and stops at a non-space. */
  lemma {:induction false} TrimRightShape(s: string, isSpace: char -> bool)
    ensures var r := TrimRight(s, isSpace);
      && |r| <= |s| && r == s[..|r|]
      && AllSpace(s[|r|..], isSpace)
      && (r != [] ==> !isSpace(r[|r| - 1]))
  {
    if s != [] && isSpace(s[|s| - 1]) {
      var t := s[..|s| - 1];
      TrimRightShape(t, isSpace);
      var r := TrimRight(t, isSpace);
      assert t[..|r|] == s[..|r|];
      assert s[|r|..] == t[|r|..] + [s[|s| - 1]];
    }
  }

  /**
   * Trimming yields an infix of the input with only spaces cut off both ends,
   * and the result neither starts nor ends with a space.
   */
  lemma TrimShape(s: string, isSpace: char -> bool)
    ensures var r := Trim(s, isSpace);
      && (exists a :: 0 <= a <= |s| - |r| && r == s[a..a + |r|]
            && AllSpace(s[..a], isSpace) && AllSpace(s[a + |r|..], isSpace))
      && (r != [] ==> !isSpace(r[0]) && !isSpace(r[|r| - 1]))
  {
    var l := TrimLeft(s, isSpace);
    TrimLeftShape(s, isSpace);
    TrimRightShape(l, isSpace);
    var r := TrimRight(l, isSpace);
    var a := |s| - |l|;
    assert r == s[a..a + |r|];
    assert s[a + |r|..] == l[|r|..];
  }

  /** The trimmed string is empty exactly when the input is all spaces. */
  lemma {:induction false} TrimEmptyIff(s: string, isSpace: char -> bool)
    ensures Trim(s, isSpace) == [] <==> AllSpace(s, isSpace)
  {
    TrimShape(s, isSpace);
    if AllSpace(s, isSpace) {
      AllSpaceTrimLeft(s, isSpace);
    }
  }

  lemma {:induction false} AllSpaceTrimLeft(s: string, isSpace: char -> bool)
    requires AllSpace(s, isSpace)
    ensures TrimLeft(s, isSpace) == []
  {
    if s != [] {
      AllSpaceTrimLeft(s[1..], isSpace);
    }
  }

  /** A string with no space at either end is its own trim. */
  lemma TrimBare(s: string, isSpace: char -> bool)
    requires s != [] ==> !isSpace(s[0]) && !isSpace(s[|s| - 1])
    ensures Trim(s, isSpace) == s
  {
  }

  /** Trimming twice is trimming once. */
  lemma TrimIdempotent(s: string, isSpace: char -> bool)
    ensures Trim(Trim(s, isSpace), isSpace) == Trim(s, isSpace)
  {
    TrimShape(s, isSpace);
    TrimBare(Trim(s, isSpace), isSpace);
  }

  /** Leading spaces do not change TrimLeft. */
  lemma {:induction false} TrimLeftAfterSpaces(w: string, s: string, isSpace: char -> bool)
    requires AllSpace(w, isSpace)
    ensures TrimLeft(w + s, isSpace) == TrimLeft(s, isSpace)
  {
    if w != [] {
      assert (w + s)[1..] == w[1..] + s;
      TrimLeftAfterSpaces(w[1..], s, isSpace);
    } else {
      assert w + s == s;
    }
  }

  /** Trailing spaces do not change TrimRight. */
  lemma {:induction false} TrimRightBeforeSpaces(s: string, w: string, isSpace: char -> bool)
    requires AllSpace(w, isSpace)
    ensures TrimRight(s + w, isSpace) == TrimRight(s, isSpace)
  {
    if w != [] {
      var w' := w[..|w| - 1];
      assert (s + w)[|s + w| - 1] == w[|w| - 1];
      assert (s + w)[..|s + w| - 1] == s + w';
      assert AllSpace(w', isSpace);
      TrimRightBeforeSpaces(s, w', isSpace);
    } else {
      assert s + w == s;
    }
  }

  /** TrimRight of a concatenation whose right part is not all space only trims the right part. */
  lemma {:induction false} TrimRightAppend(s: string, t: string, isSpace: char -> bool)
    requires TrimRight(t, isSpace) != []
    ensures TrimRight(s + t, isSpace) == s + TrimRight(t, isSpace)
  {
    assert t != [];
    assert (s + t)[|s + t| - 1] == t[|t| - 1];
    if isSpace(t[|t| - 1]) {
      var t' := t[..|t| - 1];
      assert (s + t)[..|s + t| - 1] == s + t';
      TrimRightAppend(s, t', isSpace);
    }
  }

  /** TrimRight of a concatenation whose right part is all space trims into the left part. */
  lemma TrimRightAppendSpaces(s: string, t: string, isSpace: char -> bool)
    requires TrimRight(t, isSpace) == []
    ensures TrimRight(s + t, isSpace) == TrimRight(s, isSpace)
  {
    TrimRightShape(t, isSpace);
    TrimRightBeforeSpaces(s, t, isSpace);
  }

  /** TrimLeft of a concatenation whose left part starts with a non-space is the identity on that start. */
  lemma TrimLeftNonSpaceStart(s: string, t: string, isSpace: char -> bool)
    requires s != [] && !isSpace(s[0])
    ensures TrimLeft(s + t, isSpace) == s + t
  {
  }

  // ---------------------------------------------------------------------------
  // Case mapping (ASCII)
  // ---------------------------------------------------------------------------

  predicate IsUpper(c: char) { 'A' <= c <= 'Z' }
  predicate IsLower(c: char) { 'a' <= c <= 'z' }
  predicate IsLetter(c: char) { IsUpper(c) || IsLower(c) }

  function LowerChar(c: char): (r: char)
    ensures IsLetter(c) <==> IsLetter(r)
    ensures !IsUpper(r)
    ensures !IsUpper(c) ==> r == c
  {
    if IsUpper(c) then (c as int + 32) as char else c
  }

  function UpperChar(c: char): (r: char)
    ensures IsLetter(c) <==> IsLetter(r)
    ensures !IsLower(r)
    ensures !IsLower(c) ==> r == c
  {
    if IsLower(c) then (c as int - 32) as char else c
  }

  /** JavaScript `s.toLowerCase()` on ASCII letters. */
  function Lower(s: string): (r: string)
    ensures |r| == |s|
    ensures forall i :: 0 <= i < |s| ==> r[i] == LowerChar(s[i])
  {
    if s == [] then [] else [LowerChar(s[0])] + Lower(s[1..])
  }

  /** Lower-casing is idempotent, so lower-casing both sides of a comparison twice changes nothing. */
  lemma LowerIdempotent(s: string)
    ensures Lower(Lower(s)) == Lower(s)
  {
    assert forall i :: 0 <= i < |s| ==> LowerChar(LowerChar(s[i])) == LowerChar(s[i]);
  }

  /**
   * Python `s.title()` on ASCII: a letter is upper-cased when the previous
   * character is not a letter (or there is none) and lower-cased otherwise;
   * every other character is kept.
   */
  function Title(s: string): string
  {
    TitleAfter(s, false)
  }

  function TitleAfter(s: string, prevCased: bool): (r: string)
    ensures |r| == |s|
  {
    if s == [] then []
    else
      var c := s[0];
      var m := if !IsLetter(c) then c else if prevCased then LowerChar(c) else UpperChar(c);
      [m] + TitleAfter(s[1..], IsLetter(c))
  }

  /** Python title-casing: each character's image depends only on it and whether its predecessor is a letter. */
  lemma {:induction false} TitleAt(s: string, prevCased: bool, i: nat)
    requires i < |s|
    ensures var before := if i == 0 then prevCased else IsLetter(s[i - 1]);
      TitleAfter(s, prevCased)[i] ==
        if !IsLetter(s[i]) then s[i] else if before then LowerChar(s[i]) else UpperChar(s[i])
  {
    if i > 0 {
      TitleAt(s[1..], IsLetter(s[0]), i - 1);
    }
  }

  // ---------------------------------------------------------------------------
  // Substrings
  // ---------------------------------------------------------------------------

  /** `s.includes(sub)` / `sub in s`: some suffix of `s` starts with `sub`. */
  predicate Contains(s: string, sub: string)
  {
    sub <= s || (s != [] && Contains(s[1..], sub))
  }

  /** `sub` occurs in `s` starting at index `i`. */
  predicate OccursAt(s: string, sub: string, i: int)
  {
    0 <= i <= |s| - |sub| && s[i..i + |sub|] == sub
  }

  /** Contains is the textbook "occurs at some index" definition. */
  lemma {:induction false} ContainsIff(s: string, sub: string)
    ensures Contains(s, sub) <==> exists i :: OccursAt(s, sub, i)
  {
    if sub <= s {
      assert OccursAt(s, sub, 0);
    } else if s != [] {
      ContainsIff(s[1..], sub);
      if Contains(s[1..], sub) {
        var i :| OccursAt(s[1..], sub, i);
        assert s[i + 1..i + 1 + |sub|] == s[1..][i..i + |sub|];
        assert OccursAt(s, sub, i + 1);
      }
      if exists i :: OccursAt(s, sub, i) {
        var i :| OccursAt(s, sub, i);
        assert s[1..][i - 1..i - 1 + |sub|] == s[i..i + |sub|];
        assert OccursAt(s[1..], sub, i - 1);
      }
    }
  }

  /** The empty string occurs in every string. */
  lemma ContainsEmpty(s: string)
    ensures Contains(s, [])
  {
  }

  // ---------------------------------------------------------------------------
  // Python split / join / replace
  // ---------------------------------------------------------------------------

  /** Index of the first occurrence of `sep` in `s`, as Python's `str.find`. */
  function Find(s: string, sep: string): (r: Option<nat>)
    requires |sep| > 0
    ensures r.Some? ==> r.value + |sep| <= |s| && s[r.value..r.value + |sep|] == sep
    ensures r.Some? ==> forall j :: 0 <= j < r.value ==> !(sep <= s[j..])
    ensures r.None? ==> forall j :: 0 <= j <= |s| ==> !(sep <= s[j..])
  {
    if sep <= s then Some(0)
    else if s == [] then None
    else match Find(s[1..], sep)
      case None =>
        assert forall j :: 1 <= j <= |s| ==> s[j..] == s[1..][j - 1..];
        None
      case Some(k) =>
        assert forall j :: 1 <= j <= k ==> s[j..] == s[1..][j - 1..];
        assert s[k + 1..k + 1 + |sep|] == s[1..][k..k + |sep|];
        Some(k + 1)
  }

  /** Python `s.split(sep)` for a non-empty separator. */
  function Split(s: string, sep: string): (r: seq<string>)
    requires |sep| > 0
    ensures |r| >= 1
    decreases |s|
  {
    match Find(s, sep)
    case None => [s]
    case Some(i) => [s[..i]] + Split(s[i + |sep|..], sep)
  }

  /** Python `sep.join(parts)`. */
  function Join(parts: seq<string>, sep: string): string
  {
    if |parts| == 0 then ""
    else if |parts| == 1 then parts[0]
    else parts[0] + sep + Join(parts[1..], sep)
  }

  /** Joining the pieces of a split with the same separator gives back the input. */
  lemma {:induction false} JoinSplit(s: string, sep: string)
    requires |sep| > 0
    ensures Join(Split(s, sep), sep) == s
    decreases |s|
  {
    var f := Find(s, sep);
    if f.Some? {
      var i := f.value;
      var rest := s[i + |sep|..];
      var tail := Split(rest, sep);
      JoinSplit(rest, sep);
      var parts := [s[..i]] + tail;
      assert Split(s, sep) == parts;
      assert parts[1..] == tail;
      assert Join(parts, sep) == s[..i] + sep + Join(tail, sep);
      assert s == s[..i] + s[i..i + |sep|] + rest;
    }
  }

  /** `sep` does not start at index `j` of `s`, as a statement about the slice there. */
  lemma NoOccurrence(s: string, sep: string, j: int)
    requires 0 <= j <= |s| - |sep| && !(sep <= s[j..])
    ensures s[j..j + |sep|] != sep
  {
  }

  /** No piece of a split contains the separator. */
  lemma {:induction false} SplitPiecesFree(s: string, sep: string)
    requires |sep| > 0
    ensures forall k :: 0 <= k < |Split(s, sep)| ==> !Contains(Split(s, sep)[k], sep)
    decreases |s|
  {
    var f := Find(s, sep);
    if f.None? {
      NotContainsFromFind(s, sep);
    } else {
      var i := f.value;
      var rest := s[i + |sep|..];
      SplitPiecesFree(rest, sep);
      var p := s[..i];
      forall j | 0 <= j <= |p| - |sep|
        ensures !OccursAt(p, sep, j)
      {
        NoOccurrence(s, sep, j);
        assert p[j..j + |sep|] == s[j..j + |sep|];
      }
      ContainsIff(p, sep);
      assert Split(s, sep) == [p] + Split(rest, sep);
    }
  }

  lemma NotContainsFromFind(s: string, sep: string)
    requires |sep| > 0 && Find(s, sep).None?
    ensures !Contains(s, sep)
  {
    ContainsIff(s, sep);
    forall j | 0 <= j <= |s| - |sep|
      ensures !OccursAt(s, sep, j)
    {
      NoOccurrence(s, sep, j);
    }
  }

  /** Splitting on a one-character separator peels off a first piece that does not contain it. */
  lemma SplitCons(x: string, sep: string, y: string)
    requires |sep| == 1 && forall k :: 0 <= k < |x| ==> x[k] != sep[0]
    ensures Split(x + sep + y, sep) == [x] + Split(y, sep)
  {
    var s := x + sep + y;
    assert s[|x|..][0] == sep[0];
    assert sep <= s[|x|..];
    var f := Find(s, sep);
    assert f.Some?;
    var i := f.value;
    assert i == |x|;
    assert s[..i] == x;
    assert s[i + 1..] == y;
  }

  /** `c` does not occur in any string of `parts`. */
  predicate NoneContainsChar(parts: seq<string>, c: char)
  {
    forall k, i :: 0 <= k < |parts| && 0 <= i < |parts[k]| ==> parts[k][i] != c
  }

  /** Splitting what was joined on a one-character separator gives back the parts, if none contains it. */
  lemma {:induction false} SplitJoin(parts: seq<string>, sep: string)
    requires |sep| == 1 && |parts| >= 1 && NoneContainsChar(parts, sep[0])
    ensures Split(Join(parts, sep), sep) == parts
  {
    if |parts| == 1 {
      var p := parts[0];
      var f := Find(p, sep);
      if f.Some? {
        assert p[f.value] == p[f.value..f.value + 1][0];
      }
    } else {
      assert NoneContainsChar(parts[1..], sep[0]) by {
        forall k, i | 0 <= k < |parts| - 1 && 0 <= i < |parts[1..][k]|
          ensures parts[1..][k][i] != sep[0]
        {
          assert parts[1..][k] == parts[k + 1];
        }
      }
      SplitJoin(parts[1..], sep);
      assert forall i :: 0 <= i < |parts[0]| ==> parts[0][i] != sep[0];
      SplitCons(parts[0], sep, Join(parts[1..], sep));
    }
  }

  /** A string occurs in any string built around it. */
  lemma ContainsInfix(a: string, sub: string, b: string)
    ensures Contains(a + sub + b, sub)
  {
    var s := a + sub + b;
    assert s[|a|..|a| + |sub|] == sub;
    assert OccursAt(s, sub, |a|);
    ContainsIff(s, sub);
  }

  /** Python `"".join(parts)`. */
  function Concat(parts: seq<string>): string
  {
    if parts == [] then "" else parts[0] + Concat(parts[1..])
  }

  /** Putting text in front keeps an occurrence. */
  lemma {:induction false} ContainsPrepend(a: string, s: string, sub: string)
    requires Contains(s, sub)
    ensures Contains(a + s, sub)
  {
    if a == [] {
      assert a + s == s;
    } else {
      assert (a + s)[1..] == a[1..] + s;
      ContainsPrepend(a[1..], s, sub);
    }
  }

  /** Every part occurs in the concatenation, and the first one starts it. */
  lemma {:induction false} ConcatContains(parts: seq<string>, k: nat)
    requires k < |parts|
    ensures parts[0] <= Concat(parts)
    ensures Contains(Concat(parts), parts[k])
  {
    if k > 0 {
      ConcatContains(parts[1..], k - 1);
      ContainsPrepend(parts[0], Concat(parts[1..]), parts[k]);
    }
  }

  /** Joining two runs of parts is joining each and concatenating. */
  lemma {:induction false} ConcatAppend(a: seq<string>, b: seq<string>)
    ensures Concat(a + b) == Concat(a) + Concat(b)
  {
    if a == [] {
      assert a + b == b;
    } else {
      assert (a + b)[1..] == a[1..] + b;
      ConcatAppend(a[1..], b);
    }
  }

  /**
   * Python `s.replace(pat, "")`: every non-overlapping occurrence of `pat`,
   * found left to right, is removed in one pass.
   */
  function RemoveAll(s: string, pat: string): (r: string)
    requires |pat| > 0
    ensures |r| <= |s|
    decreases |s|
  {
    if pat <= s then RemoveAll(s[|pat|..], pat)
    else if s == [] then []
    else [s[0]] + RemoveAll(s[1..], pat)
  }

  /** Removing a pattern that does not occur changes nothing. */
  lemma {:induction false} RemoveAllAbsent(s: string, pat: string)
    requires |pat| > 0 && !Contains(s, pat)
    ensures RemoveAll(s, pat) == s
    decreases |s|
  {
    if s != [] {
      RemoveAllAbsent(s[1..], pat);
    }
  }
}
