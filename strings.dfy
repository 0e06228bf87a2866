/**
 * The few Python `str` operations the frame parser relies on:
 * `p in s`, `s.split(sep)`, `s.replace(p, "")`, `s.split()` and `s.strip()`.
 * Whitespace is Python's `str.isspace` set.
 */
module Strings {
  import opened Wrappers

  /** Python's `str.isspace` for a single character. */
  predicate IsSpace(c: char) {
    c == ' ' || ('\t' <= c <= '\r') || ('\U{1C}' <= c <= '\U{1F}')
    || c == '\U{85}' || c == '\U{A0}' || c == '\U{1680}'
    || ('\U{2000}' <= c <= '\U{200A}') || c == '\U{2028}' || c == '\U{2029}'
    || c == '\U{202F}' || c == '\U{205F}' || c == '\U{3000}'
  }

  predicate NoSpace(s: string) {
    forall i :: 0 <= i < |s| ==> !IsSpace(s[i])
  }

  predicate AllSpace(s: string) {
    forall i :: 0 <= i < |s| ==> IsSpace(s[i])
  }

  /** `c` does not occur in `s`. */
  predicate Lacks(s: string, c: char) {
    c !in s
  }

  /** `p` occurs in `s` starting at index `j`. */
  predicate OccursAt(s: string, p: string, j: int) {
    0 <= j && j + |p| <= |s| && s[j..j + |p|] == p
  }

  lemma OccursAtTail(s: string, p: string, j: nat)
    requires |s| > 0
    ensures OccursAt(s, p, j + 1) <==> OccursAt(s[1..], p, j)
  {
    if j + 1 + |p| <= |s| {
      assert s[1..][j..j + |p|] == s[j + 1..j + 1 + |p|];
    }
  }

  /** Index of the first occurrence of `p` in `s` (Python's `s.find(p)`), or None. */
  function Find(s: string, p: string): Option<nat>
    requires p != []
    decreases |s|
  {
    if |s| < |p| then None
    else if s[..|p|] == p then Some(0)
    else
      match Find(s[1..], p)
      case None => None
      case Some(i) => Some(i + 1)
  }

  /** Find returns the leftmost occurrence, and None exactly when there is none. */
  lemma {:induction false} FindSpec(s: string, p: string)
    requires p != []
    ensures Find(s, p).Some? ==> OccursAt(s, p, Find(s, p).value)
    ensures Find(s, p).Some? ==> forall j :: 0 <= j < Find(s, p).value ==> !OccursAt(s, p, j)
    ensures Find(s, p).None? ==> forall j :: !OccursAt(s, p, j)
    decreases |s|
  {
    if |s| < |p| {
    } else if s[..|p|] == p {
    } else {
      FindSpec(s[1..], p);
      assert !OccursAt(s, p, 0);
      forall j | 1 <= j ensures OccursAt(s, p, j) <==> OccursAt(s[1..], p, j - 1) {
        OccursAtTail(s, p, j - 1);
      }
    }
  }

  /** Python's `p in s`. */
  predicate Contains(s: string, p: string)
    requires p != []
  {
    Find(s, p).Some?
  }

  /** Python's `sep.join(parts)`. */
  function Join(parts: seq<string>, sep: string): string
    requires |parts| >= 1
  {
    if |parts| == 1 then parts[0] else parts[0] + sep + Join(parts[1..], sep)
  }

  lemma NoOccurrenceInPrefix(s: string, p: string, i: nat)
    requires p != [] && i <= |s|
    requires forall j :: 0 <= j < i ==> !OccursAt(s, p, j)
    ensures !Contains(s[..i], p)
  {
    FindSpec(s[..i], p);
    if Find(s[..i], p).Some? {
      var j := Find(s[..i], p).value;
      assert s[..i][j..j + |p|] == s[j..j + |p|];
      assert OccursAt(s, p, j);
    }
  }

  /**
   * Python's `s.split(sep)` for a non-empty separator: the pieces between
   * successive leftmost occurrences of `sep`.
   */
  function Split(s: string, sep: string): (r: seq<string>)
    requires sep != []
    ensures |r| >= 1
    decreases |s|
  {
    match Find(s, sep)
    case None => [s]
    case Some(i) =>
      FindSpec(s, sep);
      [s[..i]] + Split(s[i + |sep|..], sep)
  }

  /** Joining the pieces with `sep` gives back `s`. */
  lemma {:induction false} SplitJoin(s: string, sep: string)
    requires sep != []
    ensures Join(Split(s, sep), sep) == s
    decreases |s|
  {
    FindSpec(s, sep);
    match Find(s, sep)
    case None =>
    case Some(i) =>
      var rest := s[i + |sep|..];
      SplitJoin(rest, sep);
      JoinCons(s[..i], Split(rest, sep), sep);
      Recompose(s, sep, i);
  }

  lemma JoinCons(x: string, parts: seq<string>, sep: string)
    requires |parts| >= 1
    ensures Join([x] + parts, sep) == x + sep + Join(parts, sep)
  {
    assert ([x] + parts)[1..] == parts;
  }

  lemma Recompose(s: string, p: string, i: int)
    requires OccursAt(s, p, i)
    ensures s[..i] + p + s[i + |p|..] == s
  {
    assert s == s[..i] + s[i..i + |p|] + s[i + |p|..];
  }

  /** There is one piece exactly when `sep` does not occur. */
  lemma SplitSingle(s: string, sep: string)
    requires sep != []
    ensures |Split(s, sep)| == 1 <==> !Contains(s, sep)
  {
    FindSpec(s, sep);
  }

  /** No piece contains `sep`. */
  lemma {:induction false} SplitPieces(s: string, sep: string)
    requires sep != []
    ensures forall i :: 0 <= i < |Split(s, sep)| ==> !Contains(Split(s, sep)[i], sep)
    decreases |s|
  {
    FindSpec(s, sep);
    match Find(s, sep)
    case None =>
    case Some(i) =>
      NoOccurrenceInPrefix(s, sep, i);
      var rest := s[i + |sep|..];
      SplitPieces(rest, sep);
      assert Split(s, sep) == [s[..i]] + Split(rest, sep);
  }

  /** Python's `s.replace(p, "")`: every leftmost occurrence of `p` deleted in one pass. */
  function DeleteAll(s: string, p: string): (r: string)
    requires p != []
    ensures !Contains(s, p) ==> r == s
  {
    SplitSingle(s, p);
    Join(Split(s, p), "")
  }

  lemma FindLeading(u: string, p: string, v: string)
    requires p != [] && Lacks(u, p[0])
    ensures Find(u + p + v, p) == Some(|u|)
  {
    var s := u + p + v;
    FindSpec(s, p);
    assert s[|u|..|u| + |p|] == p;
    assert OccursAt(s, p, |u|);
    forall j | 0 <= j < |u| ensures !OccursAt(s, p, j) {
      if j + |p| <= |s| {
        assert s[j..j + |p|][0] == s[j] == u[j];
      }
    }
  }

  lemma FindAbsent(u: string, p: string)
    requires p != [] && Lacks(u, p[0])
    ensures Find(u, p) == None
  {
    FindSpec(u, p);
    forall j | 0 <= j && j + |p| <= |u| ensures !OccursAt(u, p, j) {
      assert u[j..j + |p|][0] == u[j];
    }
  }

  /** Splitting at an occurrence of `p` that nothing before it can start. */
  lemma SplitAt(u: string, p: string, v: string)
    requires p != [] && Lacks(u, p[0])
    ensures Split(u + p + v, p) == [u] + Split(v, p)
  {
    var s := u + p + v;
    FindLeading(u, p, v);
    assert s[..|u|] == u;
    assert s[|u| + |p|..] == v;
  }

  lemma SplitWhole(u: string, p: string)
    requires p != [] && Lacks(u, p[0])
    ensures Split(u, p) == [u]
  {
    FindAbsent(u, p);
  }

  lemma DeleteAt(u: string, p: string, v: string)
    requires p != [] && Lacks(u, p[0])
    ensures DeleteAll(u + p + v, p) == u + DeleteAll(v, p)
  {
    SplitAt(u, p, v);
  }

  lemma DeleteNothing(u: string, p: string)
    requires p != [] && Lacks(u, p[0])
    ensures DeleteAll(u, p) == u
  {
    SplitWhole(u, p);
  }

  /*
   * The lemmas below take the text and its decomposition as separate
   * arguments, tied by a precondition, so that callers prove the
   * concatenation identity apart from the facts about Split and Find.
   */

  lemma ContainsAt(s: string, u: string, p: string, v: string)
    requires p != [] && Lacks(u, p[0]) && s == u + p + v
    ensures Contains(s, p)
  {
    FindLeading(u, p, v);
  }

  lemma SplitOnceAt(s: string, u: string, p: string, v: string)
    requires p != [] && Lacks(u, p[0]) && Lacks(v, p[0]) && s == u + p + v
    ensures Split(s, p) == [u, v]
  {
    SplitAt(u, p, v);
    SplitWhole(v, p);
  }

  lemma SplitFirstAt(s: string, u: string, p: string, v: string)
    requires p != [] && Lacks(u, p[0]) && s == u + p + v
    ensures Split(s, p) == [u] + Split(v, p)
  {
    SplitAt(u, p, v);
  }

  lemma DeleteOnceAt(s: string, u: string, p: string, v: string, r: string)
    requires p != [] && Lacks(u, p[0]) && Lacks(v, p[0]) && s == u + p + v && r == u + v
    ensures DeleteAll(s, p) == r
  {
    DeleteAt(u, p, v);
    DeleteNothing(v, p);
  }

  /** Length of the run of non-space characters at the front of `s`. */
  function WordLength(s: string): (n: nat)
    ensures n <= |s|
    ensures forall i :: 0 <= i < n ==> !IsSpace(s[i])
    ensures n == |s| || IsSpace(s[n])
  {
    if s == [] || IsSpace(s[0]) then 0 else 1 + WordLength(s[1..])
  }

  /** Python's `s.split()`: the maximal runs of non-whitespace characters, in order. */
  function Words(s: string): seq<string>
    decreases |s|
  {
    if s == [] then []
    else if IsSpace(s[0]) then Words(s[1..])
    else
      var n := WordLength(s);
      [s[..n]] + Words(s[n..])
  }

  /** Every word is a non-empty run without whitespace; blank text has no words. */
  lemma {:induction false} WordsShape(s: string)
    ensures forall i :: 0 <= i < |Words(s)| ==> |Words(s)[i]| > 0 && NoSpace(Words(s)[i])
    ensures AllSpace(s) ==> Words(s) == []
    decreases |s|
  {
    if s == [] {
    } else if IsSpace(s[0]) {
      WordsShape(s[1..]);
    } else {
      var n := WordLength(s);
      WordsShape(s[n..]);
      assert !AllSpace(s);
    }
  }

  /** Words joined by single spaces: the inverse of Words on well-formed input. */
  function Unwords(ws: seq<string>): string {
    if ws == [] then "" else if |ws| == 1 then ws[0] else ws[0] + " " + Unwords(ws[1..])
  }

  lemma WordLengthOf(w: string, rest: string)
    requires NoSpace(w) && (rest == [] || IsSpace(rest[0]))
    ensures WordLength(w + rest) == |w|
    decreases |w|
  {
    if w != [] {
      assert (w + rest)[1..] == w[1..] + rest;
      WordLengthOf(w[1..], rest);
    }
  }

  lemma WordsCons(w: string, rest: string)
    requires |w| > 0 && NoSpace(w) && (rest == [] || IsSpace(rest[0]))
    ensures Words(w + rest) == [w] + Words(rest)
  {
    WordLengthOf(w, rest);
    assert (w + rest)[..|w|] == w;
    assert (w + rest)[|w|..] == rest;
  }

  lemma WordsSkipSpace(rest: string)
    ensures Words(" " + rest) == Words(rest)
  {
    assert (" " + rest)[1..] == rest;
  }

  lemma WordsConsAt(s: string, w: string, rest: string)
    requires |w| > 0 && NoSpace(w) && (rest == [] || IsSpace(rest[0])) && s == w + rest
    ensures Words(s) == [w] + Words(rest)
  {
    WordsCons(w, rest);
  }

  lemma WordsSkipSpaceAt(s: string, rest: string)
    requires s == " " + rest
    ensures Words(s) == Words(rest)
  {
    WordsSkipSpace(rest);
  }

  /** `s.split()` recovers the words that `" ".join` put together. */
  lemma {:induction false} WordsUnwords(ws: seq<string>)
    requires forall i :: 0 <= i < |ws| ==> |ws[i]| > 0 && NoSpace(ws[i])
    ensures Words(Unwords(ws)) == ws
  {
    if ws == [] {
    } else if |ws| == 1 {
      WordsCons(ws[0], "");
      assert ws[0] + "" == ws[0];
    } else {
      WordsUnwords(ws[1..]);
      WordsCons(ws[0], " " + Unwords(ws[1..]));
      assert ws[0] + " " + Unwords(ws[1..]) == ws[0] + (" " + Unwords(ws[1..]));
      WordsSkipSpace(Unwords(ws[1..]));
    }
  }

  /** Python's `s.lstrip()`. */
  function StripLeft(s: string): string {
    if s != [] && IsSpace(s[0]) then StripLeft(s[1..]) else s
  }

  /** `lstrip` removes a leading run of whitespace and stops at the first other character. */
  lemma {:induction false} StripLeftSpec(s: string)
    ensures var r := StripLeft(s);
            |r| <= |s| && r == s[|s| - |r|..] && AllSpace(s[..|s| - |r|]) && (r == [] || !IsSpace(r[0]))
  {
    if s != [] && IsSpace(s[0]) {
      StripLeftSpec(s[1..]);
      var r := StripLeft(s);
      assert s[..|s| - |r|] == [s[0]] + s[1..][..|s| - 1 - |r|];
    }
  }

  /** Python's `s.rstrip()`. */
  function StripRight(s: string): string {
    if s != [] && IsSpace(s[|s| - 1]) then StripRight(s[..|s| - 1]) else s
  }

  /** `rstrip` removes a trailing run of whitespace and stops at the last other character. */
  lemma {:induction false} StripRightSpec(s: string)
    ensures var r := StripRight(s);
            |r| <= |s| && r == s[..|r|] && AllSpace(s[|r|..]) && (r == [] || !IsSpace(r[|r| - 1]))
            && (s != [] && !IsSpace(s[0]) ==> r != [])
  {
    if s != [] && IsSpace(s[|s| - 1]) {
      StripRightSpec(s[..|s| - 1]);
      var r := StripRight(s);
      assert s[|r|..] == s[..|s| - 1][|r|..] + [s[|s| - 1]];
    }
  }

  /** Python's `s.strip()`. */
  function Strip(s: string): string {
    StripRight(StripLeft(s))
  }

  /** Text that neither starts nor ends with whitespace is left alone by `strip()`. */
  lemma StripKeeps(s: string)
    requires s != [] && !IsSpace(s[0]) && !IsSpace(s[|s| - 1])
    ensures Strip(s) == s
  {
  }

  /** `s.strip()` is empty exactly when `s` is all whitespace. */
  lemma StripEmpty(s: string)
    ensures Strip(s) == [] <==> AllSpace(s)
  {
    var l := StripLeft(s);
    StripLeftSpec(s);
    StripRightSpec(l);
    if l == [] {
      assert s[..|s|] == s;
    } else {
      assert l[0] == s[|s| - |l|];
    }
  }
}
