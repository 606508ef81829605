/** Glob matching of one record against one pattern. */
module Glob {
  import opened Text

  /** What a pattern means, character by character: '*' stands for any string,
      the empty one included, and every other character for itself. */
  ghost predicate Means(p: string, s: string)
    decreases |p|
  {
    if p == "" then s == ""
    else if p[0] == '*' then exists k :: 0 <= k <= |s| && Means(p[1..], s[k..])
    else s != "" && s[0] == p[0] && Means(p[1..], s[1..])
  }

  /** The same with letter case ignored: every character but '*' stands for itself in
      either case. */
  ghost predicate MeansAnyCase(p: string, s: string)
    decreases |p|
  {
    if p == "" then s == ""
    else if p[0] == '*' then exists k :: 0 <= k <= |s| && MeansAnyCase(p[1..], s[k..])
    else s != "" && SameLetter(p[0], s[0]) && MeansAnyCase(p[1..], s[1..])
  }

  /** Lowering both sides ignores letter case, and nothing but letter case. */
  lemma {:induction false} AnyCase(p: string, s: string)
    ensures MeansAnyCase(p, s) <==> Means(ToLower(p), ToLower(s))
    decreases |p|
  {
    if p != "" {
      assert ToLower(p)[1..] == ToLower(p[1..]);
      if p[0] == '*' {
        forall k | 0 <= k <= |s| ensures MeansAnyCase(p[1..], s[k..]) <==> Means(ToLower(p)[1..], ToLower(s)[k..]) {
          AnyCase(p[1..], s[k..]);
          assert ToLower(s)[k..] == ToLower(s[k..]);
        }
      } else if s != "" {
        AnyCase(p[1..], s[1..]);
        SameLetterLowered(p[0], s[0]);
        assert ToLower(s)[1..] == ToLower(s[1..]);
      }
    }
  }

  predicate NoStar(s: string) {
    forall i :: 0 <= i < |s| ==> s[i] != '*'
  }

  /** A pattern without '*' means its own text only. */
  lemma {:induction false} ExactMeans(p: string, s: string)
    requires NoStar(p)
    ensures Means(p, s) <==> p == s
  {
    if p != "" && s != "" {
      ExactMeans(p[1..], s[1..]);
      assert p == [p[0]] + p[1..] && s == [s[0]] + s[1..];
    }
  }

  /** Star-free text in front of a pattern. */
  lemma {:induction false} LiteralFirst(lit: string, p: string, s: string)
    requires NoStar(lit)
    ensures Means(lit + p, s) <==> lit <= s && Means(p, s[|lit|..])
  {
    if lit == "" {
      assert lit + p == p && s[|lit|..] == s;
    } else {
      assert (lit + p)[1..] == lit[1..] + p;
      if s != "" {
        LiteralFirst(lit[1..], p, s[1..]);
        assert lit <= s <==> lit[0] == s[0] && lit[1..] <= s[1..];
        if lit <= s { assert s[1..][|lit[1..]|..] == s[|lit|..]; }
      }
    }
  }

  /* ---- the meaning of a pattern cut on '*' ------------------------------- */

  /** The segments match `s` from its first character on, with a gap of any size
      before each of the later ones, and the last one ends `s`. */
  ghost predicate Here(parts: seq<string>, s: string)
    requires |parts| >= 1
    decreases |parts|, 0
  {
    parts[0] <= s &&
    if |parts| == 1 then parts[0] == s else After(parts[1..], s[|parts[0]|..])
  }

  /** The same after a '*': the first segment may start anywhere. */
  ghost predicate After(parts: seq<string>, s: string)
    requires |parts| >= 1
    decreases |parts|, 1
  {
    exists k :: 0 <= k <= |s| && Here(parts, s[k..])
  }

  lemma {:induction false} SegmentsMean(parts: seq<string>, s: string)
    requires |parts| >= 1
    requires forall i :: 0 <= i < |parts| ==> NoStar(parts[i])
    ensures Means(Join(parts, "*"), s) <==> Here(parts, s)
    decreases |parts|
  {
    if |parts| == 1 {
      ExactMeans(parts[0], s);
    } else {
      var tail := Join(parts[1..], "*");
      assert Join(parts, "*") == parts[0] + ("*" + tail);
      LiteralFirst(parts[0], "*" + tail, s);
      if parts[0] <= s {
        var t := s[|parts[0]|..];
        assert ("*" + tail)[1..] == tail;
        forall k | 0 <= k <= |t| ensures Means(tail, t[k..]) <==> Here(parts[1..], t[k..]) {
          SegmentsMean(parts[1..], t[k..]);
        }
      }
    }
  }

  /** More text in front of a gap never hurts. */
  lemma AfterMonotone(parts: seq<string>, s: string, j: nat)
    requires |parts| >= 1 && j <= |s|
    requires After(parts, s[j..])
    ensures After(parts, s)
  {
    var k :| 0 <= k <= |s[j..]| && Here(parts, s[j..][k..]);
    assert s[j..][k..] == s[j + k..];
  }

  /** Taking the leftmost occurrence of a middle segment loses no match. */
  lemma LeftmostIsBest(parts: seq<string>, s: string)
    requires |parts| >= 2
    ensures var idx := Index(s, parts[0]);
            After(parts, s) <==> idx != -1 && After(parts[1..], s[idx + |parts[0]|..])
  {
    var part := parts[0];
    var idx := Index(s, part);
    if After(parts, s) {
      var k :| 0 <= k <= |s| && Here(parts, s[k..]);
      LeftmostLoses(parts, s, k);
    }
    if idx != -1 && After(parts[1..], s[idx + |part|..]) {
      assert s[idx..][|part|..] == s[idx + |part|..];
      assert Here(parts, s[idx..]);
    }
  }

  /** Nothing: a match with the first segment at k is a match with it at its leftmost. */
  lemma LeftmostLoses(parts: seq<string>, s: string, k: nat)
    requires |parts| >= 2 && k <= |s| && Here(parts, s[k..])
    ensures var idx := Index(s, parts[0]);
            idx != -1 && After(parts[1..], s[idx + |parts[0]|..])
  {
    var part := parts[0];
    var idx := Index(s, part);
    assert Occurs(s, part, k);
    assert idx != -1 && idx <= k;
    var t := s[idx + |part|..];
    assert s[k..][|part|..] == t[k - idx..];
    AfterMonotone(parts[1..], t, k - idx);
  }

  lemma LastSegment(last: string, s: string)
    ensures After([last], s) <==> HasSuffix(s, last)
  {
    if HasSuffix(s, last) {
      assert Here([last], s[|s| - |last|..]);
    }
  }

  /** A pattern that holds a '*' is cut into at least two star-free segments. */
  lemma StarSplit(p: string)
    ensures forall q :: q in Split(p, "*") ==> NoStar(q)
    ensures NoStar(p) <==> |Split(p, "*")| == 1
    ensures Join(Split(p, "*"), "*") == p
  {
    JoinOfSplit(p, "*");
    forall q | q in Split(p, "*") ensures NoStar(q) {
      SplitPieces(p, "*", q);
      StarOccurs(q);
    }
    StarOccurs(p);
  }

  lemma StarOccurs(p: string)
    ensures NoStar(p) <==> Index(p, "*") == -1
  {
    forall i | 0 <= i < |p| ensures Occurs(p, "*", i) <==> p[i] == '*' {
      assert p[i..][0] == p[i];
    }
    var i := Index(p, "*");
    if i >= 0 {
      assert p[i..][0] == '*';
    }
  }

  /* ---- one lemma per step of the loop below ------------------------------- */

  lemma FirstStep(p: string, str: string)
    requires !NoStar(p)
    ensures var parts := Split(p, "*");
            |parts| >= 2 &&
            (Means(p, str) <==> parts[0] <= str && After(parts[1..], str[|parts[0]|..]))
  {
    StarSplit(p);
    SegmentsMean(Split(p, "*"), str);
  }

  lemma MiddleStep(parts: seq<string>, i: nat, str: string)
    requires i < |parts| - 1
    ensures var idx := Index(str, parts[i]);
            After(parts[i..], str) <==> idx != -1 && After(parts[i + 1..], str[idx + |parts[i]|..])
    ensures parts[i] == "" ==> (After(parts[i..], str) <==> After(parts[i + 1..], str))
  {
    LeftmostIsBest(parts[i..], str);
    assert parts[i..][1..] == parts[i + 1..];
    if parts[i] == "" {
      assert Occurs(str, parts[i], 0);
    }
  }

  lemma LastStep(parts: seq<string>, str: string)
    requires |parts| >= 1
    ensures var last := parts[|parts| - 1];
            After(parts[|parts| - 1..], str) <==> last == "" || HasSuffix(str, last)
  {
    var last := parts[|parts| - 1];
    assert parts[|parts| - 1..] == [last];
    LastSegment(last, str);
  }

  /** The function globMatch: it decides exactly the meaning of the pattern,
      letter case ignored, for every pattern and every string. */
  method GlobMatch(pattern: string, value: string) returns (matched: bool)
    ensures matched <==> MeansAnyCase(pattern, value)
    ensures matched <==> Means(ToLower(pattern), ToLower(value))
  {
    AnyCase(pattern, value);
    matched := GlobMatchLowered(ToLower(pattern), ToLower(value));
  }

  method GlobMatchLowered(p: string, str: string) returns (matched: bool)
    ensures matched <==> Means(p, str)
  {
    if '*' !in p {
      ExactMeans(p, str);
      return p == str;
    }
    FirstStep(p, str);
    matched := MatchSegments(Split(p, "*"), str);
  }

  /** Cuts the text behind the leftmost occurrence of a middle segment. */
  method CutSegment(parts: seq<string>, i: nat, str: string) returns (found: bool, rest: string)
    requires 1 <= i < |parts| - 1
    ensures !found ==> !After(parts[i..], str)
    ensures found ==> (After(parts[i..], str) <==> After(parts[i + 1..], rest))
  {
    var part := parts[i];
    MiddleStep(parts, i, str);
    found, rest := true, str;
    if part != "" {
      var idx := Index(str, part);
      if idx == -1 {
        found := false;
      } else {
        rest := str[idx + |part|..];
      }
    }
  }

  /** The segment loop of globMatch: prefix, leftmost middle segments, suffix. */
  method MatchSegments(parts: seq<string>, value: string) returns (matched: bool)
    requires |parts| >= 2
    ensures matched <==> parts[0] <= value && After(parts[1..], value[|parts[0]|..])
  {
    var str := value;
    var first := parts[0];
    if first != "" {
      if !HasPrefix(str, first) {
        return false;
      }
      str := str[|first|..];
    }
    assert str == value[|first|..];
    ghost var goal := After(parts[1..], str);
    var i := 1;
    while i < |parts| - 1
      invariant 1 <= i < |parts|
      invariant goal <==> After(parts[i..], str)
    {
      var found;
      found, str := CutSegment(parts, i, str);
      if !found {
        return false;
      }
      i := i + 1;
    }
    LastStep(parts, str);
    var last := parts[|parts| - 1];
    if last != "" && !HasSuffix(str, last) {
      return false;
    }
    return true;
  }
}
