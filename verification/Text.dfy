/** The string operations of Go's `strings` package that the template code calls,
    over an ASCII alphabet, with the facts the parser and the matcher rely on. */
module Text {

  /* ---- letters ------------------------------------------------------- */

  function LowerChar(c: char): (r: char)
    ensures !('A' <= r <= 'Z')
    ensures c == '*' <==> r == '*'
  {
    if 'A' <= c <= 'Z' then (c as int + 32) as char else c
  }

  /** strings.ToLower. */
  function ToLower(s: string): (r: string)
    ensures |r| == |s|
    ensures forall i :: 0 <= i < |s| ==> r[i] == LowerChar(s[i])
  {
    seq(|s|, i requires 0 <= i < |s| => LowerChar(s[i]))
  }

  lemma ToLowerIdempotent(s: string)
    ensures ToLower(ToLower(s)) == ToLower(s)
  {
    assert forall i :: 0 <= i < |s| ==> ToLower(ToLower(s))[i] == LowerChar(ToLower(s)[i]) == ToLower(s)[i];
  }

  /** c is letter number i of the alphabet, as a capital or not. */
  predicate UpperAt(c: char, i: nat) {
    i < 26 && c as int == 'A' as int + i
  }

  predicate LowerAt(c: char, i: nat) {
    i < 26 && c as int == 'a' as int + i
  }

  /** The same character, or the same letter in either case. */
  ghost predicate SameLetter(c: char, e: char) {
    c == e || exists i: nat :: (UpperAt(c, i) && LowerAt(e, i)) || (LowerAt(c, i) && UpperAt(e, i))
  }

  ghost predicate SameText(s: string, t: string) {
    |s| == |t| && forall i :: 0 <= i < |s| ==> SameLetter(s[i], t[i])
  }

  /** A capital becomes the letter of its own place in the alphabet, and everything else
      stays. */
  lemma LowerCharMeans(c: char)
    ensures forall i: nat :: UpperAt(c, i) ==> LowerAt(LowerChar(c), i)
    ensures (forall i: nat :: !UpperAt(c, i)) ==> LowerChar(c) == c
  {
    if LowerChar(c) != c { assert UpperAt(c, c as int - 'A' as int); }
  }

  lemma SameLetterLowered(c: char, e: char)
    ensures LowerChar(c) == LowerChar(e) <==> SameLetter(c, e)
  {
    LowerCharMeans(c);
    LowerCharMeans(e);
    if LowerChar(c) == LowerChar(e) && c != e {
      if 'A' <= c <= 'Z' {
        var i := c as int - 'A' as int;
        assert UpperAt(c, i) && LowerAt(e, i);
      } else {
        var i := e as int - 'A' as int;
        assert UpperAt(e, i) && LowerAt(c, i);
      }
    }
  }

  /** ToLower makes two texts alike exactly when they differ in letter case at most. */
  lemma LoweredAlike(s: string, t: string)
    ensures ToLower(s) == ToLower(t) <==> SameText(s, t)
  {
    forall i | 0 <= i < |s| && i < |t| ensures ToLower(s)[i] == ToLower(t)[i] <==> SameLetter(s[i], t[i]) {
      SameLetterLowered(s[i], t[i]);
    }
  }

  /** Space, tab, line feed, vertical tab, form feed and carriage return. */
  lemma WhiteSpace(c: char)
    ensures IsSpace(c) <==> c as int == 32 || 9 <= c as int <= 13
  {
  }

  predicate IsSpace(c: char) {
    c == ' ' || c == '\t' || c == '\n' || c == '\r' || c == '\U{0B}' || c == '\U{0C}'
  }

  /** No white space anywhere, and at least one character: what a field looks like. */
  predicate IsToken(s: string) {
    s != "" && forall i :: 0 <= i < |s| ==> !IsSpace(s[i])
  }

  predicate AllSpace(s: string) {
    forall i :: 0 <= i < |s| ==> IsSpace(s[i])
  }

  /* ---- searching ----------------------------------------------------- */

  predicate HasPrefix(s: string, prefix: string) {
    prefix <= s
  }

  predicate HasSuffix(s: string, suffix: string) {
    |suffix| <= |s| && s[|s| - |suffix|..] == suffix
  }

  predicate Occurs(s: string, sub: string, k: int)
  {
    0 <= k <= |s| && sub <= s[k..]
  }

  /** strings.Index: the leftmost occurrence, or -1. */
  function Index(s: string, sub: string): (r: int)
    ensures -1 <= r <= |s|
    ensures r >= 0 ==> Occurs(s, sub, r) && r + |sub| <= |s| && s[r..r + |sub|] == sub
    ensures forall k :: 0 <= k <= |s| && (r == -1 || k < r) ==> !Occurs(s, sub, k)
  {
    IndexFrom(s, sub, 0)
  }

  function IndexFrom(s: string, sub: string, from: nat): (r: int)
    requires from <= |s|
    ensures r == -1 || from <= r <= |s|
    ensures r >= 0 ==> Occurs(s, sub, r) && r + |sub| <= |s| && s[r..r + |sub|] == sub
    ensures forall k :: from <= k <= |s| && (r == -1 || k < r) ==> !Occurs(s, sub, k)
    decreases |s| - from
  {
    if Occurs(s, sub, from) then from
    else if from == |s| then -1
    else IndexFrom(s, sub, from + 1)
  }

  /** The leftmost occurrence is the only position that occurs with nothing before it. */
  lemma IndexIs(s: string, sub: string, k: nat)
    requires Occurs(s, sub, k)
    requires forall j :: 0 <= j < k ==> !Occurs(s, sub, j)
    ensures Index(s, sub) == k
  {
  }

  /* ---- splitting and joining ------------------------------------------ */

  /** strings.Split for a non-empty separator. */
  function Split(s: string, sep: string): (r: seq<string>)
    requires sep != ""
    ensures |r| >= 1
    decreases |s|
  {
    var i := Index(s, sep);
    if i < 0 then [s] else [s[..i]] + Split(s[i + |sep|..], sep)
  }

  /** strings.Join. */
  function Join(parts: seq<string>, sep: string): (r: string)
  {
    if |parts| == 0 then ""
    else if |parts| == 1 then parts[0]
    else parts[0] + sep + Join(parts[1..], sep)
  }

  /** Joining what was split gives the original text back. */
  lemma {:induction false} JoinOfSplit(s: string, sep: string)
    requires sep != ""
    ensures Join(Split(s, sep), sep) == s
    decreases |s|
  {
    var i := Index(s, sep);
    if i >= 0 {
      var rest := s[i + |sep|..];
      JoinOfSplit(rest, sep);
      JoinCons(s[..i], Split(rest, sep), sep);
      CutOut(s, i, |sep|);
    }
  }

  lemma CutOut(s: string, i: nat, n: nat)
    requires i + n <= |s|
    ensures s == s[..i] + s[i..i + n] + s[i + n..]
  {
  }

  lemma JoinCons(head: string, tail: seq<string>, sep: string)
    requires |tail| >= 1
    ensures Join([head] + tail, sep) == head + sep + Join(tail, sep)
  {
    assert ([head] + tail)[1..] == tail;
  }

  /** No piece of a split still holds the separator. */
  lemma {:induction false} SplitPieces(s: string, sep: string, p: string)
    requires sep != "" && p in Split(s, sep)
    ensures Index(p, sep) == -1
    decreases |s|
  {
    var i := Index(s, sep);
    if i >= 0 {
      var rest := s[i + |sep|..];
      if p == s[..i] {
        forall k | 0 <= k <= |p| ensures !Occurs(p, sep, k) {
          if Occurs(p, sep, k) {
            assert p[k..] <= s[k..];
            assert Occurs(s, sep, k);
          }
        }
      } else {
        assert p in Split(rest, sep);
        SplitPieces(rest, sep, p);
      }
    }
  }

  /** `sep` cannot be seen in `p + sep + rest` before the place where it was put. */
  predicate Clean(p: string, sep: string)
    requires sep != ""
  {
    forall k :: 0 <= k < |p| ==> !Occurs(p + sep, sep, k)
  }

  lemma CleanIndex(p: string, sep: string, rest: string)
    requires sep != "" && Clean(p, sep)
    ensures Index(p + sep + rest, sep) == |p|
  {
    var s := p + sep + rest;
    assert s[|p|..] == sep + rest;
    forall j | 0 <= j < |p| ensures !Occurs(s, sep, j) {
      assert s[j..][..|sep|] == (p + sep)[j..][..|sep|];
      assert !Occurs(p + sep, sep, j);
    }
    IndexIs(s, sep, |p|);
  }

  lemma SplitCons(p: string, sep: string, rest: string)
    requires sep != "" && Clean(p, sep)
    ensures Split(p + sep + rest, sep) == [p] + Split(rest, sep)
  {
    CleanIndex(p, sep, rest);
    var s := p + sep + rest;
    assert s[..|p|] == p;
    assert s[|p| + |sep|..] == rest;
  }

  /** Splitting what was joined gives the pieces back, when each piece is clean. */
  lemma {:induction false} SplitOfJoin(parts: seq<string>, sep: string)
    requires sep != "" && |parts| >= 1
    requires forall i :: 0 <= i < |parts| - 1 ==> Clean(parts[i], sep)
    requires Index(parts[|parts| - 1], sep) == -1
    ensures Split(Join(parts, sep), sep) == parts
  {
    if |parts| == 1 {
      assert parts == [parts[0]];
    } else {
      TailIsClean(parts, sep);
      SplitOfJoin(parts[1..], sep);
      SplitCons(parts[0], sep, Join(parts[1..], sep));
      assert parts == [parts[0]] + parts[1..];
    }
  }

  lemma TailIsClean(parts: seq<string>, sep: string)
    requires sep != "" && |parts| >= 2
    requires forall i :: 0 <= i < |parts| - 1 ==> Clean(parts[i], sep)
    ensures forall i :: 0 <= i < |parts[1..]| - 1 ==> Clean(parts[1..][i], sep)
    ensures parts[1..][|parts[1..]| - 1] == parts[|parts| - 1]
  {
  }

  /* ---- white space ------------------------------------------------------ */

  predicate TrimmedLeft(s: string, r: string) {
    |r| <= |s| && r == s[|s| - |r|..] && AllSpace(s[..|s| - |r|])
  }

  lemma SuffixOfTail(s: string, r: string)
    requires s != "" && IsSpace(s[0]) && TrimmedLeft(s[1..], r)
    ensures TrimmedLeft(s, r)
  {
    assert s[1..][|s| - 1 - |r|..] == s[|s| - |r|..];
    forall i | 0 <= i < |s| - |r| ensures IsSpace(s[i]) {
      if i > 0 { assert s[1..][..|s| - 1 - |r|][i - 1] == s[i]; }
    }
  }

  function TrimLeft(s: string): (r: string)
    ensures |r| <= |s| && r == s[|s| - |r|..]
    ensures AllSpace(s[..|s| - |r|])
    ensures r == "" || !IsSpace(r[0])
  {
    if s != "" && IsSpace(s[0]) then
      var r := TrimLeft(s[1..]);
      SuffixOfTail(s, r);
      r
    else s
  }

  function TrimRight(s: string): (r: string)
    ensures r <= s
    ensures AllSpace(s[|r|..])
    ensures r == "" || !IsSpace(r[|r| - 1])
  {
    if s != "" && IsSpace(s[|s| - 1]) then TrimRight(s[..|s| - 1]) else s
  }

  /** strings.TrimSpace. */
  function TrimSpace(s: string): (r: string)
    ensures r == "" || (!IsSpace(r[0]) && !IsSpace(r[|r| - 1]))
  {
    TrimRight(TrimLeft(s))
  }

  /** The length of the longest space-free prefix. */
  function TokenLength(s: string): (n: nat)
    ensures n <= |s|
    ensures forall i :: 0 <= i < n ==> !IsSpace(s[i])
    ensures n < |s| ==> IsSpace(s[n])
  {
    if s == "" || IsSpace(s[0]) then 0 else 1 + TokenLength(s[1..])
  }

  /** strings.Fields. */
  function Fields(s: string): (r: seq<string>)
    ensures forall i :: 0 <= i < |r| ==> IsToken(r[i])
    decreases |s|
  {
    if s == "" then []
    else if IsSpace(s[0]) then Fields(s[1..])
    else var n := TokenLength(s); [s[..n]] + Fields(s[n..])
  }

  lemma {:induction false} TokenLengthIs(t: string, rest: string)
    requires IsToken(t) && (rest == "" || IsSpace(rest[0]))
    ensures TokenLength(t + rest) == |t|
  {
    var s := t + rest;
    assert forall i :: 0 <= i < |t| ==> s[i] == t[i];
    if rest != "" { assert s[|t|] == rest[0]; }
  }

  /** A token in front of white space (or of nothing) is the first field. */
  lemma FieldsOfToken(t: string, rest: string)
    requires IsToken(t) && (rest == "" || IsSpace(rest[0]))
    ensures Fields(t + rest) == [t] + Fields(rest)
  {
    TokenLengthIs(t, rest);
    assert (t + rest)[0] == t[0];
    assert (t + rest)[..|t|] == t && (t + rest)[|t|..] == rest;
  }

  /** Leading white space changes no field. */
  lemma {:induction false} FieldsAfterSpace(a: string, b: string)
    requires AllSpace(a)
    ensures Fields(a + b) == Fields(b)
  {
    if a == "" {
      assert a + b == b;
    } else {
      assert (a + b)[1..] == a[1..] + b;
      FieldsAfterSpace(a[1..], b);
    }
  }

  /** Trailing white space changes no field. */
  lemma {:induction false} FieldsBeforeSpace(a: string, b: string)
    requires AllSpace(b)
    ensures Fields(a + b) == Fields(a)
    decreases |a|
  {
    if a == "" {
      assert a + b == b;
      assert b + "" == b;
      FieldsAfterSpace(b, "");
    } else if IsSpace(a[0]) {
      assert (a + b)[1..] == a[1..] + b;
      FieldsBeforeSpace(a[1..], b);
    } else {
      var n := TokenLength(a);
      var t, rest := a[..n], a[n..];
      assert a == t + rest && a + b == t + (rest + b);
      FieldsOfToken(t, rest);
      FieldsOfToken(t, rest + b);
      FieldsBeforeSpace(rest, b);
    }
  }

  /** Trimming changes no field. */
  lemma FieldsOfTrim(s: string)
    ensures Fields(TrimSpace(s)) == Fields(s)
  {
    var l := TrimLeft(s);
    var head := s[..|s| - |l|];
    FieldsAfterSpace(head, l);
    assert s == head + l;
    FieldsOfTrimRight(l);
  }

  lemma FieldsOfTrimRight(s: string)
    ensures Fields(TrimRight(s)) == Fields(s)
  {
    var r := TrimRight(s);
    FieldsBeforeSpace(r, s[|r|..]);
    assert s == r + s[|r|..];
  }

  /** Tokens joined by single spaces come back as the fields. */
  lemma {:induction false} FieldsOfJoin(tokens: seq<string>)
    requires forall i :: 0 <= i < |tokens| ==> IsToken(tokens[i])
    ensures Fields(Join(tokens, " ")) == tokens
  {
    if |tokens| == 0 {
    } else if |tokens| == 1 {
      FieldsOfToken(tokens[0], "");
      assert tokens[0] + "" == tokens[0];
      assert tokens == [tokens[0]] + [];
    } else {
      FieldsOfJoin(tokens[1..]);
      FieldsCons(tokens[0], Join(tokens[1..], " "));
      assert tokens == [tokens[0]] + tokens[1..];
    }
  }

  lemma FieldsCons(t: string, rest: string)
    requires IsToken(t)
    ensures Fields(t + " " + rest) == [t] + Fields(rest)
  {
    FieldsOfToken(t, " " + rest);
    FieldsAfterSpace(" ", rest);
    assert t + " " + rest == t + (" " + rest);
  }
}
