/** matchRecords: does each pattern match exactly one record, no matter the order? */
module Matching {
  import opened Text
  import opened Glob
  import opened Augment
  import opened Sets

  /* ---- the meaning ------------------------------------------------------ */

  /** f maps the patterns one to one onto the values. */
  ghost predicate Bijection(f: seq<nat>, n: nat) {
    && |f| == n
    && (forall i :: 0 <= i < n ==> f[i] < n)
    && (forall i, j :: 0 <= i < j < n ==> f[i] != f[j])
  }

  ghost predicate RecordsMatchBy(patterns: seq<string>, values: seq<string>, f: seq<nat>) {
    && |patterns| == |values| && Bijection(f, |values|)
    && forall i :: 0 <= i < |patterns| ==> MeansAnyCase(patterns[i], values[f[i]])
  }

  lemma MatchedLowered(patterns: seq<string>, values: seq<string>, f: seq<nat>)
    requires |patterns| == |values| && Bijection(f, |values|)
    ensures RecordsMatchBy(patterns, values, f) <==>
            forall i :: 0 <= i < |patterns| ==> Means(ToLower(patterns[i]), ToLower(values[f[i]]))
  {
    forall i | 0 <= i < |patterns|
      ensures MeansAnyCase(patterns[i], values[f[i]]) <==> Means(ToLower(patterns[i]), ToLower(values[f[i]]))
    {
      AnyCase(patterns[i], values[f[i]]);
    }
  }

  /** Some one-to-one pairing of patterns and values has every pattern match its
      value, letter case ignored. */
  ghost predicate RecordsMatch(patterns: seq<string>, values: seq<string>) {
    exists f :: RecordsMatchBy(patterns, values, f)
  }

  /* ---- the same meaning without indices --------------------------------- */

  function Lowered(ss: seq<string>): (r: seq<string>)
    ensures |r| == |ss|
    ensures forall i :: 0 <= i < |ss| ==> r[i] == ToLower(ss[i])
  {
    seq(|ss|, i requires 0 <= i < |ss| => ToLower(ss[i]))
  }

  /** vs is an arrangement of the values that matches the patterns place by place. */
  ghost predicate ArrangedBy(patterns: seq<string>, values: multiset<string>, vs: seq<string>) {
    && multiset(vs) == values && |vs| == |patterns|
    && forall i :: 0 <= i < |vs| ==> Means(patterns[i], vs[i])
  }

  ghost predicate Arrangeable(patterns: seq<string>, values: multiset<string>) {
    exists vs :: ArrangedBy(patterns, values, vs)
  }

  /* ---- sequences, one place at a time ------------------------------------- */

  function Without<T>(s: seq<T>, j: nat): (r: seq<T>)
    requires j < |s|
    ensures |r| == |s| - 1
    ensures forall k :: 0 <= k < |r| ==> r[k] == if k < j then s[k] else s[k + 1]
  {
    s[..j] + s[j + 1..]
  }

  lemma WithoutMultiset(s: seq<string>, j: nat)
    requires j < |s|
    ensures multiset(s) == multiset(Without(s, j)) + multiset{s[j]}
  {
    assert s == s[..j] + [s[j]] + s[j + 1..];
  }

  function Insert(s: seq<string>, k: nat, x: string): (r: seq<string>)
    requires k <= |s|
    ensures |r| == |s| + 1 && r[k] == x && Without(r, k) == s
  {
    s[..k] + [x] + s[k..]
  }

  lemma CancelOne(a: multiset<string>, b: multiset<string>, x: string)
    requires a + multiset{x} == b + multiset{x}
    ensures a == b
  {
    assert a == (a + multiset{x}) - multiset{x};
    assert b == (b + multiset{x}) - multiset{x};
  }

  lemma AddBack(a: multiset<string>, x: string)
    ensures x in a ==> (a - multiset{x}) + multiset{x} == a
    ensures (a + multiset{x}) - multiset{x} == a
  {
  }

  function At(values: seq<string>, f: seq<nat>): (vs: seq<string>)
    requires forall i :: 0 <= i < |f| ==> f[i] < |values|
    ensures |vs| == |f|
    ensures forall i :: 0 <= i < |f| ==> vs[i] == values[f[i]]
  {
    seq(|f|, i requires 0 <= i < |f| => values[f[i]])
  }

  /** Index k once index j is gone, and the way back. */
  function Shrink(k: nat, j: nat): nat
    requires k != j
  {
    if k < j then k else k - 1
  }

  function Grow(k: nat, j: nat): nat {
    if k < j then k else k + 1
  }

  function ShrinkAll(f: seq<nat>): (r: seq<nat>)
    requires |f| > 0 && Bijection(f, |f|)
    ensures Bijection(r, |f| - 1)
    ensures forall i :: 0 <= i < |f| - 1 ==> f[i] != f[|f| - 1] && r[i] == Shrink(f[i], f[|f| - 1])
  {
    var n := |f| - 1;
    assert forall i :: 0 <= i < n ==> f[i] != f[n];
    seq(n, i requires 0 <= i < n => Shrink(f[i], f[n]))
  }

  function GrowAll(f: seq<nat>, j: nat): (r: seq<nat>)
    requires Bijection(f, |f|) && j <= |f|
    ensures Bijection(r, |f| + 1) && r[|f|] == j
    ensures forall i :: 0 <= i < |f| ==> r[i] == Grow(f[i], j)
  {
    seq(|f|, i requires 0 <= i < |f| => Grow(f[i], j)) + [j]
  }

  lemma OneMoreOnBoth(a: seq<string>, a': seq<string>, b: seq<string>, b': seq<string>, x: string)
    requires a == a' + [x] && multiset(b) == multiset(b') + multiset{x} && multiset(a') == multiset(b')
    ensures multiset(a) == multiset(b)
  {
    assert multiset(a' + [x]) == multiset(a') + multiset{x};
  }

  lemma AtWithout(values: seq<string>, f: seq<nat>)
    requires |values| > 0 && Bijection(f, |values|)
    ensures var j := f[|f| - 1];
            At(values, f) == At(Without(values, j), ShrinkAll(f)) + [values[j]]
  {
    var n, j, f' := |f| - 1, f[|f| - 1], ShrinkAll(f);
    forall i | 0 <= i < n ensures values[f[i]] == Without(values, j)[f'[i]] {
    }
  }

  lemma LastOfBijection(values: seq<string>, f: seq<nat>)
    requires |values| > 0 && Bijection(f, |values|)
    requires multiset(At(Without(values, f[|f| - 1]), ShrinkAll(f))) == multiset(Without(values, f[|f| - 1]))
    ensures multiset(At(values, f)) == multiset(values)
  {
    var j, f' := f[|f| - 1], ShrinkAll(f);
    AtWithout(values, f);
    WithoutMultiset(values, j);
    OneMoreOnBoth(At(values, f), At(Without(values, j), f'), values, Without(values, j), values[j]);
  }

  /** Reading the values through a bijection only rearranges them. */
  lemma {:induction false} BijectionRearranges(values: seq<string>, f: seq<nat>)
    requires Bijection(f, |values|)
    ensures multiset(At(values, f)) == multiset(values)
    decreases |values|
  {
    if |values| > 0 {
      var n := |values| - 1;
      BijectionRearranges(Without(values, f[n]), ShrinkAll(f));
      LastOfBijection(values, f);
    }
  }

  /** Every rearrangement is read through some bijection. */
  lemma {:induction false} RearrangementHasBijection(values: seq<string>, vs: seq<string>) returns (f: seq<nat>)
    requires multiset(vs) == multiset(values)
    ensures |vs| == |values| && Bijection(f, |values|) && vs == At(values, f)
    decreases |vs|
  {
    SameMultisetSameSize(vs, values);
    if |vs| == 0 {
      f := [];
    } else {
      var n := |vs| - 1;
      var j := FindLast(values, vs);
      var f' := RearrangementHasBijection(Without(values, j), Without(vs, n));
      f := GrowAll(f', j);
      forall i | 0 <= i < n ensures vs[i] == values[f[i]] {
        assert vs[i] == Without(vs, n)[i] == Without(values, j)[f'[i]];
      }
    }
  }

  lemma FindLast(values: seq<string>, vs: seq<string>) returns (j: nat)
    requires |vs| > 0 && multiset(vs) == multiset(values)
    ensures j < |values| && values[j] == vs[|vs| - 1]
    ensures multiset(Without(vs, |vs| - 1)) == multiset(Without(values, j))
  {
    assert vs[|vs| - 1] in multiset(values);
    j :| 0 <= j < |values| && values[j] == vs[|vs| - 1];
    SameWithout(vs, |vs| - 1, values, j);
  }

  lemma SameWithout(a: seq<string>, i: nat, b: seq<string>, j: nat)
    requires i < |a| && j < |b| && a[i] == b[j] && multiset(a) == multiset(b)
    ensures multiset(Without(a, i)) == multiset(Without(b, j))
  {
    WithoutMultiset(a, i);
    WithoutMultiset(b, j);
    CancelOne(multiset(Without(a, i)), multiset(Without(b, j)), b[j]);
  }

  lemma SameMultisetSameSize(a: seq<string>, b: seq<string>)
    requires multiset(a) == multiset(b)
    ensures |a| == |b|
  {
    assert |a| == |multiset(a)| == |multiset(b)| == |b|;
  }

  /** The two readings agree. */
  lemma MatchIsArrangement(patterns: seq<string>, values: seq<string>)
    ensures RecordsMatch(patterns, values) <==> Arrangeable(Lowered(patterns), multiset(Lowered(values)))
  {
    var ps, vals := Lowered(patterns), Lowered(values);
    if RecordsMatch(patterns, values) {
      var f :| RecordsMatchBy(patterns, values, f);
      MatchedLowered(patterns, values, f);
      BijectionRearranges(vals, f);
      assert ArrangedBy(ps, multiset(vals), At(vals, f));
    }
    if Arrangeable(ps, multiset(vals)) {
      var vs :| ArrangedBy(ps, multiset(vals), vs);
      var f := RearrangementHasBijection(vals, vs);
      MatchedLowered(patterns, values, f);
    }
  }

  /** Neither the order of the patterns nor that of the values matters. */
  lemma OrderIrrelevant(p: seq<string>, q: seq<string>, v: seq<string>, w: seq<string>)
    requires multiset(p) == multiset(q) && multiset(v) == multiset(w)
    ensures RecordsMatch(p, v) <==> RecordsMatch(q, w)
  {
    if RecordsMatch(p, v) { OrderIrrelevantOneWay(p, q, v, w); }
    if RecordsMatch(q, w) { OrderIrrelevantOneWay(q, p, w, v); }
  }

  lemma OrderIrrelevantOneWay(p: seq<string>, q: seq<string>, v: seq<string>, w: seq<string>)
    requires multiset(p) == multiset(q) && multiset(v) == multiset(w)
    requires RecordsMatch(p, v)
    ensures RecordsMatch(q, w)
  {
    var f :| RecordsMatchBy(p, v, f);
    var vs := At(v, f);                       // vs[i] is matched by p[i]
    var g := RearrangementHasBijection(p, q); // q[i] == p[g[i]]
    var vs' := At(vs, g);                     // vs'[i] is matched by q[i]
    BijectionRearranges(v, f);
    BijectionRearranges(vs, g);
    var h := RearrangementHasBijection(w, vs');
    assert forall i :: 0 <= i < |q| ==> vs'[i] == vs[g[i]] == v[f[g[i]]];
    assert RecordsMatchBy(q, w, h);
  }

  /* ---- phase 1: exact patterns first ---------------------------------------- */

  /** An exact pattern takes one copy of its own text, or nothing can match. The
      patterns around it are free to match what is left. */
  lemma TakeExact(all: seq<string>, k: nat, values: multiset<string>)
    requires k < |all| && NoStar(all[k])
    ensures Arrangeable(all, values)
            <==> all[k] in values && Arrangeable(Without(all, k), values - multiset{all[k]})
  {
    if vs :| ArrangedBy(all, values, vs) {
      GetExact(all, k, values, vs);
    }
    if all[k] in values && Arrangeable(Without(all, k), values - multiset{all[k]}) {
      var vs :| ArrangedBy(Without(all, k), values - multiset{all[k]}, vs);
      PutExact(all, k, values, vs);
    }
  }

  lemma WithoutMeans(all: seq<string>, k: nat, vs: seq<string>)
    requires k < |all| == |vs| && forall i :: 0 <= i < |all| ==> Means(all[i], vs[i])
    ensures ArrangedBy(Without(all, k), multiset(Without(vs, k)), Without(vs, k))
  {
  }

  lemma GetExact(all: seq<string>, k: nat, values: multiset<string>, vs: seq<string>)
    requires k < |all| && NoStar(all[k]) && ArrangedBy(all, values, vs)
    ensures all[k] in values && Arrangeable(Without(all, k), values - multiset{all[k]})
  {
    ExactMeans(all[k], vs[k]);
    assert all[k] in multiset(vs);
    WithoutMultiset(vs, k);
    AddBack(multiset(Without(vs, k)), all[k]);
    assert multiset(Without(vs, k)) == values - multiset{all[k]};
    WithoutMeans(all, k, vs);
  }

  lemma PutExact(all: seq<string>, k: nat, values: multiset<string>, vs: seq<string>)
    requires k < |all| && NoStar(all[k]) && all[k] in values
    requires ArrangedBy(Without(all, k), values - multiset{all[k]}, vs)
    ensures Arrangeable(all, values)
  {
    var vs' := Insert(vs, k, all[k]);
    WithoutMultiset(vs', k);
    AddBack(values, all[k]);
    PutMeans(all, k, vs, vs');
    assert ArrangedBy(all, values, vs');
  }

  lemma PutMeans(all: seq<string>, k: nat, vs: seq<string>, vs': seq<string>)
    requires k < |all| == |vs'| && NoStar(all[k]) && vs'[k] == all[k] && Without(vs', k) == vs
    requires forall i :: 0 <= i < |vs| ==> Means(Without(all, k)[i], vs[i])
    ensures forall i :: 0 <= i < |vs'| ==> Means(all[i], vs'[i])
  {
    ExactMeans(all[k], all[k]);
    forall i | 0 <= i < |vs'| && i != k ensures Means(all[i], vs'[i]) {
      assert Means(Without(all, k)[Shrink(i, k)], vs[Shrink(i, k)]);
    }
  }

  /** The two ways one turn of the phase 1 loop can go. */
  lemma ExactTurn(globs: seq<string>, ps: seq<string>, i: nat, left: multiset<string>)
    requires i < |ps| && NoStar(ps[i])
    ensures Arrangeable(globs + ps[i..], left)
            <==> ps[i] in left && Arrangeable(globs + ps[i + 1..], left - multiset{ps[i]})
  {
    TakeExact(globs + ps[i..], |globs|, left);
    assert Without(globs + ps[i..], |globs|) == globs + ps[i + 1..];
  }

  lemma GlobTurn(globs: seq<string>, ps: seq<string>, i: nat)
    requires i < |ps|
    ensures globs + ps[i..] == (globs + [ps[i]]) + ps[i + 1..]
  {
  }

  /** The Go map from value to count holds this multiset; a missing key counts 0. */
  ghost predicate Counts(counts: map<string, nat>, values: multiset<string>) {
    forall v :: values[v] == Count(counts, v)
  }

  function Count(counts: map<string, nat>, v: string): nat {
    if v in counts then counts[v] else 0
  }

  lemma TakeOne(counts: map<string, nat>, values: multiset<string>, v: string)
    requires Counts(counts, values) && Count(counts, v) > 0
    ensures Counts(counts[v := (Count(counts, v) - 1) as nat], values - multiset{v})
    ensures |values - multiset{v}| == |values| - 1
  {
  }

  method CountValues(values: seq<string>) returns (counts: map<string, nat>)
    ensures Counts(counts, multiset(Lowered(values)))
  {
    counts := map[];
    var i := 0;
    while i < |values|
      invariant 0 <= i <= |values|
      invariant Counts(counts, multiset(Lowered(values)[..i]))
    {
      assert Lowered(values)[..i + 1] == Lowered(values)[..i] + [ToLower(values[i])];
      var value := ToLower(values[i]);
      counts := counts[value := Count(counts, value) + 1];
      i := i + 1;
    }
    assert Lowered(values)[..i] == Lowered(values);
  }

  /** What holds before turn i of the phase 1 loop. `goal` says whether all the
      patterns can be arranged over all the values. */
  ghost predicate Phase1(goal: bool, ps: seq<string>, i: nat, globs: seq<string>,
                         counts: map<string, nat>, values: multiset<string>, left: multiset<string>)
    requires i <= |ps|
  {
    && Counts(counts, left) && left <= values
    && |left| == |globs| + |ps| - i
    && (forall k :: 0 <= k < |globs| ==> ToLower(globs[k]) == globs[k])
    && (goal <==> Arrangeable(globs + ps[i..], left))
  }

  lemma ExactStep(goal: bool, ps: seq<string>, i: nat, globs: seq<string>,
                  counts: map<string, nat>, values: multiset<string>, left: multiset<string>)
    requires i < |ps| && Phase1(goal, ps, i, globs, counts, values, left) && NoStar(ps[i])
    ensures Count(counts, ps[i]) == 0 ==> !goal
    ensures Count(counts, ps[i]) > 0 ==>
              Phase1(goal, ps, i + 1, globs, counts[ps[i] := (Count(counts, ps[i]) - 1) as nat], values,
                     left - multiset{ps[i]})
  {
    ExactTurn(globs, ps, i, left);
    if Count(counts, ps[i]) > 0 {
      TakeOne(counts, left, ps[i]);
    }
  }

  lemma GlobStep(goal: bool, ps: seq<string>, i: nat, globs: seq<string>,
                 counts: map<string, nat>, values: multiset<string>, left: multiset<string>)
    requires i < |ps| && Phase1(goal, ps, i, globs, counts, values, left) && ToLower(ps[i]) == ps[i]
    ensures Phase1(goal, ps, i + 1, globs + [ps[i]], counts, values, left)
  {
    GlobTurn(globs, ps, i);
  }

  lemma Phase1Starts(ps: seq<string>, counts: map<string, nat>, values: multiset<string>)
    requires Counts(counts, values) && |values| == |ps|
    ensures Phase1(Arrangeable(ps, values), ps, 0, [], counts, values, values)
  {
    assert [] + ps[0..] == ps;
  }

  lemma Phase1Ends(goal: bool, ps: seq<string>, globs: seq<string>,
                   counts: map<string, nat>, values: multiset<string>, left: multiset<string>)
    requires Phase1(goal, ps, |ps|, globs, counts, values, left)
    ensures Counts(counts, left) && left <= values && |left| == |globs| && (goal <==> Arrangeable(globs, left))
    ensures forall k :: 0 <= k < |globs| ==> ToLower(globs[k]) == globs[k]
  {
    assert globs + ps[|ps|..] == globs;
  }

  /** Phase 1. The globs left over have a match among the values left over exactly
      when all patterns had one among all values; and the sizes agree, so the later
      size guard never decides anything. */
  method ConsumeExact(patterns: seq<string>, initial: map<string, nat>, ghost values: multiset<string>)
    returns (ok: bool, globs: seq<string>, counts: map<string, nat>, ghost left: multiset<string>)
    requires Counts(initial, values) && |values| == |patterns|
    ensures !ok ==> !Arrangeable(Lowered(patterns), values)
    ensures ok ==> Phase1(Arrangeable(Lowered(patterns), values), Lowered(patterns), |patterns|, globs, counts,
        values, left)
  {
    globs, counts, left := [], initial, values;
    ghost var ps := Lowered(patterns);
    ghost var goal := Arrangeable(ps, values);
    Phase1Starts(ps, counts, values);
    var i := 0;
    while i < |patterns|
      invariant 0 <= i <= |patterns|
      invariant Phase1(goal, ps, i, globs, counts, values, left)
    {
      ok, globs, counts, left := ConsumeNext(patterns[i], goal, ps, i, globs, counts, values, left);
      if !ok {
        return false, globs, counts, left;
      }
      i := i + 1;
    }
    return true, globs, counts, left;
  }

  /** One turn of that loop: an exact pattern takes one copy of its text, if there is one
      left; a glob is put aside. */
  method ConsumeNext(original: string, ghost goal: bool, ghost ps: seq<string>, ghost i: nat,
                     globs: seq<string>, counts: map<string, nat>, ghost values: multiset<string>,
                         ghost left: multiset<string>)
    returns (ok: bool, globs': seq<string>, counts': map<string, nat>, ghost left': multiset<string>)
    requires i < |ps| && ps[i] == ToLower(original) && Phase1(goal, ps, i, globs, counts, values, left)
    ensures !ok ==> !goal
    ensures ok ==> Phase1(goal, ps, i + 1, globs', counts', values, left')
  {
    ok, globs', counts', left' := true, globs, counts, left;
    var pattern := ToLower(original);
    if '*' !in pattern {
      ExactStep(goal, ps, i, globs, counts, values, left);
      if Count(counts, pattern) == 0 {
        ok := false;
      } else {
        counts' := counts[pattern := Count(counts, pattern) - 1];
        left' := left - multiset{pattern};
      }
    } else {
      ToLowerIdempotent(original);
      GlobStep(goal, ps, i, globs, counts, values, left);
      globs' := globs + [pattern];
    }
  }

  /* ---- phase 2: the values that remain ---------------------------------------- */

  /** Phase 2, in whatever order the map yields its keys. */
  method RemainingValues(counts: map<string, nat>, ghost left: multiset<string>) returns (remaining: seq<string>)
    requires Counts(counts, left)
    ensures multiset(remaining) == left
  {
    remaining := [];
    var todo := counts.Keys;
    while todo != {}
      invariant todo <= counts.Keys
      invariant forall v :: multiset(remaining)[v] == if v in todo then 0 else left[v]
      decreases todo
    {
      ghost var some := Member(todo);
      var value :| value in todo;
      var count := counts[value];
      ghost var before := multiset(remaining);
      while count > 0
        invariant 0 <= count <= counts[value]
        invariant multiset(remaining) == before[value := (counts[value] - count) as nat]
      {
        remaining := remaining + [value];
        count := count - 1;
      }
      todo := todo - {value};
    }
  }

  /* ---- phase 3: globs to values ------------------------------------------------ */

  /** The indices of the values that one glob matches. */
  ghost predicate Row(glob: string, values: seq<string>, row: seq<nat>) {
    && (forall k :: 0 <= k < |row| ==> row[k] < |values| && Means(glob, values[row[k]]))
    && (forall j :: 0 <= j < |values| && Means(glob, values[j]) ==> j in row)
  }

  ghost predicate Edges(globs: seq<string>, values: seq<string>, adj: seq<seq<nat>>) {
    && |adj| == |globs|
    && forall i :: 0 <= i < |globs| ==> Row(globs[i], values, adj[i])
  }

  lemma PerfectIsArrangement(globs: seq<string>, values: seq<string>, adj: seq<seq<nat>>)
    requires |globs| == |values| && Edges(globs, values, adj)
    ensures (exists f :: Perfect(adj, f)) <==> Arrangeable(globs, multiset(values))
  {
    if f :| Perfect(adj, f) {
      forall i | 0 <= i < |f| ensures f[i] < |values| && Means(globs[i], values[f[i]]) {
        assert Row(globs[i], values, adj[i]) && f[i] in adj[i];
      }
      BijectionRearranges(values, f);
      assert ArrangedBy(globs, multiset(values), At(values, f));
    }
    if Arrangeable(globs, multiset(values)) {
      var vs :| ArrangedBy(globs, multiset(values), vs);
      var f := RearrangementHasBijection(values, vs);
      forall i | 0 <= i < |f| ensures f[i] in adj[i] {
        assert Row(globs[i], values, adj[i]) && Means(globs[i], values[f[i]]);
      }
      assert Perfect(adj, f);
    }
  }

  lemma ArrangementSize(globs: seq<string>, values: seq<string>)
    requires Arrangeable(globs, multiset(values))
    ensures |globs| == |values|
  {
    var vs :| ArrangedBy(globs, multiset(values), vs);
    assert |vs| == |multiset(vs)| == |multiset(values)| == |values|;
  }

  /** One row of the adjacency lists; globMatch lowers both sides once more. */
  method Neighbours(glob: string, values: seq<string>) returns (row: seq<nat>)
    requires ToLower(glob) == glob && forall j :: 0 <= j < |values| ==> ToLower(values[j]) == values[j]
    ensures Row(glob, values, row)
  {
    row := [];
    var j := 0;
    while j < |values|
      invariant 0 <= j <= |values|
      invariant Row(glob, values[..j], row)
    {
      var matched := GlobMatch(glob, values[j]);
      if matched {
        row := row + [j];
      }
      j := j + 1;
    }
    assert values[..j] == values;
  }

  /** Lines 109 to 138: the size guard, the adjacency lists, the assignment. */
  method MatchGlobs(globs: seq<string>, values: seq<string>) returns (ok: bool)
    requires forall i :: 0 <= i < |globs| ==> ToLower(globs[i]) == globs[i]
    requires forall j :: 0 <= j < |values| ==> ToLower(values[j]) == values[j]
    ensures ok <==> Arrangeable(globs, multiset(values))
  {
    if |values| != |globs| {
      if Arrangeable(globs, multiset(values)) { ArrangementSize(globs, values); }
      return false;
    }
    var adj: seq<seq<nat>> := [];
    while |adj| < |globs|
      invariant |adj| <= |globs|
      invariant Edges(globs[..|adj|], values, adj)
    {
      var row := Neighbours(globs[|adj|], values);
      if |row| == 0 {
        if Arrangeable(globs, multiset(values)) {
          NoNeighbour(globs, values, |adj|);
        }
        return false;
      }
      adj := adj + [row];
    }
    assert globs[..|adj|] == globs;
    PerfectIsArrangement(globs, values, adj);
    assert forall p :: 0 <= p < |adj| ==> Row(globs[p], values, adj[p]);
    ok := AssignAll(adj, |values|);
  }

  lemma NoNeighbour(globs: seq<string>, values: seq<string>, i: nat)
    requires i < |globs| && Arrangeable(globs, multiset(values))
    ensures exists j :: 0 <= j < |values| && Means(globs[i], values[j])
  {
    var vs :| ArrangedBy(globs, multiset(values), vs);
    var f := RearrangementHasBijection(values, vs);
    assert Means(globs[i], values[f[i]]);
  }

  /* ---- the whole procedure ------------------------------------------------------- */

  lemma EmptyArrangement(left: multiset<string>)
    requires |left| == 0
    ensures Arrangeable([], left)
  {
    assert left == multiset{};
    assert ArrangedBy([], left, []);
  }

  lemma LoweredStays(values: seq<string>, v: string)
    requires v in multiset(Lowered(values))
    ensures ToLower(v) == v
  {
    var i :| 0 <= i < |values| && Lowered(values)[i] == v;
    ToLowerIdempotent(values[i]);
  }

  lemma SizesDecide(patterns: seq<string>, values: seq<string>)
    ensures RecordsMatch(patterns, values) ==> |patterns| == |values|
    ensures |patterns| == |values| == 0 ==> RecordsMatch(patterns, values)
  {
    if |patterns| == |values| == 0 {
      assert RecordsMatchBy(patterns, values, []);
    }
  }

  /** The function matchRecords: true exactly when a bijection exists. */
  method MatchRecords(patterns: seq<string>, values: seq<string>) returns (matched: bool)
    ensures matched <==> RecordsMatch(patterns, values)
  {
    SizesDecide(patterns, values);
    if |patterns| != |values| {
      return false;
    }
    if |patterns| == 0 && |values| == 0 {
      return true;
    }
    MatchIsArrangement(patterns, values);
    var counts := CountValues(values);
    var ok, globs, rest;
    ghost var left;
    ok, globs, rest, left := ConsumeExact(patterns, counts, multiset(Lowered(values)));
    if !ok {
      return false;
    }
    Phase1Ends(Arrangeable(Lowered(patterns), multiset(Lowered(values))), Lowered(patterns), globs, rest,
               multiset(Lowered(values)), left);
    if |globs| == 0 {
      EmptyArrangement(left);
      return true;
    }
    var remaining := RemainingValues(rest, left);
    forall j | 0 <= j < |remaining| ensures ToLower(remaining[j]) == remaining[j] {
      assert remaining[j] in multiset(remaining);
      LoweredStays(values, remaining[j]);
    }
    matched := MatchGlobs(globs, remaining);
  }
}
