/** Bipartite matching by augmenting paths: the in-place search tryAugment and the
    loop that calls it once per pattern. Patterns and values are indices. */
module Augment {
  import opened Sets


  /** adj[p] lists the values that pattern p may take. */
  ghost predicate Graph(adj: seq<seq<nat>>, n: nat) {
    forall p, k :: 0 <= p < |adj| && 0 <= k < |adj[p]| ==> adj[p][k] < n
  }

  ghost predicate InRange(adj: seq<seq<nat>>, owner: seq<int>) {
    forall v :: 0 <= v < |owner| ==> -1 <= owner[v] < |adj|
  }

  ghost predicate Free(visited: seq<bool>, v: int) {
    0 <= v < |visited| && !visited[v]
  }

  /** On the values still unvisited, `owner` is a matching along edges:
      nobody owns two of them. */
  ghost predicate MatchingOn(adj: seq<seq<nat>>, owner: seq<int>, visited: seq<bool>)
    requires |owner| == |visited| && InRange(adj, owner)
  {
    && (forall v :: Free(visited, v) && owner[v] != -1 ==> v in adj[owner[v]])
    && (forall v, w :: Free(visited, v) && Free(visited, w) && owner[v] == owner[w] != -1 ==> v == w)
  }

  /** The patterns that own an unvisited value. */
  ghost function Owners(owner: seq<int>, visited: seq<bool>): set<int>
    requires |owner| == |visited|
  {
    set v | 0 <= v < |owner| && Free(visited, v) && owner[v] != -1 :: owner[v]
  }

  ghost predicate Grows(before: seq<bool>, after: seq<bool>) {
    |before| == |after| && forall v :: 0 <= v < |before| && before[v] ==> after[v]
  }

  ghost predicate AllVisited(vs: seq<nat>, visited: seq<bool>) {
    forall k :: 0 <= k < |vs| ==> vs[k] < |visited| && visited[vs[k]]
  }

  /** Every newly visited value is owned, and its owner has nothing unvisited left. */
  ghost predicate Closed(adj: seq<seq<nat>>, owner: seq<int>, before: seq<bool>, after: seq<bool>)
    requires |owner| == |before| == |after| && InRange(adj, owner)
  {
    forall v :: Free(before, v) && after[v] ==> owner[v] != -1 && AllVisited(adj[owner[v]], after)
  }

  ghost function Unvisited(visited: seq<bool>): set<int> {
    set v | 0 <= v < |visited| && !visited[v]
  }

  /* ---- what one successful step does ------------------------------------- */

  /** Taking a value nobody owns. */
  lemma TakeFree(adj: seq<seq<nat>>, m: seq<int>, visited: seq<bool>, v: nat, p: nat)
    requires |m| == |visited| && InRange(adj, m) && p < |adj|
    requires MatchingOn(adj, m, visited) && p !in Owners(m, visited)
    requires Free(visited, v) && m[v] == -1 && v in adj[p]
    ensures MatchingOn(adj, m[v := p], visited)
    ensures Owners(m[v := p], visited) == Owners(m, visited) + {p}
  {
    var m' := m[v := p];
    forall u | Free(visited, u) && m[u] != -1 ensures m[u] in Owners(m, visited) {}
    forall q | q in Owners(m, visited) + {p} ensures q in Owners(m', visited) {
      if q == p {
        assert m'[v] == p;
      } else {
        var u :| 0 <= u < |m| && Free(visited, u) && m[u] != -1 && m[u] == q;
        assert m'[u] == q;
      }
    }
  }

  /** Taking value v from its owner, after that owner has found another one among
      the values unvisited at the time of its own search. */
  lemma Reroute(adj: seq<seq<nat>>, m: seq<int>, m1: seq<int>, vis: seq<bool>, vis1: seq<bool>, v: nat, p: nat)
    requires |m| == |m1| == |vis| == |vis1| && InRange(adj, m) && InRange(adj, m1) && p < |adj|
    requires MatchingOn(adj, m, vis) && p !in Owners(m, vis)
    requires Grows(vis, vis1) && Free(vis, v) && vis1[v] && v in adj[p]
    requires m[v] != -1
    requires forall u :: 0 <= u < |m| && vis1[u] ==> m1[u] == m[u]
    requires MatchingOn(adj, m1, vis1) && Owners(m1, vis1) == Owners(m, vis1) + {m[v]}
    ensures MatchingOn(adj, m1[v := p], vis)
    ensures Owners(m1[v := p], vis) == Owners(m, vis) + {p}
  {
    var m2, q := m1[v := p], m[v];
    forall u | Free(vis, u) && m[u] != -1 ensures m[u] in Owners(m, vis) {}
    forall u | Free(vis1, u) && m1[u] != -1 ensures m1[u] in Owners(m, vis1) + {q} && m1[u] in Owners(m, vis) {
      assert m1[u] in Owners(m1, vis1);
    }
    RerouteIsMatching(adj, m, m1, vis, vis1, v, p);
    RerouteOwners(adj, m, m1, vis, vis1, v, p);
  }

  lemma RerouteIsMatching(adj: seq<seq<nat>>, m: seq<int>, m1: seq<int>, vis: seq<bool>, vis1: seq<bool>, v: nat,
      p: nat)
    requires |m| == |m1| == |vis| == |vis1| && InRange(adj, m) && InRange(adj, m1) && p < |adj|
    requires MatchingOn(adj, m, vis) && p !in Owners(m, vis)
    requires Grows(vis, vis1) && Free(vis, v) && vis1[v] && v in adj[p]
    requires m[v] != -1
    requires forall u :: 0 <= u < |m| && vis1[u] ==> m1[u] == m[u]
    requires MatchingOn(adj, m1, vis1)
    requires forall u :: Free(vis1, u) && m1[u] != -1 ==> m1[u] in Owners(m, vis1) + {m[v]} && m1[u] in Owners(m, vis)
    ensures MatchingOn(adj, m1[v := p], vis)
  {
    var m2, q := m1[v := p], m[v];
    forall a, b | Free(vis, a) && Free(vis, b) && a < b && m2[a] != -1 && m2[b] != -1 ensures m2[a] != m2[b] {
      if vis1[a] && vis1[b] {
        if a != v { assert m[a] in Owners(m, vis); }
        if b != v { assert m[b] in Owners(m, vis); }
      } else if !vis1[a] && !vis1[b] {
        assert Free(vis1, a) && Free(vis1, b);
      } else {
        var kept, gained := if vis1[a] then a else b, if vis1[a] then b else a;
        assert Free(vis1, gained);
        if kept != v && m1[gained] != q {
          var u :| 0 <= u < |m| && Free(vis1, u) && m[u] != -1 && m[u] == m1[gained];
          assert Free(vis, u) && u != kept;
        }
      }
    }
    forall a | Free(vis, a) && m2[a] != -1 ensures a in adj[m2[a]] {
      if a != v && !vis1[a] { assert Free(vis1, a); }
    }
  }

  lemma RerouteOwners(adj: seq<seq<nat>>, m: seq<int>, m1: seq<int>, vis: seq<bool>, vis1: seq<bool>, v: nat, p: nat)
    requires |m| == |m1| == |vis| == |vis1| && InRange(adj, m) && InRange(adj, m1) && p < |adj|
    requires Grows(vis, vis1) && Free(vis, v) && vis1[v]
    requires m[v] != -1
    requires forall u :: 0 <= u < |m| && vis1[u] ==> m1[u] == m[u]
    requires Owners(m1, vis1) == Owners(m, vis1) + {m[v]}
    ensures Owners(m1[v := p], vis) == Owners(m, vis) + {p}
  {
    var m2 := m1[v := p];
    forall q | q in Owners(m2, vis) ensures q in Owners(m, vis) + {p} {
      var a :| 0 <= a < |m2| && Free(vis, a) && m2[a] != -1 && m2[a] == q;
      if a != v && !vis1[a] {
        assert Free(vis1, a);
        assert q in Owners(m1, vis1);
        if q != m[v] {
          var u :| 0 <= u < |m| && Free(vis1, u) && m[u] != -1 && m[u] == q;
          assert Free(vis, u);
        }
      }
    }
    forall q | q in Owners(m, vis) + {p} ensures q in Owners(m2, vis) {
      if q == p {
        assert m2[v] == p;
      } else {
        var a :| 0 <= a < |m| && Free(vis, a) && m[a] != -1 && m[a] == q;
        if a == v || !vis1[a] {
          if a != v { assert Free(vis1, a); assert q in Owners(m, vis1); }
          assert q in Owners(m1, vis1);
          var u :| 0 <= u < |m1| && Free(vis1, u) && m1[u] != -1 && m1[u] == q;
          assert Free(vis, u) && m2[u] == q;
        } else {
          assert m2[a] == q;
        }
      }
    }
  }

  /** The function tryAugment. On failure nothing is assigned and the visited values
      form a closed, fully owned set; on success the assignment, restricted to what
      was unvisited at entry, is still a matching, keeps every owner and gains the
      new pattern. */
  method TryAugment(p: nat, adj: seq<seq<nat>>, visited: array<bool>, owner: array<int>) returns (ok: bool)
    requires p < |adj| && visited.Length == owner.Length && Graph(adj, owner.Length)
    requires InRange(adj, owner[..]) && MatchingOn(adj, owner[..], visited[..])
    requires p !in Owners(owner[..], visited[..])
    modifies visited, owner
    ensures InRange(adj, owner[..]) && Grows(old(visited[..]), visited[..])
    ensures !ok ==> owner[..] == old(owner[..])
    ensures !ok ==> AllVisited(adj[p], visited[..]) && Closed(adj, owner[..], old(visited[..]), visited[..])
    ensures ok ==> forall u :: 0 <= u < owner.Length && old(visited[u]) ==> owner[u] == old(owner[u])
    ensures ok ==> MatchingOn(adj, owner[..], old(visited[..]))
    ensures ok ==> Owners(owner[..], old(visited[..])) == Owners(old(owner[..]), old(visited[..])) + {p}
    decreases Unvisited(visited[..])
  {
    ghost var m, vis := owner[..], visited[..];
    var k := 0;
    while k < |adj[p]|
      invariant 0 <= k <= |adj[p]|
      invariant owner[..] == m && Grows(vis, visited[..])
      invariant AllVisited(adj[p][..k], visited[..]) && Closed(adj, m, vis, visited[..])
    {
      var v := adj[p][k];
      assert adj[p][..k + 1] == adj[p][..k] + [v];
      if visited[v] {
        k := k + 1;
        continue;
      }
      ghost var vis0 := visited[..];
      visited[v] := true;
      ghost var vis1 := visited[..];
      assert vis1 == vis0[v := true];
      var taken := owner[v] == -1;
      if !taken {
        OwnerIsFree(adj, m, vis, vis1, v);
        assert v in Unvisited(vis) && v !in Unvisited(vis1) && Unvisited(vis1) <= Unvisited(vis);
        taken := TryAugment(owner[v], adj, visited, owner);
        if !taken {
          ClosedGrows(adj, m, vis, vis0, vis1, visited[..], v);
        }
      }
      if taken {
        ghost var m1 := owner[..];
        assert Free(vis, v) && v in adj[p];
        if m[v] == -1 {
          TakeFree(adj, m, vis, v, p);
        } else {
          Reroute(adj, m, m1, vis, vis1, v, p);
        }
        owner[v] := p;
        assert owner[..] == m1[v := p];
        return true;
      }
      k := k + 1;
    }
    assert adj[p][..k] == adj[p];
    return false;
  }

  /** The owner of a value just marked visited owns nothing else that is unvisited. */
  lemma OwnerIsFree(adj: seq<seq<nat>>, m: seq<int>, vis: seq<bool>, vis1: seq<bool>, v: nat)
    requires |m| == |vis| == |vis1| && InRange(adj, m) && MatchingOn(adj, m, vis)
    requires Grows(vis, vis1) && Free(vis, v) && vis1[v] && m[v] != -1
    ensures MatchingOn(adj, m, vis1) && m[v] !in Owners(m, vis1)
  {
    assert forall u :: Free(vis1, u) ==> Free(vis, u);
  }

  lemma ClosedGrows(adj: seq<seq<nat>>, m: seq<int>, vis: seq<bool>, vis0: seq<bool>, vis1: seq<bool>,
      vis2: seq<bool>, v: nat)
    requires |m| == |vis| == |vis0| == |vis1| == |vis2| && InRange(adj, m)
    requires Grows(vis, vis0) && Free(vis0, v) && vis1 == vis0[v := true] && Grows(vis1, vis2)
    requires Closed(adj, m, vis, vis0) && Closed(adj, m, vis1, vis2)
    requires m[v] != -1 && AllVisited(adj[m[v]], vis2)
    ensures Closed(adj, m, vis, vis2)
  {
    forall u | Free(vis, u) && vis2[u] ensures m[u] != -1 && AllVisited(adj[m[u]], vis2) {
      if u != v && !vis0[u] {
        assert Free(vis1, u);
      }
    }
  }

  /* ---- perfect assignments ---------------------------------------------- */

  /** f gives every pattern a value of its own along an edge. */
  ghost predicate Perfect(adj: seq<seq<nat>>, f: seq<nat>) {
    && |f| == |adj|
    && (forall p :: 0 <= p < |f| ==> f[p] in adj[p])
    && (forall p, q :: 0 <= p < q < |f| ==> f[p] != f[q])
  }

  ghost function Image(g: seq<int>, s: set<int>): set<int>
    requires forall x :: x in s ==> 0 <= x < |g|
  {
    set x | x in s :: g[x]
  }

  lemma {:induction false} ImageSize(g: seq<int>, s: set<int>)
    requires forall x :: x in s ==> 0 <= x < |g|
    requires forall x, y :: x in s && y in s && g[x] == g[y] ==> x == y
    ensures |Image(g, s)| == |s|
    decreases |s|
  {
    if s != {} {
      var x := Member(s);
      ImageSize(g, s - {x});
      assert Image(g, s) == Image(g, s - {x}) + {g[x]};
      assert g[x] !in Image(g, s - {x});
    }
  }

  /** Hall's obstruction, read off the visited array: the patterns that own the
      visited values, together with the one that failed, are one more than the
      values they could take. */
  lemma FailureRefutesAll(adj: seq<seq<nat>>, m: seq<int>, none: seq<bool>, visited: seq<bool>, p: nat, f: seq<nat>)
    requires |m| == |none| == |visited| && p < |adj| && InRange(adj, m)
    requires forall v :: 0 <= v < |none| ==> !none[v]
    requires MatchingOn(adj, m, none) && p !in Owners(m, none)
    requires AllVisited(adj[p], visited) && Closed(adj, m, none, visited)
    ensures !Perfect(adj, f)
  {
    if Perfect(adj, f) {
      var w := set v | 0 <= v < |visited| && visited[v];
      var owners := Image(m, w);
      forall v | v in w ensures Free(none, v) && m[v] != -1 && AllVisited(adj[m[v]], visited)
          && m[v] in Owners(m, none) {
        assert Free(none, v);
      }
      ImageSize(m, w);
      assert p !in owners;
      forall v | v in w ensures 0 <= m[v] < |adj| && AllVisited(adj[m[v]], visited) {}
      OnePatternTooMany(adj, visited, f, m, w, p);
    }
  }

  /** The owners of the visited values and p find room only among those values. */
  lemma OnePatternTooMany(adj: seq<seq<nat>>, visited: seq<bool>, f: seq<nat>, m: seq<int>, w: set<int>, p: nat)
    requires Perfect(adj, f) && p < |adj| && AllVisited(adj[p], visited)
    requires forall v :: v in w <==> 0 <= v < |visited| && visited[v]
    requires |m| == |visited| && p !in Image(m, w)
    requires forall v :: v in w ==> 0 <= m[v] < |adj| && AllVisited(adj[m[v]], visited)
    ensures |Image(m, w)| < |w|
  {
    var x := Image(m, w) + {p};
    forall q | q in x ensures 0 <= q < |f| && f[q] in w {
      if q == p {
        assert f[p] in adj[p];
      } else {
        var v :| v in w && m[v] == q;
        assert f[q] in adj[m[v]];
      }
    }
    ImageSize(f, x);
    assert Image(f, x) <= w;
    SubsetSize(Image(f, x), w);
  }

  /** When every pattern owns a value, the owners array read backwards is a perfect
      assignment. */
  lemma OwnersGivePerfect(adj: seq<seq<nat>>, m: seq<int>, none: seq<bool>) returns (f: seq<nat>)
    requires |m| == |none| && InRange(adj, m) && Graph(adj, |m|)
    requires MatchingOn(adj, m, none)
    requires forall p :: 0 <= p < |adj| ==> p in Owners(m, none)
    ensures Perfect(adj, f)
  {
    f := [];
    while |f| < |adj|
      invariant |f| <= |adj|
      invariant forall p :: 0 <= p < |f| ==> Free(none, f[p]) && m[f[p]] == p
    {
      var p := |f|;
      assert p in Owners(m, none);
      var v :| 0 <= v < |m| && Free(none, v) && m[v] != -1 && m[v] == p;
      f := f + [v];
    }
    assert forall p :: 0 <= p < |f| ==> f[p] in adj[m[f[p]]];
  }

  /** The assignment loop of matchRecords: it succeeds exactly when some perfect
      assignment exists. */
  method AssignAll(adj: seq<seq<nat>>, n: nat) returns (ok: bool)
    requires Graph(adj, n)
    ensures ok <==> exists f :: Perfect(adj, f)
  {
    var owner := new int[n](_ => -1);
    ghost var none: seq<bool> := seq(n, _ => false);
    var p := 0;
    assert Owners(owner[..], none) == {};
    while p < |adj|
      invariant 0 <= p <= |adj|
      invariant InRange(adj, owner[..]) && MatchingOn(adj, owner[..], none)
      invariant forall q :: q in Owners(owner[..], none) <==> 0 <= q < p
    {
      var visited := new bool[n](_ => false);
      assert visited[..] == none;
      var found := TryAugment(p, adj, visited, owner);
      if !found {
        forall f: seq<nat> ensures !Perfect(adj, f) {
          FailureRefutesAll(adj, owner[..], none, visited[..], p, f);
        }
        return false;
      }
      p := p + 1;
    }
    ghost var f := OwnersGivePerfect(adj, owner[..], none);
    return true;
  }
}
