/** Finite sums over indices, and the multisets they are taken over. */
module Sums {

  ghost function Sum(n: nat, f: nat -> int): int {
    if n == 0 then 0 else Sum(n - 1, f) + f(n - 1)
  }

  lemma {:induction false} SumEqual(n: nat, f: nat -> int, g: nat -> int)
    requires forall i: nat :: i < n ==> f(i) == g(i)
    ensures Sum(n, f) == Sum(n, g)
  {
    if n > 0 { SumEqual(n - 1, f, g); }
  }

  /** Changing one term changes the sum by as much. */
  lemma {:induction false} SumChange(n: nat, f: nat -> int, g: nat -> int, j: nat)
    requires j < n && forall i: nat :: i < n && i != j ==> f(i) == g(i)
    ensures Sum(n, g) == Sum(n, f) - f(j) + g(j)
  {
    if j == n - 1 { SumEqual(n - 1, f, g); } else { SumChange(n - 1, f, g, j); }
  }

  lemma {:induction false} SumBounds(n: nat, f: nat -> int, lo: int, hi: int)
    requires forall i: nat :: i < n ==> lo <= f(i) <= hi
    ensures n * lo <= Sum(n, f) <= n * hi
  {
    if n > 0 {
      SumBounds(n - 1, f, lo, hi);
      assert n * lo == (n - 1) * lo + lo && n * hi == (n - 1) * hi + hi;
    }
  }

  lemma {:induction false} SumZero(n: nat, f: nat -> int)
    requires forall i: nat :: i < n ==> f(i) >= 0
    ensures Sum(n, f) >= 0
    ensures Sum(n, f) == 0 <==> forall i: nat :: i < n ==> f(i) == 0
  {
    if n > 0 { SumZero(n - 1, f); }
  }

  /** A sum of bits reaches n only when every bit is set. */
  lemma {:induction false} SumFull(n: nat, f: nat -> int)
    requires forall i: nat :: i < n ==> 0 <= f(i) <= 1
    ensures Sum(n, f) <= n
    ensures Sum(n, f) == n <==> forall i: nat :: i < n ==> f(i) == 1
  {
    if n > 0 { SumFull(n - 1, f); }
  }

  lemma {:induction false} SumAtMost(n: nat, f: nat -> int, g: nat -> int)
    requires forall i: nat :: i < n ==> f(i) <= g(i)
    ensures Sum(n, f) <= Sum(n, g)
  {
    if n > 0 { SumAtMost(n - 1, f, g); }
  }

  lemma {:induction false} SumOfSums(n: nat, f: nat -> int, g: nat -> int, h: nat -> int)
    requires forall i: nat :: i < n ==> h(i) == f(i) + g(i)
    ensures Sum(n, h) == Sum(n, f) + Sum(n, g)
  {
    if n > 0 { SumOfSums(n - 1, f, g, h); }
  }

  function Bit(b: bool): int {
    if b then 1 else 0
  }

  /** Removing one place of a sequence. */
  function Drop<T>(s: seq<T>, i: nat): (r: seq<T>)
    requires i < |s|
    ensures |r| == |s| - 1
  {
    s[..i] + s[i + 1..]
  }

  lemma {:induction false} SumDelta(n: nat, j: nat, f: nat -> int)
    requires j < n && forall i: nat :: i < n ==> f(i) == Bit(i == j)
    ensures Sum(n, f) == 1
  {
    if j == n - 1 {
      SumZero(n - 1, f);
    } else {
      SumDelta(n - 1, j, f);
    }
  }

  /** How often x occurs. */
  function Times(s: seq<nat>, x: nat): nat {
    multiset(s)[x]
  }

  /** Counting a list of indices below n, value by value. */
  lemma {:induction false} SumOfCounts(n: nat, s: seq<nat>, f: nat -> int)
    requires forall k :: 0 <= k < |s| ==> s[k] < n
    requires forall i: nat :: i < n ==> f(i) == Times(s, i)
    ensures Sum(n, f) == |s|
    decreases |s|
  {
    if s == [] {
      SumZero(n, f);
    } else {
      var last := s[|s| - 1];
      var rest := s[..|s| - 1];
      assert s == rest + [last];
      var g := (i: nat) => Times(rest, i) as int;
      SumOfCounts(n, rest, g);
      SumChange(n, g, f, last);
    }
  }
}
