/** Facts about sequences, multisets and finite sets that are not about the event loop. */
module Collections {

  /** `[0, 1, ..., n - 1]`. */
  function Iota(n: nat): (r: seq<nat>)
    ensures |r| == n && forall i :: 0 <= i < n ==> r[i] == i
  {
    seq(n, i => i)
  }

  predicate NoDuplicates<T(==)>(s: seq<T>) {
    forall i, j :: 0 <= i < j < |s| ==> s[i] != s[j]
  }

  /** `table` looked up at every element of `s`. */
  function Lookup(table: seq<nat>, s: seq<nat>): (r: seq<nat>)
    requires forall i :: 0 <= i < |s| ==> s[i] < |table|
    ensures |r| == |s| && forall i :: 0 <= i < |s| ==> r[i] == table[s[i]]
  {
    seq(|s|, i requires 0 <= i < |s| => table[s[i]])
  }

  lemma {:induction false} IotaCount(n: nat, x: nat)
    ensures multiset(Iota(n))[x] == if x < n then 1 else 0
  {
    if n > 0 {
      assert Iota(n) == Iota(n - 1) + [n - 1];
      IotaCount(n - 1, x);
    }
  }

  lemma RepeatedCount<T>(s: seq<T>, i: nat, j: nat)
    requires i < j < |s| && s[i] == s[j]
    ensures multiset(s)[s[i]] >= 2
  {
    assert s == s[..j] + s[j..];
    assert s[i] in s[..j] && s[j] in s[j..];
  }

  /** A sequence with the elements of `Iota(n)` lists every number below `n` once. */
  lemma PermutationFacts(s: seq<nat>, n: nat)
    requires multiset(s) == multiset(Iota(n))
    ensures |s| == n && NoDuplicates(s)
    ensures forall x: nat :: x in s <==> x < n
  {
    assert |multiset(s)| == |multiset(Iota(n))|;
    forall x: nat
      ensures x in s <==> x < n
      ensures multiset(s)[x] <= 1
    {
      IotaCount(n, x);
      assert x in s <==> x in multiset(s);
    }
    forall i, j | 0 <= i < j < |s|
      ensures s[i] != s[j]
    {
      if s[i] == s[j] { RepeatedCount(s, i, j); }
    }
  }

  function Elements<T>(s: seq<T>): set<T> {
    set x | x in s
  }

  /** Distinct elements make a set as large as the sequence. */
  lemma {:induction false} DistinctSize<T>(s: seq<T>)
    requires NoDuplicates(s)
    ensures |Elements(s)| == |s|
  {
    if s != [] {
      var front, last := s[..|s| - 1], s[|s| - 1];
      DistinctSize(front);
      assert s == front + [last];
      assert Elements(s) == Elements(front) + {last};
    }
  }

  /** Two finite sets with functions that undo each other have the same size. */
  lemma {:induction false} BijectionSize(a: set<nat>, b: set<nat>, f: map<nat, nat>, g: map<nat, nat>)
    requires a <= f.Keys && b <= g.Keys
    requires forall x <- a :: f[x] in b && g[f[x]] == x
    requires forall y <- b :: g[y] in a && f[g[y]] == y
    ensures |a| == |b|
  {
    if a == {} {
      assert b == {};
    } else {
      var x :| x in a;
      BijectionSize(a - {x}, b - {f[x]}, f, g);
    }
  }

  lemma {:induction false} SubsetOfIota(n: nat, s: set<nat>)
    requires forall x <- s :: x < n
    requires |s| == n
    ensures forall x: nat :: x < n ==> x in s
  {
    if n > 0 {
      if n - 1 in s {
        SubsetOfIota(n - 1, s - {n - 1});
        forall x: nat | x < n
          ensures x in s
        {
          assert x == n - 1 || x in s - {n - 1};
        }
      } else {
        SmallSet(n - 1, s);
      }
    }
  }

  lemma {:induction false} SmallSet(n: nat, s: set<nat>)
    requires forall x <- s :: x < n
    ensures |s| <= n
  {
    if n > 0 {
      SmallSet(n - 1, s - {n - 1});
    } else {
      assert forall x <- s :: false;
    }
  }

  /** Distinct numbers below the length are a permutation of them. */
  lemma DistinctIsPermutation(s: seq<nat>)
    requires NoDuplicates(s) && forall i :: 0 <= i < |s| ==> s[i] < |s|
    ensures multiset(s) == multiset(Iota(|s|))
  {
    var n := |s|;
    DistinctSize(s);
    SubsetOfIota(n, Elements(s));
    forall x: nat
      ensures multiset(s)[x] == multiset(Iota(n))[x]
    {
      IotaCount(n, x);
      DistinctCount(s, x);
      if x < n {
        assert x in Elements(s);
      }
    }
  }

  lemma {:induction false} DistinctCount(s: seq<nat>, x: nat)
    requires NoDuplicates(s)
    ensures multiset(s)[x] == if x in s then 1 else 0
  {
    if s != [] {
      var front, last := s[..|s| - 1], s[|s| - 1];
      DistinctCount(front, x);
      assert s == front + [last];
    }
  }
}
