/** Sums and products over sequences of residues, and rearrangements that leave them unchanged. */
module Sums {
  import opened Group

  function Sum(xs: seq<Elem>): Elem {
    if xs == [] then 0 else Add(Sum(xs[..|xs| - 1]), xs[|xs| - 1])
  }

  function Product(xs: seq<Scalar>): Scalar {
    if xs == [] then 1 else Mul(xs[|xs| - 1], Product(xs[..|xs| - 1]))
  }

  lemma SumPrefix(xs: seq<Elem>, j: nat)
    requires j < |xs|
    ensures Sum(xs[..j + 1]) == Add(Sum(xs[..j]), xs[j])
  {
    assert xs[..j + 1][..j] == xs[..j];
  }

  lemma ProductPrefix(xs: seq<Scalar>, j: nat)
    requires j < |xs|
    ensures Product(xs[..j + 1]) == Mul(xs[j], Product(xs[..j]))
  {
    assert xs[..j + 1][..j] == xs[..j];
  }

  lemma {:induction false} SumConcat(xs: seq<Elem>, ys: seq<Elem>)
    ensures Sum(xs + ys) == Add(Sum(xs), Sum(ys))
  {
    if ys == [] {
      assert xs + ys == xs;
    } else {
      var y := ys[..|ys| - 1];
      assert (xs + ys)[..|xs + ys| - 1] == xs + y;
      SumConcat(xs, y);
    }
  }

  lemma {:induction false} ProductConcat(xs: seq<Scalar>, ys: seq<Scalar>)
    ensures Product(xs + ys) == Mul(Product(ys), Product(xs))
  {
    if ys == [] {
      assert xs + ys == xs;
      MulComm(1, Product(xs));
      MulBase(Product(xs));
    } else {
      var y := ys[..|ys| - 1];
      assert (xs + ys)[..|xs + ys| - 1] == xs + y;
      ProductConcat(xs, y);
      MulAssoc(ys[|ys| - 1], Product(y), Product(xs));
    }
  }

  lemma AppendAssoc<T>(a: seq<T>, t: T, b: seq<T>)
    ensures a + [t] + b == a + ([t] + b)
  {
  }

  /** The list read from position c on, then from its start. */
  function Rotate<T>(xs: seq<T>, c: nat): (r: seq<T>)
    requires c <= |xs|
    ensures |r| == |xs|
    ensures forall j :: 0 <= j < |xs| ==> r[j] == xs[if c + j < |xs| then c + j else c + j - |xs|]
  {
    xs[c..] + xs[..c]
  }

  function Without<T>(xs: seq<T>, k: nat): (r: seq<T>)
    requires k < |xs|
    ensures |r| == |xs| - 1 && multiset(r) == multiset(xs) - multiset{xs[k]}
  {
    assert xs == xs[..k] + [xs[k]] + xs[k + 1..];
    xs[..k] + xs[k + 1..]
  }

  lemma SumWithout(xs: seq<Elem>, k: nat)
    requires k < |xs|
    ensures Sum(xs) == Add(Sum(Without(xs, k)), xs[k])
  {
    var a, b := xs[..k + 1], xs[k + 1..];
    assert xs == a + b;
    SumConcat(a, b);
    SumPrefix(xs, k);
    SumConcat(xs[..k], b);
    AddSwap(Sum(xs[..k]), xs[k], Sum(b));
  }

  lemma ProductWithout(xs: seq<Scalar>, k: nat)
    requires k < |xs|
    ensures Product(xs) == Mul(xs[k], Product(Without(xs, k)))
  {
    var a, b := xs[..k + 1], xs[k + 1..];
    assert xs == a + b;
    ProductConcat(a, b);
    ProductPrefix(xs, k);
    ProductConcat(xs[..k], b);
    MulAssoc(Product(b), xs[k], Product(xs[..k]));
    MulAssoc(xs[k], Product(b), Product(xs[..k]));
    MulComm(Product(b), xs[k]);
  }

  lemma {:induction false} ProductNonzero(xs: seq<Scalar>)
    requires forall i :: 0 <= i < |xs| ==> xs[i] != 0
    ensures Product(xs) != 0
  {
    if xs != [] {
      ProductNonzero(xs[..|xs| - 1]);
      NoZeroDivisors(xs[|xs| - 1], Product(xs[..|xs| - 1]));
    }
  }

  // ---------- rearranging by an index list ----------

  function Select<T>(xs: seq<T>, pi: seq<nat>): (r: seq<T>)
    requires forall i :: 0 <= i < |pi| ==> pi[i] < |xs|
    ensures |r| == |pi| && forall i :: 0 <= i < |pi| ==> r[i] == xs[pi[i]]
  {
    seq(|pi|, i requires 0 <= i < |pi| => xs[pi[i]])
  }

  /** The first n values of a stream. */
  function FirstOf<T>(stream: nat -> T, n: nat): (r: seq<T>)
    ensures |r| == n && forall i :: 0 <= i < n ==> r[i] == stream(i)
  {
    seq(n, i requires 0 <= i < n => stream(i))
  }

  function Iota(n: nat): (r: seq<nat>)
    ensures |r| == n && forall i :: 0 <= i < n ==> r[i] == i
  {
    seq(n, i => i)
  }

  predicate IsPermutation(pi: seq<nat>, n: nat) {
    multiset(pi) == multiset(Iota(n))
  }

  lemma PermutationRange(pi: seq<nat>, n: nat)
    requires IsPermutation(pi, n)
    ensures |pi| == n && forall i :: 0 <= i < n ==> pi[i] < n
  {
    assert |multiset(pi)| == |pi| && |multiset(Iota(n))| == n;
    forall i | 0 <= i < |pi| ensures pi[i] < n {
      assert pi[i] in multiset(pi);
      assert pi[i] in multiset(Iota(n));
    }
  }

  lemma RemoveAt<T>(xs: seq<T>, k: nat)
    requires k < |xs|
    ensures multiset(xs) == multiset(xs[..k] + xs[k + 1..]) + multiset{xs[k]}
  {
    assert xs == xs[..k] + [xs[k]] + xs[k + 1..];
  }

  lemma DropOne<T>(xs: seq<T>, a: seq<nat>, k: nat) returns (rest: seq<nat>)
    requires k < |a| && forall i :: 0 <= i < |a| ==> a[i] < |xs|
    ensures |rest| == |a| - 1 && multiset(rest) == multiset(a) - multiset{a[k]}
    ensures forall i :: 0 <= i < |rest| ==> rest[i] < |xs|
    ensures multiset(Select(xs, a)) == multiset(Select(xs, rest)) + multiset{xs[a[k]]}
  {
    rest := a[..k] + a[k + 1..];
    RemoveAt(a, k);
    var s := Select(xs, a);
    RemoveAt(s, k);
    assert Select(xs, rest) == s[..k] + s[k + 1..];
  }

  lemma {:induction false} SelectMultiset<T>(xs: seq<T>, a: seq<nat>, b: seq<nat>)
    requires multiset(a) == multiset(b)
    requires forall i :: 0 <= i < |a| ==> a[i] < |xs|
    requires forall i :: 0 <= i < |b| ==> b[i] < |xs|
    ensures multiset(Select(xs, a)) == multiset(Select(xs, b))
    decreases |a|
  {
    if a == [] {
      assert |multiset(b)| == 0;
      assert b == [];
    } else {
      assert a[0] in multiset(b);
      var k :| 0 <= k < |b| && b[k] == a[0];
      var a' := DropOne(xs, a, 0);
      var b' := DropOne(xs, b, k);
      SelectMultiset(xs, a', b');
    }
  }

  /** Reading a list through a permutation keeps its multiset. */
  lemma PermutationKeeps<T>(xs: seq<T>, pi: seq<nat>)
    requires IsPermutation(pi, |xs|)
    requires forall i :: 0 <= i < |pi| ==> pi[i] < |xs|
    ensures multiset(Select(xs, pi)) == multiset(xs)
  {
    SelectMultiset(xs, pi, Iota(|xs|));
    assert Select(xs, Iota(|xs|)) == xs;
  }

  lemma {:induction false} SumMultiset(xs: seq<Elem>, ys: seq<Elem>)
    requires multiset(xs) == multiset(ys)
    ensures Sum(xs) == Sum(ys)
    decreases |xs|
  {
    if xs == [] {
      assert |multiset(ys)| == 0;
      assert ys == [];
    } else {
      assert xs[0] in multiset(ys);
      var k :| 0 <= k < |ys| && ys[k] == xs[0];
      SumMultiset(Without(xs, 0), Without(ys, k));
      SumWithout(xs, 0);
      SumWithout(ys, k);
    }
  }

  function Map<A, B>(f: A -> B, xs: seq<A>): (r: seq<B>)
    ensures |r| == |xs| && forall i :: 0 <= i < |xs| ==> r[i] == f(xs[i])
  {
    seq(|xs|, i requires 0 <= i < |xs| => f(xs[i]))
  }

  lemma MapWithout<A, B>(f: A -> B, xs: seq<A>, k: nat)
    requires k < |xs|
    ensures multiset(Map(f, xs)) == multiset(Map(f, Without(xs, k))) + multiset{f(xs[k])}
  {
    RemoveAt(Map(f, xs), k);
    assert Map(f, Without(xs, k)) == Without(Map(f, xs), k);
  }

  lemma {:induction false} MapMultiset<A, B>(f: A -> B, xs: seq<A>, ys: seq<A>)
    requires multiset(xs) == multiset(ys)
    ensures multiset(Map(f, xs)) == multiset(Map(f, ys))
    decreases |xs|
  {
    if xs == [] {
      assert |multiset(ys)| == 0;
      assert ys == [];
    } else {
      assert xs[0] in multiset(ys);
      var k :| 0 <= k < |ys| && ys[k] == xs[0];
      MapMultiset(f, Without(xs, 0), Without(ys, k));
      MapWithout(f, xs, 0);
      MapWithout(f, ys, k);
    }
  }

  /** A duplicate-free listing of a set is determined up to order. */
  predicate Lists<T(==)>(xs: seq<T>, s: set<T>) {
    && (forall i :: 0 <= i < |xs| ==> xs[i] in s)
    && (forall t :: t in s ==> t in xs)
    && (forall i, j :: 0 <= i < j < |xs| ==> xs[i] != xs[j])
  }

  lemma ListsButLast<T>(xs: seq<T>, s: set<T>)
    requires Lists(xs, s) && xs != []
    ensures Lists(xs[..|xs| - 1], s - {xs[|xs| - 1]})
  {
    var n := |xs| - 1;
    forall t | t in s && t != xs[n] ensures t in xs[..n] {
      var i :| 0 <= i < |xs| && xs[i] == t;
      assert xs[..n][i] == t;
    }
  }

  lemma {:induction false} ListsMultiset<T>(xs: seq<T>, s: set<T>)
    requires Lists(xs, s)
    ensures multiset(xs) == multiset(s)
  {
    if xs == [] {
      assert s == {};
    } else {
      var n := |xs| - 1;
      ListsButLast(xs, s);
      ListsMultiset(xs[..n], s - {xs[n]});
      assert xs == xs[..n] + [xs[n]];
      assert s == s - {xs[n]} + {xs[n]};
    }
  }
}
