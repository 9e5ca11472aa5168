/** libunlynx.RandomPermutation. */
module Permutation {
  import opened Primes
  import opened Sums

  function Swap<T>(s: seq<T>, i: nat, j: nat): (r: seq<T>)
    requires i < |s| && j < |s|
    ensures |r| == |s|
  {
    s[i := s[j]][j := s[i]]
  }

  /** r modulo m, by repeated subtraction. */
  function Remainder(r: nat, m: nat): (x: nat)
    requires m > 0
    ensures x < m && (r < m ==> x == r)
  {
    if r < m then r else Remainder(r - m, m)
  }

  lemma {:induction false} RemainderIs(r: nat, m: nat)
    requires m > 0
    ensures Remainder(r, m) == r % m
  {
    if r >= m {
      RemainderIs(r - m, m);
      DivModUnique(r, m, (r - m) / m + 1, (r - m) % m);
    }
  }

  /** The swaps for positions i, i-1, ..., 1; the stream supplies one nonnegative integer per swap. */
  function Swaps<T>(s: seq<T>, i: nat, stream: seq<nat>): (r: seq<T>)
    requires i < |s| && |stream| >= i
    ensures |r| == |s|
    decreases i
  {
    if i == 0 then s else Swaps(Swap(s, i, Remainder(stream[0], i + 1)), i - 1, stream[1..])
  }

  lemma SwapsStep<T>(s: seq<T>, i: nat, stream: seq<nat>, rest: seq<nat>)
    requires 0 < i < |s| && |stream| >= i && stream[1..] == rest
    ensures Swaps(s, i, stream) == Swaps(Swap(s, i, Remainder(stream[0], i + 1)), i - 1, rest)
  {
  }

  lemma SwapKeeps<T>(s: seq<T>, i: nat, j: nat)
    requires i < |s| && j < |s|
    ensures multiset(Swap(s, i, j)) == multiset(s)
  {
    if i != j {
      assert multiset(s[i := s[j]]) == multiset(s) - multiset{s[i]} + multiset{s[j]};
    }
  }

  lemma {:induction false} SwapsKeep<T>(s: seq<T>, i: nat, stream: seq<nat>)
    requires i < |s| && |stream| >= i
    ensures multiset(Swaps(s, i, stream)) == multiset(s)
    decreases i
  {
    if i > 0 {
      var j := Remainder(stream[0], i + 1);
      SwapKeeps(s, i, j);
      SwapsKeep(Swap(s, i, j), i - 1, stream[1..]);
    }
  }

  method SwapInPlace(a: array<nat>, i: nat, j: nat)
    requires i < a.Length && j < a.Length
    modifies a
    ensures a[..] == Swap(old(a[..]), i, j)
  {
    if j != i {
      var t := a[j];
      a[j] := a[i];
      a[i] := t;
    }
  }

  method ShuffleInPlace(a: array<nat>, stream: seq<nat>)
    requires 0 < a.Length <= |stream| + 1
    modifies a
    ensures a[..] == Swaps(old(a[..]), a.Length - 1, stream)
  {
    var i, rest := a.Length - 1, stream;
    while i > 0
      invariant 0 <= i < a.Length && |rest| >= i
      invariant Swaps(a[..], i, rest) == Swaps(old(a[..]), a.Length - 1, stream)
    {
      SwapsStep(a[..], i, rest, rest[1..]);
      SwapInPlace(a, i, Remainder(rest[0], i + 1));
      i, rest := i - 1, rest[1..];
    }
  }

  method RandomPermutation(k: nat, stream: seq<nat>) returns (pi: seq<nat>)
    requires |stream| >= k
    ensures pi == if k == 0 then [] else Swaps(Iota(k), k - 1, stream)
    ensures IsPermutation(pi, k)
  {
    var a := new nat[k](i => i);
    assert a[..] == Iota(k);
    if k > 0 {
      ShuffleInPlace(a, stream);
      SwapsKeep(Iota(k), k - 1, stream);
    }
    pi := a[..];
  }

  lemma SplitLast<T>(s: seq<T>, i: nat)
    requires i < |s|
    ensures multiset(s[..i + 1]) == multiset(s[..i]) + multiset{s[i]}
  {
    assert s[..i + 1] == s[..i] + [s[i]];
  }

  lemma FindInPrefix<T>(s: seq<T>, t: seq<T>, i: nat) returns (j: nat)
    requires i < |s| && i < |t| && multiset(s[..i + 1]) == multiset(t[..i + 1])
    ensures j <= i && s[j] == t[i]
  {
    SplitLast(t, i);
    assert t[i] in multiset(s[..i + 1]);
    j :| 0 <= j <= i && s[..i + 1][j] == t[i];
  }

  lemma SwapKeepsPrefix<T>(s: seq<T>, i: nat, j: nat)
    requires j <= i < |s|
    ensures multiset(Swap(s, i, j)[..i + 1]) == multiset(s[..i + 1])
  {
    assert Swap(s, i, j)[..i + 1] == Swap(s[..i + 1], i, j);
    SwapKeeps(s[..i + 1], i, j);
  }

  lemma DropEqualLast<T>(s: seq<T>, t: seq<T>, i: nat)
    requires i < |s| && i < |t| && s[i] == t[i] && multiset(s[..i + 1]) == multiset(t[..i + 1])
    ensures multiset(s[..i]) == multiset(t[..i])
  {
    SplitLast(s, i);
    SplitLast(t, i);
    assert multiset(s[..i]) == multiset(s[..i + 1]) - multiset{t[i]};
    assert multiset(t[..i]) == multiset(t[..i + 1]) - multiset{t[i]};
  }

  /** No arrangement is excluded: some stream produces each of them. */
  lemma {:induction false} EveryArrangementReached<T>(s: seq<T>, t: seq<T>, i: nat) returns (stream: seq<nat>)
    requires |s| == |t| && i < |s| && multiset(s[..i + 1]) == multiset(t[..i + 1])
    requires forall k :: i < k < |s| ==> s[k] == t[k]
    ensures |stream| == i && Swaps(s, i, stream) == t
    decreases i
  {
    var j := FindInPrefix(s, t, i);
    if i == 0 {
      stream := [];
      assert s == t;
    } else {
      var s' := Swap(s, i, j);
      SwapKeepsPrefix(s, i, j);
      DropEqualLast(s', t, i);
      var rest := EveryArrangementReached(s', t, i - 1);
      stream := [j] + rest;
      assert stream[1..] == rest;
    }
  }

  lemma EveryPermutationReached(pi: seq<nat>, k: nat) returns (stream: seq<nat>)
    requires k > 0 && IsPermutation(pi, k)
    ensures |stream| == k - 1 && Swaps(Iota(k), k - 1, stream) == pi
  {
    PermutationRange(pi, k);
    assert pi[..k] == pi && Iota(k)[..k] == Iota(k);
    stream := EveryArrangementReached(Iota(k), pi, k - 1);
  }
}
