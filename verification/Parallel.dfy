/** The strided goroutine loops of the vector operations, run under an arbitrary scheduler. */
module Parallel {
  import opened Sets

  const VPARALLELIZE: nat := 100

  function Indices(n: nat): (s: set<int>)
    ensures forall i :: i in s <==> 0 <= i < n
  {
    if n == 0 then {} else Indices(n - 1) + {n - 1}
  }

  /** The elements still to be updated are those their goroutine's counter has not passed. */
  ghost predicate Ahead(counter: seq<nat>, todo: set<int>, length: nat) {
    forall i: nat :: i < length && i / VPARALLELIZE < |counter| ==> (i in todo <==> counter[i / VPARALLELIZE] <= i % VPARALLELIZE)
  }

  lemma Advance(counter: seq<nat>, todo: set<int>, length: nat, g: nat)
    requires Ahead(counter, todo, length) && g < |counter|
    requires counter[g] < VPARALLELIZE && g * VPARALLELIZE + counter[g] < length
    ensures g * VPARALLELIZE + counter[g] in todo
    ensures Ahead(counter[g := counter[g] + 1], todo - {g * VPARALLELIZE + counter[g]}, length)
  {
    var i := g * VPARALLELIZE + counter[g];
    assert i / VPARALLELIZE == g && i % VPARALLELIZE == counter[g];
  }

  /** A goroutine is finished when its counter has passed its stride or the end. */
  predicate AtEnd(count: nat, g: nat, length: nat) {
    VPARALLELIZE <= count || length <= g * VPARALLELIZE + count
  }

  ghost predicate Finished(counter: seq<nat>, running: set<int>, length: nat) {
    forall g: nat :: g < |counter| && g !in running ==> AtEnd(counter[g], g, length)
  }

  lemma NothingLeft(counter: seq<nat>, running: set<int>, todo: set<int>, length: nat)
    requires Ahead(counter, todo, length) && Finished(counter, running, length) && running == {}
    requires length <= |counter| * VPARALLELIZE
    ensures forall i: nat :: i < length ==> i !in todo
  {
    forall i: nat | i < length ensures i !in todo {
      var g := i / VPARALLELIZE;
      assert g < |counter| && i == g * VPARALLELIZE + i % VPARALLELIZE;
      assert AtEnd(counter[g], g, length);
    }
  }

  /** One goroutine per stride of VPARALLELIZE indices; goroutine g updates index g*VPARALLELIZE + j for its own
      counter j. The scheduler advances any unfinished goroutine by one element at a time. Whatever it picks, every
      element ends up updated exactly once, from its own initial value. */
  method ParallelUpdate<T>(a: array<T>, f: (nat, T) --> T)
    requires forall i :: 0 <= i < a.Length ==> f.requires(i, a[i])
    modifies a
    ensures forall i :: 0 <= i < a.Length ==> a[i] == f(i, old(a[i]))
  {
    var length := a.Length;
    var routines := (length + VPARALLELIZE - 1) / VPARALLELIZE;
    var counter: seq<nat> := seq(routines, _ => 0);
    var running := Indices(routines);
    ghost var todo := Indices(length);
    while running != {}
      invariant |counter| == routines && forall g :: g in running ==> 0 <= g < routines
      invariant Finished(counter, running, length) && Ahead(counter, todo, length)
      invariant forall i: nat :: i < length && i in todo ==> a[i] == old(a[i])
      invariant forall i: nat :: i < length && i !in todo ==> a[i] == f(i, old(a[i]))
      decreases todo, running
    {
      var g := Pick(running);
      var j := counter[g];
      var i := g * VPARALLELIZE + j;
      if j < VPARALLELIZE && i < length {
        Advance(counter, todo, length, g);
        a[i] := f(i, a[i]);
        counter := counter[g := j + 1];
        todo := todo - {i};
      } else {
        running := running - {g};
      }
    }
    NothingLeft(counter, running, todo, length);
  }

  /** The same loop filling a fresh slice. */
  method ParallelMap<A, B>(xs: seq<A>, blank: B, f: (nat, A) --> B) returns (ys: seq<B>)
    requires forall i :: 0 <= i < |xs| ==> f.requires(i, xs[i])
    ensures |ys| == |xs|
    ensures forall i :: 0 <= i < |xs| ==> ys[i] == f(i, xs[i])
  {
    var out := new B[|xs|](_ => blank);
    ParallelUpdate(out, (i: nat, _: B) requires i < |xs| && f.requires(i, xs[i]) => f(i, xs[i]));
    ys := out[..];
  }
}
