/** Prime numbers: enough number theory to know that a prime-order group above any bound exists,
    and that a product of non-multiples of a prime is not a multiple of it. */
module Primes {

  predicate IsPrime(q: nat) {
    q >= 2 && forall d :: 2 <= d < q ==> q % d != 0
  }

  function Factorial(n: nat): (f: nat)
    ensures f >= 1
  {
    if n == 0 then 1 else n * Factorial(n - 1)
  }

  lemma MulAtLeast(k: int, d: int)
    requires k >= 1 && d >= 0
    ensures k * d >= d
  {
    assert (k - 1) * d >= 0;
  }

  lemma DivModUnique(x: int, d: int, k: int, r: int)
    requires x == k * d + r && 0 <= r < d
    ensures x / d == k && x % d == r
  {
    var j := x / d;
    if j > k {
      MulAtLeast(j - k, d);
    } else if j < k {
      MulAtLeast(k - j, d);
    }
  }

  lemma {:induction false} FactorialMultiple(n: nat, d: nat) returns (k: nat)
    requires 1 <= d <= n
    ensures Factorial(n) == k * d
  {
    if d == n {
      k := Factorial(n - 1);
    } else {
      var j := FactorialMultiple(n - 1, d);
      k := n * j;
      assert n * (j * d) == (n * j) * d;
    }
  }

  predicate NoneBelow(n: nat, bound: nat) {
    forall e :: 2 <= e < bound ==> n % e != 0
  }

  lemma SelfDivides(n: nat)
    requires n >= 1
    ensures n % n == 0
  {
    DivModUnique(n, n, 1, 0);
  }

  function LeastDivisor(n: nat, from: nat): (d: nat)
    requires 2 <= from <= n && NoneBelow(n, from)
    ensures from <= d <= n && n % d == 0 && NoneBelow(n, d)
    decreases n - from
  {
    SelfDivides(n);
    if n % from == 0 then from else LeastDivisor(n, from + 1)
  }

  lemma DividesThrough(n: nat, p: nat, d: nat)
    requires p >= 1 && d >= 1 && n % p == 0 && p % d == 0
    ensures n % d == 0
  {
    var a, b := n / p, p / d;
    assert n == a * p && p == b * d;
    assert a * (b * d) == (a * b) * d;
    DivModUnique(n, d, a * b, 0);
  }

  lemma LeastDivisorIsPrime(n: nat)
    requires n >= 2
    ensures IsPrime(LeastDivisor(n, 2))
  {
    var p := LeastDivisor(n, 2);
    forall d | 2 <= d < p ensures p % d != 0 {
      if p % d == 0 {
        DividesThrough(n, p, d);
      }
    }
  }

  /** Euclid: there is a prime above every bound. */
  function PrimeAbove(n: nat): (p: nat)
    ensures IsPrime(p) && p > n
  {
    var m := Factorial(n) + 1;
    LeastDivisorIsPrime(m);
    var p := LeastDivisor(m, 2);
    assert p > n by {
      if p <= n {
        var k := FactorialMultiple(n, p);
        DivModUnique(m, p, k, 1);
      }
    }
    p
  }

  /** Euclid's lemma in the form the group needs: no two factors below a prime multiply to a multiple of it. */
  lemma {:induction false} NoZeroProduct(q: nat, a: nat, b: nat)
    requires IsPrime(q) && 0 < a < q && 0 < b < q
    ensures (a * b) % q != 0
    decreases a
  {
    if (a * b) % q == 0 {
      if a == 1 {
        DivModUnique(a * b, q, 0, b);
      } else {
        var k, r := q / a, q % a;
        var m := (a * b) / q;
        assert a * b == m * q;
        assert q == k * a + r;
        assert r * b == q * b - k * (a * b) by { assert (k * a) * b == k * (a * b); assert (k * a + r) * b == (k * a) * b + r * b; }
        assert k * (m * q) == (k * m) * q;
        assert q * b - (k * m) * q == (b - k * m) * q;
        DivModUnique(r * b, q, b - k * m, 0);
        NoZeroProduct(q, r, b);
      }
    }
  }
}
