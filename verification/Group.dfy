/** The prime-order group every UnLynx ciphertext lives in. The suite is left arbitrary: any prime order that is
    wider than int64 differences, together with a point encoding of fixed byte length. A point is represented by its
    discrete logarithm to the base point, so the base point is 1 and scalar multiplication is repeated addition. */
module Group {
  import opened Primes

  const INT64_SPAN: nat := 0x1_0000_0000_0000_0000

  datatype GroupSuite = GroupSuite(order: nat, pointLen: nat)

  function Pow256(n: nat): (r: nat)
    ensures r > n
  {
    if n == 0 then 1 else 256 * Pow256(n - 1)
  }

  type Suite = s: GroupSuite | IsPrime(s.order) && s.order > INT64_SPAN && Pow256(s.pointLen) >= s.order
    witness (var p := PrimeAbove(INT64_SPAN); GroupSuite(p, p))

  const SuiTe: Suite
  const Q: nat := SuiTe.order

  /** A residue modulo the group order; points and scalars share it. */
  type Elem = x: int | 0 <= x < Q
    witness 0
  type Point = Elem
  type Scalar = Elem

  const Null: Point := 0
  const Base: Point := 1

  function Add(a: Elem, b: Elem): Elem {
    if a + b < Q then a + b else a + b - Q
  }

  function Neg(a: Elem): Elem {
    if a == 0 then 0 else Q - a
  }

  function Sub(a: Elem, b: Elem): Elem {
    if a >= b then a - b else a - b + Q
  }

  /** s times p, by repeated addition. */
  function Mul(s: Scalar, p: Elem): Elem
    decreases s
  {
    if s == 0 then Null else Add(p, Mul(s - 1, p))
  }

  /** The scalar of a signed integer (a negative one counts down from the order). */
  function FromInt(i: int): Scalar
    decreases if i < 0 then Q - i else i
  {
    if i < 0 then FromInt(i + Q) else if i < Q then i else FromInt(i - Q)
  }

  /** The point of an integer; IntToPointIs shows it is the scalar multiple of the base that libunlynx.IntToPoint
      computes. */
  function IntToPoint(i: int): Point {
    FromInt(i)
  }

  // ---------- laws ----------

  lemma AddAssoc(a: Elem, b: Elem, c: Elem)
    ensures Add(Add(a, b), c) == Add(a, Add(b, c))
  {
  }

  lemma AddSwap(a: Elem, b: Elem, c: Elem)
    ensures Add(Add(a, b), c) == Add(Add(a, c), b)
  {
  }

  lemma AddPairs(a: Elem, b: Elem, c: Elem, d: Elem)
    ensures Add(Add(a, b), Add(c, d)) == Add(Add(a, c), Add(b, d))
  {
    AddAssoc(a, b, Add(c, d));
    AddAssoc(b, c, d);
    AddAssoc(c, b, d);
    AddAssoc(a, c, Add(b, d));
  }

  lemma SubTwice(a: Elem, b: Elem, c: Elem)
    ensures Sub(Sub(a, b), c) == Sub(a, Add(b, c))
  {
  }

  lemma AddSubSwap(a: Elem, b: Elem, c: Elem)
    ensures Sub(Add(a, b), c) == Add(Sub(a, c), b)
  {
  }

  lemma {:induction false} MulNull(s: Scalar)
    ensures Mul(s, Null) == Null
    decreases s
  {
    if s > 0 { MulNull(s - 1); }
  }

  lemma {:induction false} MulBase(s: Scalar)
    ensures Mul(s, Base) == s
    decreases s
  {
    if s > 0 { MulBase(s - 1); }
  }

  lemma {:induction false} MulAdd(s: Scalar, p: Elem, r: Elem)
    ensures Mul(s, Add(p, r)) == Add(Mul(s, p), Mul(s, r))
    decreases s
  {
    if s > 0 {
      MulAdd(s - 1, p, r);
      AddPairs(p, r, Mul(s - 1, p), Mul(s - 1, r));
    }
  }

  lemma {:induction false} MulNeg(s: Scalar, p: Elem)
    ensures Mul(s, Neg(p)) == Neg(Mul(s, p))
    decreases s
  {
    if s > 0 { MulNeg(s - 1, p); }
  }

  lemma MulSub(s: Scalar, p: Elem, r: Elem)
    ensures Mul(s, Sub(p, r)) == Sub(Mul(s, p), Mul(s, r))
  {
    MulAdd(s, p, Neg(r));
    MulNeg(s, r);
    assert Sub(p, r) == Add(p, Neg(r));
  }

  lemma {:induction false} MulComm(s: Elem, p: Elem)
    ensures Mul(s, p) == Mul(p, s)
    decreases s
  {
    if s == 0 {
      MulNull(p);
    } else {
      MulComm(s - 1, p);
      MulAdd(p, 1, s - 1);
      MulBase(p);
    }
  }

  lemma AddMul(s: Scalar, t: Scalar, p: Elem)
    ensures Mul(Add(s, t), p) == Add(Mul(s, p), Mul(t, p))
  {
    MulComm(Add(s, t), p);
    MulComm(s, p);
    MulComm(t, p);
    MulAdd(p, s, t);
  }

  lemma {:induction false} MulAssoc(s: Scalar, t: Scalar, p: Elem)
    ensures Mul(s, Mul(t, p)) == Mul(Mul(s, t), p)
    decreases s
  {
    if s > 0 {
      MulAssoc(s - 1, t, p);
      AddMul(t, Mul(s - 1, t), p);
    }
  }

  lemma {:induction false} MulIsProduct(s: Scalar, p: Elem) returns (k: int)
    ensures s * p == k * Q + Mul(s, p)
    decreases s
  {
    if s == 0 {
      k := 0;
    } else {
      var j := MulIsProduct(s - 1, p);
      assert s * p == (s - 1) * p + p;
      var m := Mul(s - 1, p);
      if p + m < Q {
        k := j;
      } else {
        k := j + 1;
        assert (j + 1) * Q == j * Q + Q;
      }
    }
  }

  lemma NoZeroDivisors(s: Scalar, p: Elem)
    ensures Mul(s, p) == 0 <==> s == 0 || p == 0
  {
    if s == 0 {
    } else if p == 0 {
      MulNull(s);
    } else {
      var k := MulIsProduct(s, p);
      if Mul(s, p) == 0 {
        DivModUnique(s * p, Q, k, 0);
        NoZeroProduct(Q, s, p);
      }
    }
  }

  /** Multiplication by a nonzero scalar is injective. */
  lemma MulCancel(s: Scalar, p: Elem, r: Elem)
    requires s != 0
    ensures Mul(s, p) == Mul(s, r) <==> p == r
  {
    MulSub(s, p, r);
    NoZeroDivisors(s, Sub(p, r));
  }

  lemma {:induction false} FromIntIs(i: int, k: int, r: Elem)
    requires i == k * Q + r
    ensures FromInt(i) == r
    decreases if k < 0 then -k else k
  {
    if k < 0 {
      assert (k + 1) * Q == k * Q + Q;
      NonPositiveProduct(k, Q);
      FromIntIs(i + Q, k + 1, r);
    } else if k > 0 {
      assert (k - 1) * Q == k * Q - Q;
      MulAtLeast(k, Q);
      FromIntIs(i - Q, k - 1, r);
    }
  }

  lemma NonPositiveProduct(k: int, d: nat)
    requires k < 0
    ensures k * d + d <= 0
  {
    MulAtLeast(-k, d);
  }

  lemma {:induction false} FromIntQuotient(i: int) returns (k: int)
    ensures i == k * Q + FromInt(i)
    decreases if i < 0 then Q - i else i
  {
    if i < 0 {
      var j := FromIntQuotient(i + Q);
      k := j - 1;
      assert k * Q == j * Q - Q;
    } else if i < Q {
      k := 0;
    } else {
      var j := FromIntQuotient(i - Q);
      k := j + 1;
      assert k * Q == j * Q + Q;
    }
  }

  lemma FromIntAdd(i: int, j: int)
    ensures FromInt(i + j) == Add(FromInt(i), FromInt(j))
  {
    var a, b := FromInt(i), FromInt(j);
    var k := FromIntQuotient(i);
    var m := FromIntQuotient(j);
    assert (k + m) * Q == k * Q + m * Q;
    assert (k + m + 1) * Q == (k + m) * Q + Q;
    if a + b < Q {
      FromIntIs(i + j, k + m, a + b);
    } else {
      FromIntIs(i + j, k + m + 1, a + b - Q);
    }
  }

  lemma FromIntNeg(i: int)
    ensures FromInt(-i) == Neg(FromInt(i))
  {
    FromIntAdd(i, -i);
    FromIntIs(0, 0, 0);
  }

  lemma FromSmallInt(i: int)
    requires 0 <= i < Q
    ensures FromInt(i) == i
  {
    FromIntIs(i, 0, i);
  }

  lemma IntToPointIs(i: int)
    ensures Mul(FromInt(i), Base) == IntToPoint(i)
  {
    MulBase(FromInt(i));
  }

  lemma IntToPointAdd(i: int, j: int)
    ensures IntToPoint(i + j) == Add(IntToPoint(i), IntToPoint(j))
  {
    FromIntAdd(i, j);
  }

  lemma NextPoint(i: int)
    ensures Add(IntToPoint(i), Base) == IntToPoint(i + 1)
  {
    IntToPointAdd(i, 1);
  }

  /** Integers closer together than the group order have distinct points; int64 values always are. */
  lemma IntToPointInjective(i: int, j: int)
    requires i - j < Q && j - i < Q
    ensures IntToPoint(i) == IntToPoint(j) <==> i == j
  {
    if FromInt(i) == FromInt(j) {
      FromIntAdd(i - j, j);
      assert FromInt(i - j) == 0;
      if i - j >= 0 {
        FromSmallInt(i - j);
      } else {
        FromIntNeg(j - i);
        FromSmallInt(j - i);
      }
    }
  }
}
