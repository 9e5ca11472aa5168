/** Additively homomorphic ElGamal over the suite's group (lib/crypto.go). */
module ElGamal {
  import opened Group
  import opened Sums

  datatype CipherText = CipherText(K: Point, C: Point)
  type CipherVector = seq<CipherText>

  const NullCipher := CipherText(Null, Null)

  /** encryptPoint, with the ephemeral scalar r a parameter. */
  function EncryptPoint(pubKey: Point, M: Point, r: Scalar): CipherText {
    CipherText(Mul(r, Base), Add(Mul(r, pubKey), M))
  }

  function EncryptInt(pubKey: Point, i: int, r: Scalar): CipherText {
    EncryptPoint(pubKey, IntToPoint(i), r)
  }

  function PointToCipherText(M: Point): CipherText {
    CipherText(Null, M)
  }

  function IntToCipherText(i: int): CipherText {
    PointToCipherText(IntToPoint(i))
  }

  /** decryptPoint */
  function Open(priKey: Scalar, c: CipherText): Point {
    Sub(c.C, Mul(priKey, c.K))
  }

  function AddCipher(a: CipherText, b: CipherText): CipherText {
    CipherText(Add(a.K, b.K), Add(a.C, b.C))
  }

  function MulCipher(s: Scalar, c: CipherText): CipherText {
    CipherText(Mul(s, c.K), Mul(s, c.C))
  }

  function OpenVector(x: Scalar, cv: CipherVector): (r: seq<Point>)
    ensures |r| == |cv| && forall i :: 0 <= i < |cv| ==> r[i] == Open(x, cv[i])
  {
    seq(|cv|, i requires 0 <= i < |cv| => Open(x, cv[i]))
  }

  lemma OpenVectorConcat(x: Scalar, a: CipherVector, b: CipherVector)
    ensures OpenVector(x, a + b) == OpenVector(x, a) + OpenVector(x, b)
  {
  }

  /** Decryption undoes encryption under the matching key, whatever the randomness. */
  lemma OpenEncrypt(x: Scalar, M: Point, r: Scalar)
    ensures Open(x, EncryptPoint(Mul(x, Base), M, r)) == M
  {
    MulBase(x);
    MulBase(r);
    MulComm(x, r);
  }

  /** Another key opens an encryption to its plaintext only when the scalar is zero. */
  lemma OpenOtherIff(x: Scalar, y: Scalar, M: Point, r: Scalar)
    ensures Open(y, EncryptPoint(Mul(x, Base), M, r)) == M <==> r == 0 || x == y
  {
    MulBase(x);
    MulBase(r);
    MulComm(y, r);
    MulSub(r, x, y);
    NoZeroDivisors(r, Sub(x, y));
  }

  lemma OpenPlain(x: Scalar, M: Point)
    ensures Open(x, PointToCipherText(M)) == M
  {
    MulNull(x);
  }

  lemma OpenAdd(x: Scalar, a: CipherText, b: CipherText)
    ensures Open(x, AddCipher(a, b)) == Add(Open(x, a), Open(x, b))
  {
    MulAdd(x, a.K, b.K);
  }

  lemma OpenMul(x: Scalar, s: Scalar, c: CipherText)
    ensures Open(x, MulCipher(s, c)) == Mul(s, Open(x, c))
  {
    MulAssoc(x, s, c.K);
    MulAssoc(s, x, c.K);
    MulComm(x, s);
    MulSub(s, c.C, Mul(x, c.K));
  }

  /** Pointwise sum over the first vector's indices, as CipherVector.Add writes it. */
  function AddVector(a: CipherVector, b: CipherVector): (r: CipherVector)
    requires |a| <= |b|
    ensures |r| == |a| && forall i :: 0 <= i < |a| ==> r[i] == AddCipher(a[i], b[i])
  {
    seq(|a|, i requires 0 <= i < |a| => AddCipher(a[i], b[i]))
  }

  function SumCipher(cv: CipherVector): CipherText {
    if cv == [] then NullCipher else AddCipher(SumCipher(cv[..|cv| - 1]), cv[|cv| - 1])
  }

  /** CipherVector.Acum: starts from element 0 and adds the others in order. */
  method Acum(cv: CipherVector) returns (acum: CipherText)
    requires cv != []
    ensures acum == SumCipher(cv)
  {
    acum := cv[0];
    assert cv[..1][..0] == [];
    for i := 1 to |cv|
      invariant acum == SumCipher(cv[..i])
    {
      assert cv[..i + 1][..i] == cv[..i];
      acum := AddCipher(acum, cv[i]);
    }
    assert cv[..|cv|] == cv;
  }

  /** The accumulated ciphertext opens to the sum of the openings. */
  lemma {:induction false} OpenSum(x: Scalar, cv: CipherVector)
    ensures Open(x, SumCipher(cv)) == Sum(OpenVector(x, cv))
  {
    if cv == [] {
      MulNull(x);
    } else {
      var n := |cv| - 1;
      OpenSum(x, cv[..n]);
      OpenAdd(x, SumCipher(cv[..n]), cv[n]);
      assert OpenVector(x, cv)[..n] == OpenVector(x, cv[..n]);
    }
  }
}
