/** The linear algebra behind the shuffle proof: each row is compressed to one ciphertext by challenge scalars
    (lib/shuffle/shuffle_proofs.go). */
module ShuffleProof {
  import opened Group
  import opened Sums
  import opened ElGamal
  import opened Options
  import opened Responses
  import opened Shuffle

  /** The combination of a row with the challenges. */
  function Compress(cv: CipherVector, e: seq<Scalar>): CipherText
    requires |cv| == |e|
  {
    if cv == [] then NullCipher
    else AddCipher(Compress(cv[..|cv| - 1], e[..|e| - 1]), MulCipher(e[|e| - 1], cv[|cv| - 1]))
  }

  function CompressScalars(beta: seq<Scalar>, e: seq<Scalar>): Scalar
    requires |beta| == |e|
  {
    if beta == [] then 0
    else Add(CompressScalars(beta[..|beta| - 1], e[..|e| - 1]), Mul(beta[|beta| - 1], e[|e| - 1]))
  }

  // ---------- what compression is ----------

  /** Every value scaled by its own challenge. */
  function Scaled(e: seq<Scalar>, values: seq<Elem>): (r: seq<Elem>)
    requires |e| == |values|
    ensures |r| == |e| && forall j :: 0 <= j < |e| ==> r[j] == Mul(e[j], values[j])
  {
    seq(|e|, j requires 0 <= j < |e| => Mul(e[j], values[j]))
  }

  /** Under every key the compressed row opens to the sum of what its elements open to, each times its challenge. */
  lemma {:induction false} CompressOpens(x: Scalar, cv: CipherVector, e: seq<Scalar>)
    requires |cv| == |e|
    ensures Open(x, Compress(cv, e)) == Sum(Scaled(e, OpenVector(x, cv)))
  {
    if cv == [] {
      MulNull(x);
    } else {
      var n := |cv| - 1;
      CompressOpens(x, cv[..n], e[..n]);
      OpenAdd(x, Compress(cv[..n], e[..n]), MulCipher(e[n], cv[n]));
      OpenMul(x, e[n], cv[n]);
      assert Scaled(e, OpenVector(x, cv))[..n] == Scaled(e[..n], OpenVector(x, cv[..n]));
    }
  }

  lemma {:induction false} CompressScalarsIs(beta: seq<Scalar>, e: seq<Scalar>)
    requires |beta| == |e|
    ensures CompressScalars(beta, e) == Sum(Scaled(e, beta))
  {
    if beta != [] {
      var n := |beta| - 1;
      CompressScalarsIs(beta[..n], e[..n]);
      MulComm(beta[n], e[n]);
      assert Scaled(e, beta)[..n] == Scaled(e[..n], beta[..n]);
    }
  }

  /** The challenges that are 1 at j and 0 elsewhere. */
  function Unit(n: nat, j: nat): (e: seq<Scalar>)
    ensures |e| == n && forall l :: 0 <= l < n ==> e[l] == if l == j then 1 else 0
  {
    seq(n, l => if l == j then 1 else 0)
  }

  lemma {:induction false} CompressPicks(cv: CipherVector, j: nat)
    ensures Compress(cv, Unit(|cv|, j)) == if j < |cv| then cv[j] else NullCipher
  {
    if cv != [] {
      var n := |cv| - 1;
      CompressPicks(cv[..n], j);
      assert Unit(|cv|, j)[..n] == Unit(n, j);
      MulOne(cv[n].K);
      MulOne(cv[n].C);
    }
  }

  lemma {:induction false} CompressScalarsPicks(beta: seq<Scalar>, j: nat)
    ensures CompressScalars(beta, Unit(|beta|, j)) == if j < |beta| then beta[j] else 0
  {
    if beta != [] {
      var n := |beta| - 1;
      CompressScalarsPicks(beta[..n], j);
      assert Unit(|beta|, j)[..n] == Unit(n, j);
      MulBase(beta[n]);
      MulNull(beta[n]);
    }
  }

  lemma MulOne(p: Elem)
    ensures Mul(1, p) == p && Mul(0, p) == 0
  {
    MulComm(1, p);
    MulBase(p);
  }

  // ---------- the loops ----------

  /** compressCipherVector refuses a challenge vector of another length. */
  method CompressCipherVector(cv: CipherVector, e: seq<Scalar>) returns (r: Option<CipherText>)
    ensures r == if |e| == |cv| then Some(Compress(cv, e)) else None
  {
    var k := |cv|;
    if |e| != k {
      return None;
    }
    var ciphertext := NullCipher;
    for i := 0 to k
      invariant ciphertext == Compress(cv[..i], e[..i])
    {
      assert cv[..i + 1][..i] == cv[..i] && e[..i + 1][..i] == e[..i];
      ciphertext := AddCipher(ciphertext, MulCipher(e[i], cv[i]));
    }
    assert cv[..k] == cv && e[..k] == e;
    return Some(ciphertext);
  }

  /** compressListCipherVector: the K parts and the C parts of the compressed rows, or an error if one row does not
      match the challenges. */
  method CompressListCipherVector(rows: Matrix, e: seq<Scalar>) returns (ok: bool, xK: seq<Point>, xC: seq<Point>)
    ensures ok <==> Rectangular(rows, |e|)
    ensures ok ==> |xK| == |xC| == |rows|
    ensures ok ==> forall i :: 0 <= i < |rows| ==> CipherText(xK[i], xC[i]) == Compress(rows[i], e)
  {
    ok, xK, xC := true, [], [];
    for i := 0 to |rows|
      invariant ok <==> Rectangular(rows[..i], |e|)
      invariant ok ==> |xK| == |xC| == i
      invariant ok ==> forall l :: 0 <= l < i ==> CipherText(xK[l], xC[l]) == Compress(rows[l], e)
    {
      var tmp := CompressCipherVector(rows[i], e);
      if tmp.None? {
        assert rows[..i + 1][i] == rows[i];
        ok := false;
      } else if ok {
        assert rows[..i + 1][..i] == rows[..i];
        xK, xC := xK + [tmp.value.K], xC + [tmp.value.C];
      } else {
        assert !Rectangular(rows[..i + 1], |e|) by { assert rows[..i + 1][..i] == rows[..i]; }
      }
    }
    assert rows[..|rows|] == rows;
  }

  method CompressBeta(beta: seq<seq<Scalar>>, e: seq<Scalar>) returns (betaCompressed: seq<Scalar>)
    requires beta != [] && Shaped(beta, |beta|, |beta[0]|) && |e| == |beta[0]|
    ensures |betaCompressed| == |beta| && forall i :: 0 <= i < |beta| ==> |beta[i]| == |e| && betaCompressed[i] == CompressScalars(beta[i], e)
  {
    var k, NQ := |beta|, |beta[0]|;
    betaCompressed := [];
    for i := 0 to k
      invariant |betaCompressed| == i && forall l :: 0 <= l < i ==> betaCompressed[l] == CompressScalars(beta[l], e)
    {
      var sum := 0;
      for j := 0 to NQ
        invariant sum == CompressScalars(beta[i][..j], e[..j])
      {
        assert beta[i][..j + 1][..j] == beta[i][..j] && e[..j + 1][..j] == e[..j];
        sum := Add(sum, Mul(beta[i][j], e[j]));
      }
      assert beta[i][..NQ] == beta[i] && e[..NQ] == e;
      betaCompressed := betaCompressed + [sum];
    }
  }

  lemma ScaledRandomizer(e: Scalar, b: Scalar, p: Point)
    ensures Mul(e, Mul(b, p)) == Mul(Mul(b, e), p)
  {
    MulAssoc(e, b, p);
    MulComm(e, b);
  }

  /** Compression is linear in the randomisers of a row. */
  lemma {:induction false} CompressRow(row: CipherVector, b: seq<Scalar>, shuffled: CipherVector, e: seq<Scalar>, g: Point, h: Point)
    requires |row| == |b| == |shuffled| == |e|
    requires forall j :: 0 <= j < |row| ==> shuffled[j] == Rerandomize(row[j], b[j], g, h)
    ensures var bc := CompressScalars(b, e);
            Compress(shuffled, e) == AddCipher(Compress(row, e), CipherText(Mul(bc, g), Mul(bc, h)))
  {
    if row != [] {
      var n := |row| - 1;
      CompressRow(row[..n], b[..n], shuffled[..n], e[..n], g, h);
      var bc := CompressScalars(b[..n], e[..n]);
      MulAdd(e[n], row[n].K, Mul(b[n], g));
      MulAdd(e[n], row[n].C, Mul(b[n], h));
      ScaledRandomizer(e[n], b[n], g);
      ScaledRandomizer(e[n], b[n], h);
      AddMul(bc, Mul(b[n], e[n]), g);
      AddMul(bc, Mul(b[n], e[n]), h);
      var rest := Compress(row[..n], e[..n]);
      AddPairs(rest.K, Mul(bc, g), Mul(e[n], row[n].K), Mul(Mul(b[n], e[n]), g));
      AddPairs(rest.C, Mul(bc, h), Mul(e[n], row[n].C), Mul(Mul(b[n], e[n]), h));
    }
  }

  /** The statement the pair-shuffle proof is about: the compressed outputs are the compressed inputs in the order of
      the permutation, each re-randomised by the compressed scalar of the same input row. */
  lemma CompressionCommutes(input: Matrix, output: Matrix, pi: seq<nat>, beta: seq<seq<Scalar>>, g: Point, h: Point, e: seq<Scalar>)
    requires Rectangular(input, |e|) && IsShuffle(input, output, pi, beta, g, h, |e|)
    ensures forall i :: 0 <= i < |output| ==>
      Compress(output[i], e) == Rerandomize(Compress(input[pi[i]], e), CompressScalars(beta[pi[i]], e), g, h)
  {
    forall i | 0 <= i < |output|
      ensures Compress(output[i], e) == Rerandomize(Compress(input[pi[i]], e), CompressScalars(beta[pi[i]], e), g, h)
    {
      CompressRow(input[pi[i]], beta[pi[i]], output[i], e, g, h);
    }
  }

  /** The values ShuffleProofCreation hands to the prover are the compressed inputs, outputs and scalars, and satisfy the
      pair-shuffle relation
      (XhatBar, YhatBar)[i] = (Xhat, Yhat)[pi[i]] + betaCompressed[pi[i]] * (g, h). */
  method ProverStatement(input: Matrix, output: Matrix, pi: seq<nat>, beta: seq<seq<Scalar>>, g: Point, h: Point, e: seq<Scalar>)
    returns (Xhat: seq<Point>, Yhat: seq<Point>, XhatBar: seq<Point>, YhatBar: seq<Point>, betaCompressed: seq<Scalar>)
    requires input != [] && Rectangular(input, |e|) && IsShuffle(input, output, pi, beta, g, h, |e|)
    ensures |Xhat| == |Yhat| == |XhatBar| == |YhatBar| == |betaCompressed| == |input|
    ensures forall i :: 0 <= i < |input| ==>
      && CipherText(Xhat[i], Yhat[i]) == Compress(input[i], e) && CipherText(XhatBar[i], YhatBar[i]) == Compress(output[i], e)
      && betaCompressed[i] == CompressScalars(beta[i], e)
    ensures forall i :: 0 <= i < |input| ==>
      && XhatBar[i] == Add(Xhat[pi[i]], Mul(betaCompressed[pi[i]], g))
      && YhatBar[i] == Add(Yhat[pi[i]], Mul(betaCompressed[pi[i]], h))
  {
    var ok;
    ok, Xhat, Yhat := CompressListCipherVector(input, e);
    ok, XhatBar, YhatBar := CompressListCipherVector(output, e);
    betaCompressed := CompressBeta(beta, e);
    CompressionCommutes(input, output, pi, beta, g, h, e);
    forall i | 0 <= i < |input|
      ensures CipherText(XhatBar[i], YhatBar[i])
              == Rerandomize(CipherText(Xhat[pi[i]], Yhat[pi[i]]), betaCompressed[pi[i]], g, h)
    {
    }
  }
}
