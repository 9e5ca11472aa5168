/** Key pairs, the collective key, and splitting a scalar into shares (lib/crypto.go). */
module KeyShares {
  import opened Group
  import opened Sums

  function PublicKeys(priv: seq<Scalar>): (r: seq<Point>)
    ensures |r| == |priv| && forall i :: 0 <= i < |priv| ==> r[i] == Mul(priv[i], Base)
  {
    seq(|priv|, i requires 0 <= i < |priv| => Mul(priv[i], Base))
  }

  /** The aggregate of the public keys is the public key of the sum of the private ones. */
  lemma {:induction false} AggregateIsPublic(priv: seq<Scalar>)
    ensures Sum(PublicKeys(priv)) == Mul(Sum(priv), Base)
  {
    if priv != [] {
      var n := |priv| - 1;
      AggregateIsPublic(priv[..n]);
      assert PublicKeys(priv)[..n] == PublicKeys(priv[..n]);
      AddMul(Sum(priv[..n]), priv[n], Base);
    }
  }

  /** The roster's aggregate: the public keys added up. */
  method AggregateKey(pub: seq<Point>) returns (group: Point)
    ensures group == Sum(pub)
  {
    group := Null;
    for i := 0 to |pub|
      invariant group == Sum(pub[..i])
    {
      SumPrefix(pub, i);
      group := Add(group, pub[i]);
    }
    assert pub[..|pub|] == pub;
  }

  /** The private keys are those drawn, the public keys theirs. */
  method GenKeys(n: nat, draws: nat -> Scalar) returns (group: Point, priv: seq<Scalar>, pub: seq<Point>)
    ensures |priv| == |pub| == n && forall i :: 0 <= i < n ==> priv[i] == draws(i) && pub[i] == Mul(draws(i), Base)
    ensures group == Mul(Sum(priv), Base)
  {
    priv := [];
    while |priv| < n
      invariant |priv| <= n && forall i :: 0 <= i < |priv| ==> priv[i] == draws(i)
    {
      priv := priv + [draws(|priv|)];
    }
    pub := PublicKeys(priv);
    group := AggregateKey(pub);
    AggregateIsPublic(priv);
  }

  /** A scalar behind a Go interface: arithmetic writes into it. */
  class ScalarCell {
    var value: Scalar

    constructor (v: Scalar)
      ensures value == v
    {
      value := v;
    }
  }

  /** SplitScalar: all shares but the last are drawn, and the shares add up to the scalar that was given, which is itself
      overwritten by the last share. */
  method SplitScalar(rootScalar: ScalarCell, nbrSplits: nat, draws: nat -> Scalar) returns (allScalars: seq<Scalar>)
    modifies rootScalar
    ensures |allScalars| == nbrSplits + 1 && forall i :: 0 <= i < nbrSplits ==> allScalars[i] == draws(i)
    ensures Sum(allScalars) == old(rootScalar.value)
    ensures rootScalar.value == allScalars[nbrSplits]
  {
    allScalars := [];
    for i := 0 to nbrSplits
      invariant |allScalars| == i && forall l :: 0 <= l < i ==> allScalars[l] == draws(l)
      invariant Add(Sum(allScalars), rootScalar.value) == old(rootScalar.value)
    {
      var share := draws(i);
      TakeShare(Sum(allScalars), rootScalar.value, share);
      rootScalar.value := Sub(rootScalar.value, share);
      assert (allScalars + [share])[..i] == allScalars;
      allScalars := allScalars + [share];
    }
    assert (allScalars + [rootScalar.value])[..nbrSplits] == allScalars;
    allScalars := allScalars + [rootScalar.value];
  }

  lemma TakeShare(a: Elem, r: Elem, s: Elem)
    ensures Add(Add(a, s), Sub(r, s)) == Add(a, r)
  {
  }
}
