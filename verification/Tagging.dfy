/** Distributed deterministic tagging: two rounds of a token on a ring of servers
    (protocols/deterministic_tagging_protocol.go, lib/deterministic_tag/deterministic_tag.go). */
module Tagging {
  import opened Group
  import opened Sums
  import opened ElGamal
  import opened Codec
  import opened Parallel
  import opened Ring
  import Primes

  /** One server's private key and its secret for this survey. */
  datatype Server = Server(key: Scalar, secret: Scalar)

  function Keys(servers: seq<Server>): (r: seq<Scalar>)
    ensures |r| == |servers| && forall i :: 0 <= i < |servers| ==> r[i] == servers[i].key
  {
    seq(|servers|, i requires 0 <= i < |servers| => servers[i].key)
  }

  function Secrets(servers: seq<Server>): (r: seq<Scalar>)
    ensures |r| == |servers| && forall i :: 0 <= i < |servers| ==> r[i] == servers[i].secret
  {
    seq(|servers|, i requires 0 <= i < |servers| => servers[i].secret)
  }

  /** The private key matching the servers' aggregate public key. */
  function CollectiveKey(servers: seq<Server>): Scalar {
    Sum(Keys(servers))
  }

  /** The tag of a plaintext: the product of the secrets times the plaintext blinded by their sum. */
  function Tag(servers: seq<Server>, M: Point): Point {
    Mul(Product(Secrets(servers)), Add(M, Sum(Secrets(servers))))
  }

  // ---------- one server's work ----------

  /** First round: the secret's point is added to the message part. */
  function AddSecret(c: CipherText, secret: Scalar): CipherText {
    CipherText(c.K, Add(c.C, Mul(secret, Base)))
  }

  /** DeterministicTag: partial decryption, then multiplication by the secret. */
  function DeterministicTag(c: CipherText, key: Scalar, secret: Scalar): CipherText {
    CipherText(Mul(secret, c.K), Mul(secret, Sub(c.C, Mul(key, c.K))))
  }

  method AddSecretVector(data: CipherVector, secret: Scalar) returns (r: CipherVector)
    ensures |r| == |data| && forall i :: 0 <= i < |data| ==> r[i] == AddSecret(data[i], secret)
  {
    var toAdd := Mul(secret, Base);
    r := ParallelMap(data, NullCipher, (_, c: CipherText) => CipherText(c.K, Add(c.C, toAdd)));
  }

  method DeterministicTagSequence(data: CipherVector, key: Scalar, secret: Scalar) returns (r: CipherVector)
    ensures |r| == |data| && forall i :: 0 <= i < |data| ==> r[i] == DeterministicTag(data[i], key, secret)
  {
    r := ParallelMap(data, NullCipher, (_, c: CipherText) => DeterministicTag(c, key, secret));
  }

  // ---------- the two rounds over a list of servers ----------

  /** A ciphertext after the first round of every server in turn. */
  function FirstRound(servers: seq<Server>, c: CipherText): CipherText {
    if servers == [] then c
    else AddSecret(FirstRound(servers[..|servers| - 1], c), servers[|servers| - 1].secret)
  }

  /** A ciphertext after the second round of every server in turn. */
  function SecondRound(servers: seq<Server>, c: CipherText): CipherText {
    if servers == [] then c
    else DeterministicTag(SecondRound(servers[..|servers| - 1], c), servers[|servers| - 1].key, servers[|servers| - 1].secret)
  }

  lemma {:induction false} FirstRoundAdds(servers: seq<Server>, c: CipherText)
    ensures FirstRound(servers, c) == CipherText(c.K, Add(c.C, Sum(Secrets(servers))))
  {
    if servers != [] {
      var n := |servers| - 1;
      FirstRoundAdds(servers[..n], c);
      MulBase(servers[n].secret);
      assert Secrets(servers)[..n] == Secrets(servers[..n]);
    }
  }

  /** One partial decryption: opening with the rest of the key then gives the secret times the opening with this
      server's key included. */
  lemma TagStep(c: CipherText, key: Scalar, secret: Scalar, rest: Scalar)
    ensures Open(rest, DeterministicTag(c, key, secret)) == Mul(secret, Open(Add(key, rest), c))
  {
    var D := Sub(c.C, Mul(key, c.K));
    MulAssoc(rest, secret, c.K);
    MulAssoc(secret, rest, c.K);
    MulComm(rest, secret);
    MulSub(secret, D, Mul(rest, c.K));
    AddMul(key, rest, c.K);
    SubTwice(c.C, Mul(key, c.K), Mul(rest, c.K));
  }

  /** Invariant of the second round: after any prefix of the servers, what the remaining keys open is the product of
      the used secrets times the original plaintext. */
  lemma {:induction false} SecondRoundOpens(servers: seq<Server>, c: CipherText, rest: Scalar)
    ensures Open(rest, SecondRound(servers, c))
            == Mul(Product(Secrets(servers)), Open(Add(CollectiveKey(servers), rest), c))
  {
    if servers == [] {
      MulComm(1, Open(rest, c));
      MulBase(Open(rest, c));
    } else {
      var n := |servers| - 1;
      var before, s := SecondRound(servers[..n], c), servers[n];
      assert Secrets(servers)[..n] == Secrets(servers[..n]) && Keys(servers)[..n] == Keys(servers[..n]);
      TagStep(before, s.key, s.secret, rest);
      SecondRoundOpens(servers[..n], c, Add(s.key, rest));
      AddAssoc(CollectiveKey(servers[..n]), s.key, rest);
      MulAssoc(s.secret, Product(Secrets(servers[..n])), Open(Add(CollectiveKey(servers), rest), c));
    }
  }

  /** Both rounds, in whatever order the servers stand on the ring, give the tag of the plaintext. */
  lemma TwoRoundsTag(servers: seq<Server>, c: CipherText)
    ensures SecondRound(servers, FirstRound(servers, c)).C == Tag(servers, Open(CollectiveKey(servers), c))
  {
    var blinded := FirstRound(servers, c);
    var x, b := CollectiveKey(servers), Sum(Secrets(servers));
    FirstRoundAdds(servers, c);
    SecondRoundOpens(servers, blinded, 0);
    OpenWithZero(SecondRound(servers, blinded));
    assert Add(x, 0) == x;
    AddSubSwap(c.C, b, Mul(x, c.K));
  }

  lemma OpenWithZero(c: CipherText)
    ensures Open(0, c) == c.C
  {
  }

  // ---------- what the tag is good for ----------

  /** Neither the tag nor the collective key depends on the order of the servers, so neither depends on which server
      is the root or on the shape of the tree whose node list is the ring. */
  lemma {:induction false} OrderIrrelevant(a: seq<Server>, b: seq<Server>, M: Point)
    requires multiset(a) == multiset(b)
    ensures Tag(a, M) == Tag(b, M) && CollectiveKey(a) == CollectiveKey(b)
  {
    SameTotals(a, b);
  }

  lemma {:induction false} SameTotals(a: seq<Server>, b: seq<Server>)
    requires multiset(a) == multiset(b)
    ensures Sum(Secrets(a)) == Sum(Secrets(b)) && Product(Secrets(a)) == Product(Secrets(b)) && Sum(Keys(a)) == Sum(Keys(b))
  {
    if a == [] {
      assert |multiset(b)| == 0;
      assert b == [];
    } else {
      assert a[0] in multiset(b);
      var k :| 0 <= k < |b| && b[k] == a[0];
      SameTotals(Without(a, 0), Without(b, k));
      SplitTotals(a, 0);
      SplitTotals(b, k);
    }
  }

  lemma SplitTotals(a: seq<Server>, k: nat)
    requires k < |a|
    ensures var r := Without(a, k);
            Sum(Secrets(a)) == Add(Sum(Secrets(r)), a[k].secret) && Product(Secrets(a)) == Mul(a[k].secret, Product(Secrets(r)))
            && Sum(Keys(a)) == Add(Sum(Keys(r)), a[k].key)
  {
    assert Secrets(Without(a, k)) == Without(Secrets(a), k);
    assert Keys(Without(a, k)) == Without(Keys(a), k);
    SumWithout(Secrets(a), k);
    ProductWithout(Secrets(a), k);
    SumWithout(Keys(a), k);
  }

  lemma RotateMultiset<T>(xs: seq<T>, c: nat)
    requires c <= |xs|
    ensures multiset(Rotate(xs, c)) == multiset(xs)
  {
    assert xs == xs[..c] + xs[c..];
  }

  ghost predicate SecretsNonzero(servers: seq<Server>) {
    forall i :: 0 <= i < |servers| ==> servers[i].secret != 0
  }

  /** Tags are equal exactly for equal plaintexts, as long as no server drew the zero secret. */
  lemma TagInjective(servers: seq<Server>, M: Point, N: Point)
    requires SecretsNonzero(servers)
    ensures Tag(servers, M) == Tag(servers, N) <==> M == N
  {
    var b := Sum(Secrets(servers));
    ProductNonzero(Secrets(servers));
    MulCancel(Product(Secrets(servers)), Add(M, b), Add(N, b));
  }

  /** Two ciphertexts tagged around differently ordered rings, hence by different roots, get equal tags exactly when they
      hide equal plaintexts. */
  lemma EqualTagsAcrossRings(a: seq<Server>, b: seq<Server>, c: CipherText, d: CipherText)
    requires multiset(a) == multiset(b) && SecretsNonzero(a)
    ensures Tag(a, Open(CollectiveKey(a), c)) == Tag(b, Open(CollectiveKey(b), d))
            <==> Open(CollectiveKey(a), c) == Open(CollectiveKey(a), d)
  {
    var x := CollectiveKey(a);
    OrderIrrelevant(a, b, Open(x, d));
    TagInjective(a, Open(x, c), Open(x, d));
  }

  /** One zero secret makes every tag the same. */
  lemma {:induction false} ZeroSecretCollapses(servers: seq<Server>, M: Point)
    requires !SecretsNonzero(servers)
    ensures Tag(servers, M) == 0
  {
    ProductWithZero(Secrets(servers));
    NoZeroDivisors(Product(Secrets(servers)), Add(M, Sum(Secrets(servers))));
  }

  lemma {:induction false} ProductWithZero(xs: seq<Scalar>)
    requires exists i :: 0 <= i < |xs| && xs[i] == 0
    ensures Product(xs) == 0
  {
    var n := |xs| - 1;
    NoZeroDivisors(xs[n], Product(xs[..n]));
    if xs[n] != 0 {
      var i :| 0 <= i < |xs| && xs[i] == 0;
      assert xs[..n][i] == 0;
      ProductWithZero(xs[..n]);
    }
  }

  // ---------- the ring ----------

  lemma ElementCount(n: nat, size: nat)
    requires size > 0
    ensures (n * size) / size == n
  {
    Primes.DivModUnique(n * size, size, n, 0);
  }

  /** The order in which a ring entered after the root is visited. */
  function FromRoot(servers: seq<Server>, root: nat): (r: seq<Server>)
    requires root < |servers|
    ensures |r| == |servers|
  {
    Rotate(servers, root + 1)
  }

  /** From the server after the root to the end of the node list, then from its start to the root. */
  lemma FromRootAt(servers: seq<Server>, root: nat, j: nat)
    requires root < |servers| && j < |servers|
    ensures FromRoot(servers, root)[j] == if root + 1 + j < |servers| then servers[root + 1 + j] else servers[root + 1 + j - |servers|]
  {
  }

  /** What a node does with its first message and with its second. */
  function Visit(server: Server, received: nat, c: CipherText): CipherText {
    if received == 0 then AddSecret(c, server.secret) else DeterministicTag(c, server.key, server.secret)
  }

  method Receive(server: Server, received: nat, data: CipherVector) returns (r: CipherVector)
    ensures |r| == |data| && forall i :: 0 <= i < |data| ==> r[i] == Visit(server, received, data[i])
  {
    if received == 0 {
      r := AddSecretVector(data, server.secret);
    } else {
      r := DeterministicTagSequence(data, server.key, server.secret);
    }
  }

  /** One delivery: the node decodes the token, does the work of the round it is in and remembers the visit. */
  method Deliver(servers: seq<Server>, root: nat, ghost hops: nat, received: seq<nat>, wire: seq<byte>, at: nat, ghost target: CipherVector)
    returns (received': seq<nat>, data: CipherVector)
    requires root < |servers| && hops < 2 * |servers|
    requires at == Position(root, |servers|, hops) && Visits(received, root, |servers|, hops)
    requires wire == VectorBytes(RingData(FromRoot(servers, root), hops, target)) && |wire| == |target| * CIPHER_LEN
    ensures Visits(received', root, |servers|, hops + 1) && received'[at] == (if hops < |servers| then 1 else 2)
    ensures data == RingData(FromRoot(servers, root), hops + 1, target)
  {
    VectorRoundTrip(RingData(FromRoot(servers, root), hops, target));
    VisitsStep(received, root, |servers|, hops);
    ElementCount(|target|, CIPHER_LEN);
    data := CipherVectorFromBytes(wire, |wire| / CIPHER_LEN);
    assert wire[..|wire|] == wire;
    data := Receive(servers[at], received[at], data);
    RingStep(servers, root, hops, target, data);
    received' := received[at := received[at] + 1];
  }

  /** Start at the root sends the target to the next node; every node then adds its secret to the first message it
      receives and tags the second. The token moves as bytes. The root keeps the result of its own second visit. */
  method RunRing(servers: seq<Server>, root: nat, target: CipherVector) returns (data: CipherVector, hops: nat)
    requires root < |servers|
    ensures hops == 2 * |servers|
    ensures data == RingData(FromRoot(servers, root), hops, target)
  {
    var n := |servers|;
    var received: seq<nat> := seq(n, _ => 0);
    var at := Next(root, n);
    hops, data := 0, target;
    VisitsStart(root, n, received);
    PositionIs(root, n, 0);
    while true
      invariant hops < 2 * n && at == Position(root, n, hops) && Visits(received, root, n, hops)
      invariant data == RingData(FromRoot(servers, root), hops, target)
      decreases 2 * n - hops
    {
      PositionIs(root, n, hops);
      var wire, _ := CipherVectorToBytes(data);
      received, data := Deliver(servers, root, hops, received, wire, at, target);
      hops := hops + 1;
      if at == root && received[at] == 2 {
        return;
      }
      at := Next(at, n);
    }
  }

  /** The protocol on any ring: 2n hops, and the tag of every plaintext, whichever server is the root. */
  method RunTagging(servers: seq<Server>, root: nat, target: CipherVector) returns (tagged: seq<Point>, hops: nat)
    requires root < |servers|
    ensures hops == 2 * |servers|
    ensures |tagged| == |target|
    ensures forall i :: 0 <= i < |target| ==> tagged[i] == Tag(servers, Open(CollectiveKey(servers), target[i]))
  {
    var data;
    data, hops := RunRing(servers, root, target);
    tagged := ParallelMap(data, Null, (_, c: CipherText) => c.C);
    RotateMultiset(servers, root + 1);
    forall i | 0 <= i < |target| ensures tagged[i] == Tag(servers, Open(CollectiveKey(servers), target[i])) {
      var ring := FromRoot(servers, root);
      assert ring[..|ring|] == ring;
      TwoRoundsTag(ring, target[i]);
      OrderIrrelevant(ring, servers, Open(CollectiveKey(servers), target[i]));
    }
  }

  /** How often each node has been visited after so many hops. */
  ghost predicate Visits(received: seq<nat>, root: nat, n: nat, hops: nat)
    requires root < n && hops <= 2 * n
  {
    |received| == n && forall j :: 0 <= j < n ==> received[Position(root, n, j)] == (if j < hops then 1 else 0) + (if n + j < hops then 1 else 0)
  }

  lemma VisitsStart(root: nat, n: nat, received: seq<nat>)
    requires root < n && |received| == n && forall i :: 0 <= i < n ==> received[i] == 0
    ensures Visits(received, root, n, 0)
  {
  }

  lemma VisitsStep(received: seq<nat>, root: nat, n: nat, hops: nat)
    requires root < n && hops < 2 * n && Visits(received, root, n, hops)
    ensures var at := Position(root, n, hops);
            received[at] == (if hops < n then 0 else 1) && Visits(received[at := received[at] + 1], root, n, hops + 1)
  {
    var j := if hops < n then hops else hops - n;
    PositionIs(root, n, hops);
    OnePosition(root, n, j);
  }

  /** The token's content after so many hops. */
  ghost function RingData(ring: seq<Server>, hops: nat, target: CipherVector): (r: CipherVector)
    requires hops <= 2 * |ring|
    ensures |r| == |target|
  {
    seq(|target|, i requires 0 <= i < |target| => AfterHops(ring, hops, target[i]))
  }

  lemma RingStep(servers: seq<Server>, root: nat, hops: nat, target: CipherVector, data: CipherVector)
    requires root < |servers| && hops < 2 * |servers| && |data| == |target|
    requires forall i :: 0 <= i < |data| ==>
      data[i] == Visit(servers[Position(root, |servers|, hops)], if hops < |servers| then 0 else 1,
                       RingData(FromRoot(servers, root), hops, target)[i])
    ensures data == RingData(FromRoot(servers, root), hops + 1, target)
  {
    var ring, n := FromRoot(servers, root), |servers|;
    assert ring[if hops < n then hops else hops - n] == servers[Position(root, n, hops)];
    forall i | 0 <= i < |data| ensures data[i] == AfterHops(ring, hops + 1, target[i]) {
      AfterHop(ring, hops, target[i]);
    }
  }

  /** A ciphertext after so many hops along the ring. */
  ghost function AfterHops(ring: seq<Server>, hops: nat, c: CipherText): CipherText
    requires hops <= 2 * |ring|
  {
    if hops <= |ring| then FirstRound(ring[..hops], c)
    else SecondRound(ring[..hops - |ring|], FirstRound(ring, c))
  }

  lemma AfterHop(ring: seq<Server>, hops: nat, c: CipherText)
    requires hops < 2 * |ring|
    ensures AfterHops(ring, hops + 1, c)
            == if hops < |ring| then AddSecret(AfterHops(ring, hops, c), ring[hops].secret)
               else DeterministicTag(AfterHops(ring, hops, c), ring[hops - |ring|].key, ring[hops - |ring|].secret)
  {
    var n := |ring|;
    if hops < n {
      assert ring[..hops + 1][..hops] == ring[..hops];
    } else {
      var j := hops - n;
      assert ring[..j + 1][..j] == ring[..j];
      assert ring[..n] == ring;
    }
  }
}
