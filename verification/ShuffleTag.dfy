/** Shuffling and tagging in a single pass of the ring (protocols/shuffling+ddt_protocol.go). */
module ShuffleTag {
  import opened Group
  import opened Sums
  import opened ElGamal
  import opened Codec
  import opened Ring
  import opened Options
  import opened Responses
  import opened Shuffle
  import opened Tagging

  /** The tag one pass gives a plaintext: every server in turn adds its secret and multiplies by it. */
  function PassTag(servers: seq<Server>, M: Point): Point {
    if servers == [] then M
    else
      var s := servers[|servers| - 1].secret;
      Mul(s, Add(PassTag(servers[..|servers| - 1], M), Mul(s, Base)))
  }

  function PassTagRow(servers: seq<Server>, row: seq<Point>): (r: seq<Point>)
    ensures |r| == |row| && forall c :: 0 <= c < |row| ==> r[c] == PassTag(servers, row[c])
  {
    seq(|row|, c requires 0 <= c < |row| => PassTag(servers, row[c]))
  }

  function PassTagRows(servers: seq<Server>, rows: seq<seq<Point>>): seq<seq<Point>> {
    Map((row: seq<Point>) => PassTagRow(servers, row), rows)
  }

  /** One pass tags injectively when no secret is zero. */
  lemma {:induction false} PassTagInjective(servers: seq<Server>, M: Point, N: Point)
    requires SecretsNonzero(servers)
    ensures PassTag(servers, M) == PassTag(servers, N) <==> M == N
  {
    if servers != [] {
      var n := |servers| - 1;
      var s := servers[n].secret;
      PassTagInjective(servers[..n], M, N);
      MulCancel(s, Add(PassTag(servers[..n], M), Mul(s, Base)), Add(PassTag(servers[..n], N), Mul(s, Base)));
    }
  }

  lemma PassTagRowInjective(servers: seq<Server>, a: seq<Point>, b: seq<Point>)
    requires SecretsNonzero(servers)
    ensures PassTagRow(servers, a) == PassTagRow(servers, b) <==> a == b
  {
    if PassTagRow(servers, a) == PassTagRow(servers, b) {
      forall c | 0 <= c < |a| ensures a[c] == b[c] {
        assert PassTagRow(servers, a)[c] == PassTagRow(servers, b)[c];
        PassTagInjective(servers, a[c], b[c]);
      }
    }
  }

  // ---------- when the order of the ring matters ----------

  /** The one-pass tag is affine in the plaintext: the product of the secrets times it, plus the tag of the null point. */
  lemma {:induction false} PassTagAffine(servers: seq<Server>, M: Point)
    ensures PassTag(servers, M) == Add(Mul(Product(Secrets(servers)), M), PassTag(servers, Null))
  {
    if servers == [] {
      MulComm(1, M);
      MulBase(M);
    } else {
      var n := |servers| - 1;
      var s := servers[n].secret;
      var product, blind := Product(Secrets(servers[..n])), PassTag(servers[..n], Null);
      assert Secrets(servers)[..n] == Secrets(servers[..n]);
      PassTagAffine(servers[..n], M);
      AddAssoc(Mul(product, M), blind, Mul(s, Base));
      MulAdd(s, Mul(product, M), Add(blind, Mul(s, Base)));
      MulAssoc(s, product, M);
    }
  }

  /** Two rings give every plaintext the same tag exactly when their secrets have the same product and they give the null
      point the same tag. */
  lemma RingsAgreeIff(a: seq<Server>, b: seq<Server>)
    ensures (forall M: Point :: PassTag(a, M) == PassTag(b, M))
            <==> Product(Secrets(a)) == Product(Secrets(b)) && PassTag(a, Null) == PassTag(b, Null)
  {
    var p, q := Product(Secrets(a)), Product(Secrets(b));
    forall M: Point ensures PassTag(a, M) == Add(Mul(p, M), PassTag(a, Null)) && PassTag(b, M) == Add(Mul(q, M), PassTag(b, Null)) {
      PassTagAffine(a, M);
      PassTagAffine(b, M);
    }
    MulBase(p);
    MulBase(q);
    assert PassTag(a, Base) == Add(p, PassTag(a, Null)) && PassTag(b, Base) == Add(q, PassTag(b, Null));
  }

  /** With the same product of secrets the rings agree on one plaintext exactly when they agree on the null point: they
      agree on all plaintexts or on none. */
  lemma AgreeOnAllOrNone(a: seq<Server>, b: seq<Server>, M: Point)
    requires Product(Secrets(a)) == Product(Secrets(b))
    ensures PassTag(a, M) == PassTag(b, M) <==> PassTag(a, Null) == PassTag(b, Null)
  {
    PassTagAffine(a, M);
    PassTagAffine(b, M);
  }

  /** Tags made around the two rings are equal exactly when the plaintexts are. */
  ghost predicate Comparable(a: seq<Server>, b: seq<Server>) {
    forall M: Point, N: Point :: PassTag(a, M) == PassTag(b, N) <==> M == N
  }

  /** Tags around two such rings compare as the plaintexts do exactly when both give the null point the same tag. */
  lemma RingsComparableIff(a: seq<Server>, b: seq<Server>)
    requires Product(Secrets(a)) == Product(Secrets(b)) && SecretsNonzero(b)
    ensures Comparable(a, b) <==> PassTag(a, Null) == PassTag(b, Null)
  {
    if PassTag(a, Null) == PassTag(b, Null) {
      forall M: Point, N: Point ensures PassTag(a, M) == PassTag(b, N) <==> M == N {
        AgreeOnAllOrNone(a, b, M);
        PassTagInjective(b, M, N);
      }
    }
  }

  /** In particular for the rings of two roots. */
  lemma RootsComparableIff(servers: seq<Server>, r1: nat, r2: nat)
    requires r1 < |servers| && r2 < |servers| && SecretsNonzero(servers)
    ensures Comparable(FromRoot(servers, r1), FromRoot(servers, r2))
            <==> PassTag(FromRoot(servers, r1), Null) == PassTag(FromRoot(servers, r2), Null)
  {
    RootProduct(servers, r1);
    RootProduct(servers, r2);
    RotatedNonzero(servers, r2);
    RingsComparableIff(FromRoot(servers, r1), FromRoot(servers, r2));
  }

  lemma RootProduct(servers: seq<Server>, root: nat)
    requires root < |servers|
    ensures Product(Secrets(FromRoot(servers, root))) == Product(Secrets(servers))
  {
    RotateMultiset(servers, root + 1);
    SameTotals(FromRoot(servers, root), servers);
  }

  lemma RotatedNonzero(servers: seq<Server>, root: nat)
    requires root < |servers| && SecretsNonzero(servers)
    ensures SecretsNonzero(FromRoot(servers, root))
  {
  }

  /** A pass over two stretches of the ring, one after the other. */
  lemma {:induction false} PassTagConcat(a: seq<Server>, b: seq<Server>, M: Point)
    ensures PassTag(a + b, M) == PassTag(b, PassTag(a, M))
  {
    if b == [] {
      assert a + b == a;
    } else {
      assert (a + b)[..|a + b| - 1] == a + b[..|b| - 1];
      PassTagConcat(a, b[..|b| - 1], M);
    }
  }

  lemma PassOne(a: Server, M: Point)
    ensures PassTag([a], M) == Mul(a.secret, Add(M, a.secret))
  {
    assert [a][..0] == [];
    MulBase(a.secret);
  }

  lemma PassTwo(a: Server, b: Server, M: Point)
    ensures PassTag([a, b], M) == Mul(b.secret, Add(Mul(a.secret, Add(M, a.secret)), b.secret))
  {
    assert [a] + [b] == [a, b];
    PassTagConcat([a], [b], M);
    PassOne(a, M);
    PassOne(b, PassTag([a], M));
  }

  lemma TwoSecrets(a: Server, b: Server)
    ensures Product(Secrets([a, b])) == Mul(b.secret, a.secret)
  {
    ProductPrefix([a.secret, b.secret], 0);
    ProductPrefix([a.secret, b.secret], 1);
    assert Secrets([a, b]) == [a.secret, b.secret] == [a.secret, b.secret][..2];
    MulBase(a.secret);
  }

  /** Where two neighbours commute: t(ss + t) = s(tt + s) in the field of scalars is (s - t)(st - s - t) = 0. */
  lemma CommuteIff(s: Scalar, t: Scalar)
    ensures Mul(t, Add(Mul(s, s), t)) == Mul(s, Add(Mul(t, t), s)) <==> s == t || Mul(s, t) == Add(s, t)
  {
    var p, d := Mul(s, t), Sub(s, t);
    Factored(s, t);
    Factored(t, s);
    MulComm(s, t);
    SquareDifference(s, t);
    if d != 0 {
      MulCancel(d, p, Add(s, t));
    }
  }

  lemma Factored(s: Scalar, t: Scalar)
    ensures Mul(t, Add(Mul(s, s), t)) == Add(Mul(s, Mul(s, t)), Mul(t, t))
  {
    MulAdd(t, Mul(s, s), t);
    MulComm(t, Mul(s, s));
    MulAssoc(s, s, t);
  }

  lemma SquareDifference(s: Scalar, t: Scalar)
    ensures Mul(Sub(s, t), Add(s, t)) == Sub(Mul(s, s), Mul(t, t))
    ensures Mul(Sub(s, t), Mul(s, t)) == Sub(Mul(s, Mul(s, t)), Mul(t, Mul(s, t)))
  {
    SubMul(s, t, Add(s, t));
    SubMul(s, t, Mul(s, t));
    MulAdd(s, s, t);
    MulAdd(t, s, t);
    MulComm(s, t);
  }

  lemma SubMul(s: Scalar, t: Scalar, p: Elem)
    ensures Mul(Sub(s, t), p) == Sub(Mul(s, p), Mul(t, p))
  {
    MulComm(Sub(s, t), p);
    MulComm(s, p);
    MulComm(t, p);
    MulSub(p, s, t);
  }

  /** Two servers give a plaintext the same tag in both orders, whatever the plaintext, exactly when their secrets are
      equal or have a product equal to their sum. */
  lemma TwoOrdersIff(a: Server, b: Server, M: Point)
    ensures PassTag([a, b], M) == PassTag([b, a], M) <==> a.secret == b.secret || Mul(a.secret, b.secret) == Add(a.secret, b.secret)
  {
    TwoSecrets(a, b);
    TwoSecrets(b, a);
    MulComm(a.secret, b.secret);
    AgreeOnAllOrNone([a, b], [b, a], M);
    PassTwo(a, b, Null);
    PassTwo(b, a, Null);
    CommuteIff(a.secret, b.secret);
  }

  /** Neighbours anywhere in a ring can change places without changing the tag of a plaintext under the same condition,
      provided that no later secret is zero. */
  lemma SwapIff(before: seq<Server>, a: Server, b: Server, after: seq<Server>, M: Point)
    requires SecretsNonzero(after)
    ensures PassTag(before + [a, b] + after, M) == PassTag(before + [b, a] + after, M)
            <==> a.secret == b.secret || Mul(a.secret, b.secret) == Add(a.secret, b.secret)
  {
    var N := PassTag(before, M);
    PassTagConcat(before + [a, b], after, M);
    PassTagConcat(before + [b, a], after, M);
    PassTagConcat(before, [a, b], M);
    PassTagConcat(before, [b, a], M);
    PassTagInjective(after, PassTag([a, b], N), PassTag([b, a], N));
    TwoOrdersIff(a, b, N);
  }

  /** The ring of the next root: its first server moves to the end. */
  lemma NextRootIff(a: Server, rest: seq<Server>, M: Point)
    ensures PassTag([a] + rest, M) == PassTag(rest + [a], M)
            <==> Add(Mul(Product(Secrets(rest)), Mul(a.secret, a.secret)), PassTag(rest, Null)) == Mul(a.secret, Add(PassTag(rest, Null), a.secret))
  {
    SameTotals([a] + rest, rest + [a]);
    AgreeOnAllOrNone([a] + rest, rest + [a], M);
    PassTagConcat([a], rest, Null);
    PassTagConcat(rest, [a], Null);
    PassOne(a, Null);
    PassOne(a, PassTag(rest, Null));
    PassTagAffine(rest, Mul(a.secret, a.secret));
  }

  /** A witness: the secrets 1 and 2. */
  lemma PassTagDependsOnOrder(M: Point)
    ensures var a, b := Server(0, 1), Server(0, 2);
            PassTag([a, b], M) != PassTag([b, a], M)
  {
    var a, b := Server(0, 1), Server(0, 2);
    TwoOrdersIff(a, b, M);
    MulComm(1, 2);
    MulBase(2);
  }

  // ---------- one hop ----------

  /** Steps 2 and 3 on one ciphertext. */
  function AddAndTag(s: Server, c: CipherText): CipherText {
    DeterministicTag(AddSecret(c, s.secret), s.key, s.secret)
  }

  lemma AddAndTagOpens(s: Server, c: CipherText, rest: Scalar)
    ensures Open(rest, AddAndTag(s, c)) == Mul(s.secret, Add(Open(Add(s.key, rest), c), Mul(s.secret, Base)))
  {
    TagStep(AddSecret(c, s.secret), s.key, s.secret, rest);
    AddSubSwap(c.C, Mul(s.secret, Base), Mul(Add(s.key, rest), c.K));
  }

  method AddAndTagRows(s: Server, rows: Matrix) returns (r: Matrix)
    ensures |r| == |rows|
    ensures forall i :: 0 <= i < |rows| ==> |r[i]| == |rows[i]| && forall c :: 0 <= c < |rows[i]| ==> r[i][c] == AddAndTag(s, rows[i][c])
  {
    r := [];
    for i := 0 to |rows|
      invariant |r| == i
      invariant forall l :: 0 <= l < i ==> |r[l]| == |rows[l]| && forall c :: 0 <= c < |rows[l]| ==> r[l][c] == AddAndTag(s, rows[l][c])
    {
      var row := AddSecretVector(rows[i], s.secret);
      row := DeterministicTagSequence(row, s.key, s.secret);
      r := r + [row];
    }
  }

  /** What is left of the ring's keys after the first j hops. */
  ghost function RestKey(ring: seq<Server>, j: nat): Scalar
    requires j <= |ring|
  {
    CollectiveKey(ring[j..])
  }

  lemma RestKeyStep(ring: seq<Server>, j: nat)
    requires j < |ring|
    ensures RestKey(ring, j) == Add(ring[j].key, RestKey(ring, j + 1))
  {
    assert Keys(ring[j..]) == [ring[j].key] + Keys(ring[j + 1..]);
    SumConcat([ring[j].key], Keys(ring[j + 1..]));
    assert Sum([ring[j].key]) == ring[j].key by { assert [ring[j].key][..0] == []; }
  }

  /** The invariant of the pass after j hops: under what remains of the keys, the rows are the original plaintext rows
      in some order, each element tagged by the first j servers. */
  ghost predicate Passed(ring: seq<Server>, j: nat, x: Scalar, target: Matrix, data: Matrix)
    requires j <= |ring|
  {
    multiset(OpenMatrix(RestKey(ring, j), data)) == multiset(PassTagRows(ring[..j], OpenMatrix(x, target)))
  }

  lemma PassTagRowStep(ring: seq<Server>, j: nat, rows: seq<seq<Point>>)
    requires j < |ring|
    ensures PassTagRows(ring[..j + 1], rows) == PassTagRows([ring[j]], PassTagRows(ring[..j], rows))
  {
    assert ring[..j + 1][..j] == ring[..j] && [ring[j]][..0] == [];
    forall i, c | 0 <= i < |rows| && 0 <= c < |rows[i]|
      ensures PassTag(ring[..j + 1], rows[i][c]) == PassTag([ring[j]], PassTag(ring[..j], rows[i][c]))
    {
    }
    forall i | 0 <= i < |rows|
      ensures PassTagRow(ring[..j + 1], rows[i]) == PassTagRow([ring[j]], PassTagRow(ring[..j], rows[i]))
    {
    }
  }

  /** One hop carries the invariant on. */
  lemma HopPasses(ring: seq<Server>, j: nat, x: Scalar, target: Matrix, data: Matrix, shuffled: Matrix, tagged: Matrix)
    requires j < |ring| && Passed(ring, j, x, target, data)
    requires multiset(OpenMatrix(RestKey(ring, j), shuffled)) == multiset(OpenMatrix(RestKey(ring, j), data))
    requires |tagged| == |shuffled|
    requires forall i :: 0 <= i < |shuffled| ==> |tagged[i]| == |shuffled[i]|
    requires forall i, c :: 0 <= i < |shuffled| && 0 <= c < |shuffled[i]| ==> tagged[i][c] == AddAndTag(ring[j], shuffled[i][c])
    ensures Passed(ring, j + 1, x, target, tagged)
  {
    var key, rest := RestKey(ring, j), RestKey(ring, j + 1);
    RestKeyStep(ring, j);
    assert [ring[j]][..0] == [];
    forall i | 0 <= i < |shuffled|
      ensures OpenVector(rest, tagged[i]) == PassTagRow([ring[j]], OpenVector(key, shuffled[i]))
    {
      forall c | 0 <= c < |shuffled[i]|
        ensures Open(rest, tagged[i][c]) == PassTag([ring[j]], Open(key, shuffled[i][c]))
      {
        AddAndTagOpens(ring[j], shuffled[i][c], rest);
      }
    }
    assert OpenMatrix(rest, tagged) == PassTagRows([ring[j]], OpenMatrix(key, shuffled));
    MapMultiset((row: seq<Point>) => PassTagRow([ring[j]], row), OpenMatrix(key, shuffled), PassTagRows(ring[..j], OpenMatrix(x, target)));
    assert multiset(PassTagRows([ring[j]], OpenMatrix(key, shuffled)))
        == multiset(PassTagRows([ring[j]], PassTagRows(ring[..j], OpenMatrix(x, target))));
    PassTagRowStep(ring, j, OpenMatrix(x, target));
  }

  // ---------- the pass ----------

  /** The tables and draws of every node suit the key that reaches it: the aggregate minus the public keys of the nodes
      already passed. A table made for the whole aggregate is right for the first hop only. */
  predicate PassMixers(mixers: seq<Mixer>, ring: seq<Server>, k: nat, NQ: nat)
    requires |mixers| == |ring|
  {
    forall j :: 0 <= j < |ring| ==>
      Fits(mixers[j].r, mixers[j].precomputed, k, NQ) && RightTable(mixers[j].precomputed, Base, Mul(Sum(Keys(ring[j..])), Base))
  }

  lemma KeyShrinks(ring: seq<Server>, j: nat)
    requires j < |ring|
    ensures Sub(Mul(RestKey(ring, j), Base), Mul(ring[j].key, Base)) == Mul(RestKey(ring, j + 1), Base)
  {
    RestKeyStep(ring, j);
    MulBase(RestKey(ring, j));
    MulBase(RestKey(ring, j + 1));
    MulBase(ring[j].key);
  }

  /** What one node makes of the rows: it mixes them under its key, and adds and tags every element of the mixed rows. */
  ghost predicate HopMade(server: Server, mixer: Mixer, data: Matrix, mixed: Matrix, tagged: Matrix, k: nat, NQ: nat, h: Point) {
    && MixedBy(mixer, data, mixed, k, NQ, h) && Shaped(tagged, k, NQ)
    && forall i, c :: 0 <= i < k && 0 <= c < NQ ==> tagged[i][c] == AddAndTag(server, mixed[i][c])
  }

  /** One node: shuffle under the key in the message, add the secret, partially decrypt and tag, and take the node's
      own public key out of the shuffling key. */
  method Hop(ghost ring: seq<Server>, ghost j: nat, server: Server, mixer: Mixer, message: ShufflingMessage, shuffKey: seq<byte>,
             ghost x: Scalar, ghost target: Matrix, ghost data: Matrix, ghost k: nat, ghost NQ: nat)
    returns (tagged: Matrix, nextKey: seq<byte>, ghost mixed: Matrix)
    requires j < |ring| && server == ring[j] && Passed(ring, j, x, target, data)
    requires k > 0 && NQ < UINT32 && Shaped(data, k, NQ)
    requires message == Sent(data) && shuffKey == PointBytes(Mul(RestKey(ring, j), Base))
    requires MixersFit([mixer], k, NQ, Mul(RestKey(ring, j), Base))
    ensures Passed(ring, j + 1, x, target, tagged) && HopMade(server, mixer, data, mixed, tagged, k, NQ, Mul(RestKey(ring, j), Base))
    ensures nextKey == PointBytes(Mul(RestKey(ring, j + 1), Base))
  {
    var rows := Received(message, data);
    var h := BytesPoint(shuffKey);
    PointRoundTrip(Mul(RestKey(ring, j), Base));
    var shuffled := Mix(mixer, rows, RestKey(ring, j), h);
    tagged := AddAndTagRows(server, shuffled);
    mixed := shuffled;
    HopPasses(ring, j, x, target, data, shuffled, tagged);
    KeyShrinks(ring, j);
    nextKey := PointBytes(Sub(h, Mul(server.key, Base)));
  }

  lemma HopReady(servers: seq<Server>, root: nat, mixers: seq<Mixer>, j: nat, k: nat, NQ: nat)
    requires root < |servers| == |mixers| && j < |servers| && PassMixers(mixers, FromRoot(servers, root), k, NQ)
    ensures FromRoot(servers, root)[j] == servers[Position(root, |servers|, j)]
    ensures MixersFit([mixers[j]], k, NQ, Mul(RestKey(FromRoot(servers, root), j), Base))
  {
  }

  /** The matrices as they go around, in ring order: every node mixes and tags what the one before it made, under the key
      that is left. */
  ghost predicate PassMade(ring: seq<Server>, mixers: seq<Mixer>, stages: seq<Matrix>, mixed: seq<Matrix>, k: nat, NQ: nat)
    requires |mixers| == |ring|
  {
    && |stages| == |mixed| + 1 <= |ring| + 1
    && forall j :: 0 <= j < |mixed| ==>
         HopMade(ring[j], mixers[j], stages[j], mixed[j], stages[j + 1], k, NQ, Mul(Sum(Keys(ring[j..])), Base))
  }

  lemma PassStep(ring: seq<Server>, mixers: seq<Mixer>, stages: seq<Matrix>, mixed: seq<Matrix>, k: nat, NQ: nat, next: Matrix, m: Matrix)
    requires |mixers| == |ring| && PassMade(ring, mixers, stages, mixed, k, NQ) && |mixed| < |ring|
    requires HopMade(ring[|mixed|], mixers[|mixed|], stages[|mixed|], m, next, k, NQ, Mul(RestKey(ring, |mixed|), Base))
    ensures PassMade(ring, mixers, stages + [next], mixed + [m], k, NQ)
  {
  }

  /** The state of the pass after some hops: the rows, and the key that goes with them. */
  ghost predicate Underway(ring: seq<Server>, mixers: seq<Mixer>, stages: seq<Matrix>, mixed: seq<Matrix>, x: Scalar, target: Matrix, data: Matrix,
                           shuffKey: seq<byte>, k: nat, NQ: nat)
    requires |mixers| == |ring|
  {
    && PassMade(ring, mixers, stages, mixed, k, NQ) && stages[0] == target && stages[|mixed|] == data
    && Passed(ring, |mixed|, x, target, data) && Shaped(data, k, NQ)
    && shuffKey == PointBytes(Mul(RestKey(ring, |mixed|), Base))
  }

  /** One hop of the pass. */
  method PassHop(servers: seq<Server>, ghost root: nat, mixers: seq<Mixer>, at: nat, hops: nat, message: ShufflingMessage, shuffKey: seq<byte>,
                 ghost target: Matrix, ghost data: Matrix, ghost stages: seq<Matrix>, ghost mixed: seq<Matrix>)
    returns (tagged: Matrix, nextKey: seq<byte>, ghost stages': seq<Matrix>, ghost mixed': seq<Matrix>)
    requires root < |servers| == |mixers| && hops == |mixed| < |servers| && at == Position(root, |servers|, hops)
    requires target != [] && |target[0]| < UINT32 && PassMixers(mixers, FromRoot(servers, root), |target|, |target[0]|)
    requires message == Sent(data)
    requires Underway(FromRoot(servers, root), mixers, stages, mixed, CollectiveKey(servers), target, data, shuffKey, |target|, |target[0]|)
    ensures |mixed'| == |mixed| + 1
    ensures Underway(FromRoot(servers, root), mixers, stages', mixed', CollectiveKey(servers), target, tagged, nextKey, |target|, |target[0]|)
  {
    ghost var ring := FromRoot(servers, root);
    PositionIs(root, |servers|, hops);
    HopReady(servers, root, mixers, hops, |target|, |target[0]|);
    ghost var m;
    tagged, nextKey, m := Hop(ring, hops, servers[at], mixers[hops], message, shuffKey, CollectiveKey(servers), target, data, |target|, |target[0]|);
    PassStep(ring, mixers, stages, mixed, |target|, |target[0]|, tagged, m);
    stages', mixed' := stages + [tagged], mixed + [m];
  }

  /** The whole pass, the mixers listed in ring order: n hops, ending at the root, whose message parts are the tags of
      the plaintext rows, in some order and with every row intact. */
  method RunPass(servers: seq<Server>, root: nat, mixers: seq<Mixer>, target: Matrix)
    returns (tags: seq<seq<Point>>, hops: nat, ghost stages: seq<Matrix>, ghost mixed: seq<Matrix>)
    requires root < |servers| == |mixers|
    requires target != [] && Rectangular(target, |target[0]|) && |target[0]| < UINT32
    requires PassMixers(mixers, FromRoot(servers, root), |target|, |target[0]|)
    ensures hops == |servers|
    ensures |stages| == |servers| + 1 && stages[0] == target && tags == MessageParts(stages[|servers|])
    ensures PassMade(FromRoot(servers, root), mixers, stages, mixed, |target|, |target[0]|)
    ensures multiset(tags) == multiset(PassTagRows(FromRoot(servers, root), OpenMatrix(CollectiveKey(servers), target)))
  {
    ghost var ring, x := FromRoot(servers, root), CollectiveKey(servers);
    var n := |servers|;
    var at := Next(root, n);
    var shuffKey := PointBytes(Mul(CollectiveKey(servers), Base));
    var data := target;
    hops, stages, mixed := 0, [target], [];
    PassStart(servers, root, target);
    PositionIs(root, n, 0);
    var done := false;
    while !done
      invariant hops == |mixed| <= n && (done <==> hops == n)
      invariant !done ==> at == Position(root, n, hops)
      invariant Underway(ring, mixers, stages, mixed, x, target, data, shuffKey, |target|, |target[0]|)
      decreases n - hops
    {
      PositionIs(root, n, hops);
      data, shuffKey, stages, mixed := PassHop(servers, root, mixers, at, hops, Sent(data), shuffKey, target, data, stages, mixed);
      hops := hops + 1;
      if at == root {
        done := true;
      } else {
        at := Next(at, n);
      }
    }
    tags := MessageParts(data);
    PassEnd(ring, x, target, data);
  }

  function MessageParts(rows: Matrix): (r: seq<seq<Point>>)
    ensures |r| == |rows| && forall i :: 0 <= i < |rows| ==> |r[i]| == |rows[i]| && forall c :: 0 <= c < |rows[i]| ==> r[i][c] == rows[i][c].C
  {
    seq(|rows|, i requires 0 <= i < |rows| => seq(|rows[i]|, c requires 0 <= c < |rows[i]| => rows[i][c].C))
  }

  lemma PassStart(servers: seq<Server>, root: nat, target: Matrix)
    requires root < |servers|
    ensures Passed(FromRoot(servers, root), 0, CollectiveKey(servers), target, target)
    ensures RestKey(FromRoot(servers, root), 0) == CollectiveKey(servers)
  {
    var ring, x := FromRoot(servers, root), CollectiveKey(servers);
    RotateMultiset(servers, root + 1);
    OrderIrrelevant(ring, servers, Null);
    assert ring[0..] == ring;
    assert PassTagRows(ring[..0], OpenMatrix(x, target)) == OpenMatrix(x, target) by {
      forall i | 0 <= i < |target| ensures PassTagRow(ring[..0], OpenMatrix(x, target)[i]) == OpenMatrix(x, target)[i] {
      }
    }
  }

  lemma PassEnd(ring: seq<Server>, x: Scalar, target: Matrix, data: Matrix)
    requires Passed(ring, |ring|, x, target, data)
    ensures multiset(MessageParts(data)) == multiset(PassTagRows(ring, OpenMatrix(x, target)))
  {
    assert ring[|ring|..] == [] && ring[..|ring|] == ring;
    assert RestKey(ring, |ring|) == 0;
    forall i | 0 <= i < |data| ensures OpenVector(0, data[i]) == MessageParts(data)[i] {
    }
    assert OpenMatrix(0, data) == MessageParts(data);
  }
}
