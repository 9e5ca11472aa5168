/** Re-randomising shuffle of rows of ciphertexts, its precomputed form, and the shuffling circuit
    (lib/shuffle/shuffle.go, protocols/shuffling_protocol.go). */
module Shuffle {
  import opened Group
  import opened Sums
  import opened ElGamal
  import opened Codec
  import opened Permutation
  import opened Options
  import opened Responses
  import opened Parallel
  import opened Ring

  type Matrix = seq<CipherVector>

  /** One line of precomputed randomisers: the scalars and the points they give. */
  datatype CipherVectorScalar = CipherVectorScalar(cipherV: CipherVector, s: seq<Scalar>)

  /** Everything one ShuffleSequence call draws: fresh scalars, choices of precomputed lines, and the swap stream. */
  datatype Randomness = Randomness(betas: seq<seq<Scalar>>, picks: seq<nat>, swaps: seq<nat>)

  function Rerandomize(c: CipherText, b: Scalar, g: Point, h: Point): CipherText {
    CipherText(Add(c.K, Mul(b, g)), Add(c.C, Mul(b, h)))
  }

  /** The cached points of a line are those of its scalars. */
  predicate LineFor(line: CipherVectorScalar, g: Point, h: Point) {
    |line.cipherV| == |line.s| && forall w :: 0 <= w < |line.s| ==> line.cipherV[w] == CipherText(Mul(line.s[w], g), Mul(line.s[w], h))
  }

  predicate TableFor(table: seq<CipherVectorScalar>, g: Point, h: Point) {
    forall i :: 0 <= i < |table| ==> LineFor(table[i], g, h)
  }

  /** The draws suit k rows of NQ columns. */
  predicate Fits(r: Randomness, precomputed: Option<seq<CipherVectorScalar>>, k: nat, NQ: nat) {
    && |r.swaps| >= k
    && match precomputed
       case None => |r.betas| == k && forall i :: 0 <= i < k ==> |r.betas[i]| == NQ
       case Some(table) =>
         |r.picks| >= k && table != [] && forall l :: 0 <= l < |table| ==> |table[l].s| >= NQ && |table[l].cipherV| >= NQ
  }

  predicate Wide(m: Matrix, NQ: nat) {
    forall i :: 0 <= i < |m| ==> |m[i]| >= NQ
  }

  predicate Rectangular(m: Matrix, NQ: nat) {
    forall i :: 0 <= i < |m| ==> |m[i]| == NQ
  }

  predicate Shaped<T>(m: seq<seq<T>>, k: nat, NQ: nat) {
    |m| == k && forall i :: 0 <= i < k ==> |m[i]| == NQ
  }

  /** The plain, uncached shuffle: output row i is input row pi[i] with every element re-randomised by its own scalar. */
  ghost predicate IsShuffle(input: Matrix, output: Matrix, pi: seq<nat>, beta: seq<seq<Scalar>>, g: Point, h: Point, NQ: nat)
    requires Wide(input, NQ)
  {
    && IsPermutation(pi, |input|)
    && |pi| == |input| && (forall i :: 0 <= i < |pi| ==> pi[i] < |input|)
    && Shaped(beta, |input|, NQ) && Shaped(output, |input|, NQ)
    && forall i, j :: 0 <= i < |output| && 0 <= j < NQ ==> output[i][j] == Rerandomize(input[pi[i]][j], beta[pi[i]][j], g, h)
  }

  /** rerandomize: uses the cached points when there are any. */
  function RerandomizeWith(c: CipherText, b: Scalar, cached: Option<CipherText>, g: Point, h: Point): CipherText {
    match cached
    case None => CipherText(Add(c.K, Mul(b, g)), Add(c.C, Mul(b, h)))
    case Some(p) => CipherText(Add(c.K, p.K), Add(c.C, p.C))
  }

  /** One output row. */
  method ShuffleRow(row: CipherVector, NQ: nat, beta: seq<Scalar>, cached: Option<CipherVector>, g: Point, h: Point) returns (r: CipherVector)
    requires |row| >= NQ && |beta| == NQ && (cached.Some? ==> |cached.value| == NQ)
    ensures |r| == NQ
    ensures forall j :: 0 <= j < NQ ==> r[j] == RerandomizeWith(row[j], beta[j], if cached.Some? then Some(cached.value[j]) else None, g, h)
  {
    r := ParallelMap(row[..NQ], NullCipher,
                     (j: nat, c: CipherText) requires j < NQ => RerandomizeWith(c, beta[j], if cached.Some? then Some(cached.value[j]) else None, g, h));
  }

  /** With the cached points of a line made for g and h, or with none, the row is re-randomised by its scalars. */
  lemma RowRerandomized(row: CipherVector, NQ: nat, beta: seq<Scalar>, cached: Option<CipherVector>, line: CipherVectorScalar, g: Point, h: Point,
                        r: CipherVector)
    requires |row| >= NQ && |beta| == NQ && |r| == NQ && (cached.Some? ==> |cached.value| == NQ)
    requires cached.Some? ==> |line.s| >= NQ && LineFor(line, g, h) && beta == line.s[..NQ] && cached.value == line.cipherV[..NQ]
    requires forall j :: 0 <= j < NQ ==> r[j] == RerandomizeWith(row[j], beta[j], if cached.Some? then Some(cached.value[j]) else None, g, h)
    ensures forall j :: 0 <= j < NQ ==> r[j] == Rerandomize(row[j], beta[j], g, h)
  {
  }

  /** The first rows of the output are re-randomised rows of the input. */
  ghost predicate RowsShuffled(input: Matrix, output: Matrix, pi: seq<nat>, beta: seq<seq<Scalar>>, g: Point, h: Point, NQ: nat)
    requires Wide(input, NQ) && Shaped(beta, |input|, NQ)
  {
    && Rectangular(output, NQ) && |output| <= |pi| && (forall i :: 0 <= i < |pi| ==> pi[i] < |input|)
    && forall i, j :: 0 <= i < |output| && 0 <= j < NQ ==> output[i][j] == Rerandomize(input[pi[i]][j], beta[pi[i]][j], g, h)
  }

  lemma OneMoreRow(input: Matrix, output: Matrix, pi: seq<nat>, beta: seq<seq<Scalar>>, g: Point, h: Point, NQ: nat, row: CipherVector)
    requires Wide(input, NQ) && Shaped(beta, |input|, NQ) && RowsShuffled(input, output, pi, beta, g, h, NQ) && |output| < |pi| && |row| == NQ
    requires forall j :: 0 <= j < NQ ==> row[j] == Rerandomize(input[pi[|output|]][j], beta[pi[|output|]][j], g, h)
    ensures RowsShuffled(input, output + [row], pi, beta, g, h, NQ)
  {
  }

  /** The blinding scalars and, from a table, the cached points of every row. */
  method DrawBetas(k: nat, NQ: nat, precomputed: Option<seq<CipherVectorScalar>>, r: Randomness)
    returns (beta: seq<seq<Scalar>>, points: seq<CipherVector>)
    requires Fits(r, precomputed, k, NQ)
    ensures Shaped(beta, k, NQ)
    ensures precomputed.None? ==> beta == r.betas
    ensures precomputed.Some? ==> Shaped(points, k, NQ)
    ensures precomputed.Some? ==> forall i :: 0 <= i < k ==>
      var line := precomputed.value[Remainder(r.picks[i], |precomputed.value|)];
      beta[i] == line.s[..NQ] && points[i] == line.cipherV[..NQ]
  {
    beta, points := [], [];
    for i := 0 to k
      invariant |beta| == i && forall l :: 0 <= l < i ==> |beta[l]| == NQ
      invariant precomputed.None? ==> beta == r.betas[..i]
      invariant precomputed.Some? ==> Shaped(points, i, NQ)
      invariant precomputed.Some? ==> forall l :: 0 <= l < i ==>
        var line := precomputed.value[Remainder(r.picks[l], |precomputed.value|)];
        beta[l] == line.s[..NQ] && points[l] == line.cipherV[..NQ]
    {
      match precomputed
      case None =>
        beta := beta + [r.betas[i]];
      case Some(table) =>
        var line := table[Remainder(r.picks[i], |table|)];
        beta, points := beta + [line.s[..NQ]], points + [line.cipherV[..NQ]];
    }
  }

  /** The scalars a node uses: fresh ones, or those of the lines it picks from its table. */
  function BlindingScalars(precomputed: Option<seq<CipherVectorScalar>>, r: Randomness, k: nat, NQ: nat): (beta: seq<seq<Scalar>>)
    requires Fits(r, precomputed, k, NQ)
    ensures Shaped(beta, k, NQ)
  {
    match precomputed
    case None => r.betas
    case Some(table) => seq(k, i requires 0 <= i < k => table[Remainder(r.picks[i], |table|)].s[..NQ])
  }

  /** No table, or one that was built for g and h. */
  predicate RightTable(precomputed: Option<seq<CipherVectorScalar>>, g: Point, h: Point) {
    precomputed.Some? ==> TableFor(precomputed.value, g, h)
  }

  /** ShuffleSequence. With a table built for the same g and h, the cached points change nothing: the output is the
      plain shuffle under the returned permutation and scalars. Rows longer than the first are cut to its width. */
  method ShuffleSequence(input: Matrix, g: Point, h: Point, precomputed: Option<seq<CipherVectorScalar>>, r: Randomness)
    returns (output: Matrix, pi: seq<nat>, beta: seq<seq<Scalar>>)
    requires input != [] && Wide(input, |input[0]|)
    requires Fits(r, precomputed, |input|, |input[0]|)
    ensures RightTable(precomputed, g, h) ==> IsShuffle(input, output, pi, beta, g, h, |input[0]|)
    ensures beta == BlindingScalars(precomputed, r, |input|, |input[0]|)
    ensures pi == Swaps(Iota(|input|), |input| - 1, r.swaps)
  {
    var NQ, k := |input[0]|, |input|;
    var points;
    beta, points := DrawBetas(k, NQ, precomputed, r);
    pi := RandomPermutation(k, r.swaps);
    PermutationRange(pi, k);
    output := [];
    for i := 0 to k
      invariant |output| == i
      invariant RightTable(precomputed, g, h) ==> RowsShuffled(input, output, pi, beta, g, h, NQ)
    {
      var index := pi[i];
      var cached := if precomputed.None? || |points[0]| == 0 then None else Some(points[index]);
      var row := ShuffleRow(input[index], NQ, beta[index], cached, g, h);
      if RightTable(precomputed, g, h) {
        var line := if precomputed.None? then CipherVectorScalar([], []) else precomputed.value[Remainder(r.picks[index], |precomputed.value|)];
        assert precomputed.Some? ==> LineFor(line, g, h);
        RowRerandomized(input[index], NQ, beta[index], cached, line, g, h, row);
        OneMoreRow(input, output, pi, beta, g, h, NQ, row);
      }
      output := output + [row];
    }
  }

  /** CreatePrecomputedRandomize, the stream's scalars laid out by line. */
  method CreatePrecomputedRandomize(g: Point, h: Point, scalars: seq<seq<Scalar>>, lineSize: nat) returns (table: seq<CipherVectorScalar>)
    requires forall i :: 0 <= i < |scalars| ==> |scalars[i]| == lineSize
    ensures |table| == |scalars| && TableFor(table, g, h)
    ensures forall i :: 0 <= i < |table| ==> table[i].s == scalars[i]
  {
    table := [];
    for i := 0 to |scalars|
      invariant |table| == i && TableFor(table, g, h)
      invariant forall l :: 0 <= l < i ==> table[l].s == scalars[l]
    {
      var line := CipherVectorScalar([], []);
      for w := 0 to lineSize
        invariant line.s == scalars[i][..w] && LineFor(line, g, h)
      {
        var scalar := scalars[i][w];
        line := CipherVectorScalar(line.cipherV + [CipherText(Mul(scalar, g), Mul(scalar, h))], line.s + [scalar]);
      }
      table := table + [line];
    }
  }

  // ---------- what a shuffle keeps ----------

  function OpenMatrix(x: Scalar, m: Matrix): (r: seq<seq<Point>>)
    ensures |r| == |m| && forall i :: 0 <= i < |m| ==> r[i] == OpenVector(x, m[i])
  {
    seq(|m|, i requires 0 <= i < |m| => OpenVector(x, m[i]))
  }

  lemma RerandomizeOpens(x: Scalar, c: CipherText, b: Scalar)
    ensures Open(x, Rerandomize(c, b, Base, Mul(x, Base))) == Open(x, c)
  {
    var z := CipherText(Mul(b, Base), Mul(b, Mul(x, Base)));
    OpenAdd(x, c, z);
    OpenEncrypt(x, Null, b);
    assert z == EncryptPoint(Mul(x, Base), Null, b);
  }

  /** Cached points made for another key keep the plaintext only when the scalar is zero. */
  lemma CachedForOtherKey(x: Scalar, y: Scalar, c: CipherText, b: Scalar)
    ensures Open(x, AddCipher(c, CipherText(Mul(b, Base), Mul(b, Mul(y, Base))))) == Open(x, c) <==> b == 0 || x == y
  {
    var z := CipherText(Mul(b, Base), Mul(b, Mul(y, Base)));
    OpenAdd(x, c, z);
    MulBase(b);
    MulBase(y);
    MulComm(x, b);
    MulSub(b, y, x);
    NoZeroDivisors(b, Sub(y, x));
  }

  /** Under the matching key, the rows are the same rows in another order, each one intact. */
  lemma ShuffleKeepsRows(x: Scalar, input: Matrix, output: Matrix, pi: seq<nat>, beta: seq<seq<Scalar>>, NQ: nat)
    requires Rectangular(input, NQ) && IsShuffle(input, output, pi, beta, Base, Mul(x, Base), NQ)
    ensures OpenMatrix(x, output) == Select(OpenMatrix(x, input), pi)
    ensures multiset(OpenMatrix(x, output)) == multiset(OpenMatrix(x, input))
  {
    forall i | 0 <= i < |output| ensures OpenVector(x, output[i]) == OpenVector(x, input[pi[i]]) {
      forall j | 0 <= j < NQ ensures Open(x, output[i][j]) == Open(x, input[pi[i]][j]) {
        RerandomizeOpens(x, input[pi[i]][j], beta[pi[i]][j]);
      }
    }
    PermutationKeeps(OpenMatrix(x, input), pi);
  }

  // ---------- the circuit ----------

  /** What each node of the circuit brings: its precomputed table and its randomness. */
  datatype Mixer = Mixer(precomputed: Option<seq<CipherVectorScalar>>, r: Randomness)

  predicate MixersFit(mixers: seq<Mixer>, k: nat, NQ: nat, h: Point) {
    forall i :: 0 <= i < |mixers| ==>
      Fits(mixers[i].r, mixers[i].precomputed, k, NQ) && RightTable(mixers[i].precomputed, Base, h)
  }

  /** A message between two nodes: the matrix and its row lengths as bytes. */
  datatype ShufflingMessage = ShufflingMessage(data: seq<byte>, cvLengths: seq<byte>)

  function Sent(m: Matrix): ShufflingMessage {
    ShufflingMessage(MatrixBytes(m), IntsBytes(Lengths(m)))
  }

  method Received(message: ShufflingMessage, ghost m: Matrix) returns (r: Matrix)
    requires message == Sent(m) && ShortVectors(m)
    ensures r == m
  {
    SentReadable(m);
    r := FromBytesToArrayCipherVector(message.data, message.cvLengths);
  }

  function NodePermutation(mixer: Mixer, k: nat): (pi: seq<nat>)
    requires 0 < k <= |mixer.r.swaps|
    ensures IsPermutation(pi, k)
  {
    SwapsKeep(Iota(k), k - 1, mixer.r.swaps);
    Swaps(Iota(k), k - 1, mixer.r.swaps)
  }

  function NodeScalars(mixer: Mixer, k: nat, NQ: nat): (beta: seq<seq<Scalar>>)
    requires Fits(mixer.r, mixer.precomputed, k, NQ)
    ensures Shaped(beta, k, NQ)
  {
    BlindingScalars(mixer.precomputed, mixer.r, k, NQ)
  }

  /** What a node makes of a matrix: the rows in the order of its own swaps, every element re-randomised by its own
      scalar. */
  ghost predicate MixedBy(mixer: Mixer, a: Matrix, b: Matrix, k: nat, NQ: nat, h: Point) {
    && k > 0 && Shaped(a, k, NQ) && Shaped(b, k, NQ) && Fits(mixer.r, mixer.precomputed, k, NQ)
    && IsShuffle(a, b, NodePermutation(mixer, k), NodeScalars(mixer, k, NQ), Base, h, NQ)
  }

  method Mix(mixer: Mixer, m: Matrix, ghost x: Scalar, h: Point) returns (r: Matrix)
    requires m != [] && Rectangular(m, |m[0]|) && MixersFit([mixer], |m|, |m[0]|, h) && h == Mul(x, Base)
    ensures MixedBy(mixer, m, r, |m|, |m[0]|, h)
    ensures Shaped(r, |m|, |m[0]|) && multiset(OpenMatrix(x, r)) == multiset(OpenMatrix(x, m))
  {
    assert [mixer][0] == mixer;
    var pi, beta;
    r, pi, beta := ShuffleSequence(m, Base, h, mixer.precomputed, mixer.r);
    ShuffleKeepsRows(x, m, r, pi, beta, |m[0]|);
  }

  /** The node whose turn it is after so many others: the list of nodes from the root on, then from its start. */
  function Turn(root: nat, n: nat, s: nat): (at: nat)
    requires root < n && s < n
    ensures at < n
  {
    if root + s < n then root + s else root + s - n
  }

  /** The matrices as they go around: every node, the root first, mixes what the one before it made. */
  ghost predicate Circuit(mixers: seq<Mixer>, root: nat, stages: seq<Matrix>, k: nat, NQ: nat, h: Point)
    requires root < |mixers|
  {
    && 0 < |stages| <= |mixers| + 1
    && forall s :: 0 <= s < |stages| - 1 ==> MixedBy(mixers[Turn(root, |mixers|, s)], stages[s], stages[s + 1], k, NQ, h)
  }

  lemma CircuitStep(mixers: seq<Mixer>, root: nat, stages: seq<Matrix>, k: nat, NQ: nat, h: Point, next: Matrix)
    requires root < |mixers| && Circuit(mixers, root, stages, k, NQ, h) && |stages| <= |mixers|
    requires MixedBy(mixers[Turn(root, |mixers|, |stages| - 1)], stages[|stages| - 1], next, k, NQ, h)
    ensures Circuit(mixers, root, stages + [next], k, NQ, h)
  {
  }

  /** The circuit under way: the result so far is the last stage and opens to the rows of the target. */
  ghost predicate Mixing(mixers: seq<Mixer>, root: nat, stages: seq<Matrix>, target: Matrix, NQ: nat, x: Scalar, h: Point, result: Matrix)
    requires root < |mixers|
  {
    && Circuit(mixers, root, stages, |target|, NQ, h) && stages[0] == target && stages[|stages| - 1] == result
    && Shaped(result, |target|, NQ) && multiset(OpenMatrix(x, result)) == multiset(OpenMatrix(x, target))
  }

  /** One node's turn: it decodes the matrix and mixes it. */
  method TakeTurn(mixers: seq<Mixer>, at: nat, message: ShufflingMessage, ghost root: nat, ghost stages: seq<Matrix>, ghost target: Matrix,
                  ghost NQ: nat, ghost x: Scalar, h: Point, ghost before: Matrix)
    returns (result: Matrix, ghost stages': seq<Matrix>)
    requires root < |mixers| && Mixing(mixers, root, stages, target, NQ, x, h, before) && |stages| <= |mixers|
    requires at == Turn(root, |mixers|, |stages| - 1) && message == Sent(before)
    requires target != [] && NQ < UINT32 && MixersFit(mixers, |target|, NQ, h) && h == Mul(x, Base)
    ensures Mixing(mixers, root, stages', target, NQ, x, h, result) && |stages'| == |stages| + 1
  {
    var m := Received(message, before);
    assert [mixers[at]][0] == mixers[at];
    result := Mix(mixers[at], m, x, h);
    CircuitStep(mixers, root, stages, |target|, NQ, h, result);
    stages' := stages + [result];
  }

  /** The root shuffles in Start; every other node shuffles what it receives and sends it on; what comes back to the
      root is the result. Every node shuffles exactly once, what the node before it made, and the opened rows are only
      reordered. */
  method RunShuffling(mixers: seq<Mixer>, root: nat, target: Matrix, ghost x: Scalar, h: Point)
    returns (result: Matrix, shuffles: seq<nat>, ghost stages: seq<Matrix>)
    requires root < |mixers| && target != [] && Rectangular(target, |target[0]|) && |target[0]| < UINT32
    requires MixersFit(mixers, |target|, |target[0]|, h) && h == Mul(x, Base)
    ensures |stages| == |mixers| + 1 && stages[0] == target && stages[|mixers|] == result
    ensures Circuit(mixers, root, stages, |target|, |target[0]|, h)
    ensures Shaped(result, |target|, |target[0]|)
    ensures multiset(OpenMatrix(x, result)) == multiset(OpenMatrix(x, target))
    ensures |shuffles| == |mixers| && forall i :: 0 <= i < |mixers| ==> shuffles[i] == 1
  {
    var n, NQ := |mixers|, |target[0]|;
    shuffles := seq(n, _ => 0);
    assert [mixers[root]][0] == mixers[root];
    result := Mix(mixers[root], target, x, h);
    stages := [target, result];
    shuffles := shuffles[root := 1];
    var at := Next(root, n);
    ghost var hops := 0;
    VisitedStart(root, n, shuffles);
    while at != root
      invariant hops < n && at == Position(root, n, hops)
      invariant |stages| == hops + 2 && Mixing(mixers, root, stages, target, NQ, x, h, result)
      invariant Visited(shuffles, root, n, hops)
      decreases n - hops
    {
      PositionIs(root, n, hops);
      VisitedStep(shuffles, root, n, hops);
      result, stages := TakeTurn(mixers, at, Sent(result), root, stages, target, NQ, x, h, result);
      shuffles := shuffles[at := shuffles[at] + 1];
      at, hops := Next(at, n), hops + 1;
    }
    result := Received(Sent(result), result);
    PositionIs(root, n, hops);
    AllVisited(root, n, shuffles, hops);
  }

  /** The root and the nodes the first hops reached have shuffled once, the others not yet. */
  ghost predicate Visited(shuffles: seq<nat>, root: nat, n: nat, hops: nat)
    requires root < n
  {
    && |shuffles| == n && shuffles[root] == 1
    && forall j :: 0 <= j < n - 1 ==> shuffles[Position(root, n, j)] == if j < hops then 1 else 0
  }

  lemma VisitedStart(root: nat, n: nat, shuffles: seq<nat>)
    requires root < n && |shuffles| == n && shuffles[root] == 1 && forall i :: 0 <= i < n && i != root ==> shuffles[i] == 0
    ensures Visited(shuffles, root, n, 0)
  {
    forall j | 0 <= j < n - 1 ensures Position(root, n, j) != root {
      PositionIs(root, n, j);
    }
  }

  lemma VisitedStep(shuffles: seq<nat>, root: nat, n: nat, hops: nat)
    requires root < n && hops < n && Visited(shuffles, root, n, hops) && Position(root, n, hops) != root
    ensures var at := Position(root, n, hops);
            Visited(shuffles[at := shuffles[at] + 1], root, n, hops + 1)
  {
    PositionIs(root, n, hops);
    OnePosition(root, n, hops);
  }

  lemma AllVisited(root: nat, n: nat, shuffles: seq<nat>, hops: nat)
    requires root < n && hops < n && Position(root, n, hops) == root && Visited(shuffles, root, n, hops)
    ensures forall i :: 0 <= i < n ==> shuffles[i] == 1
  {
    PositionIs(root, n, hops);
    forall i | 0 <= i < n ensures shuffles[i] == 1 {
      var j := if i > root then i - root - 1 else i - root - 1 + n;
      assert Position(root, n, j) == i;
    }
  }

  // ---------- the whole circuit as one shuffle ----------

  predicate AllFit(mixers: seq<Mixer>, k: nat, NQ: nat) {
    forall i :: 0 <= i < |mixers| ==> Fits(mixers[i].r, mixers[i].precomputed, k, NQ)
  }

  /** Every node has a swap for each of k rows. */
  predicate AllSwap(mixers: seq<Mixer>, k: nat) {
    forall i :: 0 <= i < |mixers| ==> |mixers[i].r.swaps| >= k
  }

  lemma FitSwap(mixers: seq<Mixer>, k: nat, NQ: nat)
    requires AllFit(mixers, k, NQ)
    ensures AllSwap(mixers, k)
  {
    forall i | 0 <= i < |mixers| ensures |mixers[i].r.swaps| >= k {
      assert Fits(mixers[i].r, mixers[i].precomputed, k, NQ);
    }
  }

  /** Where each row of a stage stood in the target. */
  function Sources(mixers: seq<Mixer>, root: nat, s: nat, k: nat): (p: seq<nat>)
    requires root < |mixers| && s <= |mixers| && k > 0 && AllSwap(mixers, k)
    ensures |p| == k && forall i :: 0 <= i < k ==> p[i] < k
  {
    if s == 0 then Iota(k)
    else
      var pi := NodePermutation(mixers[Turn(root, |mixers|, s - 1)], k);
      PermutationRange(pi, k);
      Select(Sources(mixers, root, s - 1, k), pi)
  }

  lemma {:induction false} SourcesPermute(mixers: seq<Mixer>, root: nat, s: nat, k: nat)
    requires root < |mixers| && s <= |mixers| && k > 0 && AllSwap(mixers, k)
    ensures IsPermutation(Sources(mixers, root, s, k), k)
  {
    if s > 0 {
      var pi := NodePermutation(mixers[Turn(root, |mixers|, s - 1)], k);
      SourcesPermute(mixers, root, s - 1, k);
      PermutationRange(pi, k);
      PermutationKeeps(Sources(mixers, root, s - 1, k), pi);
    }
  }

  /** The scalars all nodes so far have put on an element, added up along the way its row came. */
  function Blinding(mixers: seq<Mixer>, root: nat, s: nat, k: nat, NQ: nat, i: nat, j: nat): Scalar
    requires root < |mixers| && s <= |mixers| && k > 0 && i < k && j < NQ
    requires AllFit(mixers, k, NQ)
  {
    if s == 0 then 0
    else
      var mixer := mixers[Turn(root, |mixers|, s - 1)];
      FitSwap(mixers, k, NQ);
      var pi := NodePermutation(mixer, k);
      PermutationRange(pi, k);
      Add(Blinding(mixers, root, s - 1, k, NQ, pi[i], j), NodeScalars(mixer, k, NQ)[pi[i]][j])
  }

  lemma RerandomizeTwice(c: CipherText, a: Scalar, b: Scalar, h: Point)
    ensures Rerandomize(Rerandomize(c, a, Base, h), b, Base, h)
            == CipherText(Add(c.K, Mul(Add(a, b), Base)), Add(c.C, Mul(Add(a, b), h)))
  {
    AddMul(a, b, Base);
    AddMul(a, b, h);
    AddAssoc(c.K, Mul(a, Base), Mul(b, Base));
    AddAssoc(c.C, Mul(a, h), Mul(b, h));
  }

  /** Every element of a stage is one element of the target, that of the row's source, with the sum of all scalars on its
      way put on it at once. */
  lemma {:induction false} CircuitElement(mixers: seq<Mixer>, root: nat, stages: seq<Matrix>, k: nat, NQ: nat, h: Point, s: nat, i: nat, j: nat)
    requires root < |mixers| && Circuit(mixers, root, stages, k, NQ, h) && s < |stages| && k > 0 && i < k && j < NQ
    requires AllFit(mixers, k, NQ) && AllSwap(mixers, k) && Shaped(stages[0], k, NQ) && Shaped(stages[s], k, NQ)
    ensures var c, b := stages[0][Sources(mixers, root, s, k)[i]][j], Blinding(mixers, root, s, k, NQ, i, j);
            stages[s][i][j] == CipherText(Add(c.K, Mul(b, Base)), Add(c.C, Mul(b, h)))
  {
    if s > 0 {
      var mixer := mixers[Turn(root, |mixers|, s - 1)];
      var pi := NodePermutation(mixer, k);
      PermutationRange(pi, k);
      assert MixedBy(mixer, stages[s - 1], stages[s], k, NQ, h);
      CircuitElement(mixers, root, stages, k, NQ, h, s - 1, pi[i], j);
      RerandomizeTwice(stages[0][Sources(mixers, root, s, k)[i]][j], Blinding(mixers, root, s - 1, k, NQ, pi[i], j),
                       NodeScalars(mixer, k, NQ)[pi[i]][j], h);
    }
  }
}
