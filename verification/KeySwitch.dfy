/** Switching ciphertexts from the collective key to the querier's key over a tree of servers
    (protocols/key_switching_protocol.go, lib/key_switch/key_switch.go). */
module KeySwitch {
  import opened Group
  import opened Sums
  import opened ElGamal
  import opened Codec
  import opened Parallel

  /** A server with the scalars it draws, one per ciphertext. Its children stand in the order in which their data
      messages arrive; lengthOrder lists the children in the order in which their length messages arrive. */
  datatype Tree = Node(key: Scalar, vis: seq<Scalar>, children: seq<Tree>, lengthOrder: seq<nat>)

  /** KeySwitch: one server's contribution for the ephemeral point rB. */
  function Contribution(T: Point, rB: Point, key: Scalar, vi: Scalar): CipherText {
    CipherText(Mul(vi, Base), Add(Mul(key, Neg(rB)), Mul(vi, T)))
  }

  /** Two contributions add up to that of one server holding both keys and both scalars. */
  lemma ContributionsAdd(T: Point, rB: Point, k1: Scalar, k2: Scalar, v1: Scalar, v2: Scalar)
    ensures AddCipher(Contribution(T, rB, k1, v1), Contribution(T, rB, k2, v2)) == Contribution(T, rB, Add(k1, k2), Add(v1, v2))
  {
    AddMul(v1, v2, Base);
    AddMul(v1, v2, T);
    AddMul(k1, k2, Neg(rB));
    AddPairs(Mul(k1, Neg(rB)), Mul(v1, T), Mul(k2, Neg(rB)), Mul(v2, T));
  }

  method KeySwitchSequence(T: Point, rBs: seq<Point>, key: Scalar, vis: seq<Scalar>) returns (cv: CipherVector)
    requires |vis| == |rBs|
    ensures cv == Contributions(T, rBs, key, vis)
  {
    cv := ParallelMap(rBs, NullCipher, (i: nat, rB: Point) requires i < |vis| => Contribution(T, rB, key, vis[i]));
  }

  function Contributions(T: Point, rBs: seq<Point>, key: Scalar, vis: seq<Scalar>): (cv: CipherVector)
    requires |vis| == |rBs|
    ensures |cv| == |rBs|
  {
    seq(|rBs|, i requires 0 <= i < |rBs| => Contribution(T, rBs[i], key, vis[i]))
  }

  lemma AddContributions(T: Point, rBs: seq<Point>, k1: Scalar, k2: Scalar, v1: seq<Scalar>, v2: seq<Scalar>)
    requires |v1| == |v2| == |rBs|
    ensures AddVector(Contributions(T, rBs, k1, v1), Contributions(T, rBs, k2, v2)) == Contributions(T, rBs, Add(k1, k2), AddScalars(v1, v2))
  {
    forall i | 0 <= i < |rBs|
      ensures AddCipher(Contribution(T, rBs[i], k1, v1[i]), Contribution(T, rBs[i], k2, v2[i])) == Contribution(T, rBs[i], Add(k1, k2), Add(v1[i], v2[i]))
    {
      ContributionsAdd(T, rBs[i], k1, k2, v1[i], v2[i]);
    }
  }

  // ---------- what a subtree holds ----------

  function TreeKeys(t: Tree): seq<Scalar> {
    [t.key] + ForestKeys(t.children)
  }

  function ForestKeys(ts: seq<Tree>): seq<Scalar> {
    if ts == [] then [] else ForestKeys(ts[..|ts| - 1]) + TreeKeys(ts[|ts| - 1])
  }

  function AddScalars(a: seq<Scalar>, b: seq<Scalar>): (r: seq<Scalar>)
    requires |a| == |b|
    ensures |r| == |a| && forall i :: 0 <= i < |a| ==> r[i] == Add(a[i], b[i])
  {
    seq(|a|, i requires 0 <= i < |a| => Add(a[i], b[i]))
  }

  /** Every server drew one scalar per ciphertext, and every length order is a permutation of the children. */
  predicate Ready(t: Tree, n: nat) {
    |t.vis| == n && IsPermutation(t.lengthOrder, |t.children|) && ForestReady(t.children, n)
  }

  predicate ForestReady(ts: seq<Tree>, n: nat) {
    ts == [] || (ForestReady(ts[..|ts| - 1], n) && Ready(ts[|ts| - 1], n))
  }

  function TreeVis(t: Tree, n: nat): (r: seq<Scalar>)
    requires Ready(t, n)
    ensures |r| == n
    decreases t
  {
    AddForest(t.vis, t.children, n)
  }

  function AddForest(vis: seq<Scalar>, ts: seq<Tree>, n: nat): (r: seq<Scalar>)
    requires |vis| == n && ForestReady(ts, n)
    ensures |r| == n
    decreases ts
  {
    if ts == [] then vis else AddScalars(AddForest(vis, ts[..|ts| - 1], n), TreeVis(ts[|ts| - 1], n))
  }

  /** The scalars the servers of a subtree drew for element i, in the order of TreeKeys. */
  function TreeScalars(t: Tree, n: nat, i: nat): seq<Scalar>
    requires Ready(t, n) && i < n
    decreases t
  {
    [t.vis[i]] + ForestScalars(t.children, n, i)
  }

  function ForestScalars(ts: seq<Tree>, n: nat, i: nat): seq<Scalar>
    requires ForestReady(ts, n) && i < n
    decreases ts
  {
    if ts == [] then [] else ForestScalars(ts[..|ts| - 1], n, i) + TreeScalars(ts[|ts| - 1], n, i)
  }

  /** The scalars added up on the way to the root are those of all servers of the tree. */
  lemma {:induction false} VisAre(t: Tree, n: nat, i: nat)
    requires Ready(t, n) && i < n
    ensures TreeVis(t, n)[i] == Sum(TreeScalars(t, n, i))
    decreases t
  {
    ForestVisAre(t.vis, t.children, n, i);
    SumConcat([t.vis[i]], ForestScalars(t.children, n, i));
    assert Sum([t.vis[i]]) == t.vis[i] by { assert [t.vis[i]][..0] == []; }
  }

  lemma {:induction false} ForestVisAre(vis: seq<Scalar>, ts: seq<Tree>, n: nat, i: nat)
    requires |vis| == n && ForestReady(ts, n) && i < n
    ensures AddForest(vis, ts, n)[i] == Add(vis[i], Sum(ForestScalars(ts, n, i)))
    decreases ts
  {
    if ts != [] {
      var last := |ts| - 1;
      ForestVisAre(vis, ts[..last], n, i);
      VisAre(ts[last], n, i);
      SumConcat(ForestScalars(ts[..last], n, i), TreeScalars(ts[last], n, i));
      AddAssoc(vis[i], Sum(ForestScalars(ts[..last], n, i)), Sum(TreeScalars(ts[last], n, i)));
    }
  }

  lemma {:induction false} ForestPrefix(ts: seq<Tree>, n: nat, j: nat)
    requires ForestReady(ts, n) && j <= |ts|
    ensures ForestReady(ts[..j], n) && (j < |ts| ==> Ready(ts[j], n))
    decreases |ts|
  {
    if j < |ts| {
      ForestPrefix(ts[..|ts| - 1], n, j);
      assert ts[..|ts| - 1][..j] == ts[..j];
    } else {
      assert ts[..j] == ts;
    }
  }

  // ---------- the run ----------

  function ContributionMessage(cv: CipherVector): (seq<byte>, seq<byte>) {
    (IntsBytes([|cv|]), VectorBytes(cv))
  }

  lemma LengthMessage(n: nat)
    requires n < UINT32
    ensures BytesInts(IntsBytes([n])) == [n]
  {
    IntsRoundTrip([n]);
    assert Words([n]) == [n];
  }

  /** What a node sends up: the contribution of its whole subtree. */
  ghost function Upward(t: Tree, T: Point, rBs: seq<Point>): CipherVector
    requires Ready(t, |rBs|)
  {
    Contributions(T, rBs, Sum(TreeKeys(t)), TreeVis(t, |rBs|))
  }

  ghost predicate Sends(child: Tree, data: seq<byte>, T: Point, rBs: seq<Point>) {
    Ready(child, |rBs|) && data == VectorBytes(Upward(child, T, rBs))
  }

  /** All length messages are the same. */
  predicate AllEqual(lengths: seq<seq<byte>>, message: seq<byte>) {
    forall i :: 0 <= i < |lengths| ==> lengths[i] == message
  }

  /** Each child's data message carries the contribution of its subtree. */
  ghost predicate AllSend(ts: seq<Tree>, datas: seq<seq<byte>>, T: Point, rBs: seq<Point>) {
    |datas| <= |ts| && forall i :: 0 <= i < |datas| ==> Sends(ts[i], datas[i], T, rBs)
  }

  lemma OneMoreSends(ts: seq<Tree>, datas: seq<seq<byte>>, data: seq<byte>, T: Point, rBs: seq<Point>)
    requires AllSend(ts, datas, T, rBs) && |datas| < |ts| && Sends(ts[|datas|], data, T, rBs)
    ensures AllSend(ts, datas + [data], T, rBs)
  {
  }

  lemma ForestKeysStep(ts: seq<Tree>, j: nat)
    requires j < |ts|
    ensures ForestKeys(ts[..j + 1]) == ForestKeys(ts[..j]) + TreeKeys(ts[j])
  {
    assert ts[..j + 1][..j] == ts[..j];
  }

  lemma AddForestStep(vis: seq<Scalar>, ts: seq<Tree>, j: nat, n: nat)
    requires |vis| == n && j < |ts| && ForestReady(ts, n)
    ensures ForestReady(ts[..j], n) && ForestReady(ts[..j + 1], n) && Ready(ts[j], n)
    ensures AddForest(vis, ts[..j + 1], n) == AddScalars(AddForest(vis, ts[..j], n), TreeVis(ts[j], n))
  {
    ForestPrefix(ts, n, j);
    ForestPrefix(ts, n, j + 1);
    assert ts[..j + 1][..j] == ts[..j];
  }

  lemma AbsorbKeys(key: Scalar, ts: seq<Tree>, j: nat)
    requires j < |ts|
    ensures Sum([key] + ForestKeys(ts[..j + 1])) == Add(Sum([key] + ForestKeys(ts[..j])), Sum(TreeKeys(ts[j])))
  {
    var before := ForestKeys(ts[..j]);
    ForestKeysStep(ts, j);
    assert [key] + (before + TreeKeys(ts[j])) == [key] + before + TreeKeys(ts[j]);
    SumConcat([key] + before, TreeKeys(ts[j]));
  }

  lemma AbsorbChild(t: Tree, j: nat, T: Point, rBs: seq<Point>)
    requires |t.vis| == |rBs| && ForestReady(t.children, |rBs|) && j < |t.children|
    ensures ForestReady(t.children[..j], |rBs|) && ForestReady(t.children[..j + 1], |rBs|) && Ready(t.children[j], |rBs|)
    ensures AddVector(Partial(t, j, T, rBs), Upward(t.children[j], T, rBs)) == Partial(t, j + 1, T, rBs)
  {
    AbsorbKeys(t.key, t.children, j);
    AddForestStep(t.vis, t.children, j, |rBs|);
    AddContributions(T, rBs, Sum([t.key] + ForestKeys(t.children[..j])), Sum(TreeKeys(t.children[j])),
                     AddForest(t.vis, t.children[..j], |rBs|), TreeVis(t.children[j], |rBs|));
  }

  /** A node's contribution once its first j children are added. */
  ghost function Partial(t: Tree, j: nat, T: Point, rBs: seq<Point>): (cv: CipherVector)
    requires j <= |t.children| && |t.vis| == |rBs| && ForestReady(t.children[..j], |rBs|)
    ensures |cv| == |rBs|
  {
    Contributions(T, rBs, Sum([t.key] + ForestKeys(t.children[..j])), AddForest(t.vis, t.children[..j], |rBs|))
  }

  /** ascendingKSPhase: the length and data messages of the children are paired by list index, not by sender. */
  method Ascend(t: Tree, T: Point, rBs: seq<Point>, own: CipherVector, lengths: seq<seq<byte>>, datas: seq<seq<byte>>)
    returns (contribution: CipherVector)
    requires Ready(t, |rBs|) && |rBs| < UINT32 && own == Contributions(T, rBs, t.key, t.vis)
    requires |lengths| == |datas| == |t.children|
    requires AllEqual(lengths, IntsBytes([|rBs|])) && AllSend(t.children, datas, T, rBs)
    ensures contribution == Upward(t, T, rBs)
  {
    contribution := own;
    assert t.children[..0] == [] && [t.key] + ForestKeys([]) == [t.key];
    assert Sum([t.key]) == t.key by { assert [t.key][..0] == []; }
    for i := 0 to |lengths|
      invariant ForestReady(t.children[..i], |rBs|) && contribution == Partial(t, i, T, rBs)
    {
      LengthMessage(|rBs|);
      AbsorbChild(t, i, T, rBs);
      VectorRoundTrip(Upward(t.children[i], T, rBs));
      var cv := CipherVectorFromBytes(datas[i], BytesInts(lengths[i])[0]);
      assert datas[i][..|datas[i]|] == datas[i];
      contribution := AddVector(contribution, cv);
    }
    assert t.children[..|t.children|] == t.children;
  }

  /** One node and its subtree: decode the message from above, forward it, contribute, and add what the children send
      up. The result does not depend on either arrival order. */
  method RunNode(t: Tree, down: seq<byte>, ghost T: Point, ghost rBs: seq<Point>) returns (up: (seq<byte>, seq<byte>))
    requires Ready(t, |rBs|) && |rBs| < UINT32 && down == PointsBytes([T] + rBs)
    ensures up == ContributionMessage(Upward(t, T, rBs))
    decreases t, 1
  {
    PointsRoundTrip([T] + rBs);
    var message := BytesPoints(down);
    var own := KeySwitchSequence(message[0], message[1..], t.key, t.vis);
    var lengths, datas := RunChildren(t, down, T, rBs);
    var contribution := Ascend(t, message[0], message[1..], own, lengths, datas);
    up := ContributionMessage(contribution);
  }

  /** The children's messages: data in arrival order, lengths in their own arrival order. */
  method RunChildren(t: Tree, down: seq<byte>, ghost T: Point, ghost rBs: seq<Point>)
    returns (lengths: seq<seq<byte>>, datas: seq<seq<byte>>)
    requires Ready(t, |rBs|) && |rBs| < UINT32 && down == PointsBytes([T] + rBs)
    ensures |lengths| == |datas| == |t.children|
    ensures AllEqual(lengths, IntsBytes([|rBs|])) && AllSend(t.children, datas, T, rBs)
    decreases t, 0
  {
    var sent: seq<seq<byte>> := [];
    datas := [];
    for i := 0 to |t.children|
      invariant |sent| == |datas| == i
      invariant AllEqual(sent, IntsBytes([|rBs|])) && AllSend(t.children, datas, T, rBs)
    {
      ForestPrefix(t.children, |rBs|, i);
      var up := RunNode(t.children[i], down, T, rBs);
      OneMoreSends(t.children, datas, up.1, T, rBs);
      sent, datas := sent + [up.0], datas + [up.1];
    }
    lengths := Reorder(sent, t.lengthOrder, IntsBytes([|rBs|]));
  }

  /** Equal messages may arrive in any order. */
  method Reorder(sent: seq<seq<byte>>, order: seq<nat>, ghost message: seq<byte>) returns (arrived: seq<seq<byte>>)
    requires IsPermutation(order, |sent|) && AllEqual(sent, message)
    ensures |arrived| == |sent| && AllEqual(arrived, message)
  {
    PermutationRange(order, |sent|);
    arrived := Select(sent, order);
  }

  function EphemeralKeys(cv: CipherVector): (r: seq<Point>)
    ensures |r| == |cv| && forall i :: 0 <= i < |cv| ==> r[i] == cv[i].K
  {
    seq(|cv|, i requires 0 <= i < |cv| => cv[i].K)
  }

  /** The root: Start contributes and sends the target key and the ephemeral points down, Dispatch adds the children
      and reports. Element by element the result is the encryption, under the target key and with the sum of the scalars
      that all servers drew for the element, of what the target opened to under the sum of all the servers' keys. */
  method RunKeySwitching(t: Tree, target: CipherVector, T: Point, ghost y: Scalar) returns (switched: CipherVector)
    requires Ready(t, |target|) && |target| < UINT32 && T == Mul(y, Base)
    ensures |switched| == |target|
    ensures forall i :: 0 <= i < |target| ==>
      switched[i] == EncryptPoint(T, Open(Sum(TreeKeys(t)), target[i]), Sum(TreeScalars(t, |target|, i)))
    ensures forall i :: 0 <= i < |target| ==> Open(y, switched[i]) == Open(Sum(TreeKeys(t)), target[i])
  {
    var rBs := EphemeralKeys(target);
    var own := KeySwitchSequence(T, rBs, t.key, t.vis);
    var lengths, datas := RunChildren(t, PointsBytes([T] + rBs), T, rBs);
    var contribution := Ascend(t, T, rBs, own, lengths, datas);
    switched := ParallelMap(target, NullCipher,
                            (i: nat, c: CipherText) requires i < |contribution| => CipherText(contribution[i].K, Add(contribution[i].C, c.C)));
    forall i | 0 <= i < |target|
      ensures switched[i] == EncryptPoint(T, Open(Sum(TreeKeys(t)), target[i]), Sum(TreeScalars(t, |target|, i)))
           && Open(y, switched[i]) == Open(Sum(TreeKeys(t)), target[i])
    {
      SwitchIs(T, target[i], Sum(TreeKeys(t)), TreeVis(t, |rBs|)[i]);
      VisAre(t, |target|, i);
      OpenEncrypt(y, Open(Sum(TreeKeys(t)), target[i]), TreeVis(t, |rBs|)[i]);
    }
  }

  /** The algebra of one switched element. */
  lemma SwitchIs(T: Point, c: CipherText, x: Scalar, v: Scalar)
    ensures var s := Contribution(T, c.K, x, v);
            CipherText(s.K, Add(s.C, c.C)) == EncryptPoint(T, Open(x, c), v)
  {
    MulNeg(x, c.K);
    Regrouped(Mul(x, c.K), Mul(v, T), c.C);
  }

  lemma Regrouped(a: Elem, b: Elem, c: Elem)
    ensures Add(Add(Neg(a), b), c) == Add(b, Sub(c, a))
  {
  }

  // ---------- Start and Dispatch run side by side at the root ----------

  /** The root's Start writes its contribution and then sends down; its Dispatch reads the contribution once all children
      have replied. A root without children waits for nobody. */
  datatype Root = Root(contributed: bool, sent: bool, replies: nat, read: bool)

  datatype RootStep = Contribute | SendDown | ChildReplies | ReadContribution

  predicate RootEnabled(children: nat, r: Root, step: RootStep) {
    match step
    case Contribute => !r.contributed
    case SendDown => r.contributed && !r.sent
    case ChildReplies => r.sent && r.replies < children
    case ReadContribution => r.replies == children && !r.read
  }

  function RootApply(r: Root, step: RootStep): Root {
    match step
    case Contribute => r.(contributed := true)
    case SendDown => r.(sent := true)
    case ChildReplies => r.(replies := r.replies + 1)
    case ReadContribution => r.(read := true)
  }

  predicate RootRun(children: nat, steps: seq<RootStep>, states: seq<Root>) {
    && |states| == |steps| + 1 && states[0] == Root(false, false, 0, false)
    && forall i :: 0 <= i < |steps| ==> RootEnabled(children, states[i], steps[i]) && states[i + 1] == RootApply(states[i], steps[i])
  }

  /** A run in which the last step reads. */
  predicate Reads(children: nat, steps: seq<RootStep>, states: seq<Root>) {
    RootRun(children, steps, states) && steps != [] && steps[|steps| - 1] == ReadContribution
  }

  lemma {:induction false} RepliesNeedStart(children: nat, steps: seq<RootStep>, states: seq<Root>, i: nat)
    requires RootRun(children, steps, states) && i < |states|
    ensures (states[i].sent ==> states[i].contributed) && (states[i].replies > 0 ==> states[i].sent)
    decreases i
  {
    if i > 0 {
      RepliesNeedStart(children, steps, states, i - 1);
      assert RootEnabled(children, states[i - 1], steps[i - 1]);
    }
  }

  /** The contribution is there whenever it is read, under every interleaving, exactly when the root has a child. */
  lemma ContributionReadyIff(children: nat)
    ensures (forall steps: seq<RootStep>, states: seq<Root> :: Reads(children, steps, states) ==> states[|steps| - 1].contributed) <==> children > 0
  {
    if children > 0 {
      forall steps: seq<RootStep>, states: seq<Root> | Reads(children, steps, states) ensures states[|steps| - 1].contributed {
        RepliesNeedStart(children, steps, states, |steps| - 1);
        assert RootEnabled(children, states[|steps| - 1], steps[|steps| - 1]);
      }
    } else {
      var steps, states := [ReadContribution], [Root(false, false, 0, false), Root(false, false, 0, true)];
      assert Reads(children, steps, states);
    }
  }
}
