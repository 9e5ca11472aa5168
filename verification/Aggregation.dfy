/** Collective aggregation of the servers' grouped data over a tree
    (protocols/collective_aggregation_protocol.go). */
module Aggregation {
  import opened Group
  import opened Sums
  import opened Sets
  import opened ElGamal
  import opened Codec
  import opened Options
  import opened Responses
  import opened Table
  import opened LocalAggregation
  import SurveyStore

  /** A server's local data; its children in the order in which their data messages arrive; and the order in which their
      length messages do. */
  datatype Tree = Node(data: Grouped, children: seq<Tree>, lengthOrder: seq<nat>)

  function Max(a: nat, b: nat): nat {
    if a < b then b else a
  }

  /** The opened attributes a map holds for a key; nothing for an absent key. */
  function Opened(x: Scalar, m: Grouped, k: GroupingKey): (v: seq<Point>) {
    if k in m then OpenVector(x, m[k].aggregatingAttributes) else []
  }

  // ---------- what a tree holds ----------

  predicate Has(t: Tree, k: GroupingKey) {
    k in t.data || ForestHas(t.children, k)
  }

  predicate ForestHas(ts: seq<Tree>, k: GroupingKey) {
    ts != [] && (ForestHas(ts[..|ts| - 1], k) || Has(ts[|ts| - 1], k))
  }

  /** The widest vector any node has for a key. */
  function Width(t: Tree, k: GroupingKey): nat {
    Max(if k in t.data then |t.data[k].aggregatingAttributes| else 0, ForestWidth(t.children, k))
  }

  function ForestWidth(ts: seq<Tree>, k: GroupingKey): nat {
    if ts == [] then 0 else Max(ForestWidth(ts[..|ts| - 1], k), Width(ts[|ts| - 1], k))
  }

  /** The zero-padded sum over all nodes of attribute c for a key. */
  function Total(x: Scalar, t: Tree, k: GroupingKey, c: nat): Point {
    Add(At(Opened(x, t.data, k), c), ForestTotal(x, t.children, k, c))
  }

  function ForestTotal(x: Scalar, ts: seq<Tree>, k: GroupingKey, c: nat): Point {
    if ts == [] then 0 else Add(ForestTotal(x, ts[..|ts| - 1], k, c), Total(x, ts[|ts| - 1], k, c))
  }

  /** g is the encrypted group some node stores under k. */
  predicate HasGroup(t: Tree, k: GroupingKey, g: CipherVector) {
    (k in t.data && t.data[k].groupByEnc == g) || ForestHasGroup(t.children, k, g)
  }

  predicate ForestHasGroup(ts: seq<Tree>, k: GroupingKey, g: CipherVector) {
    ts != [] && (ForestHasGroup(ts[..|ts| - 1], k, g) || HasGroup(ts[|ts| - 1], k, g))
  }

  /** The map is the aggregate of the tree: its keys are those of all nodes, its vectors open to the padded sums, and
      each encrypted group is one of the nodes' own. */
  ghost predicate Represents(x: Scalar, m: Grouped, t: Tree) {
    && (forall k :: k in m <==> Has(t, k))
    && (forall k :: |Opened(x, m, k)| == Width(t, k))
    && (forall k, c: nat :: At(Opened(x, m, k), c) == Total(x, t, k, c))
    && (forall k :: k in m ==> HasGroup(t, k, m[k].groupByEnc))
  }

  // ---------- merging ----------

  /** cm restricted to the keys already merged. */
  ghost function Only(cm: Grouped, done: set<GroupingKey>): Grouped {
    map k | k in cm && k in done :: cm[k]
  }

  /** m is m0 with the entries of cm added in. */
  ghost predicate Merged(x: Scalar, m0: Grouped, cm: Grouped, m: Grouped) {
    && m.Keys == m0.Keys + cm.Keys
    && (forall k :: |Opened(x, m, k)| == Max(|Opened(x, m0, k)|, |Opened(x, cm, k)|))
    && (forall k, c: nat :: At(Opened(x, m, k), c) == Add(At(Opened(x, m0, k), c), At(Opened(x, cm, k), c)))
    && (forall k :: k in m ==> m[k].groupByEnc == if k in m0 then m0[k].groupByEnc else cm[k].groupByEnc)
  }

  /** The vector continued by zeros, each encrypted under the aggregate key with the scalar drawn for it. */
  ghost predicate Padded(cv: CipherVector, width: nat, aggregate: Point, draws: nat -> Scalar, r: CipherVector) {
    |r| == width && forall c :: 0 <= c < width ==> r[c] == if c < |cv| then cv[c] else EncryptPoint(aggregate, Null, draws(c))
  }

  lemma PaddedOpens(x: Scalar, cv: CipherVector, width: nat, draws: nat -> Scalar, r: CipherVector)
    requires |cv| <= width && Padded(cv, width, Mul(x, Base), draws, r)
    ensures forall c :: 0 <= c < width ==> Open(x, r[c]) == At(OpenVector(x, cv), c)
  {
    forall c | 0 <= c < width ensures Open(x, r[c]) == At(OpenVector(x, cv), c) {
      OpenEncrypt(x, Null, draws(c));
    }
  }

  /** Zeros freshly encrypted under the aggregate key, appended up to the given width. */
  method Pad(cv: CipherVector, width: nat, aggregate: Point, draws: nat -> Scalar) returns (r: CipherVector)
    requires |cv| <= width
    ensures Padded(cv, width, aggregate, draws, r)
  {
    r := cv;
    while |r| < width
      invariant |cv| <= |r| <= width && Padded(cv, |r|, aggregate, draws, r)
    {
      r := r + [EncryptPoint(aggregate, Null, draws(|r|))];
    }
  }

  /** Attribute by attribute the sum of the two vectors, the shorter one continued by encrypted zeros. */
  ghost predicate RaggedSum(a: CipherVector, b: CipherVector, aggregate: Point, draws: nat -> Scalar, r: CipherVector) {
    |r| == Max(|a|, |b|)
    && forall c :: 0 <= c < |r| ==>
         var zero := EncryptPoint(aggregate, Null, draws(c));
         r[c] == AddCipher(if c < |a| then a[c] else zero, if c < |b| then b[c] else zero)
  }

  /** The vector sum of two ragged vectors, as the ascending phase computes it. */
  method AddRagged(a: CipherVector, b: CipherVector, aggregate: Point, draws: nat -> Scalar, ghost x: Scalar) returns (r: CipherVector)
    requires aggregate == Mul(x, Base)
    ensures RaggedSum(a, b, aggregate, draws, r)
    ensures |r| == Max(|a|, |b|)
    ensures forall c: nat :: At(OpenVector(x, r), c) == Add(At(OpenVector(x, a), c), At(OpenVector(x, b), c))
    ensures |a| == |b| ==> r == AddVector(a, b)
  {
    var a', b' := a, b;
    if |a| > |b| {
      b' := Pad(b, |a|, aggregate, draws);
      PaddedOpens(x, b, |a|, draws, b');
    } else if |a| < |b| {
      a' := Pad(a, |b|, aggregate, draws);
      PaddedOpens(x, a, |b|, draws, a');
    }
    r := AddVector(a', b');
    forall c: nat | c < |r| ensures Open(x, r[c]) == Add(At(OpenVector(x, a), c), At(OpenVector(x, b), c)) {
      OpenAdd(x, a'[c], b'[c]);
    }
  }

  lemma MergedOne(x: Scalar, m: Grouped, e: FilteredResponseDet, m': Grouped)
    requires e.detTagGroupBy in m && m'.Keys == m.Keys
    requires forall k :: k in m && k != e.detTagGroupBy ==> m'[k] == m[k]
    requires m'[e.detTagGroupBy].groupByEnc == m[e.detTagGroupBy].groupByEnc
    requires var a, b, r := m[e.detTagGroupBy].aggregatingAttributes, e.fr.aggregatingAttributes, m'[e.detTagGroupBy].aggregatingAttributes;
             |r| == Max(|a|, |b|) && forall c: nat :: At(OpenVector(x, r), c) == Add(At(OpenVector(x, a), c), At(OpenVector(x, b), c))
    ensures Merged(x, m, map[e.detTagGroupBy := e.fr], m')
  {
    var one := map[e.detTagGroupBy := e.fr];
    forall k, c: nat ensures At(Opened(x, m', k), c) == Add(At(Opened(x, m, k), c), At(Opened(x, one, k), c)) {
      if k != e.detTagGroupBy {
        assert Opened(x, one, k) == [] && Opened(x, m', k) == Opened(x, m, k);
      }
    }
  }

  predicate SameWidth(m: Grouped, aggr: FilteredResponseDet) {
    aggr.detTagGroupBy in m ==> |m[aggr.detTagGroupBy].aggregatingAttributes| == |aggr.fr.aggregatingAttributes|
  }

  /** Outside these keys nothing changed. */
  ghost predicate SameOutside(m: Grouped, m': Grouped, done: set<GroupingKey>) {
    forall k :: k !in done ==> (k in m' <==> k in m) && (k in m ==> k in m' && m'[k] == m[k])
  }

  lemma SameOutsideStep(m: Grouped, m1: Grouped, m2: Grouped, done: set<GroupingKey>, k: GroupingKey)
    requires SameOutside(m, m1, done) && SameOutside(m1, m2, {k})
    ensures SameOutside(m, m2, done + {k})
  {
  }

  /** The entry of a key in the new map: the padded sum of what the map had and what is added. */
  ghost predicate EntryMerged(m: Grouped, aggr: FilteredResponseDet, aggregate: Point, draws: nat -> Scalar, m': Grouped) {
    var k := aggr.detTagGroupBy;
    k in m' && if k in m then RaggedSum(m[k].aggregatingAttributes, aggr.fr.aggregatingAttributes, aggregate, draws, m'[k].aggregatingAttributes)
               else m'[k] == aggr.fr
  }

  /** One child entry folded into the node's map; without padding this is AddInMap. */
  method MergeEntry(m: Grouped, aggr: FilteredResponseDet, aggregate: Point, draws: nat -> Scalar, ghost x: Scalar) returns (m': Grouped)
    requires aggregate == Mul(x, Base)
    ensures EntryMerged(m, aggr, aggregate, draws, m') && SameOutside(m, m', {aggr.detTagGroupBy})
    ensures Merged(x, m, map[aggr.detTagGroupBy := aggr.fr], m')
    ensures SameWidth(m, aggr) ==> m' == Insert(m, aggr.detTagGroupBy, aggr.fr)
  {
    var k := aggr.detTagGroupBy;
    if k in m {
      var local := m[k];
      var cv := AddRagged(local.aggregatingAttributes, aggr.fr.aggregatingAttributes, aggregate, draws, x);
      m' := m[k := FilteredResponse(local.groupByEnc, cv)];
      MergedOne(x, m, aggr, m');
      assert SameWidth(m, aggr) ==> cv + NullVector(0) == cv;
    } else {
      m' := m[k := aggr.fr];
    }
  }

  function Tags(entries: seq<FilteredResponseDet>): set<GroupingKey> {
    if entries == [] then {} else Tags(entries[..|entries| - 1]) + {entries[|entries| - 1].detTagGroupBy}
  }

  predicate DistinctTags(entries: seq<FilteredResponseDet>) {
    entries == [] || (DistinctTags(entries[..|entries| - 1]) && entries[|entries| - 1].detTagGroupBy !in Tags(entries[..|entries| - 1]))
  }

  /** The entries list exactly the pairs of the map, each once. */
  predicate Listing(entries: seq<FilteredResponseDet>, m: Grouped) {
    && Tags(entries) == m.Keys && DistinctTags(entries)
    && (forall i :: 0 <= i < |entries| ==> entries[i].detTagGroupBy in m && entries[i].fr == m[entries[i].detTagGroupBy])
  }

  lemma {:induction false} DistinctPrefix(entries: seq<FilteredResponseDet>, i: nat)
    requires DistinctTags(entries) && i < |entries|
    ensures DistinctTags(entries[..i]) && entries[i].detTagGroupBy !in Tags(entries[..i])
    ensures Tags(entries[..i + 1]) == Tags(entries[..i]) + {entries[i].detTagGroupBy}
  {
    assert entries[..i + 1][..i] == entries[..i];
    if i < |entries| - 1 {
      var shorter := entries[..|entries| - 1];
      DistinctPrefix(shorter, i);
      assert shorter[..i] == entries[..i] && shorter[..i + 1] == entries[..i + 1];
    }
  }

  lemma OpenedWith(x: Scalar, done: Grouped, e: FilteredResponseDet, k: GroupingKey)
    ensures Opened(x, done[e.detTagGroupBy := e.fr], k) == if k == e.detTagGroupBy then Opened(x, map[e.detTagGroupBy := e.fr], k) else Opened(x, done, k)
    ensures k != e.detTagGroupBy ==> Opened(x, map[e.detTagGroupBy := e.fr], k) == []
  {
  }

  lemma MergeStep(x: Scalar, m0: Grouped, done: Grouped, e: FilteredResponseDet, m1: Grouped, m2: Grouped)
    requires e.detTagGroupBy !in done
    requires Merged(x, m0, done, m1) && Merged(x, m1, map[e.detTagGroupBy := e.fr], m2)
    ensures Merged(x, m0, done[e.detTagGroupBy := e.fr], m2)
  {
    var one, next := map[e.detTagGroupBy := e.fr], done[e.detTagGroupBy := e.fr];
    forall k ensures |Opened(x, m2, k)| == Max(|Opened(x, m0, k)|, |Opened(x, next, k)|) {
      MergeStepWidth(x, m0, done, e, m1, m2, k);
    }
    forall k, c: nat ensures At(Opened(x, m2, k), c) == Add(At(Opened(x, m0, k), c), At(Opened(x, next, k), c)) {
      MergeStepSum(x, m0, done, e, m1, m2, k, c);
    }
  }

  lemma MergeStepWidth(x: Scalar, m0: Grouped, done: Grouped, e: FilteredResponseDet, m1: Grouped, m2: Grouped, k: GroupingKey)
    requires e.detTagGroupBy !in done
    requires Merged(x, m0, done, m1) && Merged(x, m1, map[e.detTagGroupBy := e.fr], m2)
    ensures |Opened(x, m2, k)| == Max(|Opened(x, m0, k)|, |Opened(x, done[e.detTagGroupBy := e.fr], k)|)
  {
    OpenedWith(x, done, e, k);
    assert |Opened(x, m1, k)| == Max(|Opened(x, m0, k)|, |Opened(x, done, k)|);
  }

  lemma MergeStepSum(x: Scalar, m0: Grouped, done: Grouped, e: FilteredResponseDet, m1: Grouped, m2: Grouped, k: GroupingKey, c: nat)
    requires e.detTagGroupBy !in done
    requires Merged(x, m0, done, m1) && Merged(x, m1, map[e.detTagGroupBy := e.fr], m2)
    ensures At(Opened(x, m2, k), c) == Add(At(Opened(x, m0, k), c), At(Opened(x, done[e.detTagGroupBy := e.fr], k), c))
  {
    OpenedWith(x, done, e, k);
    assert At(Opened(x, m1, k), c) == Add(At(Opened(x, m0, k), c), At(Opened(x, done, k), c));
  }

  lemma MergedNothing(x: Scalar, m: Grouped)
    ensures Merged(x, m, map[], m)
  {
  }

  /** The first so many entries are merged, each from what the map had for its key at first. */
  ghost predicate EntriesMerged(m: Grouped, entries: seq<FilteredResponseDet>, i: nat, aggregate: Point, draws: nat -> nat -> Scalar, m': Grouped)
    requires i <= |entries|
  {
    forall l :: 0 <= l < i ==> EntryMerged(m, entries[l], aggregate, draws(l), m')
  }

  /** What an entry becomes depends on its own key alone. */
  lemma EntryElsewhere(m: Grouped, n: Grouped, e: FilteredResponseDet, aggregate: Point, draws: nat -> Scalar, m': Grouped, n': Grouped)
    requires EntryMerged(m, e, aggregate, draws, m') && var k := e.detTagGroupBy;
             k in n' && n'[k] == m'[k] && (k in n <==> k in m) && (k in m ==> k in n && n[k] == m[k])
    ensures EntryMerged(n, e, aggregate, draws, n')
  {
  }

  lemma EntriesMergedStep(m: Grouped, entries: seq<FilteredResponseDet>, i: nat, aggregate: Point, draws: nat -> nat -> Scalar,
                          m1: Grouped, m2: Grouped)
    requires i < |entries| && DistinctTags(entries) && EntriesMerged(m, entries, i, aggregate, draws, m1)
    requires SameOutside(m, m1, Tags(entries[..i])) && EntryMerged(m1, entries[i], aggregate, draws(i), m2)
    requires SameOutside(m1, m2, {entries[i].detTagGroupBy})
    ensures EntriesMerged(m, entries, i + 1, aggregate, draws, m2)
    ensures SameOutside(m, m2, Tags(entries[..i + 1]))
  {
    DistinctPrefix(entries, i);
    SameOutsideStep(m, m1, m2, Tags(entries[..i]), entries[i].detTagGroupBy);
    EntryElsewhere(m1, m, entries[i], aggregate, draws(i), m2, m2);
    forall l | 0 <= l < i ensures EntryMerged(m, entries[l], aggregate, draws(l), m2) {
      TagListed(entries[..i], l);
      EntryElsewhere(m, m, entries[l], aggregate, draws(l), m1, m2);
    }
  }

  /** One child's message merged into the node's map. */
  method MergeChild(m: Grouped, entries: seq<FilteredResponseDet>, aggregate: Point, draws: nat -> nat -> Scalar, ghost x: Scalar, ghost cm: Grouped)
    returns (m': Grouped)
    requires aggregate == Mul(x, Base) && Listing(entries, cm)
    ensures EntriesMerged(m, entries, |entries|, aggregate, draws, m')
    ensures Merged(x, m, cm, m')
  {
    m' := m;
    MergedNothing(x, m);
    assert Only(cm, Tags(entries[..0])) == map[];
    for i := 0 to |entries|
      invariant Merged(x, m, Only(cm, Tags(entries[..i])), m')
      invariant EntriesMerged(m, entries, i, aggregate, draws, m') && SameOutside(m, m', Tags(entries[..i]))
    {
      var next := MergeEntry(m', entries[i], aggregate, draws(i), x);
      MergeNext(x, m, entries, i, cm, m', next);
      EntriesMergedStep(m, entries, i, aggregate, draws, m', next);
      m' := next;
    }
    assert entries[..|entries|] == entries;
    assert Only(cm, Tags(entries)) == cm;
  }

  lemma MergeNext(x: Scalar, m: Grouped, entries: seq<FilteredResponseDet>, i: nat, cm: Grouped, m1: Grouped, m2: Grouped)
    requires Listing(entries, cm) && i < |entries|
    requires Merged(x, m, Only(cm, Tags(entries[..i])), m1) && Merged(x, m1, map[entries[i].detTagGroupBy := entries[i].fr], m2)
    ensures Merged(x, m, Only(cm, Tags(entries[..i + 1])), m2)
  {
    var e, done := entries[i], Only(cm, Tags(entries[..i]));
    DistinctPrefix(entries, i);
    MergeStep(x, m, done, e, m1, m2);
    assert Only(cm, Tags(entries[..i + 1])) == done[e.detTagGroupBy := e.fr];
  }

  /** The map as a list, in some iteration order. */
  method ListMap(m: Grouped) returns (entries: seq<FilteredResponseDet>)
    ensures Listing(entries, m)
  {
    entries := [];
    var rest := m.Keys;
    while rest != {}
      invariant rest <= m.Keys
      invariant Listing(entries, m - rest)
      decreases rest
    {
      var k := Pick(rest);
      var before := entries;
      entries := entries + [FilteredResponseDet(k, m[k])];
      assert entries[..|entries| - 1] == before;
      rest := rest - {k};
    }
    assert m - rest == m;
  }

  // ---------- the tree ----------

  /** Entries have group vectors of gw elements and byte-string keys of dl characters. */
  predicate EntriesShaped(m: Grouped, gw: nat, dl: nat) {
    forall k :: k in m ==> |m[k].groupByEnc| == gw && |k| == dl && IsByteString(k)
  }

  /** All entries a subtree sends up have one width, and a nonzero size. */
  ghost predicate UniformWidth(t: Tree, gw: nat, dl: nat) {
    exists w: nat :: EntrySize(EntryLengths(gw, w, dl)) != 0 && forall k :: Has(t, k) ==> Width(t, k) == w
  }

  /** The lengths of one subtree's message do for another's: if the child has an entry, so has the other, and their widths
      are the same. */
  ghost predicate LengthsServe(child: Tree, other: Tree) {
    forall k :: Has(child, k) ==> exists k' :: Has(other, k') && Width(other, k') == Width(child, k)
  }

  ghost predicate AllWide(t: Tree, w: nat) {
    forall k :: Has(t, k) ==> Width(t, k) == w
  }

  ghost predicate HasSome(t: Tree) {
    exists k :: Has(t, k)
  }

  lemma ServesNeeds(child: Tree, other: Tree)
    requires LengthsServe(child, other) && HasSome(child)
    ensures HasSome(other)
  {
    var k :| Has(child, k);
    var k' :| Has(other, k') && Width(other, k') == Width(child, k);
  }

  lemma WideServes(child: Tree, other: Tree, w: nat, k': GroupingKey)
    requires AllWide(child, w) && AllWide(other, w) && Has(other, k')
    ensures LengthsServe(child, other)
  {
    assert Width(other, k') == w;
  }

  /** With one width everywhere, the lengths do exactly when the other subtree has an entry or the child has none. */
  lemma LengthsServeIff(child: Tree, other: Tree, w: nat)
    requires AllWide(child, w) && AllWide(other, w)
    ensures LengthsServe(child, other) <==> (HasSome(child) ==> HasSome(other))
  {
    if HasSome(other) {
      var k' :| Has(other, k');
      WideServes(child, other, w, k');
    } else if HasSome(child) {
      if LengthsServe(child, other) {
        ServesNeeds(child, other);
      }
    }
  }

  /** Every child's data message meets a length message that does for it. */
  ghost predicate Paired(ts: seq<Tree>, order: seq<nat>) {
    IsPermutation(order, |ts|) && |order| == |ts| && forall i :: 0 <= i < |ts| && order[i] < |ts| ==> LengthsServe(ts[i], ts[order[i]])
  }

  /** The wire format can carry every message of the tree. */
  ghost predicate WireSafe(t: Tree, gw: nat, dl: nat) {
    EntriesShaped(t.data, gw, dl) && ForestSafe(t.children, gw, dl) && Paired(t.children, t.lengthOrder)
  }

  ghost predicate ForestSafe(ts: seq<Tree>, gw: nat, dl: nat) {
    ts == [] || (ForestSafe(ts[..|ts| - 1], gw, dl) && UniformWidth(ts[|ts| - 1], gw, dl) && WireSafe(ts[|ts| - 1], gw, dl))
  }

  lemma {:induction false} ForestSafeAt(ts: seq<Tree>, gw: nat, dl: nat, j: nat)
    requires ForestSafe(ts, gw, dl) && j < |ts|
    ensures UniformWidth(ts[j], gw, dl) && WireSafe(ts[j], gw, dl)
    decreases |ts|
  {
    if j < |ts| - 1 {
      ForestSafeAt(ts[..|ts| - 1], gw, dl, j);
    }
  }

  lemma {:induction false} GroupShaped(t: Tree, gw: nat, dl: nat, k: GroupingKey, g: CipherVector)
    requires WireSafe(t, gw, dl) && HasGroup(t, k, g)
    ensures |g| == gw && |k| == dl && IsByteString(k)
    decreases t
  {
    if !(k in t.data && t.data[k].groupByEnc == g) {
      ForestGroupShaped(t.children, gw, dl, k, g);
    }
  }

  lemma {:induction false} ForestGroupShaped(ts: seq<Tree>, gw: nat, dl: nat, k: GroupingKey, g: CipherVector)
    requires ForestSafe(ts, gw, dl) && ForestHasGroup(ts, k, g)
    ensures |g| == gw && |k| == dl && IsByteString(k)
    decreases ts
  {
    if ForestHasGroup(ts[..|ts| - 1], k, g) {
      ForestGroupShaped(ts[..|ts| - 1], gw, dl, k, g);
    } else {
      GroupShaped(ts[|ts| - 1], gw, dl, k, g);
    }
  }

  /** A node together with its first j children. */
  function Upto(t: Tree, j: nat): Tree
    requires j <= |t.children|
  {
    Node(t.data, t.children[..j], [])
  }

  lemma RepresentsStart(x: Scalar, t: Tree)
    ensures Represents(x, t.data, Upto(t, 0))
  {
  }

  lemma RepresentsEnd(x: Scalar, t: Tree, m: Grouped)
    requires Represents(x, m, Upto(t, |t.children|))
    ensures Represents(x, m, t)
  {
    assert t.children[..|t.children|] == t.children;
    forall k, c: nat, g
      ensures Has(Upto(t, |t.children|), k) == Has(t, k) && Width(Upto(t, |t.children|), k) == Width(t, k)
           && Total(x, Upto(t, |t.children|), k, c) == Total(x, t, k, c) && HasGroup(Upto(t, |t.children|), k, g) == HasGroup(t, k, g)
    {
    }
  }

  lemma UptoStep(x: Scalar, t: Tree, j: nat, k: GroupingKey, c: nat, g: CipherVector)
    requires j < |t.children|
    ensures Has(Upto(t, j + 1), k) <==> Has(Upto(t, j), k) || Has(t.children[j], k)
    ensures Width(Upto(t, j + 1), k) == Max(Width(Upto(t, j), k), Width(t.children[j], k))
    ensures Total(x, Upto(t, j + 1), k, c) == Add(Total(x, Upto(t, j), k, c), Total(x, t.children[j], k, c))
    ensures HasGroup(Upto(t, j + 1), k, g) <==> HasGroup(Upto(t, j), k, g) || HasGroup(t.children[j], k, g)
  {
    var before, after := t.children[..j], t.children[..j + 1];
    assert after[..j] == before && after[j] == t.children[j];
    AddAssoc(At(Opened(x, t.data, k), c), ForestTotal(x, before, k, c), Total(x, t.children[j], k, c));
  }

  lemma RepresentsStep(x: Scalar, t: Tree, j: nat, m: Grouped, cm: Grouped, m': Grouped)
    requires j < |t.children| && Represents(x, m, Upto(t, j)) && Represents(x, cm, t.children[j]) && Merged(x, m, cm, m')
    ensures Represents(x, m', Upto(t, j + 1))
  {
    forall k ensures (k in m' <==> Has(Upto(t, j + 1), k)) && |Opened(x, m', k)| == Width(Upto(t, j + 1), k) {
      UptoStep(x, t, j, k, 0, []);
      assert |Opened(x, m, k)| == Width(Upto(t, j), k) && |Opened(x, cm, k)| == Width(t.children[j], k);
    }
    forall k, c: nat ensures At(Opened(x, m', k), c) == Total(x, Upto(t, j + 1), k, c) {
      UptoStep(x, t, j, k, c, []);
      assert At(Opened(x, m, k), c) == Total(x, Upto(t, j), k, c) && At(Opened(x, cm, k), c) == Total(x, t.children[j], k, c);
    }
    forall k | k in m' ensures HasGroup(Upto(t, j + 1), k, m'[k].groupByEnc) {
      UptoStep(x, t, j, k, 0, m'[k].groupByEnc);
    }
  }

  /** A child's map, its entries in the order listed, and the two messages made of them. */
  datatype Message = Message(cm: Grouped, entries: seq<FilteredResponseDet>, data: seq<byte>, lengths: EntryLengths)

  /** What a child sends up: the bytes of a listing of its subtree's map, and the lengths of any one entry. */
  ghost predicate SentUp(x: Scalar, child: Tree, m: Message) {
    Represents(x, m.cm, child) && Listing(m.entries, m.cm) && m.data == ChildBytes(m.entries) && SentLengths(m.entries, m.lengths)
  }

  /** A node below the root lists its map and sends it, the two messages apart. */
  method SendUp(cm: Grouped, ghost child: Tree, ghost x: Scalar) returns (data: seq<byte>, l: EntryLengths, ghost m: Message)
    requires Represents(x, cm, child)
    ensures SentUp(x, child, m) && m.cm == cm && m.data == data && m.lengths == l
  {
    var entries := ListMap(cm);
    data, l := ChildToBytes(entries);
    m := Message(cm, entries, data, l);
  }

  /** Each entry of a subtree has that subtree's one shape. */
  lemma EntryShape(x: Scalar, child: Tree, cm: Grouped, entries: seq<FilteredResponseDet>, i: nat, gw: nat, dl: nat)
    requires Listing(entries, cm) && Represents(x, cm, child) && WireSafe(child, gw, dl) && i < |entries|
    ensures var k := entries[i].detTagGroupBy;
            Has(child, k) && IsByteString(k) && LengthsOf(entries[i]) == EntryLengths(gw, Width(child, k), dl)
  {
    var k := entries[i].detTagGroupBy;
    GroupShaped(child, gw, dl, k, cm[k].groupByEnc);
    assert |Opened(x, cm, k)| == Width(child, k);
  }

  /** The lengths sent for a subtree with an entry are its one shape. */
  lemma LengthsSent(x: Scalar, other: Tree, m: Message, gw: nat, dl: nat, k: GroupingKey)
    requires SentUp(x, other, m) && WireSafe(other, gw, dl) && UniformWidth(other, gw, dl) && Has(other, k)
    ensures m.lengths == EntryLengths(gw, Width(other, k), dl) && EntrySize(m.lengths) != 0
  {
    var w: nat :| EntrySize(EntryLengths(gw, w, dl)) != 0 && forall k :: Has(other, k) ==> Width(other, k) == w;
    assert k in Tags(m.entries);
    var i :| 0 <= i < |m.entries| && m.lengths == LengthsOf(m.entries[i]);
    EntryShape(x, other, m.cm, m.entries, i, gw, dl);
  }

  lemma ListedKey(entries: seq<FilteredResponseDet>, m: Grouped, k: GroupingKey) returns (i: nat)
    requires Listing(entries, m) && k in m
    ensures i < |entries| && entries[i].detTagGroupBy == k
  {
    assert k in Tags(entries);
    i := TagIndex(entries, k);
  }

  lemma {:induction false} TagIndex(entries: seq<FilteredResponseDet>, k: GroupingKey) returns (i: nat)
    requires k in Tags(entries)
    ensures i < |entries| && entries[i].detTagGroupBy == k
  {
    if entries[|entries| - 1].detTagGroupBy == k {
      i := |entries| - 1;
    } else {
      i := TagIndex(entries[..|entries| - 1], k);
    }
  }

  lemma LengthsFit(x: Scalar, child: Tree, m: Message, other: Tree, m': Message, gw: nat, dl: nat, i: nat)
    requires SentUp(x, child, m) && SentUp(x, other, m') && WireSafe(child, gw, dl) && WireSafe(other, gw, dl) && UniformWidth(other, gw, dl)
    requires LengthsServe(child, other) && i < |m.entries|
    ensures LengthsOf(m.entries[i]) == m'.lengths && EntrySize(m'.lengths) != 0
  {
    var k := m.entries[i].detTagGroupBy;
    EntryShape(x, child, m.cm, m.entries, i, gw, dl);
    var k' :| Has(other, k') && Width(other, k') == Width(child, k);
    LengthsSent(x, other, m', gw, dl, k');
  }

  lemma FitServes(x: Scalar, child: Tree, m: Message, other: Tree, m': Message, gw: nat, dl: nat, k: GroupingKey)
    requires SentUp(x, child, m) && SentUp(x, other, m') && WireSafe(child, gw, dl) && WireSafe(other, gw, dl)
    requires Uniform(m.entries, m'.lengths) && EntrySize(m'.lengths) != 0 && Has(child, k)
    ensures exists k' :: Has(other, k') && Width(other, k') == Width(child, k)
  {
    var i := ListedKey(m.entries, m.cm, k);
    EntryShape(x, child, m.cm, m.entries, i, gw, dl);
    var j :| 0 <= j < |m'.entries| && m'.lengths == LengthsOf(m'.entries[j]);
    EntryShape(x, other, m'.cm, m'.entries, j, gw, dl);
  }

  lemma ByteTagsSent(x: Scalar, child: Tree, m: Message, gw: nat, dl: nat)
    requires SentUp(x, child, m) && WireSafe(child, gw, dl)
    ensures ByteTags(m.entries)
  {
    forall i | 0 <= i < |m.entries| ensures IsByteString(m.entries[i].detTagGroupBy) {
      EntryShape(x, child, m.cm, m.entries, i, gw, dl);
    }
  }

  /** A data message read with the lengths of some subtree arrives intact exactly when those lengths do for it. */
  lemma ArrivesIff(x: Scalar, child: Tree, m: Message, other: Tree, m': Message, gw: nat, dl: nat)
    requires SentUp(x, child, m) && SentUp(x, other, m') && WireSafe(child, gw, dl) && WireSafe(other, gw, dl) && UniformWidth(other, gw, dl)
    ensures BytesChild(m.data, m'.lengths) == m.entries <==> LengthsServe(child, other)
  {
    ByteTagsSent(x, child, m, gw, dl);
    ChildRoundTripIff(m.entries, m'.lengths);
    if LengthsServe(child, other) {
      forall i | 0 <= i < |m.entries| ensures LengthsOf(m.entries[i]) == m'.lengths && EntrySize(m'.lengths) != 0 {
        LengthsFit(x, child, m, other, m', gw, dl, i);
      }
    } else if BytesChild(m.data, m'.lengths) == m.entries {
      forall k | Has(child, k) ensures exists k' :: Has(other, k') && Width(other, k') == Width(child, k) {
        var i := ListedKey(m.entries, m.cm, k);
        FitServes(x, child, m, other, m', gw, dl, k);
      }
    }
  }

  ghost predicate AllSentUp(x: Scalar, ts: seq<Tree>, sent: seq<Message>) {
    |sent| <= |ts| && forall i :: 0 <= i < |sent| ==> SentUp(x, ts[i], sent[i])
  }

  /** The messages sent, before the lengths are put in the order of their arrival. */
  ghost predicate Collected(x: Scalar, ts: seq<Tree>, sent: seq<Message>, datas: seq<seq<byte>>, lengths: seq<EntryLengths>) {
    && AllSentUp(x, ts, sent) && |datas| == |lengths| == |sent|
    && forall i :: 0 <= i < |sent| ==> datas[i] == sent[i].data && lengths[i] == sent[i].lengths
  }

  lemma CollectedNext(x: Scalar, ts: seq<Tree>, sent: seq<Message>, datas: seq<seq<byte>>, lengths: seq<EntryLengths>, m: Message)
    requires Collected(x, ts, sent, datas, lengths) && |sent| < |ts| && SentUp(x, ts[|sent|], m)
    ensures Collected(x, ts, sent + [m], datas + [m.data], lengths + [m.lengths])
  {
  }

  lemma CollectedArrive(x: Scalar, ts: seq<Tree>, sent: seq<Message>, datas: seq<seq<byte>>, lengths: seq<EntryLengths>, order: seq<nat>)
    requires Collected(x, ts, sent, datas, lengths) && IsPermutation(order, |sent|)
    ensures forall i :: 0 <= i < |order| ==> order[i] < |lengths|
    ensures Arrived(sent, order, datas, Select(lengths, order))
  {
    PermutationRange(order, |sent|);
  }

  /** A node's data message and its length message arrive, each in its own order. */
  ghost predicate Arrived(sent: seq<Message>, order: seq<nat>, datas: seq<seq<byte>>, lengths: seq<EntryLengths>) {
    && |datas| == |lengths| == |sent| == |order|
    && (forall i :: 0 <= i < |sent| ==> datas[i] == sent[i].data && order[i] < |sent|)
    && (forall i :: 0 <= i < |sent| && order[i] < |sent| ==> lengths[i] == sent[order[i]].lengths)
  }

  lemma ArrivedIntact(x: Scalar, t: Tree, sent: seq<Message>, datas: seq<seq<byte>>, lengths: seq<EntryLengths>, gw: nat, dl: nat, i: nat)
    requires WireSafe(t, gw, dl) && AllSentUp(x, t.children, sent) && Arrived(sent, t.lengthOrder, datas, lengths)
    requires |sent| == |t.children| && i < |sent|
    ensures BytesChild(datas[i], lengths[i]) == sent[i].entries
  {
    var j := t.lengthOrder[i];
    ForestSafeAt(t.children, gw, dl, i);
    ForestSafeAt(t.children, gw, dl, j);
    ArrivesIff(x, t.children[i], sent[i], t.children[j], sent[j], gw, dl);
  }

  /** Any tree of servers, children in any arrival order, length and data messages paired by index: the map a node ends with
      holds the union of its subtree's keys and, per key, vectors that open under the collective key to the zero-padded sums
      of all its nodes' vectors. */
  method RunAggregation(t: Tree, aggregate: Point, ghost x: Scalar, ghost gw: nat, ghost dl: nat) returns (m: Grouped)
    requires aggregate == Mul(x, Base) && WireSafe(t, gw, dl)
    ensures Represents(x, m, t)
    decreases t, 1
  {
    ghost var sent;
    var datas, lengths;
    datas, lengths, sent := RunChildren(t, aggregate, x, gw, dl);
    m := t.data;
    RepresentsStart(x, t);
    for i := 0 to |lengths|
      invariant Represents(x, m, Upto(t, i))
    {
      var received := ChildFromBytes(datas[i], lengths[i]);
      ArrivedIntact(x, t, sent, datas, lengths, gw, dl, i);
      assert SentUp(x, t.children[i], sent[i]);
      var draws: nat -> nat -> Scalar := *;
      var next := MergeChild(m, received, aggregate, draws, x, sent[i].cm);
      RepresentsStep(x, t, i, m, sent[i].cm, next);
      m := next;
    }
    RepresentsEnd(x, t, m);
  }

  /** The children's messages: data in arrival order, lengths in their own arrival order. */
  method RunChildren(t: Tree, aggregate: Point, ghost x: Scalar, ghost gw: nat, ghost dl: nat)
    returns (datas: seq<seq<byte>>, lengths: seq<EntryLengths>, ghost sent: seq<Message>)
    requires aggregate == Mul(x, Base) && WireSafe(t, gw, dl)
    ensures |sent| == |t.children| && AllSentUp(x, t.children, sent) && Arrived(sent, t.lengthOrder, datas, lengths)
    decreases t, 0
  {
    var sentLengths: seq<EntryLengths> := [];
    datas, sent := [], [];
    for i := 0 to |t.children|
      invariant |sent| == i && Collected(x, t.children, sent, datas, sentLengths)
    {
      ForestSafeAt(t.children, gw, dl, i);
      var cm := RunAggregation(t.children[i], aggregate, x, gw, dl);
      var data, l;
      ghost var message;
      data, l, message := SendUp(cm, t.children[i], x);
      CollectedNext(x, t.children, sent, datas, sentLengths, message);
      sentLengths, datas, sent := sentLengths + [l], datas + [data], sent + [message];
    }
    CollectedArrive(x, t.children, sent, datas, sentLengths, t.lengthOrder);
    lengths := Select(sentLengths, t.lengthOrder);
  }

  // ---------- the same node with proofs on ----------

  lemma {:induction false} FoldOfListing(entries: seq<FilteredResponseDet>, m: Grouped, w: GroupingKey -> nat)
    requires Listing(entries, m) && EntryWidths(entries, w)
    ensures FoldInto(map[], entries, w) == m
  {
    if entries == [] {
      assert m.Keys == {};
    } else {
      var n := |entries| - 1;
      var k := entries[n].detTagGroupBy;
      DistinctPrefix(entries, n);
      var rest := m - {k};
      forall i | 0 <= i < n ensures entries[..n][i].detTagGroupBy in rest {
        TagListed(entries[..n], i);
      }
      FoldOfListing(entries[..n], rest, w);
      assert m == rest[k := entries[n].fr];
    }
  }

  lemma {:induction false} TagListed(entries: seq<FilteredResponseDet>, i: nat)
    requires i < |entries|
    ensures entries[i].detTagGroupBy in Tags(entries)
  {
    if i < |entries| - 1 {
      TagListed(entries[..|entries| - 1], i);
    }
  }

  lemma {:induction false} FoldConcat(m: Grouped, a: seq<FilteredResponseDet>, b: seq<FilteredResponseDet>, w: GroupingKey -> nat)
    requires MapWidths(m, w) && EntryWidths(a, w) && EntryWidths(b, w)
    ensures FoldInto(m, a + b, w) == FoldInto(FoldInto(m, a, w), b, w)
  {
    if b == [] {
      assert a + b == a;
    } else {
      var n := |b| - 1;
      assert (a + b)[..|a + b| - 1] == a + b[..n];
      FoldConcat(m, a, b[..n], w);
    }
  }

  /** Proof data for a list of entries, added to what is there. */
  method FormatAll(entries: seq<FilteredResponseDet>, ghost w: GroupingKey -> nat) returns (cvMap: ProofMap)
    requires EntryWidths(entries, w)
    ensures Formatted(cvMap, entries, w)
  {
    cvMap := map[];
    for i := 0 to |entries|
      invariant Formatted(cvMap, entries[..i], w)
    {
      assert entries[..i + 1] == entries[..i] + [entries[i]];
      var next := FormatAggregationProofs(entries[i], cvMap);
      FormattedStep(cvMap, entries[..i], entries[i], w, next);
      cvMap := next;
    }
    assert entries[..|entries|] == entries;
  }

  /** The first received entries are merged and in the proof data. */
  ghost predicate Ascending(own: Grouped, mine: seq<FilteredResponseDet>, received: seq<FilteredResponseDet>, i: nat, w: GroupingKey -> nat,
                            m: Grouped, cvMap: ProofMap)
    requires MapWidths(own, w) && EntryWidths(received, w)
  {
    i <= |received| && m == FoldInto(own, received[..i], w) && Formatted(cvMap, mine + received[..i], w)
  }

  lemma AscendStep(own: Grouped, mine: seq<FilteredResponseDet>, received: seq<FilteredResponseDet>, i: nat, w: GroupingKey -> nat,
                   m: Grouped, cvMap: ProofMap)
    requires MapWidths(own, w) && EntryWidths(received, w) && Ascending(own, mine, received, i, w, m, cvMap) && i < |received|
    ensures SameWidth(m, received[i])
    ensures forall cvMap' :: Formatted(cvMap', mine + received[..i] + [received[i]], w) ==>
      Ascending(own, mine, received, i + 1, w, Insert(m, received[i].detTagGroupBy, received[i].fr), cvMap')
  {
    assert received[..i + 1][..i] == received[..i];
    assert mine + received[..i + 1] == mine + received[..i] + [received[i]];
  }

  /** A node that keeps proof data: its own entries first, then every received entry before it is merged. */
  method AscendWithProofs(own: Grouped, mine: seq<FilteredResponseDet>, received: seq<FilteredResponseDet>,
                          aggregate: Point, ghost x: Scalar, ghost w: GroupingKey -> nat)
    returns (m: Grouped, cvMap: ProofMap)
    requires aggregate == Mul(x, Base) && MapWidths(own, w) && EntryWidths(mine, w) && EntryWidths(received, w)
    ensures m == FoldInto(own, received, w) && Formatted(cvMap, mine + received, w)
  {
    cvMap := FormatAll(mine, w);
    m := own;
    assert mine + received[..0] == mine;
    for i := 0 to |received|
      invariant Ascending(own, mine, received, i, w, m, cvMap)
    {
      var aggr := received[i];
      AscendStep(own, mine, received, i, w, m, cvMap);
      var next := FormatAggregationProofs(aggr, cvMap);
      FormattedStep(cvMap, mine + received[..i], aggr, w, next);
      cvMap := next;
      var draws: nat -> Scalar := *;
      m := MergeEntry(m, aggr, aggregate, draws, x);
    }
    assert received[..|received|] == received;
  }

  /** All columns of some groups, one group after the other. */
  function Columns(cvMap: ProofMap, ks: seq<GroupingKey>): seq<CipherVector>
    requires forall i :: 0 <= i < |ks| ==> ks[i] in cvMap
  {
    if ks == [] then [] else Columns(cvMap, ks[..|ks| - 1]) + cvMap[ks[|ks| - 1]]
  }

  /** All attributes of some groups, one group after the other. */
  function Results(m: Grouped, ks: seq<GroupingKey>): CipherVector
    requires forall i :: 0 <= i < |ks| ==> ks[i] in m
  {
    if ks == [] then [] else Results(m, ks[..|ks| - 1]) + m[ks[|ks| - 1]].aggregatingAttributes
  }

  /** The first groups' columns are collected beside the attributes they add up to. */
  ghost predicate CollectedProofs(cvMap: ProofMap, m: Grouped, ks: seq<GroupingKey>, data: seq<CipherVector>, dataRes: CipherVector) {
    && (forall i :: 0 <= i < |ks| ==> ks[i] in cvMap && ks[i] in m)
    && data == Columns(cvMap, ks) && dataRes == Results(m, ks)
    && |data| == |dataRes| && forall i :: 0 <= i < |data| ==> data[i] != [] && SumCipher(data[i]) == dataRes[i]
  }

  lemma CollectNext(cvMap: ProofMap, m: Grouped, ks: seq<GroupingKey>, k: GroupingKey, data: seq<CipherVector>, dataRes: CipherVector)
    requires CollectedProofs(cvMap, m, ks, data, dataRes) && k in cvMap && k in m && |m[k].aggregatingAttributes| == |cvMap[k]|
    requires forall j :: 0 <= j < |cvMap[k]| ==> cvMap[k][j] != [] && SumCipher(cvMap[k][j]) == m[k].aggregatingAttributes[j]
    ensures CollectedProofs(cvMap, m, ks + [k], data + cvMap[k], dataRes + m[k].aggregatingAttributes)
  {
    assert (ks + [k])[..|ks|] == ks;
  }

  /** All columns of all groups, in some iteration order, beside the aggregated attributes they should add up to. */
  method CollectProofs(cvMap: ProofMap, m: Grouped, ghost entries: seq<FilteredResponseDet>, ghost w: GroupingKey -> nat)
    returns (data: seq<CipherVector>, dataRes: CipherVector, ghost ks: seq<GroupingKey>)
    requires EntryWidths(entries, w) && Formatted(cvMap, entries, w) && m == FoldInto(map[], entries, w)
    ensures Lists(ks, cvMap.Keys) && CollectedProofs(cvMap, m, ks, data, dataRes)
  {
    var order := SurveyStore.KeysOf(cvMap);
    data, dataRes := [], [];
    for i := 0 to |order|
      invariant CollectedProofs(cvMap, m, order[..i], data, dataRes)
    {
      var k := order[i];
      GroupProvable(cvMap, m, entries, w, k);
      CollectNext(cvMap, m, order[..i], k, data, dataRes);
      assert order[..i + 1] == order[..i] + [k];
      data, dataRes := data + cvMap[k], dataRes + m[k].aggregatingAttributes;
    }
    assert order[..|order|] == order;
    ks := order;
  }

  lemma GroupProvable(cvMap: ProofMap, m: Grouped, entries: seq<FilteredResponseDet>, w: GroupingKey -> nat, k: GroupingKey)
    requires EntryWidths(entries, w) && Formatted(cvMap, entries, w) && m == FoldInto(map[], entries, w) && k in cvMap
    ensures k in m && |m[k].aggregatingAttributes| == |cvMap[k]|
    ensures forall j :: 0 <= j < |cvMap[k]| ==> cvMap[k][j] != [] && SumCipher(cvMap[k][j]) == m[k].aggregatingAttributes[j]
  {
    FoldIsColumnSum(map[], entries, w, k, 0);
    forall j | 0 <= j < |cvMap[k]| ensures cvMap[k][j] != [] && SumCipher(cvMap[k][j]) == m[k].aggregatingAttributes[j] {
      TaggedColumn(entries, w, k, j);
      ProofAcceptedIff(map[], entries, w, k, j);
    }
  }

  /** A proof for every column of every group, beside the aggregated attribute it should add up to. */
  ghost predicate ProvesAll(papList: seq<PublishedAggregationProof>, cvMap: ProofMap, m: Grouped, ks: seq<GroupingKey>) {
    && Lists(ks, cvMap.Keys) && (forall i :: 0 <= i < |ks| ==> ks[i] in cvMap && ks[i] in m)
    && |papList| == |Columns(cvMap, ks)| == |Results(m, ks)|
    && forall i :: 0 <= i < |papList| ==> papList[i] == PublishedAggregationProof(Columns(cvMap, ks)[i], Results(m, ks)[i])
  }

  /** With equal widths per group, a node proves every attribute of every group over its own data and all its children's,
      and the proofs are accepted, whatever share of them is checked. */
  method ProveNode(own: Grouped, received: seq<FilteredResponseDet>, aggregate: Point, percent: real,
                   ghost x: Scalar, ghost w: GroupingKey -> nat)
    returns (m: Grouped, papList: seq<PublishedAggregationProof>, accepted: bool,
             ghost mine: seq<FilteredResponseDet>, ghost columns: ProofMap, ghost ks: seq<GroupingKey>)
    requires aggregate == Mul(x, Base) && MapWidths(own, w) && EntryWidths(received, w) && 0.0 <= percent <= 1.0
    ensures m == FoldInto(own, received, w)
    ensures Listing(mine, own) && Formatted(columns, mine + received, w) && ProvesAll(papList, columns, m, ks)
    ensures accepted
  {
    var listed := ListMap(own);
    mine := listed;
    var cvMap;
    m, cvMap := AscendWithProofs(own, listed, received, aggregate, x, w);
    columns := cvMap;
    FoldOfListing(mine, own, w);
    FoldConcat(map[], mine, received, w);
    var data, dataRes;
    data, dataRes, ks := CollectProofs(cvMap, m, mine + received, w);
    papList := AggregationListProofCreation(data, dataRes);
    accepted := AggregationListProofVerification(papList, percent);
  }

  // ---------- when the two messages of a child are mixed up ----------

  /** Lengths and data are paired by list index, pairing[i] being the child whose lengths meet the data of child i. Every
      message arrives intact exactly when each nonempty one meets lengths that all its entries have. */
  lemma PairingIff(messages: seq<seq<FilteredResponseDet>>, sent: seq<EntryLengths>, pairing: seq<nat>)
    requires |pairing| == |messages| == |sent|
    requires forall i :: 0 <= i < |messages| ==> ByteTags(messages[i]) && pairing[i] < |sent|
    ensures (forall i :: 0 <= i < |messages| ==> BytesChild(ChildBytes(messages[i]), sent[pairing[i]]) == messages[i])
            <==> (forall i :: 0 <= i < |messages| && messages[i] != [] ==> Uniform(messages[i], sent[pairing[i]]) && EntrySize(sent[pairing[i]]) != 0)
  {
    forall i | 0 <= i < |messages|
      ensures BytesChild(ChildBytes(messages[i]), sent[pairing[i]]) == messages[i]
              <==> (messages[i] != [] ==> Uniform(messages[i], sent[pairing[i]]) && EntrySize(sent[pairing[i]]) != 0)
    {
      ChildRoundTripIff(messages[i], sent[pairing[i]]);
    }
  }

  /** The lengths a child sends beside its entries, when all nonempty children share one shape. */
  function ShapeSent(entries: seq<FilteredResponseDet>, l: EntryLengths): EntryLengths {
    if entries == [] then EntryLengths(0, 0, 0) else l
  }

  /** When all nonempty children share one shape, that is exactly when no nonempty child is given an empty child's zero
      lengths; otherwise its data vanish. */
  lemma SameShapePairingIff(messages: seq<seq<FilteredResponseDet>>, l: EntryLengths, pairing: seq<nat>)
    requires EntrySize(l) != 0 && |pairing| == |messages|
    requires forall i :: 0 <= i < |messages| ==> Uniform(messages[i], l) && ByteTags(messages[i]) && pairing[i] < |messages|
    ensures (forall i :: 0 <= i < |messages| ==> BytesChild(ChildBytes(messages[i]), ShapeSent(messages[pairing[i]], l)) == messages[i])
            <==> (forall i :: 0 <= i < |messages| && messages[i] != [] ==> messages[pairing[i]] != [])
  {
    forall i | 0 <= i < |messages|
      ensures BytesChild(ChildBytes(messages[i]), ShapeSent(messages[pairing[i]], l)) == messages[i]
              <==> (messages[i] != [] ==> messages[pairing[i]] != [])
    {
      ChildRoundTripIff(messages[i], ShapeSent(messages[pairing[i]], l));
    }
  }

  // ---------- checkData ----------

  const EMPTYKEY: GroupingKey := ""

  /** checkData: exactly one of the two inputs must be given; a simple list becomes one group under the empty key, and
      an empty list no group. */
  function CheckData(grouped: Option<Grouped>, simple: Option<CipherVector>): (r: Option<Grouped>)
    ensures r.Some? <==> grouped.Some? != simple.Some?
    ensures r.Some? && grouped.Some? ==> r == grouped
    ensures r.Some? && simple.Some? ==> forall k :: k in r.value <==> k == EMPTYKEY && simple.value != []
    ensures r.Some? && simple.Some? && simple.value != [] ==> r.value[EMPTYKEY] == FilteredResponse([], simple.value)
  {
    match (grouped, simple)
    case (Some(g), None) => Some(g)
    case (None, Some(s)) => Some(if s == [] then map[] else map[EMPTYKEY := FilteredResponse([], s)])
    case _ => None
  }

  /** RetrieveSimpleDataFromMap */
  function RetrieveSimpleData(m: Grouped): Option<CipherVector> {
    if |m| == 1 && EMPTYKEY in m then Some(m[EMPTYKEY].aggregatingAttributes) else None
  }

  /** A nonempty simple list comes back out of the grouped form it is turned into; an empty one does not. */
  lemma SimpleDataRoundTrip(s: CipherVector)
    ensures RetrieveSimpleData(CheckData(None, Some(s)).value) == if s == [] then None else Some(s)
  {
    var m := CheckData(None, Some(s)).value;
    if s != [] {
      assert m.Keys == {EMPTYKEY};
      assert |m| == |m.Keys| == 1;
    }
  }
}
