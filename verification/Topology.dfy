/** The trees the root builds over the roster, and what the servers' local results add up to over such a tree
    (services/service.go, protocols/collective_aggregation_protocol.go, protocols/key_switching_protocol.go). */
module Topology {
  import opened Group
  import opened Sums
  import opened ElGamal
  import opened Codec
  import opened Responses
  import opened Permutation
  import opened LocalAggregation
  import opened SurveyStore
  import opened Tagging
  import opened Query
  import Table
  import Aggregation
  import KeySwitch

  /** A node names its server by its position on the roster; the children are in the order in which their data messages
      arrive, and lengthOrder is the order in which the length messages of the aggregation do. */
  datatype Shape = Node(server: nat, children: seq<Shape>, lengthOrder: seq<nat>)

  function Members(t: Shape): seq<nat> {
    [t.server] + ForestMembers(t.children)
  }

  function ForestMembers(ts: seq<Shape>): seq<nat> {
    if ts == [] then [] else ForestMembers(ts[..|ts| - 1]) + Members(ts[|ts| - 1])
  }

  predicate Within(t: Shape, n: nat) {
    t.server < n && ForestWithin(t.children, n)
  }

  predicate ForestWithin(ts: seq<Shape>, n: nat) {
    ts == [] || (ForestWithin(ts[..|ts| - 1], n) && Within(ts[|ts| - 1], n))
  }

  predicate MembersBelow(ms: seq<nat>, n: nat) {
    forall i :: 0 <= i < |ms| ==> ms[i] < n
  }

  lemma {:induction false} WithinIff(t: Shape, n: nat)
    ensures Within(t, n) <==> MembersBelow(Members(t), n)
    decreases t
  {
    ForestWithinIff(t.children, n);
    assert Members(t)[0] == t.server && Members(t)[1..] == ForestMembers(t.children);
    BelowConcat([t.server], ForestMembers(t.children), n);
  }

  lemma {:induction false} ForestWithinIff(ts: seq<Shape>, n: nat)
    ensures ForestWithin(ts, n) <==> MembersBelow(ForestMembers(ts), n)
    decreases ts
  {
    if ts != [] {
      ForestWithinIff(ts[..|ts| - 1], n);
      WithinIff(ts[|ts| - 1], n);
      BelowConcat(ForestMembers(ts[..|ts| - 1]), Members(ts[|ts| - 1]), n);
    }
  }

  lemma BelowConcat(a: seq<nat>, b: seq<nat>, n: nat)
    ensures MembersBelow(a + b, n) <==> MembersBelow(a, n) && MembersBelow(b, n)
  {
    if MembersBelow(a + b, n) {
      forall i | 0 <= i < |a| ensures a[i] < n {
        assert (a + b)[i] == a[i];
      }
      forall i | 0 <= i < |b| ensures b[i] < n {
        assert (a + b)[|a| + i] == b[i];
      }
    }
  }

  /** Every server stands on the tree exactly once. */
  predicate Spans(t: Shape, n: nat) {
    IsPermutation(Members(t), n)
  }

  lemma SpansWithin(t: Shape, n: nat)
    requires Spans(t, n)
    ensures Within(t, n)
  {
    PermutationRange(Members(t), n);
    WithinIff(t, n);
  }

  // ---------- collective aggregation ----------

  /** The aggregation tree in which every node holds its server's local map. */
  function LocalTree(t: Shape, locals: seq<Grouped>): Aggregation.Tree
    requires Within(t, |locals|)
    decreases t
  {
    Aggregation.Node(locals[t.server], LocalForest(t.children, locals), t.lengthOrder)
  }

  function LocalForest(ts: seq<Shape>, locals: seq<Grouped>): (r: seq<Aggregation.Tree>)
    requires ForestWithin(ts, |locals|)
    ensures |r| == |ts|
    decreases ts
  {
    if ts == [] then [] else LocalForest(ts[..|ts| - 1], locals) + [LocalTree(ts[|ts| - 1], locals)]
  }

  /** The rows of some servers, one after the other. */
  function Gather<K>(ms: seq<nat>, tables: seq<seq<Table.Row<K>>>): seq<Table.Row<K>>
    requires MembersBelow(ms, |tables|)
  {
    if ms == [] then [] else Gather(ms[..|ms| - 1], tables) + tables[ms[|ms| - 1]]
  }

  lemma {:induction false} GatherConcat<K>(a: seq<nat>, b: seq<nat>, tables: seq<seq<Table.Row<K>>>)
    requires MembersBelow(a, |tables|) && MembersBelow(b, |tables|)
    ensures MembersBelow(a + b, |tables|) && Gather(a + b, tables) == Gather(a, tables) + Gather(b, tables)
  {
    if b == [] {
      assert a + b == a;
    } else {
      assert (a + b)[..|a + b| - 1] == a + b[..|b| - 1];
      GatherConcat(a, b[..|b| - 1], tables);
    }
  }

  lemma GatherOne<K>(i: nat, tables: seq<seq<Table.Row<K>>>)
    requires i < |tables|
    ensures Gather([i], tables) == tables[i]
  {
    assert [i][..0] == [];
  }

  lemma {:induction false} GatherMultiset<K>(a: seq<nat>, b: seq<nat>, tables: seq<seq<Table.Row<K>>>)
    requires MembersBelow(a, |tables|) && MembersBelow(b, |tables|) && multiset(a) == multiset(b)
    ensures multiset(Gather(a, tables)) == multiset(Gather(b, tables))
    decreases |a|
  {
    if a == [] {
      assert |multiset(b)| == 0;
      assert b == [];
    } else {
      assert a[0] in multiset(b);
      var k :| 0 <= k < |b| && b[k] == a[0];
      GatherMultiset(Without(a, 0), Without(b, k), tables);
      GatherWithout(a, 0, tables);
      GatherWithout(b, k, tables);
    }
  }

  lemma GatherWithout<K>(a: seq<nat>, k: nat, tables: seq<seq<Table.Row<K>>>)
    requires k < |a| && MembersBelow(a, |tables|)
    ensures MembersBelow(Without(a, k), |tables|)
    ensures multiset(Gather(a, tables)) == multiset(Gather(Without(a, k), tables)) + multiset(tables[a[k]])
  {
    assert a == a[..k] + [a[k]] + a[k + 1..];
    GatherConcat(a[..k], [a[k]], tables);
    GatherConcat(a[..k] + [a[k]], a[k + 1..], tables);
    GatherConcat(a[..k], a[k + 1..], tables);
    GatherOne(a[k], tables);
  }

  /** Every server's local map holds the grouped sums of its table. */
  ghost predicate AllTally(x: Scalar, locals: seq<Grouped>, tables: seq<seq<Table.Row<GroupingKey>>>) {
    |locals| == |tables| && forall i :: 0 <= i < |locals| ==> Table.Tallies(OpenedMap(x, locals[i]), tables[i])
  }

  lemma OpenedIsGet(x: Scalar, m: Grouped, k: GroupingKey)
    ensures Aggregation.Opened(x, m, k) == Table.Get(OpenedMap(x, m), k)
  {
  }

  lemma {:induction false} TreeTotals(x: Scalar, t: Shape, locals: seq<Grouped>, tables: seq<seq<Table.Row<GroupingKey>>>, k: GroupingKey, c: nat)
    requires Within(t, |locals|) && AllTally(x, locals, tables)
    ensures MembersBelow(Members(t), |tables|)
    ensures Aggregation.Has(LocalTree(t, locals), k) <==> Table.Has(Gather(Members(t), tables), k)
    ensures Aggregation.Total(x, LocalTree(t, locals), k, c) == Table.Total(Gather(Members(t), tables), k, c)
    decreases t
  {
    WithinIff(t, |locals|);
    ForestTotals(x, t.children, locals, tables, k, c);
    GatherConcat([t.server], ForestMembers(t.children), tables);
    GatherOne(t.server, tables);
    Table.TotalConcat(tables[t.server], Gather(ForestMembers(t.children), tables), k, c);
    Table.HasConcat(tables[t.server], Gather(ForestMembers(t.children), tables), k);
    OpenedIsGet(x, locals[t.server], k);
  }

  lemma {:induction false} ForestTotals(x: Scalar, ts: seq<Shape>, locals: seq<Grouped>, tables: seq<seq<Table.Row<GroupingKey>>>,
                                        k: GroupingKey, c: nat)
    requires ForestWithin(ts, |locals|) && AllTally(x, locals, tables)
    ensures MembersBelow(ForestMembers(ts), |tables|)
    ensures Aggregation.ForestHas(LocalForest(ts, locals), k) <==> Table.Has(Gather(ForestMembers(ts), tables), k)
    ensures Aggregation.ForestTotal(x, LocalForest(ts, locals), k, c) == Table.Total(Gather(ForestMembers(ts), tables), k, c)
    decreases ts
  {
    ForestWithinIff(ts, |locals|);
    if ts != [] {
      var n := |ts| - 1;
      ForestTotals(x, ts[..n], locals, tables, k, c);
      TreeTotals(x, ts[n], locals, tables, k, c);
      ForestLast(ts, locals);
      GatherConcat(ForestMembers(ts[..n]), Members(ts[n]), tables);
      Table.TotalConcat(Gather(ForestMembers(ts[..n]), tables), Gather(Members(ts[n]), tables), k, c);
      Table.HasConcat(Gather(ForestMembers(ts[..n]), tables), Gather(Members(ts[n]), tables), k);
    }
  }

  lemma ForestLast(ts: seq<Shape>, locals: seq<Grouped>)
    requires ts != [] && ForestWithin(ts, |locals|)
    ensures var f, n := LocalForest(ts, locals), |ts| - 1;
            f[..n] == LocalForest(ts[..n], locals) && f[n] == LocalTree(ts[n], locals)
  {
  }

  // ---------- shapes on the wire ----------

  ghost predicate AllRight(servers: seq<Server>, q: SurveyQuery, locals: seq<Grouped>) {
    forall i :: 0 <= i < |locals| ==> RightMap(servers, q, locals[i])
  }

  function KeyLength(q: SurveyQuery): nat {
    |q.groupBy| * (2 * POINT_LEN)
  }

  lemma {:induction false} HexIsByteString(b: seq<byte>)
    ensures IsByteString(Hex(b))
  {
    if b != [] {
      HexIsByteString(b[1..]);
      assert IsByteString(HEX);
    }
  }

  lemma {:induction false} DetKeyIsByteString(points: seq<Point>)
    ensures IsByteString(DetKey(points))
  {
    if points != [] {
      HexIsByteString(PointBytes(points[0]));
      DetKeyIsByteString(points[1..]);
    }
  }

  /** The grouping keys of one survey are byte strings of one length. */
  lemma RightKeyShape(servers: seq<Server>, q: SurveyQuery, k: GroupingKey, fr: FilteredResponse)
    requires RightEntry(servers, q, k, fr)
    ensures |k| == KeyLength(q) && IsByteString(k)
  {
    var points := TagPoints(servers, OpenVector(CollectiveKey(servers), fr.groupByEnc));
    DetKeyLength(points);
    DetKeyIsByteString(points);
  }

  lemma RightMapShaped(servers: seq<Server>, q: SurveyQuery, m: Grouped)
    requires RightMap(servers, q, m)
    ensures Aggregation.EntriesShaped(m, |q.groupBy|, KeyLength(q))
  {
    forall k | k in m ensures |m[k].groupByEnc| == |q.groupBy| && |k| == KeyLength(q) && IsByteString(k) {
      RightKeyShape(servers, q, k, m[k]);
    }
  }

  /** Every group of a subtree has the width of the query. */
  lemma {:induction false} TreeWidth(servers: seq<Server>, q: SurveyQuery, t: Shape, locals: seq<Grouped>, k: GroupingKey)
    requires Within(t, |locals|) && AllRight(servers, q, locals)
    ensures Aggregation.Width(LocalTree(t, locals), k) == if Aggregation.Has(LocalTree(t, locals), k) then |q.sum| else 0
    decreases t
  {
    ForestTreeWidth(servers, q, t.children, locals, k);
    if k in locals[t.server] {
      assert RightEntry(servers, q, k, locals[t.server][k]);
    }
  }

  lemma {:induction false} ForestTreeWidth(servers: seq<Server>, q: SurveyQuery, ts: seq<Shape>, locals: seq<Grouped>, k: GroupingKey)
    requires ForestWithin(ts, |locals|) && AllRight(servers, q, locals)
    ensures Aggregation.ForestWidth(LocalForest(ts, locals), k) == if Aggregation.ForestHas(LocalForest(ts, locals), k) then |q.sum| else 0
    decreases ts
  {
    if ts != [] {
      ForestTreeWidth(servers, q, ts[..|ts| - 1], locals, k);
      TreeWidth(servers, q, ts[|ts| - 1], locals, k);
      ForestLast(ts, locals);
    }
  }

  /** A query that groups or sums something sends entries of nonzero size. */
  predicate AsksSomething(q: SurveyQuery) {
    |q.groupBy| + |q.sum| > 0
  }

  lemma TreeUniform(servers: seq<Server>, q: SurveyQuery, t: Shape, locals: seq<Grouped>)
    requires Within(t, |locals|) && AllRight(servers, q, locals) && AsksSomething(q)
    ensures Aggregation.UniformWidth(LocalTree(t, locals), |q.groupBy|, KeyLength(q))
  {
    forall k | Aggregation.Has(LocalTree(t, locals), k) ensures Aggregation.Width(LocalTree(t, locals), k) == |q.sum| {
      TreeWidth(servers, q, t, locals, k);
    }
    PointLenPositive();
    SizePositive(|q.groupBy|, |q.sum|, KeyLength(q));
  }

  lemma SizePositive(g: nat, w: nat, dl: nat)
    requires g + w > 0
    ensures EntrySize(EntryLengths(g, w, dl)) != 0
  {
    PointLenPositive();
    MulMonotone(if g > 0 then 1 else 0, g, CIPHER_LEN);
    MulMonotone(if w > 0 then 1 else 0, w, CIPHER_LEN);
  }

  // ---------- length messages on the tree ----------

  /** Some of these servers is among the given ones. */
  predicate Meets(ms: seq<nat>, servers: set<nat>) {
    exists i :: 0 <= i < |ms| && ms[i] in servers
  }

  /** At every node, the data of a subtree with a group to send meet the lengths of a subtree that has one too; busy are
      the servers that have a group. */
  predicate WellPaired(t: Shape, busy: set<nat>) {
    && IsPermutation(t.lengthOrder, |t.children|) && |t.lengthOrder| == |t.children|
    && (forall i :: 0 <= i < |t.children| && t.lengthOrder[i] < |t.children| && Meets(Members(t.children[i]), busy) ==>
          Meets(Members(t.children[t.lengthOrder[i]]), busy))
    && ForestWellPaired(t.children, busy)
  }

  predicate ForestWellPaired(ts: seq<Shape>, busy: set<nat>) {
    ts == [] || (ForestWellPaired(ts[..|ts| - 1], busy) && WellPaired(ts[|ts| - 1], busy))
  }

  function BusyServers<K>(tables: seq<seq<Table.Row<K>>>): set<nat> {
    set i: nat | i < |tables| && tables[i] != []
  }

  lemma {:induction false} GatherSome<K>(ms: seq<nat>, tables: seq<seq<Table.Row<K>>>)
    requires MembersBelow(ms, |tables|)
    ensures Meets(ms, BusyServers(tables)) <==> Gather(ms, tables) != []
  {
    if ms != [] {
      GatherSome(ms[..|ms| - 1], tables);
      MeetsLast(ms, BusyServers(tables));
    }
  }

  lemma MeetsLast(ms: seq<nat>, servers: set<nat>)
    requires ms != []
    ensures Meets(ms, servers) <==> Meets(ms[..|ms| - 1], servers) || ms[|ms| - 1] in servers
  {
    var n := |ms| - 1;
    if Meets(ms[..n], servers) {
      var i :| 0 <= i < n && ms[..n][i] in servers;
      assert ms[i] in servers;
    }
  }

  lemma HasSome<K(!new)>(rows: seq<Table.Row<K>>)
    ensures rows != [] <==> exists k :: Table.Has(rows, k)
  {
    if rows != [] {
      assert Table.Has(rows, rows[0].key);
    }
  }

  lemma SubtreeSends(x: Scalar, t: Shape, locals: seq<Grouped>, tables: seq<seq<Table.Row<GroupingKey>>>)
    requires Within(t, |locals|) && AllTally(x, locals, tables)
    ensures Meets(Members(t), BusyServers(tables)) <==> Aggregation.HasSome(LocalTree(t, locals))
  {
    WithinIff(t, |locals|);
    GatherSome(Members(t), tables);
    HasSome(Gather(Members(t), tables));
    if Meets(Members(t), BusyServers(tables)) {
      var k :| Table.Has(Gather(Members(t), tables), k);
      TreeTotals(x, t, locals, tables, k, 0);
      assert Aggregation.Has(LocalTree(t, locals), k);
    } else {
      forall k ensures !Aggregation.Has(LocalTree(t, locals), k) {
        TreeTotals(x, t, locals, tables, k, 0);
      }
    }
  }

  /** The lengths of one subtree do for another's data exactly when it has a group or the other has none. */
  lemma LengthsDoIff(servers: seq<Server>, q: SurveyQuery, child: Shape, other: Shape, locals: seq<Grouped>,
                     tables: seq<seq<Table.Row<GroupingKey>>>)
    requires Within(child, |locals|) && Within(other, |locals|)
    requires AllRight(servers, q, locals) && AllTally(CollectiveKey(servers), locals, tables)
    ensures Aggregation.LengthsServe(LocalTree(child, locals), LocalTree(other, locals))
            <==> (Meets(Members(child), BusyServers(tables)) ==> Meets(Members(other), BusyServers(tables)))
  {
    SubtreeSends(CollectiveKey(servers), child, locals, tables);
    SubtreeSends(CollectiveKey(servers), other, locals, tables);
    SubtreeWidth(servers, q, child, locals);
    SubtreeWidth(servers, q, other, locals);
    Aggregation.LengthsServeIff(LocalTree(child, locals), LocalTree(other, locals), |q.sum|);
  }

  lemma SubtreeWidth(servers: seq<Server>, q: SurveyQuery, t: Shape, locals: seq<Grouped>)
    requires Within(t, |locals|) && AllRight(servers, q, locals)
    ensures Aggregation.AllWide(LocalTree(t, locals), |q.sum|)
  {
    forall k | Aggregation.Has(LocalTree(t, locals), k) ensures Aggregation.Width(LocalTree(t, locals), k) == |q.sum| {
      TreeWidth(servers, q, t, locals, k);
    }
  }

  lemma {:induction false} ForestAt(ts: seq<Shape>, locals: seq<Grouped>, j: nat)
    requires ForestWithin(ts, |locals|) && j < |ts|
    ensures Within(ts[j], |locals|) && LocalForest(ts, locals)[j] == LocalTree(ts[j], locals)
    decreases |ts|
  {
    if j < |ts| - 1 {
      ForestAt(ts[..|ts| - 1], locals, j);
    }
  }

  lemma NodePaired(servers: seq<Server>, q: SurveyQuery, t: Shape, locals: seq<Grouped>, tables: seq<seq<Table.Row<GroupingKey>>>)
    requires Within(t, |locals|) && AllRight(servers, q, locals) && AllTally(CollectiveKey(servers), locals, tables)
    requires WellPaired(t, BusyServers(tables))
    ensures Aggregation.Paired(LocalForest(t.children, locals), t.lengthOrder)
  {
    PermutationRange(t.lengthOrder, |t.children|);
    var forest := LocalForest(t.children, locals);
    forall i | 0 <= i < |forest| ensures Aggregation.LengthsServe(forest[i], forest[t.lengthOrder[i]]) {
      var j := t.lengthOrder[i];
      ForestAt(t.children, locals, i);
      ForestAt(t.children, locals, j);
      LengthsDoIff(servers, q, t.children[i], t.children[j], locals, tables);
    }
  }

  /** The local results of all servers, ready to be collected over the tree. */
  ghost predicate Collectable(servers: seq<Server>, q: SurveyQuery, t: Shape, locals: seq<Grouped>, tables: seq<seq<Table.Row<GroupingKey>>>) {
    && Within(t, |locals|) && AllRight(servers, q, locals) && AllTally(CollectiveKey(servers), locals, tables)
    && AsksSomething(q) && WellPaired(t, BusyServers(tables))
  }

  ghost predicate ForestCollectable(servers: seq<Server>, q: SurveyQuery, ts: seq<Shape>, locals: seq<Grouped>,
                                    tables: seq<seq<Table.Row<GroupingKey>>>) {
    && ForestWithin(ts, |locals|) && AllRight(servers, q, locals) && AllTally(CollectiveKey(servers), locals, tables)
    && AsksSomething(q) && ForestWellPaired(ts, BusyServers(tables))
  }

  lemma {:induction false} TreeSafe(servers: seq<Server>, q: SurveyQuery, t: Shape, locals: seq<Grouped>, tables: seq<seq<Table.Row<GroupingKey>>>)
    requires Collectable(servers, q, t, locals, tables)
    ensures Aggregation.WireSafe(LocalTree(t, locals), |q.groupBy|, KeyLength(q))
    decreases t
  {
    RightMapShaped(servers, q, locals[t.server]);
    ForestIsSafe(servers, q, t.children, locals, tables);
    NodePaired(servers, q, t, locals, tables);
  }

  lemma {:induction false} ForestIsSafe(servers: seq<Server>, q: SurveyQuery, ts: seq<Shape>, locals: seq<Grouped>,
                                        tables: seq<seq<Table.Row<GroupingKey>>>)
    requires ForestCollectable(servers, q, ts, locals, tables)
    ensures Aggregation.ForestSafe(LocalForest(ts, locals), |q.groupBy|, KeyLength(q))
    decreases ts
  {
    if ts != [] {
      ForestIsSafe(servers, q, ts[..|ts| - 1], locals, tables);
      TreeSafe(servers, q, ts[|ts| - 1], locals, tables);
      TreeUniform(servers, q, ts[|ts| - 1], locals);
      ForestLast(ts, locals);
    }
  }

  /** An encrypted group found anywhere on the tree belongs under its key. */
  lemma {:induction false} TreeGroups(servers: seq<Server>, q: SurveyQuery, t: Shape, locals: seq<Grouped>, k: GroupingKey, g: CipherVector)
    requires Within(t, |locals|) && AllRight(servers, q, locals) && Aggregation.HasGroup(LocalTree(t, locals), k, g)
    ensures |g| == |q.groupBy| && k == GroupTag(servers, OpenVector(CollectiveKey(servers), g))
    decreases t
  {
    if k in locals[t.server] && locals[t.server][k].groupByEnc == g {
      assert RightEntry(servers, q, k, locals[t.server][k]);
    } else {
      ForestGroups(servers, q, t.children, locals, k, g);
    }
  }

  lemma {:induction false} ForestGroups(servers: seq<Server>, q: SurveyQuery, ts: seq<Shape>, locals: seq<Grouped>, k: GroupingKey, g: CipherVector)
    requires ForestWithin(ts, |locals|) && AllRight(servers, q, locals) && Aggregation.ForestHasGroup(LocalForest(ts, locals), k, g)
    ensures |g| == |q.groupBy| && k == GroupTag(servers, OpenVector(CollectiveKey(servers), g))
    decreases ts
  {
    ForestLast(ts, locals);
    if Aggregation.ForestHasGroup(LocalForest(ts[..|ts| - 1], locals), k, g) {
      ForestGroups(servers, q, ts[..|ts| - 1], locals, k, g);
    } else {
      TreeGroups(servers, q, ts[|ts| - 1], locals, k, g);
    }
  }

  /** Collective aggregation over any tree: the root's map holds the grouped sums of all the servers' tables together. */
  method Aggregate(t: Shape, locals: seq<Grouped>, aggregate: Point, q: SurveyQuery, ghost servers: seq<Server>,
                   ghost tables: seq<seq<Table.Row<GroupingKey>>>)
    returns (m: Grouped)
    requires Collectable(servers, q, t, locals, tables) && aggregate == Mul(CollectiveKey(servers), Base)
    ensures MembersBelow(Members(t), |tables|)
    ensures Table.Tallies(OpenedMap(CollectiveKey(servers), m), Gather(Members(t), tables))
    ensures RightMap(servers, q, m)
  {
    TreeSafe(servers, q, t, locals, tables);
    m := Aggregation.RunAggregation(LocalTree(t, locals), aggregate, CollectiveKey(servers), |q.groupBy|, KeyLength(q));
    RepresentsTallies(CollectiveKey(servers), t, locals, tables, m);
    RepresentsRight(servers, q, t, locals, m);
  }

  lemma RepresentsTallies(x: Scalar, t: Shape, locals: seq<Grouped>, tables: seq<seq<Table.Row<GroupingKey>>>, m: Grouped)
    requires Within(t, |locals|) && AllTally(x, locals, tables) && Aggregation.Represents(x, m, LocalTree(t, locals))
    ensures MembersBelow(Members(t), |tables|)
    ensures Table.Tallies(OpenedMap(x, m), Gather(Members(t), tables))
  {
    WithinIff(t, |locals|);
    forall k ensures k in m <==> Table.Has(Gather(Members(t), tables), k) {
      TreeTotals(x, t, locals, tables, k, 0);
    }
    forall k, c: nat ensures Table.At(Table.Get(OpenedMap(x, m), k), c) == Table.Total(Gather(Members(t), tables), k, c) {
      TreeTotals(x, t, locals, tables, k, c);
      OpenedIsGet(x, m, k);
      assert Table.At(Aggregation.Opened(x, m, k), c) == Aggregation.Total(x, LocalTree(t, locals), k, c);
    }
  }

  lemma RepresentsRight(servers: seq<Server>, q: SurveyQuery, t: Shape, locals: seq<Grouped>, m: Grouped)
    requires Within(t, |locals|) && AllRight(servers, q, locals)
    requires Aggregation.Represents(CollectiveKey(servers), m, LocalTree(t, locals))
    ensures RightMap(servers, q, m)
  {
    var x := CollectiveKey(servers);
    forall k | k in m ensures RightEntry(servers, q, k, m[k]) {
      TreeGroups(servers, q, t, locals, k, m[k].groupByEnc);
      TreeWidth(servers, q, t, locals, k);
      assert |Aggregation.Opened(x, m, k)| == Aggregation.Width(LocalTree(t, locals), k);
    }
  }

  // ---------- key switching ----------

  /** Some arrival order of k messages. */
  method DrawOrder(k: nat) returns (pi: seq<nat>)
    ensures IsPermutation(pi, k)
  {
    var stream: seq<nat> := [];
    while |stream| < k
      invariant |stream| <= k
    {
      var r: int := *;
      stream := stream + [if r < 0 then -r else r];
    }
    pi := RandomPermutation(k, stream);
  }

  /** What server and ciphertext numbers are drawn scalars for. */
  type Draws = (nat, nat) -> Scalar

  /** The scalars some servers draw for ciphertext i. */
  function Drawn(draws: Draws, ms: seq<nat>, i: nat): (r: seq<Scalar>)
    ensures |r| == |ms| && forall m :: 0 <= m < |ms| ==> r[m] == draws(ms[m], i)
  {
    seq(|ms|, m requires 0 <= m < |ms| => draws(ms[m], i))
  }

  ghost predicate TreeDrew(kt: KeySwitch.Tree, draws: Draws, ms: seq<nat>, n: nat) {
    KeySwitch.Ready(kt, n) && forall i :: 0 <= i < n ==> KeySwitch.TreeScalars(kt, n, i) == Drawn(draws, ms, i)
  }

  ghost predicate ForestDrew(kts: seq<KeySwitch.Tree>, draws: Draws, ms: seq<nat>, n: nat) {
    KeySwitch.ForestReady(kts, n) && forall i :: 0 <= i < n ==> KeySwitch.ForestScalars(kts, n, i) == Drawn(draws, ms, i)
  }

  lemma NodeDrew(kt: KeySwitch.Tree, draws: Draws, t: Shape, n: nat)
    requires KeySwitch.Ready(kt, n) && ForestDrew(kt.children, draws, ForestMembers(t.children), n)
    requires forall i :: 0 <= i < n ==> kt.vis[i] == draws(t.server, i)
    ensures TreeDrew(kt, draws, Members(t), n)
  {
    forall i | 0 <= i < n ensures KeySwitch.TreeScalars(kt, n, i) == Drawn(draws, Members(t), i) {
      assert Drawn(draws, Members(t), i) == [draws(t.server, i)] + Drawn(draws, ForestMembers(t.children), i);
    }
  }

  lemma ForestDrewMore(kts: seq<KeySwitch.Tree>, kt: KeySwitch.Tree, draws: Draws, before: seq<nat>, last: seq<nat>, n: nat)
    requires ForestDrew(kts, draws, before, n) && TreeDrew(kt, draws, last, n)
    ensures ForestDrew(kts + [kt], draws, before + last, n)
  {
    assert (kts + [kt])[..|kts|] == kts;
    forall i | 0 <= i < n ensures KeySwitch.ForestScalars(kts + [kt], n, i) == Drawn(draws, before + last, i) {
      assert Drawn(draws, before + last, i) == Drawn(draws, before, i) + Drawn(draws, last, i);
    }
  }

  /** The key-switching tree: every node with its own key and its own draws. */
  method KeyTree(t: Shape, keys: seq<Scalar>, draws: Draws, n: nat) returns (kt: KeySwitch.Tree)
    requires Within(t, |keys|)
    ensures TreeDrew(kt, draws, Members(t), n)
    ensures MembersBelow(Members(t), |keys|) && KeySwitch.TreeKeys(kt) == Select(keys, Members(t))
    decreases t
  {
    var vis := FirstOf((i: nat) => draws(t.server, i), n);
    var order := DrawOrder(|t.children|);
    var children := KeyForest(t.children, keys, draws, n);
    kt := KeySwitch.Node(keys[t.server], vis, children, order);
    NodeDrew(kt, draws, t, n);
    WithinIff(t, |keys|);
    assert Select(keys, Members(t)) == [keys[t.server]] + Select(keys, ForestMembers(t.children));
  }

  method KeyForest(ts: seq<Shape>, keys: seq<Scalar>, draws: Draws, n: nat) returns (kts: seq<KeySwitch.Tree>)
    requires ForestWithin(ts, |keys|)
    ensures |kts| == |ts| && ForestDrew(kts, draws, ForestMembers(ts), n)
    ensures MembersBelow(ForestMembers(ts), |keys|) && KeySwitch.ForestKeys(kts) == Select(keys, ForestMembers(ts))
    decreases ts
  {
    if ts == [] {
      return [];
    }
    var before := KeyForest(ts[..|ts| - 1], keys, draws, n);
    var last := KeyTree(ts[|ts| - 1], keys, draws, n);
    kts := before + [last];
    ForestDrewMore(before, last, draws, ForestMembers(ts[..|ts| - 1]), Members(ts[|ts| - 1]), n);
    assert kts[..|kts| - 1] == before;
    BelowConcat(ForestMembers(ts[..|ts| - 1]), Members(ts[|ts| - 1]), |keys|);
    assert Select(keys, ForestMembers(ts)) == Select(keys, ForestMembers(ts[..|ts| - 1])) + Select(keys, Members(ts[|ts| - 1]));
  }

  /** The scalars of all n servers for ciphertext i, added up in any order. */
  lemma AllDrawn(draws: Draws, ms: seq<nat>, n: nat, i: nat)
    requires IsPermutation(ms, n)
    ensures Sum(Drawn(draws, ms, i)) == Sum(Drawn(draws, Iota(n), i))
  {
    MapMultiset((m: nat) => draws(m, i), ms, Iota(n));
    assert Drawn(draws, ms, i) == Map((m: nat) => draws(m, i), ms);
    assert Drawn(draws, Iota(n), i) == Map((m: nat) => draws(m, i), Iota(n));
    SumMultiset(Drawn(draws, ms, i), Drawn(draws, Iota(n), i));
  }

  /** Every ciphertext encrypts, under the public key T and with the sum of what all n servers drew for it, what the given
      one opens to under x. */
  ghost predicate SwitchedBy(x: Scalar, target: CipherVector, T: Point, draws: Draws, n: nat, switched: CipherVector) {
    |switched| == |target|
    && forall i :: 0 <= i < |target| ==> switched[i] == EncryptPoint(T, Open(x, target[i]), Sum(Drawn(draws, Iota(n), i)))
  }

  /** Switching over a tree with every server on it once takes ciphertexts from the collective key to the target's. */
  method Switch(t: Shape, servers: seq<Server>, draws: Draws, target: CipherVector, targetPublicKey: Point, ghost y: Scalar)
    returns (switched: CipherVector)
    requires Spans(t, |servers|) && |target| < UINT32 && targetPublicKey == Mul(y, Base)
    ensures SwitchedBy(CollectiveKey(servers), target, targetPublicKey, draws, |servers|, switched)
    ensures OpenVector(y, switched) == OpenVector(CollectiveKey(servers), target)
  {
    SpansWithin(t, |servers|);
    var kt := KeyTree(t, Keys(servers), draws, |target|);
    PermutationKeeps(Keys(servers), Members(t));
    SumMultiset(KeySwitch.TreeKeys(kt), Keys(servers));
    switched := KeySwitch.RunKeySwitching(kt, target, targetPublicKey, y);
    forall i | 0 <= i < |target|
      ensures switched[i] == EncryptPoint(targetPublicKey, Open(CollectiveKey(servers), target[i]), Sum(Drawn(draws, Iota(|servers|), i)))
    {
      AllDrawn(draws, Members(t), |servers|, i);
    }
  }
}
