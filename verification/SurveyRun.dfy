/** A whole survey over all servers, from the data providers' messages to the delivered results
    (services/service.go). */
module SurveyRun {
  import opened Group
  import opened Sums
  import opened ElGamal
  import opened Codec
  import opened Options
  import opened Responses
  import opened Table
  import opened LocalAggregation
  import opened SurveyStore
  import opened Tagging
  import opened Shuffle
  import opened Layout
  import opened Query
  import opened DataProvider
  import opened Topology
  import opened Service

  /** The rings of the two protocols a server leads, as positions on the roster, and its own place on each. */
  datatype Rings = Rings(shuffleRing: seq<nat>, shuffleRoot: nat, tagRing: seq<nat>, tagRoot: nat)

  predicate RingsFit(r: Rings, n: nat) {
    IsPermutation(r.shuffleRing, n) && r.shuffleRoot < n && IsPermutation(r.tagRing, n) && r.tagRoot < n
  }

  // ---------- one server ----------

  /** The rows stored for the messages of a server's data providers. */
  function Uploaded(messages: seq<seq<DpResponseToSend>>): seq<DpResponse> {
    if messages == [] then [] else Uploaded(messages[..|messages| - 1]) + ParsedRows(messages[|messages| - 1])
  }

  method UploadAll(survey: Survey, messages: seq<seq<DpResponseToSend>>)
    requires survey.store.Contents() == NOTHING
    modifies survey.store`dpResponses, survey.store`dpResponsesAggr
    ensures survey.store.Contents() == After(Uploaded(messages), Names(survey.query))
  {
    for i := 0 to |messages|
      invariant survey.store.Contents() == After(Uploaded(messages[..i]), Names(survey.query))
    {
      assert messages[..i + 1][..i] == messages[..i];
      var ok := survey.PushData(messages[i], Uploaded(messages[..i]));
    }
    assert messages[..|messages|] == messages;
  }

  /** The rows of a server as the plaintext query sees them. */
  function PlainRows(servers: seq<Server>, q: SurveyQuery, messages: seq<seq<DpResponseToSend>>): seq<Row<GroupWhere>> {
    Meanings(CollectiveKey(servers), Uploaded(messages), Names(q))
  }

  /** The map holds the plaintext query's groups and sums over the rows. */
  ghost predicate Answers(servers: seq<Server>, q: SurveyQuery, m: Grouped, rows: seq<Row<GroupWhere>>) {
    RightMap(servers, q, m) && Tallies(OpenedMap(CollectiveKey(servers), m), Regroup(rows, Grouping(servers, q)))
  }

  lemma AnswersSame(servers: seq<Server>, q: SurveyQuery, m: Grouped, a: seq<Row<GroupWhere>>, b: seq<Row<GroupWhere>>)
    requires Answers(servers, q, m, a) && Same(a, b)
    ensures Answers(servers, q, m, b)
  {
    SameRegroup(a, b, Grouping(servers, q));
  }

  predicate Askable(q: SurveyQuery) {
    WellFormed(q) && AsksSomething(q) && RowWidth(q) < UINT32
  }

  ghost predicate Untouched(store: Store)
    reads store
  {
    store.Contents() == NOTHING && store.shuffledProcessResponses == [] && store.locAggregatedProcessResponse == map[]
    && store.groupedDeterministicFilteredResponses == map[]
  }

  method Permuted<T>(xs: seq<T>, pi: seq<nat>) returns (ys: seq<T>)
    requires IsPermutation(pi, |xs|)
    ensures (forall i :: 0 <= i < |pi| ==> pi[i] < |xs|) && ys == Select(xs, pi)
    ensures |ys| == |xs| && multiset(ys) == multiset(xs) && forall i :: 0 <= i < |ys| ==> ys[i] in xs
  {
    PermutationRange(pi, |xs|);
    PermutationKeeps(xs, pi);
    ys := Select(xs, pi);
  }

  lemma ServeReordered(tables: seq<seq<CipherVectorScalar>>, ys: seq<seq<CipherVectorScalar>>, q: SurveyQuery, h: Point)
    requires AllServe(tables, q, h) && forall i :: 0 <= i < |ys| ==> ys[i] in tables
    ensures AllServe(ys, q, h)
  {
    forall i | 0 <= i < |ys| ensures Serves(ys[i], q, h) {
      var j :| 0 <= j < |tables| && tables[j] == ys[i];
    }
  }

  /** What passes at one server: the rows it pulls, the rows it has after its shuffling circuit, and the matrices on the way. */
  datatype LocalRun = LocalRun(pulled: seq<ProcessResponse>, rows: seq<ProcessResponse>, stages: seq<Matrix>)

  /** The rows pulled are those stored for the messages; every server on the ring mixed them in its turn, with its own table
      and what it draws; and the map adds up those of the rows so obtained that the query selects. */
  ghost predicate RanLocally(servers: seq<Server>, q: SurveyQuery, messages: seq<seq<DpResponseToSend>>, rings: Rings,
                             tables: seq<seq<CipherVectorScalar>>, draws: nat -> Draw, h: Point, run: LocalRun, m: Grouped) {
    && (forall i :: 0 <= i < |rings.shuffleRing| ==> rings.shuffleRing[i] < |tables|) && rings.shuffleRoot < |rings.shuffleRing|
    && PulledFrom(run.pulled, After(Uploaded(messages), Names(q)))
    && (if run.pulled == [] then run.rows == []
        else MixedRows(run.pulled, run.rows, q, Select(tables, rings.shuffleRing), draws, rings.shuffleRoot, h, run.stages))
    && EntryWidths(SelectRows(servers, q, run.rows), SumWidth(q)) && m == FoldInto(map[], SelectRows(servers, q, run.rows), SumWidth(q))
  }

  /** So the map answers the query over the server's own rows. */
  ghost predicate RightLocally(servers: seq<Server>, q: SurveyQuery, messages: seq<seq<DpResponseToSend>>, rings: Rings,
                               tables: seq<seq<CipherVectorScalar>>, draws: nat -> Draw, h: Point, run: LocalRun, m: Grouped) {
    Answers(servers, q, m, PlainRows(servers, q, messages)) && RanLocally(servers, q, messages, rings, tables, draws, h, run, m)
  }

  /** One server: upload, shuffle around its ring, tag around its ring, filter and add up. */
  method RunLocal(survey: Survey, messages: seq<seq<DpResponseToSend>>, rings: Rings, servers: seq<Server>,
                  tables: seq<seq<CipherVectorScalar>>, draws: nat -> Draw, h: Point)
    returns (ghost run: LocalRun)
    requires Untouched(survey.store) && Askable(survey.query) && SecretsNonzero(servers)
    requires |tables| == |servers| && RingsFit(rings, |servers|)
    requires AllServe(tables, survey.query, h) && h == Mul(CollectiveKey(servers), Base)
    modifies survey`lengths, survey`targetOfSwitch, survey.store`dpResponses, survey.store`dpResponsesAggr
    modifies survey.store`shuffledProcessResponses, survey.store`locAggregatedProcessResponse
    ensures RightLocally(servers, survey.query, messages, rings, tables, draws, h, run, survey.store.locAggregatedProcessResponse)
  {
    ghost var x := CollectiveKey(servers);
    UploadAll(survey, messages);
    var order := Permuted(tables, rings.shuffleRing);
    ServeReordered(tables, order, survey.query, h);
    ghost var pulled, stages;
    pulled, stages := survey.ShufflingPhase(order, draws, rings.shuffleRoot, h, x, Uploaded(messages));
    run := LocalRun(pulled, survey.store.shuffledProcessResponses, stages);
    ghost var shuffled := OpenedRows(x, survey.store.shuffledProcessResponses);
    var ring := Permuted(servers, rings.tagRing);
    survey.TaggingPhase(ring, rings.tagRoot, servers);
    AnswersSame(servers, survey.query, survey.store.locAggregatedProcessResponse, shuffled, PlainRows(servers, survey.query, messages));
  }

  /** A server's own part, and the map it pulls for the collective aggregation. */
  method RunAndPull(survey: Survey, messages: seq<seq<DpResponseToSend>>, rings: Rings, servers: seq<Server>,
                    tables: seq<seq<CipherVectorScalar>>, draws: nat -> Draw, h: Point)
    returns (local: Grouped, ghost run: LocalRun)
    requires Untouched(survey.store) && Askable(survey.query) && SecretsNonzero(servers)
    requires |tables| == |servers| && RingsFit(rings, |servers|)
    requires AllServe(tables, survey.query, h) && h == Mul(CollectiveKey(servers), Base)
    modifies survey`lengths, survey`targetOfSwitch, survey.store`dpResponses, survey.store`dpResponsesAggr
    modifies survey.store`shuffledProcessResponses, survey.store`locAggregatedProcessResponse
    ensures RightLocally(servers, survey.query, messages, rings, tables, draws, h, run, local)
  {
    run := RunLocal(survey, messages, rings, servers, tables, draws, h);
    local := survey.store.PullLocallyAggregatedResponses();
  }

  // ---------- all servers ----------

  function AllPlain(servers: seq<Server>, q: SurveyQuery, data: seq<seq<seq<DpResponseToSend>>>): (r: seq<seq<Row<GroupWhere>>>)
    ensures |r| == |data| && forall i :: 0 <= i < |data| ==> r[i] == PlainRows(servers, q, data[i])
  {
    seq(|data|, i requires 0 <= i < |data| => PlainRows(servers, q, data[i]))
  }

  function Flatten<K>(tables: seq<seq<Row<K>>>): seq<Row<K>> {
    if tables == [] then [] else Flatten(tables[..|tables| - 1]) + tables[|tables| - 1]
  }

  function RegroupAll(tables: seq<seq<Row<GroupWhere>>>, h: GroupWhere -> Option<GroupingKey>): (r: seq<seq<Row<GroupingKey>>>)
    ensures |r| == |tables| && forall i :: 0 <= i < |tables| ==> r[i] == Regroup(tables[i], h)
  {
    seq(|tables|, i requires 0 <= i < |tables| => Regroup(tables[i], h))
  }

  lemma {:induction false} RegroupConcat(a: seq<Row<GroupWhere>>, b: seq<Row<GroupWhere>>, h: GroupWhere -> Option<GroupingKey>)
    ensures Regroup(a + b, h) == Regroup(a, h) + Regroup(b, h)
  {
    if b == [] {
      assert a + b == a;
    } else {
      assert (a + b)[..|a + b| - 1] == a + b[..|b| - 1];
      RegroupConcat(a, b[..|b| - 1], h);
    }
  }

  lemma {:induction false} RegroupFlatten(tables: seq<seq<Row<GroupWhere>>>, h: GroupWhere -> Option<GroupingKey>)
    ensures Flatten(RegroupAll(tables, h)) == Regroup(Flatten(tables), h)
  {
    if tables != [] {
      var n := |tables| - 1;
      RegroupFlatten(tables[..n], h);
      assert RegroupAll(tables, h)[..n] == RegroupAll(tables[..n], h);
      RegroupConcat(Flatten(tables[..n]), tables[n], h);
    }
  }

  lemma {:induction false} GatherAll<K>(tables: seq<seq<Row<K>>>, n: nat)
    requires n <= |tables|
    ensures MembersBelow(Iota(n), |tables|) && Gather(Iota(n), tables) == Flatten(tables[..n])
  {
    if n > 0 {
      GatherAll(tables, n - 1);
      assert Iota(n)[..n - 1] == Iota(n - 1);
      assert tables[..n][..n - 1] == tables[..n - 1];
    }
  }

  /** A tree with every server on it once gathers all rows. */
  lemma SpanningGather<K(!new)>(t: Shape, tables: seq<seq<Row<K>>>)
    requires Spans(t, |tables|)
    ensures MembersBelow(Members(t), |tables|) && Same(Gather(Members(t), tables), Flatten(tables))
  {
    PermutationRange(Members(t), |tables|);
    GatherAll(tables, |tables|);
    assert tables[..|tables|] == tables;
    GatherMultiset(Members(t), Iota(|tables|), tables);
    SameMultiset(Gather(Members(t), tables), Flatten(tables));
  }

  lemma TalliesSame(m: map<GroupingKey, seq<Point>>, a: seq<Row<GroupingKey>>, b: seq<Row<GroupingKey>>)
    requires Tallies(m, a) && Same(a, b)
    ensures Tallies(m, b)
  {
  }

  /** Local answers, gathered over a spanning tree, answer the query over all rows. */
  lemma GatheredAnswers(servers: seq<Server>, q: SurveyQuery, t: Shape, plain: seq<seq<Row<GroupWhere>>>, m: Grouped)
    requires Spans(t, |plain|) && RightMap(servers, q, m)
    requires MembersBelow(Members(t), |plain|)
    requires Tallies(OpenedMap(CollectiveKey(servers), m), Gather(Members(t), RegroupAll(plain, Grouping(servers, q))))
    ensures Answers(servers, q, m, Flatten(plain))
  {
    var tables := RegroupAll(plain, Grouping(servers, q));
    SpanningGather(t, tables);
    RegroupFlatten(plain, Grouping(servers, q));
    TalliesSame(OpenedMap(CollectiveKey(servers), m), Gather(Members(t), tables), Flatten(tables));
  }

  /** The groups of the answer are those of the selected rows. */
  lemma AnswerGroups(servers: seq<Server>, q: SurveyQuery, m: Grouped, rows: seq<Row<GroupWhere>>)
    requires Answers(servers, q, m, rows)
    ensures m.Keys == Groups(Regroup(rows, Grouping(servers, q)))
  {
    forall k ensures k in m <==> k in Groups(Regroup(rows, Grouping(servers, q))) {
      GroupHas(Regroup(rows, Grouping(servers, q)), k);
      assert k in m <==> k in OpenedMap(CollectiveKey(servers), m);
    }
  }

  /** What is drawn in a survey: by every server the scalars of its table's lines; in the circuit of every server what each
      node draws, in ring order; and for key switching. */
  datatype SurveyDraws = SurveyDraws(tables: nat -> nat -> nat -> Scalar, mixing: nat -> nat -> Draw, switching: Draws)

  /** The scalars of a table, line by line. */
  function StreamOf(draws: nat -> nat -> Scalar, lineSize: nat): (stream: seq<seq<Scalar>>)
    ensures |stream| == NBR_LINES && forall l :: 0 <= l < NBR_LINES ==> stream[l] == FirstOf(draws(l), lineSize)
  {
    seq(NBR_LINES, l requires 0 <= l < NBR_LINES => FirstOf(draws(l), lineSize))
  }

  /** The table is made under the collective key of the scalars drawn. */
  predicate TableDrawn(table: seq<CipherVectorScalar>, q: SurveyQuery, h: Point, draws: nat -> nat -> Scalar) {
    Serves(table, q, h) && |table| == NBR_LINES && forall l :: 0 <= l < NBR_LINES ==> table[l].s == FirstOf(draws(l), 2 * LineSize(q))
  }

  ghost predicate TablesDrawn(tables: seq<seq<CipherVectorScalar>>, q: SurveyQuery, h: Point, draws: nat -> nat -> nat -> Scalar) {
    forall i :: 0 <= i < |tables| ==> TableDrawn(tables[i], q, h, draws(i))
  }

  lemma DrawnServe(tables: seq<seq<CipherVectorScalar>>, q: SurveyQuery, h: Point, draws: nat -> nat -> nat -> Scalar)
    requires TablesDrawn(tables, q, h, draws)
    ensures AllServe(tables, q, h)
  {
    forall i | 0 <= i < |tables| ensures Serves(tables[i], q, h) {
      assert TableDrawn(tables[i], q, h, draws(i));
    }
  }

  /** Survey creation at every server: each precomputes its own table. */
  method CreateTables(q: SurveyQuery, n: nat, aggregate: Point, draws: nat -> nat -> nat -> Scalar) returns (tables: seq<seq<CipherVectorScalar>>)
    ensures |tables| == n && TablesDrawn(tables, q, aggregate, draws)
  {
    tables := [];
    while |tables| < n
      invariant |tables| <= n && TablesDrawn(tables, q, aggregate, draws)
    {
      var stream := StreamOf(draws(|tables|), 2 * LineSize(q));
      var table, _ := PrecomputationWritingForShuffling(false, None, q, aggregate, stream);
      assert TableDrawn(table, q, aggregate, draws(|tables|));
      tables := tables + [table];
    }
  }

  ghost predicate AnswersOwn(servers: seq<Server>, q: SurveyQuery, m: Grouped, messages: seq<seq<DpResponseToSend>>) {
    Answers(servers, q, m, PlainRows(servers, q, messages))
  }

  /** That a server ran as drawn, as a function of the server. */
  ghost function RanAt(servers: seq<Server>, q: SurveyQuery, data: seq<seq<seq<DpResponseToSend>>>, rings: seq<Rings>,
                       tables: seq<seq<CipherVectorScalar>>, draws: nat -> nat -> Draw, h: Point): (nat, LocalRun, Grouped) -> bool {
    (i: nat, run: LocalRun, m: Grouped) => i < |data| && i < |rings| && RanLocally(servers, q, data[i], rings[i], tables, draws(i), h, run, m)
  }

  /** What every server but the root did, each with its own draws. */
  ghost predicate OthersRan(servers: seq<Server>, q: SurveyQuery, root: nat, locals: seq<Grouped>, data: seq<seq<seq<DpResponseToSend>>>,
                            rings: seq<Rings>, tables: seq<seq<CipherVectorScalar>>, draws: nat -> nat -> Draw, h: Point, runs: seq<LocalRun>) {
    && |locals| == |runs| <= |data| == |rings|
    && var ran := RanAt(servers, q, data, rings, tables, draws, h);
       forall i :: 0 <= i < |runs| && i != root ==> ran(i, runs[i], locals[i])
  }

  lemma OneMoreRan(servers: seq<Server>, q: SurveyQuery, root: nat, locals: seq<Grouped>, data: seq<seq<seq<DpResponseToSend>>>,
                   rings: seq<Rings>, tables: seq<seq<CipherVectorScalar>>, draws: nat -> nat -> Draw, h: Point, runs: seq<LocalRun>,
                   local: Grouped, run: LocalRun)
    requires OthersRan(servers, q, root, locals, data, rings, tables, draws, h, runs) && |locals| < |data|
    requires |runs| != root ==> RanAt(servers, q, data, rings, tables, draws, h)(|runs|, run, local)
    ensures OthersRan(servers, q, root, locals + [local], data, rings, tables, draws, h, runs + [run])
  {
    MoreHold(RanAt(servers, q, data, rings, tables, draws, h), root, runs, run, locals, local);
  }

  lemma MoreHold<S, T>(p: (nat, S, T) -> bool, root: nat, a: seq<S>, s: S, b: seq<T>, t: T)
    requires |a| == |b| && (|a| != root ==> p(|a|, s, t))
    requires forall i :: 0 <= i < |a| && i != root ==> p(i, a[i], b[i])
    ensures forall i :: 0 <= i < |a| + 1 && i != root ==> p(i, (a + [s])[i], (b + [t])[i])
  {
  }

  ghost predicate OthersOwn(servers: seq<Server>, q: SurveyQuery, root: nat, locals: seq<Grouped>, data: seq<seq<seq<DpResponseToSend>>>) {
    |locals| <= |data| && forall i :: 0 <= i < |locals| && i != root ==> AnswersOwn(servers, q, locals[i], data[i])
  }

  lemma OneMoreOwn(servers: seq<Server>, q: SurveyQuery, root: nat, locals: seq<Grouped>, data: seq<seq<seq<DpResponseToSend>>>, local: Grouped)
    requires OthersOwn(servers, q, root, locals, data) && |locals| < |data|
    requires |locals| != root ==> AnswersOwn(servers, q, local, data[|locals|])
    ensures OthersOwn(servers, q, root, locals + [local], data)
  {
  }

  /** The local results of all servers but the root, whose place stays empty. */
  method RunOthers(q: SurveyQuery, servers: seq<Server>, root: nat, data: seq<seq<seq<DpResponseToSend>>>, rings: seq<Rings>,
                   tables: seq<seq<CipherVectorScalar>>, draws: nat -> nat -> Draw, h: Point)
    returns (locals: seq<Grouped>, ghost runs: seq<LocalRun>)
    requires Askable(q) && SecretsNonzero(servers) && |data| == |rings| == |tables| == |servers|
    requires forall i :: 0 <= i < |rings| ==> RingsFit(rings[i], |servers|)
    requires AllServe(tables, q, h) && h == Mul(CollectiveKey(servers), Base)
    ensures |locals| == |servers| && OthersOwn(servers, q, root, locals, data)
    ensures OthersRan(servers, q, root, locals, data, rings, tables, draws, h, runs)
  {
    locals, runs := [], [];
    for i := 0 to |servers|
      invariant |locals| == i && OthersOwn(servers, q, root, locals, data)
      invariant OthersRan(servers, q, root, locals, data, rings, tables, draws, h, runs)
    {
      var local: Grouped := map[];
      ghost var run := LocalRun([], [], []);
      if i != root {
        var survey := new Survey(q, servers[i].secret, tables[i]);
        local, run := RunAndPull(survey, data[i], rings[i], servers, tables, draws(i), h);
      }
      OneMoreOwn(servers, q, root, locals, data, local);
      OneMoreRan(servers, q, root, locals, data, rings, tables, draws, h, runs, local, run);
      locals, runs := locals + [local], runs + [run];
    }
  }

  ghost predicate AllOwn(servers: seq<Server>, q: SurveyQuery, locals: seq<Grouped>, data: seq<seq<seq<DpResponseToSend>>>) {
    |locals| == |data| == |servers| && forall i :: 0 <= i < |locals| ==> AnswersOwn(servers, q, locals[i], data[i])
  }

  /** All rows of all servers. */
  function AllRows(servers: seq<Server>, q: SurveyQuery, data: seq<seq<seq<DpResponseToSend>>>): seq<Row<GroupWhere>> {
    Flatten(AllPlain(servers, q, data))
  }

  /** The results, as many as there are groups among the selected rows, fit one key-switching message. */
  predicate Deliverable(servers: seq<Server>, q: SurveyQuery, data: seq<seq<seq<DpResponseToSend>>>) {
    FitMessage(|Groups(Regroup(AllRows(servers, q, data), Grouping(servers, q)))|, q)
  }

  /** Every server's table of keyed rows. */
  ghost function KeyedTables(servers: seq<Server>, q: SurveyQuery, data: seq<seq<seq<DpResponseToSend>>>): (r: seq<seq<Row<GroupingKey>>>)
    ensures |r| == |data|
  {
    RegroupAll(AllPlain(servers, q, data), Grouping(servers, q))
  }

  lemma LocalAnswers(servers: seq<Server>, q: SurveyQuery, locals: seq<Grouped>, data: seq<seq<seq<DpResponseToSend>>>)
    requires AllOwn(servers, q, locals, data)
    ensures AllRight(servers, q, locals) && AllTally(CollectiveKey(servers), locals, KeyedTables(servers, q, data))
  {
    forall i | 0 <= i < |locals|
      ensures RightMap(servers, q, locals[i])
           && Tallies(OpenedMap(CollectiveKey(servers), locals[i]), KeyedTables(servers, q, data)[i])
    {
      assert AnswersOwn(servers, q, locals[i], data[i]);
    }
  }

  /** The trees of the last two protocols. */
  datatype Trees = Trees(aggregation: Shape, switching: Shape)

  predicate TreesFit(trees: Trees, n: nat) {
    Spans(trees.aggregation, n) && Spans(trees.switching, n)
  }

  /** Over the aggregation tree, the data of a subtree with a selected row meet the lengths of one that has one too. */
  ghost predicate LengthsMeet(servers: seq<Server>, q: SurveyQuery, data: seq<seq<seq<DpResponseToSend>>>, t: Shape) {
    WellPaired(t, BusyServers(KeyedTables(servers, q, data)))
  }

  /** What the root's map is once the local answers are gathered. */
  lemma RootMap(servers: seq<Server>, q: SurveyQuery, t: Shape, data: seq<seq<seq<DpResponseToSend>>>, m: Grouped)
    requires Spans(t, |data|) && MembersBelow(Members(t), |data|) && Deliverable(servers, q, data)
    requires RightMap(servers, q, m) && Tallies(OpenedMap(CollectiveKey(servers), m), Gather(Members(t), KeyedTables(servers, q, data)))
    ensures Answers(servers, q, m, AllRows(servers, q, data)) && Switchable(servers, q, m)
  {
    GatheredAnswers(servers, q, t, AllPlain(servers, q, data), m);
    AnswerGroups(servers, q, m, AllRows(servers, q, data));
    assert |m| == |m.Keys|;
  }

  method GatherPhase(survey: Survey, servers: seq<Server>, locals: seq<Grouped>, ghost data: seq<seq<seq<DpResponseToSend>>>,
                     t: Shape, h: Point)
    requires Askable(survey.query) && AllOwn(servers, survey.query, locals, data) && Deliverable(servers, survey.query, data)
    requires Spans(t, |servers|) && LengthsMeet(servers, survey.query, data, t) && h == Mul(CollectiveKey(servers), Base)
    requires survey.store.groupedDeterministicFilteredResponses == map[]
    modifies survey.store`groupedDeterministicFilteredResponses
    ensures Answers(servers, survey.query, survey.store.groupedDeterministicFilteredResponses, AllRows(servers, survey.query, data))
    ensures Switchable(servers, survey.query, survey.store.groupedDeterministicFilteredResponses)
  {
    LocalAnswers(servers, survey.query, locals, data);
    SpansWithin(t, |servers|);
    survey.AggregationPhase(t, locals, h, servers, KeyedTables(servers, survey.query, data));
    RootMap(servers, survey.query, t, data, survey.store.groupedDeterministicFilteredResponses);
  }

  /** The responses are the groups and sums of the plaintext query over all rows, each group once, under the key of y, every
      ciphertext encrypted with the sum of what all servers drew for it. */
  ghost predicate Delivered(servers: seq<Server>, q: SurveyQuery, data: seq<seq<seq<DpResponseToSend>>>, y: Scalar, draws: Draws,
                            results: seq<FilteredResponse>) {
    exists m, ks ::
      && Answers(servers, q, m, AllRows(servers, q, data)) && Delivers(CollectiveKey(servers), y, m, ks, results)
      && SwitchedBy(CollectiveKey(servers), SwitchTargets(Values(ks, m)), Mul(y, Base), draws, |servers|, SwitchTargets(results))
  }

  /** The root's last two phases and the delivery. */
  method Finish(survey: Survey, servers: seq<Server>, locals: seq<Grouped>, ghost data: seq<seq<seq<DpResponseToSend>>>,
                trees: Trees, draws: Draws, h: Point, clientPubKey: Point, ghost y: Scalar)
    returns (results: seq<FilteredResponse>)
    requires Askable(survey.query) && AllOwn(servers, survey.query, locals, data) && Deliverable(servers, survey.query, data)
    requires TreesFit(trees, |servers|) && LengthsMeet(servers, survey.query, data, trees.aggregation)
    requires h == Mul(CollectiveKey(servers), Base) && clientPubKey == Mul(y, Base)
    requires survey.store.groupedDeterministicFilteredResponses == map[]
    modifies survey`lengths, survey.store`groupedDeterministicFilteredResponses, survey.store`deliverableResults
    ensures Delivered(servers, survey.query, data, y, draws, results)
  {
    GatherPhase(survey, servers, locals, data, trees.aggregation, h);
    ghost var m := survey.store.groupedDeterministicFilteredResponses;
    ghost var ks := survey.KeySwitchingPhase(trees.switching, servers, draws, clientPubKey, y);
    results := survey.store.PullDeliverableResults();
    IsDelivered(servers, survey.query, data, y, draws, m, ks, results);
  }

  lemma IsDelivered(servers: seq<Server>, q: SurveyQuery, data: seq<seq<seq<DpResponseToSend>>>, y: Scalar, draws: Draws, m: Grouped,
                    ks: seq<GroupingKey>, results: seq<FilteredResponse>)
    requires Answers(servers, q, m, AllRows(servers, q, data)) && Delivers(CollectiveKey(servers), y, m, ks, results)
    requires SwitchedBy(CollectiveKey(servers), SwitchTargets(Values(ks, m)), Mul(y, Base), draws, |servers|, SwitchTargets(results))
    ensures Delivered(servers, q, data, y, draws, results)
  {
  }

  predicate AllRingsFit(rings: seq<Rings>, n: nat) {
    |rings| == n && forall i :: 0 <= i < n ==> RingsFit(rings[i], n)
  }

  /** The tables of the servers, what passes at each of them, and their local maps. */
  datatype Trace = Trace(tables: seq<seq<CipherVectorScalar>>, runs: seq<LocalRun>, locals: seq<Grouped>)

  /** Every server ran as drawn. */
  ghost predicate AllRan(servers: seq<Server>, q: SurveyQuery, data: seq<seq<seq<DpResponseToSend>>>, rings: seq<Rings>, draws: SurveyDraws,
                         h: Point, trace: Trace) {
    && TablesDrawn(trace.tables, q, h, draws.tables)
    && |trace.tables| == |trace.runs| == |trace.locals| == |data| == |rings| == |servers|
    && forall i :: 0 <= i < |servers| ==>
         RanLocally(servers, q, data[i], rings[i], trace.tables, draws.mixing(i), h, trace.runs[i], trace.locals[i])
  }

  /** The root's own part; its survey record is kept for the last phases. */
  method RunRoot(q: SurveyQuery, servers: seq<Server>, secret: Scalar, messages: seq<seq<DpResponseToSend>>, rings: Rings,
                 tables: seq<seq<CipherVectorScalar>>, own: seq<CipherVectorScalar>, draws: nat -> Draw, h: Point)
    returns (survey: Survey, local: Grouped, ghost run: LocalRun)
    requires Askable(q) && SecretsNonzero(servers) && |tables| == |servers| && RingsFit(rings, |servers|)
    requires AllServe(tables, q, h) && h == Mul(CollectiveKey(servers), Base)
    ensures fresh(survey) && fresh(survey.store) && survey.query == q && survey.store.groupedDeterministicFilteredResponses == map[]
    ensures RightLocally(servers, q, messages, rings, tables, draws, h, run, local)
  {
    survey := new Survey(q, secret, own);
    local, run := RunAndPull(survey, messages, rings, servers, tables, draws, h);
  }

  /** The local results of all servers. */
  method RunAll(q: SurveyQuery, servers: seq<Server>, root: nat, data: seq<seq<seq<DpResponseToSend>>>, rings: seq<Rings>, draws: SurveyDraws,
                aggregate: Point)
    returns (survey: Survey, locals: seq<Grouped>, ghost trace: Trace)
    requires Askable(q) && SecretsNonzero(servers) && root < |servers| == |data| && AllRingsFit(rings, |servers|)
    requires aggregate == Mul(CollectiveKey(servers), Base)
    ensures fresh(survey) && fresh(survey.store) && survey.query == q && survey.store.groupedDeterministicFilteredResponses == map[]
    ensures AllOwn(servers, q, locals, data) && AllRan(servers, q, data, rings, draws, aggregate, trace) && trace.locals == locals
  {
    var tables := CreateTables(q, |servers|, aggregate, draws.tables);
    DrawnServe(tables, q, aggregate, draws.tables);
    var others, local;
    ghost var runs, run;
    others, runs := RunOthers(q, servers, root, data, rings, tables, draws.mixing, aggregate);
    survey, local, run := RunRoot(q, servers, servers[root].secret, data[root], rings[root], tables, tables[root], draws.mixing(root), aggregate);
    OwnAtRoot(servers, q, others, data, root, local);
    RanAtRoot(servers, q, root, others, data, rings, tables, draws, aggregate, runs, local, run);
    locals := others[root := local];
    trace := Trace(tables, runs[root := run], locals);
  }

  lemma RanAtRoot(servers: seq<Server>, q: SurveyQuery, root: nat, locals: seq<Grouped>, data: seq<seq<seq<DpResponseToSend>>>,
                  rings: seq<Rings>, tables: seq<seq<CipherVectorScalar>>, draws: SurveyDraws, h: Point, runs: seq<LocalRun>,
                  local: Grouped, run: LocalRun)
    requires OthersRan(servers, q, root, locals, data, rings, tables, draws.mixing, h, runs) && TablesDrawn(tables, q, h, draws.tables)
    requires root < |locals| == |data| == |tables| == |servers|
    requires RanLocally(servers, q, data[root], rings[root], tables, draws.mixing(root), h, run, local)
    ensures AllRan(servers, q, data, rings, draws, h, Trace(tables, runs[root := run], locals[root := local]))
  {
  }

  lemma OwnAtRoot(servers: seq<Server>, q: SurveyQuery, locals: seq<Grouped>, data: seq<seq<seq<DpResponseToSend>>>, root: nat, local: Grouped)
    requires |locals| == |data| == |servers| && root < |locals| && AnswersOwn(servers, q, local, data[root])
    requires OthersOwn(servers, q, root, locals, data)
    ensures AllOwn(servers, q, locals[root := local], data)
  {
  }

  /** The whole survey: whatever the servers, rings, trees, arrival orders and draws, the delivered responses are the
      plaintext query's groups with their sums over all rows of all servers, each group once, under the querier's key. */
  method RunSurvey(q: SurveyQuery, servers: seq<Server>, root: nat, data: seq<seq<seq<DpResponseToSend>>>, rings: seq<Rings>,
                   trees: Trees, draws: SurveyDraws, aggregate: Point, clientPubKey: Point, ghost y: Scalar)
    returns (results: seq<FilteredResponse>, ghost trace: Trace)
    requires Askable(q) && SecretsNonzero(servers) && root < |servers| == |data|
    requires AllRingsFit(rings, |servers|) && TreesFit(trees, |servers|) && Deliverable(servers, q, data)
    requires LengthsMeet(servers, q, data, trees.aggregation)
    requires aggregate == Mul(CollectiveKey(servers), Base) && clientPubKey == Mul(y, Base)
    ensures Delivered(servers, q, data, y, draws.switching, results) && AllRan(servers, q, data, rings, draws, aggregate, trace)
  {
    var survey, locals;
    survey, locals, trace := RunAll(q, servers, root, data, rings, draws, aggregate);
    results := Finish(survey, servers, locals, data, trees, draws.switching, aggregate, clientPubKey, y);
  }
}
