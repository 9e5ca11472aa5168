/** A server's side of one survey: creation, data upload, and the shuffling and tagging phases it leads
    (services/service.go). */
module Service {
  import opened Group
  import opened Sums
  import opened ElGamal
  import opened Codec
  import opened Options
  import opened Responses
  import opened Table
  import opened LocalAggregation
  import opened SurveyStore
  import opened Layout
  import opened Filter
  import opened Tagging
  import opened Shuffle
  import opened Query
  import opened DataProvider
  import opened Topology

  const NBR_LINES := 10

  function LineSize(q: SurveyQuery): nat {
    |q.sum| + |q.where| + |q.groupBy| + 1
  }

  function RowWidth(q: SurveyQuery): nat {
    |q.groupBy| + |q.where| + |q.sum|
  }

  /** A precomputed table made for the collective key and wide enough for the survey's rows. */
  predicate Serves(table: seq<CipherVectorScalar>, q: SurveyQuery, h: Point) {
    table != [] && TableFor(table, Base, h) && forall l :: 0 <= l < |table| ==> |table[l].s| >= RowWidth(q)
  }

  predicate AllServe(tables: seq<seq<CipherVectorScalar>>, q: SurveyQuery, h: Point) {
    forall i :: 0 <= i < |tables| ==> Serves(tables[i], q, h)
  }

  /** PrecomputationWritingForShuffling at the creation of a survey. Without the application flag a new table is made: the
      stream's scalars under the collective key, on lines twice as long as a row plus its possible count attribute. With
      the flag a table found in the gob file is taken as it is, whatever it was made for; only when there is no file is a
      new one made and written. */
  method PrecomputationWritingForShuffling(appFlag: bool, gobFile: Option<seq<CipherVectorScalar>>, recq: SurveyQuery, aggregate: Point,
                                           stream: seq<seq<Scalar>>)
    returns (table: seq<CipherVectorScalar>, written: Option<seq<CipherVectorScalar>>)
    requires |stream| == NBR_LINES && forall i :: 0 <= i < |stream| ==> |stream[i]| == 2 * LineSize(recq)
    ensures Serves(table, recq, aggregate) <==> (appFlag && gobFile.Some? ==> Serves(gobFile.value, recq, aggregate))
    ensures appFlag && gobFile.Some? ==> table == gobFile.value
    ensures written == if appFlag then Some(table) else gobFile
    ensures !(appFlag && gobFile.Some?) ==> |table| == NBR_LINES && forall l :: 0 <= l < NBR_LINES ==> table[l].s == stream[l]
  {
    written := gobFile;
    if appFlag {
      if gobFile.None? {
        table := CreatePrecomputedRandomize(Base, aggregate, stream, 2 * LineSize(recq));
        written := Some(table);
      } else {
        table := gobFile.value;
      }
    } else {
      table := CreatePrecomputedRandomize(Base, aggregate, stream, 2 * LineSize(recq));
    }
  }

  predicate AllZeros(s: seq<Scalar>) {
    forall j :: 0 <= j < |s| ==> s[j] == 0
  }

  /** A table written for one collective key serves a survey under another exactly when all its scalars are zero. */
  lemma StaleTableIff(table: seq<CipherVectorScalar>, q: SurveyQuery, h: Point, h': Point)
    requires Serves(table, q, h)
    ensures Serves(table, q, h') <==> h == h' || forall l :: 0 <= l < |table| ==> AllZeros(table[l].s)
  {
    forall l, j | 0 <= l < |table| && 0 <= j < |table[l].s|
      ensures Mul(table[l].s[j], h) == Mul(table[l].s[j], h') <==> h == h' || table[l].s[j] == 0
    {
      if table[l].s[j] != 0 {
        MulCancel(table[l].s[j], h, h');
      }
    }
  }

  // ---------- shuffling ----------

  /** What a node draws for its rows: a line of its table and a swap for each. */
  datatype Draw = Draw(pick: nat -> nat, swap: nat -> nat)

  function MixerOf(table: seq<CipherVectorScalar>, draw: Draw, k: nat): Mixer {
    Mixer(Some(table), Randomness([], FirstOf(draw.pick, k), FirstOf(draw.swap, k)))
  }

  function MixersOf(tables: seq<seq<CipherVectorScalar>>, draws: nat -> Draw, k: nat): (mixers: seq<Mixer>)
    ensures |mixers| == |tables| && forall i :: 0 <= i < |tables| ==> mixers[i] == MixerOf(tables[i], draws(i), k)
  {
    seq(|tables|, i requires 0 <= i < |tables| => MixerOf(tables[i], draws(i), k))
  }

  lemma MixersServe(tables: seq<seq<CipherVectorScalar>>, draws: nat -> Draw, q: SurveyQuery, h: Point, k: nat)
    requires AllServe(tables, q, h)
    ensures MixersFit(MixersOf(tables, draws, k), k, RowWidth(q), h)
  {
    forall i | 0 <= i < |tables|
      ensures var mixer := MixerOf(tables[i], draws(i), k);
              Fits(mixer.r, mixer.precomputed, k, RowWidth(q)) && RightTable(mixer.precomputed, Base, h)
    {
      assert Serves(tables[i], q, h);
      assert forall l :: 0 <= l < |tables[i]| ==> LineFor(tables[i][l], Base, h);
    }
  }

  /** The rows are those pulled, with the dummy beside a single one, after every server has mixed them in its turn. */
  ghost predicate MixedRows(pulled: seq<ProcessResponse>, rows: seq<ProcessResponse>, q: SurveyQuery, tables: seq<seq<CipherVectorScalar>>,
                            draws: nat -> Draw, root: nat, h: Point, stages: seq<Matrix>)
    requires root < |tables|
  {
    var k, n := |Padded(pulled)|, |tables|;
    && |rows| == k && |stages| == n + 1 && stages[0] == MatrixRows(Padded(pulled)) && Shaped(stages[n], k, RowWidth(q))
    && Circuit(MixersOf(tables, draws, k), root, stages, k, RowWidth(q), h)
    && forall i :: 0 <= i < k ==> rows[i] == SplitRow(stages[n][i], Pair(|q.groupBy|, |q.where|))
  }

  lemma PaddedShaped(pulled: seq<ProcessResponse>, q: SurveyQuery)
    requires pulled != [] && AllShaped(pulled, Names(q))
    ensures AllShaped(Padded(pulled), Names(q)) && Shaped(MatrixRows(Padded(pulled)), |Padded(pulled)|, RowWidth(q))
  {
    forall i | 0 <= i < |Padded(pulled)| ensures HasShape(Padded(pulled)[i], Names(q)) {
    }
  }

  /** The matrix of the pulled rows goes around the circuit and is split again with the widths recorded before. */
  method ShuffleRows(pulled: seq<ProcessResponse>, q: SurveyQuery, tables: seq<seq<CipherVectorScalar>>, draws: nat -> Draw, root: nat, h: Point,
                     ghost x: Scalar)
    returns (rows: seq<ProcessResponse>, lengths: seq<Pair>, ghost stages: seq<Matrix>)
    requires pulled != [] && AllShaped(pulled, Names(q)) && RowWidth(q) < UINT32
    requires root < |tables| && AllServe(tables, q, h) && h == Mul(x, Base)
    ensures MixedRows(pulled, rows, q, tables, draws, root, h, stages)
    ensures AllShaped(rows, Names(q)) && Same(OpenedRows(x, rows), OpenedRows(x, pulled))
  {
    var toShuffle;
    toShuffle, lengths := ProcessResponseToMatrixCipherText(pulled);
    PaddedShaped(pulled, q);
    var mixers := MixersOf(tables, draws, |toShuffle|);
    MixersServe(tables, draws, q, h, |toShuffle|);
    var shuffled, visits;
    shuffled, visits, stages := RunShuffling(mixers, root, toShuffle, x, h);
    rows := MatrixCipherTextToProcessResponse(shuffled, lengths);
    ShuffledTable(pulled, q, x, shuffled, rows);
  }

  /** As a table, the rows split off the shuffled matrix are those pulled. */
  lemma ShuffledTable(pulled: seq<ProcessResponse>, q: SurveyQuery, x: Scalar, shuffled: Matrix, rows: seq<ProcessResponse>)
    requires pulled != [] && AllShaped(pulled, Names(q)) && AllShaped(Padded(pulled), Names(q))
    requires Shaped(shuffled, |Padded(pulled)|, RowWidth(q)) && |rows| == |shuffled|
    requires multiset(OpenMatrix(x, shuffled)) == multiset(OpenMatrix(x, MatrixRows(Padded(pulled))))
    requires forall i :: 0 <= i < |rows| ==> rows[i] == SplitRow(shuffled[i], Pair(|q.groupBy|, |q.where|))
    ensures AllShaped(rows, Names(q)) && Same(OpenedRows(x, rows), OpenedRows(x, pulled))
  {
    var padded := Padded(pulled);
    SplitAfterShuffle(x, padded, Names(q), shuffled, rows);
    SameMultiset(OpenedRows(x, rows), OpenedRows(x, padded));
    PaddingNeutral(x, pulled);
    SameTransitive(OpenedRows(x, rows), OpenedRows(x, padded), OpenedRows(x, pulled));
  }

  // ---------- tagging ----------

  /** The query's where values as rows of one where attribute each. */
  function WhereRows(values: CipherVector): (r: seq<ProcessResponse>)
    ensures |r| == |values| && forall i :: 0 <= i < |values| ==> r[i] == ProcessResponse([values[i]], [], [])
  {
    seq(|values|, i requires 0 <= i < |values| => ProcessResponse([values[i]], [], []))
  }

  method WhereTargets(q: SurveyQuery) returns (queryWhereToTag: seq<ProcessResponse>)
    ensures queryWhereToTag == WhereRows(WhereValues(q))
  {
    queryWhereToTag := [];
    for i := 0 to |q.where|
      invariant queryWhereToTag == WhereRows(WhereValues(q))[..i]
    {
      queryWhereToTag := queryWhereToTag + [ProcessResponse([q.where[i].value], [], [])];
    }
  }

  /** Tags from any ring order are the tags of the servers. */
  lemma TagsOfRing(ring: seq<Server>, servers: seq<Server>, target: CipherVector, tagged: seq<Point>)
    requires multiset(ring) == multiset(servers) && |tagged| == |target|
    requires forall i :: 0 <= i < |target| ==> tagged[i] == Tag(ring, Open(CollectiveKey(ring), target[i]))
    ensures tagged == Map(TagOf(servers), target)
  {
    OrderIrrelevant(ring, servers, Null);
    forall i | 0 <= i < |target| ensures tagged[i] == TagOf(servers)(target[i]) {
      OrderIrrelevant(ring, servers, Open(CollectiveKey(servers), target[i]));
    }
  }

  /** The query's where values are tagged in front of the rows, so that both get comparable tags. */
  method TagAll(q: SurveyQuery, rows: seq<ProcessResponse>, ring: seq<Server>, root: nat, ghost servers: seq<Server>)
    returns (targetOfSwitch: seq<ProcessResponse>, result: seq<ProcessResponseDet>)
    requires root < |ring| && multiset(ring) == multiset(servers)
    ensures targetOfSwitch == WhereRows(WhereValues(q)) + rows
    ensures result == TaggedRows(servers, targetOfSwitch)
  {
    var queryWhereToTag := WhereTargets(q);
    targetOfSwitch := queryWhereToTag + rows;
    var deterministicTOS := ProcessResponseToCipherVector(targetOfSwitch);
    var tagged, hops := RunTagging(ring, root, deterministicTOS);
    TagsOfRing(ring, servers, deterministicTOS, tagged);
    result := DeterCipherVectorToProcessResponseDet(tagged, targetOfSwitch, TagOf(servers));
    assert result == TaggedRows(servers, targetOfSwitch);
  }

  lemma QueryTag(servers: seq<Server>, values: CipherVector, i: nat)
    requires i < |values|
    ensures WithTags(TagOf(servers), WhereRows(values)[i]).detTagWhere == [WhereTags(servers, values)[i]]
  {
  }

  /** The tags of the query's values stand in front of those of the rows. */
  lemma TagsApart(servers: seq<Server>, values: CipherVector, rows: seq<ProcessResponse>, result: seq<ProcessResponseDet>)
    requires result == TaggedRows(servers, WhereRows(values) + rows)
    ensures |values| <= |result| && result[|values|..] == TaggedRows(servers, rows)
    ensures forall i :: 0 <= i < |values| ==> result[i].detTagWhere == [WhereTags(servers, values)[i]]
  {
    var all, n := WhereRows(values) + rows, |values|;
    forall i | 0 <= i < n ensures result[i].detTagWhere == [WhereTags(servers, values)[i]] {
      assert all[i] == WhereRows(values)[i];
      QueryTag(servers, values, i);
    }
    forall i | 0 <= i < |rows| ensures result[n..][i] == TaggedRows(servers, rows)[i] {
      assert result[n + i] == WithTags(TagOf(servers), all[n + i]) && all[n + i] == rows[i];
    }
  }

  /** The where tags of the first results, one each. */
  method FirstTags(result: seq<ProcessResponseDet>, n: nat, ghost tags: seq<GroupingKey>) returns (queryWhereTag: seq<GroupingKey>)
    requires n == |tags| <= |result| && forall i :: 0 <= i < n ==> result[i].detTagWhere == [tags[i]]
    ensures queryWhereTag == tags
  {
    queryWhereTag := [];
    for i := 0 to n
      invariant queryWhereTag == tags[..i]
    {
      queryWhereTag := queryWhereTag + [result[i].detTagWhere[0]];
    }
  }

  method TagRows(q: SurveyQuery, rows: seq<ProcessResponse>, ring: seq<Server>, root: nat, ghost servers: seq<Server>)
    returns (targetOfSwitch: seq<ProcessResponse>, queryWhereTag: seq<GroupingKey>, det: seq<ProcessResponseDet>)
    requires root < |ring| && multiset(ring) == multiset(servers)
    ensures queryWhereTag == WhereTags(servers, WhereValues(q))
    ensures det == TaggedRows(servers, rows)
  {
    var result;
    targetOfSwitch, result := TagAll(q, rows, ring, root, servers);
    TagsApart(servers, WhereValues(q), rows, result);
    queryWhereTag := FirstTags(result, |q.where|, WhereTags(servers, WhereValues(q)));
    det := result[|q.where|..];
  }

  lemma TaggedWidths(servers: seq<Server>, q: SurveyQuery, rows: seq<ProcessResponse>)
    requires AllShaped(rows, Names(q))
    ensures WhereWidth(TaggedRows(servers, rows), |q.where|)
  {
  }

  method FilterRows(q: SurveyQuery, queryWhereTag: seq<GroupingKey>, det: seq<ProcessResponseDet>,
                    ghost servers: seq<Server>, ghost rows: seq<ProcessResponse>)
    returns (filteredResponses: seq<FilteredResponseDet>)
    requires SecretsNonzero(servers) && WellFormed(q) && AllShaped(rows, Names(q))
    requires queryWhereTag == WhereTags(servers, WhereValues(q)) && det == TaggedRows(servers, rows)
    ensures filteredResponses == SelectRows(servers, q, rows)
  {
    if q.pred.None? || |queryWhereTag| == 0 {
      filteredResponses := FilterNone(det);
      AllSelected(servers, q, rows);
      assert filteredResponses == Map(pr => UnfilteredRow(servers, pr), rows);
    } else {
      TaggedWidths(servers, q, rows);
      ghost var kept;
      filteredResponses, kept := FilterResponses(q.pred.value, queryWhereTag, det);
      KeptIsSelected(servers, q, rows);
    }
  }

  function SumWidth(q: SurveyQuery): GroupingKey -> nat {
    _ => |q.sum|
  }

  /** Folding the selected rows gives the plaintext query's groups and sums over the rows. */
  lemma FoldedIsQuery(servers: seq<Server>, q: SurveyQuery, rows: seq<ProcessResponse>)
    requires AllShaped(rows, Names(q))
    ensures EntryWidths(SelectRows(servers, q, rows), SumWidth(q))
    ensures var m, x := FoldInto(map[], SelectRows(servers, q, rows), SumWidth(q)), CollectiveKey(servers);
            RightMap(servers, q, m) && Tallies(OpenedMap(x, m), Regroup(OpenedRows(x, rows), Grouping(servers, q)))
  {
    var entries, x := SelectRows(servers, q, rows), CollectiveKey(servers);
    SelectedMeaning(servers, q, rows);
    SelectedRight(servers, q, rows);
    FoldTallies(x, entries, SumWidth(q));
    var m := FoldInto(map[], entries, SumWidth(q));
    forall k | k in m ensures RightEntry(servers, q, k, m[k]) {
      FoldGroups(entries, SumWidth(q), k);
    }
  }

  // ---------- aggregation and key switching at the root ----------

  /** How many ciphertexts so many groups of a width have. */
  function CipherCount(groups: nat, width: nat): nat {
    if groups == 0 then 0 else width + CipherCount(groups - 1, width)
  }

  lemma {:induction false} CipherCountMonotone(a: nat, b: nat, width: nat)
    requires a <= b
    ensures CipherCount(a, width) <= CipherCount(b, width)
  {
    if a < b {
      CipherCountMonotone(a, b - 1, width);
    }
  }

  /** So many responses fit one key-switching message, whose length is sent as 32 bits. */
  predicate FitMessage(groups: nat, q: SurveyQuery) {
    CipherCount(groups, |q.groupBy| + |q.sum|) < UINT32
  }

  lemma FewerFit(a: nat, b: nat, q: SurveyQuery)
    requires a <= b && FitMessage(b, q)
    ensures FitMessage(a, q)
  {
    CipherCountMonotone(a, b, |q.groupBy| + |q.sum|);
  }

  predicate SameTargets(fr: seq<FilteredResponse>, width: nat) {
    forall i :: 0 <= i < |fr| ==> |fr[i].groupByEnc| + |fr[i].aggregatingAttributes| == width
  }

  lemma {:induction false} TargetLength(fr: seq<FilteredResponse>, n: nat, width: nat)
    requires SameTargets(fr, width) && |fr| == n
    ensures |SwitchTargets(fr)| == CipherCount(n, width)
    decreases n
  {
    if n > 0 {
      TargetLength(fr[1..], n - 1, width);
    }
  }

  /** The groups can be switched in one message and are those of the query. */
  ghost predicate Switchable(servers: seq<Server>, q: SurveyQuery, m: Grouped) {
    RightMap(servers, q, m) && FitMessage(|m|, q)
  }

  lemma CountTargets(fr: seq<FilteredResponse>, n: nat, q: SurveyQuery)
    requires SameTargets(fr, |q.groupBy| + |q.sum|) && |fr| == n && FitMessage(n, q)
    ensures |SwitchTargets(fr)| < UINT32
  {
    TargetLength(fr, n, |q.groupBy| + |q.sum|);
  }

  lemma RightTargets(servers: seq<Server>, q: SurveyQuery, m: Grouped, ks: seq<GroupingKey>)
    requires RightMap(servers, q, m) && forall i :: 0 <= i < |ks| ==> ks[i] in m
    ensures SameTargets(Values(ks, m), |q.groupBy| + |q.sum|)
  {
    forall i | 0 <= i < |ks| ensures |Values(ks, m)[i].groupByEnc| + |Values(ks, m)[i].aggregatingAttributes| == |q.groupBy| + |q.sum| {
      assert RightEntry(servers, q, ks[i], m[ks[i]]);
    }
  }

  lemma ListingSize<T>(xs: seq<T>, s: set<T>)
    requires Lists(xs, s)
    ensures |xs| == |s|
  {
    ListsMultiset(xs, s);
    assert |multiset(xs)| == |xs| && |multiset(s)| == |s|;
  }

  lemma ListingCount(ks: seq<GroupingKey>, m: Grouped)
    requires Lists(ks, m.Keys)
    ensures |ks| == |m|
  {
    ListingSize(ks, m.Keys);
    assert |m.Keys| == |m|;
  }

  /** The responses open under the second key to what the others open to under the first. */
  ghost predicate Reencrypts(x: Scalar, y: Scalar, fr: seq<FilteredResponse>, delivered: seq<FilteredResponse>) {
    |delivered| == |fr|
    && forall i :: 0 <= i < |fr| ==>
         OpenVector(y, delivered[i].groupByEnc) == OpenVector(x, fr[i].groupByEnc)
         && OpenVector(y, delivered[i].aggregatingAttributes) == OpenVector(x, fr[i].aggregatingAttributes)
  }

  /** The deliverable responses are the groups of the map, in the order of some listing of its keys, re-encrypted. */
  ghost predicate Delivers(x: Scalar, y: Scalar, m: Grouped, ks: seq<GroupingKey>, delivered: seq<FilteredResponse>) {
    Lists(ks, m.Keys) && Reencrypts(x, y, Values(ks, m), delivered)
  }

  lemma FewTargets(servers: seq<Server>, q: SurveyQuery, m: Grouped, ks: seq<GroupingKey>)
    requires Switchable(servers, q, m) && Lists(ks, m.Keys)
    ensures |SwitchTargets(Values(ks, m))| < UINT32
  {
    ListingCount(ks, m);
    RightTargets(servers, q, m, ks);
    CountTargets(Values(ks, m), |m|, q);
  }

  method SwitchAll(t: Shape, servers: seq<Server>, draws: Draws, coaggr: seq<FilteredResponse>, clientPubKey: Point, q: SurveyQuery,
                   ghost y: Scalar, ghost m: Grouped, ghost ks: seq<GroupingKey>)
    returns (delivered: seq<FilteredResponse>, lengths: seq<Pair>)
    requires Spans(t, |servers|) && clientPubKey == Mul(y, Base)
    requires Switchable(servers, q, m)
    requires Lists(ks, m.Keys) && coaggr == Values(ks, m)
    ensures Delivers(CollectiveKey(servers), y, m, ks, delivered)
    ensures SwitchedBy(CollectiveKey(servers), SwitchTargets(coaggr), clientPubKey, draws, |servers|, SwitchTargets(delivered))
  {
    FewTargets(servers, q, m, ks);
    var cv;
    cv, lengths := FilteredResponseToCipherVector(coaggr);
    var switched := Switch(t, servers, draws, cv, clientPubKey, y);
    FlattenRegrouped(coaggr, switched);
    SwitchKeepsLayout(CollectiveKey(servers), y, coaggr, switched);
    delivered := CipherVectorToFilteredResponse(switched, lengths);
  }

  // ---------- the survey record ----------

  /** Tagging around the ring, then filtering. */
  method TagAndFilter(q: SurveyQuery, rows: seq<ProcessResponse>, ring: seq<Server>, root: nat, ghost servers: seq<Server>)
    returns (targetOfSwitch: seq<ProcessResponse>, filteredResponses: seq<FilteredResponseDet>)
    requires root < |ring| && multiset(ring) == multiset(servers) && SecretsNonzero(servers)
    requires WellFormed(q) && AllShaped(rows, Names(q))
    ensures filteredResponses == SelectRows(servers, q, rows)
  {
    var queryWhereTag, det;
    targetOfSwitch, queryWhereTag, det := TagRows(q, rows, ring, root, servers);
    filteredResponses := FilterRows(q, queryWhereTag, det, servers, rows);
  }

  lemma MergedFromNothing(m: Grouped)
    ensures MergedInto(map[], m) == m
  {
  }

  class Survey {
    const store: Store
    const query: SurveyQuery
    const surveySecretKey: Scalar
    const shufflePrecompute: seq<CipherVectorScalar>
    var lengths: seq<Pair>
    var targetOfSwitch: seq<ProcessResponse>

    /** Survey instantiation: an empty store, the drawn secret and the precomputed randomisers. */
    constructor (recq: SurveyQuery, surveySecret: Scalar, precomputeShuffle: seq<CipherVectorScalar>)
      ensures query == recq && surveySecretKey == surveySecret && shufflePrecompute == precomputeShuffle && fresh(store)
      ensures store.Contents() == NOTHING && store.shuffledProcessResponses == [] && store.locAggregatedProcessResponse == map[]
      ensures store.groupedDeterministicFilteredResponses == map[]
    {
      store := new Store();
      query, surveySecretKey, shufflePrecompute := recq, surveySecret, precomputeShuffle;
      lengths, targetOfSwitch := [], [];
    }

    /** PushData: the rows are stored one by one up to the first that does not parse. */
    method PushData(responses: seq<DpResponseToSend>, ghost before: seq<DpResponse>) returns (ok: bool)
      requires store.Contents() == After(before, Names(query))
      modifies store`dpResponses, store`dpResponsesAggr
      ensures store.Contents() == After(before + ParsedRows(responses), Names(query))
      ensures ok <==> |ParsedRows(responses)| == |responses|
    {
      ghost var inserted := before;
      assert responses[0..] == responses;
      for i := 0 to |responses|
        invariant store.Contents() == After(inserted, Names(query)) && Progress(before, responses, i, inserted)
      {
        var dr := FromDpResponseToSend(responses[i]);
        if dr.None? {
          StoppedAt(before, responses, i, inserted);
          return false;
        }
        StoredNext(before, responses, i, inserted);
        AfterOneMore(inserted, dr.value, Names(query));
        store.InsertDpResponse(dr.value, Names(query));
        inserted := inserted + [dr.value];
      }
      ok := true;
      StoredAll(before, responses, inserted);
    }

    /** The server shuffles what it received; afterwards the store holds the same table in another order. */
    method ShufflingPhase(tables: seq<seq<CipherVectorScalar>>, draws: nat -> Draw, root: nat, h: Point, ghost x: Scalar, ghost crs: seq<DpResponse>)
      returns (ghost pulled: seq<ProcessResponse>, ghost stages: seq<Matrix>)
      requires store.Contents() == After(crs, Names(query)) && store.shuffledProcessResponses == []
      requires RowWidth(query) < UINT32 && root < |tables| && AllServe(tables, query, h) && h == Mul(x, Base)
      modifies this`lengths, store`dpResponses, store`shuffledProcessResponses
      ensures PulledFrom(pulled, old(store.Contents()))
      ensures if pulled == [] then store.shuffledProcessResponses == []
              else MixedRows(pulled, store.shuffledProcessResponses, query, tables, draws, root, h, stages)
      ensures AllShaped(store.shuffledProcessResponses, Names(query))
      ensures Same(OpenedRows(x, store.shuffledProcessResponses), Meanings(x, crs, Names(query)))
    {
      pulled, stages := [], [];
      NothingPulled(store.Contents());
      if |store.dpResponses| == 0 && |store.dpResponsesAggr| == 0 {
        PulledNothing(x, crs, Names(query));
        return;
      }
      var dpResponses, ks := store.PullDpResponses();
      PulledIsInserted(x, crs, Names(query), ks);
      PulledSomething(ks, store.dpResponsesAggr);
      var rows, l;
      rows, l, stages := ShuffleRows(dpResponses, query, tables, draws, root, h, x);
      pulled, lengths := dpResponses, l;
      store.PushShuffledProcessResponses(rows);
      assert [] + rows == rows;
      SameTransitive(OpenedRows(x, rows), OpenedRows(x, dpResponses), Meanings(x, crs, Names(query)));
    }

    /** The server tags and filters its shuffled rows and adds them up per group; the map then holds exactly the
        plaintext query's groups and sums over those rows. */
    method TaggingPhase(ring: seq<Server>, root: nat, ghost servers: seq<Server>)
      requires root < |ring| && multiset(ring) == multiset(servers) && SecretsNonzero(servers)
      requires WellFormed(query) && AllShaped(store.shuffledProcessResponses, Names(query)) && store.locAggregatedProcessResponse == map[]
      modifies this`targetOfSwitch, store`shuffledProcessResponses, store`locAggregatedProcessResponse
      ensures EntryWidths(SelectRows(servers, query, old(store.shuffledProcessResponses)), SumWidth(query))
      ensures store.locAggregatedProcessResponse
              == FoldInto(map[], SelectRows(servers, query, old(store.shuffledProcessResponses)), SumWidth(query))
      ensures RightMap(servers, query, store.locAggregatedProcessResponse)
      ensures Tallies(OpenedMap(CollectiveKey(servers), store.locAggregatedProcessResponse),
                      Regroup(OpenedRows(CollectiveKey(servers), old(store.shuffledProcessResponses)), Grouping(servers, query)))
    {
      FoldedIsQuery(servers, query, store.shuffledProcessResponses);
      if |store.shuffledProcessResponses| == 0 {
        return;
      }
      var rows := store.PullShuffledProcessResponses();
      var target, filteredResponses := TagAndFilter(query, rows, ring, root, servers);
      targetOfSwitch := target;
      store.PushDeterministicFilteredResponses(filteredResponses, query.proofs, SumWidth(query));
    }

    /** The root collects all local maps over its tree. */
    method AggregationPhase(t: Shape, locals: seq<Grouped>, aggregate: Point, ghost servers: seq<Server>,
                            ghost tables: seq<seq<Row<GroupingKey>>>)
      requires Collectable(servers, query, t, locals, tables) && aggregate == Mul(CollectiveKey(servers), Base)
      requires store.groupedDeterministicFilteredResponses == map[]
      modifies store`groupedDeterministicFilteredResponses
      ensures MembersBelow(Members(t), |tables|)
      ensures Tallies(OpenedMap(CollectiveKey(servers), store.groupedDeterministicFilteredResponses), Gather(Members(t), tables))
      ensures RightMap(servers, query, store.groupedDeterministicFilteredResponses)
    {
      var m := Aggregate(t, locals, aggregate, query, servers, tables);
      MergedFromNothing(m);
      store.PushCothorityAggregatedFilteredResponses(m);
    }

    /** The root switches the aggregate to the querier's key and keeps it for delivery. */
    method KeySwitchingPhase(t: Shape, servers: seq<Server>, draws: Draws, clientPubKey: Point, ghost y: Scalar)
      returns (ghost ks: seq<GroupingKey>)
      requires Spans(t, |servers|) && clientPubKey == Mul(y, Base)
      requires Switchable(servers, query, store.groupedDeterministicFilteredResponses)
      modifies this`lengths, store`groupedDeterministicFilteredResponses, store`deliverableResults
      ensures Delivers(CollectiveKey(servers), y, old(store.groupedDeterministicFilteredResponses), ks, store.deliverableResults)
      ensures SwitchedBy(CollectiveKey(servers), SwitchTargets(Values(ks, old(store.groupedDeterministicFilteredResponses))),
                         clientPubKey, draws, |servers|, SwitchTargets(store.deliverableResults))
    {
      ghost var m := store.groupedDeterministicFilteredResponses;
      var coaggr;
      coaggr, ks := store.PullCothorityAggregatedFilteredResponses();
      var delivered, l := SwitchAll(t, servers, draws, coaggr, clientPubKey, query, y, m, ks);
      lengths := l;
      store.PushQuerierKeyEncryptedResponses(delivered);
    }
  }

  /** The first i rows parsed and are stored. */
  ghost predicate Progress(before: seq<DpResponse>, responses: seq<DpResponseToSend>, i: nat, inserted: seq<DpResponse>)
    requires i <= |responses|
  {
    inserted + ParsedRows(responses[i..]) == before + ParsedRows(responses) && |inserted| == |before| + i
  }

  lemma StoredNext(before: seq<DpResponse>, responses: seq<DpResponseToSend>, i: nat, inserted: seq<DpResponse>)
    requires i < |responses| && Parsed(responses[i]).Some? && Progress(before, responses, i, inserted)
    ensures Progress(before, responses, i + 1, inserted + [Parsed(responses[i]).value])
  {
    var dr, rest := Parsed(responses[i]).value, ParsedRows(responses[i + 1..]);
    ParsedNext(responses, i);
    AppendAssoc(inserted, dr, rest);
  }

  lemma ParsedNext(responses: seq<DpResponseToSend>, i: nat)
    requires i < |responses| && Parsed(responses[i]).Some?
    ensures ParsedRows(responses[i..]) == [Parsed(responses[i]).value] + ParsedRows(responses[i + 1..])
  {
    assert responses[i..][1..] == responses[i + 1..];
  }

  lemma StoppedAt(before: seq<DpResponse>, responses: seq<DpResponseToSend>, i: nat, inserted: seq<DpResponse>)
    requires i < |responses| && Parsed(responses[i]).None? && Progress(before, responses, i, inserted)
    ensures inserted == before + ParsedRows(responses) && |ParsedRows(responses)| == i
  {
    assert inserted + [] == inserted;
  }

  lemma StoredAll(before: seq<DpResponse>, responses: seq<DpResponseToSend>, inserted: seq<DpResponse>)
    requires Progress(before, responses, |responses|, inserted)
    ensures inserted == before + ParsedRows(responses) && |ParsedRows(responses)| == |responses|
  {
    assert inserted + [] == inserted;
  }

  lemma PulledNothing(x: Scalar, crs: seq<DpResponse>, q: Attributes)
    requires After(crs, q).dpResponses == [] && |After(crs, q).dpResponsesAggr| == 0
    ensures Same(OpenedRows(x, []), Meanings(x, crs, q))
  {
    var r := After(crs, q);
    assert r.dpResponsesAggr.Keys == {} by { assert r.dpResponsesAggr == map[]; }
    PulledIsInserted(x, crs, q, []);
    assert r.dpResponses + Values([], r.dpResponsesAggr) == [];
  }

  /** The encrypted rows, then the pre-aggregated ones in some order of their keys. */
  ghost predicate PulledFrom(pulled: seq<ProcessResponse>, r: Received) {
    exists ks :: Lists(ks, r.dpResponsesAggr.Keys) && pulled == r.dpResponses + Values(ks, r.dpResponsesAggr)
  }

  lemma NothingPulled(r: Received)
    ensures r.dpResponses == [] && |r.dpResponsesAggr| == 0 ==> PulledFrom([], r)
  {
    if r.dpResponses == [] && |r.dpResponsesAggr| == 0 {
      var ks: seq<GroupingKeyTuple> := [];
      assert r.dpResponsesAggr.Keys == {} by { assert r.dpResponsesAggr == map[]; }
      assert Lists(ks, r.dpResponsesAggr.Keys) && [] == r.dpResponses + Values(ks, r.dpResponsesAggr);
    }
  }

  lemma PulledSomething<K, V>(ks: seq<K>, m: map<K, V>)
    requires Lists(ks, m.Keys)
    ensures m != map[] ==> ks != []
  {
    if ks == [] {
      assert m.Keys == {};
      assert m == map[];
    }
  }
}
