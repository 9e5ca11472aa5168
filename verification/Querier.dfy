/** The query as its users see it: integers in, integers out (services/api.go). */
module Querier {
  import opened Group
  import opened Sums
  import opened ElGamal
  import opened DiscreteLog
  import opened Responses
  import opened Decimal
  import opened Table
  import opened LocalAggregation
  import opened SurveyStore
  import opened Filter
  import opened Tagging
  import opened Query
  import opened DataProvider
  import opened Service
  import opened KeyShares
  import opened Sets
  import opened SurveyRun
  import opened Topology
  import opened Options

  // ---------- the plaintext query ----------

  predicate IntSelected(q: SurveyQuery, values: seq<int>, r: IntRow) {
    Filtering(q) && Scoped(q.pred.value, |q.where|) && |r.wheres| == |values| == |q.where| ==> Holds(q.pred.value, values, r.wheres)
  }

  /** The query asks for this predicate. */
  predicate Asks(q: SurveyQuery, pred: Predicate) {
    q.pred == Some(pred) && q.where != [] && Scoped(pred, |q.where|)
  }

  /** A comparison selects a row exactly when the integers compared are equal, whether of query and row, of two query
      values or of two values of the row. */
  lemma ComparisonSelects(q: SurveyQuery, values: seq<int>, r: IntRow, i: nat, j: nat)
    requires |r.wheres| == |values| == |q.where| && i < |values| && j < |values|
    ensures Asks(q, Eq(2 * i, 2 * j + 1)) ==> (IntSelected(q, values, r) <==> values[i] == r.wheres[j])
    ensures Asks(q, Eq(2 * i + 1, 2 * j)) ==> (IntSelected(q, values, r) <==> r.wheres[i] == values[j])
    ensures Asks(q, Eq(2 * i, 2 * j)) ==> (IntSelected(q, values, r) <==> values[i] == values[j])
    ensures Asks(q, Eq(2 * i + 1, 2 * j + 1)) ==> (IntSelected(q, values, r) <==> r.wheres[i] == r.wheres[j])
  {
    ComparisonMeans(values, r.wheres, i, j);
  }

  /** An inequality selects exactly the rows the equality does not, a conjunction those both select, a disjunction those
      either selects; without a predicate every row is selected. */
  lemma ConnectiveSelects(q: SurveyQuery, values: seq<int>, r: IntRow, pred: Predicate)
    requires |r.wheres| == |values| == |q.where| && Asks(q, pred)
    ensures match pred
            case Eq(_, _) => true
            case Neq(l, m) => IntSelected(q, values, r) <==> !IntSelected(q.(pred := Some(Eq(l, m))), values, r)
            case And(a, b) => IntSelected(q, values, r) <==> IntSelected(q.(pred := Some(a)), values, r) && IntSelected(q.(pred := Some(b)), values, r)
            case Or(a, b) => IntSelected(q, values, r) <==> IntSelected(q.(pred := Some(a)), values, r) || IntSelected(q.(pred := Some(b)), values, r)
    ensures IntSelected(q.(pred := None), values, r)
  {
  }

  predicate Belongs(q: SurveyQuery, values: seq<int>, r: IntRow, g: seq<int>) {
    r.groups == g && IntSelected(q, values, r)
  }

  /** SELECT SUM(attribute c) WHERE predicate GROUP BY: the sum of a group. */
  function GroupSum(rows: seq<IntRow>, q: SurveyQuery, values: seq<int>, g: seq<int>, c: nat): int {
    if rows == [] then 0
    else
      var r := rows[|rows| - 1];
      GroupSum(rows[..|rows| - 1], q, values, g, c) + (if Belongs(q, values, r, g) && c < |r.vals| then r.vals[c] else 0)
  }

  /** Some selected row is in the group. */
  predicate Occurs(rows: seq<IntRow>, q: SurveyQuery, values: seq<int>, g: seq<int>) {
    exists i :: 0 <= i < |rows| && Belongs(q, values, rows[i], g)
  }

  predicate AllDecodable(ints: seq<int>) {
    forall i :: 0 <= i < |ints| ==> 0 <= ints[i] < MaxHomomorphicInt
  }

  /** A row of the query's widths, where values of 64 bits, and, if it is selected, group values in the decryptable range. */
  predicate GoodRow(q: SurveyQuery, values: seq<int>, r: IntRow) {
    && |r.groups| == |q.groupBy| && |r.wheres| == |q.where| && |r.vals| == |q.sum|
    && AllInt64(r.wheres) && (IntSelected(q, values, r) ==> AllDecodable(r.groups))
  }

  predicate GoodRows(rows: seq<IntRow>, q: SurveyQuery, values: seq<int>) {
    forall i :: 0 <= i < |rows| ==> GoodRow(q, values, rows[i])
  }

  ghost predicate DecodableSums(rows: seq<IntRow>, q: SurveyQuery, values: seq<int>) {
    forall g, c: nat :: Occurs(rows, q, values, g) && c < |q.sum| ==> 0 <= GroupSum(rows, q, values, g, c) < MaxHomomorphicInt
  }

  /** The query's where values are encryptions of these integers. */
  predicate QueryValues(servers: seq<Server>, q: SurveyQuery, values: seq<int>) {
    AllInt64(values) && OpenVector(CollectiveKey(servers), WhereValues(q)) == IntPoints(values)
  }

  // ---------- points and integers ----------

  lemma Int64Points(i: int, j: int)
    requires IsInt64(i) && IsInt64(j)
    ensures IntToPoint(i) == IntToPoint(j) <==> i == j
  {
    IntToPointInjective(i, j);
  }

  lemma DecodablePoints(a: seq<int>, b: seq<int>)
    requires AllDecodable(a) && AllDecodable(b)
    ensures IntPoints(a) == IntPoints(b) <==> a == b
  {
    if IntPoints(a) == IntPoints(b) {
      forall i | 0 <= i < |a| ensures a[i] == b[i] {
        assert IntPoints(a)[i] == IntPoints(b)[i];
        IntToPointInjective(a[i], b[i]);
      }
    }
  }

  lemma PointsKeepEqualities(qs: seq<int>, rs: seq<int>)
    requires |qs| == |rs| && AllInt64(qs) && AllInt64(rs)
    ensures SameEqualities(IntPoints(qs), IntPoints(rs), qs, rs)
  {
    forall i: nat, j: nat | i < 2 * |qs| && j < 2 * |qs|
      ensures Variable(i, IntPoints(qs), IntPoints(rs)) == Variable(j, IntPoints(qs), IntPoints(rs)) <==> Variable(i, qs, rs) == Variable(j, qs, rs)
    {
      Int64Points(Variable(i, qs, rs), Variable(j, qs, rs));
    }
  }

  /** The WHERE clause reads the same on points and on integers. */
  lemma SelectedIntegers(servers: seq<Server>, q: SurveyQuery, values: seq<int>, r: IntRow)
    requires QueryValues(servers, q, values) && |r.wheres| == |q.where| && AllInt64(r.wheres)
    ensures Selected(servers, q, IntPoints(r.wheres)) == IntSelected(q, values, r)
  {
    assert |IntPoints(values)| == |q.where|;
    if Filtering(q) && Scoped(q.pred.value, |q.where|) {
      PointsKeepEqualities(values, r.wheres);
      SameVerdict(q.pred.value, IntPoints(values), IntPoints(r.wheres), values, r.wheres);
    }
  }

  /** A row goes to the key of a group exactly when it belongs to the group. */
  lemma KeyedIff(servers: seq<Server>, q: SurveyQuery, values: seq<int>, r: IntRow, g: seq<int>)
    requires SecretsNonzero(servers) && QueryValues(servers, q, values)
    requires GoodRow(q, values, r) && AllDecodable(g)
    ensures Grouping(servers, q)(PointRow(r).key) == Some(GroupTag(servers, IntPoints(g))) <==> Belongs(q, values, r, g)
  {
    SelectedIntegers(servers, q, values, r);
    GroupTagInjective(servers, IntPoints(r.groups), IntPoints(g));
    if IntSelected(q, values, r) {
      DecodablePoints(r.groups, g);
    }
  }

  /** The keyed table of a query over integer rows. */
  function KeyedRows(servers: seq<Server>, q: SurveyQuery, rows: seq<IntRow>): seq<Row<GroupingKey>> {
    Regroup(PointRows(rows), Grouping(servers, q))
  }

  function IntShare(q: SurveyQuery, values: seq<int>, r: IntRow, g: seq<int>, c: nat): int {
    if Belongs(q, values, r, g) && c < |r.vals| then r.vals[c] else 0
  }

  lemma SumLast(rows: seq<IntRow>, q: SurveyQuery, values: seq<int>, g: seq<int>, c: nat)
    requires rows != []
    ensures GroupSum(rows, q, values, g, c)
            == GroupSum(rows[..|rows| - 1], q, values, g, c) + IntShare(q, values, rows[|rows| - 1], g, c)
  {
  }

  lemma PointAt(ints: seq<int>, c: nat)
    ensures At(IntPoints(ints), c) == IntToPoint(if c < |ints| then ints[c] else 0)
  {
  }

  /** A row's share in a keyed sum is the point of its share in the plaintext sum. */
  lemma ShareIs(servers: seq<Server>, q: SurveyQuery, values: seq<int>, r: IntRow, g: seq<int>, c: nat)
    requires SecretsNonzero(servers) && QueryValues(servers, q, values)
    requires GoodRow(q, values, r) && AllDecodable(g)
    ensures ShareOf(PointRow(r), Grouping(servers, q), GroupTag(servers, IntPoints(g)), c) == IntToPoint(IntShare(q, values, r, g, c))
  {
    KeyedIff(servers, q, values, r, g);
    if Belongs(q, values, r, g) {
      PointAt(r.vals, c);
    }
  }

  /** Keyed sums are the points of plaintext sums. */
  lemma {:induction false} KeyedTotal(servers: seq<Server>, q: SurveyQuery, values: seq<int>, rows: seq<IntRow>, g: seq<int>, c: nat)
    requires SecretsNonzero(servers) && QueryValues(servers, q, values) && GoodRows(rows, q, values) && AllDecodable(g)
    ensures Total(KeyedRows(servers, q, rows), GroupTag(servers, IntPoints(g)), c) == IntToPoint(GroupSum(rows, q, values, g, c))
  {
    if rows != [] {
      var n := |rows| - 1;
      var k := GroupTag(servers, IntPoints(g));
      KeyedTotal(servers, q, values, rows[..n], g, c);
      LastPoints(rows);
      RegroupLast(PointRows(rows[..n]), PointRow(rows[n]), Grouping(servers, q), k, c);
      ShareIs(servers, q, values, rows[n], g, c);
      SumLast(rows, q, values, g, c);
      IntToPointAdd(GroupSum(rows[..n], q, values, g, c), IntShare(q, values, rows[n], g, c));
    }
  }

  lemma LastPoints(rows: seq<IntRow>)
    requires rows != []
    ensures PointRows(rows) == PointRows(rows[..|rows| - 1]) + [PointRow(rows[|rows| - 1])]
  {
  }

  lemma KeyedHas(servers: seq<Server>, q: SurveyQuery, values: seq<int>, rows: seq<IntRow>, g: seq<int>)
    requires SecretsNonzero(servers) && QueryValues(servers, q, values) && GoodRows(rows, q, values) && AllDecodable(g)
    ensures Has(KeyedRows(servers, q, rows), GroupTag(servers, IntPoints(g))) <==> Occurs(rows, q, values, g)
  {
    HasRegroup(PointRows(rows), Grouping(servers, q), GroupTag(servers, IntPoints(g)));
    forall i | 0 <= i < |rows|
      ensures Grouping(servers, q)(PointRows(rows)[i].key) == Some(GroupTag(servers, IntPoints(g))) <==> Belongs(q, values, rows[i], g)
    {
      KeyedIff(servers, q, values, rows[i], g);
    }
  }

  // ---------- data providers ----------

  /** All rows of one server's data providers, each so many times. */
  function ServerRows(ccrs: seq<seq<DpClearResponse>>, times: nat, count: bool, q: SurveyQuery): seq<IntRow> {
    if ccrs == [] then []
    else ServerRows(ccrs[..|ccrs| - 1], times, count, q) + IntMeanings(Repeat(ccrs[|ccrs| - 1], times), count, Names(q))
  }

  function SurveyRows(clear: seq<seq<seq<DpClearResponse>>>, times: nat, count: bool, q: SurveyQuery): seq<IntRow> {
    if clear == [] then []
    else SurveyRows(clear[..|clear| - 1], times, count, q) + ServerRows(clear[|clear| - 1], times, count, q)
  }

  // ---------- which attribute is read where ----------

  /** The integer is the attribute of this name: the one to be encrypted if there is one, else the clear one, else 0. */
  predicate IsValue(value: int, name: string, clear: map<string, int>, enc: map<string, int>) {
    value == if name in enc then enc[name] else if name in clear then clear[name] else 0
  }

  /** The row says of each position what the data provider's row holds under the query's name for it; in a counting query
      the attribute count is 1. */
  predicate RowOf(r: IntRow, ccr: DpClearResponse, count: bool, q: SurveyQuery) {
    && |r.groups| == |q.groupBy| && |r.wheres| == |q.where| && |r.vals| == |q.sum|
    && (forall i :: 0 <= i < |q.groupBy| ==> IsValue(r.groups[i], q.groupBy[i], ccr.groupByClear, ccr.groupByEnc))
    && (forall i :: 0 <= i < |q.where| ==> IsValue(r.wheres[i], q.where[i].name, ccr.whereClear, ccr.whereEnc))
    && (forall c :: 0 <= c < |q.sum| ==>
          if count && q.sum[c] == "count" then r.vals[c] == 1
          else IsValue(r.vals[c], q.sum[c], ccr.aggregatingAttributesClear, ccr.aggregatingAttributesEnc))
  }

  lemma MeaningOf(ccr: DpClearResponse, count: bool, q: SurveyQuery)
    ensures RowOf(IntMeaning(ccr, count, Names(q)), ccr, count, q)
  {
    assert forall i :: 0 <= i < |q.where| ==> Names(q).where[i] == q.where[i].name;
  }

  /** How many rows some data providers hold, each row counted so many times. */
  function HeldRows(ccrs: seq<seq<DpClearResponse>>, times: nat): nat {
    if ccrs == [] then 0 else HeldRows(ccrs[..|ccrs| - 1], times) + Copies(|ccrs[|ccrs| - 1]|, times)
  }

  function HeldBy(clear: seq<seq<seq<DpClearResponse>>>, times: nat): nat {
    if clear == [] then 0 else HeldBy(clear[..|clear| - 1], times) + HeldRows(clear[|clear| - 1], times)
  }

  lemma {:induction false} ServerRowCount(ccrs: seq<seq<DpClearResponse>>, times: nat, count: bool, q: SurveyQuery)
    ensures |ServerRows(ccrs, times, count, q)| == HeldRows(ccrs, times)
  {
    if ccrs != [] {
      ServerRowCount(ccrs[..|ccrs| - 1], times, count, q);
      RepeatLength(ccrs[|ccrs| - 1], times);
    }
  }

  ghost predicate StandsAt<T>(rows: seq<T>, at: nat, r: T) {
    at < |rows| && rows[at] == r
  }

  lemma StillStands<T>(before: seq<T>, mine: seq<T>, whole: seq<T>, at: nat, r: T)
    requires before + mine <= whole && StandsAt(mine, at, r)
    ensures StandsAt(whole, |before| + at, r)
  {
  }

  lemma {:induction false} ServerRowsPrefix(ccrs: seq<seq<DpClearResponse>>, times: nat, count: bool, q: SurveyQuery, k: nat)
    requires k <= |ccrs|
    ensures ServerRows(ccrs[..k], times, count, q) <= ServerRows(ccrs, times, count, q)
    decreases |ccrs|
  {
    if k < |ccrs| {
      var before := ccrs[..|ccrs| - 1];
      assert before[..k] == ccrs[..k];
      ServerRowsPrefix(before, times, count, q, k);
    } else {
      assert ccrs[..k] == ccrs;
    }
  }

  lemma ServerRowsStep(ccrs: seq<seq<DpClearResponse>>, times: nat, count: bool, q: SurveyQuery, j: nat)
    requires j < |ccrs|
    ensures ServerRows(ccrs[..j + 1], times, count, q)
            == ServerRows(ccrs[..j], times, count, q) + IntMeanings(Repeat(ccrs[j], times), count, Names(q))
  {
    assert ccrs[..j + 1][..j] == ccrs[..j];
  }

  lemma ServerBlock(ccrs: seq<seq<DpClearResponse>>, times: nat, count: bool, q: SurveyQuery, j: nat)
    requires j < |ccrs|
    ensures ServerRows(ccrs[..j], times, count, q) + IntMeanings(Repeat(ccrs[j], times), count, Names(q)) <= ServerRows(ccrs, times, count, q)
  {
    ServerRowsStep(ccrs, times, count, q, j);
    ServerRowsPrefix(ccrs, times, count, q, j + 1);
  }

  lemma ProviderRowAt(ccrs: seq<DpClearResponse>, times: nat, count: bool, names: Attributes, i: nat, l: nat)
    requires i < |ccrs| && l < times
    ensures StandsAt(IntMeanings(Repeat(ccrs, times), count, names), Copies(i, times) + l, IntMeaning(ccrs[i], count, names))
  {
    RepeatAt(ccrs, times, i, l);
  }

  lemma ServerRowAt(ccrs: seq<seq<DpClearResponse>>, times: nat, count: bool, q: SurveyQuery, j: nat, i: nat, l: nat)
    requires j < |ccrs| && i < |ccrs[j]| && l < times
    ensures StandsAt(ServerRows(ccrs, times, count, q), HeldRows(ccrs[..j], times) + (Copies(i, times) + l), IntMeaning(ccrs[j][i], count, Names(q)))
  {
    ServerRowCount(ccrs[..j], times, count, q);
    ProviderRowAt(ccrs[j], times, count, Names(q), i, l);
    ServerBlock(ccrs, times, count, q, j);
    StillStands(ServerRows(ccrs[..j], times, count, q), IntMeanings(Repeat(ccrs[j], times), count, Names(q)),
                ServerRows(ccrs, times, count, q), Copies(i, times) + l, IntMeaning(ccrs[j][i], count, Names(q)));
  }

  lemma {:induction false} SurveyRowCount(clear: seq<seq<seq<DpClearResponse>>>, times: nat, count: bool, q: SurveyQuery)
    ensures |SurveyRows(clear, times, count, q)| == HeldBy(clear, times)
  {
    if clear != [] {
      SurveyRowCount(clear[..|clear| - 1], times, count, q);
      ServerRowCount(clear[|clear| - 1], times, count, q);
    }
  }

  lemma {:induction false} SurveyRowsPrefix(clear: seq<seq<seq<DpClearResponse>>>, times: nat, count: bool, q: SurveyQuery, k: nat)
    requires k <= |clear|
    ensures SurveyRows(clear[..k], times, count, q) <= SurveyRows(clear, times, count, q)
    decreases |clear|
  {
    if k < |clear| {
      var before := clear[..|clear| - 1];
      assert before[..k] == clear[..k];
      SurveyRowsPrefix(before, times, count, q, k);
    } else {
      assert clear[..k] == clear;
    }
  }

  lemma SurveyRowsStep(clear: seq<seq<seq<DpClearResponse>>>, times: nat, count: bool, q: SurveyQuery, s: nat)
    requires s < |clear|
    ensures SurveyRows(clear[..s + 1], times, count, q) == SurveyRows(clear[..s], times, count, q) + ServerRows(clear[s], times, count, q)
  {
    assert clear[..s + 1][..s] == clear[..s];
  }

  lemma SurveyBlock(clear: seq<seq<seq<DpClearResponse>>>, times: nat, count: bool, q: SurveyQuery, s: nat)
    requires s < |clear|
    ensures SurveyRows(clear[..s], times, count, q) + ServerRows(clear[s], times, count, q) <= SurveyRows(clear, times, count, q)
  {
    SurveyRowsStep(clear, times, count, q, s);
    SurveyRowsPrefix(clear, times, count, q, s + 1);
  }

  lemma RowStandsAt(clear: seq<seq<seq<DpClearResponse>>>, times: nat, count: bool, q: SurveyQuery, s: nat, j: nat, i: nat, l: nat)
    requires s < |clear| && j < |clear[s]| && i < |clear[s][j]| && l < times
    ensures StandsAt(SurveyRows(clear, times, count, q), HeldBy(clear[..s], times) + (HeldRows(clear[s][..j], times) + (Copies(i, times) + l)),
                     IntMeaning(clear[s][j][i], count, Names(q)))
  {
    SurveyRowCount(clear[..s], times, count, q);
    ServerRowAt(clear[s], times, count, q, j, i, l);
    SurveyBlock(clear, times, count, q, s);
    StillStands(SurveyRows(clear[..s], times, count, q), ServerRows(clear[s], times, count, q), SurveyRows(clear, times, count, q),
                HeldRows(clear[s][..j], times) + (Copies(i, times) + l), IntMeaning(clear[s][j][i], count, Names(q)));
  }

  /** What the rows of a survey are: row i of data provider j of server s so many times, each column read from the query's
      attribute of that position, and, by their number, nothing else. */
  lemma SurveyRowAt(clear: seq<seq<seq<DpClearResponse>>>, times: nat, count: bool, q: SurveyQuery, s: nat, j: nat, i: nat, l: nat)
    requires s < |clear| && j < |clear[s]| && i < |clear[s][j]| && l < times
    ensures var rows, at := SurveyRows(clear, times, count, q), HeldBy(clear[..s], times) + (HeldRows(clear[s][..j], times) + (Copies(i, times) + l));
            |rows| == HeldBy(clear, times) && at < |rows| && RowOf(rows[at], clear[s][j][i], count, q)
  {
    SurveyRowCount(clear, times, count, q);
    RowStandsAt(clear, times, count, q, s, j, i, l);
    MeaningOf(clear[s][j][i], count, q);
  }

  ghost predicate ServerSent(x: Scalar, ccrs: seq<seq<DpClearResponse>>, times: nat, count: bool, messages: seq<seq<DpResponseToSend>>) {
    |messages| == |ccrs| && forall j :: 0 <= j < |ccrs| ==> AllEncrypt(x, Repeat(ccrs[j], times), count, messages[j])
  }

  ghost predicate SurveySent(x: Scalar, clear: seq<seq<seq<DpClearResponse>>>, times: nat, count: bool, data: seq<seq<seq<DpResponseToSend>>>) {
    |data| == |clear| && forall i :: 0 <= i < |clear| ==> ServerSent(x, clear[i], times, count, data[i])
  }

  lemma MeaningsConcat(x: Scalar, a: seq<DpResponse>, b: seq<DpResponse>, q: Attributes)
    ensures Meanings(x, a + b, q) == Meanings(x, a, q) + Meanings(x, b, q)
  {
  }

  lemma PointRowsConcat(a: seq<IntRow>, b: seq<IntRow>)
    ensures PointRows(a + b) == PointRows(a) + PointRows(b)
  {
  }

  lemma {:induction false} ServerMeaning(servers: seq<Server>, q: SurveyQuery, ccrs: seq<seq<DpClearResponse>>, times: nat, count: bool,
                                         messages: seq<seq<DpResponseToSend>>)
    requires ServerSent(CollectiveKey(servers), ccrs, times, count, messages)
    ensures PlainRows(servers, q, messages) == PointRows(ServerRows(ccrs, times, count, q))
  {
    if ccrs != [] {
      var x, n := CollectiveKey(servers), |ccrs| - 1;
      ServerMeaning(servers, q, ccrs[..n], times, count, messages[..n]);
      SentMeanings(x, Repeat(ccrs[n], times), count, messages[n], Names(q));
      MeaningsConcat(x, Uploaded(messages[..n]), ParsedRows(messages[n]), Names(q));
      PointRowsConcat(ServerRows(ccrs[..n], times, count, q), IntMeanings(Repeat(ccrs[n], times), count, Names(q)));
    }
  }

  /** What the servers store is what the data providers hold. */
  lemma {:induction false} SurveyMeaning(servers: seq<Server>, q: SurveyQuery, clear: seq<seq<seq<DpClearResponse>>>, times: nat, count: bool,
                                         data: seq<seq<seq<DpResponseToSend>>>)
    requires SurveySent(CollectiveKey(servers), clear, times, count, data)
    ensures AllRows(servers, q, data) == PointRows(SurveyRows(clear, times, count, q))
  {
    if clear != [] {
      var n := |clear| - 1;
      SurveyMeaning(servers, q, clear[..n], times, count, data[..n]);
      ServerMeaning(servers, q, clear[n], times, count, data[n]);
      assert AllPlain(servers, q, data)[..n] == AllPlain(servers, q, data[..n]);
      PointRowsConcat(SurveyRows(clear[..n], times, count, q), ServerRows(clear[n], times, count, q));
    }
  }

  /** What some data providers send: their rows, sealed under the key with what they draw, and repeated. */
  ghost predicate ServerSealed(ccrs: seq<seq<DpClearResponse>>, times: nat, count: bool, groupKey: Point, draws: nat -> nat -> RowDraws,
                               rows: seq<seq<DpResponseToSend>>, messages: seq<seq<DpResponseToSend>>) {
    && |rows| == |messages| == |ccrs|
    && forall j :: 0 <= j < |ccrs| ==> MessageSealed(ccrs[j], times, count, groupKey, draws(j), rows[j], messages[j])
  }

  method SendServer(ccrs: seq<seq<DpClearResponse>>, groupKey: Point, times: nat, count: bool, draws: nat -> nat -> RowDraws, ghost x: Scalar)
    returns (messages: seq<seq<DpResponseToSend>>, ghost rows: seq<seq<DpResponseToSend>>)
    requires groupKey == Mul(x, Base)
    ensures ServerSent(x, ccrs, times, count, messages) && ServerSealed(ccrs, times, count, groupKey, draws, rows, messages)
  {
    messages, rows := [], [];
    for j := 0 to |ccrs|
      invariant |messages| == |rows| == j && forall l :: 0 <= l < j ==> AllEncrypt(x, Repeat(ccrs[l], times), count, messages[l])
      invariant forall l :: 0 <= l < j ==> MessageSealed(ccrs[l], times, count, groupKey, draws(l), rows[l], messages[l])
    {
      var message;
      ghost var sealed;
      message, sealed := EncryptDataToSurvey(ccrs[j], groupKey, times, count, draws(j), x);
      messages, rows := messages + [message], rows + [sealed];
    }
  }

  /** What the data providers of all servers send. */
  ghost predicate SurveySealed(clear: seq<seq<seq<DpClearResponse>>>, times: nat, count: bool, groupKey: Point,
                               draws: nat -> nat -> nat -> RowDraws, rows: seq<seq<seq<DpResponseToSend>>>, data: seq<seq<seq<DpResponseToSend>>>) {
    && |rows| == |data| == |clear|
    && forall i :: 0 <= i < |clear| ==> ServerSealed(clear[i], times, count, groupKey, draws(i), rows[i], data[i])
  }

  method SendAll(clear: seq<seq<seq<DpClearResponse>>>, groupKey: Point, times: nat, count: bool, draws: nat -> nat -> nat -> RowDraws,
                 ghost x: Scalar)
    returns (data: seq<seq<seq<DpResponseToSend>>>, ghost rows: seq<seq<seq<DpResponseToSend>>>)
    requires groupKey == Mul(x, Base)
    ensures SurveySent(x, clear, times, count, data) && SurveySealed(clear, times, count, groupKey, draws, rows, data)
  {
    data, rows := [], [];
    for i := 0 to |clear|
      invariant |data| == |rows| == i && forall l :: 0 <= l < i ==> ServerSent(x, clear[l], times, count, data[l])
      invariant forall l :: 0 <= l < i ==> ServerSealed(clear[l], times, count, groupKey, draws(l), rows[l], data[l])
    {
      var messages;
      ghost var sealed;
      messages, sealed := SendServer(clear[i], groupKey, times, count, draws(i), x);
      data, rows := data + [messages], rows + [sealed];
    }
  }

  // ---------- decryption of the results ----------

  /** DecryptInt on every element in turn. */
  method DecryptIntVector(table: DecryptionTable, prikey: Scalar, cipherVector: CipherVector) returns (result: seq<int>)
    requires table.Valid()
    modifies table
    ensures table.Valid() && (table.Contents(), result) == LookupAll(old(table.Contents()), OpenVector(prikey, cipherVector))
    ensures |result| == |cipherVector|
    ensures forall i, m :: 0 <= i < |result| && 0 <= m < MaxHomomorphicInt && Open(prikey, cipherVector[i]) == IntToPoint(m) ==> result[i] == m
  {
    result := [];
    ghost var points := OpenVector(prikey, cipherVector);
    for i := 0 to |cipherVector|
      invariant table.Valid() && |result| == i && (table.Contents(), result) == LookupAll(old(table.Contents()), points[..i])
    {
      var v := table.Decrypt(prikey, cipherVector[i], false);
      assert points[..i + 1][..i] == points[..i];
      result := result + [v];
    }
    assert points[..|points|] == points;
    forall i, m | 0 <= i < |result| && 0 <= m < MaxHomomorphicInt && Open(prikey, cipherVector[i]) == IntToPoint(m) ensures result[i] == m {
      AllFound(old(table.Contents()), points, i, m);
    }
  }

  lemma DecryptedIs(prikey: Scalar, cv: CipherVector, result: seq<int>, ints: seq<int>)
    requires |result| == |cv| && AllDecodable(ints) && OpenVector(prikey, cv) == IntPoints(ints)
    requires forall i, m :: 0 <= i < |result| && 0 <= m < MaxHomomorphicInt && Open(prikey, cv[i]) == IntToPoint(m) ==> result[i] == m
    ensures result == ints
  {
    assert |ints| == |IntPoints(ints)| == |cv|;
    forall i | 0 <= i < |result| ensures result[i] == ints[i] {
      assert OpenVector(prikey, cv)[i] == IntPoints(ints)[i];
    }
  }

  /** Decrypting a delivered response gives these integers. */
  ghost predicate Decodes(y: Scalar, fr: FilteredResponse, g: seq<int>, sums: seq<int>) {
    AllDecodable(g) && AllDecodable(sums) && OpenVector(y, fr.groupByEnc) == IntPoints(g) && OpenVector(y, fr.aggregatingAttributes) == IntPoints(sums)
  }

  method DecryptResult(table: DecryptionTable, prikey: Scalar, res: FilteredResponse, ghost g: seq<int>, ghost s: seq<int>)
    returns (group: seq<int>, sums: seq<int>)
    requires table.Valid() && Decodes(prikey, res, g, s)
    modifies table
    ensures table.Valid() && group == g && sums == s
  {
    group := DecryptIntVector(table, prikey, res.groupByEnc);
    DecryptedIs(prikey, res.groupByEnc, group, g);
    sums := DecryptIntVector(table, prikey, res.aggregatingAttributes);
    DecryptedIs(prikey, res.aggregatingAttributes, sums, s);
  }

  method DecryptResults(table: DecryptionTable, prikey: Scalar, results: seq<FilteredResponse>, ghost gs: seq<seq<int>>, ghost ss: seq<seq<int>>)
    returns (grp: seq<seq<int>>, aggr: seq<seq<int>>)
    requires table.Valid() && |gs| == |ss| == |results|
    requires forall i :: 0 <= i < |results| ==> Decodes(prikey, results[i], gs[i], ss[i])
    modifies table
    ensures table.Valid() && grp == gs && aggr == ss
  {
    grp, aggr := [], [];
    for i := 0 to |results|
      invariant table.Valid() && grp == gs[..i] && aggr == ss[..i]
    {
      var g, s := DecryptResult(table, prikey, results[i], gs[i], ss[i]);
      grp, aggr := grp + [g], aggr + [s];
    }
  }

  // ---------- what the results are ----------

  function GroupSums(rows: seq<IntRow>, q: SurveyQuery, values: seq<int>, g: seq<int>): (r: seq<int>)
    ensures |r| == |q.sum| && forall c :: 0 <= c < |q.sum| ==> r[c] == GroupSum(rows, q, values, g, c)
  {
    seq(|q.sum|, c requires 0 <= c < |q.sum| => GroupSum(rows, q, values, g, c))
  }

  /** Every key of the answer is the key of exactly one occurring group, whose values and sums its entry holds. */
  lemma EntryMeaning(servers: seq<Server>, q: SurveyQuery, values: seq<int>, rows: seq<IntRow>, m: Grouped, k: GroupingKey)
    returns (g: seq<int>)
    requires SecretsNonzero(servers) && QueryValues(servers, q, values) && GoodRows(rows, q, values) && DecodableSums(rows, q, values)
    requires Answers(servers, q, m, PointRows(rows)) && k in m
    ensures Occurs(rows, q, values, g) && AllDecodable(g) && k == GroupTag(servers, IntPoints(g))
    ensures AllDecodable(GroupSums(rows, q, values, g))
    ensures OpenVector(CollectiveKey(servers), m[k].groupByEnc) == IntPoints(g)
    ensures OpenVector(CollectiveKey(servers), m[k].aggregatingAttributes) == IntPoints(GroupSums(rows, q, values, g))
  {
    var x := CollectiveKey(servers);
    g := KeyGroup(servers, q, values, rows, m, k);
    assert RightEntry(servers, q, k, m[k]);
    GroupTagInjective(servers, OpenVector(x, m[k].groupByEnc), IntPoints(g));
    forall c: nat | c < |q.sum| ensures OpenVector(x, m[k].aggregatingAttributes)[c] == IntToPoint(GroupSum(rows, q, values, g, c)) {
      KeyedTotal(servers, q, values, rows, g, c);
      assert At(Get(OpenedMap(x, m), k), c) == Total(KeyedRows(servers, q, rows), k, c);
    }
  }

  lemma KeyGroup(servers: seq<Server>, q: SurveyQuery, values: seq<int>, rows: seq<IntRow>, m: Grouped, k: GroupingKey) returns (g: seq<int>)
    requires SecretsNonzero(servers) && QueryValues(servers, q, values) && GoodRows(rows, q, values)
    requires Answers(servers, q, m, PointRows(rows)) && k in m
    ensures Occurs(rows, q, values, g) && AllDecodable(g) && k == GroupTag(servers, IntPoints(g))
  {
    assert k in OpenedMap(CollectiveKey(servers), m);
    assert Has(KeyedRows(servers, q, rows), k);
    HasRegroup(PointRows(rows), Grouping(servers, q), k);
    var i :| 0 <= i < |rows| && Grouping(servers, q)(PointRows(rows)[i].key) == Some(k);
    g := rows[i].groups;
    SelectedIntegers(servers, q, values, rows[i]);
    KeyedIff(servers, q, values, rows[i], g);
  }

  /** The results are the answer: every listed group occurs, with its sums; every occurring group is listed, once. */
  ghost predicate IsAnswer(rows: seq<IntRow>, q: SurveyQuery, values: seq<int>, grp: seq<seq<int>>, aggr: seq<seq<int>>) {
    && |grp| == |aggr|
    && (forall i :: 0 <= i < |grp| ==> Occurs(rows, q, values, grp[i]) && aggr[i] == GroupSums(rows, q, values, grp[i]))
    && (forall g :: Occurs(rows, q, values, g) ==> g in grp)
    && (forall i, j :: 0 <= i < j < |grp| ==> grp[i] != grp[j])
  }

  /** Entry i of the listing is the key of group i. */
  ghost predicate Keyed(servers: seq<Server>, gs: seq<seq<int>>, ks: seq<GroupingKey>) {
    |gs| <= |ks| && forall i :: 0 <= i < |gs| ==> AllDecodable(gs[i]) && ks[i] == GroupTag(servers, IntPoints(gs[i]))
  }

  lemma OccurringDecodable(rows: seq<IntRow>, q: SurveyQuery, values: seq<int>, g: seq<int>)
    requires GoodRows(rows, q, values) && Occurs(rows, q, values, g)
    ensures AllDecodable(g)
  {
  }

  lemma ListedAnswer(servers: seq<Server>, q: SurveyQuery, values: seq<int>, rows: seq<IntRow>, m: Grouped, ks: seq<GroupingKey>,
                     gs: seq<seq<int>>, ss: seq<seq<int>>)
    requires SecretsNonzero(servers) && QueryValues(servers, q, values) && GoodRows(rows, q, values)
    requires Answers(servers, q, m, PointRows(rows)) && Lists(ks, m.Keys) && Keyed(servers, gs, ks) && |gs| == |ss| == |ks|
    requires forall i :: 0 <= i < |gs| ==> Occurs(rows, q, values, gs[i]) && ss[i] == GroupSums(rows, q, values, gs[i])
    ensures IsAnswer(rows, q, values, gs, ss)
  {
    forall g | Occurs(rows, q, values, g) ensures g in gs {
      OccurringDecodable(rows, q, values, g);
      KeyedHas(servers, q, values, rows, g);
      var k := GroupTag(servers, IntPoints(g));
      assert k in OpenedMap(CollectiveKey(servers), m);
      assert k in ks;
      var i :| 0 <= i < |ks| && ks[i] == k;
      GroupTagInjective(servers, IntPoints(gs[i]), IntPoints(g));
      DecodablePoints(gs[i], g);
    }
  }

  /** Group g with its sums is what entry i of the results decrypts to. */
  ghost predicate EntryIs(servers: seq<Server>, q: SurveyQuery, values: seq<int>, rows: seq<IntRow>, k: GroupingKey,
                          fr: FilteredResponse, y: Scalar, g: seq<int>, sums: seq<int>) {
    && Occurs(rows, q, values, g) && sums == GroupSums(rows, q, values, g)
    && k == GroupTag(servers, IntPoints(g)) && Decodes(y, fr, g, sums)
  }

  /** A finished survey over decodable rows. */
  ghost predicate Finished(servers: seq<Server>, q: SurveyQuery, values: seq<int>, rows: seq<IntRow>, m: Grouped, ks: seq<GroupingKey>,
                           results: seq<FilteredResponse>, y: Scalar) {
    && SecretsNonzero(servers) && QueryValues(servers, q, values) && GoodRows(rows, q, values) && DecodableSums(rows, q, values)
    && Answers(servers, q, m, PointRows(rows)) && Delivers(CollectiveKey(servers), y, m, ks, results)
  }

  lemma DeliveredEntry(servers: seq<Server>, q: SurveyQuery, values: seq<int>, rows: seq<IntRow>, m: Grouped, ks: seq<GroupingKey>,
                       results: seq<FilteredResponse>, y: Scalar, i: nat)
    returns (g: seq<int>)
    requires Finished(servers, q, values, rows, m, ks, results, y) && i < |ks|
    ensures |results| == |ks| && EntryIs(servers, q, values, rows, ks[i], results[i], y, g, GroupSums(rows, q, values, g))
  {
    g := EntryMeaning(servers, q, values, rows, m, ks[i]);
  }

  /** The first entries of the results, decrypted. */
  ghost predicate EntriesAre(servers: seq<Server>, q: SurveyQuery, values: seq<int>, rows: seq<IntRow>, ks: seq<GroupingKey>,
                          results: seq<FilteredResponse>, y: Scalar, gs: seq<seq<int>>, ss: seq<seq<int>>) {
    && |gs| == |ss| <= |ks| == |results|
    && forall i :: 0 <= i < |gs| ==> EntryIs(servers, q, values, rows, ks[i], results[i], y, gs[i], ss[i])
  }

  lemma OneMoreEntry(servers: seq<Server>, q: SurveyQuery, values: seq<int>, rows: seq<IntRow>, ks: seq<GroupingKey>,
                     results: seq<FilteredResponse>, y: Scalar, gs: seq<seq<int>>, ss: seq<seq<int>>, g: seq<int>, sums: seq<int>)
    requires EntriesAre(servers, q, values, rows, ks, results, y, gs, ss) && |gs| < |ks|
    requires EntryIs(servers, q, values, rows, ks[|gs|], results[|gs|], y, g, sums)
    ensures EntriesAre(servers, q, values, rows, ks, results, y, gs + [g], ss + [sums])
  {
  }

  lemma NextEntry(servers: seq<Server>, q: SurveyQuery, values: seq<int>, rows: seq<IntRow>, m: Grouped, ks: seq<GroupingKey>,
                  results: seq<FilteredResponse>, y: Scalar, gs: seq<seq<int>>, ss: seq<seq<int>>)
    returns (g: seq<int>, sums: seq<int>)
    requires Finished(servers, q, values, rows, m, ks, results, y)
    requires EntriesAre(servers, q, values, rows, ks, results, y, gs, ss) && |gs| < |ks|
    ensures EntriesAre(servers, q, values, rows, ks, results, y, gs + [g], ss + [sums])
  {
    g := DeliveredEntry(servers, q, values, rows, m, ks, results, y, |gs|);
    sums := GroupSums(rows, q, values, g);
    OneMoreEntry(servers, q, values, rows, ks, results, y, gs, ss, g, sums);
  }

  lemma {:induction false} DecryptedEntries(servers: seq<Server>, q: SurveyQuery, values: seq<int>, rows: seq<IntRow>, m: Grouped, ks: seq<GroupingKey>,
                                            results: seq<FilteredResponse>, y: Scalar, n: nat)
    returns (gs: seq<seq<int>>, ss: seq<seq<int>>)
    requires Finished(servers, q, values, rows, m, ks, results, y) && n <= |ks|
    ensures |gs| == n && EntriesAre(servers, q, values, rows, ks, results, y, gs, ss)
  {
    if n == 0 {
      gs, ss := [], [];
    } else {
      gs, ss := DecryptedEntries(servers, q, values, rows, m, ks, results, y, n - 1);
      var g, sums := NextEntry(servers, q, values, rows, m, ks, results, y, gs, ss);
      gs, ss := gs + [g], ss + [sums];
    }
  }

  /** The groups and sums the delivered responses decrypt to. */
  lemma DeliveredMeaning(servers: seq<Server>, q: SurveyQuery, values: seq<int>, rows: seq<IntRow>, m: Grouped, ks: seq<GroupingKey>,
                         results: seq<FilteredResponse>, y: Scalar)
    returns (gs: seq<seq<int>>, ss: seq<seq<int>>)
    requires Finished(servers, q, values, rows, m, ks, results, y)
    ensures |gs| == |ss| == |results| && forall i :: 0 <= i < |results| ==> Decodes(y, results[i], gs[i], ss[i])
    ensures IsAnswer(rows, q, values, gs, ss)
  {
    gs, ss := DecryptedEntries(servers, q, values, rows, m, ks, results, y, |ks|);
    EntriesAnswer(servers, q, values, rows, m, ks, results, y, gs, ss);
  }

  lemma EntriesAnswer(servers: seq<Server>, q: SurveyQuery, values: seq<int>, rows: seq<IntRow>, m: Grouped, ks: seq<GroupingKey>,
                      results: seq<FilteredResponse>, y: Scalar, gs: seq<seq<int>>, ss: seq<seq<int>>)
    requires SecretsNonzero(servers) && QueryValues(servers, q, values) && GoodRows(rows, q, values)
    requires Answers(servers, q, m, PointRows(rows)) && Lists(ks, m.Keys)
    requires |gs| == |ks| && EntriesAre(servers, q, values, rows, ks, results, y, gs, ss)
    ensures forall i :: 0 <= i < |results| ==> Decodes(y, results[i], gs[i], ss[i])
    ensures IsAnswer(rows, q, values, gs, ss)
  {
    forall i | 0 <= i < |gs|
      ensures Decodes(y, results[i], gs[i], ss[i]) && ks[i] == GroupTag(servers, IntPoints(gs[i]))
              && Occurs(rows, q, values, gs[i]) && ss[i] == GroupSums(rows, q, values, gs[i])
    {
      assert EntryIs(servers, q, values, rows, ks[i], results[i], y, gs[i], ss[i]);
    }
    ListedAnswer(servers, q, values, rows, m, ks, gs, ss);
  }

  // ---------- sizes and lengths ----------

  /** The groups of the selected rows. */
  function GroupSet(rows: seq<IntRow>, q: SurveyQuery, values: seq<int>): set<seq<int>> {
    set i | 0 <= i < |rows| && IntSelected(q, values, rows[i]) :: rows[i].groups
  }

  /** The result ciphertexts can be counted in 32 bits. */
  predicate FewEnough(rows: seq<IntRow>, q: SurveyQuery, values: seq<int>) {
    FitMessage(|GroupSet(rows, q, values)|, q)
  }

  /** Every key is the image of some group. */
  ghost predicate Covered(gs: set<seq<int>>, ks: set<GroupingKey>, key: seq<int> -> GroupingKey) {
    forall k :: k in ks ==> exists g :: g in gs && k == key(g)
  }

  lemma {:induction false} ImageSize(gs: set<seq<int>>, ks: set<GroupingKey>, key: seq<int> -> GroupingKey)
    requires Covered(gs, ks, key)
    ensures |ks| <= |gs|
    decreases |ks|
  {
    if ks != {} {
      HasMember(ks);
      var k :| k in ks;
      var g :| g in gs && k == key(g);
      forall k' | k' in ks - {k} ensures exists g' :: g' in gs - {g} && k' == key(g') {
        var g' :| g' in gs && k' == key(g');
      }
      ImageSize(gs - {g}, ks - {k}, key);
    }
  }

  lemma KeyOfGroup(servers: seq<Server>, q: SurveyQuery, values: seq<int>, rows: seq<IntRow>, k: GroupingKey) returns (g: seq<int>)
    requires QueryValues(servers, q, values) && GoodRows(rows, q, values) && k in Groups(KeyedRows(servers, q, rows))
    ensures g in GroupSet(rows, q, values) && k == GroupTag(servers, IntPoints(g))
  {
    GroupHas(KeyedRows(servers, q, rows), k);
    HasRegroup(PointRows(rows), Grouping(servers, q), k);
    var i :| 0 <= i < |rows| && Grouping(servers, q)(PointRows(rows)[i].key) == Some(k);
    SelectedIntegers(servers, q, values, rows[i]);
    g := rows[i].groups;
  }

  /** There are no more keys than groups. */
  lemma FewKeys(servers: seq<Server>, q: SurveyQuery, values: seq<int>, rows: seq<IntRow>)
    requires QueryValues(servers, q, values) && GoodRows(rows, q, values)
    ensures |Groups(KeyedRows(servers, q, rows))| <= |GroupSet(rows, q, values)|
  {
    var key := (g: seq<int>) => GroupTag(servers, IntPoints(g));
    forall k | k in Groups(KeyedRows(servers, q, rows)) ensures exists g :: g in GroupSet(rows, q, values) && k == key(g) {
      var g := KeyOfGroup(servers, q, values, rows, k);
    }
    ImageSize(GroupSet(rows, q, values), Groups(KeyedRows(servers, q, rows)), key);
  }

  lemma FewEnoughRows(servers: seq<Server>, q: SurveyQuery, values: seq<int>, rows: seq<IntRow>, data: seq<seq<seq<DpResponseToSend>>>)
    requires QueryValues(servers, q, values) && GoodRows(rows, q, values)
    requires FewEnough(rows, q, values) && AllRows(servers, q, data) == PointRows(rows)
    ensures Deliverable(servers, q, data)
  {
    FewKeys(servers, q, values, rows);
    FewerFit(|Groups(KeyedRows(servers, q, rows))|, |GroupSet(rows, q, values)|, q);
  }

  predicate SomeSelected(rows: seq<IntRow>, q: SurveyQuery, values: seq<int>) {
    exists i :: 0 <= i < |rows| && IntSelected(q, values, rows[i])
  }

  /** The servers that hold a selected row. */
  function SelectingServers(clear: seq<seq<seq<DpClearResponse>>>, times: nat, count: bool, q: SurveyQuery, values: seq<int>): set<nat> {
    set i: nat | i < |clear| && SomeSelected(ServerRows(clear[i], times, count, q), q, values)
  }

  lemma KeyedSome(servers: seq<Server>, q: SurveyQuery, values: seq<int>, rows: seq<IntRow>)
    requires QueryValues(servers, q, values) && GoodRows(rows, q, values)
    ensures KeyedRows(servers, q, rows) != [] <==> SomeSelected(rows, q, values)
  {
    RegroupSome(PointRows(rows), Grouping(servers, q));
    forall i | 0 <= i < |rows|
      ensures Grouping(servers, q)(PointRows(rows)[i].key).Some? <==> IntSelected(q, values, rows[i])
    {
      SelectedIntegers(servers, q, values, rows[i]);
    }
  }

  lemma {:induction false} ServerRowsGood(clear: seq<seq<seq<DpClearResponse>>>, times: nat, count: bool, q: SurveyQuery, values: seq<int>, i: nat)
    requires GoodRows(SurveyRows(clear, times, count, q), q, values) && i < |clear|
    ensures GoodRows(ServerRows(clear[i], times, count, q), q, values)
    decreases |clear|
  {
    var n := |clear| - 1;
    GoodParts(SurveyRows(clear[..n], times, count, q), ServerRows(clear[n], times, count, q), q, values);
    if i < n {
      ServerRowsGood(clear[..n], times, count, q, values, i);
    }
  }

  lemma GoodParts(a: seq<IntRow>, b: seq<IntRow>, q: SurveyQuery, values: seq<int>)
    requires GoodRows(a + b, q, values)
    ensures GoodRows(a, q, values) && GoodRows(b, q, values)
  {
    forall i | 0 <= i < |a| ensures GoodRow(q, values, a[i]) {
      assert (a + b)[i] == a[i];
    }
    forall i | 0 <= i < |b| ensures GoodRow(q, values, b[i]) {
      assert (a + b)[|a| + i] == b[i];
    }
  }

  /** The servers with a group to send are those that hold a selected row. */
  lemma SelectingMeaning(servers: seq<Server>, q: SurveyQuery, values: seq<int>, clear: seq<seq<seq<DpClearResponse>>>, times: nat, count: bool,
                         data: seq<seq<seq<DpResponseToSend>>>)
    requires QueryValues(servers, q, values) && GoodRows(SurveyRows(clear, times, count, q), q, values)
    requires SurveySent(CollectiveKey(servers), clear, times, count, data)
    ensures BusyServers(KeyedTables(servers, q, data)) == SelectingServers(clear, times, count, q, values)
  {
    forall i: nat | i < |clear|
      ensures KeyedTables(servers, q, data)[i] != [] <==> SomeSelected(ServerRows(clear[i], times, count, q), q, values)
    {
      ServerRowsGood(clear, times, count, q, values, i);
      ServerMeaning(servers, q, clear[i], times, count, data[i]);
      KeyedSome(servers, q, values, ServerRows(clear[i], times, count, q));
    }
  }

  /** Everything that is sent in a survey: the data providers' rows and messages, what passes at the servers, the results. */
  datatype Transcript = Transcript(sealed: seq<seq<seq<DpResponseToSend>>>, data: seq<seq<seq<DpResponseToSend>>>, trace: Trace,
                                   results: seq<FilteredResponse>)

  /** It is all made with what is drawn: attributes are sealed under the collective key, rows mixed at every server, and the
      results encrypted under the querier's key. */
  ghost predicate MadeAsDrawn(servers: seq<Server>, q: SurveyQuery, clear: seq<seq<seq<DpClearResponse>>>, times: nat, count: bool,
                              rings: seq<Rings>, upload: nat -> nat -> nat -> RowDraws, draws: SurveyDraws, y: Scalar, sent: Transcript) {
    var h := Mul(CollectiveKey(servers), Base);
    && SurveySealed(clear, times, count, h, upload, sent.sealed, sent.data)
    && AllRan(servers, q, sent.data, rings, draws, h, sent.trace)
    && Delivered(servers, q, sent.data, y, draws.switching, sent.results)
  }

  /** The main theorem. Data providers hold integer rows, any attribute clear or to be encrypted; the querier encrypts the
      where values it compares with. Whatever the servers, their nonzero secrets, the rings and trees, the arrival orders
      and the randomness, and whatever the decryption table was used for before, what the querier decrypts is the plaintext
      SELECT SUM ... WHERE ... GROUP BY over all rows of all servers, provided the selected rows' group values and the group
      sums are in the decryptable range, and length messages of the aggregation meet data they do for. */
  method AnswerQuery(q: SurveyQuery, values: seq<int>, servers: seq<Server>, root: nat, clear: seq<seq<seq<DpClearResponse>>>,
                     times: nat, count: bool, rings: seq<Rings>, trees: Trees, upload: nat -> nat -> nat -> RowDraws, draws: SurveyDraws,
                     table: DecryptionTable, prikey: Scalar)
    returns (grp: seq<seq<int>>, aggr: seq<seq<int>>, ghost sent: Transcript)
    requires Askable(q) && SecretsNonzero(servers) && root < |servers| == |clear|
    requires AllRingsFit(rings, |servers|) && TreesFit(trees, |servers|) && table.Valid()
    requires QueryValues(servers, q, values)
    requires var rows := SurveyRows(clear, times, count, q);
             GoodRows(rows, q, values) && DecodableSums(rows, q, values) && FewEnough(rows, q, values)
    requires WellPaired(trees.aggregation, SelectingServers(clear, times, count, q, values))
    modifies table
    ensures IsAnswer(SurveyRows(clear, times, count, q), q, values, grp, aggr)
    ensures MadeAsDrawn(servers, q, clear, times, count, rings, upload, draws, prikey, sent)
  {
    ghost var x, rows := CollectiveKey(servers), SurveyRows(clear, times, count, q);
    var aggregate := AggregateKey(PublicKeys(Keys(servers)));
    AggregateIsPublic(Keys(servers));
    var data, results;
    ghost var sealed, trace;
    data, sealed := SendAll(clear, aggregate, times, count, upload, x);
    SurveyMeaning(servers, q, clear, times, count, data);
    FewEnoughRows(servers, q, values, rows, data);
    SelectingMeaning(servers, q, values, clear, times, count, data);
    results, trace := RunSurvey(q, servers, root, data, rings, trees, draws, aggregate, Mul(prikey, Base), prikey);
    sent := Transcript(sealed, data, trace, results);
    ghost var m, ks :| Answers(servers, q, m, AllRows(servers, q, data)) && Delivers(CollectiveKey(servers), prikey, m, ks, results);
    ghost var gs, ss := DeliveredMeaning(servers, q, values, rows, m, ks, results, prikey);
    grp, aggr := DecryptResults(table, prikey, results, gs, ss);
  }
}
