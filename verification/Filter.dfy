/** Filtering tagged rows by the query's predicate (services/service.go). */
module Filter {
  import opened Responses
  import opened Decimal
  import opened Strings

  /** A predicate over the variables v0, v1, ...: the even ones are the query's values, the odd ones the row's. */
  datatype Predicate =
    | Eq(left: nat, right: nat)
    | Neq(left: nat, right: nat)
    | And(p: Predicate, q: Predicate)
    | Or(p: Predicate, q: Predicate)

  /** Only the variables of n where attributes occur. */
  predicate Scoped(pred: Predicate, n: nat) {
    match pred
    case Eq(l, r) => l < 2 * n && r < 2 * n
    case Neq(l, r) => l < 2 * n && r < 2 * n
    case And(p, q) => Scoped(p, n) && Scoped(q, n)
    case Or(p, q) => Scoped(p, n) && Scoped(q, n)
  }

  /** What the predicate means for query values qs and row values rs. */
  function Variable<T>(i: nat, qs: seq<T>, rs: seq<T>): T
    requires |qs| == |rs| && i < 2 * |qs|
  {
    if i % 2 == 0 then qs[i / 2] else rs[i / 2]
  }

  predicate Holds<T(==)>(pred: Predicate, qs: seq<T>, rs: seq<T>)
    requires |qs| == |rs| && Scoped(pred, |qs|)
  {
    match pred
    case Eq(l, r) => Variable(l, qs, rs) == Variable(r, qs, rs)
    case Neq(l, r) => Variable(l, qs, rs) != Variable(r, qs, rs)
    case And(p, q) => Holds(p, qs, rs) && Holds(q, qs, rs)
    case Or(p, q) => Holds(p, qs, rs) || Holds(q, qs, rs)
  }

  /** What comparing two variables means: variable 2 * i is query value i, variable 2 * i + 1 is the row's value i. */
  lemma ComparisonMeans<T>(qs: seq<T>, rs: seq<T>, i: nat, j: nat)
    requires |qs| == |rs| && i < |qs| && j < |qs|
    ensures Holds(Eq(2 * i, 2 * j + 1), qs, rs) <==> qs[i] == rs[j]
    ensures Holds(Eq(2 * i + 1, 2 * j), qs, rs) <==> rs[i] == qs[j]
    ensures Holds(Eq(2 * i, 2 * j), qs, rs) <==> qs[i] == qs[j]
    ensures Holds(Eq(2 * i + 1, 2 * j + 1), qs, rs) <==> rs[i] == rs[j]
  {
    assert (2 * i) / 2 == i && (2 * i + 1) / 2 == i && (2 * j) / 2 == j && (2 * j + 1) / 2 == j;
  }

  /** Two readings of the same variables agree on equality. */
  ghost predicate SameEqualities<S, T>(qs: seq<S>, rs: seq<S>, qt: seq<T>, rt: seq<T>)
    requires |qs| == |rs| == |qt| == |rt|
  {
    forall i: nat, j: nat :: i < 2 * |qs| && j < 2 * |qs| ==>
      (Variable(i, qs, rs) == Variable(j, qs, rs) <==> Variable(i, qt, rt) == Variable(j, qt, rt))
  }

  /** A predicate sees nothing but equalities, so tags decide it exactly as plaintexts do. */
  lemma {:induction false} SameVerdict<S, T>(pred: Predicate, qs: seq<S>, rs: seq<S>, qt: seq<T>, rt: seq<T>)
    requires |qs| == |rs| == |qt| == |rt| && Scoped(pred, |qs|) && SameEqualities(qs, rs, qt, rt)
    ensures Holds(pred, qs, rs) == Holds(pred, qt, rt)
  {
    match pred
    case Eq(l, r) =>
    case Neq(l, r) =>
    case And(p, q) =>
      SameVerdict(p, qs, rs, qt, rt);
      SameVerdict(q, qs, rs, qt, rt);
    case Or(p, q) =>
      SameVerdict(p, qs, rs, qt, rt);
      SameVerdict(q, qs, rs, qt, rt);
  }

  // ---------- evaluation by name ----------

  function Name(i: nat): string {
    "v" + Itoa(i)
  }

  /** The names of the first variables. */
  lemma NameIs(i: nat)
    requires i < 10
    ensures Name(i) == ['v', "0123456789"[i]]
  {
    ItoaIs(i);
  }

  lemma NameInjective(i: nat, j: nat)
    ensures Name(i) == Name(j) <==> i == j
  {
    ItoaInjective(i, j);
    assert Name(i)[1..] == Itoa(i) && Name(j)[1..] == Itoa(j);
  }

  type Parameters = map<string, GroupingKey>

  predicate Bound(pred: Predicate, parameters: Parameters) {
    match pred
    case Eq(l, r) => Name(l) in parameters && Name(r) in parameters
    case Neq(l, r) => Name(l) in parameters && Name(r) in parameters
    case And(p, q) => Bound(p, parameters) && Bound(q, parameters)
    case Or(p, q) => Bound(p, parameters) && Bound(q, parameters)
  }

  predicate Evaluate(pred: Predicate, parameters: Parameters)
    requires Bound(pred, parameters)
  {
    match pred
    case Eq(l, r) => parameters[Name(l)] == parameters[Name(r)]
    case Neq(l, r) => parameters[Name(l)] != parameters[Name(r)]
    case And(p, q) => Evaluate(p, parameters) && Evaluate(q, parameters)
    case Or(p, q) => Evaluate(p, parameters) || Evaluate(q, parameters)
  }

  /** The parameters hold the first m variables. */
  ghost predicate Holding(parameters: Parameters, m: nat, qs: seq<GroupingKey>, rs: seq<GroupingKey>)
    requires |qs| == |rs| && m <= 2 * |qs|
  {
    forall i: nat :: i < m ==> Name(i) in parameters && parameters[Name(i)] == Variable(i, qs, rs)
  }

  lemma HoldingStep(parameters: Parameters, m: nat, qs: seq<GroupingKey>, rs: seq<GroupingKey>)
    requires |qs| == |rs| && m < 2 * |qs| && Holding(parameters, m, qs, rs)
    ensures Holding(parameters[Name(m) := Variable(m, qs, rs)], m + 1, qs, rs)
  {
    var more := parameters[Name(m) := Variable(m, qs, rs)];
    forall i: nat | i < m + 1 ensures Name(i) in more && more[Name(i)] == Variable(i, qs, rs) {
      NameInjective(i, m);
    }
  }

  /** The parameters of one row: query value and row value in turn. The number of row values is that of the first row. */
  method BuildParameters(qs: seq<GroupingKey>, rs: seq<GroupingKey>, firstWidth: nat) returns (parameters: Parameters)
    requires |qs| == |rs| == firstWidth
    ensures Holding(parameters, 2 * |qs|, qs, rs)
  {
    parameters := map[];
    var counter := 0;
    for i := 0 to |qs| + firstWidth
      invariant counter == i / 2 && Holding(parameters, i, qs, rs)
    {
      HoldingStep(parameters, i, qs, rs);
      if i % 2 == 0 {
        parameters := parameters[Name(i) := qs[counter]];
      } else {
        parameters := parameters[Name(i) := rs[counter]];
        counter := counter + 1;
      }
    }
  }

  lemma {:induction false} EvaluateIs(pred: Predicate, parameters: Parameters, qs: seq<GroupingKey>, rs: seq<GroupingKey>)
    requires |qs| == |rs| && Scoped(pred, |qs|) && Holding(parameters, 2 * |qs|, qs, rs)
    ensures Bound(pred, parameters) && Evaluate(pred, parameters) == Holds(pred, qs, rs)
  {
    match pred
    case Eq(l, r) =>
    case Neq(l, r) =>
    case And(p, q) =>
      EvaluateIs(p, parameters, qs, rs);
      EvaluateIs(q, parameters, qs, rs);
    case Or(p, q) =>
      EvaluateIs(p, parameters, qs, rs);
      EvaluateIs(q, parameters, qs, rs);
  }

  // ---------- the filter ----------

  function Unfiltered(v: ProcessResponseDet): FilteredResponseDet {
    FilteredResponseDet(v.detTagGroupBy, FilteredResponse(v.pr.groupByEnc, v.pr.aggregatingAttributes))
  }

  predicate WhereWidth(responses: seq<ProcessResponseDet>, n: nat) {
    forall i :: 0 <= i < |responses| ==> |responses[i].detTagWhere| == n
  }

  /** The rows whose tags satisfy the predicate, in order. */
  function Kept(pred: Predicate, qs: seq<GroupingKey>, responses: seq<ProcessResponseDet>): seq<FilteredResponseDet>
    requires Scoped(pred, |qs|) && WhereWidth(responses, |qs|)
  {
    if responses == [] then []
    else
      var v := responses[|responses| - 1];
      Kept(pred, qs, responses[..|responses| - 1]) + (if Holds(pred, qs, v.detTagWhere) then [Unfiltered(v)] else [])
  }

  /** The result lists the rows of these positions, in order, each as it was. */
  ghost predicate ListsRows(result: seq<FilteredResponseDet>, responses: seq<ProcessResponseDet>, kept: seq<nat>) {
    && |result| == |kept| && (forall k, l :: 0 <= k < l < |kept| ==> kept[k] < kept[l])
    && forall k :: 0 <= k < |kept| ==> kept[k] < |responses| && result[k] == Unfiltered(responses[kept[k]])
  }

  lemma RowsPrefix(result: seq<FilteredResponseDet>, responses: seq<ProcessResponseDet>, kept: seq<nat>)
    requires responses != [] && ListsRows(result, responses[..|responses| - 1], kept)
    ensures ListsRows(result, responses, kept)
  {
  }

  lemma RowsMore(result: seq<FilteredResponseDet>, responses: seq<ProcessResponseDet>, kept: seq<nat>)
    requires responses != [] && ListsRows(result, responses[..|responses| - 1], kept)
    ensures ListsRows(result + [Unfiltered(responses[|responses| - 1])], responses, kept + [|responses| - 1])
  {
  }

  lemma OneMorePosition(kept: seq<nat>, n: nat)
    ensures forall i: nat :: i in kept + [n] <==> i in kept || i == n
  {
  }

  /** Some positions, listed in order, are those of the rows kept. */
  lemma {:induction false} KeptRows(pred: Predicate, qs: seq<GroupingKey>, responses: seq<ProcessResponseDet>) returns (kept: seq<nat>)
    requires Scoped(pred, |qs|) && WhereWidth(responses, |qs|)
    ensures ListsRows(Kept(pred, qs, responses), responses, kept)
    ensures forall i: nat :: i in kept <==> i < |responses| && Holds(pred, qs, responses[i].detTagWhere)
  {
    if responses == [] {
      kept := [];
    } else {
      var n := |responses| - 1;
      var before := KeptRows(pred, qs, responses[..n]);
      if Holds(pred, qs, responses[n].detTagWhere) {
        kept := before + [n];
        RowsMore(Kept(pred, qs, responses[..n]), responses, before);
        OneMorePosition(before, n);
      } else {
        kept := before;
        RowsPrefix(Kept(pred, qs, responses[..n]), responses, before);
        assert Kept(pred, qs, responses[..n]) + [] == Kept(pred, qs, responses[..n]);
      }
    }
  }

  /** A row is kept. */
  ghost predicate Keeps(pred: Predicate, qs: seq<GroupingKey>, v: ProcessResponseDet)
    requires Scoped(pred, |qs|) && |v.detTagWhere| == |qs|
  {
    Kept(pred, qs, [v]) == [Unfiltered(v)]
  }

  lemma KeepsIs(pred: Predicate, qs: seq<GroupingKey>, v: ProcessResponseDet)
    requires Scoped(pred, |qs|) && |v.detTagWhere| == |qs|
    ensures Keeps(pred, qs, v) <==> Holds(pred, qs, v.detTagWhere)
    ensures Kept(pred, qs, [v]) == if Keeps(pred, qs, v) then [Unfiltered(v)] else []
  {
    assert [v][..0] == [];
    assert [] + [Unfiltered(v)] == [Unfiltered(v)];
    assert Kept(pred, qs, [v]) == if Holds(pred, qs, v.detTagWhere) then [Unfiltered(v)] else [];
  }

  /** Lists are filtered row by row. */
  lemma {:induction false} KeptConcat(pred: Predicate, qs: seq<GroupingKey>, a: seq<ProcessResponseDet>, b: seq<ProcessResponseDet>)
    requires Scoped(pred, |qs|) && WhereWidth(a, |qs|) && WhereWidth(b, |qs|)
    ensures Kept(pred, qs, a + b) == Kept(pred, qs, a) + Kept(pred, qs, b)
  {
    if b == [] {
      assert a + b == a;
    } else {
      assert (a + b)[..|a + b| - 1] == a + b[..|b| - 1];
      KeptConcat(pred, qs, a, b[..|b| - 1]);
    }
  }

  /** A comparison keeps a row exactly when the tags compared are equal, whether of query and row, of two query values or
      of two values of the row. */
  lemma ComparisonKeeps(qs: seq<GroupingKey>, v: ProcessResponseDet, i: nat, j: nat)
    requires |v.detTagWhere| == |qs| && i < |qs| && j < |qs|
    ensures Keeps(Eq(2 * i, 2 * j + 1), qs, v) <==> qs[i] == v.detTagWhere[j]
    ensures Keeps(Eq(2 * i + 1, 2 * j), qs, v) <==> v.detTagWhere[i] == qs[j]
    ensures Keeps(Eq(2 * i, 2 * j), qs, v) <==> qs[i] == qs[j]
    ensures Keeps(Eq(2 * i + 1, 2 * j + 1), qs, v) <==> v.detTagWhere[i] == v.detTagWhere[j]
  {
    ComparisonMeans(qs, v.detTagWhere, i, j);
    KeepsIs(Eq(2 * i, 2 * j + 1), qs, v);
    KeepsIs(Eq(2 * i + 1, 2 * j), qs, v);
    KeepsIs(Eq(2 * i, 2 * j), qs, v);
    KeepsIs(Eq(2 * i + 1, 2 * j + 1), qs, v);
  }

  /** An inequality keeps exactly the rows the equality drops, a conjunction those both keep, a disjunction those either
      keeps. */
  lemma ConnectiveKeeps(p: Predicate, q: Predicate, l: nat, r: nat, qs: seq<GroupingKey>, v: ProcessResponseDet)
    requires Scoped(p, |qs|) && Scoped(q, |qs|) && l < 2 * |qs| && r < 2 * |qs| && |v.detTagWhere| == |qs|
    ensures Keeps(Neq(l, r), qs, v) <==> !Keeps(Eq(l, r), qs, v)
    ensures Keeps(And(p, q), qs, v) <==> Keeps(p, qs, v) && Keeps(q, qs, v)
    ensures Keeps(Or(p, q), qs, v) <==> Keeps(p, qs, v) || Keeps(q, qs, v)
  {
    KeepsIs(Neq(l, r), qs, v);
    KeepsIs(Eq(l, r), qs, v);
    KeepsIs(p, qs, v);
    KeepsIs(q, qs, v);
    KeepsIs(And(p, q), qs, v);
    KeepsIs(Or(p, q), qs, v);
  }

  method FilterResponses(pred: Predicate, whereQueryValues: seq<GroupingKey>, responsesToFilter: seq<ProcessResponseDet>)
    returns (result: seq<FilteredResponseDet>, ghost kept: seq<nat>)
    requires Scoped(pred, |whereQueryValues|) && WhereWidth(responsesToFilter, |whereQueryValues|)
    ensures result == Kept(pred, whereQueryValues, responsesToFilter)
    ensures ListsRows(result, responsesToFilter, kept)
    ensures forall i: nat :: i in kept <==> i < |responsesToFilter| && Keeps(pred, whereQueryValues, responsesToFilter[i])
  {
    result := [];
    for i := 0 to |responsesToFilter|
      invariant result == Kept(pred, whereQueryValues, responsesToFilter[..i])
    {
      var v := responsesToFilter[i];
      assert responsesToFilter[..i + 1][..i] == responsesToFilter[..i];
      var parameters := BuildParameters(whereQueryValues, v.detTagWhere, |responsesToFilter[0].detTagWhere|);
      EvaluateIs(pred, parameters, whereQueryValues, v.detTagWhere);
      var keep := Evaluate(pred, parameters);
      if keep {
        result := result + [Unfiltered(v)];
      }
    }
    assert responsesToFilter[..|responsesToFilter|] == responsesToFilter;
    kept := KeptRows(pred, whereQueryValues, responsesToFilter);
    forall i: nat | i < |responsesToFilter|
      ensures Keeps(pred, whereQueryValues, responsesToFilter[i]) <==> Holds(pred, whereQueryValues, responsesToFilter[i].detTagWhere)
    {
      KeepsIs(pred, whereQueryValues, responsesToFilter[i]);
    }
  }

  method FilterNone(responsesToFilter: seq<ProcessResponseDet>) returns (result: seq<FilteredResponseDet>)
    ensures |result| == |responsesToFilter|
    ensures forall i :: 0 <= i < |result| ==> result[i] == Unfiltered(responsesToFilter[i])
  {
    result := [];
    for i := 0 to |responsesToFilter|
      invariant |result| == i && forall l :: 0 <= l < i ==> result[l] == Unfiltered(responsesToFilter[l])
    {
      result := result + [Unfiltered(responsesToFilter[i])];
    }
  }
}
