/** What a server keeps of a survey: the data providers' rows, pre-aggregated where they are in clear, and the results
    of the later phases (lib/store/store.go). */
module SurveyStore {
  import opened Group
  import opened Sums
  import opened Sets
  import opened ElGamal
  import opened Options
  import opened Responses
  import opened Decimal
  import opened Table
  import opened LocalAggregation
  import opened Parallel

  /** A data provider's row; an encrypted map that is nil in Go is None. */
  datatype DpResponse = DpResponse(whereClear: map<string, int>, whereEnc: Option<map<string, CipherText>>,
                                   groupByClear: map<string, int>, groupByEnc: Option<map<string, CipherText>>,
                                   aggregatingAttributesClear: map<string, int>, aggregatingAttributesEnc: map<string, CipherText>)

  /** The attribute names a query asks for. */
  datatype Attributes = Attributes(groupBy: seq<string>, sum: seq<string>, where: seq<string>)

  datatype GroupingKeyTuple = GroupingKeyTuple(gkt1: GroupingKey, gkt2: GroupingKey)

  /** The two containers of received rows. */
  datatype Received = Received(dpResponses: seq<ProcessResponse>, dpResponsesAggr: map<GroupingKeyTuple, ProcessResponse>)

  const NOTHING := Received([], map[])

  // ---------- reading the attributes of a row ----------

  /** A missing clear attribute reads as 0. */
  function ClearValue(clear: map<string, int>, v: string): int {
    if v in clear then clear[v] else 0
  }

  function ClearValues(data: seq<string>, clear: map<string, int>): (r: seq<int>)
    ensures |r| == |data| && forall i :: 0 <= i < |data| ==> r[i] == ClearValue(clear, data[i])
  {
    seq(|data|, i requires 0 <= i < |data| => ClearValue(clear, data[i]))
  }

  function Encrypted(enc: Option<map<string, CipherText>>): map<string, CipherText> {
    if enc.None? then map[] else enc.value
  }

  function CipherValue(clear: map<string, int>, enc: map<string, CipherText>, v: string): CipherText {
    if v in enc then enc[v] else IntToCipherText(ClearValue(clear, v))
  }

  function CipherValues(data: seq<string>, clear: map<string, int>, enc: map<string, CipherText>): (r: CipherVector)
    ensures |r| == |data| && forall i :: 0 <= i < |data| ==> r[i] == CipherValue(clear, enc, data[i])
  {
    seq(|data|, i requires 0 <= i < |data| => CipherValue(clear, enc, data[i]))
  }

  method ProccessParameters(data: seq<string>, clear: map<string, int>, encrypted: map<string, CipherText>, noEnc: bool)
    returns (containerClear: seq<int>, containerEnc: CipherVector)
    ensures noEnc ==> containerClear == ClearValues(data, clear) && containerEnc == []
    ensures !noEnc ==> containerClear == [] && containerEnc == CipherValues(data, clear, encrypted)
  {
    containerClear, containerEnc := [], [];
    for i := 0 to |data|
      invariant noEnc ==> containerClear == ClearValues(data, clear)[..i] && containerEnc == []
      invariant !noEnc ==> containerClear == [] && containerEnc == CipherValues(data, clear, encrypted)[..i]
    {
      var v := data[i];
      if noEnc {
        containerClear := containerClear + [ClearValue(clear, v)];
      } else if v in encrypted {
        containerEnc := containerEnc + [encrypted[v]];
      } else {
        containerEnc := containerEnc + [IntToCipherText(ClearValue(clear, v))];
      }
    }
  }

  /** IntArrayToCipherVector */
  function IntVector(ints: seq<int>): (r: CipherVector)
    ensures |r| == |ints| && forall i :: 0 <= i < |ints| ==> r[i] == IntToCipherText(ints[i])
  {
    seq(|ints|, i requires 0 <= i < |ints| => IntToCipherText(ints[i]))
  }

  // ---------- insertion ----------

  predicate NoEnc(cr: DpResponse) {
    cr.whereEnc.None? && cr.groupByEnc.None?
  }

  function TupleOf(cr: DpResponse, q: Attributes): GroupingKeyTuple {
    GroupingKeyTuple(KeyOf(ClearValues(q.groupBy, cr.groupByClear)), KeyOf(ClearValues(q.where, cr.whereClear)))
  }

  function SumsOf(cr: DpResponse, q: Attributes): CipherVector {
    CipherValues(q.sum, cr.aggregatingAttributesClear, cr.aggregatingAttributesEnc)
  }

  /** Every stored row has the widths of the query. */
  predicate HasShape(pr: ProcessResponse, q: Attributes) {
    |pr.groupByEnc| == |q.groupBy| && |pr.whereEnc| == |q.where| && |pr.aggregatingAttributes| == |q.sum|
  }

  predicate AllShaped(prs: seq<ProcessResponse>, q: Attributes) {
    forall i :: 0 <= i < |prs| ==> HasShape(prs[i], q)
  }

  predicate StoreShaped(r: Received, q: Attributes) {
    AllShaped(r.dpResponses, q) && forall k :: k in r.dpResponsesAggr ==> HasShape(r.dpResponsesAggr[k], q)
  }

  /** The containers after one insertion: encrypted rows are appended, clear rows added up per group and where tuple. */
  function Inserted(r: Received, cr: DpResponse, q: Attributes): (r': Received)
    requires StoreShaped(r, q)
    ensures StoreShaped(r', q)
  {
    var t := TupleOf(cr, q);
    if !NoEnc(cr) then
      r.(dpResponses := r.dpResponses
        + [ProcessResponse(CipherValues(q.where, cr.whereClear, Encrypted(cr.whereEnc)),
                           CipherValues(q.groupBy, cr.groupByClear, Encrypted(cr.groupByEnc)), SumsOf(cr, q))])
    else if t in r.dpResponsesAggr then
      var value := r.dpResponsesAggr[t];
      r.(dpResponsesAggr := r.dpResponsesAggr[t := value.(aggregatingAttributes := AddVector(value.aggregatingAttributes, SumsOf(cr, q)))])
    else
      r.(dpResponsesAggr := r.dpResponsesAggr[t := ProcessResponse(IntVector(ClearValues(q.where, cr.whereClear)),
                                                                   IntVector(ClearValues(q.groupBy, cr.groupByClear)), SumsOf(cr, q))])
  }

  function After(crs: seq<DpResponse>, q: Attributes): (r: Received)
    ensures StoreShaped(r, q)
  {
    if crs == [] then NOTHING else Inserted(After(crs[..|crs| - 1], q), crs[|crs| - 1], q)
  }

  lemma AfterOneMore(crs: seq<DpResponse>, cr: DpResponse, q: Attributes)
    ensures After(crs + [cr], q) == Inserted(After(crs, q), cr, q)
  {
    assert (crs + [cr])[..|crs|] == crs;
  }

  /** The values of a map, in the order of a listing of its keys. */
  function Values<K, V>(ks: seq<K>, m: map<K, V>): (r: seq<V>)
    requires forall i :: 0 <= i < |ks| ==> ks[i] in m
    ensures |r| == |ks| && forall i :: 0 <= i < |ks| ==> r[i] == m[ks[i]]
  {
    seq(|ks|, i requires 0 <= i < |ks| => m[ks[i]])
  }

  /** The keys of a map, in some iteration order. */
  method KeysOf<K(==), V>(m: map<K, V>) returns (ks: seq<K>)
    ensures Lists(ks, m.Keys)
  {
    ks := [];
    var rest := m.Keys;
    while rest != {}
      invariant rest <= m.Keys && Lists(ks, m.Keys - rest)
      decreases rest
    {
      var k := Pick(rest);
      var before := ks;
      ks := ks + [k];
      rest := rest - {k};
      ListsMore(before, m.Keys - rest - {k}, k);
      assert m.Keys - rest - {k} + {k} == m.Keys - rest;
    }
    assert m.Keys - rest == m.Keys;
  }

  lemma ListsMore<T>(xs: seq<T>, s: set<T>, t: T)
    requires Lists(xs, s) && t !in s
    ensures Lists(xs + [t], s + {t})
  {
    forall u | u in s + {t} ensures u in xs + [t] {
      if u != t {
        assert u in xs;
      } else {
        assert (xs + [t])[|xs|] == t;
      }
    }
  }

  class Store {
    var dpResponses: seq<ProcessResponse>
    var dpResponsesAggr: map<GroupingKeyTuple, ProcessResponse>
    var shuffledProcessResponses: seq<ProcessResponse>
    var locAggregatedProcessResponse: Grouped
    var groupedDeterministicFilteredResponses: Grouped
    var deliverableResults: seq<FilteredResponse>

    ghost function Contents(): Received
      reads this
    {
      Received(dpResponses, dpResponsesAggr)
    }

    constructor ()
      ensures Contents() == NOTHING && shuffledProcessResponses == [] && deliverableResults == []
      ensures locAggregatedProcessResponse == map[] && groupedDeterministicFilteredResponses == map[]
    {
      dpResponses, dpResponsesAggr, shuffledProcessResponses, deliverableResults := [], map[], [], [];
      locAggregatedProcessResponse, groupedDeterministicFilteredResponses := map[], map[];
    }

    method InsertDpResponse(cr: DpResponse, q: Attributes)
      requires StoreShaped(Contents(), q)
      modifies this`dpResponses, this`dpResponsesAggr
      ensures Contents() == Inserted(old(Contents()), cr, q)
    {
      var noEnc := cr.whereEnc.None? && cr.groupByEnc.None?;
      var clearGrp, groupByEnc := ProccessParameters(q.groupBy, cr.groupByClear, Encrypted(cr.groupByEnc), noEnc);
      var clearWhr, whereEnc := ProccessParameters(q.where, cr.whereClear, Encrypted(cr.whereEnc), noEnc);
      var _, attributes := ProccessParameters(q.sum, cr.aggregatingAttributesClear, cr.aggregatingAttributesEnc, false);
      if !noEnc {
        dpResponses := dpResponses + [ProcessResponse(whereEnc, groupByEnc, attributes)];
      } else {
        var gkt1 := Key(clearGrp);
        var gkt2 := Key(clearWhr);
        var t := GroupingKeyTuple(gkt1, gkt2);
        if t in dpResponsesAggr {
          var mapValue := dpResponsesAggr[t];
          var cv := ParallelMap(mapValue.aggregatingAttributes, NullCipher,
                                (i: nat, c: CipherText) requires i < |attributes| => AddCipher(c, attributes[i]));
          assert cv == AddVector(mapValue.aggregatingAttributes, attributes);
          dpResponsesAggr := dpResponsesAggr[t := mapValue.(aggregatingAttributes := cv)];
        } else {
          dpResponsesAggr := dpResponsesAggr[t := ProcessResponse(IntVector(clearWhr), IntVector(clearGrp), attributes)];
        }
      }
    }

    /** The encrypted rows are taken out; the pre-aggregated ones are copied and stay, so a second pull returns them
        again. */
    method PullDpResponses() returns (result: seq<ProcessResponse>, ghost ks: seq<GroupingKeyTuple>)
      modifies this`dpResponses
      ensures Lists(ks, dpResponsesAggr.Keys)
      ensures result == old(dpResponses) + Values(ks, dpResponsesAggr)
      ensures dpResponses == []
    {
      var order := KeysOf(dpResponsesAggr);
      ks := order;
      result := dpResponses;
      for i := 0 to |order|
        invariant result == dpResponses + Values(order, dpResponsesAggr)[..i]
      {
        result := result + [dpResponsesAggr[order[i]]];
      }
      dpResponses := [];
    }

    method PushShuffledProcessResponses(newShuffledProcessResponses: seq<ProcessResponse>)
      modifies this`shuffledProcessResponses
      ensures shuffledProcessResponses == old(shuffledProcessResponses) + newShuffledProcessResponses
    {
      shuffledProcessResponses := shuffledProcessResponses + newShuffledProcessResponses;
    }

    method PullShuffledProcessResponses() returns (result: seq<ProcessResponse>)
      modifies this`shuffledProcessResponses
      ensures result == old(shuffledProcessResponses) && shuffledProcessResponses == []
    {
      result := shuffledProcessResponses;
      shuffledProcessResponses := [];
    }

    method PushDeterministicFilteredResponses(detFilteredResponses: seq<FilteredResponseDet>, proofsB: bool, ghost w: GroupingKey -> nat)
      requires MapWidths(locAggregatedProcessResponse, w) && EntryWidths(detFilteredResponses, w)
      modifies this`locAggregatedProcessResponse
      ensures locAggregatedProcessResponse == FoldInto(old(locAggregatedProcessResponse), detFilteredResponses, w)
    {
      var m, cvMap := AggregateLocally(locAggregatedProcessResponse, detFilteredResponses, proofsB, w);
      locAggregatedProcessResponse := m;
    }

    method PullLocallyAggregatedResponses() returns (result: Grouped)
      modifies this`locAggregatedProcessResponse
      ensures result == old(locAggregatedProcessResponse) && locAggregatedProcessResponse == map[]
    {
      result := locAggregatedProcessResponse;
      locAggregatedProcessResponse := map[];
    }

    method PushCothorityAggregatedFilteredResponses(sNew: Grouped)
      requires forall k :: k in sNew ==> Addable(groupedDeterministicFilteredResponses, k, sNew[k])
      modifies this`groupedDeterministicFilteredResponses
      ensures groupedDeterministicFilteredResponses == MergedInto(old(groupedDeterministicFilteredResponses), sNew)
    {
      var m := PushAll(groupedDeterministicFilteredResponses, sNew);
      groupedDeterministicFilteredResponses := m;
    }

    method PullCothorityAggregatedFilteredResponses() returns (aggregatedResults: seq<FilteredResponse>, ghost ks: seq<GroupingKey>)
      modifies this`groupedDeterministicFilteredResponses
      ensures Lists(ks, old(groupedDeterministicFilteredResponses).Keys)
      ensures aggregatedResults == Values(ks, old(groupedDeterministicFilteredResponses))
      ensures groupedDeterministicFilteredResponses == map[]
    {
      var order := KeysOf(groupedDeterministicFilteredResponses);
      ks := order;
      aggregatedResults := Values(order, groupedDeterministicFilteredResponses);
      groupedDeterministicFilteredResponses := map[];
    }

    method PushQuerierKeyEncryptedResponses(keySwitchedResponse: seq<FilteredResponse>)
      modifies this`deliverableResults
      ensures deliverableResults == keySwitchedResponse
    {
      deliverableResults := keySwitchedResponse;
    }

    method PullDeliverableResults() returns (results: seq<FilteredResponse>)
      modifies this`deliverableResults
      ensures results == old(deliverableResults) && deliverableResults == []
    {
      results := deliverableResults;
      deliverableResults := [];
    }
  }

  /** Every new group added into the old map. */
  function MergedInto(m: Grouped, sNew: Grouped): Grouped
    requires forall k :: k in sNew ==> Addable(m, k, sNew[k])
  {
    map k | k in m.Keys + sNew.Keys :: if k in sNew then assert Addable(m, k, sNew[k]); Insert(m, k, sNew[k])[k] else m[k]
  }

  /** A group of one map alone is taken over; one of both keeps its group values and has, column by column, the sum. */
  lemma MergedAt(m: Grouped, sNew: Grouped, k: GroupingKey)
    requires forall l :: l in sNew ==> Addable(m, l, sNew[l])
    ensures k in MergedInto(m, sNew) <==> k in m || k in sNew
    ensures k in m && k !in sNew ==> MergedInto(m, sNew)[k] == m[k]
    ensures k in sNew && k !in m ==> MergedInto(m, sNew)[k] == sNew[k]
    ensures k in m && k in sNew ==>
      var a, b, r := m[k].aggregatingAttributes, sNew[k].aggregatingAttributes, MergedInto(m, sNew)[k];
      && r.groupByEnc == m[k].groupByEnc && |r.aggregatingAttributes| == |b|
      && forall c :: 0 <= c < |a| && c < |b| ==> r.aggregatingAttributes[c] == CipherText(Add(a[c].K, b[c].K), Add(a[c].C, b[c].C))
  {
  }

  method PushAll(m0: Grouped, sNew: Grouped) returns (m: Grouped)
    requires forall k :: k in sNew ==> Addable(m0, k, sNew[k])
    ensures m == MergedInto(m0, sNew)
  {
    m := m0;
    var rest := sNew.Keys;
    assert sNew - rest == map[];
    while rest != {}
      invariant rest <= sNew.Keys && m == MergedInto(m0, sNew - rest)
      decreases rest
    {
      var k := Pick(rest);
      MergedOneMore(m0, sNew - rest, k, sNew[k]);
      m := AddInMap(m, k, sNew[k]);
      assert sNew - (rest - {k}) == (sNew - rest)[k := sNew[k]];
      rest := rest - {k};
    }
    assert sNew - rest == sNew;
  }

  lemma MergedOneMore(m: Grouped, part: Grouped, k: GroupingKey, added: FilteredResponse)
    requires forall l :: l in part ==> Addable(m, l, part[l])
    requires k !in part && Addable(m, k, added)
    ensures Addable(MergedInto(m, part), k, added)
    ensures Insert(MergedInto(m, part), k, added) == MergedInto(m, part[k := added])
  {
  }

  // ---------- what the containers mean ----------

  /** A row's group values and where values. */
  datatype GroupWhere = GroupWhere(groups: seq<Point>, wheres: seq<Point>)

  function OpenedRow(x: Scalar, pr: ProcessResponse): Row<GroupWhere> {
    Row(GroupWhere(OpenVector(x, pr.groupByEnc), OpenVector(x, pr.whereEnc)), OpenVector(x, pr.aggregatingAttributes))
  }

  function OpenedRows(x: Scalar, prs: seq<ProcessResponse>): (r: seq<Row<GroupWhere>>)
    ensures |r| == |prs| && forall i :: 0 <= i < |prs| ==> r[i] == OpenedRow(x, prs[i])
  {
    Map(pr => OpenedRow(x, pr), prs)
  }

  /** What a data provider's row says, whichever of its attributes are encrypted. */
  function PlainValue(x: Scalar, clear: map<string, int>, enc: map<string, CipherText>, v: string): Point {
    if v in enc then Open(x, enc[v]) else IntToPoint(ClearValue(clear, v))
  }

  function PlainValues(x: Scalar, data: seq<string>, clear: map<string, int>, enc: map<string, CipherText>): (r: seq<Point>)
    ensures |r| == |data| && forall i :: 0 <= i < |data| ==> r[i] == PlainValue(x, clear, enc, data[i])
  {
    seq(|data|, i requires 0 <= i < |data| => PlainValue(x, clear, enc, data[i]))
  }

  function Meaning(x: Scalar, cr: DpResponse, q: Attributes): Row<GroupWhere> {
    Row(GroupWhere(PlainValues(x, q.groupBy, cr.groupByClear, Encrypted(cr.groupByEnc)),
                   PlainValues(x, q.where, cr.whereClear, Encrypted(cr.whereEnc))),
        PlainValues(x, q.sum, cr.aggregatingAttributesClear, cr.aggregatingAttributesEnc))
  }

  function Meanings(x: Scalar, crs: seq<DpResponse>, q: Attributes): (r: seq<Row<GroupWhere>>)
    ensures |r| == |crs| && forall i :: 0 <= i < |crs| ==> r[i] == Meaning(x, crs[i], q)
  {
    Map(cr => Meaning(x, cr, q), crs)
  }

  lemma CipherValuesOpen(x: Scalar, data: seq<string>, clear: map<string, int>, enc: map<string, CipherText>)
    ensures OpenVector(x, CipherValues(data, clear, enc)) == PlainValues(x, data, clear, enc)
  {
    forall i | 0 <= i < |data| ensures Open(x, CipherValue(clear, enc, data[i])) == PlainValue(x, clear, enc, data[i]) {
      OpenPlain(x, IntToPoint(ClearValue(clear, data[i])));
    }
  }

  lemma IntVectorOpens(x: Scalar, data: seq<string>, clear: map<string, int>)
    ensures OpenVector(x, IntVector(ClearValues(data, clear))) == PlainValues(x, data, clear, map[])
  {
    CipherValuesOpen(x, data, clear, map[]);
    assert IntVector(ClearValues(data, clear)) == CipherValues(data, clear, map[]);
  }

  /** h gives the group and where points of a pre-aggregation key. */
  ghost predicate Rekeys(x: Scalar, q: Attributes, h: GroupingKeyTuple -> Option<GroupWhere>) {
    forall cr :: NoEnc(cr) ==> h(TupleOf(cr, q)) == Some(Meaning(x, cr, q).key)
  }

  function IntPoints(ints: seq<int>): (r: seq<Point>)
    ensures |r| == |ints| && forall i :: 0 <= i < |ints| ==> r[i] == IntToPoint(ints[i])
  {
    seq(|ints|, i requires 0 <= i < |ints| => IntToPoint(ints[i]))
  }

  predicate IsTuple(t: GroupingKeyTuple, g: seq<int>, w: seq<int>) {
    t == GroupingKeyTuple(KeyOf(g), KeyOf(w))
  }

  ghost function Rekey(t: GroupingKeyTuple): Option<GroupWhere> {
    if exists g, w :: IsTuple(t, g, w) then
      var g, w :| IsTuple(t, g, w);
      Some(GroupWhere(IntPoints(g), IntPoints(w)))
    else None
  }

  lemma OneTuple(t: GroupingKeyTuple, g: seq<int>, w: seq<int>, g': seq<int>, w': seq<int>)
    requires IsTuple(t, g, w) && IsTuple(t, g', w')
    ensures g == g' && w == w'
  {
    KeyInjective(g, g');
    KeyInjective(w, w');
  }

  lemma RekeyIs(t: GroupingKeyTuple, g: seq<int>, w: seq<int>)
    requires IsTuple(t, g, w)
    ensures Rekey(t) == Some(GroupWhere(IntPoints(g), IntPoints(w)))
  {
    var g', w' :| IsTuple(t, g', w') && Rekey(t) == Some(GroupWhere(IntPoints(g'), IntPoints(w')));
    OneTuple(t, g, w, g', w');
  }

  lemma ClearPoints(x: Scalar, data: seq<string>, clear: map<string, int>)
    ensures IntPoints(ClearValues(data, clear)) == PlainValues(x, data, clear, map[])
  {
  }

  /** There is such an h because keys are injective. */
  lemma RekeyRight(x: Scalar, q: Attributes)
    ensures Rekeys(x, q, Rekey)
  {
    forall cr | NoEnc(cr) ensures Rekey(TupleOf(cr, q)) == Some(Meaning(x, cr, q).key) {
      RekeyIs(TupleOf(cr, q), ClearValues(q.groupBy, cr.groupByClear), ClearValues(q.where, cr.whereClear));
      ClearPoints(x, q.groupBy, cr.groupByClear);
      ClearPoints(x, q.where, cr.whereClear);
    }
  }

  /** The rows inserted in clear, under their pre-aggregation keys. */
  function ClearRows(x: Scalar, crs: seq<DpResponse>, q: Attributes): seq<Row<GroupingKeyTuple>> {
    if crs == [] then []
    else
      var cr := crs[|crs| - 1];
      ClearRows(x, crs[..|crs| - 1], q) + (if NoEnc(cr) then [Row(TupleOf(cr, q), Meaning(x, cr, q).vals)] else [])
  }

  function AggrMap(x: Scalar, r: Received): (m: map<GroupingKeyTuple, seq<Point>>)
    ensures m.Keys == r.dpResponsesAggr.Keys
  {
    map t | t in r.dpResponsesAggr :: OpenVector(x, r.dpResponsesAggr[t].aggregatingAttributes)
  }

  /** Every pre-aggregated entry opens to the group and where values of its key. */
  ghost predicate AggrKeyed(x: Scalar, r: Received, h: GroupingKeyTuple -> Option<GroupWhere>) {
    forall t :: t in r.dpResponsesAggr ==> h(t) == Some(OpenedRow(x, r.dpResponsesAggr[t]).key)
  }

  lemma AddVectorOpens(x: Scalar, a: CipherVector, b: CipherVector)
    requires |a| == |b|
    ensures forall c: nat :: At(OpenVector(x, AddVector(a, b)), c) == Add(At(OpenVector(x, a), c), At(OpenVector(x, b), c))
  {
    forall c: nat | c < |a| ensures Open(x, AddVector(a, b)[c]) == Add(Open(x, a[c]), Open(x, b[c])) {
      OpenAdd(x, a[c], b[c]);
    }
  }

  /** The entry a clear row leaves under its key. */
  lemma EntryAfter(x: Scalar, r: Received, cr: DpResponse, q: Attributes)
    requires StoreShaped(r, q) && NoEnc(cr)
    ensures var t, r' := TupleOf(cr, q), Inserted(r, cr, q);
            r'.dpResponsesAggr.Keys == r.dpResponsesAggr.Keys + {t}
            && (forall u :: u in r.dpResponsesAggr && u != t ==> r'.dpResponsesAggr[u] == r.dpResponsesAggr[u])
            && OpenedRow(x, r'.dpResponsesAggr[t]).key
               == (if t in r.dpResponsesAggr then OpenedRow(x, r.dpResponsesAggr[t]).key else Meaning(x, cr, q).key)
    ensures var t, r' := TupleOf(cr, q), Inserted(r, cr, q);
            forall c: nat :: At(OpenVector(x, r'.dpResponsesAggr[t].aggregatingAttributes), c)
                             == Add(At(Get(AggrMap(x, r), t), c), At(Meaning(x, cr, q).vals, c))
  {
    var t := TupleOf(cr, q);
    CipherValuesOpen(x, q.sum, cr.aggregatingAttributesClear, cr.aggregatingAttributesEnc);
    if t in r.dpResponsesAggr {
      AddVectorOpens(x, r.dpResponsesAggr[t].aggregatingAttributes, SumsOf(cr, q));
    } else {
      IntVectorOpens(x, q.groupBy, cr.groupByClear);
      IntVectorOpens(x, q.where, cr.whereClear);
    }
  }

  lemma InsertedClear(x: Scalar, r: Received, rows: seq<Row<GroupingKeyTuple>>, cr: DpResponse, q: Attributes)
    requires StoreShaped(r, q) && NoEnc(cr) && Tallies(AggrMap(x, r), rows)
    ensures Tallies(AggrMap(x, Inserted(r, cr, q)), rows + [Row(TupleOf(cr, q), Meaning(x, cr, q).vals)])
  {
    var t, r' := TupleOf(cr, q), Inserted(r, cr, q);
    EntryAfter(x, r, cr, q);
    var v := OpenVector(x, r'.dpResponsesAggr[t].aggregatingAttributes);
    TalliesStep(AggrMap(x, r), rows, Row(t, Meaning(x, cr, q).vals), v);
    AggrMapAfter(x, r, r', t);
  }

  lemma AggrMapAfter(x: Scalar, r: Received, r': Received, t: GroupingKeyTuple)
    requires r'.dpResponsesAggr.Keys == r.dpResponsesAggr.Keys + {t}
    requires forall u :: u in r.dpResponsesAggr && u != t ==> r'.dpResponsesAggr[u] == r.dpResponsesAggr[u]
    ensures AggrMap(x, r') == AggrMap(x, r)[t := OpenVector(x, r'.dpResponsesAggr[t].aggregatingAttributes)]
  {
  }

  lemma InsertedKeyed(x: Scalar, r: Received, cr: DpResponse, q: Attributes, h: GroupingKeyTuple -> Option<GroupWhere>)
    requires StoreShaped(r, q) && NoEnc(cr) && Rekeys(x, q, h) && AggrKeyed(x, r, h)
    ensures AggrKeyed(x, Inserted(r, cr, q), h)
  {
    EntryAfter(x, r, cr, q);
  }

  /** Pre-aggregation adds up: per key, the map holds the sums of all rows inserted in clear. */
  lemma {:induction false} AggrTallies(x: Scalar, crs: seq<DpResponse>, q: Attributes, h: GroupingKeyTuple -> Option<GroupWhere>)
    requires Rekeys(x, q, h)
    ensures Tallies(AggrMap(x, After(crs, q)), ClearRows(x, crs, q))
    ensures AggrKeyed(x, After(crs, q), h)
  {
    if crs != [] {
      var n := |crs| - 1;
      AggrTallies(x, crs[..n], q, h);
      if NoEnc(crs[n]) {
        InsertedClear(x, After(crs[..n], q), ClearRows(x, crs[..n], q), crs[n], q);
        InsertedKeyed(x, After(crs[..n], q), crs[n], q, h);
      } else {
        assert ClearRows(x, crs, q) == ClearRows(x, crs[..n], q);
      }
    }
  }

  lemma MoveLast<T>(a: seq<T>, b: seq<T>, t: T)
    ensures multiset(a + [t] + b) == multiset(a + b + [t])
  {
  }

  /** Nothing is lost between the two containers. */
  lemma {:induction false} SplitMeanings(x: Scalar, crs: seq<DpResponse>, q: Attributes, h: GroupingKeyTuple -> Option<GroupWhere>)
    requires Rekeys(x, q, h)
    ensures Same(OpenedRows(x, After(crs, q).dpResponses) + Regroup(ClearRows(x, crs, q), h), Meanings(x, crs, q))
  {
    if crs != [] {
      var n := |crs| - 1;
      SplitMeanings(x, crs[..n], q, h);
      assert Meanings(x, crs, q) == Meanings(x, crs[..n], q) + [Meaning(x, crs[n], q)];
      SplitStep(x, crs[..n], crs[n], q, h);
      assert crs == crs[..n] + [crs[n]];
    }
  }

  lemma SplitStep(x: Scalar, crs: seq<DpResponse>, cr: DpResponse, q: Attributes, h: GroupingKeyTuple -> Option<GroupWhere>)
    requires Rekeys(x, q, h)
    requires Same(OpenedRows(x, After(crs, q).dpResponses) + Regroup(ClearRows(x, crs, q), h), Meanings(x, crs, q))
    ensures Same(OpenedRows(x, After(crs + [cr], q).dpResponses) + Regroup(ClearRows(x, crs + [cr], q), h), Meanings(x, crs, q) + [Meaning(x, cr, q)])
  {
    var enc, clear := OpenedRows(x, After(crs, q).dpResponses), Regroup(ClearRows(x, crs, q), h);
    var m := Meaning(x, cr, q);
    assert (crs + [cr])[..|crs|] == crs;
    if NoEnc(cr) {
      RegroupOneMore(ClearRows(x, crs, q), Row(TupleOf(cr, q), m.vals), m.key, h);
    } else {
      LastOpened(x, crs, cr, q);
      assert ClearRows(x, crs + [cr], q) == ClearRows(x, crs, q);
    }
    OneMoreRow(enc, clear, Meanings(x, crs, q), m);
  }

  /** A row added to either half of a table is added to the table. */
  lemma OneMoreRow<K(!new)>(a: seq<Row<K>>, b: seq<Row<K>>, plain: seq<Row<K>>, m: Row<K>)
    requires Same(a + b, plain)
    ensures Same(a + (b + [m]), plain + [m]) && Same((a + [m]) + b, plain + [m])
  {
    SameConcat(a + b, [m], plain, [m]);
    assert a + (b + [m]) == a + b + [m];
    MoveLast(a, b, m);
    SameMultiset(a + [m] + b, a + b + [m]);
    SameTransitive(a + [m] + b, a + b + [m], plain + [m]);
  }

  lemma RegroupOneMore<K, J>(rows: seq<Row<K>>, r: Row<K>, j: J, h: K -> Option<J>)
    requires h(r.key) == Some(j)
    ensures Regroup(rows + [r], h) == Regroup(rows, h) + [Row(j, r.vals)]
  {
    assert (rows + [r])[..|rows|] == rows;
  }

  lemma LastOpened(x: Scalar, crs: seq<DpResponse>, cr: DpResponse, q: Attributes)
    requires !NoEnc(cr)
    ensures OpenedRows(x, Inserted(After(crs, q), cr, q).dpResponses) == OpenedRows(x, After(crs, q).dpResponses) + [Meaning(x, cr, q)]
  {
    CipherValuesOpen(x, q.groupBy, cr.groupByClear, Encrypted(cr.groupByEnc));
    CipherValuesOpen(x, q.where, cr.whereClear, Encrypted(cr.whereEnc));
    CipherValuesOpen(x, q.sum, cr.aggregatingAttributesClear, cr.aggregatingAttributesEnc);
  }

  lemma LastListed(x: Scalar, r: Received, ks: seq<GroupingKeyTuple>)
    requires ks != [] && forall i :: 0 <= i < |ks| ==> ks[i] in r.dpResponsesAggr
    ensures var n := |ks| - 1;
            Listed(ks, AggrMap(x, r)) == Listed(ks[..n], AggrMap(x, r)) + [Row(ks[n], AggrMap(x, r)[ks[n]])]
            && OpenedRows(x, Values(ks, r.dpResponsesAggr))
               == OpenedRows(x, Values(ks[..n], r.dpResponsesAggr)) + [OpenedRow(x, r.dpResponsesAggr[ks[n]])]
  {
  }

  lemma {:induction false} ListedRekeyed(x: Scalar, r: Received, ks: seq<GroupingKeyTuple>, h: GroupingKeyTuple -> Option<GroupWhere>)
    requires AggrKeyed(x, r, h) && forall i :: 0 <= i < |ks| ==> ks[i] in r.dpResponsesAggr
    ensures Regroup(Listed(ks, AggrMap(x, r)), h) == OpenedRows(x, Values(ks, r.dpResponsesAggr))
  {
    if ks != [] {
      var n := |ks| - 1;
      var t := ks[n];
      ListedRekeyed(x, r, ks[..n], h);
      RegroupOneMore(Listed(ks[..n], AggrMap(x, r)), Row(t, AggrMap(x, r)[t]), OpenedRow(x, r.dpResponsesAggr[t]).key, h);
      LastListed(x, r, ks);
    }
  }

  /** The rows of a pull are, as a table, exactly the rows inserted: same groups, same sums, whatever was clear or
      encrypted, in whatever order the map is read; and each has the shape of the query. */
  lemma PulledIsInserted(x: Scalar, crs: seq<DpResponse>, q: Attributes, ks: seq<GroupingKeyTuple>)
    requires Lists(ks, After(crs, q).dpResponsesAggr.Keys)
    ensures var pulled := After(crs, q).dpResponses + Values(ks, After(crs, q).dpResponsesAggr);
            Same(OpenedRows(x, pulled), Meanings(x, crs, q)) && AllShaped(pulled, q)
  {
    RekeyRight(x, q);
    PulledWith(x, crs, q, ks, Rekey);
  }

  lemma PulledWith(x: Scalar, crs: seq<DpResponse>, q: Attributes, ks: seq<GroupingKeyTuple>, h: GroupingKeyTuple -> Option<GroupWhere>)
    requires Lists(ks, After(crs, q).dpResponsesAggr.Keys) && Rekeys(x, q, h)
    ensures Same(OpenedRows(x, After(crs, q).dpResponses + Values(ks, After(crs, q).dpResponsesAggr)), Meanings(x, crs, q))
  {
    AggrTallies(x, crs, q, h);
    SplitMeanings(x, crs, q, h);
    PulledTable(x, After(crs, q), ClearRows(x, crs, q), Meanings(x, crs, q), ks, h);
  }

  lemma AggrListed(x: Scalar, r: Received, rows: seq<Row<GroupingKeyTuple>>, ks: seq<GroupingKeyTuple>, h: GroupingKeyTuple -> Option<GroupWhere>)
    requires Lists(ks, r.dpResponsesAggr.Keys) && Tallies(AggrMap(x, r), rows) && AggrKeyed(x, r, h)
    ensures Same(OpenedRows(x, Values(ks, r.dpResponsesAggr)), Regroup(rows, h))
  {
    TalliesListing(AggrMap(x, r), rows, ks);
    SameRegroup(Listed(ks, AggrMap(x, r)), rows, h);
    ListedRekeyed(x, r, ks, h);
  }

  lemma PulledTable(x: Scalar, r: Received, rows: seq<Row<GroupingKeyTuple>>, plain: seq<Row<GroupWhere>>,
                    ks: seq<GroupingKeyTuple>, h: GroupingKeyTuple -> Option<GroupWhere>)
    requires Lists(ks, r.dpResponsesAggr.Keys) && Tallies(AggrMap(x, r), rows) && AggrKeyed(x, r, h)
    requires Same(OpenedRows(x, r.dpResponses) + Regroup(rows, h), plain)
    ensures Same(OpenedRows(x, r.dpResponses + Values(ks, r.dpResponsesAggr)), plain)
  {
    var enc, aggr := r.dpResponses, Values(ks, r.dpResponsesAggr);
    AggrListed(x, r, rows, ks, h);
    assert OpenedRows(x, enc + aggr) == OpenedRows(x, enc) + OpenedRows(x, aggr);
    ReplaceTail(OpenedRows(x, enc), OpenedRows(x, aggr), Regroup(rows, h), plain);
  }

  lemma ReplaceTail<K(!new)>(a: seq<Row<K>>, b: seq<Row<K>>, c: seq<Row<K>>, plain: seq<Row<K>>)
    requires Same(b, c) && Same(a + c, plain)
    ensures Same(a + b, plain)
  {
    SameConcat(a, b, a, c);
    SameTransitive(a + b, a + c, plain);
  }
}
