/** Adding filtered responses into a map of groups, and the aggregation proofs that accompany it
    (lib/structs.go, lib/aggregation/aggregation_proofs.go). */
module LocalAggregation {
  import opened Group
  import opened Sums
  import opened Sets
  import opened ElGamal
  import opened Parallel
  import opened Responses
  import opened Table

  function NullVector(length: nat): (r: CipherVector)
    ensures |r| == length && forall i :: 0 <= i < length ==> r[i] == NullCipher
  {
    seq(length, _ => NullCipher)
  }

  /** FilteredResponse.Add into a fresh response of the added one's size: the positions beyond the local vector stay
      null. */
  function AddResponses(local: FilteredResponse, added: FilteredResponse): (r: FilteredResponse)
    requires |local.aggregatingAttributes| <= |added.aggregatingAttributes|
    ensures |r.aggregatingAttributes| == |added.aggregatingAttributes|
  {
    var a, b := local.aggregatingAttributes, added.aggregatingAttributes;
    FilteredResponse(local.groupByEnc, AddVector(a, b) + NullVector(|b| - |a|))
  }

  /** A longer stored vector makes the addition index out of range. */
  predicate Addable(m: Grouped, key: GroupingKey, added: FilteredResponse) {
    key in m ==> |m[key].aggregatingAttributes| <= |added.aggregatingAttributes|
  }

  function Insert(m: Grouped, key: GroupingKey, added: FilteredResponse): Grouped
    requires Addable(m, key, added)
  {
    m[key := if key in m then AddResponses(m[key], added) else added]
  }

  method AddInMap(s: Grouped, key: GroupingKey, added: FilteredResponse) returns (s': Grouped)
    requires Addable(s, key, added)
    ensures s' == Insert(s, key, added)
  {
    if key !in s {
      s' := s[key := added];
    } else {
      var local := s[key];
      var sums := ParallelMap(local.aggregatingAttributes, NullCipher,
        (i: nat, c: CipherText) requires i < |added.aggregatingAttributes| => AddCipher(c, added.aggregatingAttributes[i]));
      assert sums == AddVector(local.aggregatingAttributes, added.aggregatingAttributes);
      s' := s[key := FilteredResponse(local.groupByEnc, sums + NullVector(|added.aggregatingAttributes| - |sums|))];
    }
  }

  // ---------- what the map then holds ----------

  function OpenedMap(x: Scalar, m: Grouped): (r: map<GroupingKey, seq<Point>>)
    ensures r.Keys == m.Keys
  {
    map k | k in m :: OpenVector(x, m[k].aggregatingAttributes)
  }

  lemma NullIsUnit(c: CipherText)
    ensures AddCipher(NullCipher, c) == c && AddCipher(c, NullCipher) == c
  {
  }

  /** The addition is exact in every column exactly when the columns the stored vector lacks hold zeros; a nonzero one
      is lost. */
  lemma AddResponsesExactIff(x: Scalar, local: FilteredResponse, added: FilteredResponse)
    requires |local.aggregatingAttributes| <= |added.aggregatingAttributes|
    ensures (forall c: nat :: At(OpenVector(x, AddResponses(local, added).aggregatingAttributes), c)
                              == Add(At(OpenVector(x, local.aggregatingAttributes), c), At(OpenVector(x, added.aggregatingAttributes), c)))
            <==> (forall c :: |local.aggregatingAttributes| <= c < |added.aggregatingAttributes| ==> Open(x, added.aggregatingAttributes[c]) == 0)
  {
    var a, b, r := local.aggregatingAttributes, added.aggregatingAttributes, AddResponses(local, added).aggregatingAttributes;
    forall c: nat | c < |b|
      ensures Open(x, r[c]) == Add(At(OpenVector(x, a), c), Open(x, b[c])) <==> c < |a| || Open(x, b[c]) == 0
    {
      if c < |a| {
        OpenAdd(x, a[c], b[c]);
      } else {
        OpenPlain(x, Null);
      }
    }
    forall c: nat ensures At(OpenVector(x, r), c) == Add(At(OpenVector(x, a), c), At(OpenVector(x, b), c))
                          <==> c < |a| || c >= |b| || Open(x, b[c]) == 0 {
    }
    if forall c: nat :: At(OpenVector(x, r), c) == Add(At(OpenVector(x, a), c), At(OpenVector(x, b), c)) {
      forall c | |a| <= c < |b| ensures Open(x, b[c]) == 0 {
        assert At(OpenVector(x, r), c) == Add(At(OpenVector(x, a), c), At(OpenVector(x, b), c));
      }
    }
  }

  /** Widths agree per key, as they do for the responses to one query. */
  predicate EntryWidths(entries: seq<FilteredResponseDet>, w: GroupingKey -> nat) {
    forall i :: 0 <= i < |entries| ==> |entries[i].fr.aggregatingAttributes| == w(entries[i].detTagGroupBy)
  }

  predicate MapWidths(m: Grouped, w: GroupingKey -> nat) {
    forall k :: k in m ==> |m[k].aggregatingAttributes| == w(k)
  }

  /** The entries added one after the other. */
  function FoldInto(m: Grouped, entries: seq<FilteredResponseDet>, w: GroupingKey -> nat): (r: Grouped)
    requires MapWidths(m, w) && EntryWidths(entries, w)
    ensures MapWidths(r, w)
  {
    if entries == [] then m
    else
      var e := entries[|entries| - 1];
      Insert(FoldInto(m, entries[..|entries| - 1], w), e.detTagGroupBy, e.fr)
  }

  function EntryRow(x: Scalar, e: FilteredResponseDet): Row<GroupingKey> {
    Row(e.detTagGroupBy, OpenVector(x, e.fr.aggregatingAttributes))
  }

  function EntryRows(x: Scalar, entries: seq<FilteredResponseDet>): seq<Row<GroupingKey>> {
    Map(e => EntryRow(x, e), entries)
  }

  lemma InsertTallies(x: Scalar, m: Grouped, rows: seq<Row<GroupingKey>>, e: FilteredResponseDet, w: GroupingKey -> nat)
    requires MapWidths(m, w) && |e.fr.aggregatingAttributes| == w(e.detTagGroupBy)
    requires Tallies(OpenedMap(x, m), rows)
    ensures Tallies(OpenedMap(x, Insert(m, e.detTagGroupBy, e.fr)), rows + [EntryRow(x, e)])
  {
    var k := e.detTagGroupBy;
    var m' := Insert(m, k, e.fr);
    var v := OpenVector(x, m'[k].aggregatingAttributes);
    if k in m {
      AddResponsesExactIff(x, m[k], e.fr);
      assert Get(OpenedMap(x, m), k) == OpenVector(x, m[k].aggregatingAttributes);
    }
    TalliesStep(OpenedMap(x, m), rows, EntryRow(x, e), v);
    assert OpenedMap(x, m') == OpenedMap(x, m)[k := v];
  }

  lemma LastEntryRow(x: Scalar, entries: seq<FilteredResponseDet>)
    requires entries != []
    ensures EntryRows(x, entries) == EntryRows(x, entries[..|entries| - 1]) + [EntryRow(x, entries[|entries| - 1])]
  {
  }

  /** The map holds the grouped sums of the entries' rows. */
  ghost predicate TalliesEntries(x: Scalar, m: Grouped, entries: seq<FilteredResponseDet>) {
    Tallies(OpenedMap(x, m), EntryRows(x, entries))
  }

  lemma InsertEntry(x: Scalar, m: Grouped, entries: seq<FilteredResponseDet>, w: GroupingKey -> nat)
    requires entries != [] && TalliesEntries(x, m, entries[..|entries| - 1]) && MapWidths(m, w) && EntryWidths(entries, w)
    ensures TalliesEntries(x, Insert(m, entries[|entries| - 1].detTagGroupBy, entries[|entries| - 1].fr), entries)
  {
    InsertTallies(x, m, EntryRows(x, entries[..|entries| - 1]), entries[|entries| - 1], w);
    LastEntryRow(x, entries);
  }

  lemma {:induction false} FoldEntries(x: Scalar, entries: seq<FilteredResponseDet>, w: GroupingKey -> nat)
    requires EntryWidths(entries, w)
    ensures TalliesEntries(x, FoldInto(map[], entries, w), entries)
  {
    if entries != [] {
      FoldEntries(x, entries[..|entries| - 1], w);
      InsertEntry(x, FoldInto(map[], entries[..|entries| - 1], w), entries, w);
    }
  }

  /** Local aggregation is the grouped sum: the opened map holds exactly the groups of the entries, with their sums. */
  lemma FoldTallies(x: Scalar, entries: seq<FilteredResponseDet>, w: GroupingKey -> nat)
    requires EntryWidths(entries, w)
    ensures Tallies(OpenedMap(x, FoldInto(map[], entries, w)), EntryRows(x, entries))
  {
    FoldEntries(x, entries, w);
  }

  /** Each group keeps the encrypted group of the first entry that opened it. */
  lemma {:induction false} FoldGroups(entries: seq<FilteredResponseDet>, w: GroupingKey -> nat, k: GroupingKey)
    requires EntryWidths(entries, w) && k in FoldInto(map[], entries, w)
    ensures exists i :: 0 <= i < |entries| && entries[i].detTagGroupBy == k
                        && entries[i].fr.groupByEnc == FoldInto(map[], entries, w)[k].groupByEnc
  {
    if entries != [] {
      var n := |entries| - 1;
      if k in FoldInto(map[], entries[..n], w) {
        FoldGroups(entries[..n], w, k);
        var i :| 0 <= i < n && entries[..n][i].detTagGroupBy == k && entries[..n][i].fr.groupByEnc == FoldInto(map[], entries[..n], w)[k].groupByEnc;
        assert entries[i] == entries[..n][i];
      } else {
        assert entries[n].detTagGroupBy == k;
      }
    }
  }

  // ---------- aggregation proofs ----------

  type ProofMap = map<GroupingKey, seq<CipherVector>>

  predicate Tagged(entries: seq<FilteredResponseDet>, k: GroupingKey) {
    entries != [] && (Tagged(entries[..|entries| - 1], k) || entries[|entries| - 1].detTagGroupBy == k)
  }

  /** Attribute j of all the entries of a group, in order. */
  function Column(entries: seq<FilteredResponseDet>, k: GroupingKey, j: nat): CipherVector {
    if entries == [] then []
    else
      var e := entries[|entries| - 1];
      Column(entries[..|entries| - 1], k, j)
      + (if e.detTagGroupBy == k && j < |e.fr.aggregatingAttributes| then [e.fr.aggregatingAttributes[j]] else [])
  }

  /** The proof data are the columns of the entries; a group without attributes stores nothing. */
  ghost predicate Formatted(res: ProofMap, entries: seq<FilteredResponseDet>, w: GroupingKey -> nat) {
    && (forall k :: k in res <==> w(k) > 0 && Tagged(entries, k))
    && (forall k :: k in res ==> |res[k]| == w(k))
    && (forall k, j :: k in res && 0 <= j < |res[k]| ==> res[k][j] == Column(entries, k, j))
  }

  /** The columns of a group with one more entry appended. */
  function AppendColumns(columns: seq<CipherVector>, attributes: CipherVector): (r: seq<CipherVector>)
    requires |attributes| <= |columns|
    ensures |r| == |columns|
    ensures forall j :: 0 <= j < |columns| ==> r[j] == columns[j] + (if j < |attributes| then [attributes[j]] else [])
  {
    seq(|columns|, j requires 0 <= j < |columns| => columns[j] + (if j < |attributes| then [attributes[j]] else []))
  }

  method FormatAggregationProofs(crd: FilteredResponseDet, res: ProofMap) returns (res': ProofMap)
    requires crd.detTagGroupBy in res ==> |crd.fr.aggregatingAttributes| <= |res[crd.detTagGroupBy]|
    ensures crd.detTagGroupBy in res ==>
      res' == res[crd.detTagGroupBy := AppendColumns(res[crd.detTagGroupBy], crd.fr.aggregatingAttributes)]
    ensures crd.detTagGroupBy !in res ==>
      res' == if crd.fr.aggregatingAttributes == [] then res
              else res[crd.detTagGroupBy := AppendColumns(seq(|crd.fr.aggregatingAttributes|, _ => []), crd.fr.aggregatingAttributes)]
  {
    var k, attributes := crd.detTagGroupBy, crd.fr.aggregatingAttributes;
    res' := res;
    if k in res {
      for i := 0 to |attributes|
        invariant k in res' && res'.Keys == res.Keys && |res'[k]| == |res[k]|
        invariant forall l :: l in res && l != k ==> res'[l] == res[l]
        invariant forall j :: 0 <= j < |res[k]| ==> res'[k][j] == res[k][j] + (if j < i then [attributes[j]] else [])
      {
        var container := res'[k];
        container := container[i := container[i] + [attributes[i]]];
        res' := res'[k := container];
      }
      assert res'[k] == AppendColumns(res[k], attributes);
    } else {
      var container: seq<CipherVector> := seq(|attributes|, _ => []);
      for i := 0 to |attributes|
        invariant |container| == |attributes|
        invariant forall j :: 0 <= j < |attributes| ==> container[j] == if j < i then [attributes[j]] else []
        invariant res' == if i == 0 then res else res[k := container]
      {
        container := container[i := [attributes[i]]];
        res' := res'[k := container];
      }
      ghost var columns := AppendColumns(seq(|attributes|, _ => []), attributes);
      assert forall j :: 0 <= j < |attributes| ==> columns[j] == [] + [attributes[j]] == container[j];
      assert container == columns;
    }
  }

  lemma FormattedStep(res: ProofMap, entries: seq<FilteredResponseDet>, e: FilteredResponseDet, w: GroupingKey -> nat, res': ProofMap)
    requires Formatted(res, entries, w) && |e.fr.aggregatingAttributes| == w(e.detTagGroupBy)
    requires var k, attributes := e.detTagGroupBy, e.fr.aggregatingAttributes;
      res' == if k in res then res[k := AppendColumns(res[k], attributes)]
              else if attributes == [] then res
              else res[k := AppendColumns(seq(|attributes|, _ => []), attributes)]
    ensures Formatted(res', entries + [e], w)
  {
    assert (entries + [e])[..|entries|] == entries;
    forall j: nat | e.detTagGroupBy !in res && j < w(e.detTagGroupBy) ensures Column(entries, e.detTagGroupBy, j) == [] {
      UntaggedColumn(entries, e.detTagGroupBy, j);
    }
  }

  lemma {:induction false} UntaggedColumn(entries: seq<FilteredResponseDet>, k: GroupingKey, j: nat)
    requires !Tagged(entries, k)
    ensures Column(entries, k, j) == []
  {
    if entries != [] {
      UntaggedColumn(entries[..|entries| - 1], k, j);
    }
  }

  lemma {:induction false} TaggedColumn(entries: seq<FilteredResponseDet>, w: GroupingKey -> nat, k: GroupingKey, j: nat)
    requires EntryWidths(entries, w) && Tagged(entries, k) && j < w(k)
    ensures Column(entries, k, j) != []
  {
    var n := |entries| - 1;
    if entries[n].detTagGroupBy != k {
      TaggedColumn(entries[..n], w, k, j);
    }
  }

  /** What the map held for attribute j of a group before. */
  function Before(m: Grouped, k: GroupingKey, j: nat): CipherText {
    if k in m && j < |m[k].aggregatingAttributes| then m[k].aggregatingAttributes[j] else NullCipher
  }

  /** After the fold, attribute j of a group is its old value plus the sum of its column. */
  lemma {:induction false} FoldIsColumnSum(m: Grouped, entries: seq<FilteredResponseDet>, w: GroupingKey -> nat, k: GroupingKey, j: nat)
    requires MapWidths(m, w) && EntryWidths(entries, w) && j < w(k)
    ensures k in FoldInto(m, entries, w) <==> k in m || Tagged(entries, k)
    ensures k in FoldInto(m, entries, w) ==>
      FoldInto(m, entries, w)[k].aggregatingAttributes[j] == AddCipher(Before(m, k, j), SumCipher(Column(entries, k, j)))
  {
    if entries == [] {
      NullIsUnit(Before(m, k, j));
    } else {
      var n := |entries| - 1;
      FoldIsColumnSum(m, entries[..n], w, k, j);
      if entries[n].detTagGroupBy == k {
        var before, c := Column(entries[..n], k, j), entries[n].fr.aggregatingAttributes[j];
        assert (before + [c])[..|before|] == before;
        assert SumCipher(before + [c]) == AddCipher(SumCipher(before), c);
        AddAssoc(Before(m, k, j).K, SumCipher(before).K, c.K);
        AddAssoc(Before(m, k, j).C, SumCipher(before).C, c.C);
        if k !in FoldInto(m, entries[..n], w) {
          UntaggedColumn(entries[..n], k, j);
          NullIsUnit(c);
        }
      } else {
        assert Column(entries, k, j) == Column(entries[..n], k, j);
      }
    }
  }

  datatype PublishedAggregationProof = PublishedAggregationProof(data: CipherVector, aggregationResult: CipherText)

  method AggregationListProofCreation(data: seq<CipherVector>, aggregationResults: CipherVector)
    returns (papList: seq<PublishedAggregationProof>)
    requires |data| <= |aggregationResults|
    ensures |papList| == |data|
    ensures forall i :: 0 <= i < |data| ==> papList[i] == PublishedAggregationProof(data[i], aggregationResults[i])
  {
    papList := ParallelMap(data, PublishedAggregationProof([], NullCipher),
      (i: nat, cv: CipherVector) requires i < |aggregationResults| => PublishedAggregationProof(cv, aggregationResults[i]));
  }

  method AggregationProofVerification(pap: PublishedAggregationProof) returns (ok: bool)
    requires pap.data != []
    ensures ok <==> SumCipher(pap.data) == pap.aggregationResult
  {
    var expected := Acum(pap.data);
    ok := expected == pap.aggregationResult;
  }

  function Ceil(r: real): int {
    -(-r).Floor
  }

  lemma CeilIs(r: real, i: int)
    ensures i < Ceil(r) <==> i as real < r
  {
  }

  /** This share of a number of proofs: the product, added up. */
  function Fraction(percent: real, n: nat): real {
    if n == 0 then 0.0 else Fraction(percent, n - 1) + percent
  }

  lemma {:induction false} FractionIs(percent: real, n: nat)
    requires 0.0 <= percent <= 1.0
    ensures Fraction(percent, n) == percent * n as real && 0.0 <= Fraction(percent, n) <= n as real
  {
    if n > 0 {
      FractionIs(percent, n - 1);
      assert percent * n as real == percent * (n - 1) as real + percent;
    }
  }

  /** Only the first ceil(percent * length) proofs are looked at. */
  method AggregationListProofVerification(palp: seq<PublishedAggregationProof>, percent: real) returns (finalResult: bool)
    requires 0.0 <= percent <= 1.0
    requires forall i :: 0 <= i < |palp| ==> palp[i].data != []
    ensures finalResult <==> forall i :: 0 <= i < |palp| && i as real < Fraction(percent, |palp|) ==> SumCipher(palp[i].data) == palp[i].aggregationResult
  {
    var share := percent * |palp| as real;
    FractionIs(percent, |palp|);
    var nbrProofsToVerify := Ceil(share);
    finalResult := true;
    for i := 0 to nbrProofsToVerify
      invariant finalResult <==> forall j :: 0 <= j < i ==> SumCipher(palp[j].data) == palp[j].aggregationResult
    {
      var v := AggregationProofVerification(palp[i]);
      finalResult := finalResult && v;
    }
  }

  /** PushDeterministicFilteredResponses: fold the entries into the stored map, keeping the proof data beside it. */
  method AggregateLocally(stored: Grouped, entries: seq<FilteredResponseDet>, proofsB: bool, ghost w: GroupingKey -> nat)
    returns (m: Grouped, cvMap: ProofMap)
    requires MapWidths(stored, w) && EntryWidths(entries, w)
    ensures m == FoldInto(stored, entries, w)
    ensures if proofsB then Formatted(cvMap, entries, w) else cvMap == map[]
  {
    m, cvMap := stored, map[];
    for i := 0 to |entries|
      invariant m == FoldInto(stored, entries[..i], w)
      invariant if proofsB then Formatted(cvMap, entries[..i], w) else cvMap == map[]
    {
      var v := entries[i];
      assert entries[..i + 1][..i] == entries[..i] && entries[..i + 1] == entries[..i] + [v];
      m := AddInMap(m, v.detTagGroupBy, v.fr);
      if proofsB {
        var next := FormatAggregationProofs(v, cvMap);
        FormattedStep(cvMap, entries[..i], v, w, next);
        cvMap := next;
      }
    }
    assert entries[..|entries|] == entries;
  }

  /** A group with proof data occurs, has attributes, and its data are its columns. */
  lemma GroupColumns(cvMap: ProofMap, entries: seq<FilteredResponseDet>, w: GroupingKey -> nat, k: GroupingKey)
    requires Formatted(cvMap, entries, w) && k in cvMap
    ensures IsColumns(cvMap[k], entries, w, k)
  {
  }

  ghost predicate IsColumns(columns: seq<CipherVector>, entries: seq<FilteredResponseDet>, w: GroupingKey -> nat, k: GroupingKey) {
    && w(k) > 0 && Tagged(entries, k) && |columns| == w(k)
    && forall j :: 0 <= j < |columns| ==> columns[j] == Column(entries, k, j)
  }

  lemma AllColumns(entries: seq<FilteredResponseDet>, w: GroupingKey -> nat, k: GroupingKey)
    requires EntryWidths(entries, w) && Tagged(entries, k)
    ensures forall j :: 0 <= j < w(k) ==> Column(entries, k, j) != []
  {
    forall j | 0 <= j < w(k) ensures Column(entries, k, j) != [] {
      TaggedColumn(entries, w, k, j);
    }
  }

  lemma AllAddUpIff(stored: Grouped, entries: seq<FilteredResponseDet>, w: GroupingKey -> nat, k: GroupingKey)
    requires MapWidths(stored, w) && EntryWidths(entries, w) && Tagged(entries, k) && w(k) > 0
    ensures k in FoldInto(stored, entries, w) && |FoldInto(stored, entries, w)[k].aggregatingAttributes| == w(k)
    ensures forall j :: 0 <= j < w(k) ==>
      (SumCipher(Column(entries, k, j)) == FoldInto(stored, entries, w)[k].aggregatingAttributes[j] <==> Before(stored, k, j) == NullCipher)
  {
    FoldIsColumnSum(stored, entries, w, k, 0);
    forall j | 0 <= j < w(k)
      ensures SumCipher(Column(entries, k, j)) == FoldInto(stored, entries, w)[k].aggregatingAttributes[j] <==> Before(stored, k, j) == NullCipher
    {
      ProofAcceptedIff(stored, entries, w, k, j);
    }
  }

  method ProveColumns(ghost stored: Grouped, ghost entries: seq<FilteredResponseDet>, ghost w: GroupingKey -> nat, m: Grouped,
                      columns: seq<CipherVector>, k: GroupingKey, percent: real)
    returns (papList: seq<PublishedAggregationProof>, accepted: bool)
    requires MapWidths(stored, w) && EntryWidths(entries, w) && m == FoldInto(stored, entries, w) && IsColumns(columns, entries, w, k)
    requires 0.0 <= percent <= 1.0
    ensures k in m && |m[k].aggregatingAttributes| == |papList| == w(k)
    ensures forall j :: 0 <= j < w(k) ==>
              papList[j] == PublishedAggregationProof(Column(entries, k, j), m[k].aggregatingAttributes[j])
    ensures accepted <==> forall j :: 0 <= j < w(k) && j as real < Fraction(percent, w(k)) ==> Before(stored, k, j) == NullCipher
  {
    AllAddUpIff(stored, entries, w, k);
    AllColumns(entries, w, k);
    papList := AggregationListProofCreation(columns, m[k].aggregatingAttributes);
    accepted := AggregationListProofVerification(papList, percent);
  }

  /** The proofs of one group are accepted exactly when the map held nothing for the attributes whose proofs are checked; so
      always when the group was absent before. */
  method ProveGroup(ghost stored: Grouped, ghost entries: seq<FilteredResponseDet>, ghost w: GroupingKey -> nat, m: Grouped, cvMap: ProofMap,
                    k: GroupingKey, percent: real)
    returns (papList: seq<PublishedAggregationProof>, accepted: bool)
    requires MapWidths(stored, w) && EntryWidths(entries, w) && m == FoldInto(stored, entries, w) && Formatted(cvMap, entries, w)
    requires k in cvMap && 0.0 <= percent <= 1.0
    ensures k in m && |m[k].aggregatingAttributes| == |papList| == w(k)
    ensures forall j :: 0 <= j < w(k) ==>
              papList[j] == PublishedAggregationProof(Column(entries, k, j), m[k].aggregatingAttributes[j])
    ensures accepted <==> forall j :: 0 <= j < w(k) && j as real < Fraction(percent, w(k)) ==> Before(stored, k, j) == NullCipher
  {
    GroupColumns(cvMap, entries, w, k);
    papList, accepted := ProveColumns(stored, entries, w, m, cvMap[k], k, percent);
  }

  /** The proof of attribute j is accepted exactly when the map held nothing for it before. */
  lemma ProofAcceptedIff(stored: Grouped, entries: seq<FilteredResponseDet>, w: GroupingKey -> nat, k: GroupingKey, j: nat)
    requires MapWidths(stored, w) && EntryWidths(entries, w) && j < w(k) && Tagged(entries, k)
    ensures k in FoldInto(stored, entries, w)
    ensures SumCipher(Column(entries, k, j)) == FoldInto(stored, entries, w)[k].aggregatingAttributes[j]
            <==> Before(stored, k, j) == NullCipher
  {
    FoldIsColumnSum(stored, entries, w, k, j);
    var old', sum := Before(stored, k, j), SumCipher(Column(entries, k, j));
    assert Add(old'.K, sum.K) == sum.K <==> old'.K == 0;
    assert Add(old'.C, sum.C) == sum.C <==> old'.C == 0;
  }
}
