/** What a survey asks, and why filtering and grouping by tags selects exactly what the plaintext query selects
    (services/service.go). */
module Query {
  import opened Group
  import opened Sums
  import opened ElGamal
  import opened Codec
  import opened Options
  import opened Responses
  import opened Table
  import opened LocalAggregation
  import opened SurveyStore
  import opened Layout
  import opened Decimal
  import opened Filter
  import opened Tagging

  datatype WhereQueryAttribute = WhereQueryAttribute(name: string, value: CipherText)

  /** SELECT SUM sum WHERE pred(where) GROUP BY groupBy; an empty predicate string is None. */
  datatype SurveyQuery = SurveyQuery(groupBy: seq<string>, sum: seq<string>, where: seq<WhereQueryAttribute>, pred: Option<Predicate>,
                                     proofs: bool)

  function Names(q: SurveyQuery): (a: Attributes)
    ensures |a.where| == |q.where|
  {
    Attributes(q.groupBy, q.sum, seq(|q.where|, i requires 0 <= i < |q.where| => q.where[i].name))
  }

  function WhereValues(q: SurveyQuery): (r: CipherVector)
    ensures |r| == |q.where| && forall i :: 0 <= i < |r| ==> r[i] == q.where[i].value
  {
    seq(|q.where|, i requires 0 <= i < |q.where| => q.where[i].value)
  }

  // ---------- which attribute is read where ----------

  /** The ciphertext is the attribute of this name: the encrypted one if there is one, else the clear one unencrypted, else
      an unencrypted 0. */
  predicate IsAttribute(c: CipherText, name: string, clear: map<string, int>, enc: map<string, CipherText>) {
    c == if name in enc then enc[name] else CipherText(Null, IntToPoint(if name in clear then clear[name] else 0))
  }

  /** Column i is attribute number i of the list. */
  predicate AreAttributes(cv: CipherVector, names: seq<string>, clear: map<string, int>, enc: map<string, CipherText>) {
    |cv| == |names| && forall i :: 0 <= i < |cv| ==> IsAttribute(cv[i], names[i], clear, enc)
  }

  predicate AreWheres(cv: CipherVector, q: SurveyQuery, clear: map<string, int>, enc: map<string, CipherText>) {
    |cv| == |q.where| && forall i :: 0 <= i < |cv| ==> IsAttribute(cv[i], q.where[i].name, clear, enc)
  }

  /** A row with an encrypted where or group attribute is appended, each column read from the query's attribute of that
      position. */
  lemma EncryptedRowStored(r: Received, cr: DpResponse, q: SurveyQuery)
    requires StoreShaped(r, Names(q)) && (cr.whereEnc.Some? || cr.groupByEnc.Some?)
    ensures var r' := Inserted(r, cr, Names(q));
            && r'.dpResponsesAggr == r.dpResponsesAggr && |r'.dpResponses| == |r.dpResponses| + 1
            && r'.dpResponses[..|r.dpResponses|] == r.dpResponses
            && var pr := r'.dpResponses[|r.dpResponses|];
               && AreWheres(pr.whereEnc, q, cr.whereClear, if cr.whereEnc.None? then map[] else cr.whereEnc.value)
               && AreAttributes(pr.groupByEnc, q.groupBy, cr.groupByClear, if cr.groupByEnc.None? then map[] else cr.groupByEnc.value)
               && AreAttributes(pr.aggregatingAttributes, q.sum, cr.aggregatingAttributesClear, cr.aggregatingAttributesEnc)
  {
  }

  /** Any other row joins the pre-aggregated rows: the first with its group and where values opens an entry with its
      attributes, a later one adds its sums to it. */
  lemma ClearRowStored(r: Received, cr: DpResponse, q: SurveyQuery)
    requires StoreShaped(r, Names(q)) && cr.whereEnc.None? && cr.groupByEnc.None?
    ensures var r', t := Inserted(r, cr, Names(q)), TupleOf(cr, Names(q));
            && r'.dpResponses == r.dpResponses && r'.dpResponsesAggr.Keys == r.dpResponsesAggr.Keys + {t}
            && (forall k :: k in r.dpResponsesAggr && k != t ==> r'.dpResponsesAggr[k] == r.dpResponsesAggr[k])
            && var pr := r'.dpResponsesAggr[t];
               if t in r.dpResponsesAggr then
                 var before := r.dpResponsesAggr[t];
                 && pr.whereEnc == before.whereEnc && pr.groupByEnc == before.groupByEnc && |pr.aggregatingAttributes| == |q.sum|
                 && forall c, added :: 0 <= c < |q.sum| && IsAttribute(added, q.sum[c], cr.aggregatingAttributesClear, cr.aggregatingAttributesEnc) ==>
                      pr.aggregatingAttributes[c] == CipherText(Add(before.aggregatingAttributes[c].K, added.K), Add(before.aggregatingAttributes[c].C, added.C))
               else
                 && AreWheres(pr.whereEnc, q, cr.whereClear, map[]) && AreAttributes(pr.groupByEnc, q.groupBy, cr.groupByClear, map[])
                 && AreAttributes(pr.aggregatingAttributes, q.sum, cr.aggregatingAttributesClear, cr.aggregatingAttributesEnc)
  {
    assert forall i :: 0 <= i < |q.where| ==> Names(q).where[i] == q.where[i].name;
  }

  /** Two clear rows share an entry exactly when all their group and where values agree, a missing one being 0. */
  lemma SameEntryIff(a: DpResponse, b: DpResponse, q: SurveyQuery)
    ensures TupleOf(a, Names(q)) == TupleOf(b, Names(q)) <==>
      && (forall i :: 0 <= i < |q.groupBy| ==>
            var v := q.groupBy[i];
            (if v in a.groupByClear then a.groupByClear[v] else 0) == (if v in b.groupByClear then b.groupByClear[v] else 0))
      && (forall i :: 0 <= i < |q.where| ==>
            var v := q.where[i].name;
            (if v in a.whereClear then a.whereClear[v] else 0) == (if v in b.whereClear then b.whereClear[v] else 0))
  {
    var names := Names(q);
    KeyInjective(ClearValues(names.groupBy, a.groupByClear), ClearValues(names.groupBy, b.groupByClear));
    KeyInjective(ClearValues(names.where, a.whereClear), ClearValues(names.where, b.whereClear));
    SameValuesIff(names.groupBy, a.groupByClear, b.groupByClear);
    SameValuesIff(names.where, a.whereClear, b.whereClear);
    assert forall i :: 0 <= i < |q.where| ==> names.where[i] == q.where[i].name;
  }

  lemma SameValuesIff(names: seq<string>, a: map<string, int>, b: map<string, int>)
    ensures ClearValues(names, a) == ClearValues(names, b)
            <==> forall i :: 0 <= i < |names| ==> ClearValue(a, names[i]) == ClearValue(b, names[i])
  {
    if ClearValues(names, a) == ClearValues(names, b) {
      forall i | 0 <= i < |names| ensures ClearValue(a, names[i]) == ClearValue(b, names[i]) {
        assert ClearValues(names, a)[i] == ClearValues(names, b)[i];
      }
    }
  }

  // ---------- the predicate ----------

  predicate Filtering(q: SurveyQuery) {
    q.pred.Some? && q.where != []
  }

  /** The predicate speaks of the query's own where attributes only; on others its evaluation fails. */
  predicate WellFormed(q: SurveyQuery) {
    Filtering(q) ==> Scoped(q.pred.value, |q.where|)
  }

  // ---------- tags ----------

  /** The tag of a ciphertext: that of the plaintext it holds under the collective key. */
  function TagOf(servers: seq<Server>): CipherText -> Point {
    c => Tag(servers, Open(CollectiveKey(servers), c))
  }

  function TagPoints(servers: seq<Server>, points: seq<Point>): (r: seq<Point>)
    ensures |r| == |points| && forall i :: 0 <= i < |points| ==> r[i] == Tag(servers, points[i])
  {
    Map(M => Tag(servers, M), points)
  }

  /** The grouping key of plaintext group values. */
  function GroupTag(servers: seq<Server>, groups: seq<Point>): GroupingKey {
    DetKey(TagPoints(servers, groups))
  }

  /** Different groups have different keys, whatever their lengths. */
  lemma GroupTagInjective(servers: seq<Server>, a: seq<Point>, b: seq<Point>)
    requires SecretsNonzero(servers)
    ensures GroupTag(servers, a) == GroupTag(servers, b) <==> a == b
  {
    DetKeyInjective(TagPoints(servers, a), TagPoints(servers, b));
    if TagPoints(servers, a) == TagPoints(servers, b) {
      forall i | 0 <= i < |a| ensures a[i] == b[i] {
        assert TagPoints(servers, a)[i] == TagPoints(servers, b)[i];
        TagInjective(servers, a[i], b[i]);
      }
    }
  }

  /** The tags of where values, as the filter sees them. */
  function WhereTags(servers: seq<Server>, values: CipherVector): (r: seq<GroupingKey>)
    ensures |r| == |values|
  {
    PointStrings(Map(TagOf(servers), values))
  }

  // ---------- what is selected ----------

  /** The plaintext WHERE clause. */
  predicate Selected(servers: seq<Server>, q: SurveyQuery, wheres: seq<Point>) {
    Filtering(q) && Scoped(q.pred.value, |q.where|) && |wheres| == |q.where| ==>
      Holds(q.pred.value, OpenVector(CollectiveKey(servers), WhereValues(q)), wheres)
  }

  /** The plaintext query as a regrouping: unselected rows are dropped, the others go to the key of their group. */
  function Grouping(servers: seq<Server>, q: SurveyQuery): GroupWhere -> Option<GroupingKey> {
    (gw: GroupWhere) => if Selected(servers, q, gw.wheres) then Some(GroupTag(servers, gw.groups)) else None
  }

  lemma TagsKeepEqualities(servers: seq<Server>, qs: CipherVector, rs: CipherVector)
    requires SecretsNonzero(servers) && |qs| == |rs|
    ensures SameEqualities(WhereTags(servers, qs), WhereTags(servers, rs),
                           OpenVector(CollectiveKey(servers), qs), OpenVector(CollectiveKey(servers), rs))
  {
    var x := CollectiveKey(servers);
    forall i: nat, j: nat | i < 2 * |qs| && j < 2 * |qs|
      ensures Variable(i, WhereTags(servers, qs), WhereTags(servers, rs)) == Variable(j, WhereTags(servers, qs), WhereTags(servers, rs))
              <==> Variable(i, OpenVector(x, qs), OpenVector(x, rs)) == Variable(j, OpenVector(x, qs), OpenVector(x, rs))
    {
      var c, d := Variable(i, qs, rs), Variable(j, qs, rs);
      TagInjective(servers, Open(x, c), Open(x, d));
      PointStringInjective(Tag(servers, Open(x, c)), Tag(servers, Open(x, d)));
    }
  }

  /** Evaluating the predicate on the tags of a row gives the plaintext verdict. */
  lemma VerdictOnTags(servers: seq<Server>, q: SurveyQuery, pr: ProcessResponse)
    requires SecretsNonzero(servers) && WellFormed(q) && Filtering(q) && |pr.whereEnc| == |q.where|
    ensures Holds(q.pred.value, WhereTags(servers, WhereValues(q)), WhereTags(servers, pr.whereEnc))
            == Selected(servers, q, OpenVector(CollectiveKey(servers), pr.whereEnc))
  {
    TagsKeepEqualities(servers, WhereValues(q), pr.whereEnc);
    SameVerdict(q.pred.value, WhereTags(servers, WhereValues(q)), WhereTags(servers, pr.whereEnc),
                OpenVector(CollectiveKey(servers), WhereValues(q)), OpenVector(CollectiveKey(servers), pr.whereEnc));
  }

  /** The rows together with their tags. */
  function TaggedRows(servers: seq<Server>, prs: seq<ProcessResponse>): (r: seq<ProcessResponseDet>)
    ensures |r| == |prs| && forall i :: 0 <= i < |prs| ==> r[i] == WithTags(TagOf(servers), prs[i])
  {
    Map(pr => WithTags(TagOf(servers), pr), prs)
  }

  /** The rows selected by the plaintext query, in order, tagged. */
  function SelectRows(servers: seq<Server>, q: SurveyQuery, prs: seq<ProcessResponse>): seq<FilteredResponseDet> {
    if prs == [] then []
    else
      var pr := prs[|prs| - 1];
      SelectRows(servers, q, prs[..|prs| - 1])
      + (if Selected(servers, q, OpenVector(CollectiveKey(servers), pr.whereEnc)) then [Unfiltered(WithTags(TagOf(servers), pr))] else [])
  }

  /** Filtering by tags keeps exactly the rows whose plaintext where values satisfy the predicate, in order. */
  lemma {:induction false} KeptIsSelected(servers: seq<Server>, q: SurveyQuery, prs: seq<ProcessResponse>)
    requires SecretsNonzero(servers) && WellFormed(q) && Filtering(q) && AllShaped(prs, Names(q))
    ensures Kept(q.pred.value, WhereTags(servers, WhereValues(q)), TaggedRows(servers, prs)) == SelectRows(servers, q, prs)
  {
    if prs != [] {
      var n := |prs| - 1;
      KeptIsSelected(servers, q, prs[..n]);
      assert TaggedRows(servers, prs)[..n] == TaggedRows(servers, prs[..n]);
      VerdictOnTags(servers, q, prs[n]);
    }
  }

  function UnfilteredRow(servers: seq<Server>, pr: ProcessResponse): FilteredResponseDet {
    Unfiltered(WithTags(TagOf(servers), pr))
  }

  /** Without a predicate every row is selected. */
  lemma {:induction false} AllSelected(servers: seq<Server>, q: SurveyQuery, prs: seq<ProcessResponse>)
    requires !Filtering(q)
    ensures SelectRows(servers, q, prs) == Map(pr => UnfilteredRow(servers, pr), prs)
  {
    if prs != [] {
      var n := |prs| - 1;
      AllSelected(servers, q, prs[..n]);
      MapLast(pr => UnfilteredRow(servers, pr), prs);
    }
  }

  lemma MapLast<A, B>(f: A -> B, xs: seq<A>)
    requires xs != []
    ensures Map(f, xs) == Map(f, xs[..|xs| - 1]) + [f(xs[|xs| - 1])]
  {
  }

  /** A selected row carries the key of its own group and has the widths of the query. */
  predicate RightEntry(servers: seq<Server>, q: SurveyQuery, key: GroupingKey, fr: FilteredResponse) {
    && |fr.groupByEnc| == |q.groupBy| && |fr.aggregatingAttributes| == |q.sum|
    && key == GroupTag(servers, OpenVector(CollectiveKey(servers), fr.groupByEnc))
  }

  lemma RowTag(servers: seq<Server>, pr: ProcessResponse)
    ensures WithTags(TagOf(servers), pr).detTagGroupBy == GroupTag(servers, OpenVector(CollectiveKey(servers), pr.groupByEnc))
  {
    assert Map(TagOf(servers), pr.groupByEnc) == TagPoints(servers, OpenVector(CollectiveKey(servers), pr.groupByEnc));
  }

  /** As a table, the selected rows are the plaintext query's rows. */
  lemma {:induction false} SelectedMeaning(servers: seq<Server>, q: SurveyQuery, prs: seq<ProcessResponse>)
    ensures var x := CollectiveKey(servers);
            EntryRows(x, SelectRows(servers, q, prs)) == Regroup(OpenedRows(x, prs), Grouping(servers, q))
  {
    if prs != [] {
      var x, n := CollectiveKey(servers), |prs| - 1;
      var pr := prs[n];
      SelectedMeaning(servers, q, prs[..n]);
      assert OpenedRows(x, prs)[..n] == OpenedRows(x, prs[..n]);
      var before := SelectRows(servers, q, prs[..n]);
      if Selected(servers, q, OpenVector(x, pr.whereEnc)) {
        RowTag(servers, pr);
        MapLast(e => EntryRow(x, e), before + [UnfilteredRow(servers, pr)]);
        assert (before + [UnfilteredRow(servers, pr)])[..|before|] == before;
      } else {
        assert before + [] == before;
      }
    }
  }

  predicate RightEntries(servers: seq<Server>, q: SurveyQuery, entries: seq<FilteredResponseDet>) {
    forall i :: 0 <= i < |entries| ==> RightEntry(servers, q, entries[i].detTagGroupBy, entries[i].fr)
  }

  lemma {:induction false} SelectedRight(servers: seq<Server>, q: SurveyQuery, prs: seq<ProcessResponse>)
    requires AllShaped(prs, Names(q))
    ensures RightEntries(servers, q, SelectRows(servers, q, prs))
  {
    if prs != [] {
      SelectedRight(servers, q, prs[..|prs| - 1]);
      RowTag(servers, prs[|prs| - 1]);
    }
  }

  /** Every group is stored under its own key, with the widths of the query. */
  ghost predicate RightMap(servers: seq<Server>, q: SurveyQuery, m: Grouped) {
    forall k :: k in m ==> RightEntry(servers, q, k, m[k])
  }
}
