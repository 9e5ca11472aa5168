/** How rows are laid out as vectors and matrices for one protocol and put together again afterwards
    (protocols/tools_protocol.go). */
module Layout {
  import opened Group
  import opened Sums
  import opened ElGamal
  import opened Codec
  import opened Responses
  import opened Shuffle
  import opened Table
  import opened SurveyStore

  /** Two recorded widths of one row. */
  datatype Pair = Pair(first: nat, second: nat)

  // ---------- tagging ----------

  /** All where and group ciphertexts, row by row. */
  function TagTargets(p: seq<ProcessResponse>): CipherVector {
    if p == [] then [] else p[0].whereEnc + p[0].groupByEnc + TagTargets(p[1..])
  }

  /** The where ciphertexts of the first row come first, then its group ciphertexts, then those of the other rows. */
  lemma TargetsOrder(pr: ProcessResponse, rest: seq<ProcessResponse>)
    ensures var cv, w, g := TagTargets([pr] + rest), |pr.whereEnc|, |pr.whereEnc| + |pr.groupByEnc|;
            |cv| >= g && cv[..w] == pr.whereEnc && cv[w..g] == pr.groupByEnc && cv[g..] == TagTargets(rest)
  {
    assert ([pr] + rest)[1..] == rest;
  }

  method ProcessResponseToCipherVector(p: seq<ProcessResponse>) returns (cv: CipherVector)
    ensures cv == TagTargets(p)
  {
    cv := [];
    for i := 0 to |p|
      invariant cv + TagTargets(p[i..]) == TagTargets(p)
    {
      var v := p[i];
      assert p[i..][1..] == p[i + 1..];
      cv := cv + v.whereEnc;
      cv := cv + v.groupByEnc;
    }
  }

  function PointStrings(points: seq<Point>): (r: seq<GroupingKey>)
    ensures |r| == |points| && forall j :: 0 <= j < |points| ==> r[j] == PointString(points[j])
  {
    seq(|points|, j requires 0 <= j < |points| => PointString(points[j]))
  }

  /** A row with the tags of its own where and group ciphertexts. */
  function WithTags(tag: CipherText -> Point, pr: ProcessResponse): ProcessResponseDet {
    ProcessResponseDet(pr, DetKey(Map(tag, pr.groupByEnc)), PointStrings(Map(tag, pr.whereEnc)))
  }

  /** The tags of some ciphertexts, cut off at a position. */
  lemma TakeTags(tag: CipherText -> Point, a: CipherVector, rest: CipherVector, detCt: seq<Point>, pos: nat)
    requires pos <= |detCt| && detCt[pos..] == Map(tag, a + rest)
    ensures pos + |a| <= |detCt| && detCt[pos..pos + |a|] == Map(tag, a) && detCt[pos + |a|..] == Map(tag, rest)
  {
    var tags, end := detCt[pos..], pos + |a|;
    assert |detCt| - pos == |tags| == |a + rest|;
    forall i | 0 <= i < |a| ensures detCt[pos..end][i] == Map(tag, a)[i] {
      assert detCt[pos..end][i] == tags[i];
    }
    forall i | 0 <= i < |rest| ensures detCt[end..][i] == Map(tag, rest)[i] {
      assert detCt[end..][i] == tags[|a| + i];
    }
  }

  /** One row takes its tags from the given position. */
  method TagRow(detCt: seq<Point>, start: nat, pr: ProcessResponse, ghost rest: CipherVector, ghost tag: CipherText -> Point)
    returns (det: ProcessResponseDet, pos: nat)
    requires start <= |detCt| && detCt[start..] == Map(tag, pr.whereEnc + (pr.groupByEnc + rest))
    ensures det == WithTags(tag, pr) && pos <= |detCt| && detCt[pos..] == Map(tag, rest)
  {
    pos := start;
    TakeTags(tag, pr.whereEnc, pr.groupByEnc + rest, detCt, pos);
    var whereEncLen := |pr.whereEnc|;
    var deterministicWhereAttributes := PointStrings(detCt[pos..pos + whereEncLen]);
    pos := pos + whereEncLen;
    TakeTags(tag, pr.groupByEnc, rest, detCt, pos);
    var groupByLen := |pr.groupByEnc|;
    var deterministicGroupAttributes := detCt[pos..pos + groupByLen];
    pos := pos + groupByLen;
    det := ProcessResponseDet(pr, DetKey(deterministicGroupAttributes), deterministicWhereAttributes);
  }

  /** The targets from row i on. */
  lemma NextRow(p: seq<ProcessResponse>, i: nat)
    requires i < |p|
    ensures TagTargets(p[i..]) == p[i].whereEnc + (p[i].groupByEnc + TagTargets(p[i + 1..]))
  {
    var w, g, rest := p[i].whereEnc, p[i].groupByEnc, TagTargets(p[i + 1..]);
    assert p[i..][1..] == p[i + 1..];
    assert w + g + rest == w + (g + rest);
  }

  /** Every row gets back exactly the tags of its own ciphertexts. */
  method DeterCipherVectorToProcessResponseDet(detCt: seq<Point>, targetOfSwitch: seq<ProcessResponse>, ghost tag: CipherText -> Point)
    returns (result: seq<ProcessResponseDet>)
    requires detCt == Map(tag, TagTargets(targetOfSwitch))
    ensures |result| == |targetOfSwitch| && forall i :: 0 <= i < |result| ==> result[i] == WithTags(tag, targetOfSwitch[i])
  {
    result := [];
    var pos := 0;
    for i := 0 to |targetOfSwitch|
      invariant |result| == i && forall l :: 0 <= l < i ==> result[l] == WithTags(tag, targetOfSwitch[l])
      invariant 0 <= pos <= |detCt| && detCt[pos..] == Map(tag, TagTargets(targetOfSwitch[i..]))
    {
      NextRow(targetOfSwitch, i);
      var det, next := TagRow(detCt, pos, targetOfSwitch[i], TagTargets(targetOfSwitch[i + 1..]), tag);
      result, pos := result + [det], next;
    }
  }

  // ---------- key switching ----------

  function SwitchTargets(fr: seq<FilteredResponse>): CipherVector {
    if fr == [] then [] else fr[0].groupByEnc + fr[0].aggregatingAttributes + SwitchTargets(fr[1..])
  }

  /** The group ciphertexts of the first response come first, then its sums, then those of the others. */
  lemma SwitchOrder(f: FilteredResponse, rest: seq<FilteredResponse>)
    ensures var cv, g, s := SwitchTargets([f] + rest), |f.groupByEnc|, |f.groupByEnc| + |f.aggregatingAttributes|;
            |cv| >= s && cv[..g] == f.groupByEnc && cv[g..s] == f.aggregatingAttributes && cv[s..] == SwitchTargets(rest)
  {
    assert ([f] + rest)[1..] == rest;
  }

  function SwitchLengths(fr: seq<FilteredResponse>): (r: seq<Pair>)
    ensures |r| == |fr| && forall i :: 0 <= i < |fr| ==> r[i] == Pair(|fr[i].groupByEnc|, |fr[i].aggregatingAttributes|)
  {
    seq(|fr|, i requires 0 <= i < |fr| => Pair(|fr[i].groupByEnc|, |fr[i].aggregatingAttributes|))
  }

  lemma NextTargets(cv: CipherVector, fr: seq<FilteredResponse>, i: nat)
    requires i < |fr|
    ensures cv + fr[i].groupByEnc + fr[i].aggregatingAttributes + SwitchTargets(fr[i + 1..]) == cv + SwitchTargets(fr[i..])
  {
    var g, a, rest := fr[i].groupByEnc, fr[i].aggregatingAttributes, SwitchTargets(fr[i + 1..]);
    assert fr[i..][1..] == fr[i + 1..];
    assert SwitchTargets(fr[i..]) == g + a + rest;
    assert cv + g + a + rest == cv + (g + a + rest);
  }

  method FilteredResponseToCipherVector(fr: seq<FilteredResponse>) returns (cv: CipherVector, lengths: seq<Pair>)
    ensures cv == SwitchTargets(fr) && lengths == SwitchLengths(fr)
  {
    cv, lengths := [], [];
    for i := 0 to |fr|
      invariant cv + SwitchTargets(fr[i..]) == SwitchTargets(fr)
      invariant lengths == SwitchLengths(fr)[..i]
    {
      var v := fr[i];
      NextTargets(cv, fr, i);
      cv := cv + v.groupByEnc;
      cv := cv + v.aggregatingAttributes;
      lengths := lengths + [Pair(|v.groupByEnc|, |v.aggregatingAttributes|)];
    }
  }

  /** The vector is long enough for all recorded widths. */
  predicate Covers(cv: CipherVector, lengths: seq<Pair>) {
    lengths == []
    || (lengths[0].first + lengths[0].second <= |cv| && Covers(cv[lengths[0].first + lengths[0].second..], lengths[1..]))
  }

  function Regrouped(cv: CipherVector, lengths: seq<Pair>): (fr: seq<FilteredResponse>)
    requires Covers(cv, lengths)
    ensures |fr| == |lengths|
    decreases |lengths|
  {
    if lengths == [] then []
    else
      var g, end := lengths[0].first, lengths[0].first + lengths[0].second;
      [FilteredResponse(cv[..g], cv[g..end])] + Regrouped(cv[end..], lengths[1..])
  }

  /** One response cut off the vector. */
  lemma NextResponse(cv: CipherVector, pos: nat, lengths: seq<Pair>, i: nat)
    requires i < |lengths| && pos <= |cv| && Covers(cv[pos..], lengths[i..])
    ensures var mid, end := pos + lengths[i].first, pos + lengths[i].first + lengths[i].second;
            end <= |cv| && Covers(cv[end..], lengths[i + 1..])
            && Regrouped(cv[pos..], lengths[i..]) == [FilteredResponse(cv[pos..mid], cv[mid..end])] + Regrouped(cv[end..], lengths[i + 1..])
  {
    var g, n := lengths[i].first, lengths[i].first + lengths[i].second;
    assert lengths[i..][1..] == lengths[i + 1..] && lengths[i..][0] == lengths[i];
    assert cv[pos..][n..] == cv[pos + n..];
    assert cv[pos..][..g] == cv[pos..pos + g] && cv[pos..][g..n] == cv[pos + g..pos + n];
  }

  /** The responses cut off so far, and the rest of the vector. */
  ghost predicate CutUpTo(fr: seq<FilteredResponse>, cv: CipherVector, pos: nat, lengths: seq<Pair>, i: nat)
    requires Covers(cv, lengths)
  {
    && pos <= |cv| && i <= |lengths| && Covers(cv[pos..], lengths[i..])
    && fr + Regrouped(cv[pos..], lengths[i..]) == Regrouped(cv, lengths)
  }

  lemma CutNext(fr: seq<FilteredResponse>, cv: CipherVector, pos: nat, lengths: seq<Pair>, i: nat)
    requires Covers(cv, lengths) && CutUpTo(fr, cv, pos, lengths, i) && i < |lengths|
    ensures var mid, end := pos + lengths[i].first, pos + lengths[i].first + lengths[i].second;
            end <= |cv| && CutUpTo(fr + [FilteredResponse(cv[pos..mid], cv[mid..end])], cv, end, lengths, i + 1)
  {
    var mid, end := pos + lengths[i].first, pos + lengths[i].first + lengths[i].second;
    NextResponse(cv, pos, lengths, i);
    AppendAssoc(fr, FilteredResponse(cv[pos..mid], cv[mid..end]), Regrouped(cv[end..], lengths[i + 1..]));
  }

  method CipherVectorToFilteredResponse(cv: CipherVector, lengths: seq<Pair>) returns (filteredResponse: seq<FilteredResponse>)
    requires Covers(cv, lengths)
    ensures filteredResponse == Regrouped(cv, lengths)
  {
    filteredResponse := [];
    var pos := 0;
    for i := 0 to |lengths|
      invariant 0 <= pos <= |cv| && CutUpTo(filteredResponse, cv, pos, lengths, i)
    {
      var length := lengths[i];
      CutNext(filteredResponse, cv, pos, lengths, i);
      var groupByEnc := cv[pos..pos + length.first];
      pos := pos + length.first;
      var aggregatingAttributes := cv[pos..pos + length.second];
      pos := pos + length.second;
      filteredResponse := filteredResponse + [FilteredResponse(groupByEnc, aggregatingAttributes)];
    }
  }

  lemma {:induction false} SwitchedCovered(fr: seq<FilteredResponse>, cv: CipherVector)
    requires |cv| == |SwitchTargets(fr)|
    ensures Covers(cv, SwitchLengths(fr))
    decreases |fr|
  {
    if fr != [] {
      var end := |fr[0].groupByEnc| + |fr[0].aggregatingAttributes|;
      assert SwitchLengths(fr)[1..] == SwitchLengths(fr[1..]);
      SwitchedCovered(fr[1..], cv[end..]);
    }
  }

  /** Responses of any widths survive flattening, whatever key switching does to each element in between: what comes
      back opens, response by response, to what went in. */
  lemma {:induction false} SwitchKeepsLayout(x: Scalar, y: Scalar, fr: seq<FilteredResponse>, cv: CipherVector)
    requires OpenVector(y, cv) == OpenVector(x, SwitchTargets(fr))
    ensures Covers(cv, SwitchLengths(fr))
    ensures forall i :: 0 <= i < |fr| ==>
      OpenVector(y, Regrouped(cv, SwitchLengths(fr))[i].groupByEnc) == OpenVector(x, fr[i].groupByEnc)
      && OpenVector(y, Regrouped(cv, SwitchLengths(fr))[i].aggregatingAttributes) == OpenVector(x, fr[i].aggregatingAttributes)
    decreases |fr|
  {
    SwitchedCovered(fr, cv);
    if fr != [] {
      var g, end := |fr[0].groupByEnc|, |fr[0].groupByEnc| + |fr[0].aggregatingAttributes|;
      var rest := SwitchTargets(fr[1..]);
      assert SwitchLengths(fr)[1..] == SwitchLengths(fr[1..]);
      assert OpenVector(y, cv[end..]) == OpenVector(x, rest) by { OpenVectorConcat(x, fr[0].groupByEnc + fr[0].aggregatingAttributes, rest); }
      SwitchKeepsLayout(x, y, fr[1..], cv[end..]);
      FirstOpens(x, y, fr[0], rest, cv);
    }
  }

  lemma FirstOpens(x: Scalar, y: Scalar, f: FilteredResponse, rest: CipherVector, cv: CipherVector)
    requires OpenVector(y, cv) == OpenVector(x, f.groupByEnc + f.aggregatingAttributes + rest)
    ensures var g, end := |f.groupByEnc|, |f.groupByEnc| + |f.aggregatingAttributes|;
            OpenVector(y, cv[..g]) == OpenVector(x, f.groupByEnc) && OpenVector(y, cv[g..end]) == OpenVector(x, f.aggregatingAttributes)
  {
    var all := f.groupByEnc + f.aggregatingAttributes + rest;
    forall i | 0 <= i < |cv| ensures Open(y, cv[i]) == Open(x, all[i]) {
      assert OpenVector(y, cv)[i] == OpenVector(x, all)[i];
    }
  }

  /** Regrouping and flattening with the recorded lengths is the identity, too. */
  lemma {:induction false} FlattenRegrouped(fr: seq<FilteredResponse>, cv: CipherVector)
    requires |cv| == |SwitchTargets(fr)|
    ensures Covers(cv, SwitchLengths(fr)) && SwitchTargets(Regrouped(cv, SwitchLengths(fr))) == cv
    decreases |fr|
  {
    SwitchedCovered(fr, cv);
    if fr != [] {
      var g, end := |fr[0].groupByEnc|, |fr[0].groupByEnc| + |fr[0].aggregatingAttributes|;
      assert SwitchLengths(fr)[1..] == SwitchLengths(fr[1..]);
      FlattenRegrouped(fr[1..], cv[end..]);
      assert cv == cv[..g] + cv[g..end] + cv[end..];
    }
  }

  /** Flattening and regrouping with the recorded lengths is the identity. */
  lemma {:induction false} SwitchLayoutRoundTrip(fr: seq<FilteredResponse>)
    ensures Covers(SwitchTargets(fr), SwitchLengths(fr)) && Regrouped(SwitchTargets(fr), SwitchLengths(fr)) == fr
  {
    SwitchedCovered(fr, SwitchTargets(fr));
    if fr != [] {
      var g, end := |fr[0].groupByEnc|, |fr[0].groupByEnc| + |fr[0].aggregatingAttributes|;
      var cv := SwitchTargets(fr);
      SwitchLayoutRoundTrip(fr[1..]);
      assert SwitchLengths(fr)[1..] == SwitchLengths(fr[1..]);
      assert cv[..g] == fr[0].groupByEnc && cv[g..end] == fr[0].aggregatingAttributes && cv[end..] == SwitchTargets(fr[1..]);
    }
  }

  // ---------- shuffling ----------

  function Dummy(pr: ProcessResponse): (r: ProcessResponse)
    ensures |r.aggregatingAttributes| == |pr.aggregatingAttributes|
  {
    ProcessResponse(pr.whereEnc, pr.groupByEnc, seq(|pr.aggregatingAttributes|, _ => IntToCipherText(0)))
  }

  /** A single row is accompanied by a dummy one. */
  function Padded(pr: seq<ProcessResponse>): seq<ProcessResponse> {
    if |pr| == 1 then pr + [Dummy(pr[0])] else pr
  }

  /** There are at least two rows to shuffle: beside a single one stands a row of its group and where values with zeros. */
  lemma PaddedRows(prs: seq<ProcessResponse>)
    ensures prs != [] ==> |Padded(prs)| >= 2
    ensures |prs| != 1 ==> Padded(prs) == prs
    ensures |prs| == 1 ==>
      var p := Padded(prs);
      && |p| == 2 && p[0] == prs[0] && p[1].whereEnc == prs[0].whereEnc && p[1].groupByEnc == prs[0].groupByEnc
      && |p[1].aggregatingAttributes| == |prs[0].aggregatingAttributes|
      && forall c :: 0 <= c < |p[1].aggregatingAttributes| ==> p[1].aggregatingAttributes[c] == CipherText(Null, IntToPoint(0))
  {
  }

  function MatrixRow(pr: ProcessResponse): CipherVector {
    pr.groupByEnc + pr.whereEnc + pr.aggregatingAttributes
  }

  function MatrixRows(pr: seq<ProcessResponse>): (r: Matrix)
    ensures |r| == |pr| && forall i :: 0 <= i < |pr| ==> r[i] == MatrixRow(pr[i])
  {
    seq(|pr|, i requires 0 <= i < |pr| => MatrixRow(pr[i]))
  }

  function MatrixLengths(pr: seq<ProcessResponse>): (r: seq<Pair>)
    ensures |r| == |pr| && forall i :: 0 <= i < |pr| ==> r[i] == Pair(|pr[i].groupByEnc|, |pr[i].whereEnc|)
  {
    seq(|pr|, i requires 0 <= i < |pr| => Pair(|pr[i].groupByEnc|, |pr[i].whereEnc|))
  }

  method ProcessResponseToMatrixCipherText(pr: seq<ProcessResponse>) returns (cv: Matrix, lengths: seq<Pair>)
    ensures cv == MatrixRows(Padded(pr)) && lengths == MatrixLengths(Padded(pr))
  {
    var rows := pr;
    if |pr| == 1 {
      var zeros: CipherVector := [];
      while |zeros| < |pr[0].aggregatingAttributes|
        invariant |zeros| <= |pr[0].aggregatingAttributes| && forall i :: 0 <= i < |zeros| ==> zeros[i] == IntToCipherText(0)
      {
        zeros := zeros + [IntToCipherText(0)];
      }
      var toAddPr := ProcessResponse(pr[0].whereEnc, pr[0].groupByEnc, zeros);
      assert zeros == Dummy(pr[0]).aggregatingAttributes;
      rows := pr + [toAddPr];
    }
    cv, lengths := [], [];
    for i := 0 to |rows|
      invariant cv == MatrixRows(rows)[..i] && lengths == MatrixLengths(rows)[..i]
    {
      var v := rows[i];
      var row := v.groupByEnc;
      row := row + v.whereEnc;
      row := row + v.aggregatingAttributes;
      cv, lengths := cv + [row], lengths + [Pair(|v.groupByEnc|, |v.whereEnc|)];
    }
  }

  function SplitRow(row: CipherVector, l: Pair): ProcessResponse
    requires l.first + l.second <= |row|
  {
    ProcessResponse(row[l.first..l.first + l.second], row[..l.first], row[l.first + l.second..])
  }

  predicate Splittable(cv: Matrix, lengths: seq<Pair>) {
    |lengths| <= |cv| && forall i :: 0 <= i < |lengths| ==> lengths[i].first + lengths[i].second <= |cv[i]|
  }

  method MatrixCipherTextToProcessResponse(cv: Matrix, lengths: seq<Pair>) returns (pr: seq<ProcessResponse>)
    requires Splittable(cv, lengths)
    ensures |pr| == |lengths| && forall i :: 0 <= i < |pr| ==> pr[i] == SplitRow(cv[i], lengths[i])
  {
    pr := [];
    for i := 0 to |lengths|
      invariant |pr| == i && forall l :: 0 <= l < i ==> pr[l] == SplitRow(cv[l], lengths[l])
    {
      var groupByEncPos := lengths[i].first;
      var whereEncPos := groupByEncPos + lengths[i].second;
      pr := pr + [ProcessResponse(cv[i][groupByEncPos..whereEncPos], cv[i][..groupByEncPos], cv[i][whereEncPos..])];
    }
  }

  /** The group ciphertexts come first, then the where ciphertexts, then the others. */
  lemma RowOrder(pr: ProcessResponse)
    ensures var row, g, w := MatrixRow(pr), |pr.groupByEnc|, |pr.groupByEnc| + |pr.whereEnc|;
            |row| >= w && row[..g] == pr.groupByEnc && row[g..w] == pr.whereEnc && row[w..] == pr.aggregatingAttributes
  {
  }

  /** Rows of any widths that were not moved come back as they were. */
  lemma MatrixRoundTripRow(pr: ProcessResponse)
    ensures SplitRow(MatrixRow(pr), Pair(|pr.groupByEnc|, |pr.whereEnc|)) == pr
  {
    RowOrder(pr);
  }

  /** The opened form of SplitRow. */
  function SplitPoints(points: seq<Point>, l: Pair): Row<GroupWhere> {
    if l.first + l.second <= |points|
    then Row(GroupWhere(points[..l.first], points[l.first..l.first + l.second]), points[l.first + l.second..])
    else Row(GroupWhere([], []), [])
  }

  lemma SplitRowOpens(x: Scalar, row: CipherVector, l: Pair)
    requires l.first + l.second <= |row|
    ensures OpenedRow(x, SplitRow(row, l)) == SplitPoints(OpenVector(x, row), l)
  {
    var points, mid, end := OpenVector(x, row), l.first, l.first + l.second;
    assert OpenVector(x, row[..mid]) == points[..mid];
    assert OpenVector(x, row[mid..end]) == points[mid..end];
    assert OpenVector(x, row[end..]) == points[end..];
  }

  /** The widths recorded before the shuffle still split every row of the shuffled matrix, because all rows have the
      shape of the query; the rows then are the same rows in another order. */
  lemma SplitAfterShuffle(x: Scalar, pr: seq<ProcessResponse>, q: Attributes, shuffled: Matrix, split: seq<ProcessResponse>)
    requires AllShaped(pr, q) && |shuffled| == |pr| == |split|
    requires multiset(OpenMatrix(x, shuffled)) == multiset(OpenMatrix(x, MatrixRows(pr)))
    requires forall i :: 0 <= i < |shuffled| ==> |shuffled[i]| == |q.groupBy| + |q.where| + |q.sum|
    requires forall i :: 0 <= i < |split| ==> split[i] == SplitRow(shuffled[i], Pair(|q.groupBy|, |q.where|))
    ensures AllShaped(split, q)
    ensures multiset(OpenedRows(x, split)) == multiset(OpenedRows(x, pr))
  {
    var l := Pair(|q.groupBy|, |q.where|);
    var f := (points: seq<Point>) => SplitPoints(points, l);
    forall i | 0 <= i < |split| ensures OpenedRows(x, split)[i] == f(OpenMatrix(x, shuffled)[i]) {
      SplitRowOpens(x, shuffled[i], l);
    }
    assert OpenedRows(x, split) == Map(f, OpenMatrix(x, shuffled));
    forall i | 0 <= i < |pr| ensures OpenedRows(x, pr)[i] == f(OpenMatrix(x, MatrixRows(pr))[i]) {
      SplitRowOpens(x, MatrixRow(pr[i]), l);
      MatrixRoundTripRow(pr[i]);
    }
    assert OpenedRows(x, pr) == Map(f, OpenMatrix(x, MatrixRows(pr)));
    MapMultiset(f, OpenMatrix(x, shuffled), OpenMatrix(x, MatrixRows(pr)));
  }

  lemma DummyIsZero(x: Scalar, pr: ProcessResponse, k: GroupWhere, c: nat)
    ensures Share(OpenedRow(x, Dummy(pr)), k, c) == 0 && OpenedRow(x, Dummy(pr)).key == OpenedRow(x, pr).key
  {
    OpenPlain(x, IntToPoint(0));
  }

  /** The dummy row changes no group and no sum. */
  lemma PaddingNeutral(x: Scalar, pr: seq<ProcessResponse>)
    ensures Same(OpenedRows(x, Padded(pr)), OpenedRows(x, pr))
  {
    if |pr| == 1 {
      var r, d := OpenedRow(x, pr[0]), OpenedRow(x, Dummy(pr[0]));
      assert OpenedRows(x, pr) == [r] && OpenedRows(x, Padded(pr)) == [r] + [d];
      forall k ensures Has([r] + [d], k) <==> Has([r], k) {
        HasConcat([r], [d], k);
        HasOne(r, k);
        HasOne(d, k);
        DummyIsZero(x, pr[0], k, 0);
      }
      forall k, c: nat ensures Total([r] + [d], k, c) == Total([r], k, c) {
        TotalConcat([r], [d], k, c);
        TotalOne(d, k, c);
        DummyIsZero(x, pr[0], k, c);
      }
    }
  }
}
