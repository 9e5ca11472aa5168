/** Data providers' clear rows, their encrypted form on the wire, and what a server reads back
    (lib/structs.go, services/api.go). */
module DataProvider {
  import opened Group
  import opened Sums
  import opened Sets
  import opened ElGamal
  import opened Codec
  import opened Options
  import opened Table
  import opened SurveyStore

  /** A row in clear: the Enc attributes are the ones to be encrypted. */
  datatype DpClearResponse = DpClearResponse(whereClear: map<string, int>, whereEnc: map<string, int>,
                                             groupByClear: map<string, int>, groupByEnc: map<string, int>,
                                             aggregatingAttributesClear: map<string, int>, aggregatingAttributesEnc: map<string, int>)

  type BytesMap = map<string, seq<byte>>

  datatype DpResponseToSend = DpResponseToSend(whereClear: map<string, int>, whereEnc: BytesMap,
                                               groupByClear: map<string, int>, groupByEnc: BytesMap,
                                               aggregatingAttributesClear: map<string, int>, aggregatingAttributesEnc: BytesMap)

  // ---------- encryption ----------

  /** The bytes of each attribute decrypt to its integer. */
  ghost predicate Carries(x: Scalar, m: BytesMap, data: map<string, int>) {
    m.Keys == data.Keys && forall v :: v in m ==> |m[v]| == CIPHER_LEN && Open(x, BytesCipher(m[v])) == IntToPoint(data[v])
  }

  /** The bytes of each attribute are its encryption with the scalar drawn for it. */
  ghost predicate Sealed(m: BytesMap, data: map<string, int>, encryptionKey: Point, draws: string -> Scalar) {
    && m.Keys == data.Keys
    && forall v :: v in m ==> |m[v]| == CIPHER_LEN && BytesCipher(m[v]) == EncryptPoint(encryptionKey, IntToPoint(data[v]), draws(v))
  }

  lemma SealedCarries(x: Scalar, m: BytesMap, data: map<string, int>, draws: string -> Scalar)
    requires Sealed(m, data, Mul(x, Base), draws)
    ensures Carries(x, m, data)
  {
    forall v | v in m ensures Open(x, BytesCipher(m[v])) == IntToPoint(data[v]) {
      OpenEncrypt(x, IntToPoint(data[v]), draws(v));
    }
  }

  method EncryptMap(data: map<string, int>, encryptionKey: Point, draws: string -> Scalar) returns (m: BytesMap)
    ensures Sealed(m, data, encryptionKey, draws)
  {
    m := map[];
    var rest := data.Keys;
    while rest != {}
      invariant rest <= data.Keys && m.Keys == data.Keys - rest
      invariant forall v :: v in m ==> |m[v]| == CIPHER_LEN && BytesCipher(m[v]) == EncryptPoint(encryptionKey, IntToPoint(data[v]), draws(v))
      decreases rest
    {
      var v := Pick(rest);
      var c := EncryptInt(encryptionKey, data[v], draws(v));
      CipherRoundTrip(c);
      m := m[v := CipherBytes(c)];
      rest := rest - {v};
    }
  }

  const COUNT := "count"

  /** A counting query adds an attribute that is 1 for every row. */
  function Counted(data: map<string, int>, count: bool): map<string, int> {
    if count then data[COUNT := 1] else data
  }

  /** The message hides the row under the key of x. */
  ghost predicate Encrypts(x: Scalar, ccr: DpClearResponse, count: bool, cr: DpResponseToSend) {
    && cr.whereClear == ccr.whereClear && cr.groupByClear == ccr.groupByClear
    && cr.aggregatingAttributesClear == ccr.aggregatingAttributesClear
    && Carries(x, cr.whereEnc, ccr.whereEnc) && Carries(x, cr.groupByEnc, ccr.groupByEnc)
    && Carries(x, cr.aggregatingAttributesEnc, Counted(ccr.aggregatingAttributesEnc, count))
  }

  /** What a data provider draws for a row: a scalar for each attribute to be encrypted. */
  datatype RowDraws = RowDraws(groupBy: string -> Scalar, where: string -> Scalar, sum: string -> Scalar)

  /** The clear attributes are sent as they are, the others sealed. */
  ghost predicate SealedRow(ccr: DpClearResponse, count: bool, cr: DpResponseToSend, encryptionKey: Point, draws: RowDraws) {
    && cr.whereClear == ccr.whereClear && cr.groupByClear == ccr.groupByClear
    && cr.aggregatingAttributesClear == ccr.aggregatingAttributesClear
    && Sealed(cr.whereEnc, ccr.whereEnc, encryptionKey, draws.where) && Sealed(cr.groupByEnc, ccr.groupByEnc, encryptionKey, draws.groupBy)
    && Sealed(cr.aggregatingAttributesEnc, Counted(ccr.aggregatingAttributesEnc, count), encryptionKey, draws.sum)
  }

  lemma SealedEncrypts(x: Scalar, ccr: DpClearResponse, count: bool, cr: DpResponseToSend, draws: RowDraws)
    requires SealedRow(ccr, count, cr, Mul(x, Base), draws)
    ensures Encrypts(x, ccr, count, cr)
  {
    SealedCarries(x, cr.whereEnc, ccr.whereEnc, draws.where);
    SealedCarries(x, cr.groupByEnc, ccr.groupByEnc, draws.groupBy);
    SealedCarries(x, cr.aggregatingAttributesEnc, Counted(ccr.aggregatingAttributesEnc, count), draws.sum);
  }

  method EncryptDpClearResponse(ccr: DpClearResponse, encryptionKey: Point, count: bool, draws: RowDraws, ghost x: Scalar)
    returns (cr: DpResponseToSend)
    requires encryptionKey == Mul(x, Base)
    ensures SealedRow(ccr, count, cr, encryptionKey, draws) && Encrypts(x, ccr, count, cr)
  {
    var groupByEnc := EncryptMap(ccr.groupByEnc, encryptionKey, draws.groupBy);
    var whereEnc := EncryptMap(ccr.whereEnc, encryptionKey, draws.where);
    var attributes := EncryptMap(ccr.aggregatingAttributesEnc, encryptionKey, draws.sum);
    if count {
      var c := EncryptInt(encryptionKey, 1, draws.sum(COUNT));
      CipherRoundTrip(c);
      attributes := attributes[COUNT := CipherBytes(c)];
    }
    cr := DpResponseToSend(ccr.whereClear, whereEnc, ccr.groupByClear, groupByEnc, ccr.aggregatingAttributesClear, attributes);
    SealedEncrypts(x, ccr, count, cr, draws);
  }

  /** Every row so many times in a row. */
  function Repeat<T>(rows: seq<T>, times: nat): seq<T> {
    if rows == [] then [] else Repeat(rows[..|rows| - 1], times) + seq(times, _ => rows[|rows| - 1])
  }

  /** How many copies of n rows there are. */
  function Copies(n: nat, times: nat): nat {
    if n == 0 then 0 else Copies(n - 1, times) + times
  }

  lemma {:induction false} CopiesAre(n: nat, times: nat)
    ensures Copies(n, times) == n * times
  {
    if n > 0 {
      CopiesAre(n - 1, times);
      assert n * times == (n - 1) * times + times;
    }
  }

  lemma {:induction false} RepeatLength<T>(rows: seq<T>, times: nat)
    ensures |Repeat(rows, times)| == Copies(|rows|, times)
  {
    if rows != [] {
      RepeatLength(rows[..|rows| - 1], times);
    }
  }

  /** Each row occurs so many times in a row, and nothing else does. */
  lemma {:induction false} RepeatAt<T>(rows: seq<T>, times: nat, i: nat, l: nat)
    requires i < |rows| && l < times
    ensures |Repeat(rows, times)| == Copies(|rows|, times) && Copies(i, times) + l < |Repeat(rows, times)|
    ensures Repeat(rows, times)[Copies(i, times) + l] == rows[i]
  {
    var n := |rows| - 1;
    RepeatLength(rows, times);
    RepeatLength(rows[..n], times);
    if i < n {
      RepeatAt(rows[..n], times, i, l);
    }
  }

  ghost predicate AllEncrypt(x: Scalar, ccrs: seq<DpClearResponse>, count: bool, crs: seq<DpResponseToSend>) {
    |ccrs| == |crs| && forall i :: 0 <= i < |ccrs| ==> Encrypts(x, ccrs[i], count, crs[i])
  }

  method EncryptDataToSurvey(dpClearResponses: seq<DpClearResponse>, groupKey: Point, dataRepetitions: nat, count: bool, draws: nat -> RowDraws,
                             ghost x: Scalar)
    returns (dpResponses: seq<DpResponseToSend>, ghost rows: seq<DpResponseToSend>)
    requires groupKey == Mul(x, Base)
    ensures MessageSealed(dpClearResponses, dataRepetitions, count, groupKey, draws, rows, dpResponses)
    ensures AllEncrypt(x, Repeat(dpClearResponses, dataRepetitions), count, dpResponses)
  {
    dpResponses, rows := [], [];
    for i := 0 to |dpClearResponses|
      invariant AllEncrypt(x, Repeat(dpClearResponses[..i], dataRepetitions), count, dpResponses)
      invariant |rows| == i && dpResponses == Repeat(rows, dataRepetitions)
      invariant forall l :: 0 <= l < i ==> SealedRow(dpClearResponses[l], count, rows[l], groupKey, draws(l))
    {
      assert dpClearResponses[..i + 1][..i] == dpClearResponses[..i];
      var v := EncryptDpClearResponse(dpClearResponses[i], groupKey, count, draws(i), x);
      ghost var before := Repeat(dpClearResponses[..i], dataRepetitions);
      assert Repeat(dpClearResponses[..i + 1], dataRepetitions) == before + seq(dataRepetitions, _ => dpClearResponses[i]);
      EncryptBlock(x, before, dpResponses, dpClearResponses[i], v, dataRepetitions, count);
      assert (rows + [v])[..i] == rows;
      dpResponses, rows := dpResponses + seq(dataRepetitions, _ => v), rows + [v];
    }
    assert dpClearResponses[..|dpClearResponses|] == dpClearResponses;
  }

  /** A data provider's message: its rows, each sealed with its own draws and repeated. */
  ghost predicate MessageSealed(ccrs: seq<DpClearResponse>, times: nat, count: bool, groupKey: Point, draws: nat -> RowDraws,
                                rows: seq<DpResponseToSend>, message: seq<DpResponseToSend>) {
    |rows| == |ccrs| && message == Repeat(rows, times) && forall i :: 0 <= i < |rows| ==> SealedRow(ccrs[i], count, rows[i], groupKey, draws(i))
  }

  lemma EncryptBlock(x: Scalar, ccrs: seq<DpClearResponse>, crs: seq<DpResponseToSend>, ccr: DpClearResponse, cr: DpResponseToSend,
                     times: nat, count: bool)
    requires AllEncrypt(x, ccrs, count, crs) && Encrypts(x, ccr, count, cr)
    ensures AllEncrypt(x, ccrs + seq(times, _ => ccr), count, crs + seq(times, _ => cr))
  {
  }

  // ---------- reception ----------

  /** Every value has the length of a ciphertext. */
  predicate Parsable(m: BytesMap) {
    forall v :: v in m ==> |m[v]| == CIPHER_LEN
  }

  function DecodeMap(m: BytesMap): (r: map<string, CipherText>)
    requires Parsable(m)
    ensures r.Keys == m.Keys
  {
    map v | v in m :: BytesCipher(m[v])
  }

  method MapBytesToMapCipherText(mapBytes: BytesMap) returns (r: Option<map<string, CipherText>>)
    ensures r == if Parsable(mapBytes) then Some(DecodeMap(mapBytes)) else None
  {
    var result: map<string, CipherText> := map[];
    var rest := mapBytes.Keys;
    while rest != {}
      invariant rest <= mapBytes.Keys && result.Keys == mapBytes.Keys - rest
      invariant forall v :: v in result ==> |mapBytes[v]| == CIPHER_LEN && result[v] == BytesCipher(mapBytes[v])
      decreases rest
    {
      var v := Pick(rest);
      if |mapBytes[v]| != CIPHER_LEN {
        return None;
      }
      result := result[v := BytesCipher(mapBytes[v])];
      rest := rest - {v};
    }
    assert Parsable(mapBytes);
    assert result == DecodeMap(mapBytes);
    r := Some(result);
  }

  /** An empty map arrives as nil. */
  function NilIfEmpty(m: map<string, CipherText>): Option<map<string, CipherText>> {
    if m == map[] then None else Some(m)
  }

  function Parsed(dprts: DpResponseToSend): Option<DpResponse> {
    if Parsable(dprts.whereEnc) && Parsable(dprts.groupByEnc) && Parsable(dprts.aggregatingAttributesEnc) then
      Some(DpResponse(dprts.whereClear, NilIfEmpty(DecodeMap(dprts.whereEnc)),
                      dprts.groupByClear, NilIfEmpty(DecodeMap(dprts.groupByEnc)),
                      dprts.aggregatingAttributesClear, DecodeMap(dprts.aggregatingAttributesEnc)))
    else None
  }

  method FromDpResponseToSend(dprts: DpResponseToSend) returns (dr: Option<DpResponse>)
    ensures dr == Parsed(dprts)
    ensures dr.Some? <==>
      && (forall v :: v in dprts.groupByEnc ==> |dprts.groupByEnc[v]| == CIPHER_LEN)
      && (forall v :: v in dprts.whereEnc ==> |dprts.whereEnc[v]| == CIPHER_LEN)
      && (forall v :: v in dprts.aggregatingAttributesEnc ==> |dprts.aggregatingAttributesEnc[v]| == CIPHER_LEN)
    ensures dr.Some? ==> (dr.value.groupByEnc.None? <==> dprts.groupByEnc == map[]) && (dr.value.whereEnc.None? <==> dprts.whereEnc == map[])
  {
    var groupByEnc := MapBytesToMapCipherText(dprts.groupByEnc);
    var whereEnc := MapBytesToMapCipherText(dprts.whereEnc);
    var attributes := MapBytesToMapCipherText(dprts.aggregatingAttributesEnc);
    if groupByEnc.None? || whereEnc.None? || attributes.None? {
      return None;
    }
    dr := Some(DpResponse(dprts.whereClear, NilIfEmpty(whereEnc.value), dprts.groupByClear, NilIfEmpty(groupByEnc.value),
                          dprts.aggregatingAttributesClear, attributes.value));
  }

  /** The rows of a message up to the first that does not parse. */
  function ParsedRows(rs: seq<DpResponseToSend>): (r: seq<DpResponse>)
    ensures |r| <= |rs|
  {
    if rs == [] then []
    else
      match Parsed(rs[0])
      case None => []
      case Some(dr) => [dr] + ParsedRows(rs[1..])
  }

  /** As many rows as come before the first that does not parse, each parsed. */
  lemma {:induction false} ParsedPrefix(rs: seq<DpResponseToSend>)
    ensures forall i :: 0 <= i < |ParsedRows(rs)| ==> Parsed(rs[i]) == Some(ParsedRows(rs)[i])
    ensures |ParsedRows(rs)| < |rs| ==> Parsed(rs[|ParsedRows(rs)|]).None?
  {
    if rs != [] && Parsed(rs[0]).Some? {
      ParsedPrefix(rs[1..]);
    }
  }

  // ---------- what a row says in clear ----------

  datatype IntRow = IntRow(groups: seq<int>, wheres: seq<int>, vals: seq<int>)

  /** An attribute given in both forms is read from the encrypted one; a missing one is 0. */
  function IntValue(clear: map<string, int>, enc: map<string, int>, v: string): int {
    if v in enc then enc[v] else ClearValue(clear, v)
  }

  function IntValues(data: seq<string>, clear: map<string, int>, enc: map<string, int>): (r: seq<int>)
    ensures |r| == |data| && forall i :: 0 <= i < |data| ==> r[i] == IntValue(clear, enc, data[i])
  {
    seq(|data|, i requires 0 <= i < |data| => IntValue(clear, enc, data[i]))
  }

  function IntMeaning(ccr: DpClearResponse, count: bool, q: Attributes): (r: IntRow)
    ensures |r.groups| == |q.groupBy| && |r.wheres| == |q.where| && |r.vals| == |q.sum|
  {
    IntRow(IntValues(q.groupBy, ccr.groupByClear, ccr.groupByEnc), IntValues(q.where, ccr.whereClear, ccr.whereEnc),
           IntValues(q.sum, ccr.aggregatingAttributesClear, Counted(ccr.aggregatingAttributesEnc, count)))
  }

  function IntMeanings(ccrs: seq<DpClearResponse>, count: bool, q: Attributes): (r: seq<IntRow>)
    ensures |r| == |ccrs| && forall i :: 0 <= i < |ccrs| ==> r[i] == IntMeaning(ccrs[i], count, q)
  {
    Map(ccr => IntMeaning(ccr, count, q), ccrs)
  }

  /** The points of an integer row. */
  function PointRow(r: IntRow): Row<GroupWhere> {
    Row(GroupWhere(IntPoints(r.groups), IntPoints(r.wheres)), IntPoints(r.vals))
  }

  function PointRows(rows: seq<IntRow>): (r: seq<Row<GroupWhere>>)
    ensures |r| == |rows| && forall i :: 0 <= i < |rows| ==> r[i] == PointRow(rows[i])
  {
    Map(r => PointRow(r), rows)
  }

  lemma CarriedValues(x: Scalar, data: seq<string>, clear: map<string, int>, m: BytesMap, enc: map<string, int>)
    requires Carries(x, m, enc)
    ensures Parsable(m) && PlainValues(x, data, clear, DecodeMap(m)) == IntPoints(IntValues(data, clear, enc))
  {
  }

  lemma NilReadsEmpty(m: map<string, CipherText>)
    ensures Encrypted(NilIfEmpty(m)) == m
  {
  }

  /** Encrypting, sending and parsing a row keeps what it says, whichever attributes are encrypted. */
  lemma SentMeaning(x: Scalar, ccr: DpClearResponse, count: bool, cr: DpResponseToSend, q: Attributes)
    requires Encrypts(x, ccr, count, cr)
    ensures Parsed(cr).Some? && Meaning(x, Parsed(cr).value, q) == PointRow(IntMeaning(ccr, count, q))
  {
    CarriedValues(x, q.groupBy, ccr.groupByClear, cr.groupByEnc, ccr.groupByEnc);
    CarriedValues(x, q.where, ccr.whereClear, cr.whereEnc, ccr.whereEnc);
    CarriedValues(x, q.sum, ccr.aggregatingAttributesClear, cr.aggregatingAttributesEnc, Counted(ccr.aggregatingAttributesEnc, count));
    NilReadsEmpty(DecodeMap(cr.groupByEnc));
    NilReadsEmpty(DecodeMap(cr.whereEnc));
  }

  lemma FirstParsed(crs: seq<DpResponseToSend>)
    requires crs != [] && Parsed(crs[0]).Some?
    ensures ParsedRows(crs) == [Parsed(crs[0]).value] + ParsedRows(crs[1..])
  {
  }

  lemma {:induction false} AllParsed(crs: seq<DpResponseToSend>)
    requires forall i :: 0 <= i < |crs| ==> Parsed(crs[i]).Some?
    ensures |ParsedRows(crs)| == |crs| && forall i :: 0 <= i < |crs| ==> ParsedRows(crs)[i] == Parsed(crs[i]).value
  {
    if crs != [] {
      FirstParsed(crs);
      AllParsed(crs[1..]);
    }
  }

  /** A whole message keeps what its rows say. */
  lemma SentMeanings(x: Scalar, ccrs: seq<DpClearResponse>, count: bool, crs: seq<DpResponseToSend>, q: Attributes)
    requires AllEncrypt(x, ccrs, count, crs)
    ensures |ParsedRows(crs)| == |crs|
    ensures Meanings(x, ParsedRows(crs), q) == PointRows(IntMeanings(ccrs, count, q))
  {
    forall i | 0 <= i < |crs| ensures Parsed(crs[i]).Some? && Meaning(x, Parsed(crs[i]).value, q) == PointRow(IntMeaning(ccrs[i], count, q)) {
      SentMeaning(x, ccrs[i], count, crs[i], q);
    }
    AllParsed(crs);
  }
}
