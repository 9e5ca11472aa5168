/** The text form of test data (data/handle_data.go, lib/tools/tools.go). */
module TextFile {
  import opened Sums
  import opened Sets
  import opened Options
  import opened Strings
  import opened Decimal
  import opened SurveyStore
  import opened DataProvider

  // ---------- lists of integers ----------

  /** Int64ArrayToString, and a flushed line: every number followed by a blank. */
  function IntsText(s: seq<int>): string {
    if s == [] then "" else Itoa(s[0]) + " " + IntsText(s[1..])
  }

  method Int64ArrayToString(s: seq<int>) returns (result: string)
    ensures result == IntsText(s)
  {
    result := "";
    assert s[0..] == s;
    for i := 0 to |s|
      invariant result + IntsText(s[i..]) == IntsText(s)
    {
      NextText(result, s, i);
      result := result + Itoa(s[i]) + " ";
    }
  }

  lemma NextText(result: string, s: seq<int>, i: nat)
    requires i < |s|
    ensures result + Itoa(s[i]) + " " + IntsText(s[i + 1..]) == result + IntsText(s[i..])
  {
    assert s[i..][1..] == s[i + 1..];
    assert result + Itoa(s[i]) + " " + IntsText(s[i + 1..]) == result + (Itoa(s[i]) + " " + IntsText(s[i + 1..]));
  }

  /** The numbers among the parts; empty parts are skipped, and one that does not parse makes the whole list empty. */
  function ParseParts(parts: seq<string>): Option<seq<int>> {
    if parts == [] then Some([])
    else
      var rest := ParseParts(parts[1..]);
      if parts[0] == "" then rest
      else
        match ParseInt(parts[0])
        case Some(n) => Prepend([n], rest)
        case None => None
  }

  function IntsOf(s: string): seq<int> {
    match ParseParts(Split(s, " "))
    case Some(ints) => ints
    case None => []
  }

  method StringToInt64Array(s: string) returns (result: seq<int>)
    ensures result == IntsOf(s)
  {
    if |s| == 0 {
      assert Split(s, " ") == [""];
      assert ParseParts([""]) == Some([]) by { assert [""][1..] == []; }
      return [];
    }
    var container := Split(s, " ");
    result := [];
    assert container[0..] == container;
    PrependNothing(ParseParts(container));
    for i := 0 to |container|
      invariant Prepend(result, ParseParts(container[i..])) == ParseParts(container)
    {
      assert container[i..][1..] == container[i + 1..];
      if container[i] != "" {
        var aux := ParseInt(container[i]);
        if aux.None? {
          return [];
        }
        PrependTwice(result, container[i], ParseParts(container[i + 1..]));
        result := result + [aux.value];
      }
    }
    assert result + [] == result;
  }

  lemma {:induction false} PartsOfText(s: seq<int>)
    requires AllInt64(s)
    ensures ParseParts(Split(IntsText(s), " ")) == Some(s)
  {
    if s == [] {
      assert Split("", " ") == [""] && [""][1..] == [];
    } else {
      var rest := IntsText(s[1..]);
      ItoaLacks(s[0], ' ');
      SplitHead(Itoa(s[0]), rest, " ");
      var parts := Split(IntsText(s), " ");
      assert parts == [Itoa(s[0])] + Split(rest, " ");
      assert parts[1..] == Split(rest, " ");
      ParseItoa(s[0]);
      PartsOfText(s[1..]);
      assert [s[0]] + s[1..] == s;
    }
  }

  /** Printing and parsing gives a list of 64-bit integers back; with one that is out of range everything is lost. */
  lemma IntsRoundTrip(s: seq<int>)
    requires AllInt64(s)
    ensures IntsOf(IntsText(s)) == s
  {
    PartsOfText(s);
  }

  /** One nonempty part that is no 64-bit number empties the whole list. */
  lemma {:induction false} BadPart(parts: seq<string>, i: nat)
    requires i < |parts| && parts[i] != "" && ParseInt(parts[i]).None?
    ensures ParseParts(parts).None?
  {
    if i > 0 {
      BadPart(parts[1..], i - 1);
    }
  }

  /** Otherwise the parts are read one after the other, an empty one as nothing. */
  lemma {:induction false} PartsRead(a: seq<string>, b: seq<string>)
    requires ParseParts(a).Some?
    ensures ParseParts(a + b) == Prepend(ParseParts(a).value, ParseParts(b))
  {
    if a == [] {
      assert a + b == b;
      PrependNothing(ParseParts(b));
    } else {
      assert (a + b)[1..] == a[1..] + b;
      PartsRead(a[1..], b);
      if a[0] != "" {
        PrependMore(ParseInt(a[0]).value, ParseParts(a[1..]).value, ParseParts(b));
      }
    }
  }

  lemma PrependMore(n: int, read: seq<int>, rest: Option<seq<int>>)
    ensures Prepend([n], Prepend(read, rest)) == Prepend([n] + read, rest)
  {
    if rest.Some? {
      assert [n] + (read + rest.value) == [n] + read + rest.value;
    }
  }

  lemma OnePart(part: string)
    ensures ParseParts([part]) == if part == "" then Some([]) else if ParseInt(part).Some? then Some([ParseInt(part).value]) else None
  {
    assert [part][1..] == [];
    if part != "" && ParseInt(part).Some? {
      assert [ParseInt(part).value] + [] == [ParseInt(part).value];
    }
  }

  lemma BadList(s: string, i: nat)
    requires i < |Split(s, " ")| && Split(s, " ")[i] != "" && ParseInt(Split(s, " ")[i]).None?
    ensures IntsOf(s) == []
  {
    BadPart(Split(s, " "), i);
  }

  /** The reader cuts off the last character of every line. */
  function Chop(line: string): string {
    if line == "" then "" else line[..|line| - 1]
  }

  lemma {:induction false} TrailingBlank(t: string, part: string)
    ensures SplitFrom(t + " ", " ", part) == SplitFrom(t, " ", part) + [""]
    decreases |t|
  {
    if t == "" {
      assert t + " " == " " && " "[1..] == "";
      assert SplitFrom("", " ", "") == [""];
    } else if " " <= t {
      assert (t + " ")[1..] == t[1..] + " " && " " <= t + " ";
      TrailingBlank(t[1..], "");
    } else {
      assert (t + " ")[1..] == t[1..] + " " && (t + " ")[0] == t[0] && !(" " <= t + " ");
      TrailingBlank(t[1..], part + [t[0]]);
    }
  }

  lemma {:induction false} ParsePartsBlank(parts: seq<string>)
    ensures ParseParts(parts + [""]) == ParseParts(parts)
  {
    if parts == [] {
      assert [""][1..] == [];
      assert parts + [""] == [""];
    } else {
      assert (parts + [""])[1..] == parts[1..] + [""];
      ParsePartsBlank(parts[1..]);
    }
  }

  lemma {:induction false} TextEndsBlank(s: seq<int>)
    requires s != []
    ensures IntsText(s) != "" && IntsText(s)[|IntsText(s)| - 1] == ' '
  {
    if |s| > 1 {
      TextEndsBlank(s[1..]);
    } else {
      assert s[1..] == [];
    }
  }

  /** The character cut off is the trailing blank, so nothing is lost. */
  lemma LineRoundTrip(s: seq<int>)
    requires AllInt64(s)
    ensures IntsOf(Chop(IntsText(s))) == s
  {
    PartsOfText(s);
    if s != [] {
      TextEndsBlank(s);
      var t := Chop(IntsText(s));
      assert IntsText(s) == t + " ";
      TrailingBlank(t, "");
      ParsePartsBlank(Split(t, " "));
    }
  }

  // ---------- attribute maps ----------

  function NameOf(first: string, number: nat): string {
    first + Itoa(number)
  }

  lemma NameOfInjective(first: string, a: nat, b: nat)
    ensures NameOf(first, a) == NameOf(first, b) <==> a == b
  {
    ItoaInjective(a, b);
    assert NameOf(first, a)[|first|..] == Itoa(a) && NameOf(first, b)[|first|..] == Itoa(b);
  }

  /** The names of consecutive attributes: first, followed by start, start + 1, ... */
  function Naming(first: string, start: nat): nat -> string {
    (i: nat) => NameOf(first, start + i)
  }

  ghost predicate Distinct(name: nat -> string) {
    forall i: nat, j: nat :: i != j ==> name(i) != name(j)
  }

  lemma NamingDistinct(first: string, start: nat)
    ensures Distinct(Naming(first, start))
  {
    forall i: nat, j: nat | i != j ensures Naming(first, start)(i) != Naming(first, start)(j) {
      NameOfInjective(first, start + i, start + j);
    }
  }

  /** The first n names. */
  function NamesUpTo(name: nat -> string, n: nat): set<string> {
    if n == 0 then {} else NamesUpTo(name, n - 1) + {name(n - 1)}
  }

  lemma {:induction false} NumberOf(name: nat -> string, n: nat, k: string) returns (i: nat)
    requires k in NamesUpTo(name, n)
    ensures i < n && k == name(i)
  {
    if k == name(n - 1) {
      i := n - 1;
    } else {
      i := NumberOf(name, n - 1, k);
    }
  }

  /** The map naming the data in order. */
  function Named(data: seq<int>, name: nat -> string): map<string, int> {
    if data == [] then map[] else Named(data[..|data| - 1], name)[name(|data| - 1) := data[|data| - 1]]
  }

  method ConvertDataToMap(data: seq<int>, first: string, start: nat) returns (result: map<string, int>)
    ensures result == Named(data, Naming(first, start))
  {
    result := map[];
    var number := start;
    for i := 0 to |data|
      invariant number == start + i && result == Named(data[..i], Naming(first, start))
    {
      assert data[..i + 1][..i] == data[..i];
      result := result[NameOf(first, number) := data[i]];
      number := number + 1;
    }
    assert data[..|data|] == data;
  }

  function DataOf(data: map<string, int>, name: nat -> string): (r: seq<int>)
    ensures |r| == |data| && forall i :: 0 <= i < |r| ==> r[i] == ClearValue(data, name(i))
  {
    seq(|data|, i requires 0 <= i < |data| => ClearValue(data, name(i)))
  }

  method ConvertMapToData(data: map<string, int>, first: string, start: nat) returns (result: seq<int>)
    ensures result == DataOf(data, Naming(first, start))
  {
    result := [];
    var number := start;
    for i := 0 to |data|
      invariant number == start + i && result == DataOf(data, Naming(first, start))[..i]
    {
      result := result + [ClearValue(data, NameOf(first, number))];
      number := number + 1;
    }
  }

  lemma {:induction false} NamedKeys(data: seq<int>, name: nat -> string)
    requires Distinct(name)
    ensures Named(data, name).Keys == NamesUpTo(name, |data|) && |Named(data, name)| == |data|
  {
    if data != [] {
      var n := |data| - 1;
      var before, k := Named(data[..n], name), name(n);
      NamedKeys(data[..n], name);
      if k in before {
        var i := NumberOf(name, n, k);
      }
      OneMoreKey(before, k, data[n]);
    }
  }

  lemma OneMoreKey(before: map<string, int>, k: string, v: int)
    ensures before[k := v].Keys == before.Keys + {k}
    ensures k !in before ==> |before[k := v]| == |before| + 1
  {
    assert before[k := v].Keys == before.Keys + {k};
    assert |before[k := v]| == |before[k := v].Keys| && |before| == |before.Keys|;
  }

  lemma {:induction false} NamedAt(data: seq<int>, name: nat -> string, i: nat)
    requires Distinct(name) && i < |data|
    ensures name(i) in Named(data, name) && Named(data, name)[name(i)] == data[i]
  {
    if i < |data| - 1 {
      NamedAt(data[..|data| - 1], name, i);
    }
  }

  /** From the list to the map and back, always. */
  lemma DataRoundTrip(data: seq<int>, first: string, start: nat)
    ensures DataOf(Named(data, Naming(first, start)), Naming(first, start)) == data
  {
    var name := Naming(first, start);
    NamingDistinct(first, start);
    NamedKeys(data, name);
    forall i | 0 <= i < |data| ensures DataOf(Named(data, name), name)[i] == data[i] {
      NamedAt(data, name, i);
    }
  }

  /** The attributes are exactly the first ones of the naming. */
  predicate Consecutive(m: map<string, int>, name: nat -> string) {
    m.Keys == NamesUpTo(name, |m|)
  }

  /** From the map to the list and back, exactly when its attributes are numbered consecutively. */
  lemma MapRoundTripIff(m: map<string, int>, first: string, start: nat)
    ensures Named(DataOf(m, Naming(first, start)), Naming(first, start)) == m <==> Consecutive(m, Naming(first, start))
  {
    NamingDistinct(first, start);
    MapBackIff(m, Naming(first, start));
  }

  lemma MapBackIff(m: map<string, int>, name: nat -> string)
    requires Distinct(name)
    ensures Named(DataOf(m, name), name) == m <==> Consecutive(m, name)
  {
    var data := DataOf(m, name);
    var back := Named(data, name);
    NamedKeys(data, name);
    if Consecutive(m, name) {
      forall k | k in m ensures back[k] == m[k] {
        var i := NumberOf(name, |m|, k);
        NamedAt(data, name, i);
      }
    }
  }

  // ---------- one data provider's row on six lines ----------

  /** The six lists of a row, in the order of its lines. */
  function EntryLists(e: DpClearResponse): (r: seq<seq<int>>)
    ensures |r| == 6
  {
    [DataOf(e.groupByClear, Naming("g", 0)), DataOf(e.groupByEnc, Naming("g", |e.groupByClear|)),
     DataOf(e.whereClear, Naming("w", 0)), DataOf(e.whereEnc, Naming("w", |e.whereClear|)),
     DataOf(e.aggregatingAttributesClear, Naming("s", 0)), DataOf(e.aggregatingAttributesEnc, Naming("s", |e.aggregatingAttributesClear|))]
  }

  function ListsEntry(l: seq<seq<int>>): DpClearResponse
    requires |l| == 6
  {
    DpClearResponse(Named(l[2], Naming("w", 0)), Named(l[3], Naming("w", |l[2]|)), Named(l[0], Naming("g", 0)), Named(l[1], Naming("g", |l[0]|)),
                    Named(l[4], Naming("s", 0)), Named(l[5], Naming("s", |l[4]|)))
  }

  function EntryLines(e: DpClearResponse): (r: seq<string>)
    ensures |r| == 6
  {
    seq(6, i requires 0 <= i < 6 => IntsText(EntryLists(e)[i]))
  }

  predicate Int64Map(m: map<string, int>) {
    forall k :: k in m ==> IsInt64(m[k])
  }

  /** The values are int64, as in Go. */
  predicate Int64Entry(e: DpClearResponse) {
    Int64Map(e.groupByClear) && Int64Map(e.groupByEnc) && Int64Map(e.whereClear) && Int64Map(e.whereEnc)
    && Int64Map(e.aggregatingAttributesClear) && Int64Map(e.aggregatingAttributesEnc)
  }

  /** The line lists the map's values under the names first + start, first + (start + 1), ..., a missing one as 0. */
  predicate IsLineOf(line: string, m: map<string, int>, first: string, start: nat) {
    && |IntsOf(line)| == |m|
    && forall j :: 0 <= j < |m| ==>
         var v := first + Itoa(start + j);
         IntsOf(line)[j] == if v in m then m[v] else 0
  }

  /** The six lines of a row in the order of the file: group, where and sum attributes, each time the clear ones and then
      those to be encrypted, numbered on. */
  lemma RowFormat(e: DpClearResponse)
    requires Int64Entry(e)
    ensures var lines := EntryLines(e);
            && IsLineOf(lines[0], e.groupByClear, "g", 0) && IsLineOf(lines[1], e.groupByEnc, "g", |e.groupByClear|)
            && IsLineOf(lines[2], e.whereClear, "w", 0) && IsLineOf(lines[3], e.whereEnc, "w", |e.whereClear|)
            && IsLineOf(lines[4], e.aggregatingAttributesClear, "s", 0)
            && IsLineOf(lines[5], e.aggregatingAttributesEnc, "s", |e.aggregatingAttributesClear|)
  {
    LineFormat(e.groupByClear, "g", 0);
    LineFormat(e.groupByEnc, "g", |e.groupByClear|);
    LineFormat(e.whereClear, "w", 0);
    LineFormat(e.whereEnc, "w", |e.whereClear|);
    LineFormat(e.aggregatingAttributesClear, "s", 0);
    LineFormat(e.aggregatingAttributesEnc, "s", |e.aggregatingAttributesClear|);
  }

  lemma LineFormat(m: map<string, int>, first: string, start: nat)
    requires Int64Map(m)
    ensures IsLineOf(IntsText(DataOf(m, Naming(first, start))), m, first, start)
  {
    var data := DataOf(m, Naming(first, start));
    IntsRoundTrip(data);
    assert IntsOf(IntsText(data)) == data;
    forall j: nat | j < |m| ensures data[j] == ClearValue(m, first + Itoa(start + j)) {
      assert Naming(first, start)(j) == NameOf(first, start + j);
    }
  }

  /** The row as it is read back: every map renumbered. */
  function Renumbered(e: DpClearResponse): DpClearResponse {
    ListsEntry(EntryLists(e))
  }

  /** All maps of the row are numbered consecutively, the encrypted attributes after the clear ones. */
  predicate WellNumbered(e: DpClearResponse) {
    && Consecutive(e.groupByClear, Naming("g", 0)) && Consecutive(e.groupByEnc, Naming("g", |e.groupByClear|))
    && Consecutive(e.whereClear, Naming("w", 0)) && Consecutive(e.whereEnc, Naming("w", |e.whereClear|))
    && Consecutive(e.aggregatingAttributesClear, Naming("s", 0)) && Consecutive(e.aggregatingAttributesEnc, Naming("s", |e.aggregatingAttributesClear|))
  }

  lemma RenumberedIff(e: DpClearResponse)
    ensures Renumbered(e) == e <==> WellNumbered(e)
  {
    MapRoundTripIff(e.groupByClear, "g", 0);
    MapRoundTripIff(e.groupByEnc, "g", |e.groupByClear|);
    MapRoundTripIff(e.whereClear, "w", 0);
    MapRoundTripIff(e.whereEnc, "w", |e.whereClear|);
    MapRoundTripIff(e.aggregatingAttributesClear, "s", 0);
    MapRoundTripIff(e.aggregatingAttributesEnc, "s", |e.aggregatingAttributesClear|);
  }

  /** Line i of the file; past its end the scanner's text is empty. */
  function LineAt(lines: seq<string>, i: nat): string {
    if i < |lines| then lines[i] else ""
  }

  function ParseEntry(lines: seq<string>): DpClearResponse {
    ListsEntry(seq(6, i requires 0 <= i < 6 => IntsOf(Chop(LineAt(lines, i)))))
  }

  predicate IsHeader(line: string) {
    line != "" && line[0] == '#'
  }

  lemma TextIsNoHeader(s: seq<int>)
    ensures !IsHeader(IntsText(s))
  {
    if s != [] {
      ItoaCharacters(s[0]);
      assert IntsText(s)[0] == Itoa(s[0])[0];
    }
  }

  lemma ListsInt64(e: DpClearResponse, i: nat)
    requires Int64Entry(e) && i < 6
    ensures AllInt64(EntryLists(e)[i])
  {
  }

  /** Six lines are read as one row. */
  lemma EntryRead(e: DpClearResponse, rest: seq<string>)
    requires Int64Entry(e)
    ensures var lines := EntryLines(e) + rest;
            !IsHeader(lines[0]) && ParseEntry(lines) == Renumbered(e) && lines[6..] == rest
  {
    var lines := EntryLines(e) + rest;
    TextIsNoHeader(EntryLists(e)[0]);
    var parsed := seq(6, i requires 0 <= i < 6 => IntsOf(Chop(LineAt(lines, i))));
    forall i | 0 <= i < 6 ensures parsed[i] == EntryLists(e)[i] {
      ListsInt64(e, i);
      LineRoundTrip(EntryLists(e)[i]);
    }
    assert parsed == EntryLists(e);
  }

  // ---------- lines and text ----------

  function TextOf(lines: seq<string>): string {
    if lines == [] then "" else lines[0] + "\n" + TextOf(lines[1..])
  }

  predicate EndsInReturn(line: string) {
    line != "" && line[|line| - 1] == '\r'
  }

  /** A line loses a carriage return at its end. */
  function DropReturn(line: string): string {
    if EndsInReturn(line) then line[..|line| - 1] else line
  }

  /** bufio.ScanLines, with the line read so far; a last line without newline counts if it is not empty. */
  function ScanFrom(s: string, part: string): seq<string>
    decreases |s|
  {
    if s == "" then (if part == "" then [] else [DropReturn(part)])
    else if s[0] == '\n' then [DropReturn(part)] + ScanFrom(s[1..], "")
    else ScanFrom(s[1..], part + [s[0]])
  }

  lemma {:induction false} ScanPart(t: string, rest: string, part: string)
    requires Lacks(t, '\n')
    ensures ScanFrom(t + rest, part) == ScanFrom(rest, part + t)
    decreases |t|
  {
    if t == "" {
      assert t + rest == rest && part + t == part;
    } else {
      assert (t + rest)[1..] == t[1..] + rest && (t + rest)[0] == t[0];
      ScanPart(t[1..], rest, part + [t[0]]);
      assert part + [t[0]] + t[1..] == part + t;
    }
  }

  /** Lines without a newline are scanned one by one, each without a carriage return at its end. */
  lemma {:induction false} ScanLines(lines: seq<string>)
    requires forall i :: 0 <= i < |lines| ==> Lacks(lines[i], '\n')
    ensures ScanFrom(TextOf(lines), "") == Map(line => DropReturn(line), lines)
  {
    if lines != [] {
      var rest := "\n" + TextOf(lines[1..]);
      assert TextOf(lines) == lines[0] + rest;
      ScanPart(lines[0], rest, "");
      assert "" + lines[0] == lines[0];
      assert rest[0] == '\n' && rest[1..] == TextOf(lines[1..]);
      ScanLines(lines[1..]);
    }
  }

  // ---------- the file ----------

  type TestData = map<string, seq<DpClearResponse>>

  function RowLines(rows: seq<DpClearResponse>): seq<string> {
    if rows == [] then [] else EntryLines(rows[0]) + RowLines(rows[1..])
  }

  /** A header line per data provider, then its rows. */
  function FileLines(ks: seq<string>, m: TestData): seq<string>
    requires forall i :: 0 <= i < |ks| ==> ks[i] in m
  {
    if ks == [] then [] else ["#" + ks[0]] + (RowLines(m[ks[0]]) + FileLines(ks[1..], m))
  }

  method WriteRows(rows: seq<DpClearResponse>) returns (lines: seq<string>)
    ensures lines == RowLines(rows)
  {
    lines := [];
    for i := 0 to |rows|
      invariant lines + RowLines(rows[i..]) == RowLines(rows)
    {
      assert rows[i..][1..] == rows[i + 1..];
      lines := lines + EntryLines(rows[i]);
    }
  }

  lemma NextLines(lines: seq<string>, ks: seq<string>, i: nat, m: TestData)
    requires i < |ks| && forall l :: 0 <= l < |ks| ==> ks[l] in m
    ensures lines + (["#" + ks[i]] + RowLines(m[ks[i]])) + FileLines(ks[i + 1..], m) == lines + FileLines(ks[i..], m)
  {
    var header, rows, rest := ["#" + ks[i]], RowLines(m[ks[i]]), FileLines(ks[i + 1..], m);
    assert ks[i..][1..] == ks[i + 1..];
    assert lines + (header + rows) + rest == lines + (header + (rows + rest));
  }

  /** The lines list the data providers in some order. */
  ghost predicate IsFileOf(lines: seq<string>, m: TestData) {
    exists ks :: Lists(ks, m.Keys) && lines == FileLines(ks, m)
  }

  /** The text is that of a file with all data providers, in some order. */
  ghost predicate IsTextOf(text: string, m: TestData) {
    exists lines :: IsFileOf(lines, m) && text == TextOf(lines)
  }

  /** WriteDataToFile, in whatever order the map is read. */
  method WriteDataToFile(testData: TestData) returns (text: string)
    ensures IsTextOf(text, testData)
  {
    var order := KeysOf(testData);
    var lines := [];
    assert order[0..] == order;
    for i := 0 to |order|
      invariant lines + FileLines(order[i..], testData) == FileLines(order, testData)
    {
      var rows := WriteRows(testData[order[i]]);
      NextLines(lines, order, i, testData);
      lines := lines + (["#" + order[i]] + rows);
    }
    assert lines == FileLines(order, testData);
    text := TextOf(lines);
  }

  /** A data provider without rows, as its file has it. */
  lemma HeaderFormat(id: string)
    ensures IsTextOf("#" + id + "\n", map[id := []])
  {
    var m: TestData := map[id := []];
    var lines := FileLines([id], m);
    var rest := FileLines([id][1..], m);
    assert [id][1..] == [] && rest == [] && RowLines(m[id]) == [];
    assert RowLines(m[id]) + rest == [];
    assert lines == ["#" + id] + [] && lines[1..] == [];
    assert TextOf(lines) == "#" + id + "\n";
    assert Lists([id], m.Keys);
  }

  /** The reader from some line on: the current id, whether a header was seen, the rows since then, and the finished
      data providers. */
  function ReadFrom(lines: seq<string>, id: string, dataIn: bool, container: seq<DpClearResponse>, testData: TestData): TestData
    decreases |lines|
  {
    if lines == [] then testData[id := container]
    else if IsHeader(lines[0]) then
      if dataIn then ReadFrom(lines[1..], lines[0][1..], true, [], testData[id := container])
      else ReadFrom(lines[1..], lines[0][1..], true, container, testData)
    else ReadFrom(if |lines| < 6 then [] else lines[6..], id, dataIn, container + [ParseEntry(lines)], testData)
  }

  /** What a text is read as. */
  function ReadText(text: string): TestData {
    ReadFrom(ScanFrom(text, ""), "", false, [], map[])
  }

  /** Lines missing from the last row are read as empty lines. */
  lemma ShortRowRead(lines: seq<string>, id: string, dataIn: bool, container: seq<DpClearResponse>, testData: TestData)
    requires 0 < |lines| < 6 && !IsHeader(lines[0])
    ensures ReadFrom(lines + seq(6 - |lines|, _ => ""), id, dataIn, container, testData) == ReadFrom(lines, id, dataIn, container, testData)
  {
    var blanks := seq(6 - |lines|, _ => "");
    var whole := lines + blanks;
    assert forall i: nat :: LineAt(whole, i) == LineAt(lines, i);
    assert ParseEntry(whole) == ParseEntry(lines);
    assert whole[6..] == [];
  }

  method ReadDataFromFile(text: string) returns (testData: TestData)
    ensures testData == ReadText(text)
  {
    var lines := ScanFrom(text, "");
    testData := map[];
    var id, dataIn := "", false;
    var container: seq<DpClearResponse> := [];
    var rest := lines;
    while rest != []
      invariant ReadFrom(rest, id, dataIn, container, testData) == ReadFrom(lines, "", false, [], map[])
      decreases |rest|
    {
      var line := rest[0];
      if IsHeader(line) {
        if dataIn {
          testData := testData[id := container];
          container := [];
        } else {
          dataIn := true;
        }
        id := line[1..];
        rest := rest[1..];
      } else {
        container := container + [ParseEntry(rest)];
        rest := if |rest| < 6 then [] else rest[6..];
      }
    }
    testData := testData[id := container];
  }

  function RenumberedRows(rows: seq<DpClearResponse>): (r: seq<DpClearResponse>)
    ensures |r| == |rows| && forall i :: 0 <= i < |rows| ==> r[i] == Renumbered(rows[i])
  {
    Map(e => Renumbered(e), rows)
  }

  predicate Int64Rows(rows: seq<DpClearResponse>) {
    forall i :: 0 <= i < |rows| ==> Int64Entry(rows[i])
  }

  lemma RowRead(e: DpClearResponse, lines: seq<string>, tail: seq<string>, id: string, container: seq<DpClearResponse>, testData: TestData)
    requires Int64Entry(e) && lines == EntryLines(e) + tail
    ensures ReadFrom(lines, id, true, container, testData) == ReadFrom(tail, id, true, container + [Renumbered(e)], testData)
  {
    EntryRead(e, tail);
  }

  lemma FirstRow(rows: seq<DpClearResponse>, rest: seq<string>)
    requires rows != []
    ensures RowLines(rows) + rest == EntryLines(rows[0]) + (RowLines(rows[1..]) + rest)
  {
  }

  lemma MoreRows(container: seq<DpClearResponse>, rows: seq<DpClearResponse>)
    requires rows != []
    ensures container + [Renumbered(rows[0])] + RenumberedRows(rows[1..]) == container + RenumberedRows(rows)
  {
    var tail := RenumberedRows(rows[1..]);
    FirstRenumbered(rows);
    AppendAssoc(container, Renumbered(rows[0]), tail);
  }

  lemma FirstRenumbered(rows: seq<DpClearResponse>)
    requires rows != []
    ensures RenumberedRows(rows) == [Renumbered(rows[0])] + RenumberedRows(rows[1..])
  {
  }

  lemma {:induction false} RowsRead(rows: seq<DpClearResponse>, lines: seq<string>, rest: seq<string>, id: string, container: seq<DpClearResponse>,
                                    testData: TestData)
    requires Int64Rows(rows) && lines == RowLines(rows) + rest
    ensures ReadFrom(lines, id, true, container, testData) == ReadFrom(rest, id, true, container + RenumberedRows(rows), testData)
    decreases |rows|
  {
    if rows == [] {
      assert lines == rest && container + RenumberedRows(rows) == container;
    } else {
      var tail := RowLines(rows[1..]) + rest;
      FirstRow(rows, rest);
      RowRead(rows[0], lines, tail, id, container, testData);
      RowsRead(rows[1..], tail, rest, id, container + [Renumbered(rows[0])], testData);
      MoreRows(container, rows);
    }
  }

  lemma RowsFirst(rows: seq<DpClearResponse>, lines: seq<string>, rest: seq<string>, id: string, testData: TestData)
    requires Int64Rows(rows) && lines == RowLines(rows) + rest
    ensures ReadFrom(lines, id, true, [], testData) == ReadFrom(rest, id, true, RenumberedRows(rows), testData)
  {
    RowsRead(rows, lines, rest, id, [], testData);
    assert [] + RenumberedRows(rows) == RenumberedRows(rows);
  }

  lemma HeaderRead(lines: seq<string>, next: string, rest: seq<string>, id: string, dataIn: bool, container: seq<DpClearResponse>, testData: TestData)
    requires lines == ["#" + next] + rest
    ensures ReadFrom(lines, id, dataIn, container, testData)
            == if dataIn then ReadFrom(rest, next, true, [], testData[id := container]) else ReadFrom(rest, next, true, container, testData)
  {
    assert lines[0] == "#" + next && lines[1..] == rest;
    assert IsHeader(lines[0]) && lines[0][1..] == next;
  }

  /** The map extended by some data providers, renumbered. */
  function Extended(ks: seq<string>, m: TestData, testData: TestData): TestData
    requires forall i :: 0 <= i < |ks| ==> ks[i] in m
  {
    if ks == [] then testData else Extended(ks[1..], m, testData[ks[0] := RenumberedRows(m[ks[0]])])
  }

  predicate Int64Data(m: TestData) {
    forall k :: k in m ==> Int64Rows(m[k])
  }

  /** One data provider's lines. */
  lemma ProviderRead(k: string, rows: seq<DpClearResponse>, lines: seq<string>, rest: seq<string>, id: string, dataIn: bool,
                     container: seq<DpClearResponse>, testData: TestData)
    requires Int64Rows(rows) && lines == ["#" + k] + (RowLines(rows) + rest) && (!dataIn ==> container == [])
    ensures ReadFrom(lines, id, dataIn, container, testData)
            == ReadFrom(rest, k, true, RenumberedRows(rows), if dataIn then testData[id := container] else testData)
  {
    var tail := RowLines(rows) + rest;
    HeaderRead(lines, k, tail, id, dataIn, container, testData);
    RowsFirst(rows, tail, rest, k, if dataIn then testData[id := container] else testData);
  }

  lemma {:induction false} FileRead(ks: seq<string>, m: TestData, id: string, container: seq<DpClearResponse>, testData: TestData)
    requires Int64Data(m) && forall i :: 0 <= i < |ks| ==> ks[i] in m
    ensures ReadFrom(FileLines(ks, m), id, true, container, testData) == Extended(ks, m, testData[id := container])
    decreases |ks|
  {
    if ks != [] {
      var rows := m[ks[0]];
      ProviderRead(ks[0], rows, FileLines(ks, m), FileLines(ks[1..], m), id, true, container, testData);
      FileRead(ks[1..], m, ks[0], RenumberedRows(rows), testData[id := container]);
    }
  }

  lemma {:induction false} ExtendedIs(ks: seq<string>, m: TestData, testData: TestData)
    requires forall i :: 0 <= i < |ks| ==> ks[i] in m
    ensures forall k :: k in Extended(ks, m, testData) <==> k in ks || k in testData
    ensures forall k :: k in Extended(ks, m, testData) ==>
      Extended(ks, m, testData)[k] == if k in ks then RenumberedRows(m[k]) else testData[k]
    decreases |ks|
  {
    if ks != [] {
      ExtendedIs(ks[1..], m, testData[ks[0] := RenumberedRows(m[ks[0]])]);
    }
  }

  function RenumberedData(m: TestData): (r: TestData)
    ensures r.Keys == m.Keys
  {
    map k | k in m :: RenumberedRows(m[k])
  }

  lemma ExtendedAll(ks: seq<string>, m: TestData)
    requires Lists(ks, m.Keys)
    ensures Extended(ks, m, map[]) == RenumberedData(m)
  {
    ExtendedIs(ks, m, map[]);
    SameMap(Extended(ks, m, map[]), ks, m);
  }

  lemma SameMap(extended: TestData, ks: seq<string>, m: TestData)
    requires forall k :: k in m <==> k in ks
    requires forall k :: k in extended <==> k in ks
    requires forall k :: k in m ==> extended[k] == RenumberedRows(m[k])
    ensures extended == RenumberedData(m)
  {
  }

  lemma FirstRead(ks: seq<string>, m: TestData)
    requires Int64Data(m) && ks != [] && forall i :: 0 <= i < |ks| ==> ks[i] in m
    ensures ReadFrom(FileLines(ks, m), "", false, [], map[]) == Extended(ks, m, map[])
  {
    var rows := m[ks[0]];
    ProviderRead(ks[0], rows, FileLines(ks, m), FileLines(ks[1..], m), "", false, [], map[]);
    FileRead(ks[1..], m, ks[0], RenumberedRows(rows), map[]);
  }

  lemma LinesRead(lines: seq<string>, m: TestData)
    requires Int64Data(m) && IsFileOf(lines, m)
    ensures ReadFrom(lines, "", false, [], map[]) == if m == map[] then map["" := []] else RenumberedData(m)
  {
    var ks :| Lists(ks, m.Keys) && lines == FileLines(ks, m);
    if ks == [] {
      assert m.Keys == {};
      assert m == map[];
    } else {
      assert ks[0] in m;
      FirstRead(ks, m);
      ExtendedAll(ks, m);
    }
  }

  predicate AllNumbered(rows: seq<DpClearResponse>) {
    forall i :: 0 <= i < |rows| ==> WellNumbered(rows[i])
  }

  lemma RenumberedRowsIff(rows: seq<DpClearResponse>)
    ensures RenumberedRows(rows) == rows <==> AllNumbered(rows)
  {
    forall i | 0 <= i < |rows| ensures RenumberedRows(rows)[i] == rows[i] <==> WellNumbered(rows[i]) {
      RenumberedIff(rows[i]);
    }
  }

  lemma LinesRoundTripIff(lines: seq<string>, m: TestData)
    requires Int64Data(m) && IsFileOf(lines, m)
    ensures ReadFrom(lines, "", false, [], map[]) == m <==> m != map[] && forall k :: k in m ==> AllNumbered(m[k])
  {
    LinesRead(lines, m);
    forall k | k in m ensures RenumberedData(m)[k] == m[k] <==> AllNumbered(m[k]) {
      RenumberedRowsIff(m[k]);
    }
    var spurious: TestData := map["" := []];
    assert "" in spurious;
  }

  // ---------- ids in the text ----------

  /** A header line with this id is scanned as it was written. */
  predicate OneLine(id: string) {
    Lacks(id, '\n') && !EndsInReturn(id)
  }

  predicate OneLineIds(m: TestData) {
    forall k :: k in m ==> OneLine(k)
  }

  /** Row lines hold digits, signs and blanks only. */
  lemma {:induction false} TextIsOneLine(s: seq<int>)
    ensures OneLine(IntsText(s)) && Lacks(IntsText(s), '\r')
  {
    if s != [] {
      TextIsOneLine(s[1..]);
      ItoaLacks(s[0], '\n');
      ItoaLacks(s[0], '\r');
    }
  }

  lemma {:induction false} RowLinesAre(rows: seq<DpClearResponse>, i: nat)
    requires i < |RowLines(rows)|
    ensures OneLine(RowLines(rows)[i]) && !IsHeader(RowLines(rows)[i])
  {
    if i < 6 {
      TextIsOneLine(EntryLists(rows[0])[i]);
      TextIsNoHeader(EntryLists(rows[0])[i]);
    } else {
      RowLinesAre(rows[1..], i - 6);
    }
  }

  /** A line of the file is the header of a data provider or a row line. */
  lemma {:induction false} FileLinesAre(ks: seq<string>, m: TestData, i: nat)
    requires forall l :: 0 <= l < |ks| ==> ks[l] in m
    requires i < |FileLines(ks, m)|
    ensures var line := FileLines(ks, m)[i];
            if IsHeader(line) then line[1..] in m && line == "#" + line[1..] else OneLine(line)
  {
    var rows := RowLines(m[ks[0]]);
    if i == 0 {
      assert ("#" + ks[0])[1..] == ks[0];
    } else if i - 1 < |rows| {
      assert FileLines(ks, m)[i] == rows[i - 1];
      RowLinesAre(m[ks[0]], i - 1);
    } else {
      assert FileLines(ks, m)[i] == FileLines(ks[1..], m)[i - 1 - |rows|];
      FileLinesAre(ks[1..], m, i - 1 - |rows|);
    }
  }

  /** What a file is read as has no other ids than its headers give. */
  lemma {:induction false} KeysFromHeaders(lines: seq<string>, id: string, dataIn: bool, container: seq<DpClearResponse>, testData: TestData, k: string)
    requires k in ReadFrom(lines, id, dataIn, container, testData)
    ensures k == id || k in testData || "#" + k in lines
    decreases |lines|
  {
    if lines == [] {
    } else if IsHeader(lines[0]) {
      var next := lines[0][1..];
      assert lines[0] == "#" + next;
      KeysFromHeaders(lines[1..], next, true, if dataIn then [] else container, if dataIn then testData[id := container] else testData, k);
    } else {
      KeysFromHeaders(if |lines| < 6 then [] else lines[6..], id, dataIn, container + [ParseEntry(lines)], testData, k);
    }
  }

  /** Text that starts with a header is scanned into lines that do. */
  lemma {:induction false} HeaderScanned(s: string, part: string)
    requires IsHeader(part)
    ensures ScanFrom(s, part) != [] && IsHeader(ScanFrom(s, part)[0])
    decreases |s|
  {
    if s != "" && s[0] != '\n' {
      HeaderScanned(s[1..], part + [s[0]]);
    }
  }

  lemma KeysScanned(ks: seq<string>, m: TestData, k: string)
    requires ks != [] && forall l :: 0 <= l < |ks| ==> ks[l] in m
    requires k in ReadText(TextOf(FileLines(ks, m)))
    ensures "#" + k in ScanFrom(TextOf(FileLines(ks, m)), "")
  {
    var text := TextOf(FileLines(ks, m));
    var lines := ScanFrom(text, "");
    assert text[0] == '#' && [] + ['#'] == "#";
    HeaderScanned(text[1..], "#");
    var id := lines[0][1..];
    assert lines[0] == "#" + id;
    KeysFromHeaders(lines[1..], id, true, [], map[], k);
  }

  lemma {:induction false} ScannedLacksNewline(s: string, part: string, i: nat)
    requires Lacks(part, '\n') && i < |ScanFrom(s, part)|
    ensures Lacks(ScanFrom(s, part)[i], '\n')
    decreases |s|
  {
    if s == "" {
    } else if s[0] == '\n' {
      if i > 0 {
        ScannedLacksNewline(s[1..], "", i - 1);
      }
    } else {
      ScannedLacksNewline(s[1..], part + [s[0]], i);
    }
  }

  lemma HeaderLacksNewline(text: string, k: string)
    requires "#" + k in ScanFrom(text, "")
    ensures Lacks(k, '\n')
  {
    var i :| 0 <= i < |ScanFrom(text, "")| && ScanFrom(text, "")[i] == "#" + k;
    ScannedLacksNewline(text, "", i);
    forall c | 0 <= c < |k| ensures k[c] != '\n' {
      assert ("#" + k)[c + 1] == k[c];
    }
  }

  /** An id that comes back has no newline. */
  lemma ReadBackLacksNewline(ks: seq<string>, m: TestData, k: string)
    requires ks != [] && forall l :: 0 <= l < |ks| ==> ks[l] in m
    requires k in ReadText(TextOf(FileLines(ks, m)))
    ensures Lacks(k, '\n')
  {
    KeysScanned(ks, m, k);
    HeaderLacksNewline(TextOf(FileLines(ks, m)), k);
  }

  lemma FileLacksNewline(ks: seq<string>, m: TestData)
    requires forall l :: 0 <= l < |ks| ==> ks[l] in m
    requires forall k :: k in m ==> Lacks(k, '\n')
    ensures forall i :: 0 <= i < |FileLines(ks, m)| ==> Lacks(FileLines(ks, m)[i], '\n')
  {
    forall i | 0 <= i < |FileLines(ks, m)| ensures Lacks(FileLines(ks, m)[i], '\n') {
      FileLinesAre(ks, m, i);
    }
  }

  lemma CutLine(line: string, k: string)
    requires EndsInReturn(k) && DropReturn(line) == "#" + k
    ensures line == "#" + (k + "\r")
  {
    assert EndsInReturn("#" + k);
    assert EndsInReturn(line);
    assert line == line[..|line| - 1] + "\r";
  }

  lemma HeaderCut(lines: seq<string>, k: string)
    requires forall i :: 0 <= i < |lines| ==> Lacks(lines[i], '\n')
    requires EndsInReturn(k) && "#" + k in ScanFrom(TextOf(lines), "")
    ensures "#" + (k + "\r") in lines
  {
    ScanLines(lines);
    var i :| 0 <= i < |lines| && DropReturn(lines[i]) == "#" + k;
    CutLine(lines[i], k);
  }

  lemma HeaderOf(ks: seq<string>, m: TestData, id: string)
    requires forall l :: 0 <= l < |ks| ==> ks[l] in m
    requires "#" + id in FileLines(ks, m)
    ensures id in m
  {
    var i :| 0 <= i < |FileLines(ks, m)| && FileLines(ks, m)[i] == "#" + id;
    FileLinesAre(ks, m, i);
    assert ("#" + id)[1..] == id;
  }

  /** An id that ends in a carriage return only comes back when the id with one more is there to be cut down to it. */
  lemma ReturnNeedsLonger(ks: seq<string>, m: TestData, k: string)
    requires ks != [] && forall l :: 0 <= l < |ks| ==> ks[l] in m
    requires forall id :: id in m ==> Lacks(id, '\n')
    requires EndsInReturn(k) && k in ReadText(TextOf(FileLines(ks, m)))
    ensures k + "\r" in m
  {
    KeysScanned(ks, m, k);
    FileLacksNewline(ks, m);
    HeaderCut(FileLines(ks, m), k);
    HeaderOf(ks, m, k + "\r");
  }

  function MaxLength(ks: seq<string>): (n: nat)
    ensures forall i :: 0 <= i < |ks| ==> |ks[i]| <= n
  {
    if ks == [] then 0
    else
      var n := MaxLength(ks[1..]);
      assert forall i :: 1 <= i < |ks| ==> ks[i] == ks[1..][i - 1];
      if |ks[0]| > n then |ks[0]| else n
  }

  /** No finite set of ids is closed under adding a carriage return. */
  lemma {:induction false} NoReturnEnds(ids: set<string>, k: string, bound: nat)
    requires forall id :: id in ids ==> |id| <= bound
    requires forall id :: id in ids && EndsInReturn(id) ==> id + "\r" in ids
    requires k in ids
    ensures !EndsInReturn(k)
    decreases bound - |k|
  {
    if EndsInReturn(k) {
      assert k + "\r" in ids;
      NoReturnEnds(ids, k + "\r", bound);
    }
  }

  /** If a file is read as what was written, no id has a newline or ends in a carriage return. */
  lemma ReadBackOneLine(ks: seq<string>, m: TestData)
    requires ks != [] && Lists(ks, m.Keys) && ReadText(TextOf(FileLines(ks, m))) == m
    ensures OneLineIds(m)
  {
    forall k | k in m ensures Lacks(k, '\n') {
      ReadBackLacksNewline(ks, m, k);
    }
    forall k | k in m && EndsInReturn(k) ensures k + "\r" in m {
      ReturnNeedsLonger(ks, m, k);
    }
    forall k | k in m ensures !EndsInReturn(k) {
      NoReturnEnds(m.Keys, k, MaxLength(ks));
    }
  }

  /** With such ids every line is scanned as it was written. */
  lemma FileScanned(ks: seq<string>, m: TestData)
    requires OneLineIds(m) && forall l :: 0 <= l < |ks| ==> ks[l] in m
    ensures ScanFrom(TextOf(FileLines(ks, m)), "") == FileLines(ks, m)
  {
    var lines := FileLines(ks, m);
    FileLacksNewline(ks, m);
    ScanLines(lines);
    forall i | 0 <= i < |lines| ensures DropReturn(lines[i]) == lines[i] {
      FileLinesAre(ks, m, i);
    }
  }

  /** What a written file is read as when no id has a newline or ends in a carriage return: all data providers with their
      rows renumbered; from an empty map, one data provider with an empty name and no rows. */
  lemma WrittenIsRead(text: string, m: TestData)
    requires Int64Data(m) && IsTextOf(text, m) && OneLineIds(m)
    ensures ReadText(text) == if m == map[] then map["" := []] else RenumberedData(m)
  {
    var lines :| IsFileOf(lines, m) && text == TextOf(lines);
    var ks :| Lists(ks, m.Keys) && lines == FileLines(ks, m);
    FileScanned(ks, m);
    LinesRead(lines, m);
  }

  /** Writing and reading gives the same data back exactly when there is a data provider, every row's attributes are
      numbered consecutively, and no id has a newline or ends in a carriage return: negative values, empty attribute
      lists and data providers without rows all survive. */
  lemma TextRoundTripIff(text: string, m: TestData)
    requires Int64Data(m) && IsTextOf(text, m)
    ensures ReadText(text) == m <==> m != map[] && forall k :: k in m ==> AllNumbered(m[k]) && Lacks(k, '\n') && !EndsInReturn(k)
  {
    var lines :| IsFileOf(lines, m) && text == TextOf(lines);
    var ks :| Lists(ks, m.Keys) && lines == FileLines(ks, m);
    if OneLineIds(m) {
      FileScanned(ks, m);
      LinesRoundTripIff(lines, m);
    } else {
      assert ks != [];
      if ReadText(text) == m {
        ReadBackOneLine(ks, m);
      }
    }
  }
}
