/** The rows exchanged by the protocols and their byte forms (lib/structs.go). */
module Responses {
  import opened Group
  import opened ElGamal
  import opened Codec
  import opened Options
  import opened Strings
  import opened Parallel

  type GroupingKey = string

  datatype ProcessResponse = ProcessResponse(whereEnc: CipherVector, groupByEnc: CipherVector, aggregatingAttributes: CipherVector)

  datatype FilteredResponse = FilteredResponse(groupByEnc: CipherVector, aggregatingAttributes: CipherVector)

  datatype ProcessResponseDet = ProcessResponseDet(pr: ProcessResponse, detTagGroupBy: GroupingKey, detTagWhere: seq<GroupingKey>)

  type Grouped = map<GroupingKey, FilteredResponse>

  datatype FilteredResponseDet = FilteredResponseDet(detTagGroupBy: GroupingKey, fr: FilteredResponse)

  // ---------- byte strings ----------

  /** A Go string is a byte sequence. */
  predicate IsByteString(s: string) {
    forall i :: 0 <= i < |s| ==> s[i] as int < 256
  }

  function StringBytes(s: string): (b: seq<byte>)
    ensures |b| == |s|
  {
    seq(|s|, i requires 0 <= i < |s| => s[i] as int % 256)
  }

  function BytesString(b: seq<byte>): (s: string)
    ensures |s| == |b|
  {
    seq(|b|, i requires 0 <= i < |b| => b[i] as char)
  }

  lemma StringRoundTrip(s: string)
    requires IsByteString(s)
    ensures BytesString(StringBytes(s)) == s
  {
    forall i | 0 <= i < |s| ensures BytesString(StringBytes(s))[i] == s[i] {
    }
  }

  // ---------- FilteredResponseDet ----------

  /** The three lengths sent beside the bytes of an entry. */
  datatype EntryLengths = EntryLengths(gacb: nat, aab: nat, dtb: nat)

  function LengthsOf(d: FilteredResponseDet): EntryLengths {
    EntryLengths(|d.fr.groupByEnc|, |d.fr.aggregatingAttributes|, |d.detTagGroupBy|)
  }

  function EntrySize(l: EntryLengths): nat {
    l.gacb * CIPHER_LEN + l.aab * CIPHER_LEN + l.dtb
  }

  function EntryBytes(d: FilteredResponseDet): (b: seq<byte>)
    ensures |b| == EntrySize(LengthsOf(d))
  {
    VectorBytes(d.fr.aggregatingAttributes) + VectorBytes(d.fr.groupByEnc) + StringBytes(d.detTagGroupBy)
  }

  function BytesEntry(b: seq<byte>, l: EntryLengths): (d: FilteredResponseDet)
    requires |b| == EntrySize(l)
    ensures LengthsOf(d) == l
  {
    var mid := l.aab * CIPHER_LEN;
    var end := mid + l.gacb * CIPHER_LEN;
    FilteredResponseDet(BytesString(b[end..]),
                        FilteredResponse(BytesVector(b[mid..end], l.gacb), BytesVector(b[..mid], l.aab)))
  }

  /** On the wire the attributes come first, then the group, then the tag. */
  lemma EntryFormat(d: FilteredResponseDet)
    ensures var b, mid := EntryBytes(d), |d.fr.aggregatingAttributes| * CIPHER_LEN;
            var end := mid + |d.fr.groupByEnc| * CIPHER_LEN;
            && 0 <= mid <= end <= |b| && b[..mid] == VectorBytes(d.fr.aggregatingAttributes)
            && b[mid..end] == VectorBytes(d.fr.groupByEnc) && b[end..] == StringBytes(d.detTagGroupBy)
  {
  }

  lemma EntryRoundTrip(d: FilteredResponseDet)
    requires IsByteString(d.detTagGroupBy)
    ensures BytesEntry(EntryBytes(d), LengthsOf(d)) == d
  {
    EntryFormat(d);
    VectorRoundTrip(d.fr.aggregatingAttributes);
    VectorRoundTrip(d.fr.groupByEnc);
    StringRoundTrip(d.detTagGroupBy);
  }

  // ---------- ChildAggregatedDataMessage ----------

  function ChildBytes(entries: seq<FilteredResponseDet>): seq<byte> {
    if entries == [] then [] else EntryBytes(entries[0]) + ChildBytes(entries[1..])
  }

  /** The one triple ToBytes returns for the whole message is written last by some goroutine: that of any entry,
      or zeros when there is none. */
  predicate SentLengths(entries: seq<FilteredResponseDet>, l: EntryLengths) {
    if entries == [] then l == EntryLengths(0, 0, 0)
    else exists i :: 0 <= i < |entries| && l == LengthsOf(entries[i])
  }

  function Entries(b: seq<byte>, l: EntryLengths): (entries: seq<FilteredResponseDet>)
    requires EntrySize(l) != 0
    ensures forall i :: 0 <= i < |entries| ==> LengthsOf(entries[i]) == l
    decreases |b|
  {
    if |b| < EntrySize(l) then [] else [BytesEntry(b[..EntrySize(l)], l)] + Entries(b[EntrySize(l)..], l)
  }

  /** ChildAggregatedDataMessage.FromBytes: a zero element size leaves the message empty. */
  function BytesChild(b: seq<byte>, l: EntryLengths): seq<FilteredResponseDet> {
    if EntrySize(l) != 0 && |b| > 0 then Entries(b, l) else []
  }

  lemma NextBytes(b: seq<byte>, entries: seq<FilteredResponseDet>, i: nat)
    requires i < |entries|
    ensures b + EntryBytes(entries[i]) + ChildBytes(entries[i + 1..]) == b + ChildBytes(entries[i..])
  {
    assert entries[i..][1..] == entries[i + 1..];
    assert b + EntryBytes(entries[i]) + ChildBytes(entries[i + 1..]) == b + (EntryBytes(entries[i]) + ChildBytes(entries[i + 1..]));
  }

  /** ToBytes: the goroutines write their pieces by index and the three lengths in whatever order they finish. */
  method ChildToBytes(entries: seq<FilteredResponseDet>) returns (b: seq<byte>, l: EntryLengths)
    ensures b == ChildBytes(entries) && SentLengths(entries, l)
  {
    var bb := ParallelMap(entries, [], (_, d: FilteredResponseDet) => EntryBytes(d));
    l := EntryLengths(0, 0, 0);
    if entries != [] {
      var last: int := *;
      l := LengthsOf(entries[if 0 <= last < |entries| then last else 0]);
    }
    b := [];
    for i := 0 to |bb|
      invariant b + ChildBytes(entries[i..]) == ChildBytes(entries)
    {
      NextBytes(b, entries, i);
      b := b + bb[i];
    }
  }

  /** FromBytes: as many entries as whole elements fit. */
  method ChildFromBytes(data: seq<byte>, l: EntryLengths) returns (entries: seq<FilteredResponseDet>)
    ensures entries == BytesChild(data, l)
  {
    entries := [];
    var elementLength := EntrySize(l);
    if elementLength != 0 && |data| > 0 {
      var rest := data;
      while |rest| >= elementLength
        invariant entries + Entries(rest, l) == Entries(data, l)
        decreases |rest|
      {
        entries, rest := entries + [BytesEntry(rest[..elementLength], l)], rest[elementLength..];
      }
    }
  }

  predicate Uniform(entries: seq<FilteredResponseDet>, l: EntryLengths) {
    forall i :: 0 <= i < |entries| ==> LengthsOf(entries[i]) == l
  }

  predicate ByteTags(entries: seq<FilteredResponseDet>) {
    forall i :: 0 <= i < |entries| ==> IsByteString(entries[i].detTagGroupBy)
  }

  /** The first entry is cut off where it ends. */
  lemma FirstEntry(d: FilteredResponseDet, rest: seq<byte>, l: EntryLengths)
    requires LengthsOf(d) == l && IsByteString(d.detTagGroupBy) && EntrySize(l) != 0
    ensures Entries(EntryBytes(d) + rest, l) == [d] + Entries(rest, l)
  {
    var b := EntryBytes(d) + rest;
    EntryRoundTrip(d);
    assert b[..EntrySize(l)] == EntryBytes(d);
    assert b[EntrySize(l)..] == rest;
  }

  lemma {:induction false} EntriesRoundTrip(entries: seq<FilteredResponseDet>, l: EntryLengths)
    requires Uniform(entries, l) && ByteTags(entries) && EntrySize(l) != 0
    ensures Entries(ChildBytes(entries), l) == entries
  {
    if entries != [] {
      FirstEntry(entries[0], ChildBytes(entries[1..]), l);
      EntriesRoundTrip(entries[1..], l);
    }
  }

  lemma SomeBytes(entries: seq<FilteredResponseDet>)
    requires entries != [] && EntrySize(LengthsOf(entries[0])) != 0
    ensures |ChildBytes(entries)| > 0
  {
    assert |EntryBytes(entries[0])| == EntrySize(LengthsOf(entries[0]));
  }

  /** A child's message, read with any triple of lengths, survives the wire exactly when it is empty, or its entries all
      have those lengths and a nonzero size: entries of other shapes are cut at the wrong places, and entries of size
      zero disappear. */
  lemma ChildRoundTripIff(entries: seq<FilteredResponseDet>, l: EntryLengths)
    requires ByteTags(entries)
    ensures BytesChild(ChildBytes(entries), l) == entries <==> entries == [] || (Uniform(entries, l) && EntrySize(l) != 0)
  {
    if entries != [] {
      if Uniform(entries, l) && EntrySize(l) != 0 {
        EntriesRoundTrip(entries, l);
        SomeBytes(entries);
      } else if EntrySize(l) != 0 {
        assert Uniform(Entries(ChildBytes(entries), l), l);
      }
    }
  }

  // ---------- ProcessResponseDet ----------

  const SEPARATOR := "/-/"

  function ResponseBytes(pr: ProcessResponse): seq<byte> {
    VectorBytes(pr.groupByEnc) + VectorBytes(pr.aggregatingAttributes) + VectorBytes(pr.whereEnc)
  }

  function DetBytes(d: ProcessResponseDet): seq<byte> {
    ResponseBytes(d.pr) + StringBytes(d.detTagGroupBy) + StringBytes(Join(d.detTagWhere, SEPARATOR))
  }

  /** The where tags ProcessResponseDet.FromBytes recovers. Its slice for them ends dtbgbLength bytes too far; slack is
      what the slice's spare capacity holds there, and None is the panic when the capacity does not reach. */
  function WhereTagsRead(d: ProcessResponseDet, slack: seq<byte>): Option<seq<GroupingKey>> {
    var data := DetBytes(d) + slack;
    var start := |ResponseBytes(d.pr)| + |d.detTagGroupBy|;
    var end := start + |d.detTagGroupBy| + |Join(d.detTagWhere, SEPARATOR)|;
    if end > |data| then None else Some(Split(BytesString(data[start..end]), SEPARATOR))
  }

  lemma {:induction false} JoinByteString(strs: seq<string>)
    requires forall i :: 0 <= i < |strs| ==> IsByteString(strs[i])
    ensures IsByteString(Join(strs, SEPARATOR))
  {
    if |strs| > 1 {
      JoinByteString(strs[1..]);
    }
  }

  /** The where tags come back exactly when the group tag is empty and there is at least one where tag. */
  lemma WhereTagsReadIff(d: ProcessResponseDet, slack: seq<byte>)
    requires forall i :: 0 <= i < |d.detTagWhere| ==> IsByteString(d.detTagWhere[i]) && Lacks(d.detTagWhere[i], SEPARATOR[0])
    ensures WhereTagsRead(d, slack) == Some(d.detTagWhere) <==> d.detTagGroupBy == "" && d.detTagWhere != []
  {
    var joined := Join(d.detTagWhere, SEPARATOR);
    var data := DetBytes(d) + slack;
    var start := |ResponseBytes(d.pr)| + |d.detTagGroupBy|;
    var end := start + |d.detTagGroupBy| + |joined|;
    JoinByteString(d.detTagWhere);
    StringRoundTrip(joined);
    if end <= |data| {
      var text := BytesString(data[start..end]);
      JoinSplit(text, SEPARATOR);
      if d.detTagGroupBy == "" {
        assert data[start..end] == StringBytes(joined);
        if d.detTagWhere != [] {
          SplitJoin(d.detTagWhere, SEPARATOR);
        }
      } else {
        assert |text| > |joined|;
      }
    }
  }
}
