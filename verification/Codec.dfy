/** Byte and string forms of points, ciphertexts and lists of them (lib/crypto.go, lib/tools/tools.go). */
module Codec {
  import opened Primes
  import opened Group
  import opened Sums
  import opened ElGamal
  import opened Parallel

  type byte = x: int | 0 <= x < 256
    witness 0

  // ---------- fixed-width integers ----------

  function BigEndian(n: nat, width: nat): (b: seq<byte>)
    ensures |b| == width
    decreases width
  {
    if width == 0 then [] else BigEndian(n / 256, width - 1) + [n % 256]
  }

  function BigEndianValue(b: seq<byte>): nat {
    if b == [] then 0 else 256 * BigEndianValue(b[..|b| - 1]) + b[|b| - 1]
  }

  lemma {:induction false} BigEndianRoundTrip(n: nat, width: nat)
    requires n < Pow256(width)
    ensures BigEndianValue(BigEndian(n, width)) == n
    decreases width
  {
    if width > 0 {
      BigEndianRoundTrip(n / 256, width - 1);
      assert BigEndian(n, width)[..width - 1] == BigEndian(n / 256, width - 1);
    }
  }

  // ---------- points and ciphertexts ----------

  const POINT_LEN: nat := SuiTe.pointLen
  const CIPHER_LEN: nat := 2 * POINT_LEN

  lemma PointLenPositive()
    ensures POINT_LEN >= 1
  {
  }

  function PointBytes(p: Point): (b: seq<byte>)
    ensures |b| == POINT_LEN
  {
    BigEndian(p, POINT_LEN)
  }

  function BytesPoint(b: seq<byte>): Point {
    FromInt(BigEndianValue(b))
  }

  lemma PointRoundTrip(p: Point)
    ensures BytesPoint(PointBytes(p)) == p
  {
    BigEndianRoundTrip(p, POINT_LEN);
  }

  function CipherBytes(c: CipherText): (b: seq<byte>)
    ensures |b| == CIPHER_LEN
  {
    PointBytes(c.K) + PointBytes(c.C)
  }

  function BytesCipher(b: seq<byte>): CipherText
    requires |b| == CIPHER_LEN
  {
    CipherText(BytesPoint(b[..POINT_LEN]), BytesPoint(b[POINT_LEN..]))
  }

  /** K comes first. */
  lemma CipherFormat(c: CipherText)
    ensures CipherBytes(c)[..POINT_LEN] == PointBytes(c.K) && CipherBytes(c)[POINT_LEN..] == PointBytes(c.C)
  {
  }

  lemma CipherRoundTrip(c: CipherText)
    ensures BytesCipher(CipherBytes(c)) == c
  {
    PointRoundTrip(c.K);
    PointRoundTrip(c.C);
    CipherFormat(c);
  }

  // ---------- vectors ----------

  function VectorBytes(cv: CipherVector): (b: seq<byte>)
    ensures |b| == |cv| * CIPHER_LEN
  {
    if cv == [] then [] else
      assert |cv| * CIPHER_LEN == (|cv| - 1) * CIPHER_LEN + CIPHER_LEN;
      CipherBytes(cv[0]) + VectorBytes(cv[1..])
  }

  function BytesVector(b: seq<byte>, length: nat): (cv: CipherVector)
    requires |b| == length * CIPHER_LEN
    ensures |cv| == length
    decreases length
  {
    if length == 0 then [] else
      assert length * CIPHER_LEN == (length - 1) * CIPHER_LEN + CIPHER_LEN;
      assert (length - 1) * CIPHER_LEN >= 0;
      [BytesCipher(b[..CIPHER_LEN])] + BytesVector(b[CIPHER_LEN..], length - 1)
  }

  lemma {:induction false} VectorRoundTrip(cv: CipherVector)
    ensures BytesVector(VectorBytes(cv), |cv|) == cv
  {
    if cv != [] {
      var b := VectorBytes(cv);
      CipherRoundTrip(cv[0]);
      VectorRoundTrip(cv[1..]);
      assert b[..CIPHER_LEN] == CipherBytes(cv[0]);
      assert b[CIPHER_LEN..] == VectorBytes(cv[1..]);
    }
  }

  /** CipherVector.ToBytes */
  method CipherVectorToBytes(cv: CipherVector) returns (b: seq<byte>, length: nat)
    ensures b == VectorBytes(cv) && length == |cv|
  {
    b := [];
    for i := 0 to |cv|
      invariant b + VectorBytes(cv[i..]) == VectorBytes(cv)
    {
      var data := CipherBytes(cv[i]);
      assert cv[i..][1..] == cv[i + 1..];
      b := b + data;
    }
    length := |cv|;
  }

  lemma NextCipher(data: seq<byte>, length: nat)
    requires length > 0 && |data| == length * CIPHER_LEN
    ensures CIPHER_LEN <= |data| && |data| - CIPHER_LEN == (length - 1) * CIPHER_LEN
    ensures BytesVector(data, length) == [BytesCipher(data[..CIPHER_LEN])] + BytesVector(data[CIPHER_LEN..], length - 1)
  {
    assert length * CIPHER_LEN == (length - 1) * CIPHER_LEN + CIPHER_LEN;
  }

  /** The elements read so far, and the data of the others. */
  ghost predicate ReadSoFar(cv: CipherVector, rest: seq<byte>, length: nat, all: CipherVector) {
    |cv| <= length && |rest| == (length - |cv|) * CIPHER_LEN && cv + BytesVector(rest, length - |cv|) == all
  }

  lemma ReadNext(cv: CipherVector, rest: seq<byte>, length: nat, all: CipherVector)
    requires ReadSoFar(cv, rest, length, all) && |cv| < length
    ensures CIPHER_LEN <= |rest| && ReadSoFar(cv + [BytesCipher(rest[..CIPHER_LEN])], rest[CIPHER_LEN..], length, all)
  {
    NextCipher(rest, length - |cv|);
    AppendAssoc(cv, BytesCipher(rest[..CIPHER_LEN]), BytesVector(rest[CIPHER_LEN..], length - |cv| - 1));
  }

  /** CipherVector.FromBytes: the data may be longer than what is read. */
  method CipherVectorFromBytes(data: seq<byte>, length: nat) returns (cv: CipherVector)
    requires length * CIPHER_LEN <= |data|
    ensures cv == BytesVector(data[..length * CIPHER_LEN], length)
  {
    cv := [];
    var rest := data[..length * CIPHER_LEN];
    ghost var all := BytesVector(rest, length);
    while |cv| < length
      invariant ReadSoFar(cv, rest, length, all)
      decreases length - |cv|
    {
      ReadNext(cv, rest, length, all);
      cv, rest := cv + [BytesCipher(rest[..CIPHER_LEN])], rest[CIPHER_LEN..];
    }
  }

  // ---------- lists of points ----------

  function PointsBytes(points: seq<Point>): (b: seq<byte>)
    ensures |b| == |points| * POINT_LEN
  {
    if points == [] then [] else
      assert |points| * POINT_LEN == (|points| - 1) * POINT_LEN + POINT_LEN;
      PointBytes(points[0]) + PointsBytes(points[1..])
  }

  /** FromBytesToAbstractPoints */
  function BytesPoints(b: seq<byte>): seq<Point>
  {
    if |b| < POINT_LEN || POINT_LEN == 0 then [] else [BytesPoint(b[..POINT_LEN])] + BytesPoints(b[POINT_LEN..])
  }

  lemma {:induction false} PointsRoundTrip(points: seq<Point>)
    ensures BytesPoints(PointsBytes(points)) == points
  {
    PointLenPositive();
    if points != [] {
      var b := PointsBytes(points);
      PointRoundTrip(points[0]);
      PointsRoundTrip(points[1..]);
      assert b[..POINT_LEN] == PointBytes(points[0]);
      assert b[POINT_LEN..] == PointsBytes(points[1..]);
    }
  }

  // ---------- lengths as 32-bit words ----------

  const UINT32: nat := 0x1_0000_0000

  function Word(n: nat): (w: nat)
    ensures w < UINT32 && (n < UINT32 ==> w == n)
  {
    n % UINT32
  }

  /** UnsafeCastIntsToBytes: each int truncated to 32 bits, big endian. */
  function IntsBytes(ints: seq<nat>): (b: seq<byte>)
    ensures |b| == 4 * |ints|
  {
    if ints == [] then [] else BigEndian(Word(ints[0]), 4) + IntsBytes(ints[1..])
  }

  /** The value of four bytes, the first one counting most. */
  lemma FourBytes(b: seq<byte>)
    requires |b| == 4
    ensures BigEndianValue(b) == 0x100_0000 * (b[0] as int) + 0x1_0000 * (b[1] as int) + 0x100 * (b[2] as int) + b[3] as int
  {
    assert b[..3][..2] == b[..2] && b[..2][..1] == b[..1] && b[..1][..0] == [];
    assert BigEndianValue(b[..1]) == b[0];
    assert BigEndianValue(b[..2]) == 0x100 * (b[0] as int) + b[1] as int;
    assert BigEndianValue(b[..3]) == 0x1_0000 * (b[0] as int) + 0x100 * (b[1] as int) + b[2] as int;
  }

  /** Integer i takes bytes 4 * i to 4 * i + 3, the most significant first, modulo 2^32. */
  lemma {:induction false} IntAt(ints: seq<nat>, i: nat)
    requires i < |ints|
    ensures var b := IntsBytes(ints);
            ints[i] % 0x1_0000_0000
            == 0x100_0000 * (b[4 * i] as int) + 0x1_0000 * (b[4 * i + 1] as int) + 0x100 * (b[4 * i + 2] as int) + b[4 * i + 3] as int
  {
    if i == 0 {
      WordRoundTrip(ints[0]);
      FourBytes(BigEndian(Word(ints[0]), 4));
    } else {
      IntAt(ints[1..], i - 1);
    }
  }

  lemma NextWordBytes(done: seq<byte>, ints: seq<nat>, i: nat)
    requires i < |ints|
    ensures done + BigEndian(Word(ints[i]), 4) + IntsBytes(ints[i + 1..]) == done + IntsBytes(ints[i..])
  {
    var word, rest := BigEndian(Word(ints[i]), 4), IntsBytes(ints[i + 1..]);
    assert ints[i..][1..] == ints[i + 1..];
    assert done + word + rest == done + (word + rest);
  }

  method UnsafeCastIntsToBytes(ints: seq<nat>) returns (bsFinal: seq<byte>)
    ensures bsFinal == IntsBytes(ints)
  {
    bsFinal := [];
    for i := 0 to |ints|
      invariant bsFinal + IntsBytes(ints[i..]) == IntsBytes(ints)
    {
      var buf := BigEndian(Word(ints[i]), 4);
      NextWordBytes(bsFinal, ints, i);
      bsFinal := bsFinal + buf;
    }
  }

  function BytesInts(b: seq<byte>): seq<nat> {
    if |b| < 4 then [] else [BigEndianValue(b[..4])] + BytesInts(b[4..])
  }

  /** The words before position i, and the bytes of the others. */
  ghost predicate WordsUpTo(done: seq<nat>, bytes: seq<byte>, i: nat) {
    i <= |bytes| && (|bytes| - i) % 4 == 0 && done + BytesInts(bytes[i..]) == BytesInts(bytes)
  }

  lemma AllWords(done: seq<nat>, bytes: seq<byte>)
    requires WordsUpTo(done, bytes, |bytes|)
    ensures done == BytesInts(bytes)
  {
    assert BytesInts(bytes[|bytes|..]) == [];
  }

  lemma NextWord(done: seq<nat>, bytes: seq<byte>, i: nat)
    requires WordsUpTo(done, bytes, i) && i < |bytes|
    ensures i + 4 <= |bytes| && WordsUpTo(done + [BigEndianValue(bytes[i..i + 4])], bytes, i + 4)
  {
    assert bytes[i..][..4] == bytes[i..i + 4] && bytes[i..][4..] == bytes[i + 4..];
    AppendAssoc(done, BigEndianValue(bytes[i..i + 4]), BytesInts(bytes[i + 4..]));
  }

  method UnsafeCastBytesToInts(bytes: seq<byte>) returns (intsFinal: seq<nat>)
    requires |bytes| % 4 == 0
    ensures intsFinal == BytesInts(bytes)
  {
    intsFinal := [];
    var i := 0;
    while i < |bytes|
      invariant 0 <= i <= |bytes| && WordsUpTo(intsFinal, bytes, i)
    {
      NextWord(intsFinal, bytes, i);
      var x := BigEndianValue(bytes[i..i + 4]);
      intsFinal := intsFinal + [x];
      i := i + 4;
    }
    AllWords(intsFinal, bytes);
  }

  lemma WordRoundTrip(n: nat)
    ensures BigEndianValue(BigEndian(Word(n), 4)) == Word(n)
  {
    assert Pow256(4) == UINT32 by { assert Pow256(2) == 0x1_0000; }
    BigEndianRoundTrip(Word(n), 4);
  }

  function Words(ints: seq<nat>): seq<nat> {
    if ints == [] then [] else [Word(ints[0])] + Words(ints[1..])
  }

  /** Casting back gives every length modulo 2^32. */
  lemma {:induction false} IntsRoundTrip(ints: seq<nat>)
    ensures BytesInts(IntsBytes(ints)) == Words(ints)
  {
    if ints != [] {
      var head := BigEndian(Word(ints[0]), 4);
      WordRoundTrip(ints[0]);
      IntsRoundTrip(ints[1..]);
      assert IntsBytes(ints)[..4] == head && IntsBytes(ints)[4..] == IntsBytes(ints[1..]);
    }
  }

  lemma {:induction false} WordsAt(ints: seq<nat>)
    ensures |Words(ints)| == |ints| && forall i :: 0 <= i < |ints| ==> Words(ints)[i] == Word(ints[i])
  {
    if ints != [] {
      WordsAt(ints[1..]);
    }
  }

  // ---------- jagged arrays of vectors ----------

  function Lengths(data: seq<CipherVector>): (r: seq<nat>)
    ensures |r| == |data| && forall i :: 0 <= i < |data| ==> r[i] == |data[i]|
  {
    seq(|data|, i requires 0 <= i < |data| => |data[i]|)
  }

  function MatrixBytes(data: seq<CipherVector>): seq<byte> {
    if data == [] then [] else VectorBytes(data[0]) + MatrixBytes(data[1..])
  }

  function TotalLength(lengths: seq<nat>): nat {
    if lengths == [] then 0 else lengths[0] + TotalLength(lengths[1..])
  }

  lemma Distribute(a: nat, b: nat, d: nat)
    ensures (a + b) * d == a * d + b * d && a * d >= 0 && b * d >= 0
  {
  }

  lemma TotalLengthStep(lengths: seq<nat>)
    requires lengths != []
    ensures TotalLength(lengths) * CIPHER_LEN == lengths[0] * CIPHER_LEN + TotalLength(lengths[1..]) * CIPHER_LEN
    ensures lengths[0] * CIPHER_LEN >= 0 && TotalLength(lengths[1..]) * CIPHER_LEN >= 0
  {
    Distribute(lengths[0], TotalLength(lengths[1..]), CIPHER_LEN);
  }

  /** FromBytesToArrayCipherVector once the lengths are read; the slices must fit, as Go's do or panic. */
  function BytesMatrix(b: seq<byte>, lengths: seq<nat>): (data: seq<CipherVector>)
    requires TotalLength(lengths) * CIPHER_LEN <= |b|
    ensures |data| == |lengths| && forall i :: 0 <= i < |lengths| ==> |data[i]| == lengths[i]
  {
    if lengths == [] then [] else
      TotalLengthStep(lengths);
      [BytesVector(b[..lengths[0] * CIPHER_LEN], lengths[0])] + BytesMatrix(b[lengths[0] * CIPHER_LEN..], lengths[1..])
  }

  lemma NextPiece(b: seq<byte>, data: seq<CipherVector>, i: nat)
    requires i < |data|
    ensures b + VectorBytes(data[i]) + MatrixBytes(data[i + 1..]) == b + MatrixBytes(data[i..])
  {
    assert data[i..][1..] == data[i + 1..];
    assert b + VectorBytes(data[i]) + MatrixBytes(data[i + 1..]) == b + (VectorBytes(data[i]) + MatrixBytes(data[i + 1..]));
  }

  /** ArrayCipherVectorToBytes: every vector is encoded by its own goroutine, the pieces are joined in order. */
  method ArrayCipherVectorToBytes(data: seq<CipherVector>) returns (b: seq<byte>, cvLengths: seq<byte>)
    ensures b == MatrixBytes(data) && cvLengths == IntsBytes(Lengths(data))
  {
    var bb := ParallelMap(data, [], (_, cv: CipherVector) => VectorBytes(cv));
    b := [];
    for i := 0 to |bb|
      invariant b + MatrixBytes(data[i..]) == MatrixBytes(data)
    {
      NextPiece(b, data, i);
      b := b + bb[i];
    }
    cvLengths := UnsafeCastIntsToBytes(Lengths(data));
  }

  lemma NextVector(data: seq<byte>, lengths: seq<nat>)
    requires lengths != [] && TotalLength(lengths) * CIPHER_LEN <= |data|
    ensures 0 <= lengths[0] * CIPHER_LEN <= |data| && TotalLength(lengths[1..]) * CIPHER_LEN <= |data| - lengths[0] * CIPHER_LEN
    ensures BytesMatrix(data, lengths)
            == [BytesVector(data[..lengths[0] * CIPHER_LEN], lengths[0])] + BytesMatrix(data[lengths[0] * CIPHER_LEN..], lengths[1..])
  {
    TotalLengthStep(lengths);
  }

  /** The vectors cut off so far, and the data of the others. */
  ghost predicate CutSoFar(cvs: seq<CipherVector>, rest: seq<byte>, lengths: seq<nat>, all: seq<CipherVector>) {
    TotalLength(lengths) * CIPHER_LEN <= |rest| && cvs + BytesMatrix(rest, lengths) == all
  }

  lemma CutVector(cvs: seq<CipherVector>, rest: seq<byte>, lengths: seq<nat>, all: seq<CipherVector>)
    requires lengths != [] && CutSoFar(cvs, rest, lengths, all)
    ensures 0 <= lengths[0] * CIPHER_LEN <= |rest|
    ensures var size := lengths[0] * CIPHER_LEN;
            CutSoFar(cvs + [BytesVector(rest[..size], lengths[0])], rest[size..], lengths[1..], all)
  {
    var size := lengths[0] * CIPHER_LEN;
    NextVector(rest, lengths);
    AppendAssoc(cvs, BytesVector(rest[..size], lengths[0]), BytesMatrix(rest[size..], lengths[1..]));
  }

  /** Whole words of lengths, and enough data for them. */
  predicate Readable(data: seq<byte>, cvLengthsByte: seq<byte>) {
    |cvLengthsByte| % 4 == 0 && TotalLength(BytesInts(cvLengthsByte)) * CIPHER_LEN <= |data|
  }

  /** FromBytesToArrayCipherVector; Go panics when the data is shorter than the lengths say. */
  method FromBytesToArrayCipherVector(data: seq<byte>, cvLengthsByte: seq<byte>) returns (dataConverted: seq<CipherVector>)
    requires Readable(data, cvLengthsByte)
    ensures dataConverted == BytesMatrix(data, BytesInts(cvLengthsByte))
  {
    var cvLengths := UnsafeCastBytesToInts(cvLengthsByte);
    dataConverted := [];
    var rest := data;
    assert cvLengths[0..] == cvLengths;
    for i := 0 to |cvLengths|
      invariant CutSoFar(dataConverted, rest, cvLengths[i..], BytesMatrix(data, cvLengths))
    {
      CutVector(dataConverted, rest, cvLengths[i..], BytesMatrix(data, cvLengths));
      assert cvLengths[i..][1..] == cvLengths[i + 1..];
      var size := cvLengths[i] * CIPHER_LEN;
      var cv := CipherVectorFromBytes(rest[..size], cvLengths[i]);
      assert rest[..size][..size] == rest[..size];
      dataConverted, rest := dataConverted + [cv], rest[size..];
    }
  }

  lemma {:induction false} MatrixBytesLength(data: seq<CipherVector>)
    ensures |MatrixBytes(data)| == TotalLength(Lengths(data)) * CIPHER_LEN
  {
    if data != [] {
      MatrixBytesLength(data[1..]);
      assert Lengths(data)[1..] == Lengths(data[1..]);
      TotalLengthStep(Lengths(data));
    }
  }

  lemma {:induction false} MatrixRoundTrip(data: seq<CipherVector>)
    ensures |MatrixBytes(data)| == TotalLength(Lengths(data)) * CIPHER_LEN
    ensures BytesMatrix(MatrixBytes(data), Lengths(data)) == data
  {
    MatrixBytesLength(data);
    if data != [] {
      var b := MatrixBytes(data);
      MatrixRoundTrip(data[1..]);
      assert Lengths(data)[1..] == Lengths(data[1..]);
      VectorRoundTrip(data[0]);
      assert b[..|data[0]| * CIPHER_LEN] == VectorBytes(data[0]);
      assert b[|data[0]| * CIPHER_LEN..] == MatrixBytes(data[1..]);
    }
  }

  lemma {:induction false} TotalMonotone(a: seq<nat>, b: seq<nat>)
    requires |a| == |b| && forall i :: 0 <= i < |a| ==> a[i] <= b[i]
    ensures TotalLength(a) <= TotalLength(b)
  {
    if a != [] {
      TotalMonotone(a[1..], b[1..]);
    }
  }

  /** The lengths as the receiver reads them off the wire. */
  function WireLengths(data: seq<CipherVector>): seq<nat> {
    BytesInts(IntsBytes(Lengths(data)))
  }

  lemma WireLengthsFit(data: seq<CipherVector>)
    ensures WireLengths(data) == Words(Lengths(data))
    ensures TotalLength(WireLengths(data)) * CIPHER_LEN <= |MatrixBytes(data)|
  {
    IntsRoundTrip(Lengths(data));
    MatrixBytesLength(data);
    WordsAt(Lengths(data));
    TotalMonotone(Words(Lengths(data)), Lengths(data));
    MulMonotone(TotalLength(Words(Lengths(data))), TotalLength(Lengths(data)), CIPHER_LEN);
  }

  predicate ShortVectors(data: seq<CipherVector>) {
    forall i :: 0 <= i < |data| ==> |data[i]| < UINT32
  }

  lemma ShortWireLengths(data: seq<CipherVector>)
    ensures Words(Lengths(data)) == Lengths(data) <==> ShortVectors(data)
  {
    WordsAt(Lengths(data));
    if Words(Lengths(data)) == Lengths(data) {
      forall i | 0 <= i < |data| ensures |data[i]| < UINT32 {
        assert Words(Lengths(data))[i] < UINT32;
      }
    }
  }

  /** ArrayCipherVectorToBytes then FromBytesToArrayCipherVector gives back the array exactly when every vector is
      shorter than 2^32; a longer one comes back truncated. */
  lemma ArrayRoundTripIff(data: seq<CipherVector>)
    ensures TotalLength(WireLengths(data)) * CIPHER_LEN <= |MatrixBytes(data)|
    ensures BytesMatrix(MatrixBytes(data), WireLengths(data)) == data <==> ShortVectors(data)
  {
    WireLengthsFit(data);
    ShortWireLengths(data);
    MatrixRoundTrip(data);
    var wire := WireLengths(data);
    var received := BytesMatrix(MatrixBytes(data), wire);
    if received == data {
      assert Lengths(received) == wire;
    }
  }

  lemma SentReadable(data: seq<CipherVector>)
    requires ShortVectors(data)
    ensures Readable(MatrixBytes(data), IntsBytes(Lengths(data)))
    ensures BytesMatrix(MatrixBytes(data), BytesInts(IntsBytes(Lengths(data)))) == data
  {
    ArrayRoundTripIff(data);
    var n := |data|;
    DivModUnique(4 * n, 4, n, 0);
  }

  lemma MulMonotone(a: nat, b: nat, d: nat)
    requires a <= b
    ensures a * d <= b * d
  {
    assert (b - a) * d >= 0;
  }

  // ---------- strings of points ----------

  const HEX := "0123456789abcdef"

  function Hex(b: seq<byte>): (s: string)
    ensures |s| == 2 * |b|
  {
    if b == [] then "" else [HEX[b[0] / 16], HEX[b[0] % 16]] + Hex(b[1..])
  }

  lemma HexDigit(i: nat, j: nat)
    requires i < 16 && j < 16
    ensures HEX[i] == HEX[j] <==> i == j
  {
  }

  lemma {:induction false} HexInjective(a: seq<byte>, b: seq<byte>)
    requires |a| == |b|
    ensures Hex(a) == Hex(b) <==> a == b
  {
    if a != [] {
      HexInjective(a[1..], b[1..]);
      var s, t := Hex(a), Hex(b);
      assert s[2..] == Hex(a[1..]) && t[2..] == Hex(b[1..]);
      HexDigit(a[0] / 16, b[0] / 16);
      HexDigit(a[0] % 16, b[0] % 16);
      if s == t {
        assert s[0] == t[0] && s[1] == t[1];
        assert a == [a[0]] + a[1..] && b == [b[0]] + b[1..];
      }
    }
  }

  /** The string form of a point. */
  function PointString(p: Point): (s: string)
    ensures |s| == 2 * POINT_LEN
  {
    Hex(PointBytes(p))
  }

  lemma PointStringInjective(p: Point, r: Point)
    ensures PointString(p) == PointString(r) <==> p == r
  {
    HexInjective(PointBytes(p), PointBytes(r));
    PointRoundTrip(p);
    PointRoundTrip(r);
  }

  /** DeterministCipherVector.Key: the strings of the points, joined without a separator. */
  function DetKey(points: seq<Point>): string {
    if points == [] then "" else PointString(points[0]) + DetKey(points[1..])
  }

  lemma {:induction false} DetKeyLength(points: seq<Point>)
    ensures |DetKey(points)| == |points| * (2 * POINT_LEN)
  {
    if points != [] {
      DetKeyLength(points[1..]);
      assert |points| * (2 * POINT_LEN) == (|points| - 1) * (2 * POINT_LEN) + 2 * POINT_LEN;
    }
  }

  /** Without separators, keys are still equal only for equal vectors, of any lengths. */
  lemma {:induction false} DetKeyInjective(a: seq<Point>, b: seq<Point>)
    ensures DetKey(a) == DetKey(b) <==> a == b
  {
    PointLenPositive();
    if a != [] && b != [] {
      DetKeyInjective(a[1..], b[1..]);
      PointStringInjective(a[0], b[0]);
      var s, t := DetKey(a), DetKey(b);
      assert s[..2 * POINT_LEN] == PointString(a[0]) && t[..2 * POINT_LEN] == PointString(b[0]);
      assert s[2 * POINT_LEN..] == DetKey(a[1..]) && t[2 * POINT_LEN..] == DetKey(b[1..]);
      assert a == [a[0]] + a[1..] && b == [b[0]] + b[1..];
    }
  }
}
