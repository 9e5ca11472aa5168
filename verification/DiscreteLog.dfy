/** The brute-force discrete logarithm with its growing lookup table, and integer decryption (lib/crypto.go). */
module DiscreteLog {
  import opened Group
  import opened ElGamal

  const MaxHomomorphicInt: int := 100000

  datatype Table = Table(entries: map<Point, int>, greatest: int)

  const EmptyTable := Table(map[], 0)

  function NegPoint(i: int): Point {
    IntToPoint(-i)
  }

  predicate Guessed(P: Point, i: int, checkNeg: bool) {
    P == IntToPoint(i) || (checkNeg && P == NegPoint(i))
  }

  /** The index at which the search for P that starts at i stops. */
  function Stop(P: Point, i: int, checkNeg: bool): (last: int)
    requires 0 <= i < MaxHomomorphicInt
    ensures i <= last < MaxHomomorphicInt
    decreases MaxHomomorphicInt - i
  {
    if Guessed(P, i, checkNeg) || i == MaxHomomorphicInt - 1 then i
    else Stop(P, i + 1, checkNeg)
  }

  function PutGuess(entries: map<Point, int>, i: int, checkNeg: bool): map<Point, int> {
    var e := entries[IntToPoint(i) := i];
    if checkNeg then e[NegPoint(i) := -i] else e
  }

  lemma {:induction false} StopIs(P: Point, i: int, last: int, checkNeg: bool)
    requires 0 <= i <= last < MaxHomomorphicInt
    requires forall j :: i <= j < last ==> !Guessed(P, j, checkNeg)
    requires Guessed(P, last, checkNeg) || last == MaxHomomorphicInt - 1
    ensures Stop(P, i, checkNeg) == last
    decreases last - i
  {
    if i < last {
      StopIs(P, i + 1, last, checkNeg);
    }
  }

  /** The entries put for the guesses lo, ..., hi - 1. */
  function Fill(entries: map<Point, int>, lo: int, hi: int, checkNeg: bool): map<Point, int>
    decreases hi - lo
  {
    if hi <= lo then entries else PutGuess(Fill(entries, lo, hi - 1, checkNeg), hi - 1, checkNeg)
  }

  /** One discreteLog call: the table it leaves and the integer it answers. */
  function Lookup(t: Table, P: Point, checkNeg: bool): (Table, int)
    requires 0 <= t.greatest < MaxHomomorphicInt
  {
    if P in t.entries then (t, t.entries[P])
    else
      var last := Stop(P, t.greatest, checkNeg);
      (Table(Fill(t.entries, t.greatest, last + 1, checkNeg), last),
       if checkNeg && P == NegPoint(last) then -last else if P == IntToPoint(last) then last else 0)
  }

  predicate EntriesRight(entries: map<Point, int>) {
    forall p :: p in entries ==> -MaxHomomorphicInt < entries[p] < MaxHomomorphicInt && IntToPoint(entries[p]) == p
  }

  /** Every entry is right, and once used the table holds 0..greatest. */
  ghost predicate Sound(t: Table) {
    && 0 <= t.greatest < MaxHomomorphicInt
    && EntriesRight(t.entries)
    && (t == EmptyTable || forall i :: 0 <= i <= t.greatest ==> IntToPoint(i) in t.entries)
  }

  /** The negatives of 0..greatest are there too. */
  ghost predicate Mirrored(t: Table) {
    t == EmptyTable || forall i :: 0 <= i <= t.greatest ==> NegPoint(i) in t.entries
  }

  /** The search loop of discreteLog: completes the table while decrypting. */
  method Search(entries: map<Point, int>, greatestM: Point, greatestInt: int, P: Point, checkNeg: bool)
    returns (entries': map<Point, int>, guess: Point, guessInt: int, v: int)
    requires 0 <= greatestInt < MaxHomomorphicInt && greatestM == IntToPoint(greatestInt)
    ensures guessInt == Stop(P, greatestInt, checkNeg) && guess == IntToPoint(guessInt)
    ensures entries' == Fill(entries, greatestInt, guessInt + 1, checkNeg)
    ensures v == if checkNeg && P == NegPoint(guessInt) then -guessInt else if P == IntToPoint(guessInt) then guessInt else 0
  {
    var foundPos, foundNeg := false, false;
    guess, guessInt := greatestM, greatestInt;
    entries' := entries;
    var guessIntMinus := 0;
    var start := true;
    var i := guessInt;
    while i < MaxHomomorphicInt && !foundPos && !foundNeg
      invariant greatestInt <= i <= MaxHomomorphicInt
      invariant start <==> i == greatestInt
      invariant guessInt == if start then i else i - 1
      invariant guess == IntToPoint(guessInt)
      invariant checkNeg && !start ==> guessIntMinus == -guessInt
      invariant entries' == Fill(entries, greatestInt, i, checkNeg)
      invariant foundNeg <==> !start && checkNeg && P == NegPoint(guessInt)
      invariant foundPos <==> !start && !foundNeg && P == IntToPoint(guessInt)
      invariant forall j :: greatestInt <= j < guessInt ==> !Guessed(P, j, checkNeg)
    {
      if !start {
        NextPoint(guessInt);
        guess := Add(guess, Base);
      }
      start := false;
      guessInt := i;
      entries' := entries'[guess := guessInt];
      if checkNeg {
        guessIntMinus := -guessInt;
        var guessNeg := NegPoint(guessInt);
        entries' := entries'[guessNeg := guessIntMinus];
        if guessNeg == P {
          foundNeg := true;
        }
      }
      if !foundNeg && guess == P {
        foundPos := true;
      }
      i := i + 1;
    }
    StopIs(P, greatestInt, guessInt, checkNeg);
    if !foundPos && !foundNeg {
      v := 0;
    } else if foundNeg {
      v := guessIntMinus;
    } else {
      v := guessInt;
    }
  }

  class DecryptionTable {
    var pointToInt: map<Point, int>
    var currentGreatestM: Point
    var currentGreatestInt: int

    ghost function Contents(): Table
      reads this
    {
      Table(pointToInt, currentGreatestInt)
    }

    ghost predicate Valid()
      reads this
    {
      Sound(Contents()) && (currentGreatestInt != 0 ==> currentGreatestM == IntToPoint(currentGreatestInt))
    }

    constructor ()
      ensures Valid() && Contents() == EmptyTable
    {
      pointToInt, currentGreatestM, currentGreatestInt := map[], Null, 0;
    }

    method DiscreteLog(P: Point, checkNeg: bool) returns (v: int)
      requires Valid()
      modifies this
      ensures Valid()
      ensures (Contents(), v) == Lookup(old(Contents()), P, checkNeg)
    {
      if P in pointToInt {
        return pointToInt[P];
      }
      ghost var answer := Lookup(Contents(), P, checkNeg);
      LookupSound(Contents(), P, checkNeg);
      if currentGreatestInt == 0 {
        currentGreatestM := Null;
      }
      pointToInt, currentGreatestM, currentGreatestInt, v := Search(pointToInt, currentGreatestM, currentGreatestInt, P, checkNeg);
      assert Contents() == answer.0;
    }

    /** DecryptInt (checkNeg false) and DecryptIntWithNeg (checkNeg true). */
    method Decrypt(priKey: Scalar, cipher: CipherText, checkNeg: bool) returns (v: int)
      requires Valid()
      modifies this
      ensures Valid()
      ensures (Contents(), v) == Lookup(old(Contents()), Open(priKey, cipher), checkNeg)
      ensures forall m :: 0 <= m < MaxHomomorphicInt && Open(priKey, cipher) == IntToPoint(m) ==> v == m
    {
      v := DiscreteLog(Open(priKey, cipher), checkNeg);
      forall m | 0 <= m < MaxHomomorphicInt && Open(priKey, cipher) == IntToPoint(m) ensures v == m {
        PositiveFound(old(Contents()), m, checkNeg);
      }
    }
  }

  // ---------- the table as a faithful cache ----------

  lemma {:induction false} FillKeys(entries: map<Point, int>, lo: int, hi: int, checkNeg: bool, i: int)
    requires lo <= i < hi
    ensures IntToPoint(i) in Fill(entries, lo, hi, checkNeg)
    ensures checkNeg ==> NegPoint(i) in Fill(entries, lo, hi, checkNeg)
    decreases hi - lo
  {
    if i < hi - 1 {
      FillKeys(entries, lo, hi - 1, checkNeg, i);
    }
  }

  lemma {:induction false} FillEntries(entries: map<Point, int>, lo: int, hi: int, checkNeg: bool)
    requires 0 <= lo <= hi <= MaxHomomorphicInt
    requires EntriesRight(entries)
    ensures forall p :: p in entries ==> p in Fill(entries, lo, hi, checkNeg)
    ensures EntriesRight(Fill(entries, lo, hi, checkNeg))
    decreases hi - lo
  {
    if lo < hi {
      FillEntries(entries, lo, hi - 1, checkNeg);
    }
  }

  lemma LookupSound(t: Table, P: Point, checkNeg: bool)
    requires Sound(t)
    ensures Sound(Lookup(t, P, checkNeg).0)
  {
    if P !in t.entries {
      var last := Stop(P, t.greatest, checkNeg);
      var t' := Lookup(t, P, checkNeg).0;
      FillEntries(t.entries, t.greatest, last + 1, checkNeg);
      forall i | 0 <= i <= last ensures IntToPoint(i) in t'.entries {
        if i >= t.greatest {
          FillKeys(t.entries, t.greatest, last + 1, checkNeg, i);
        }
      }
    }
  }

  lemma LookupMirrored(t: Table, P: Point)
    requires Sound(t) && Mirrored(t)
    ensures Mirrored(Lookup(t, P, true).0)
  {
    if P !in t.entries {
      var last := Stop(P, t.greatest, true);
      var t' := Lookup(t, P, true).0;
      FillEntries(t.entries, t.greatest, last + 1, true);
      forall i | 0 <= i <= last ensures NegPoint(i) in t'.entries {
        if i >= t.greatest {
          FillKeys(t.entries, t.greatest, last + 1, true, i);
        }
      }
    }
  }

  /** In-range integers have one point each. */
  lemma OneInteger(i: int, j: int)
    requires -MaxHomomorphicInt < i < MaxHomomorphicInt && -MaxHomomorphicInt < j < MaxHomomorphicInt
    ensures IntToPoint(i) == IntToPoint(j) <==> i == j
  {
    IntToPointInjective(i, j);
  }

  /** Which guesses are the point of m. */
  lemma GuessedIff(m: int, i: int, checkNeg: bool)
    requires -MaxHomomorphicInt < m < MaxHomomorphicInt && 0 <= i < MaxHomomorphicInt
    ensures Guessed(IntToPoint(m), i, checkNeg) <==> m == i || (checkNeg && m == -i)
  {
    OneInteger(m, i);
    OneInteger(m, -i);
  }

  lemma SearchFor(m: int, i: int, checkNeg: bool)
    requires -MaxHomomorphicInt < m < MaxHomomorphicInt && 0 <= i < MaxHomomorphicInt
    ensures Stop(IntToPoint(m), i, checkNeg)
            == if i <= m then m else if checkNeg && i <= -m then -m else MaxHomomorphicInt - 1
  {
    var last := if i <= m then m else if checkNeg && i <= -m then -m else MaxHomomorphicInt - 1;
    GuessedIff(m, last, checkNeg);
    forall j | i <= j < last ensures !Guessed(IntToPoint(m), j, checkNeg) {
      GuessedIff(m, j, checkNeg);
    }
    StopIs(IntToPoint(m), i, last, checkNeg);
  }

  /** A plaintext in [0, MaxHomomorphicInt) is decoded from any sound table, with or without checkNeg. */
  lemma PositiveFound(t: Table, m: int, checkNeg: bool)
    requires Sound(t) && 0 <= m < MaxHomomorphicInt
    ensures Lookup(t, IntToPoint(m), checkNeg).1 == m
  {
    if IntToPoint(m) in t.entries {
      OneInteger(t.entries[IntToPoint(m)], m);
    } else {
      SearchFor(m, t.greatest, checkNeg);
      OneInteger(-m, m);
    }
  }

  /** A negative plaintext -m is decoded exactly when its point is already in the table, or checkNeg is on and the
      table has not grown past m. Otherwise the answer is 0. */
  lemma NegativeFoundIff(t: Table, m: int, checkNeg: bool)
    requires Sound(t) && 0 < m < MaxHomomorphicInt
    ensures Lookup(t, NegPoint(m), checkNeg).1
            == if NegPoint(m) in t.entries || (checkNeg && t.greatest <= m) then -m else 0
  {
    if NegPoint(m) in t.entries {
      OneInteger(t.entries[NegPoint(m)], -m);
    } else {
      SearchFor(-m, t.greatest, checkNeg);
      var last := Stop(NegPoint(m), t.greatest, checkNeg);
      OneInteger(last, -m);
      OneInteger(-last, -m);
    }
  }

  /** A point that encodes no integer in (-MaxHomomorphicInt, MaxHomomorphicInt) is answered by 0. */
  lemma OutOfBoundIsZero(t: Table, P: Point, checkNeg: bool)
    requires Sound(t)
    requires forall m :: -MaxHomomorphicInt < m < MaxHomomorphicInt ==> P != IntToPoint(m)
    ensures Lookup(t, P, checkNeg).1 == 0
  {
  }

  // ---------- histories ----------

  /** The table after a sequence of calls. */
  ghost function After(calls: seq<(Point, bool)>): (t: Table)
    ensures Sound(t)
  {
    if calls == [] then EmptyTable
    else
      var t := After(calls[..|calls| - 1]);
      var c := calls[|calls| - 1];
      LookupSound(t, c.0, c.1);
      Lookup(t, c.0, c.1).0
  }

  /** No history of calls changes what an in-range plaintext decrypts to. */
  lemma DecryptIgnoresHistory(calls: seq<(Point, bool)>, m: int, checkNeg: bool)
    requires 0 <= m < MaxHomomorphicInt
    ensures Lookup(After(calls), IntToPoint(m), checkNeg).1 == m
  {
    PositiveFound(After(calls), m, checkNeg);
  }

  lemma {:induction false} AlwaysMirrored(calls: seq<(Point, bool)>)
    requires forall i :: 0 <= i < |calls| ==> calls[i].1
    ensures Mirrored(After(calls))
  {
    if calls != [] {
      var n := |calls| - 1;
      AlwaysMirrored(calls[..n]);
      LookupMirrored(After(calls[..n]), calls[n].0);
    }
  }

  /** With checkNeg on throughout, negatives survive every history. */
  lemma NegativesWithCheckNeg(calls: seq<(Point, bool)>, m: int)
    requires forall i :: 0 <= i < |calls| ==> calls[i].1
    requires 0 < m < MaxHomomorphicInt
    ensures Lookup(After(calls), NegPoint(m), true).1 == -m
  {
    AlwaysMirrored(calls);
    NegativeFoundIff(After(calls), m, true);
    var t := After(calls);
    if m < t.greatest {
      assert NegPoint(m) in t.entries;
    }
  }

  /** One earlier DecryptInt of 5 makes DecryptIntWithNeg answer 0 for -3. */
  lemma NegativeLostAfterPositive()
    ensures Lookup(After([(IntToPoint(5), false)]), NegPoint(3), true).1 == 0
  {
    var calls := [(IntToPoint(5), false)];
    var t := After(calls);
    assert calls[..0] == [];
    PositiveFound(EmptyTable, 5, false);
    SearchFor(5, 0, false);
    assert t.greatest == 5;
    NonNegativeEntries(map[], 0, 6);
    NegativeAbsent(t.entries, 3);
    NegativeFoundIff(t, 3, true);
  }

  lemma NegativeAbsent(entries: map<Point, int>, m: int)
    requires EntriesRight(entries) && NoNegatives(entries) && 0 < m < MaxHomomorphicInt
    ensures NegPoint(m) !in entries
  {
    if NegPoint(m) in entries {
      OneInteger(entries[NegPoint(m)], -m);
    }
  }

  predicate NoNegatives(entries: map<Point, int>) {
    forall p :: p in entries ==> entries[p] >= 0
  }

  lemma {:induction false} NonNegativeEntries(entries: map<Point, int>, lo: int, hi: int)
    requires 0 <= lo <= hi
    requires NoNegatives(entries)
    ensures NoNegatives(Fill(entries, lo, hi, false))
    decreases hi - lo
  {
    if lo < hi {
      NonNegativeEntries(entries, lo, hi - 1);
    }
  }

  lemma {:induction false} NeverNegative(calls: seq<(Point, bool)>)
    requires forall i :: 0 <= i < |calls| ==> !calls[i].1
    ensures NoNegatives(After(calls).entries)
  {
    if calls != [] {
      var n := |calls| - 1;
      var t := After(calls[..n]);
      NeverNegative(calls[..n]);
      NonNegativeEntries(t.entries, t.greatest, Stop(calls[n].0, t.greatest, false) + 1);
    }
  }

  /** As long as only DecryptInt was used, it returns the plaintext exactly when that is in [0, MaxHomomorphicInt). */
  lemma DecryptIntIff(calls: seq<(Point, bool)>, m: int)
    requires forall i :: 0 <= i < |calls| ==> !calls[i].1
    ensures Lookup(After(calls), IntToPoint(m), false).1 == m <==> 0 <= m < MaxHomomorphicInt
  {
    NeverNegative(calls);
    if 0 <= m < MaxHomomorphicInt {
      PositiveFound(After(calls), m, false);
    }
  }

  // ---------- vectors ----------

  /** One DecryptInt after the other: the table they leave and the integers they answer. */
  ghost function LookupAll(t: Table, points: seq<Point>): (r: (Table, seq<int>))
    requires Sound(t)
    ensures Sound(r.0) && |r.1| == |points|
  {
    if points == [] then (t, [])
    else
      var n := |points| - 1;
      var before := LookupAll(t, points[..n]);
      LookupSound(before.0, points[n], false);
      var (t', v) := Lookup(before.0, points[n], false);
      (t', before.1 + [v])
  }

  /** From any sound table a vector's elements in range are decoded, each by itself. */
  lemma {:induction false} AllFound(t: Table, points: seq<Point>, i: nat, m: int)
    requires Sound(t) && i < |points| && 0 <= m < MaxHomomorphicInt && points[i] == IntToPoint(m)
    ensures LookupAll(t, points).1[i] == m
    decreases |points|
  {
    var n := |points| - 1;
    if i < n {
      AllFound(t, points[..n], i, m);
    } else {
      PositiveFound(LookupAll(t, points[..n]).0, m, false);
    }
  }

  /** A table without negative entries answers within the range only, and stays without. */
  lemma OnlyInRange(t: Table, P: Point)
    requires Sound(t) && NoNegatives(t.entries)
    ensures 0 <= Lookup(t, P, false).1 < MaxHomomorphicInt && NoNegatives(Lookup(t, P, false).0.entries)
  {
    if P !in t.entries {
      NonNegativeEntries(t.entries, t.greatest, Stop(P, t.greatest, false) + 1);
    }
  }

  lemma {:induction false} AllInRange(t: Table, points: seq<Point>)
    requires Sound(t) && NoNegatives(t.entries)
    ensures NoNegatives(LookupAll(t, points).0.entries)
    ensures forall i :: 0 <= i < |points| ==> 0 <= LookupAll(t, points).1[i] < MaxHomomorphicInt
  {
    if points != [] {
      var n := |points| - 1;
      AllInRange(t, points[..n]);
      OnlyInRange(LookupAll(t, points[..n]).0, points[n]);
    }
  }

  /** From such a table, an element that holds m is decrypted to m exactly when m is in range. */
  lemma AllFoundIff(t: Table, points: seq<Point>, i: nat, m: int)
    requires Sound(t) && NoNegatives(t.entries) && i < |points| && points[i] == IntToPoint(m)
    ensures LookupAll(t, points).1[i] == m <==> 0 <= m < MaxHomomorphicInt
  {
    AllInRange(t, points);
    if 0 <= m < MaxHomomorphicInt {
      AllFound(t, points, i, m);
    }
  }
}
