/** Decimal text of integers, and the grouping keys made of it (strconv, lib/structs.go). */
module Decimal {
  import opened Options
  import opened Strings

  const DIGITS := "0123456789"

  predicate IsDigit(c: char) {
    '0' <= c <= '9'
  }

  function DigitValue(c: char): (d: nat)
    requires IsDigit(c)
    ensures d < 10
  {
    (c as int) - ('0' as int)
  }

  predicate AllDigits(s: string) {
    forall i :: 0 <= i < |s| ==> IsDigit(s[i])
  }

  function Digits(n: nat): (s: string)
    ensures s != "" && AllDigits(s)
  {
    if n < 10 then [DIGITS[n]] else Digits(n / 10) + [DIGITS[n % 10]]
  }

  function Value(s: string): nat
    requires AllDigits(s)
  {
    if s == "" then 0 else 10 * Value(s[..|s| - 1]) + DigitValue(s[|s| - 1])
  }

  lemma {:induction false} ValueOfDigits(n: nat)
    ensures Value(Digits(n)) == n
  {
    if n >= 10 {
      ValueOfDigits(n / 10);
      assert Digits(n)[..|Digits(n)| - 1] == Digits(n / 10);
    }
  }

  /** strconv.Itoa */
  function Itoa(n: int): (s: string)
    ensures s != ""
  {
    if n < 0 then "-" + Digits(-n) else Digits(n)
  }

  /** Positional notation: a digit, or the text of the tens followed by that of the units; a minus sign in front of a
      negative number. */
  lemma ItoaIs(n: int)
    ensures 0 <= n < 10 ==> Itoa(n) == ["0123456789"[n]]
    ensures n >= 10 ==> Itoa(n) == Itoa(n / 10) + Itoa(n % 10)
    ensures n < 0 ==> Itoa(n) == "-" + Itoa(-n)
  {
  }

  predicate IsInt64(n: int) {
    -0x8000_0000_0000_0000 <= n < 0x8000_0000_0000_0000
  }

  predicate AllInt64(ints: seq<int>) {
    forall i :: 0 <= i < |ints| ==> IsInt64(ints[i])
  }

  function Signed(negative: bool, digits: string): Option<int> {
    if digits == "" || !AllDigits(digits) then None
    else
      var magnitude: int := Value(digits);
      var v := if negative then -magnitude else magnitude;
      if IsInt64(v) then Some(v) else None
  }

  /** strconv.ParseInt in base 10 with 64 bits: an optional sign, then digits; None is a syntax or range error. */
  function ParseInt(s: string): (r: Option<int>)
    ensures r.Some? ==> IsInt64(r.value)
  {
    if s == "" then None
    else if s[0] == '-' then Signed(true, s[1..])
    else if s[0] == '+' then Signed(false, s[1..])
    else Signed(false, s)
  }

  lemma ItoaCharacters(n: int)
    ensures forall i :: 0 <= i < |Itoa(n)| ==> IsDigit(Itoa(n)[i]) || Itoa(n)[i] == '-'
    ensures IsDigit(Itoa(n)[|Itoa(n)| - 1])
  {
  }

  lemma ItoaLacks(n: int, c: char)
    requires !IsDigit(c) && c != '-'
    ensures Lacks(Itoa(n), c)
  {
    ItoaCharacters(n);
  }

  /** Parsing undoes printing exactly on the 64-bit integers. */
  lemma ParseItoa(n: int)
    ensures ParseInt(Itoa(n)) == if IsInt64(n) then Some(n) else None
  {
    if n < 0 {
      ValueOfDigits(-n);
      assert Itoa(n)[1..] == Digits(-n);
    } else {
      ValueOfDigits(n);
      assert IsDigit(Digits(n)[0]);
    }
  }

  /** Exactly the nonempty digit strings with at most one sign in front are read, if their value has 64 bits. */
  lemma ParseIntIff(s: string, n: int)
    ensures ParseInt(s) == Some(n) <==> IsInt64(n) && exists digits ::
      digits != "" && AllDigits(digits) && if s == "-" + digits then n + Value(digits) == 0 else s in [digits, "+" + digits] && n == Value(digits)
  {
    if s != "" {
      var digits := if IsDigit(s[0]) then s else s[1..];
      assert s == [s[0]] + s[1..];
      assert s[0] == '-' ==> s == "-" + digits;
      assert s[0] == '+' ==> s == "+" + digits;
    }
  }

  lemma ItoaSign(n: int)
    ensures Itoa(n)[0] == '-' <==> n < 0
    ensures n < 0 ==> Itoa(n)[1..] == Digits(-n)
  {
    assert n >= 0 ==> IsDigit(Digits(n)[0]);
  }

  lemma ItoaInjective(m: int, n: int)
    ensures Itoa(m) == Itoa(n) <==> m == n
  {
    ItoaSign(m);
    ItoaSign(n);
    ValueOfDigits(if m < 0 then -m else m);
    ValueOfDigits(if n < 0 then -n else n);
  }

  // ---------- grouping keys of clear attributes ----------

  function KeyOf(ga: seq<int>): string {
    if ga == [] then "" else Itoa(ga[0]) + "," + KeyOf(ga[1..])
  }

  function Concat(parts: seq<string>): string {
    if parts == [] then "" else Concat(parts[..|parts| - 1]) + parts[|parts| - 1]
  }

  lemma ConcatMore(parts: seq<string>, part: string)
    ensures Concat(parts + [part]) == Concat(parts) + part
  {
    assert (parts + [part])[..|parts|] == parts;
  }

  lemma KeyStep(read: string, ga: seq<int>, i: nat)
    requires i < |ga|
    ensures read + Itoa(ga[i]) + "," + KeyOf(ga[i + 1..]) == read + KeyOf(ga[i..])
  {
    assert ga[i..][1..] == ga[i + 1..];
    assert read + Itoa(ga[i]) + "," + KeyOf(ga[i + 1..]) == read + (Itoa(ga[i]) + "," + KeyOf(ga[i + 1..]));
  }

  /** Key: the numbers, each followed by a comma, collected and joined. */
  method Key(ga: seq<int>) returns (gk: string)
    ensures gk == KeyOf(ga)
  {
    var key: seq<string> := [];
    assert ga[0..] == ga;
    for i := 0 to |ga|
      invariant Concat(key) + KeyOf(ga[i..]) == KeyOf(ga)
    {
      KeyStep(Concat(key), ga, i);
      ConcatMore(key, Itoa(ga[i]));
      ConcatMore(key + [Itoa(ga[i])], ",");
      key := key + [Itoa(ga[i])];
      key := key + [","];
    }
    gk := Concat(key);
  }

  /** Different lists of integers, of any lengths, have different keys. */
  lemma {:induction false} KeyInjective(a: seq<int>, b: seq<int>)
    ensures KeyOf(a) == KeyOf(b) <==> a == b
  {
    if a != [] && b != [] {
      KeyInjective(a[1..], b[1..]);
      ItoaLacks(a[0], ',');
      ItoaLacks(b[0], ',');
      CutUnique(Itoa(a[0]), Itoa(b[0]), ',', KeyOf(a[1..]), KeyOf(b[1..]));
      ItoaInjective(a[0], b[0]);
      assert a == [a[0]] + a[1..] && b == [b[0]] + b[1..];
    }
  }

  /** UnKey keeps only the last character before each comma. */
  function UnKeyFrom(gk: string, nbrString: string): Option<seq<int>> {
    if gk == "" then Some([])
    else if gk[0] != ',' then UnKeyFrom(gk[1..], [gk[0]])
    else
      var rest := UnKeyFrom(gk[1..], "");
      match ParseInt(nbrString)
      case Some(n) => Prepend([n], rest)
      case None => None
  }

  method UnKey(gk: string) returns (tab: Option<seq<int>>)
    ensures tab == UnKeyFrom(gk, "")
  {
    var read: seq<int> := [];
    var nbrString := "";
    assert gk[0..] == gk;
    PrependNothing(UnKeyFrom(gk, ""));
    for i := 0 to |gk|
      invariant UnKeyFrom(gk, "") == Prepend(read, UnKeyFrom(gk[i..], nbrString))
    {
      assert gk[i..][1..] == gk[i + 1..];
      PrependTwice(read, nbrString, UnKeyFrom(gk[i + 1..], ""));
      if gk[i] != ',' {
        nbrString := [gk[i]];
      } else {
        var key := ParseInt(nbrString);
        if key.None? {
          return None;
        }
        read := read + [key.value];
        nbrString := "";
      }
    }
    tab := Some(read);
    assert read + [] == read;
  }

  function Prepend(read: seq<int>, rest: Option<seq<int>>): Option<seq<int>> {
    if rest.None? then None else Some(read + rest.value)
  }

  lemma PrependNothing(r: Option<seq<int>>)
    ensures Prepend([], r) == r
  {
    assert r.Some? ==> [] + r.value == r.value;
  }

  lemma PrependTwice(read: seq<int>, nbrString: string, rest: Option<seq<int>>)
    ensures ParseInt(nbrString).Some? ==>
      Prepend(read, Prepend([ParseInt(nbrString).value], rest)) == Prepend(read + [ParseInt(nbrString).value], rest)
  {
    if ParseInt(nbrString).Some? && rest.Some? {
      var n := ParseInt(nbrString).value;
      assert read + ([n] + rest.value) == read + [n] + rest.value;
    }
  }

  function LastDigit(n: int): nat {
    (if n < 0 then -n else n) % 10
  }

  function LastDigits(ga: seq<int>): (r: seq<int>)
    ensures |r| == |ga| && forall i :: 0 <= i < |ga| ==> r[i] == LastDigit(ga[i])
  {
    seq(|ga|, i requires 0 <= i < |ga| => LastDigit(ga[i]))
  }

  lemma {:induction false} UnKeySkips(s: string, rest: string, nbrString: string)
    requires s != "" && Lacks(s, ',')
    ensures UnKeyFrom(s + rest, nbrString) == UnKeyFrom(rest, [s[|s| - 1]])
    decreases |s|
  {
    assert (s + rest)[1..] == s[1..] + rest;
    if |s| == 1 {
      assert s[1..] + rest == rest;
    } else {
      UnKeySkips(s[1..], rest, [s[0]]);
    }
  }

  lemma LastCharacter(n: int)
    ensures ParseInt([Itoa(n)[|Itoa(n)| - 1]]) == Some(LastDigit(n))
  {
    var m := if n < 0 then -n else n;
    var d := Digits(m);
    assert d[|d| - 1] == DIGITS[m % 10];
    assert Itoa(n)[|Itoa(n)| - 1] == d[|d| - 1];
    var t := [DIGITS[m % 10]];
    assert t[..0] == "" && Value(t) == m % 10;
  }

  lemma {:induction false} UnKeyOfKey(ga: seq<int>)
    ensures UnKeyFrom(KeyOf(ga), "") == Some(LastDigits(ga))
  {
    if ga != [] {
      var s := Itoa(ga[0]);
      var rest := "," + KeyOf(ga[1..]);
      ItoaLacks(ga[0], ',');
      assert KeyOf(ga) == s + rest;
      UnKeySkips(s, rest, "");
      assert rest[1..] == KeyOf(ga[1..]);
      LastCharacter(ga[0]);
      UnKeyOfKey(ga[1..]);
      assert LastDigits(ga) == [LastDigit(ga[0])] + LastDigits(ga[1..]);
    } else {
      assert LastDigits(ga) == [];
    }
  }

  lemma LastDigitIff(n: int)
    ensures LastDigit(n) == n <==> 0 <= n < 10
  {
  }

  /** UnKey undoes Key exactly on lists of single-digit numbers. */
  lemma UnKeyInvertsIff(ga: seq<int>)
    ensures UnKeyFrom(KeyOf(ga), "") == Some(ga) <==> forall i :: 0 <= i < |ga| ==> 0 <= ga[i] < 10
  {
    UnKeyOfKey(ga);
    var last := LastDigits(ga);
    forall i | 0 <= i < |ga| ensures last[i] == ga[i] <==> 0 <= ga[i] < 10 {
      LastDigitIff(ga[i]);
    }
    SameIff(last, ga);
  }

  lemma SameIff(a: seq<int>, b: seq<int>)
    requires |a| == |b|
    ensures a == b <==> forall i :: 0 <= i < |a| ==> a[i] == b[i]
  {
  }
}
