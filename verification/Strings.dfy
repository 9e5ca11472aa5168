/** strings.Join and strings.Split. */
module Strings {

  function Join(strs: seq<string>, sep: string): string {
    if strs == [] then "" else if |strs| == 1 then strs[0] else strs[0] + sep + Join(strs[1..], sep)
  }

  /** Split, with the part read so far carried along. */
  function SplitFrom(s: string, sep: string, part: string): (strs: seq<string>)
    requires sep != ""
    ensures strs != []
    decreases |s|
  {
    if s == "" then [part]
    else if sep <= s then [part] + SplitFrom(s[|sep|..], sep, "")
    else SplitFrom(s[1..], sep, part + [s[0]])
  }

  function Split(s: string, sep: string): (strs: seq<string>)
    requires sep != ""
    ensures strs != []
  {
    SplitFrom(s, sep, "")
  }

  lemma {:induction false} JoinSplitFrom(s: string, sep: string, part: string)
    requires sep != ""
    ensures Join(SplitFrom(s, sep, part), sep) == part + s
    decreases |s|
  {
    if s == "" {
    } else if sep <= s {
      var strs := SplitFrom(s, sep, part);
      JoinSplitFrom(s[|sep|..], sep, "");
      assert strs[0] == part && strs[1..] == SplitFrom(s[|sep|..], sep, "");
      assert s == sep + s[|sep|..];
      assert part + sep + s[|sep|..] == part + s;
    } else {
      JoinSplitFrom(s[1..], sep, part + [s[0]]);
      assert part + [s[0]] + s[1..] == part + s;
    }
  }

  /** Joining what was split gives the string back. */
  lemma JoinSplit(s: string, sep: string)
    requires sep != ""
    ensures Join(Split(s, sep), sep) == s
  {
    JoinSplitFrom(s, sep, "");
  }

  predicate Lacks(s: string, c: char) {
    forall i :: 0 <= i < |s| ==> s[i] != c
  }

  lemma {:induction false} SplitPart(t: string, rest: string, sep: string, part: string)
    requires sep != "" && Lacks(t, sep[0])
    ensures SplitFrom(t + rest, sep, part) == SplitFrom(rest, sep, part + t)
    decreases |t|
  {
    if t == "" {
      assert t + rest == rest && part + t == part;
    } else {
      assert (t + rest)[1..] == t[1..] + rest;
      assert (t + rest)[0] == t[0];
      SplitPart(t[1..], rest, sep, part + [t[0]]);
      assert part + [t[0]] + t[1..] == part + t;
    }
  }

  lemma SplitHead(t: string, rest: string, sep: string)
    requires sep != "" && Lacks(t, sep[0])
    ensures Split(t + sep + rest, sep) == [t] + Split(rest, sep)
  {
    assert t + sep + rest == t + (sep + rest);
    SplitPart(t, sep + rest, sep, "");
    assert "" + t == t;
    assert sep <= sep + rest && (sep + rest)[|sep|..] == rest;
  }

  lemma SplitOne(t: string, sep: string)
    requires sep != "" && Lacks(t, sep[0])
    ensures Split(t, sep) == [t]
  {
    SplitPart(t, "", sep, "");
    assert t + "" == t && "" + t == t;
  }

  /** Splitting what was joined gives a nonempty list back when no part has the separator's first character. */
  lemma {:induction false} SplitJoin(strs: seq<string>, sep: string)
    requires sep != "" && strs != [] && forall i :: 0 <= i < |strs| ==> Lacks(strs[i], sep[0])
    ensures Split(Join(strs, sep), sep) == strs
  {
    if |strs| == 1 {
      SplitOne(strs[0], sep);
    } else {
      SplitHead(strs[0], Join(strs[1..], sep), sep);
      SplitJoin(strs[1..], sep);
    }
  }

  /** Two strings cut at their first separator character agree exactly when both sides of the cut do. */
  lemma {:induction false} CutUnique(a: string, b: string, c: char, r: string, t: string)
    requires Lacks(a, c) && Lacks(b, c)
    ensures a + [c] + r == b + [c] + t <==> a == b && r == t
  {
    var s, u := a + [c] + r, b + [c] + t;
    assert s[|a|] == c && u[|b|] == c;
    assert |a| < |b| ==> u[|a|] == b[|a|];
    assert |b| < |a| ==> s[|b|] == a[|b|];
    if s == u {
      assert s[..|a|] == a && u[..|b|] == b;
      assert s[|a| + 1..] == r && u[|b| + 1..] == t;
    }
  }
}
