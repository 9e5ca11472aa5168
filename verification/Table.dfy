/** Plain tables of keyed rows and their grouped sums: the meaning that every stage of a query has to keep. */
module Table {
  import opened Group
  import opened Sums
  import opened Options

  datatype Row<K> = Row(key: K, vals: seq<Elem>)

  /** Element c of a vector padded with zeros. */
  function At(v: seq<Elem>, c: nat): Elem {
    if c < |v| then v[c] else 0
  }

  predicate Has<K(==)>(rows: seq<Row<K>>, k: K) {
    exists i :: 0 <= i < |rows| && rows[i].key == k
  }

  /** The groups of a table. */
  function Groups<K>(rows: seq<Row<K>>): set<K> {
    set i | 0 <= i < |rows| :: rows[i].key
  }

  lemma GroupHas<K>(rows: seq<Row<K>>, k: K)
    ensures k in Groups(rows) <==> Has(rows, k)
  {
  }

  function Share<K(==)>(r: Row<K>, k: K, c: nat): Elem {
    if r.key == k then At(r.vals, c) else 0
  }

  /** The sum of attribute c over the rows of a group. */
  function Total<K(==)>(rows: seq<Row<K>>, k: K, c: nat): Elem {
    if rows == [] then 0 else Add(Total(rows[..|rows| - 1], k, c), Share(rows[|rows| - 1], k, c))
  }

  /** Two tables have the same groups with the same sums. */
  ghost predicate Same<K(!new)>(a: seq<Row<K>>, b: seq<Row<K>>) {
    && (forall k :: Has(a, k) <==> Has(b, k))
    && (forall k, c: nat :: Total(a, k, c) == Total(b, k, c))
  }

  lemma HasConcat<K>(a: seq<Row<K>>, b: seq<Row<K>>, k: K)
    ensures Has(a + b, k) <==> Has(a, k) || Has(b, k)
  {
    if Has(a, k) {
      var i :| 0 <= i < |a| && a[i].key == k;
      assert (a + b)[i].key == k;
    }
    if Has(b, k) {
      var i :| 0 <= i < |b| && b[i].key == k;
      assert (a + b)[|a| + i].key == k;
    }
  }

  lemma {:induction false} TotalConcat<K>(a: seq<Row<K>>, b: seq<Row<K>>, k: K, c: nat)
    ensures Total(a + b, k, c) == Add(Total(a, k, c), Total(b, k, c))
  {
    if b == [] {
      assert a + b == a;
    } else {
      var n := |b| - 1;
      assert (a + b)[..|a + b| - 1] == a + b[..n];
      TotalConcat(a, b[..n], k, c);
      AddAssoc(Total(a, k, c), Total(b[..n], k, c), Share(b[n], k, c));
    }
  }

  lemma TotalOne<K>(r: Row<K>, k: K, c: nat)
    ensures Total([r], k, c) == Share(r, k, c)
  {
    assert [r][..0] == [];
  }

  lemma TotalWithout<K>(rows: seq<Row<K>>, i: nat, k: K, c: nat)
    requires i < |rows|
    ensures Total(rows, k, c) == Add(Total(Without(rows, i), k, c), Share(rows[i], k, c))
  {
    var a, b := rows[..i], rows[i + 1..];
    assert rows == a + [rows[i]] + b;
    TotalConcat(a + [rows[i]], b, k, c);
    TotalConcat(a, [rows[i]], k, c);
    TotalOne(rows[i], k, c);
    TotalConcat(a, b, k, c);
    AddSwap(Total(a, k, c), Share(rows[i], k, c), Total(b, k, c));
  }

  lemma {:induction false} TotalMultiset<K>(a: seq<Row<K>>, b: seq<Row<K>>, k: K, c: nat)
    requires multiset(a) == multiset(b)
    ensures Total(a, k, c) == Total(b, k, c)
    decreases |a|
  {
    if a == [] {
      assert |multiset(b)| == 0;
      assert b == [];
    } else {
      assert a[0] in multiset(b);
      var i :| 0 <= i < |b| && b[i] == a[0];
      TotalMultiset(Without(a, 0), Without(b, i), k, c);
      TotalWithout(a, 0, k, c);
      TotalWithout(b, i, k, c);
    }
  }

  lemma HasMultiset<K>(a: seq<Row<K>>, b: seq<Row<K>>, k: K)
    requires multiset(a) == multiset(b) && Has(a, k)
    ensures Has(b, k)
  {
    var i :| 0 <= i < |a| && a[i].key == k;
    assert a[i] in multiset(b);
    assert a[i] in b;
  }

  /** Reordering rows keeps the table. */
  lemma SameMultiset<K(!new)>(a: seq<Row<K>>, b: seq<Row<K>>)
    requires multiset(a) == multiset(b)
    ensures Same(a, b)
  {
    forall k ensures Has(a, k) <==> Has(b, k) {
      if Has(a, k) { HasMultiset(a, b, k); }
      if Has(b, k) { HasMultiset(b, a, k); }
    }
    forall k, c: nat ensures Total(a, k, c) == Total(b, k, c) {
      TotalMultiset(a, b, k, c);
    }
  }

  lemma SameConcat<K(!new)>(a: seq<Row<K>>, b: seq<Row<K>>, a': seq<Row<K>>, b': seq<Row<K>>)
    requires Same(a, a') && Same(b, b')
    ensures Same(a + b, a' + b')
  {
    forall k ensures Has(a + b, k) <==> Has(a' + b', k) {
      HasConcat(a, b, k);
      HasConcat(a', b', k);
    }
    forall k, c: nat ensures Total(a + b, k, c) == Total(a' + b', k, c) {
      TotalConcat(a, b, k, c);
      TotalConcat(a', b', k, c);
    }
  }

  lemma SameTransitive<K(!new)>(a: seq<Row<K>>, b: seq<Row<K>>, c: seq<Row<K>>)
    requires Same(a, b) && Same(b, c)
    ensures Same(a, c)
  {
  }

  // ---------- coarser groups ----------

  /** The rows moved to coarser groups; those without a group are dropped, the others keep their order. */
  function Regroup<K, J>(rows: seq<Row<K>>, h: K -> Option<J>): seq<Row<J>> {
    if rows == [] then []
    else
      var r := rows[|rows| - 1];
      Regroup(rows[..|rows| - 1], h) + (match h(r.key) case None => [] case Some(j) => [Row(j, r.vals)])
  }

  function Drop<K(==)>(rows: seq<Row<K>>, k: K): seq<Row<K>> {
    if rows == [] then []
    else Drop(rows[..|rows| - 1], k) + (if rows[|rows| - 1].key == k then [] else [rows[|rows| - 1]])
  }

  lemma {:induction false} DropShorter<K>(rows: seq<Row<K>>, k: K)
    ensures |Drop(rows, k)| <= |rows|
    ensures Has(rows, k) ==> |Drop(rows, k)| < |rows|
  {
    if rows != [] {
      var n := |rows| - 1;
      DropShorter(rows[..n], k);
      HasConcat(rows[..n], [rows[n]], k);
      assert rows == rows[..n] + [rows[n]];
      assert rows[n].key != k ==> !Has([rows[n]], k);
    }
  }

  lemma {:induction false} HasDrop<K>(rows: seq<Row<K>>, k: K, l: K)
    ensures Has(Drop(rows, k), l) <==> Has(rows, l) && l != k
  {
    if rows != [] {
      var n := |rows| - 1;
      HasDrop(rows[..n], k, l);
      assert rows == rows[..n] + [rows[n]];
      HasConcat(rows[..n], [rows[n]], l);
      HasConcat(Drop(rows[..n], k), if rows[n].key == k then [] else [rows[n]], l);
      HasOne(rows[n], l);
    }
  }

  lemma HasOne<K>(r: Row<K>, k: K)
    ensures Has([r], k) <==> r.key == k
  {
    assert [r][0] == r;
  }

  lemma {:induction false} TotalDrop<K>(rows: seq<Row<K>>, k: K, l: K, c: nat)
    ensures Total(Drop(rows, k), l, c) == if l == k then 0 else Total(rows, l, c)
  {
    if rows != [] {
      var n := |rows| - 1;
      TotalDrop(rows[..n], k, l, c);
      TotalConcat(Drop(rows[..n], k), if rows[n].key == k then [] else [rows[n]], l, c);
      TotalOne(rows[n], l, c);
    }
  }

  lemma {:induction false} HasRegroup<K, J>(rows: seq<Row<K>>, h: K -> Option<J>, j: J)
    ensures Has(Regroup(rows, h), j) <==> exists i :: 0 <= i < |rows| && h(rows[i].key) == Some(j)
  {
    if rows != [] {
      var n := |rows| - 1;
      HasRegroup(rows[..n], h, j);
      var last := match h(rows[n].key) case None => [] case Some(l) => [Row(l, rows[n].vals)];
      HasConcat(Regroup(rows[..n], h), last, j);
      if last != [] {
        HasOne(last[0], j);
      }
      if i :| 0 <= i < n && h(rows[..n][i].key) == Some(j) {
        assert h(rows[i].key) == Some(j);
      }
      if i :| 0 <= i < |rows| && h(rows[i].key) == Some(j) {
        assert i < n ==> h(rows[..n][i].key) == Some(j);
      }
    }
  }

  /** A coarse sum is what remains without one fine group, plus that group's own sum if it belongs there. */
  lemma {:induction false} RegroupSome<K, J>(rows: seq<Row<K>>, h: K -> Option<J>)
    ensures Regroup(rows, h) != [] <==> exists i :: 0 <= i < |rows| && h(rows[i].key).Some?
  {
    if rows != [] {
      var n := |rows| - 1;
      RegroupSome(rows[..n], h);
      if Regroup(rows[..n], h) != [] {
        var i :| 0 <= i < n && h(rows[..n][i].key).Some?;
        assert h(rows[i].key).Some?;
      } else {
        forall i | 0 <= i < n ensures h(rows[i].key).None? {
          assert rows[..n][i] == rows[i];
        }
      }
    }
  }

  /** What the rows of group k add to group j after regrouping. */
  function Moved<K(==), J(==)>(rows: seq<Row<K>>, h: K -> Option<J>, k: K, j: J, c: nat): Elem {
    if h(k) == Some(j) then Total(rows, k, c) else 0
  }

  lemma MovedLast<K, J>(rows: seq<Row<K>>, r: Row<K>, h: K -> Option<J>, k: K, j: J, c: nat)
    ensures Moved(rows + [r], h, k, j, c) == Add(Moved(rows, h, k, j, c), if r.key == k then ShareOf(r, h, j, c) else 0)
  {
    assert (rows + [r])[..|rows|] == rows;
  }

  lemma DroppedLast<K, J>(rows: seq<Row<K>>, r: Row<K>, h: K -> Option<J>, k: K, j: J, c: nat)
    ensures Total(Regroup(Drop(rows + [r], k), h), j, c)
            == Add(Total(Regroup(Drop(rows, k), h), j, c), if r.key == k then 0 else ShareOf(r, h, j, c))
  {
    assert (rows + [r])[..|rows|] == rows;
    if r.key == k {
      assert Drop(rows, k) + [] == Drop(rows, k);
    } else {
      RegroupLast(Drop(rows, k), r, h, j, c);
    }
  }

  lemma {:induction false} RegroupDrop<K, J>(rows: seq<Row<K>>, h: K -> Option<J>, k: K, j: J, c: nat)
    ensures Total(Regroup(rows, h), j, c) == Add(Total(Regroup(Drop(rows, k), h), j, c), Moved(rows, h, k, j, c))
  {
    if rows != [] {
      var before, r := rows[..|rows| - 1], rows[|rows| - 1];
      assert rows == before + [r];
      RegroupDrop(before, h, k, j, c);
      RegroupLast(before, r, h, j, c);
      MovedLast(before, r, h, k, j, c);
      DroppedLast(before, r, h, k, j, c);
      OneSideGrows(Total(Regroup(Drop(before, k), h), j, c), Moved(before, h, k, j, c), ShareOf(r, h, j, c), r.key == k);
    }
  }

  lemma OneSideGrows(dropped: Elem, moved: Elem, share: Elem, right: bool)
    ensures Add(Add(dropped, moved), share) == Add(Add(dropped, if right then 0 else share), Add(moved, if right then share else 0))
  {
    AddPairs(dropped, if right then 0 else share, moved, if right then share else 0);
    AddAssoc(dropped, moved, share);
  }

  function ShareOf<K, J(==)>(r: Row<K>, h: K -> Option<J>, j: J, c: nat): Elem {
    if h(r.key) == Some(j) then At(r.vals, c) else 0
  }

  lemma RegroupLast<K, J>(rows: seq<Row<K>>, r: Row<K>, h: K -> Option<J>, j: J, c: nat)
    ensures Total(Regroup(rows + [r], h), j, c) == Add(Total(Regroup(rows, h), j, c), ShareOf(r, h, j, c))
  {
    assert (rows + [r])[..|rows|] == rows;
    if h(r.key).Some? {
      var one := [Row(h(r.key).value, r.vals)];
      TotalConcat(Regroup(rows, h), one, j, c);
      TotalOne(one[0], j, c);
    } else {
      assert Regroup(rows, h) + [] == Regroup(rows, h);
    }
  }

  lemma {:induction false} TotalRegroup<K, J>(a: seq<Row<K>>, b: seq<Row<K>>, h: K -> Option<J>, j: J, c: nat)
    requires forall k :: Has(a, k) <==> Has(b, k)
    requires forall k :: Total(a, k, c) == Total(b, k, c)
    ensures Total(Regroup(a, h), j, c) == Total(Regroup(b, h), j, c)
    decreases |a|
  {
    if a == [] {
      assert b != [] ==> Has(b, b[0].key);
    } else {
      var k := a[0].key;
      assert Has(a, k);
      DropShorter(a, k);
      var a', b' := Drop(a, k), Drop(b, k);
      forall l ensures (Has(a', l) <==> Has(b', l)) && Total(a', l, c) == Total(b', l, c) {
        HasDrop(a, k, l);
        HasDrop(b, k, l);
        TotalDrop(a, k, l, c);
        TotalDrop(b, k, l, c);
      }
      TotalRegroup(a', b', h, j, c);
      RegroupDrop(a, h, k, j, c);
      RegroupDrop(b, h, k, j, c);
    }
  }

  /** Equal tables stay equal under any filter and any coarser grouping. */
  lemma SameRegroup<K(!new), J(!new)>(a: seq<Row<K>>, b: seq<Row<K>>, h: K -> Option<J>)
    requires Same(a, b)
    ensures Same(Regroup(a, h), Regroup(b, h))
  {
    forall j ensures Has(Regroup(a, h), j) <==> Has(Regroup(b, h), j) {
      HasRegroup(a, h, j);
      HasRegroup(b, h, j);
      if i :| 0 <= i < |a| && h(a[i].key) == Some(j) {
        assert Has(a, a[i].key);
      }
      if i :| 0 <= i < |b| && h(b[i].key) == Some(j) {
        assert Has(b, b[i].key);
      }
    }
    forall j, c: nat ensures Total(Regroup(a, h), j, c) == Total(Regroup(b, h), j, c) {
      TotalRegroup(a, b, h, j, c);
    }
  }

  // ---------- tables kept as maps ----------

  function Get<K(==)>(m: map<K, seq<Elem>>, k: K): seq<Elem> {
    if k in m then m[k] else []
  }

  /** The map holds exactly the groups of the table, each with its sums. */
  ghost predicate Tallies<K(!new)>(m: map<K, seq<Elem>>, rows: seq<Row<K>>) {
    && (forall k :: k in m <==> Has(rows, k))
    && (forall k, c: nat :: At(Get(m, k), c) == Total(rows, k, c))
  }

  /** One more row added into the map. */
  lemma TalliesStep<K(!new)>(m: map<K, seq<Elem>>, rows: seq<Row<K>>, r: Row<K>, v: seq<Elem>)
    requires Tallies(m, rows)
    requires forall c: nat :: At(v, c) == Add(At(Get(m, r.key), c), At(r.vals, c))
    ensures Tallies(m[r.key := v], rows + [r])
  {
    var m' := m[r.key := v];
    forall k ensures k in m' <==> Has(rows + [r], k) {
      HasConcat(rows, [r], k);
      HasOne(r, k);
    }
    forall k, c: nat ensures At(Get(m', k), c) == Total(rows + [r], k, c) {
      TotalConcat(rows, [r], k, c);
      TotalOne(r, k, c);
      assert At(Get(m, k), c) == Total(rows, k, c);
    }
  }

  function Listed<K>(ks: seq<K>, m: map<K, seq<Elem>>): (r: seq<Row<K>>)
    requires forall i :: 0 <= i < |ks| ==> ks[i] in m
    ensures |r| == |ks| && forall i :: 0 <= i < |ks| ==> r[i] == Row(ks[i], m[ks[i]])
  {
    seq(|ks|, i requires 0 <= i < |ks| => Row(ks[i], m[ks[i]]))
  }

  lemma {:induction false} TotalListed<K>(ks: seq<K>, m: map<K, seq<Elem>>, k: K, c: nat)
    requires forall i :: 0 <= i < |ks| ==> ks[i] in m
    requires forall i, j :: 0 <= i < j < |ks| ==> ks[i] != ks[j]
    ensures Total(Listed(ks, m), k, c) == if k in ks then At(m[k], c) else 0
  {
    if ks != [] {
      var n := |ks| - 1;
      TotalListed(ks[..n], m, k, c);
      assert Listed(ks, m)[..n] == Listed(ks[..n], m);
      assert ks == ks[..n] + [ks[n]];
    }
  }

  /** Listing the map in any order gives the table back. */
  lemma TalliesListing<K(!new)>(m: map<K, seq<Elem>>, rows: seq<Row<K>>, ks: seq<K>)
    requires Tallies(m, rows) && Lists(ks, m.Keys)
    ensures Same(Listed(ks, m), rows)
  {
    forall k ensures Has(Listed(ks, m), k) <==> Has(rows, k) {
      if k in m {
        var i :| 0 <= i < |ks| && ks[i] == k;
        assert Listed(ks, m)[i].key == k;
      }
    }
    forall k, c: nat ensures Total(Listed(ks, m), k, c) == Total(rows, k, c) {
      TotalListed(ks, m, k, c);
      assert k in ks <==> k in m;
      assert At(Get(m, k), c) == Total(rows, k, c);
    }
  }
}
