/** Lists without repetition, and sorting by a key. */
module Sorting {
  import opened Collections

  lemma {:induction false} DistinctSize(list: seq<int>)
    requires Distinct(list)
    ensures |set x | x in list| == |list|
  {
    if list != [] {
      var n := |list| - 1;
      DistinctSize(list[..n]);
      assert (set x | x in list) == (set x | x in list[..n]) + {list[n]};
      assert list[n] !in list[..n];
    } else {
      assert (set x | x in list) == {};
    }
  }

  /** As many distinct members as there are: all of them. */
  lemma AllChosen(servers: seq<int>, chosen: seq<int>)
    requires Distinct(servers) && Distinct(chosen) && |chosen| == |servers|
    requires forall x :: x in chosen ==> x in servers
    ensures forall x :: x in servers ==> x in chosen
  {
    DistinctSize(servers);
    DistinctSize(chosen);
    var a, b := set x | x in chosen, set x | x in servers;
    assert b == a + (b - a);
    assert |b - a| == 0;
    assert b == a;
    forall x | x in servers ensures x in chosen {
      assert x in b;
    }
  }

  /** In order of a key, equal keys in any order. */
  predicate Ordered(list: seq<int>, key: int -> real) {
    forall i, j :: 0 <= i < j < |list| ==> key(list[i]) <= key(list[j])
  }

  /** Sorting by a key: insertion of one element. */
  method Insert(sorted: seq<int>, x: int, key: int -> real) returns (r: seq<int>)
    requires Ordered(sorted, key)
    ensures Ordered(r, key) && multiset(r) == multiset(sorted) + multiset{x}
  {
    var i := 0;
    while i < |sorted| && key(sorted[i]) <= key(x)
      invariant 0 <= i <= |sorted| && forall j :: 0 <= j < i ==> key(sorted[j]) <= key(x)
    {
      i := i + 1;
    }
    r := sorted[..i] + [x] + sorted[i..];
    assert sorted == sorted[..i] + sorted[i..];
    InsertedAt(sorted, i, x, key);
  }

  lemma InsertedAt(sorted: seq<int>, i: nat, x: int, key: int -> real)
    requires Ordered(sorted, key) && i <= |sorted|
    requires (forall j :: 0 <= j < i ==> key(sorted[j]) <= key(x)) && (i < |sorted| ==> key(x) <= key(sorted[i]))
    ensures Ordered(sorted[..i] + [x] + sorted[i..], key)
  {
    var r := sorted[..i] + [x] + sorted[i..];
    forall a, b | 0 <= a < b < |r| ensures key(r[a]) <= key(r[b]) {
      var c := if b > i then b - 1 else b;
      if a < i && b > i {
        assert r[a] == sorted[a] && r[b] == sorted[c];
      } else if a == i {
        assert r[b] == sorted[c] && key(x) <= key(sorted[i]) <= key(sorted[c]);
      } else if a > i {
        assert r[a] == sorted[a - 1] && r[b] == sorted[c];
      }
    }
  }

  method SortBy(list: seq<int>, key: int -> real) returns (sorted: seq<int>)
    ensures Ordered(sorted, key) && multiset(sorted) == multiset(list)
  {
    sorted := [];
    var i := 0;
    while i < |list|
      invariant 0 <= i <= |list| && Ordered(sorted, key) && multiset(sorted) == multiset(list[..i])
    {
      assert list[..i + 1] == list[..i] + [list[i]];
      sorted := Insert(sorted, list[i], key);
      i := i + 1;
    }
    assert list[..|list|] == list;
  }

  lemma SameMembers(a: seq<int>, b: seq<int>)
    requires multiset(a) == multiset(b)
    ensures forall x :: x in a <==> x in b
  {
    forall x ensures x in a <==> x in b {
      assert x in multiset(a) <==> x in a;
      assert x in multiset(b) <==> x in b;
    }
  }

  lemma {:induction false} DistinctCounts(list: seq<int>)
    ensures Distinct(list) <==> forall x :: multiset(list)[x] <= 1
  {
    if list != [] {
      var n := |list| - 1;
      DistinctCounts(list[..n]);
      assert list == list[..n] + [list[n]];
      assert multiset(list) == multiset(list[..n]) + multiset{list[n]};
      assert list[n] in list[..n] <==> multiset(list[..n])[list[n]] > 0;
      if Distinct(list) {
        assert list[n] !in list[..n];
      } else if Distinct(list[..n]) {
        var i, j :| 0 <= i < j < |list| && list[i] == list[j];
        assert j == n && list[..n][i] == list[n];
        var x := list[n];
        assert multiset(list)[x] > 1;
      } else {
        var x :| multiset(list[..n])[x] > 1;
        assert multiset(list)[x] > 1;
      }
    }
  }

  lemma DistinctJoin(a: seq<int>, b: seq<int>)
    requires Distinct(a) && Distinct(b) && forall x :: x in a ==> x !in b
    ensures Distinct(a + b)
  {
    forall i, j | 0 <= i < j < |a + b| ensures (a + b)[i] != (a + b)[j] {
      if i < |a| <= j {
        assert a[i] in a && b[j - |a|] in b;
      }
    }
  }
}
