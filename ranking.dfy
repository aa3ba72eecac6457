// `list.sort(key=..., reverse=True)` as combine_video_analyses uses it to rank
// brands by exposure: Python's sort is stable, and with reverse=True it still
// keeps equal keys in their original order.

module Ranking {
  import opened Common

  /** Non-increasing by key. */
  predicate SortedDesc<T>(s: seq<T>, key: T -> real) {
    forall i, j :: 0 <= i < j < |s| ==> key(s[i]) >= key(s[j])
  }

  /** Inserts `x` after every element whose key is at least its own. */
  function Insert<T>(s: seq<T>, x: T, key: T -> real): (r: seq<T>)
    ensures |r| == |s| + 1
  {
    if s == [] || key(s[|s| - 1]) >= key(x) then s + [x]
    else Insert(s[..|s| - 1], x, key) + [s[|s| - 1]]
  }

  /** Insertion sort, taking the elements front to back. */
  function SortDesc<T>(s: seq<T>, key: T -> real): (r: seq<T>)
    ensures |r| == |s|
  {
    if s == [] then []
    else Insert(SortDesc(s[..|s| - 1], key), s[|s| - 1], key)
  }

  /** The elements whose key equals `k`. */
  function KeyIs<T>(key: T -> real, k: real): T -> bool {
    x => key(x) == k
  }

  lemma {:induction false} InsertSorted<T>(s: seq<T>, x: T, key: T -> real)
    requires SortedDesc(s, key)
    ensures SortedDesc(Insert(s, x, key), key)
    ensures forall y :: y in Insert(s, x, key) ==> y in s || y == x
  {
    if s != [] && key(s[|s| - 1]) < key(x) {
      var s', last := s[..|s| - 1], s[|s| - 1];
      assert SortedDesc(s', key);
      InsertSorted(s', x, key);
      var r' := Insert(s', x, key);
      forall y | y in r' ensures key(y) >= key(last) {
        if y in s' {
          var i :| 0 <= i < |s'| && s'[i] == y;
          assert s[i] == y;
        }
      }
      var r := r' + [last];
      forall i, j | 0 <= i < j < |r| ensures key(r[i]) >= key(r[j]) {
        if j == |r| - 1 {
          assert r[i] in r';
        } else {
          assert r[i] == r'[i] && r[j] == r'[j];
        }
      }
    }
  }

  lemma {:induction false} InsertMultiset<T>(s: seq<T>, x: T, key: T -> real)
    ensures multiset(Insert(s, x, key)) == multiset(s) + multiset{x}
  {
    if s != [] && key(s[|s| - 1]) < key(x) {
      var s', last := s[..|s| - 1], s[|s| - 1];
      InsertMultiset(s', x, key);
      SplitLast(s);
    }
  }

  /** Inserting keeps, for every key, the elements with that key in the same order, `x` last. */
  lemma {:induction false} InsertStable<T>(s: seq<T>, x: T, key: T -> real, k: real)
    ensures Filter(Insert(s, x, key), KeyIs(key, k)) == Filter(s, KeyIs(key, k)) + (if key(x) == k then [x] else [])
  {
    var p := KeyIs(key, k);
    if s == [] || key(s[|s| - 1]) >= key(x) {
      FilterSnoc(s, x, p);
    } else {
      var s', last := s[..|s| - 1], s[|s| - 1];
      var inserted := Insert(s', x, key);
      InsertStable(s', x, key, k);
      assert Insert(s, x, key) == inserted + [last];
      FilterSnoc(inserted, last, p);
      SplitLast(s);
      FilterSnoc(s', last, p);
      if key(x) == k {
        assert !p(last);
        assert Filter(Insert(s, x, key), p) == Filter(s', p) + [x];
      } else {
        assert !p(x);
        assert Filter(inserted, p) == Filter(s', p);
      }
    }
  }

  /** The ranking is sorted by non-increasing key and is a rearrangement of its input. */
  lemma {:induction false} SortDescCorrect<T>(s: seq<T>, key: T -> real)
    ensures SortedDesc(SortDesc(s, key), key)
    ensures multiset(SortDesc(s, key)) == multiset(s)
  {
    if s != [] {
      var s', x := s[..|s| - 1], s[|s| - 1];
      SortDescCorrect(s', key);
      InsertSorted(SortDesc(s', key), x, key);
      InsertMultiset(SortDesc(s', key), x, key);
      SplitLast(s);
    }
  }

  /** Stability: elements with equal keys keep their input order. */
  lemma {:induction false} SortDescStable<T>(s: seq<T>, key: T -> real, k: real)
    ensures Filter(SortDesc(s, key), KeyIs(key, k)) == Filter(s, KeyIs(key, k))
  {
    if s != [] {
      var s', x := s[..|s| - 1], s[|s| - 1];
      SortDescStable(s', key, k);
      InsertStable(SortDesc(s', key), x, key, k);
      SplitLast(s);
      FilterSnoc(s', x, KeyIs(key, k));
    }
  }

  /** Every position of the ranking holds some element of the input. */
  lemma SortDescFrom<T>(s: seq<T>, key: T -> real, i: nat) returns (k: nat)
    requires i < |s|
    ensures k < |s| && SortDesc(s, key)[i] == s[k]
  {
    SortDescCorrect(s, key);
    assert SortDesc(s, key)[i] in multiset(s);
    k :| 0 <= k < |s| && s[k] == SortDesc(s, key)[i];
  }

  /** The first element of the ranking has the largest key of all. */
  lemma SortDescFirstIsMax<T>(s: seq<T>, key: T -> real)
    requires s != []
    ensures forall x :: x in s ==> key(x) <= key(SortDesc(s, key)[0])
  {
    var r := SortDesc(s, key);
    SortDescCorrect(s, key);
    forall x | x in s ensures key(x) <= key(r[0]) {
      assert x in multiset(r);
      var i :| 0 <= i < |r| && r[i] == x;
      if i > 0 {
        assert key(r[0]) >= key(r[i]);
      }
    }
  }

  lemma InsertSnoc<T>(s: seq<T>, x: T, key: T -> real)
    requires s != [] && key(s[|s| - 1]) < key(x)
    ensures Insert(s, x, key) == Insert(s[..|s| - 1], x, key) + [s[|s| - 1]]
  {
  }

  /** Finds the slot for `x`: after every element whose key is at least its own. */
  method InsertDesc<T>(s: seq<T>, x: T, key: T -> real) returns (r: seq<T>)
    ensures r == Insert(s, x, key)
  {
    var j := |s|;
    assert s[..j] == s && s[j..] == [];
    while j > 0 && key(s[j - 1]) < key(x)
      invariant 0 <= j <= |s|
      invariant Insert(s, x, key) == Insert(s[..j], x, key) + s[j..]
    {
      InsertSnoc(s[..j], x, key);
      assert s[..j][..j - 1] == s[..j - 1];
      assert s[j - 1..] == [s[j - 1]] + s[j..];
      j := j - 1;
    }
    r := s[..j] + [x] + s[j..];
  }

  /** `list.sort(key=key, reverse=True)`. */
  method SortDescending<T>(s: seq<T>, key: T -> real) returns (r: seq<T>)
    ensures r == SortDesc(s, key)
  {
    r := [];
    for i := 0 to |s|
      invariant r == SortDesc(s[..i], key)
    {
      TakeTake(s, i);
      r := InsertDesc(r, s[i], key);
    }
    assert s[..|s|] == s;
  }
}
