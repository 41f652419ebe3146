/**
 * Python's `list.sort(key=..., reverse=True)`, the step that orders draft
 * recommendations and leaderboard rows. Python's sort is stable also when
 * reversed: items with equal keys keep their original relative order. The
 * result is therefore the unique sequence that is (1) non-increasing in the
 * key, (2) a permutation of the input and (3) keeps, for each key value, the
 * original order of the items with that key. `SortDesc` is an insertion sort
 * with exactly these three properties, proved below.
 */
module Ranking {

  ghost predicate NonIncreasing<T>(s: seq<T>, key: T -> real) {
    forall i, j :: 0 <= i < j < |s| ==> key(s[i]) >= key(s[j])
  }

  /** Puts `x` in front of the first item whose key is not larger than its own. */
  function Insert<T>(x: T, s: seq<T>, key: T -> real): (r: seq<T>)
    ensures |r| == |s| + 1
  {
    if s == [] || key(x) >= key(s[0]) then [x] + s
    else [s[0]] + Insert(x, s[1..], key)
  }

  /** Inserting adds exactly `x` to the items. */
  lemma {:induction false} InsertAdds<T>(x: T, s: seq<T>, key: T -> real)
    ensures multiset(Insert(x, s, key)) == multiset(s) + multiset{x}
  {
    if s != [] && key(x) < key(s[0]) {
      InsertAdds(x, s[1..], key);
      assert s == [s[0]] + s[1..];
    }
  }

  /** The items of `s` whose key is `k`, in their order in `s`. */
  function WithKey<T>(s: seq<T>, key: T -> real, k: real): seq<T> {
    if s == [] then []
    else (if key(s[0]) == k then [s[0]] else []) + WithKey(s[1..], key, k)
  }

  /** Stable descending sort: earlier items are inserted last, in front of their equals. */
  function SortDesc<T>(s: seq<T>, key: T -> real): (r: seq<T>)
    ensures |r| == |s|
  {
    if s == [] then [] else Insert(s[0], SortDesc(s[1..], key), key)
  }

  /** The sorted copy holds the same items, in non-increasing order of the key. */
  lemma {:induction false} SortDescSorts<T>(s: seq<T>, key: T -> real)
    ensures multiset(SortDesc(s, key)) == multiset(s)
    ensures NonIncreasing(SortDesc(s, key), key)
  {
    if s != [] {
      SortDescSorts(s[1..], key);
      InsertAdds(s[0], SortDesc(s[1..], key), key);
      InsertKeepsOrder(s[0], SortDesc(s[1..], key), key);
      assert s == [s[0]] + s[1..];
    }
  }

  lemma {:induction false} InsertKeepsOrder<T>(x: T, s: seq<T>, key: T -> real)
    requires NonIncreasing(s, key)
    ensures NonIncreasing(Insert(x, s, key), key)
  {
    if s != [] && key(x) < key(s[0]) {
      InsertKeepsOrder(x, s[1..], key);
      var r := Insert(x, s, key);
      var tail := Insert(x, s[1..], key);
      assert r == [s[0]] + tail;
      InsertAdds(x, s[1..], key);
      assert multiset(tail) == multiset(s[1..]) + multiset{x};
      forall j | 0 < j < |r|
        ensures key(r[0]) >= key(r[j])
      {
        var y := r[j];
        assert y == tail[j - 1];
        assert y in multiset(tail);
        if y == x {
        } else {
          assert y in multiset(s[1..]);
          var k :| 0 <= k < |s[1..]| && s[1..][k] == y;
          assert s[k + 1] == y;
        }
      }
    }
  }

  lemma {:induction false} WithKeyInsert<T>(x: T, s: seq<T>, key: T -> real, k: real)
    ensures WithKey(Insert(x, s, key), key, k) == (if key(x) == k then [x] else []) + WithKey(s, key, k)
  {
    if s == [] || key(x) >= key(s[0]) {
      assert ([x] + s)[1..] == s;
    } else {
      var rest := Insert(x, s[1..], key);
      WithKeyInsert(x, s[1..], key, k);
      assert ([s[0]] + rest)[1..] == rest;
      var head := if key(s[0]) == k then [s[0]] else [];
      assert WithKey(Insert(x, s, key), key, k) == head + WithKey(rest, key, k);
      assert WithKey(s, key, k) == head + WithKey(s[1..], key, k);
      // here key(s[0]) > key(x): s[0] and x cannot both have key k
      assert key(x) == k ==> head == [];
    }
  }

  /** Stability: for every key value, the items with that key keep their input order. */
  lemma {:induction false} SortDescStable<T>(s: seq<T>, key: T -> real, k: real)
    ensures WithKey(SortDesc(s, key), key, k) == WithKey(s, key, k)
  {
    if s != [] {
      SortDescStable(s[1..], key, k);
      WithKeyInsert(s[0], SortDesc(s[1..], key), key, k);
    }
  }

  /** Python's `xs[:n]` for a non-negative `n`: the `n` best after sorting. */
  function Top<T>(s: seq<T>, n: nat): (r: seq<T>)
    ensures |r| == if |s| < n then |s| else n
  {
    if |s| < n then s else s[..n]
  }

  /**
   * Taking the first `n` of a sorted list keeps the best: every item of the
   * input left out scores no higher than any item kept.
   */
  lemma {:induction false} TopDominates<T>(s: seq<T>, key: T -> real, n: nat, x: T)
    requires x in s && x !in Top(SortDesc(s, key), n)
    ensures forall i :: 0 <= i < |Top(SortDesc(s, key), n)| ==> key(x) <= key(Top(SortDesc(s, key), n)[i])
  {
    var sorted := SortDesc(s, key);
    SortDescSorts(s, key);
    assert x in multiset(s);
    assert x in multiset(sorted);
    var k :| 0 <= k < |sorted| && sorted[k] == x;
    var top := Top(sorted, n);
    assert top == sorted[..|top|];
    forall i | 0 <= i < |top|
      ensures key(x) <= key(top[i])
    {
      assert top[i] == sorted[i];
    }
  }

  /**
   * The `n` best of a sorted copy: as many as there are (at most `n`), all
   * taken from the input, still in non-increasing order.
   */
  lemma TopOfSorted<T>(s: seq<T>, key: T -> real, n: nat)
    ensures |Top(SortDesc(s, key), n)| == if |s| < n then |s| else n
    ensures forall x :: x in Top(SortDesc(s, key), n) ==> x in s
    ensures NonIncreasing(Top(SortDesc(s, key), n), key)
  {
    var sorted := SortDesc(s, key);
    SortDescSorts(s, key);
    var top := Top(sorted, n);
    assert top == sorted[..|top|];
    forall x | x in top
      ensures x in s
    {
      assert x in multiset(sorted);
    }
  }
}
