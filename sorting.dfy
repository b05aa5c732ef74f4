/** `array.sort((a, b) => key(b) - key(a))`: the newest-first ordering both trade importers
    apply to their output. ECMAScript's sort is stable, so elements with equal keys keep their
    relative order; the model is a stable insertion sort with those properties proved. */
module Sorting {

  /** Non-increasing by `key`: newest first. */
  ghost predicate NewestFirst<T>(s: seq<T>, key: T -> int)
  {
    forall i, j :: 0 <= i < j < |s| ==> key(s[i]) >= key(s[j])
  }

  /** The elements of `s` whose key is `k`, in their order in `s`. */
  function WithKey<T>(s: seq<T>, key: T -> int, k: int): seq<T>
  {
    if s == [] then [] else (if key(s[0]) == k then [s[0]] else []) + WithKey(s[1..], key, k)
  }

  /** Puts `x` in front of the first element whose key is not greater than its own. */
  function Insert<T>(x: T, s: seq<T>, key: T -> int): (r: seq<T>)
  {
    if s == [] || key(s[0]) <= key(x) then [x] + s else [s[0]] + Insert(x, s[1..], key)
  }

  function SortNewestFirst<T>(s: seq<T>, key: T -> int): (r: seq<T>)
  {
    if s == [] then [] else Insert(s[0], SortNewestFirst(s[1..], key), key)
  }

  lemma {:induction false} InsertKeepsElements<T>(x: T, s: seq<T>, key: T -> int)
    ensures multiset(Insert(x, s, key)) == multiset{x} + multiset(s)
  {
    if s != [] && key(s[0]) > key(x) {
      InsertKeepsElements(x, s[1..], key);
      assert s == [s[0]] + s[1..];
    }
  }

  lemma {:induction false} InsertKeepsOrder<T>(x: T, s: seq<T>, key: T -> int)
    requires NewestFirst(s, key)
    ensures NewestFirst(Insert(x, s, key), key)
  {
    if s != [] && key(s[0]) > key(x) {
      InsertKeepsOrder(x, s[1..], key);
      InsertKeepsElements(x, s[1..], key);
      var t := Insert(x, s[1..], key);
      forall j | 0 <= j < |t| ensures key(s[0]) >= key(t[j]) {
        assert t[j] in multiset(t);
        if t[j] != x {
          assert t[j] in multiset(s[1..]);
          var m :| 0 <= m < |s[1..]| && s[1..][m] == t[j];
          assert s[1 + m] == t[j];
        }
      }
    }
  }

  lemma {:induction false} InsertWithKey<T>(x: T, s: seq<T>, key: T -> int, k: int)
    requires NewestFirst(s, key)
    ensures WithKey(Insert(x, s, key), key, k)
         == (if key(x) == k then [x] else []) + WithKey(s, key, k)
  {
    if s == [] || key(s[0]) <= key(x) {
      assert Insert(x, s, key)[1..] == s;
    } else {
      assert Insert(x, s, key)[1..] == Insert(x, s[1..], key);
      InsertWithKey(x, s[1..], key, k);
      if key(x) == k {
        // every element of s, s[0] included, is newer than x, so none has key k
        NewerHaveOtherKey(s, key, k);
      }
    }
  }

  lemma {:induction false} NewerHaveOtherKey<T>(s: seq<T>, key: T -> int, k: int)
    requires s != [] && NewestFirst(s, key) && key(s[0]) > k
    ensures WithKey(s, key, k) == WithKey(s[1..], key, k)
  {
  }

  /** The sort returns a permutation of its input, ordered newest first, and it is stable:
      for every key, the elements carrying it appear in their original order. */
  lemma {:induction false} SortCorrect<T>(s: seq<T>, key: T -> int)
    ensures multiset(SortNewestFirst(s, key)) == multiset(s)
    ensures NewestFirst(SortNewestFirst(s, key), key)
    ensures forall k :: WithKey(SortNewestFirst(s, key), key, k) == WithKey(s, key, k)
  {
    if s != [] {
      SortCorrect(s[1..], key);
      InsertKeepsElements(s[0], SortNewestFirst(s[1..], key), key);
      InsertKeepsOrder(s[0], SortNewestFirst(s[1..], key), key);
      assert s == [s[0]] + s[1..];
      forall k ensures WithKey(SortNewestFirst(s, key), key, k) == WithKey(s, key, k) {
        InsertWithKey(s[0], SortNewestFirst(s[1..], key), key, k);
      }
    }
  }

  lemma SortLength<T>(s: seq<T>, key: T -> int)
    ensures |SortNewestFirst(s, key)| == |s|
  {
    SortCorrect(s, key);
    assert |multiset(SortNewestFirst(s, key))| == |multiset(s)|;
  }
}
