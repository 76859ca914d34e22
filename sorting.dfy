/**
 * The store's descending sort on a key tuple. Records with equal keys keep an order
 * that the model does not constrain: it is whatever order they arrive in.
 */
module Sorting {
  import opened SortOrder
  import opened Sequences

  /** Every later element's key is at most every earlier element's key. */
  ghost predicate SortedDesc<T>(s: seq<T>, key: T -> seq<int>)
  {
    forall i, j :: 0 <= i < j < |s| ==> LexLe(key(s[j]), key(s[i]))
  }

  /** Keys strictly decrease along the sequence: no two elements share a key. */
  ghost predicate StrictlyDesc<T>(s: seq<T>, key: T -> seq<int>)
  {
    forall i, j :: 0 <= i < j < |s| ==> LexLess(key(s[j]), key(s[i]))
  }

  /** Places `x` before the first element whose key is not above its own. */
  function Insert<T>(x: T, s: seq<T>, key: T -> seq<int>): (r: seq<T>)
    ensures multiset(r) == multiset(s) + multiset{x}
    ensures |r| == |s| + 1
  {
    if |s| == 0 then [x]
    else if LexLe(key(s[0]), key(x)) then [x] + s
    else
      assert s == [s[0]] + s[1..];
      [s[0]] + Insert(x, s[1..], key)
  }

  lemma {:induction false} InsertSorted<T>(x: T, s: seq<T>, key: T -> seq<int>)
    requires SortedDesc(s, key)
    ensures SortedDesc(Insert(x, s, key), key)
    decreases |s|
  {
    if |s| > 0 {
      if LexLe(key(s[0]), key(x)) {
        SortedInFront(x, s, key);
      } else {
        InsertSorted(x, s[1..], key);
        SortedBehindHead(x, s, key);
      }
    }
  }

  /** An element with a key at least the head's can go in front of a sorted sequence. */
  lemma SortedInFront<T>(x: T, s: seq<T>, key: T -> seq<int>)
    requires |s| > 0 && SortedDesc(s, key) && LexLe(key(s[0]), key(x))
    ensures SortedDesc([x] + s, key)
  {
    var r := [x] + s;
    forall i, j | 0 <= i < j < |r| ensures LexLe(key(r[j]), key(r[i])) {
      if i == 0 {
        assert r[j] == s[j - 1];
        if j > 1 {
          assert LexLe(key(s[j - 1]), key(s[0]));
        } else {
          LexLeReflexive(key(s[0]));
        }
        LexLeTransitive(key(r[j]), key(s[0]), key(x));
      } else {
        assert r[i] == s[i - 1] && r[j] == s[j - 1];
      }
    }
  }

  /** An element below the head goes into the tail; the head stays in front. */
  lemma SortedBehindHead<T>(x: T, s: seq<T>, key: T -> seq<int>)
    requires |s| > 0 && SortedDesc(s, key) && !LexLe(key(s[0]), key(x))
    requires SortedDesc(Insert(x, s[1..], key), key)
    ensures SortedDesc(Insert(x, s, key), key)
  {
    LexLeTotal(key(s[0]), key(x));
    var t := Insert(x, s[1..], key);
    assert Insert(x, s, key) == [s[0]] + t;
    forall j | 0 <= j < |t| ensures LexLe(key(t[j]), key(s[0])) {
      assert t[j] in multiset(t);
      if t[j] != x {
        assert t[j] in s[1..];
      }
    }
  }

  /** Insertion sort into descending key order: a sorted permutation of `s`. */
  function SortDesc<T>(s: seq<T>, key: T -> seq<int>): (r: seq<T>)
    ensures multiset(r) == multiset(s)
    ensures |r| == |s|
    ensures SortedDesc(r, key)
  {
    if |s| == 0 then []
    else
      var t := SortDesc(s[1..], key);
      InsertSorted(s[0], t, key);
      HeadTail(s);
      Insert(s[0], t, key)
  }

  /** A filtered sorted sequence is still sorted. */
  lemma {:induction false} FilterSorted<T(!new)>(s: seq<T>, p: T -> bool, key: T -> seq<int>)
    requires SortedDesc(s, key)
    ensures SortedDesc(Filter(s, p), key)
    decreases |s|
  {
    if |s| > 0 {
      FilterSorted(s[1..], p, key);
      var rest := Filter(s[1..], p);
      forall j | 0 <= j < |rest| ensures LexLe(key(rest[j]), key(s[0])) {
        assert rest[j] in s[1..];
      }
    }
  }

  /** A window of a sorted sequence is sorted. */
  lemma SliceSorted<T>(s: seq<T>, from: nat, size: nat, key: T -> seq<int>)
    requires SortedDesc(s, key)
    ensures SortedDesc(Slice(s, from, size), key)
  {
    var r := Slice(s, from, size);
    forall i, j | 0 <= i < j < |r| ensures LexLe(key(r[j]), key(r[i])) {
      assert r[i] == s[from + i] && r[j] == s[from + j];
    }
  }
}
