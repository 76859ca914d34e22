/** Filtering and slicing of sequences: the selection part of every store query. */
module Sequences {
  import opened Common

  /** The elements of `s` that satisfy `p`, in their original order. */
  function Filter<T(!new)>(s: seq<T>, p: T -> bool): (r: seq<T>)
    ensures |r| <= |s|
    ensures forall x :: x in r <==> x in s && p(x)
  {
    if |s| == 0 then [] else (if p(s[0]) then [s[0]] else []) + Filter(s[1..], p)
  }

  /** The conjunction of two predicates, as one predicate value. */
  function And<T(!new)>(p: T -> bool, q: T -> bool): (r: T -> bool)
    ensures forall x :: r(x) == (p(x) && q(x))
  {
    x => p(x) && q(x)
  }

  /** The first `n` elements of `s`, or all of `s` when it is shorter (a search `size`). */
  function Take<T>(s: seq<T>, n: nat): (r: seq<T>)
    ensures |r| == Min(n, |s|)
    ensures r == s[..|r|]
  {
    if n < |s| then s[..n] else s
  }

  /** The window `[from, from + size)` of `s`, clipped to `s` (a search `from`/`size`). */
  function Slice<T>(s: seq<T>, from: nat, size: nat): (r: seq<T>)
    ensures from <= |s| ==> |r| == Min(size, |s| - from)
    ensures from > |s| ==> r == []
    ensures forall i :: 0 <= i < |r| ==> from + i < |s| && r[i] == s[from + i]
  {
    if from >= |s| then [] else s[from..Min(from + size, |s|)]
  }

  lemma {:induction false} FilterAppend<T(!new)>(s: seq<T>, t: seq<T>, p: T -> bool)
    ensures Filter(s + t, p) == Filter(s, p) + Filter(t, p)
    decreases |s|
  {
    if |s| == 0 {
      assert s + t == t;
    } else {
      assert (s + t)[1..] == s[1..] + t;
      FilterAppend(s[1..], t, p);
    }
  }

  /** How often `x` occurs in the filtered sequence depends only on how often it occurs in `s`. */
  lemma {:induction false} FilterCount<T(!new)>(s: seq<T>, p: T -> bool, x: T)
    ensures multiset(Filter(s, p))[x] == if p(x) then multiset(s)[x] else 0
    decreases |s|
  {
    if |s| > 0 {
      FilterCount(s[1..], p, x);
      assert s == [s[0]] + s[1..];
    }
  }

  /** Filtering a permutation gives a permutation of the filtered sequence. */
  lemma FilterPermutation<T(!new)>(s: seq<T>, t: seq<T>, p: T -> bool)
    requires multiset(s) == multiset(t)
    ensures multiset(Filter(s, p)) == multiset(Filter(t, p))
  {
    forall x ensures multiset(Filter(s, p))[x] == multiset(Filter(t, p))[x] {
      FilterCount(s, p, x);
      FilterCount(t, p, x);
    }
  }

  lemma {:induction false} FilterFilter<T(!new)>(s: seq<T>, p: T -> bool, q: T -> bool)
    ensures Filter(Filter(s, p), q) == Filter(s, And(p, q))
    decreases |s|
  {
    if |s| > 0 {
      FilterFilter(s[1..], p, q);
      var f := Filter(s, p);
      if p(s[0]) {
        assert f == [s[0]] + Filter(s[1..], p);
        assert f[1..] == Filter(s[1..], p);
      } else {
        assert f == Filter(s[1..], p);
      }
    }
  }

  /** Filtering by a predicate that every element satisfies changes nothing. */
  lemma {:induction false} FilterAll<T(!new)>(s: seq<T>, p: T -> bool)
    requires forall i :: 0 <= i < |s| ==> p(s[i])
    ensures Filter(s, p) == s
    decreases |s|
  {
    if |s| > 0 {
      FilterAll(s[1..], p);
      assert s == [s[0]] + s[1..];
    }
  }

  /** No element satisfies the predicate: nothing is kept. */
  lemma {:induction false} FilterNone<T(!new)>(s: seq<T>, p: T -> bool)
    requires forall x :: x in s ==> !p(x)
    ensures Filter(s, p) == []
    decreases |s|
  {
    if |s| > 0 {
      assert s[0] in s;
      FilterNone(s[1..], p);
    }
  }

  /**
   * When `p` is false on a prefix of `s` and true on the rest, filtering by `p`
   * keeps exactly that rest.
   */
  lemma {:induction false} FilterSuffix<T(!new)>(s: seq<T>, p: T -> bool, m: nat)
    requires m <= |s|
    requires forall j :: 0 <= j < m ==> !p(s[j])
    requires forall j :: m <= j < |s| ==> p(s[j])
    ensures Filter(s, p) == s[m..]
    decreases |s|
  {
    if |s| > 0 {
      if m == 0 {
        FilterAll(s, p);
      } else {
        FilterSuffix(s[1..], p, m - 1);
        assert s[1..][m - 1..] == s[m..];
      }
    }
  }

  /** Filters by predicates that agree everywhere are equal. */
  lemma {:induction false} FilterExt<T(!new)>(s: seq<T>, p: T -> bool, q: T -> bool)
    requires forall x :: p(x) == q(x)
    ensures Filter(s, p) == Filter(s, q)
    decreases |s|
  {
    if |s| > 0 {
      FilterExt(s[1..], p, q);
    }
  }

  /** A stricter predicate keeps no more elements than a weaker one. */
  lemma {:induction false} FilterWeaker<T(!new)>(s: seq<T>, p: T -> bool, q: T -> bool)
    requires forall x :: p(x) ==> q(x)
    ensures |Filter(s, p)| <= |Filter(s, q)|
    decreases |s|
  {
    if |s| > 0 {
      FilterWeaker(s[1..], p, q);
    }
  }

  /** No element occurs twice. */
  ghost predicate Distinct<T>(s: seq<T>)
  {
    forall i, j :: 0 <= i < j < |s| ==> s[i] != s[j]
  }

  lemma {:induction false} DistinctOccursOnce<T>(s: seq<T>, x: T)
    requires Distinct(s)
    ensures multiset(s)[x] <= 1
    decreases |s|
  {
    if |s| > 0 {
      var rest := s[1..];
      assert Distinct(rest) by {
        forall i, j | 0 <= i < j < |rest| ensures rest[i] != rest[j] {
          assert rest[i] == s[i + 1] && rest[j] == s[j + 1];
        }
      }
      DistinctOccursOnce(rest, x);
      assert s == [s[0]] + rest;
      if s[0] == x {
        assert x !in rest by {
          forall j | 0 <= j < |rest| ensures rest[j] != x {
            assert rest[j] == s[j + 1];
          }
        }
      }
    }
  }

  lemma RepeatOccursTwice<T>(s: seq<T>, i: nat, j: nat)
    requires i < j < |s| && s[i] == s[j]
    ensures multiset(s)[s[i]] >= 2
  {
    assert s == s[..j] + [s[j]] + s[j + 1..];
    assert s[i] in s[..j];
  }

  /** A permutation of a sequence without repeats has none either. */
  lemma DistinctPermutation<T>(s: seq<T>, t: seq<T>)
    requires multiset(s) == multiset(t) && Distinct(s)
    ensures Distinct(t)
  {
    forall i, j | 0 <= i < j < |t| ensures t[i] != t[j] {
      if t[i] == t[j] {
        RepeatOccursTwice(t, i, j);
        DistinctOccursOnce(s, t[i]);
      }
    }
  }

  /** The first `from` elements followed by the window at `from` are the first `from + size`. */
  lemma TakeSlice<T>(s: seq<T>, from: nat, size: nat)
    ensures Take(s, from) + Slice(s, from, size) == Take(s, from + size)
  {
    if from < |s| {
      assert Take(s, from) + Slice(s, from, size) == s[..from] + s[from..Min(from + size, |s|)];
    }
  }

  /** A non-empty sequence is its head followed by its tail. */
  lemma HeadTail<T>(s: seq<T>)
    requires |s| > 0
    ensures multiset(s) == multiset(s[1..]) + multiset{s[0]}
  {
    assert s == [s[0]] + s[1..];
  }

  /** A sequence is its prefix, the element at `i` and its suffix. */
  lemma SplitAt<T>(s: seq<T>, i: nat)
    requires i < |s|
    ensures s == s[..i] + [s[i]] + s[i + 1..]
    ensures multiset(s) == multiset(s[..i] + s[i + 1..]) + multiset{s[i]}
  {
    assert s == s[..i] + [s[i]] + s[i + 1..];
  }

  /** Every element of a window of `s` is an element of `s`. */
  lemma SliceMembers<T>(s: seq<T>, from: nat, size: nat)
    ensures forall x :: x in Slice(s, from, size) ==> x in s
  {
    var r := Slice(s, from, size);
    forall x | x in r ensures x in s {
      var i :| 0 <= i < |r| && r[i] == x;
      assert s[from + i] == x;
    }
  }

  lemma DistinctCons<T>(x: T, s: seq<T>)
    requires x !in s && Distinct(s)
    ensures Distinct([x] + s)
  {
    var r := [x] + s;
    forall i, j | 0 <= i < j < |r| ensures r[i] != r[j] {
      assert r[j] == s[j - 1];
      if i > 0 {
        assert r[i] == s[i - 1];
      }
    }
  }

  /** Filtering a sequence without repeats leaves none. */
  lemma {:induction false} FilterDistinct<T(!new)>(s: seq<T>, p: T -> bool)
    requires Distinct(s)
    ensures Distinct(Filter(s, p))
    decreases |s|
  {
    if |s| > 0 {
      var rest := s[1..];
      assert Distinct(rest) by {
        forall i, j | 0 <= i < j < |rest| ensures rest[i] != rest[j] {
          assert rest[i] == s[i + 1] && rest[j] == s[j + 1];
        }
      }
      FilterDistinct(rest, p);
      if p(s[0]) {
        assert s[0] !in rest by {
          forall j | 0 <= j < |rest| ensures rest[j] != s[0] {
            assert rest[j] == s[j + 1];
          }
        }
        DistinctCons(s[0], Filter(rest, p));
      }
    }
  }
}
