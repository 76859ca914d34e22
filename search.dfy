/**
 * The two ways the index pages through a sorted query: `search_after` a cursor tuple
 * (asset and parcel listings) and `from`/`size` offsets (address-scoped parcels and
 * aggregation buckets).
 */
module Search {
  import opened Common
  import opened Sequences
  import opened SortOrder
  import opened Sorting

  /** Every document's sort key has the same number of fields. */
  ghost predicate KeyWidth<T(!new)>(key: T -> seq<int>, width: nat)
  {
    forall x :: |key(x)| == width
  }

  /** The predicate "sorts strictly after cursor `c`". */
  function BelowPred<T(!new)>(key: T -> seq<int>, c: seq<Bound>): (q: T -> bool)
    ensures forall x :: q(x) == BelowCursor(key(x), c)
  {
    x => BelowCursor(key(x), c)
  }

  /** All matches of the query, in the order of the descending sort. */
  function Ranked<T(!new)>(hits: seq<T>, p: T -> bool, key: T -> seq<int>): (r: seq<T>)
    ensures multiset(r) == multiset(Filter(hits, p))
    ensures |r| == |Filter(hits, p)|
    ensures SortedDesc(r, key)
  {
    SortDesc(Filter(hits, p), key)
  }

  lemma RankedMembership<T(!new)>(hits: seq<T>, p: T -> bool, key: T -> seq<int>, x: T)
    ensures x in Ranked(hits, p, key) <==> x in hits && p(x)
  {
    var r := Ranked(hits, p, key);
    assert x in r <==> x in multiset(r);
    assert x in Filter(hits, p) <==> x in multiset(Filter(hits, p));
  }

  /**
   * A search with a descending `sort`, a `search_after` cursor and a `size`: the first
   * `size` matches that sort strictly after the cursor.
   */
  function SearchAfter<T(!new)>(hits: seq<T>, p: T -> bool, key: T -> seq<int>, cursor: seq<Bound>, size: nat): (r: seq<T>)
    ensures |r| == Min(size, |Filter(hits, And(p, BelowPred(key, cursor)))|)
    ensures forall x :: x in r ==> x in hits && p(x) && BelowCursor(key(x), cursor)
    ensures SortedDesc(r, key)
    ensures forall x :: x in hits && p(x) && BelowCursor(key(x), cursor) && x !in r ==>
              forall i :: 0 <= i < |r| ==> LexLe(key(x), key(r[i]))
  {
    var after := Filter(Ranked(hits, p, key), BelowPred(key, cursor));
    SearchAfterFacts(hits, p, key, cursor);
    Take(after, size)
  }

  lemma SearchAfterFacts<T(!new)>(hits: seq<T>, p: T -> bool, key: T -> seq<int>, cursor: seq<Bound>)
    ensures var after := Filter(Ranked(hits, p, key), BelowPred(key, cursor));
      && |after| == |Filter(hits, And(p, BelowPred(key, cursor)))|
      && SortedDesc(after, key)
      && forall x :: x in after <==> x in hits && p(x) && BelowCursor(key(x), cursor)
  {
    var ranked := Ranked(hits, p, key);
    var below := BelowPred(key, cursor);
    var after := Filter(ranked, below);
    FilterPermutation(ranked, Filter(hits, p), below);
    FilterFilter(hits, p, below);
    assert |after| == |multiset(after)|;
    FilterSorted(ranked, below, key);
    forall x ensures x in after <==> x in hits && p(x) && BelowCursor(key(x), cursor) {
      RankedMembership(hits, p, key, x);
    }
  }

  /** When the matches hold no document twice, neither does the ranking. */
  lemma RankedDistinct<T(!new)>(hits: seq<T>, p: T -> bool, key: T -> seq<int>)
    requires Distinct(Filter(hits, p))
    ensures Distinct(Ranked(hits, p, key))
  {
    DistinctPermutation(Filter(hits, p), Ranked(hits, p, key));
  }

  /** When the matches hold no document twice, neither does a `search_after` page. */
  lemma SearchAfterDistinct<T(!new)>(hits: seq<T>, p: T -> bool, key: T -> seq<int>, cursor: seq<Bound>, size: nat)
    requires Distinct(Filter(hits, p))
    ensures Distinct(SearchAfter(hits, p, key, cursor, size))
  {
    var after := Filter(Ranked(hits, p, key), BelowPred(key, cursor));
    RankedDistinct(hits, p, key);
    FilterDistinct(Ranked(hits, p, key), BelowPred(key, cursor));
    var r := Take(after, size);
    assert r == SearchAfter(hits, p, key, cursor, size);
    forall i, j | 0 <= i < j < |r| ensures r[i] != r[j] {
      assert r[i] == after[i] && r[j] == after[j];
    }
  }

  /** A search with a descending `sort`, a `from` offset and a `size`. */
  function SearchFrom<T(!new)>(hits: seq<T>, p: T -> bool, key: T -> seq<int>, from: nat, size: nat): (r: seq<T>)
    ensures from <= |Filter(hits, p)| ==> |r| == Min(size, |Filter(hits, p)| - from)
    ensures from > |Filter(hits, p)| ==> r == []
    ensures forall i :: 0 <= i < |r| ==> from + i < |Ranked(hits, p, key)| && r[i] == Ranked(hits, p, key)[from + i]
  {
    var ranked := Ranked(hits, p, key);
    assert |ranked| == |Filter(hits, p)|;
    Slice(ranked, from, size)
  }

  /** The first page, with every cursor field at its maximum, is the top of the ranking. */
  lemma FirstPage<T(!new)>(hits: seq<T>, p: T -> bool, key: T -> seq<int>, width: nat, size: nat)
    requires width > 0 && KeyWidth(key, width)
    ensures SearchAfter(hits, p, key, Top(width), size) == Take(Ranked(hits, p, key), size)
  {
    var ranked := Ranked(hits, p, key);
    forall i | 0 <= i < |ranked| ensures BelowPred(key, Top(width))(ranked[i]) {
      BelowTop(key(ranked[i]));
    }
    FilterAll(ranked, BelowPred(key, Top(width)));
  }

  /**
   * Cursor paging is gap-free and duplicate-free when sort keys are distinct and nonzero:
   * the page requested with the cursor of the `i`-th ranked match continues right after it.
   */
  lemma NextPage<T(!new)>(hits: seq<T>, p: T -> bool, key: T -> seq<int>, width: nat, i: nat, size: nat)
    requires KeyWidth(key, width)
    requires StrictlyDesc(Ranked(hits, p, key), key)
    requires i < |Ranked(hits, p, key)|
    requires forall f :: 0 <= f < width ==> key(Ranked(hits, p, key)[i])[f] != 0
    ensures SearchAfter(hits, p, key, CursorOf(key(Ranked(hits, p, key)[i])), size)
            == Take(Ranked(hits, p, key)[i + 1..], size)
  {
    var ranked := Ranked(hits, p, key);
    var k := key(ranked[i]);
    CursorOfNonzero(k);
    var below := BelowPred(key, CursorOf(k));
    forall j | 0 <= j < |ranked| ensures below(ranked[j]) <==> j > i {
      BelowExact(key(ranked[j]), k);
      if j < i && LexLe(key(ranked[j]), k) {
        LexLeAntisymmetric(key(ranked[j]), k);
      }
    }
    FilterSuffix(ranked, below, i + 1);
  }

  /**
   * The `||` quirk: when the match that ends a page has a key field 0, the next page does
   * not move past it; its first result sorts at or above that match.
   */
  lemma NoProgressAfterZeroField<T(!new)>(hits: seq<T>, p: T -> bool, key: T -> seq<int>, x: T, size: nat)
    requires x in hits && p(x) && |key(x)| > 0
    requires exists f :: 0 <= f < |key(x)| && key(x)[f] == 0
    requires size > 0
    ensures var next := SearchAfter(hits, p, key, CursorOf(key(x)), size);
      |next| > 0 && LexLe(key(x), key(next[0]))
  {
    var c := CursorOf(key(x));
    CursorReadmits(key(x));
    var next := SearchAfter(hits, p, key, c, size);
    var both := And(p, BelowPred(key, c));
    assert x in Filter(hits, both);
    if x in next {
      var j :| 0 <= j < |next| && next[j] == x;
      if j > 0 {
        assert LexLe(key(next[j]), key(next[0]));
      } else {
        LexLeReflexive(key(x));
      }
    }
  }

  /**
   * Two matches with the same key, none of whose fields is 0: the cursor of one excludes
   * the other, so the page after one ending on the first skips the second. A later cursor
   * that re-admits the key through a 0 field can list it again.
   */
  lemma TieIsSkipped<T(!new)>(hits: seq<T>, p: T -> bool, key: T -> seq<int>, x: T, y: T, size: nat)
    requires key(x) == key(y)
    requires forall f :: 0 <= f < |key(x)| ==> key(x)[f] != 0
    ensures y !in SearchAfter(hits, p, key, CursorOf(key(x)), size)
  {
    CursorOfNonzero(key(x));
    BelowExact(key(y), key(x));
  }

  /** When the matches hold no document twice, neither does a `from`/`size` page. */
  lemma SearchFromDistinct<T(!new)>(hits: seq<T>, p: T -> bool, key: T -> seq<int>, from: nat, size: nat)
    requires Distinct(Filter(hits, p))
    ensures Distinct(SearchFrom(hits, p, key, from, size))
  {
    RankedDistinct(hits, p, key);
    var ranked := Ranked(hits, p, key);
    var r := SearchFrom(hits, p, key, from, size);
    forall i, j | 0 <= i < j < |r| ensures r[i] != r[j] {
      assert r[i] == ranked[from + i] && r[j] == ranked[from + j];
    }
  }

  /**
   * Zero-based page `page` of `s` with `itemsPerPage` entries per page; an absent or zero
   * field takes the default, as the `||` operator does.
   */
  function PageAt<T>(s: seq<T>, page: Option<nat>, itemsPerPage: Option<nat>, default: nat): seq<T>
  {
    var size := OrDefault(itemsPerPage, default);
    Slice(s, OrDefault(page, 0) * size, size)
  }

  /** An absent or zero page number is the first page. */
  lemma PageAtFirst<T>(s: seq<T>, page: Option<nat>, itemsPerPage: Option<nat>, default: nat)
    requires page.None? || page == Some(0)
    ensures PageAt(s, page, itemsPerPage, default) == Take(s, OrDefault(itemsPerPage, default))
  {
    var size := OrDefault(itemsPerPage, default);
    assert OrDefault(page, 0) * size == 0;
    TakeSlice(s, 0, size);
  }

  /** The entries before page `page` followed by that page are the entries before the next one. */
  lemma PageAtTiles<T>(s: seq<T>, page: nat, n: nat, default: nat)
    requires n > 0
    ensures Take(s, page * n) + PageAt(s, Some(page), Some(n), default) == Take(s, page * n + n)
  {
    var from := page * n;
    assert OrDefault(Some(page), 0) == page && OrDefault(Some(n), default) == n;
    assert PageAt(s, Some(page), Some(n), default) == Slice(s, from, n);
    TakeSlice(s, from, n);
  }

  /** Offset pages 1 to `k` of size `n`, concatenated. */
  function PagesOf<T>(s: seq<T>, n: nat, k: nat): seq<T>
  {
    if k == 0 then [] else PagesOf(s, n, k - 1) + Slice(s, (k - 1) * n, n)
  }

  /** Offset pages 1 to `k` of size `n` concatenate to the first `k * n` elements. */
  lemma {:induction false} PagesOfPrefix<T>(s: seq<T>, n: nat, k: nat)
    ensures PagesOf(s, n, k) == Take(s, k * n)
  {
    if k > 0 {
      PagesOfPrefix(s, n, k - 1);
      var from := (k - 1) * n;
      TakeSlice(s, from, n);
      assert from + n == k * n;
    }
  }

  /** The number of pages of `n` entries that `count` entries fill: `count / n` rounded up. */
  function CeilDiv(count: nat, n: nat): nat
    requires n > 0
  {
    (count + n - 1) / n
  }

  /** `CeilDiv(count, n)` pages of `n` entries hold at least `count` entries. */
  lemma CeilCovers(count: nat, n: nat)
    requires n > 0
    ensures CeilDiv(count, n) * n >= count
  {
    var q := (count + n - 1) / n;
    var r := (count + n - 1) % n;
    assert count + n - 1 == q * n + r;
  }

  /** Pages 1 to `CeilDiv(|s|, n)` reproduce the whole sequence. */
  lemma PagesOfCeil<T>(s: seq<T>, n: nat)
    requires n > 0
    ensures PagesOf(s, n, CeilDiv(|s|, n)) == s
  {
    var k := CeilDiv(|s|, n);
    PagesOfPrefix(s, n, k);
    CeilCovers(|s|, n);
  }
}
