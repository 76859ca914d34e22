/**
 * Sort tuples and `search_after` cursors. Every listing of the index sorts on a fixed
 * tuple of integer fields, all descending, and resumes strictly after a cursor tuple.
 */
module SortOrder {
  import opened Common

  /** Non-strict lexicographic order on sort tuples (a proper prefix sorts first). */
  predicate LexLe(a: seq<int>, b: seq<int>)
    decreases |a|
  {
    |a| == 0 || (|b| > 0 && (a[0] < b[0] || (a[0] == b[0] && LexLe(a[1..], b[1..]))))
  }

  predicate LexLess(a: seq<int>, b: seq<int>)
  {
    LexLe(a, b) && a != b
  }

  lemma {:induction false} LexLeReflexive(a: seq<int>)
    ensures LexLe(a, a)
    decreases |a|
  {
    if |a| > 0 {
      LexLeReflexive(a[1..]);
    }
  }

  lemma {:induction false} LexLeTotal(a: seq<int>, b: seq<int>)
    ensures LexLe(a, b) || LexLe(b, a)
    decreases |a|
  {
    if |a| > 0 && |b| > 0 && a[0] == b[0] {
      LexLeTotal(a[1..], b[1..]);
    }
  }

  lemma {:induction false} LexLeTransitive(a: seq<int>, b: seq<int>, c: seq<int>)
    requires LexLe(a, b) && LexLe(b, c)
    ensures LexLe(a, c)
    decreases |a|
  {
    if |a| > 0 && a[0] == b[0] && b[0] == c[0] {
      LexLeTransitive(a[1..], b[1..], c[1..]);
    }
  }

  lemma {:induction false} LexLeAntisymmetric(a: seq<int>, b: seq<int>)
    requires LexLe(a, b) && LexLe(b, a)
    ensures a == b
    decreases |a|
  {
    if |a| > 0 {
      LexLeAntisymmetric(a[1..], b[1..]);
      assert a == [a[0]] + a[1..] && b == [b[0]] + b[1..];
    }
  }

  /** A cursor field: a concrete value, or `Number.MAX_VALUE`, which lies above every integer. */
  datatype Bound = Max | Val(n: int)

  /** A cursor field built as `(params && params.field) || Number.MAX_VALUE`. */
  function CursorField(field: Option<int>): (b: Bound)
    ensures b.Max? <==> field.None? || field.value == 0
    ensures b.Val? ==> field == Some(b.n)
  {
    if field.Some? && field.value != 0 then Val(field.value) else Max
  }

  /** The cursor of a first page: every field at its maximum. */
  function Top(width: nat): (c: seq<Bound>)
    ensures |c| == width && forall i :: 0 <= i < width ==> c[i] == Max
  {
    seq(width, _ => Max)
  }

  /**
   * `search_after` on a descending sort: key `k` comes strictly after the cursor `c`,
   * that is, `k` is lexicographically below `c` with `Max` above every integer.
   */
  predicate BelowCursor(k: seq<int>, c: seq<Bound>)
    decreases |k|
  {
    && |k| > 0 && |c| > 0
    && (c[0].Max? || k[0] < c[0].n || (k[0] == c[0].n && BelowCursor(k[1..], c[1..])))
  }

  /** The cursor a client sends after a page: the last record's key, field by field through `||`. */
  function CursorOf(k: seq<int>): (c: seq<Bound>)
    ensures |c| == |k|
    ensures forall i :: 0 <= i < |k| ==> c[i] == CursorField(Some(k[i]))
  {
    seq(|k|, i requires 0 <= i < |k| => CursorField(Some(k[i])))
  }

  /** The cursor that repeats a key exactly, with no field replaced by `Max`. */
  function Exact(k: seq<int>): (c: seq<Bound>)
    ensures |c| == |k| && forall i :: 0 <= i < |k| ==> c[i] == Val(k[i])
  {
    seq(|k|, i requires 0 <= i < |k| => Val(k[i]))
  }

  /** Every nonempty key lies below the first-page cursor of its width. */
  lemma BelowTop(k: seq<int>)
    requires |k| > 0
    ensures BelowCursor(k, Top(|k|))
  {
  }

  /** Below an exact cursor means strictly below in lexicographic order. */
  lemma {:induction false} BelowExact(k: seq<int>, c: seq<int>)
    requires |k| == |c|
    ensures BelowCursor(k, Exact(c)) <==> LexLess(k, c)
    decreases |k|
  {
    if |k| > 0 {
      BelowExact(k[1..], c[1..]);
      assert Exact(c)[1..] == Exact(c[1..]);
      assert k == [k[0]] + k[1..] && c == [c[0]] + c[1..];
    }
  }

  /** When no field of the key is 0, the `||` defaults leave the cursor exact. */
  lemma CursorOfNonzero(k: seq<int>)
    requires forall i :: 0 <= i < |k| ==> k[i] != 0
    ensures CursorOf(k) == Exact(k)
  {
  }

  /**
   * The `||` quirk: the cursor formed from a key admits that same key again exactly when
   * some field of the key is 0, because that field becomes `Number.MAX_VALUE`.
   */
  lemma {:induction false} CursorReadmits(k: seq<int>)
    requires |k| > 0
    ensures BelowCursor(k, CursorOf(k)) <==> exists i :: 0 <= i < |k| && k[i] == 0
    decreases |k|
  {
    if k[0] != 0 {
      if |k| == 1 {
        assert !BelowCursor(k[1..], CursorOf(k)[1..]);
      } else {
        CursorReadmits(k[1..]);
        assert CursorOf(k)[1..] == CursorOf(k[1..]);
        if exists i :: 0 <= i < |k[1..]| && k[1..][i] == 0 {
          var i :| 0 <= i < |k[1..]| && k[1..][i] == 0;
          assert k[i + 1] == 0;
        }
        if exists i :: 0 <= i < |k| && k[i] == 0 {
          var i :| 0 <= i < |k| && k[i] == 0;
          assert k[1..][i - 1] == 0;
        }
      }
    }
  }

  /** Being below a cursor is inherited by every key that sorts lower. */
  lemma {:induction false} BelowMonotone(a: seq<int>, b: seq<int>, c: seq<Bound>)
    requires |a| == |b| && LexLe(a, b) && BelowCursor(b, c)
    ensures BelowCursor(a, c)
    decreases |a|
  {
    if c[0].Val? && a[0] == b[0] && b[0] == c[0].n {
      BelowMonotone(a[1..], b[1..], c[1..]);
    }
  }
}
