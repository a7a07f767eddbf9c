/**
 * The ordering applied to a region before it is rendered: a stable sort of
 * views by ascending sort value, using the comparator of
 * src/View/ViewCollection.php:204-213. The `mergesort` helper that the
 * collection calls is not part of this model; in its place stands an
 * insertion sort, specified by the function Sort and proved sorted, a
 * permutation, stable, idempotent and the only arrangement with those
 * properties.
 */
module StableSort {

  import opened AnaxView

  /** The comparator handed to mergesort: negative when `a` sorts before
      `b`, zero on equal sort values, positive otherwise. */
  function Compare(a: View, b: View): (c: int)
    reads a, b
    ensures c == 0 <==> a.sortOrder == b.sortOrder
    ensures c < 0 <==> a.sortOrder < b.sortOrder
    ensures -1 <= c <= 1
  {
    var sortA := a.SortOrder();
    var sortB := b.SortOrder();
    if sortA == sortB then 0
    else if sortA < sortB then -1 else 1
  }

  /** Ascending by sort value. */
  predicate Sorted(s: seq<View>)
    reads set x | x in s
  {
    forall i, j :: 0 <= i < j < |s| ==> s[i].sortOrder <= s[j].sortOrder
  }

  /** The views of `s` whose sort value is `k`, in the order of `s`. */
  function WithKey(s: seq<View>, k: int): seq<View>
    reads set x | x in s
  {
    if s == [] then []
    else (if s[0].sortOrder == k then [s[0]] else []) + WithKey(s[1..], k)
  }

  /** `s` with `v` placed before the first view that sorts strictly after
      it, so behind every view with an equal sort value. */
  function Insert(s: seq<View>, v: View): (r: seq<View>)
    reads (set x | x in s), v
    ensures |r| == |s| + 1
    ensures forall x | x in r :: x in s || x == v
  {
    if s == [] then [v]
    else if Compare(s[0], v) > 0 then [v] + s
    else
      assert s == [s[0]] + s[1..];
      [s[0]] + Insert(s[1..], v)
  }

  /** The stable sort: each view in turn is inserted into the sorted
      arrangement of the views before it. */
  function Sort(s: seq<View>): (r: seq<View>)
    reads set x | x in s
    ensures |r| == |s|
    ensures forall x | x in r :: x in s
  {
    if s == [] then []
    else
      var n := |s| - 1;
      Insert(Sort(s[..n]), s[n])
  }

  lemma {:induction false} InsertPermutes(s: seq<View>, v: View)
    ensures multiset(Insert(s, v)) == multiset(s) + multiset{v}
  {
    if s != [] && Compare(s[0], v) <= 0 {
      InsertPermutes(s[1..], v);
      assert s == [s[0]] + s[1..];
    }
  }

  /** The sorted arrangement holds exactly the views it was given, each as
      often as before. */
  lemma {:induction false} SortPermutes(s: seq<View>)
    ensures multiset(Sort(s)) == multiset(s)
  {
    if s != [] {
      var n := |s| - 1;
      SortPermutes(s[..n]);
      InsertPermutes(Sort(s[..n]), s[n]);
      assert s == s[..n] + [s[n]];
    }
  }

  lemma {:induction false} WithKeyAppend(a: seq<View>, b: seq<View>, k: int)
    ensures WithKey(a + b, k) == WithKey(a, k) + WithKey(b, k)
  {
    if a != [] {
      assert (a + b)[1..] == a[1..] + b;
      WithKeyAppend(a[1..], b, k);
    } else {
      assert a + b == b;
    }
  }

  /** Every view with key `k` is in WithKey(s, k). */
  lemma {:induction false} WithKeyMember(s: seq<View>, i: int)
    requires 0 <= i < |s|
    ensures WithKey(s, s[i].sortOrder) != []
  {
    if i > 0 {
      WithKeyMember(s[1..], i - 1);
    }
  }

  /** Every view in WithKey(s, k) carries key `k`. */
  lemma {:induction false} WithKeyKeys(s: seq<View>, k: int)
    ensures forall v | v in WithKey(s, k) :: v.sortOrder == k
  {
    if s != [] {
      WithKeyKeys(s[1..], k);
    }
  }

  /** A key every view of `s` exceeds selects nothing. */
  lemma {:induction false} WithKeyAbove(s: seq<View>, k: int)
    requires forall i | 0 <= i < |s| :: s[i].sortOrder > k
    ensures WithKey(s, k) == []
  {
    if s != [] {
      WithKeyAbove(s[1..], k);
    }
  }

  lemma {:induction false} InsertSorted(s: seq<View>, v: View)
    requires Sorted(s)
    ensures Sorted(Insert(s, v))
  {
    if s != [] && Compare(s[0], v) <= 0 {
      InsertSorted(s[1..], v);
      var r := Insert(s[1..], v);
      forall j | 0 <= j < |r|
        ensures s[0].sortOrder <= r[j].sortOrder
      {
        assert r[j] in r;
        if r[j] != v {
          var m :| 0 <= m < |s[1..]| && s[1..][m] == r[j];
          assert s[m + 1] == r[j];
        }
      }
    }
  }

  /** The sorted arrangement is sorted. */
  lemma {:induction false} SortSorted(s: seq<View>)
    ensures Sorted(Sort(s))
  {
    if s != [] {
      var n := |s| - 1;
      SortSorted(s[..n]);
      InsertSorted(Sort(s[..n]), s[n]);
    }
  }

  /** Inserting into a sorted sequence puts `v` behind every view with
      the same key and disturbs no other key's order. */
  lemma {:induction false} InsertWithKey(s: seq<View>, v: View, k: int)
    requires Sorted(s)
    ensures WithKey(Insert(s, v), k) == WithKey(s, k) + (if v.sortOrder == k then [v] else [])
  {
    if s == [] {
      assert WithKey([v], k) == (if v.sortOrder == k then [v] else []) + WithKey([], k);
    } else if Compare(s[0], v) > 0 {
      assert ([v] + s)[1..] == s;
      if v.sortOrder == k {
        WithKeyAbove(s, k);
      }
    } else {
      var r := [s[0]] + Insert(s[1..], v);
      assert r[1..] == Insert(s[1..], v);
      InsertWithKey(s[1..], v, k);
    }
  }

  /** Stability: for every key, the views with that key keep the order
      they had before sorting. */
  lemma {:induction false} SortStable(s: seq<View>, k: int)
    ensures WithKey(Sort(s), k) == WithKey(s, k)
  {
    if s != [] {
      var n := |s| - 1;
      var p, v := s[..n], s[n];
      assert Sort(s) == Insert(Sort(p), v);
      SortStable(p, k);
      SortSorted(p);
      InsertWithKey(Sort(p), v, k);
      assert s == p + [v];
      WithKeyAppend(p, [v], k);
      WithKeySingle(v, k);
    }
  }

  lemma WithKeySingle(v: View, k: int)
    ensures WithKey([v], k) == if v.sortOrder == k then [v] else []
  {
    assert [v][1..] == [];
  }

  /** Inserting a view that sorts at or after every view appends it. */
  lemma {:induction false} InsertLast(s: seq<View>, v: View)
    requires forall i | 0 <= i < |s| :: s[i].sortOrder <= v.sortOrder
    ensures Insert(s, v) == s + [v]
  {
    if s != [] {
      InsertLast(s[1..], v);
      assert s == [s[0]] + s[1..];
    }
  }

  /** Sorting an already sorted sequence changes nothing; in particular
      sorting twice is sorting once. */
  lemma {:induction false} SortIdempotent(s: seq<View>)
    ensures Sorted(s) ==> Sort(s) == s
    ensures Sort(Sort(s)) == Sort(s)
  {
    SortSortedIsIdentity(s);
    SortSorted(s);
    SortSortedIsIdentity(Sort(s));
  }

  lemma {:induction false} SortSortedIsIdentity(s: seq<View>)
    ensures Sorted(s) ==> Sort(s) == s
  {
    if s != [] && Sorted(s) {
      var n := |s| - 1;
      assert Sorted(s[..n]);
      SortSortedIsIdentity(s[..n]);
      InsertLast(s[..n], s[n]);
      assert s[..n] + [s[n]] == s;
    }
  }

  /** Two sorted sequences that agree, key by key, on the order of their
      views are the same sequence. */
  lemma {:induction false} SameKeyOrderEqual(a: seq<View>, b: seq<View>)
    requires Sorted(a) && Sorted(b)
    requires forall k :: WithKey(a, k) == WithKey(b, k)
    ensures a == b
    decreases |a|
  {
    if a == [] && b == [] {
      return;
    }
    if a == [] {
      WithKeyMember(b, 0);
      return;
    }
    if b == [] {
      WithKeyMember(a, 0);
      return;
    }
    var ka, kb := a[0].sortOrder, b[0].sortOrder;
    KeyFirstIsLeast(a, b, ka);
    KeyFirstIsLeast(b, a, kb);
    assert ka == kb;
    assert WithKey(a, ka) == [a[0]] + WithKey(a[1..], ka);
    assert WithKey(b, ka) == [b[0]] + WithKey(b[1..], ka);
    assert WithKey(a, ka) == WithKey(b, ka);
    assert a[0] == WithKey(a, ka)[0] == WithKey(b, ka)[0] == b[0];
    forall k
      ensures WithKey(a[1..], k) == WithKey(b[1..], k)
    {
      var head := if a[0].sortOrder == k then [a[0]] else [];
      assert WithKey(a, k) == head + WithKey(a[1..], k);
      assert WithKey(b, k) == head + WithKey(b[1..], k);
      assert WithKey(a, k) == WithKey(b, k);
      assert WithKey(a[1..], k) == WithKey(a, k)[|head|..];
      assert WithKey(b[1..], k) == WithKey(b, k)[|head|..];
    }
    SameKeyOrderEqual(a[1..], b[1..]);
    assert a == [a[0]] + a[1..] && b == [b[0]] + b[1..];
  }

  /** If `a` holds a view with key `k`, the first view of sorted `b` has a
      key no greater than `k` when the two agree key by key. */
  lemma KeyFirstIsLeast(a: seq<View>, b: seq<View>, k: int)
    requires Sorted(b) && b != []
    requires a != [] && a[0].sortOrder == k
    requires WithKey(a, k) == WithKey(b, k)
    ensures b[0].sortOrder <= k
  {
    WithKeyMember(a, 0);
    var w := WithKey(b, k);
    WithKeyKeys(b, k);
    WithKeyIn(b, k, w[0]);
    var i :| 0 <= i < |b| && b[i] == w[0];
    assert b[i].sortOrder == k;
  }

  lemma {:induction false} WithKeyIn(s: seq<View>, k: int, v: View)
    requires v in WithKey(s, k)
    ensures v in s
  {
    if s != [] && v != s[0] {
      assert v in WithKey(s[1..], k);
      WithKeyIn(s[1..], k, v);
    }
  }

  /** Sort is the only stable sort: any sorted arrangement that keeps each
      key's views in their original order equals Sort(s). */
  lemma SortUnique(s: seq<View>, t: seq<View>)
    requires Sorted(t)
    requires forall k :: WithKey(t, k) == WithKey(s, k)
    ensures t == Sort(s)
  {
    SortSorted(s);
    forall k
      ensures WithKey(t, k) == WithKey(Sort(s), k)
    {
      SortStable(s, k);
    }
    SameKeyOrderEqual(t, Sort(s));
  }

  /** One step of the scan: a view that does not sort after `v` stays
      in front of it. */
  lemma InsertStep(r: seq<View>, v: View, j: int)
    requires 0 <= j < |r| && r[j].sortOrder <= v.sortOrder
    ensures r[..j] + Insert(r[j..], v) == r[..j + 1] + Insert(r[j + 1..], v)
  {
    assert r[j..] == [r[j]] + r[j + 1..];
    assert r[..j] + [r[j]] == r[..j + 1];
  }

  /** The end of the scan: `v` goes in where the scan stopped. */
  lemma InsertStop(r: seq<View>, v: View, j: int)
    requires 0 <= j <= |r|
    requires j < |r| ==> r[j].sortOrder > v.sortOrder
    ensures Insert(r[j..], v) == [v] + r[j..]
  {
  }

  /** The insertion step of SortViews: scans `r` from the front and puts
      `v` before the first view the comparator places after it. */
  method InsertView(r: seq<View>, v: View) returns (t: seq<View>)
    ensures t == Insert(r, v)
  {
    var j := 0;
    while j < |r| && Compare(r[j], v) <= 0
      invariant 0 <= j <= |r|
      invariant Insert(r, v) == r[..j] + Insert(r[j..], v)
    {
      InsertStep(r, v, j);
      j := j + 1;
    }
    InsertStop(r, v, j);
    assert r[..j] + ([v] + r[j..]) == r[..j] + [v] + r[j..];
    t := r[..j] + [v] + r[j..];
  }

  /** The sort the collection runs before rendering a region: insertion
      sort, one view at a time, stopping each scan at the first view that
      the comparator puts after the new one. */
  method SortViews(s: seq<View>) returns (r: seq<View>)
    ensures r == Sort(s)
  {
    r := [];
    var i := 0;
    while i < |s|
      invariant 0 <= i <= |s|
      invariant r == Sort(s[..i])
    {
      assert s[..i + 1][..i] == s[..i];
      ghost var next := Sort(s[..i + 1]);
      assert next == Insert(r, s[i]);
      r := InsertView(r, s[i]);
      assert r == next;
      i := i + 1;
    }
    assert s[..|s|] == s;
  }
}
