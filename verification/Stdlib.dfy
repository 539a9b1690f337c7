/** `sort` (a heap sort in place) and `binary_search` of `lib/stdlib.c`. */
module Stdlib {
  import opened Wrappers
  import opened Order

  /** What a `strcmp`-type function has to satisfy.  The laws are used for the values that are
      named with `CompareLaw`. */
  ghost predicate Comparison<T(!new)>(compare: (T, T) -> int) {
    forall x, y, z {:trigger Named(x, y, z)} :: Named(x, y, z) ==>
      && (compare(x, y) > 0 <==> compare(y, x) < 0)
      && (compare(x, y) >= 0 && compare(y, z) >= 0 ==> compare(x, z) >= 0)
  }

  lemma CompareLaw<T(!new)>(x: T, y: T, z: T, compare: (T, T) -> int)
    requires Comparison(compare)
    ensures compare(x, y) > 0 <==> compare(y, x) < 0
    ensures compare(y, x) > 0 <==> compare(x, y) < 0
    ensures compare(x, x) == 0
    ensures compare(x, y) >= 0 && compare(y, z) >= 0 ==> compare(x, z) >= 0
  {
    assert Named(x, y, z) && Named(y, x, z) && Named(x, x, x);
  }

  // ---- heaps

  /** Element `j`, counted from one, does not exceed its parent. */
  predicate BelowParent<T>(s: seq<T>, j: nat, compare: (T, T) -> int)
    requires 2 <= j <= |s|
  {
    compare(s[j / 2 - 1], s[j - 1]) >= 0
  }

  /** The elements up to `cnt` are a heap as far as the subtrees from `lo` on are concerned. */
  ghost predicate Heap<T>(s: seq<T>, lo: nat, cnt: nat, compare: (T, T) -> int)
    requires 1 <= lo && cnt <= |s|
  {
    forall j: nat :: 2 <= j <= cnt && lo <= j / 2 ==> BelowParent(s, j, compare)
  }

  /** A heap but for the element at `hole`, which may be too small. */
  ghost predicate HeapBut<T>(s: seq<T>, lo: nat, cnt: nat, hole: nat, compare: (T, T) -> int)
    requires 1 <= lo <= hole <= cnt <= |s|
  {
    && (forall j: nat :: 2 <= j <= cnt && lo <= j / 2 && j / 2 != hole ==> BelowParent(s, j, compare))
    && (forall j: nat :: 2 <= j <= cnt && j / 2 == hole && lo <= hole / 2 ==> compare(s[hole / 2 - 1], s[j - 1]) >= 0)
  }

  /** Elements `i` and `j` exchanged. */
  function Swapped<T>(s: seq<T>, i: nat, j: nat): (r: seq<T>)
    requires 1 <= i <= |s| && 1 <= j <= |s|
    ensures |r| == |s|
  {
    s[i - 1 := s[j - 1]][j - 1 := s[i - 1]]
  }

  lemma SwapKeeps<T>(s: seq<T>, i: nat, j: nat, cnt: nat)
    requires 1 <= i <= cnt <= |s| && 1 <= j <= cnt
    ensures multiset(Swapped(s, i, j)[..cnt]) == multiset(s[..cnt]) && Swapped(s, i, j)[cnt..] == s[cnt..]
  {
    assert Swapped(s, i, j)[..cnt] == Swapped(s[..cnt], i, j);
  }

  /** Floating the element down one level moves the hole to its larger child. */
  lemma FloatDown<T(!new)>(s: seq<T>, lo: nat, cnt: nat, i: nat, m: nat, compare: (T, T) -> int)
    requires Comparison(compare) && 1 <= lo <= i <= cnt <= |s| && HeapBut(s, lo, cnt, i, compare)
    requires 2 <= m <= cnt && m / 2 == i && compare(s[m - 1], s[i - 1]) > 0
    requires forall j: nat :: 2 <= j <= cnt && j / 2 == i ==> compare(s[m - 1], s[j - 1]) >= 0
    ensures HeapBut(Swapped(s, i, m), lo, cnt, m, compare)
  {
    var s' := Swapped(s, i, m);
    forall j: nat | 2 <= j <= cnt && lo <= j / 2 && j / 2 != m
      ensures BelowParent(s', j, compare)
    {
      if j / 2 != i { assert BelowParent(s, j, compare); }
    }
    forall j: nat | 2 <= j <= cnt && j / 2 == m
      ensures compare(s'[m / 2 - 1], s'[j - 1]) >= 0
    {
      assert BelowParent(s, j, compare);
    }
  }

  /** Where the element is no smaller than its children there is no hole. */
  lemma Floated<T(!new)>(s: seq<T>, lo: nat, cnt: nat, i: nat, compare: (T, T) -> int)
    requires 1 <= lo <= i <= cnt <= |s| && HeapBut(s, lo, cnt, i, compare)
    requires forall j: nat :: 2 <= j <= cnt && j / 2 == i ==> compare(s[i - 1], s[j - 1]) >= 0
    ensures Heap(s, lo, cnt, compare)
  {
  }

  /** `heapify`, for a heap from `lo` on but for element `i0`. */
  method Heapify<T(!new)>(a: array<T>, i0: nat, cnt: nat, compare: (T, T) -> int, ghost lo: nat)
    requires Comparison(compare) && 1 <= lo <= i0 <= cnt <= a.Length && HeapBut(a[..], lo, cnt, i0, compare)
    modifies a
    ensures Heap(a[..], lo, cnt, compare)
    ensures multiset(a[..cnt]) == multiset(old(a[..cnt])) && a[cnt..] == old(a[cnt..])
  {
    var i := i0;
    while true
      invariant lo <= i <= cnt && HeapBut(a[..], lo, cnt, i, compare)
      invariant multiset(a[..][..cnt]) == multiset(old(a[..])[..cnt]) && a[..][cnt..] == old(a[..])[cnt..]
      decreases cnt - i
    {
      var m := LargerChild(a[..], i, cnt, compare);
      if m == i {
        Floated(a[..], lo, cnt, i, compare);
        break;
      }
      FloatDown(a[..], lo, cnt, i, m, compare);
      SwapKeeps(a[..], i, m, cnt);
      Swap(a, i, m);
      i := m;
    }
    assert a[..cnt] == a[..][..cnt] && a[cnt..] == a[..][cnt..];
  }

  /** The largest of an element and its children. */
  method LargerChild<T(!new)>(s: seq<T>, i: nat, cnt: nat, compare: (T, T) -> int) returns (m: nat)
    requires Comparison(compare) && 1 <= i <= cnt <= |s|
    ensures m == i || (2 <= m <= cnt && m / 2 == i && compare(s[m - 1], s[i - 1]) > 0)
    ensures forall j: nat :: 2 <= j <= cnt && j / 2 == i ==> compare(s[m - 1], s[j - 1]) >= 0
  {
    var left, right := 2 * i, 2 * i + 1;
    m := i;
    if left <= cnt {
      CompareLaw(s[left - 1], s[i - 1], s[i - 1], compare);
    }
    if left <= cnt && compare(s[left - 1], s[m - 1]) > 0 {
      m := left;
    }
    if right <= cnt {
      CompareLaw(s[right - 1], s[m - 1], s[i - 1], compare);
      CompareLaw(s[right - 1], s[m - 1], s[left - 1], compare);
      CompareLaw(s[i - 1], s[right - 1], s[m - 1], compare);
    }
    if right <= cnt && compare(s[right - 1], s[m - 1]) > 0 {
      m := right;
    }
  }

  method Swap<T>(a: array<T>, i: nat, j: nat)
    requires 1 <= i <= a.Length && 1 <= j <= a.Length
    modifies a
    ensures a[..] == Swapped(old(a[..]), i, j)
  {
    a[i - 1], a[j - 1] := a[j - 1], a[i - 1];
  }

  /** The root of a heap is its largest element. */
  lemma {:induction false} RootLargest<T(!new)>(s: seq<T>, cnt: nat, j: nat, compare: (T, T) -> int)
    requires Comparison(compare) && 1 <= j <= cnt <= |s| && Heap(s, 1, cnt, compare)
    ensures compare(s[0], s[j - 1]) >= 0
    decreases j
  {
    CompareLaw(s[0], s[0], s[0], compare);
    if j > 1 {
      RootLargest(s, cnt, j / 2, compare);
      assert BelowParent(s, j, compare);
      CompareLaw(s[0], s[j / 2 - 1], s[j - 1], compare);
    }
  }

  // ---- sorting

  /** The elements from index `k` on are in order, and none before exceeds them. */
  ghost predicate SortedFrom<T>(s: seq<T>, k: nat, compare: (T, T) -> int) {
    forall p, q :: 0 <= p < q < |s| && k <= q ==> compare(s[q], s[p]) >= 0
  }

  lemma FrontPermuted<T(!new)>(s: seq<T>, s': seq<T>, k: nat, compare: (T, T) -> int)
    requires k <= |s| == |s'| && SortedFrom(s, k, compare)
    requires multiset(s'[..k]) == multiset(s[..k]) && s'[k..] == s[k..]
    ensures SortedFrom(s', k, compare)
  {
    forall p, q | 0 <= p < q < |s'| && k <= q
      ensures compare(s'[q], s'[p]) >= 0
    {
      assert s'[q] == s'[k..][q - k] == s[k..][q - k] == s[q];
      if p < k {
        assert s'[p] in multiset(s'[..k]);
        var p' :| 0 <= p' < k && s[..k][p'] == s'[p];
        assert s[p'] == s'[p];
      } else {
        assert s'[p] == s'[k..][p - k] == s[k..][p - k] == s[p];
      }
    }
  }

  /** Moving the root behind the heap. */
  lemma RootMoved<T(!new)>(s: seq<T>, i: nat, compare: (T, T) -> int)
    requires Comparison(compare) && 2 <= i <= |s| && Heap(s, 1, i, compare) && SortedFrom(s, i, compare)
    ensures SortedFrom(Swapped(s, 1, i), i - 1, compare)
    ensures HeapBut(Swapped(s, 1, i), 1, i - 1, 1, compare)
  {
    var s' := Swapped(s, 1, i);
    SwapKeeps(s, 1, i, i);
    FrontPermuted(s, s', i, compare);
    forall p | 0 <= p < i - 1
      ensures compare(s'[i - 1], s'[p]) >= 0
    {
      RootLargest(s, i, if p == 0 then i else p + 1, compare);
    }
    forall j: nat | 2 <= j <= i - 1 && j / 2 != 1
      ensures BelowParent(s', j, compare)
    {
      assert BelowParent(s, j, compare);
    }
  }

  method Sort<T(!new)>(a: array<T>, compare: (T, T) -> int)
    requires Comparison(compare)
    modifies a
    ensures SortedFrom(a[..], 0, compare)
    ensures multiset(a[..]) == multiset(old(a[..]))
  {
    BuildHeap(a, compare);
    var i := a.Length;
    while i > 1
      invariant 0 <= i <= a.Length && (a.Length > 0 ==> 1 <= i)
      invariant Heap(a[..], 1, i, compare) && SortedFrom(a[..], i, compare)
      invariant multiset(a[..]) == multiset(old(a[..]))
    {
      SortStep(a, i, compare);
      i := i - 1;
    }
  }

  method BuildHeap<T(!new)>(a: array<T>, compare: (T, T) -> int)
    requires Comparison(compare)
    modifies a
    ensures Heap(a[..], 1, a.Length, compare) && multiset(a[..]) == multiset(old(a[..]))
  {
    var i := a.Length / 2;
    while i > 0
      invariant 0 <= i <= a.Length / 2 && Heap(a[..], i + 1, a.Length, compare)
      invariant multiset(a[..]) == multiset(old(a[..]))
    {
      assert a[..a.Length] == a[..];
      Heapify(a, i, a.Length, compare, i);
      assert a[..a.Length] == a[..];
      i := i - 1;
    }
  }

  method SortStep<T(!new)>(a: array<T>, i: nat, compare: (T, T) -> int)
    requires Comparison(compare) && 2 <= i <= a.Length && Heap(a[..], 1, i, compare) && SortedFrom(a[..], i, compare)
    modifies a
    ensures Heap(a[..], 1, i - 1, compare) && SortedFrom(a[..], i - 1, compare)
    ensures multiset(a[..]) == multiset(old(a[..]))
  {
    RootMoved(a[..], i, compare);
    SwapKeeps(a[..], 1, i, a.Length);
    Swap(a, 1, i);
    ghost var s := a[..];
    assert multiset(s) == multiset(old(a[..])) by {
      assert s[..a.Length] == s && old(a[..])[..a.Length] == old(a[..]);
    }
    Heapify(a, 1, i - 1, compare, 1);
    assert a[..i - 1] == a[..][..i - 1] && a[i - 1..] == a[..][i - 1..];
    FrontPermuted(s, a[..], i - 1, compare);
    SamePieces(s, a[..], i - 1);
  }

  lemma SamePieces<T>(s: seq<T>, s': seq<T>, k: nat)
    requires k <= |s| == |s'| && multiset(s'[..k]) == multiset(s[..k]) && s'[k..] == s[k..]
    ensures multiset(s') == multiset(s)
  {
    assert s == s[..k] + s[k..] && s' == s'[..k] + s'[k..];
  }

  // ---- searching

  /** Finds a match exactly when there is one. */
  method BinarySearch<T(!new)>(key: T, s: seq<T>, compare: (T, T) -> int) returns (r: Option<nat>)
    requires Comparison(compare) && SortedFrom(s, 0, compare)
    ensures r.Some? ==> r.value < |s| && compare(key, s[r.value]) == 0
    ensures r.None? ==> forall k :: 0 <= k < |s| ==> compare(key, s[k]) != 0
  {
    var first, last := 0, |s|;
    while first < last
      invariant 0 <= first <= last <= |s|
      invariant forall k :: 0 <= k < first ==> compare(key, s[k]) > 0
      invariant forall k :: last <= k < |s| ==> compare(key, s[k]) < 0
    {
      var middle := first + (last - first) / 2;
      var cmp := compare(key, s[middle]);
      if cmp < 0 {
        forall k | middle <= k < |s| ensures compare(key, s[k]) < 0 { CompareLaw(key, s[k], s[middle], compare); }
        last := middle;
      } else if cmp > 0 {
        forall k | 0 <= k <= middle ensures compare(key, s[k]) > 0 { BeyondMiddle(key, s, k, middle, compare); }
        first := middle + 1;
      } else {
        return Some(middle);
      }
    }
    return None;
  }

  lemma BeyondMiddle<T(!new)>(key: T, s: seq<T>, k: nat, middle: nat, compare: (T, T) -> int)
    requires Comparison(compare) && SortedFrom(s, 0, compare) && k <= middle < |s| && compare(key, s[middle]) > 0
    ensures compare(key, s[k]) > 0
  {
    CompareLaw(key, s[middle], s[k], compare);
    CompareLaw(key, s[k], s[k], compare);
    CompareLaw(s[middle], s[k], key, compare);
  }
}
