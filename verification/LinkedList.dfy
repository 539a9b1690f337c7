/** The intrusive doubly linked list of `lib/kernel/list.c`, on real nodes.

    A list is a chain of elements between a head and a tail element.  The pointer routines
    know only elements; the chain they belong to is a ghost argument. */
module LinkedList {
  import opened Order

  class Elem<K(0)> {
    var prev: Elem?<K>
    var next: Elem?<K>
    const key: K

    constructor (k: K)
      ensures key == k
    {
      key := k;
    }
  }

  /** What `less` compares: the part of the embedding structure that it reads. */
  function Key<K(0)>(e: Elem<K>): K { e.key }

  ghost function Nodes<K(0)>(c: seq<Elem<K>>): set<Elem<K>> { set x | x in c }

  /** `prev` and `next` agree, the head has no `prev` and the tail no `next`. */
  ghost predicate Chained<K(0)>(c: seq<Elem<K>>)
    reads c
  {
    && |c| >= 2
    && Distinct(c)
    && c[0].prev == null && c[|c| - 1].next == null
    && (forall i {:trigger c[i].next} :: 0 <= i < |c| - 1 ==> c[i].next == c[i + 1])
    && (forall i {:trigger c[i].prev} :: 0 < i < |c| ==> c[i].prev == c[i - 1])
  }

  // ---- insertion and removal

  method Insert<K(0)>(ghost c: seq<Elem<K>>, ghost i: nat, before: Elem<K>, elem: Elem<K>)
    requires Chained(c) && 0 < i < |c| && c[i] == before
    requires elem !in c
    modifies Nodes(c), elem
    ensures Chained(InsertAt(c, i, elem))
  {
    elem.prev := before.prev;
    elem.next := before;
    before.prev.next := elem;
    before.prev := elem;
  }

  method Remove<K(0)>(ghost c: seq<Elem<K>>, ghost i: nat, elem: Elem<K>) returns (next: Elem<K>)
    requires Chained(c) && 0 < i < |c| - 1 && c[i] == elem
    modifies Nodes(c)
    ensures Chained(c[..i] + c[i + 1..]) && next == c[i + 1]
  {
    elem.prev.next := elem.next;
    elem.next.prev := elem.prev;
    next := elem.next;
  }

  /** No element in common. */
  ghost predicate Apart<T>(g: seq<T>, d: seq<T>) {
    forall a, b :: 0 <= a < |g| && 0 <= b < |d| ==> g[a] != d[b]
  }

  /** A run of elements linked to each other, whatever its ends point to. */
  ghost predicate Segment<K(0)>(g: seq<Elem<K>>)
    reads g
  {
    && Distinct(g)
    && (forall i {:trigger g[i].next} :: 0 <= i < |g| - 1 ==> g[i].next == g[i + 1])
    && (forall i {:trigger g[i].prev} :: 0 < i < |g| ==> g[i].prev == g[i - 1])
  }

  /** `c` without the elements from index `f` to `l`. */
  ghost function Cut<T>(c: seq<T>, f: nat, l: nat): (r: seq<T>)
    requires f <= l <= |c|
    ensures |r| == |c| - (l - f)
  {
    c[..f] + c[l..]
  }

  /** `d` with `g` put in front of index `i`. */
  ghost function Pasted<T>(d: seq<T>, i: nat, g: seq<T>): (r: seq<T>)
    requires i <= |d|
    ensures |r| == |d| + |g|
  {
    d[..i] + g + d[i..]
  }

  method Unlink<K(0)>(ghost c: seq<Elem<K>>, ghost f: nat, ghost l: nat, first: Elem<K>, end: Elem<K>)
    requires Chained(c) && 0 < f < l < |c| && c[f] == first && c[l - 1] == end
    modifies Nodes(c)
    ensures Chained(Cut(c, f, l)) && Segment(c[f..l])
  {
    first.prev.next := end.next;
    end.next.prev := first.prev;
  }

  method Link<K(0)>(ghost d: seq<Elem<K>>, ghost i: nat, ghost g: seq<Elem<K>>,
                    before: Elem<K>, first: Elem<K>, end: Elem<K>)
    requires Chained(d) && 0 < i < |d| && d[i] == before
    requires Segment(g) && g != [] && g[0] == first && g[|g| - 1] == end
    requires Apart(g, d)
    modifies Nodes(d), Nodes(g)
    ensures Chained(Pasted(d, i, g))
  {
    first.prev := before.prev;
    end.next := before;
    before.prev.next := first;
    before.prev := end;
    ghost var r := Pasted(d, i, g);
    assert Distinct(r) by { PastedDistinct(d, i, g); }
  }

  lemma PastedDistinct<T>(d: seq<T>, i: nat, g: seq<T>)
    requires i <= |d|
    requires Distinct(d) && Distinct(g) && Apart(g, d)
    ensures Distinct(Pasted(d, i, g))
  {
    var r := Pasted(d, i, g);
    forall a, b | 0 <= a < b < |r|
      ensures r[a] != r[b]
    {
    }
  }

  lemma CutApart<T>(c: seq<T>, f: nat, l: nat)
    requires f <= l <= |c| && Distinct(c)
    ensures Apart(c[f..l], Cut(c, f, l))
    ensures forall x :: x in Cut(c, f, l) || x in c[f..l] ==> x in c
  {
  }

  /** Move the elements `first` up to `last` in front of `before`, within one list. */
  method Splice<K(0)>(ghost c: seq<Elem<K>>, ghost f: nat, ghost l: nat, ghost i: nat,
                      before: Elem<K>, first: Elem<K>, last: Elem<K>)
    returns (ghost r: seq<Elem<K>>)
    requires Chained(c) && 0 < f <= l < |c| && c[f] == first && c[l] == last
    requires 0 < i < |Cut(c, f, l)| && Cut(c, f, l)[i] == before
    modifies Nodes(c)
    ensures r == Pasted(Cut(c, f, l), i, c[f..l])
    ensures Chained(r)
  {
    r := Pasted(Cut(c, f, l), i, c[f..l]);
    if first == last {
      assert r == c;
      return;
    }
    var end := last.prev;
    CutApart(c, f, l);
    Unlink(c, f, l, first, end);
    Link(Cut(c, f, l), i, c[f..l], before, first, end);
  }

  /** The same between two lists. */
  method SpliceAcross<K(0)>(ghost c: seq<Elem<K>>, ghost f: nat, ghost l: nat, ghost d: seq<Elem<K>>, ghost i: nat,
                            before: Elem<K>, first: Elem<K>, last: Elem<K>)
    requires Chained(c) && 0 < f <= l < |c| && c[f] == first && c[l] == last
    requires Chained(d) && 0 < i < |d| && d[i] == before && Apart(c, d)
    modifies Nodes(c), Nodes(d)
    ensures Chained(Cut(c, f, l)) && Chained(Pasted(d, i, c[f..l]))
  {
    if first == last {
      assert Cut(c, f, l) == c && Pasted(d, i, c[f..l]) == d;
      return;
    }
    var end := last.prev;
    Unlink(c, f, l, first, end);
    Link(d, i, c[f..l], before, first, end);
  }

  // ---- runs and merging

  ghost predicate SortedRange<K(0)>(c: seq<Elem<K>>, lo: nat, hi: nat, less: (K, K) -> bool)
    requires hi <= |c|
  {
    forall x, y :: lo <= x < y < hi ==> !less(c[y].key, c[x].key)
  }

  lemma RunExtends<K(0, !new)>(c: seq<Elem<K>>, i: nat, j: nat, less: (K, K) -> bool)
    requires StrictWeakOrder(less)
    requires i < j < |c| && SortedRange(c, i, j, less) && !less(c[j].key, c[j - 1].key)
    ensures SortedRange(c, i, j + 1, less)
  {
    forall x | i <= x < j - 1
      ensures !less(c[j].key, c[x].key)
    {
      WeakOrderLaw(c[j].key, c[j - 1].key, c[x].key, less);
    }
  }

  /** `a` through `b` is not empty; the result is the end of the longest run from `a`. */
  method FindEndOfRun<K(0, !new)>(ghost c: seq<Elem<K>>, ghost i: nat, ghost n: nat,
                                  a: Elem<K>, b: Elem<K>, less: (K, K) -> bool)
    returns (e: Elem<K>, ghost j: nat)
    requires StrictWeakOrder(less)
    requires Chained(c) && 0 < i < n < |c| && c[i] == a && c[n] == b
    ensures i < j <= n && e == c[j]
    ensures SortedRange(c, i, j, less)
    ensures j < n ==> less(c[j].key, c[j - 1].key)
  {
    e, j := a.next, i + 1;
    while e != b && !less(e.key, e.prev.key)
      invariant i < j <= n && e == c[j]
      invariant SortedRange(c, i, j, less)
      decreases n - j
    {
      RunExtends(c, i, j, less);
      e, j := e.next, j + 1;
    }
  }

  /** `c` with the element at index `q` moved in front of index `p`. */
  ghost function MovedLeft<T>(c: seq<T>, p: nat, q: nat): (r: seq<T>)
    requires p <= q < |c|
    ensures |r| == |c|
    ensures forall x :: 0 <= x < p || q < x < |c| ==> r[x] == c[x]
    ensures r[p] == c[q]
    ensures forall x :: p < x <= q ==> r[x] == c[x - 1]
  {
    Pasted(Cut(c, q, q + 1), p, c[q..q + 1])
  }

  lemma CutMultiset<T>(c: seq<T>, f: nat, l: nat)
    requires f <= l <= |c|
    ensures multiset(Cut(c, f, l)) + multiset(c[f..l]) == multiset(c)
  {
    assert c[..l] == c[..f] + c[f..l];
    assert c == c[..l] + c[l..];
  }

  lemma PastedMultiset<T>(d: seq<T>, i: nat, g: seq<T>)
    requires i <= |d|
    ensures multiset(Pasted(d, i, g)) == multiset(d) + multiset(g)
  {
    assert d == d[..i] + d[i..];
  }

  lemma MovedLeftMultiset<T>(c: seq<T>, p: nat, q: nat)
    requires p <= q < |c|
    ensures multiset(MovedLeft(c, p, q)) == multiset(c)
  {
    CutMultiset(c, q, q + 1);
    PastedMultiset(Cut(c, q, q + 1), p, c[q..q + 1]);
  }

  lemma SameNodes<K(0)>(c: seq<Elem<K>>, r: seq<Elem<K>>)
    requires multiset(r) == multiset(c)
    ensures Nodes(r) == Nodes(c)
  {
    forall x
      ensures x in Nodes(r) <==> x in Nodes(c)
    {
      assert x in multiset(r) <==> x in multiset(c);
    }
  }

  /** The splice of the merge: one element, to the left in its own list. */
  method SpliceOne<K(0)>(ghost c: seq<Elem<K>>, ghost p: nat, ghost q: nat,
                         before: Elem<K>, elem: Elem<K>, after: Elem<K>)
    returns (ghost r: seq<Elem<K>>)
    requires Chained(c) && 0 < p < q < |c| - 1
    requires c[p] == before && c[q] == elem && c[q + 1] == after
    modifies Nodes(c)
    ensures Chained(r) && r == MovedLeft(c, p, q)
  {
    r := Splice(c, q, q + 1, p, before, elem, after);
  }

  /** A step of the merge keeps ties in order. */
  lemma MovedLeftTies<K(0, !new)>(c: seq<Elem<K>>, i: nat, p: nat, q: nat, k: nat, less: (K, K) -> bool)
    requires StrictWeakOrder(less)
    requires i <= p <= q < k <= |c|
    requires forall x :: p <= x < q ==> less(c[q].key, c[x].key)
    ensures SameTies(MovedLeft(c, p, q)[i..k], c[i..k], Key<K>, less)
  {
    var r, m, b := MovedLeft(c, p, q), c[p..q], c[q];
    assert c[i..k] == c[i..p] + (m + [b]) + c[q + 1..k];
    assert r[i..k] == c[i..p] + ([b] + m) + c[q + 1..k];
    forall x | x in m
      ensures less(Key(b), Key(x))
    {
    }
    SameTiesMoveLeft(m, b, Key<K>, less);
    SameTiesInside(c[i..p], m + [b], [b] + m, c[q + 1..k], Key<K>, less);
  }

  /** `r` is `c` but for the order of the elements from index `i` to `k`, which keep ties in order. */
  ghost predicate Rearranged<K(0, !new)>(c: seq<Elem<K>>, r: seq<Elem<K>>, i: nat, k: nat, less: (K, K) -> bool) {
    && i <= k <= |c| == |r|
    && multiset(r) == multiset(c)
    && r[..i] == c[..i] && r[k..] == c[k..]
    && SameTies(r[i..k], c[i..k], Key<K>, less)
  }

  /** A merge from `i` to `k`: what is in front of `p` is in its final place, `r[p..q]` is left
      of the first run and `r[q..k]` of the second. */
  ghost predicate Merging<K(0)>(r: seq<Elem<K>>, i: nat, p: nat, q: nat, k: nat, less: (K, K) -> bool) {
    && i <= p <= q <= k <= |r|
    && SortedRange(r, i, q, less) && SortedRange(r, q, k, less)
    && (forall x, y :: i <= x < p && q <= y < k ==> !less(r[y].key, r[x].key))
  }

  lemma MergeKeepsFirst<K(0, !new)>(r: seq<Elem<K>>, i: nat, p: nat, q: nat, k: nat, less: (K, K) -> bool)
    requires StrictWeakOrder(less)
    requires Merging(r, i, p, q, k, less) && p < q < k
    requires !less(r[q].key, r[p].key)
    ensures Merging(r, i, p + 1, q, k, less)
  {
    forall y | q < y < k
      ensures !less(r[y].key, r[p].key)
    {
      WeakOrderLaw(r[y].key, r[q].key, r[p].key, less);
    }
  }

  lemma MergeMovesSecond<K(0, !new)>(c: seq<Elem<K>>, r: seq<Elem<K>>, i: nat, p: nat, q: nat, k: nat, less: (K, K) -> bool)
    requires StrictWeakOrder(less)
    requires Merging(r, i, p, q, k, less) && p < q < k
    requires Rearranged(c, r, i, k, less)
    requires less(r[q].key, r[p].key)
    ensures Merging(MovedLeft(r, p, q), i, p + 1, q + 1, k, less)
    ensures Rearranged(c, MovedLeft(r, p, q), i, k, less)
  {
    SmallerThanRun(r, i, p, q, less);
    MovedLeftOrder(r, i, p, q, k, less);
    MovedLeftTies(r, i, p, q, k, less);
    MovedLeftMultiset(r, p, q);
    MovedLeftSlices(r, i, p, q, k);
  }

  lemma SmallerThanRun<K(0, !new)>(r: seq<Elem<K>>, i: nat, p: nat, q: nat, less: (K, K) -> bool)
    requires StrictWeakOrder(less)
    requires i <= p < q < |r| && SortedRange(r, i, q, less)
    requires less(r[q].key, r[p].key)
    ensures forall x :: p <= x < q ==> less(r[q].key, r[x].key) && !less(r[x].key, r[q].key)
  {
    forall x | p <= x < q
      ensures less(r[q].key, r[x].key) && !less(r[x].key, r[q].key)
    {
      assert x == p || !less(r[x].key, r[p].key);
      WeakOrderLaw(r[q].key, r[x].key, r[p].key, less);
      WeakOrderLaw(r[x].key, r[q].key, r[p].key, less);
      WeakOrderLaw(r[q].key, r[p].key, r[q].key, less);
    }
  }

  lemma MovedLeftSlices<T>(r: seq<T>, i: nat, p: nat, q: nat, k: nat)
    requires i <= p <= q < k <= |r|
    ensures MovedLeft(r, p, q)[..i] == r[..i] && MovedLeft(r, p, q)[k..] == r[k..]
  {
  }

  lemma MovedLeftOrder<K(0)>(r: seq<Elem<K>>, i: nat, p: nat, q: nat, k: nat, less: (K, K) -> bool)
    requires i <= p < q < k <= |r|
    requires SortedRange(r, i, q, less) && SortedRange(r, q, k, less)
    requires forall x, y :: i <= x < p && q <= y < k ==> !less(r[y].key, r[x].key)
    requires forall x :: p <= x < q ==> !less(r[x].key, r[q].key)
    ensures var m := MovedLeft(r, p, q);
      && SortedRange(m, i, q + 1, less) && SortedRange(m, q + 1, k, less)
      && forall x, y :: i <= x < p + 1 && q + 1 <= y < k ==> !less(m[y].key, m[x].key)
  {
  }

  lemma RangeIsSorted<K(0)>(c: seq<Elem<K>>, lo: nat, hi: nat, less: (K, K) -> bool)
    requires lo <= hi <= |c| && SortedRange(c, lo, hi, less)
    ensures Sorted(c[lo..hi], Key<K>, less)
  {
    assert forall i :: 0 <= i < hi - lo ==> c[lo..hi][i] == c[lo + i];
  }

  lemma MergeDone<K(0, !new)>(r: seq<Elem<K>>, i: nat, p: nat, q: nat, k: nat, less: (K, K) -> bool)
    requires Merging(r, i, p, q, k, less) && (p == q || q == k)
    ensures SortedRange(r, i, k, less)
  {
  }

  /** One turn of the merge loop. */
  method MergeStep<K(0, !new)>(ghost c: seq<Elem<K>>, ghost r: seq<Elem<K>>, ghost i: nat, ghost p: nat, ghost q: nat, ghost k: nat,
                               a: Elem<K>, ab: Elem<K>, less: (K, K) -> bool)
    returns (a0: Elem<K>, a1b0: Elem<K>, ghost r': seq<Elem<K>>, ghost q': nat)
    requires StrictWeakOrder(less)
    requires Merging(r, i, p, q, k, less) && Rearranged(c, r, i, k, less)
    requires Chained(r) && 0 < p < q < k < |r| && r[p] == a && r[q] == ab
    modifies Nodes(c)
    ensures Merging(r', i, p + 1, q', k, less) && Rearranged(c, r', i, k, less)
    ensures Chained(r') && r'[p + 1] == a0 && r'[q'] == a1b0
  {
    a0, a1b0, r', q' := a, ab, r, q;
    if !less(a1b0.key, a0.key) {
      MergeKeepsFirst(r, i, p, q, k, less);
      a0 := a0.next;
    } else {
      a1b0 := a1b0.next;
      assert a1b0 == r[q + 1] == MovedLeft(r, p, q)[q + 1];
      SameNodes(c, r);
      MergeMovesSecond(c, r, i, p, q, k, less);
      r' := SpliceOne(r, p, q, a0, a1b0.prev, a1b0);
      assert r'[q + 1] == a1b0;
      q' := q + 1;
    }
  }

  /** Merging two adjacent runs sorts the two together, stably. */
  method InplaceMerge<K(0, !new)>(ghost c: seq<Elem<K>>, ghost i: nat, ghost j: nat, ghost k: nat,
                                  a: Elem<K>, ab: Elem<K>, b1: Elem<K>, less: (K, K) -> bool)
    returns (ghost r: seq<Elem<K>>)
    requires StrictWeakOrder(less)
    requires Chained(c) && 0 < i < j < k < |c|
    requires c[i] == a && c[j] == ab && c[k] == b1
    requires SortedRange(c, i, j, less) && SortedRange(c, j, k, less)
    modifies Nodes(c)
    ensures Chained(r) && Rearranged(c, r, i, k, less) && SortedRange(r, i, k, less)
  {
    var a0, a1b0 := a, ab;
    ghost var p, q := i, j;
    r := c;
    while a0 != a1b0 && a1b0 != b1
      invariant Merging(r, i, p, q, k, less) && Rearranged(c, r, i, k, less)
      invariant Chained(r) && r[p] == a0 && r[q] == a1b0
      invariant r[k] == b1
      decreases k - p
    {
      a0, a1b0, r, q := MergeStep(c, r, i, p, q, k, a0, a1b0, less);
      p := p + 1;
      assert r[k] == r[k..][0] == c[k..][0];
    }
    MergeDone(r, i, p, q, k, less);
  }

  // ---- sorting

  ghost function Interior<T>(c: seq<T>): seq<T>
    requires |c| >= 2
  {
    c[1..|c| - 1]
  }

  /** The same elements between the same ends, and those that tie in the same order. */
  ghost predicate SortsAlike<K(0, !new)>(c: seq<Elem<K>>, r: seq<Elem<K>>, less: (K, K) -> bool) {
    && |r| == |c| >= 2
    && multiset(r) == multiset(c)
    && r[0] == c[0] && r[|c| - 1] == c[|c| - 1]
    && SameTies(Interior(r), Interior(c), Key<K>, less)
  }

  /** A pass over a list of `runs` runs has reached index `p` of `r` and has produced `cnt` runs. */
  ghost predicate Passing<K(0)>(r: seq<Elem<K>>, p: nat, runs: nat, cnt: nat, less: (K, K) -> bool) {
    && 1 <= p < |r|
    && Runs(r[1..p], Key<K>, less) <= cnt
    && 2 * cnt + Runs(r[p..|r| - 1], Key<K>, less) <= runs
  }

  /** A pass over a list of `runs` runs has left `r` and has produced `cnt` runs. */
  ghost predicate Passed<K(0)>(r: seq<Elem<K>>, runs: nat, cnt: nat, less: (K, K) -> bool) {
    && |r| >= 2
    && Runs(Interior(r), Key<K>, less) <= cnt
    && 2 * cnt <= runs + 1
  }

  lemma RangeSorted<K(0, !new)>(c: seq<Elem<K>>, lo: nat, hi: nat, less: (K, K) -> bool)
    requires lo < hi <= |c| && SortedRange(c, lo, hi, less)
    ensures Runs(c[lo..hi], Key<K>, less) == 1
  {
    RangeIsSorted(c, lo, hi, less);
    RunsOfSorted(c[lo..hi], Key<K>, less);
  }

  /** Two adjacent maximal runs, from `p` to `j` and from `j` to `k`. */
  ghost predicate TwoRuns<K(0)>(r: seq<Elem<K>>, p: nat, j: nat, k: nat, less: (K, K) -> bool) {
    && 1 <= p < j < k < |r|
    && SortedRange(r, p, j, less) && SortedRange(r, j, k, less)
    && less(r[j].key, r[j - 1].key)
    && (k < |r| - 1 ==> less(r[k].key, r[k - 1].key))
  }

  /** Merging two runs: one more run produced, two consumed. */
  lemma PassMerges<K(0, !new)>(r: seq<Elem<K>>, r': seq<Elem<K>>, p: nat, j: nat, k: nat, runs: nat, cnt: nat, less: (K, K) -> bool)
    requires Passing(r, p, runs, cnt, less) && TwoRuns(r, p, j, k, less)
    requires Rearranged(r, r', p, k, less) && SortedRange(r', p, k, less)
    ensures Passing(r', k, runs, cnt + 1, less)
  {
    SameSlices(r, r', p, k, |r| - 1);
    PassRuns(r, p, j, k, |r| - 1, less);
    OutsideRuns(r', p, k, less);
  }

  lemma ThreeSlices<T>(r: seq<T>, p: nat, k: nat, m: nat)
    requires 1 <= p <= k <= m <= |r|
    ensures r[1..m] == r[1..p] + r[p..k] + r[k..m]
  {
  }

  lemma SameSlices<T>(r: seq<T>, r': seq<T>, p: nat, k: nat, m: nat)
    requires 1 <= p <= k <= m < |r'| == |r| && r'[..p] == r[..p] && r'[k..] == r[k..]
    ensures r'[0] == r[0] && r'[m] == r[m] && r'[k] == r[k]
    ensures r'[1..p] == r[1..p] && r'[k..m] == r[k..m]
  {
    assert r'[0] == r'[..p][0] == r[..p][0] == r[0];
    assert r'[m] == r'[k..][m - k] == r[k..][m - k] == r[m];
    assert r'[k] == r'[k..][0] == r[k..][0] == r[k];
    assert r'[1..p] == r'[..p][1..] == r[..p][1..] == r[1..p];
    assert r'[k..m] == r'[k..][..m - k] == r[k..][..m - k] == r[k..m];
  }

  lemma OutsideRuns<K(0, !new)>(r: seq<Elem<K>>, p: nat, k: nat, less: (K, K) -> bool)
    requires 1 <= p < k <= |r| && SortedRange(r, p, k, less)
    ensures Runs(r[1..k], Key<K>, less) <= Runs(r[1..p], Key<K>, less) + 1
  {
    RunsOfSlices(r, 1, p, k, Key<K>, less);
    RangeSorted(r, p, k, less);
  }

  lemma PassRuns<K(0, !new)>(r: seq<Elem<K>>, p: nat, j: nat, k: nat, m: nat, less: (K, K) -> bool)
    requires p < j < k <= m <= |r|
    requires SortedRange(r, p, j, less) && SortedRange(r, j, k, less)
    requires less(r[j].key, r[j - 1].key)
    requires k < m ==> less(r[k].key, r[k - 1].key)
    ensures Runs(r[p..m], Key<K>, less) == 2 + Runs(r[k..m], Key<K>, less)
  {
    RangeSorted(r, p, j, less);
    RangeSorted(r, j, k, less);
    RunsOfSlices(r, p, j, m, Key<K>, less);
    if k < m {
      RunsOfSlices(r, j, k, m, Key<K>, less);
    }
  }

  lemma PassEnds<K(0, !new)>(r: seq<Elem<K>>, p: nat, runs: nat, cnt: nat, less: (K, K) -> bool)
    requires Passing(r, p, runs, cnt, less)
    requires p < |r| - 1 && SortedRange(r, p, |r| - 1, less)
    ensures Passed(r, runs, cnt + 1, less)
  {
    var m := |r| - 1;
    RangeSorted(r, p, m, less);
    RunsOfSlices(r, 1, p, m, Key<K>, less);
  }

  lemma PassSortsAlike<K(0, !new)>(c: seq<Elem<K>>, r: seq<Elem<K>>, r': seq<Elem<K>>, p: nat, k: nat, less: (K, K) -> bool)
    requires SortsAlike(c, r, less) && 1 <= p <= k < |r|
    requires Rearranged(r, r', p, k, less)
    ensures SortsAlike(c, r', less)
  {
    var m := |r| - 1;
    SameSlices(r, r', p, k, m);
    ThreeSlices(r, p, k, m);
    ThreeSlices(r', p, k, m);
    SameTiesInside(r[1..p], r'[p..k], r[p..k], r[k..m], Key<K>, less);
  }

  lemma PassBegins<K(0, !new)>(c: seq<Elem<K>>, less: (K, K) -> bool)
    requires |c| >= 2
    ensures SortsAlike(c, c, less)
    ensures Passing(c, 1, Runs(Interior(c), Key<K>, less), 0, less)
  {
    assert c[1..1] == [];
  }

  lemma PassIsOver<K(0)>(r: seq<Elem<K>>, p: nat, runs: nat, cnt: nat, less: (K, K) -> bool)
    requires Passing(r, p, runs, cnt, less) && p == |r| - 1
    ensures Passed(r, runs, cnt, less)
  {
  }

  /** One turn of the pass: merge two adjacent runs. */
  method PassStep<K(0, !new)>(ghost c: seq<Elem<K>>, ghost r: seq<Elem<K>>, ghost p: nat, ghost j: nat, ghost k: nat, ghost runs: nat, ghost cnt: nat,
                              a0: Elem<K>, a1b0: Elem<K>, b1: Elem<K>, less: (K, K) -> bool)
    returns (ghost r': seq<Elem<K>>)
    requires StrictWeakOrder(less)
    requires SortsAlike(c, r, less) && Passing(r, p, runs, cnt, less) && TwoRuns(r, p, j, k, less)
    requires Chained(r) && r[p] == a0 && r[j] == a1b0 && r[k] == b1
    modifies Nodes(c)
    ensures SortsAlike(c, r', less) && Passing(r', k, runs, cnt + 1, less)
    ensures Chained(r') && r'[k] == b1
  {
    SameNodes(c, r);
    r' := InplaceMerge(r, p, j, k, a0, a1b0, b1, less);
    PassMerges(r, r', p, j, k, runs, cnt, less);
    PassSortsAlike(c, r, r', p, k, less);
    SameSlices(r, r', p, k, |r| - 1);
  }

  /** One pass: merge the runs of the list two by two. */
  method Pass<K(0, !new)>(ghost c: seq<Elem<K>>, head: Elem<K>, tail: Elem<K>, less: (K, K) -> bool)
    returns (cnt: nat, ghost r: seq<Elem<K>>)
    requires StrictWeakOrder(less)
    requires Chained(c) && c[0] == head && c[|c| - 1] == tail
    modifies Nodes(c)
    ensures Chained(r) && SortsAlike(c, r, less)
    ensures Passed(r, Runs(Interior(c), Key<K>, less), cnt, less)
  {
    var a0 := head.next;
    ghost var p: nat, runs := 1, Runs(Interior(c), Key<K>, less);
    cnt, r := 0, c;
    PassBegins(c, less);
    while a0 != tail
      invariant SortsAlike(c, r, less) && Passing(r, p, runs, cnt, less)
      invariant Chained(r) && r[p] == a0
      decreases |r| - p
    {
      var a1b0, j := FindEndOfRun(r, p, |r| - 1, a0, tail, less);
      if a1b0 == tail {
        PassEnds(r, p, runs, cnt, less);
        cnt := cnt + 1;
        return;
      }
      var b1, k := FindEndOfRun(r, j, |r| - 1, a1b0, tail, less);
      r := PassStep(c, r, p, j, k, runs, cnt, a0, a1b0, b1, less);
      cnt, a0, p := cnt + 1, b1, k;
    }
    PassIsOver(r, p, runs, cnt, less);
  }

  /** The natural merge sort.  The number of runs falls in every pass that leaves more than one. */
  method Sort<K(0, !new)>(ghost c: seq<Elem<K>>, head: Elem<K>, tail: Elem<K>, less: (K, K) -> bool)
    returns (ghost r: seq<Elem<K>>)
    requires StrictWeakOrder(less)
    requires Chained(c) && c[0] == head && c[|c| - 1] == tail
    modifies Nodes(c)
    ensures Chained(r)
    ensures r == [head] + StableSort(Interior(c), Key<K>, less) + [tail]
  {
    var cnt;
    cnt, r := Pass(c, head, tail, less);
    while cnt > 1
      invariant Chained(r) && SortsAlike(c, r, less)
      invariant Runs(Interior(r), Key<K>, less) <= cnt
      decreases cnt
    {
      SameNodes(c, r);
      ghost var before := r;
      cnt, r := Pass(before, head, tail, less);
      SortsAlikeTransitive(c, before, r, less);
    }
    SortDone(c, r, less);
  }

  lemma SortsAlikeTransitive<K(0, !new)>(c: seq<Elem<K>>, r: seq<Elem<K>>, r': seq<Elem<K>>, less: (K, K) -> bool)
    requires SortsAlike(c, r, less) && SortsAlike(r, r', less)
    ensures SortsAlike(c, r', less)
  {
  }

  lemma SortDone<K(0, !new)>(c: seq<Elem<K>>, r: seq<Elem<K>>, less: (K, K) -> bool)
    requires StrictWeakOrder(less)
    requires SortsAlike(c, r, less) && Runs(Interior(r), Key<K>, less) <= 1
    ensures r == [c[0]] + StableSort(Interior(c), Key<K>, less) + [c[|c| - 1]]
  {
    OneRunIsSorted(Interior(r), Key<K>, less);
    StableSortUnique(Interior(c), Interior(r), Key<K>, less);
    EndsAndInterior(r);
  }

  lemma EndsAndInterior<T>(r: seq<T>)
    requires |r| >= 2
    ensures r == [r[0]] + Interior(r) + [r[|r| - 1]]
  {
  }

  /** `list_insert_ordered`: the new element goes behind those it ties with. */
  method InsertInOrder<K(0)>(ghost c: seq<Elem<K>>, head: Elem<K>, tail: Elem<K>, elem: Elem<K>, less: (K, K) -> bool)
    returns (ghost r: seq<Elem<K>>)
    requires Chained(c) && c[0] == head && c[|c| - 1] == tail && elem !in c
    modifies Nodes(c), elem
    ensures Chained(r)
    ensures r == [head] + InsertOrdered(Interior(c), elem, Key<K>, less) + [tail]
  {
    var e := head.next;
    ghost var p := 1;
    while e != tail && !less(elem.key, e.key)
      invariant 1 <= p < |c| && c[p] == e
      invariant forall i :: 1 <= i < p ==> !less(elem.key, c[i].key)
      decreases |c| - p
    {
      e, p := e.next, p + 1;
    }
    Insert(c, p, e, elem);
    r := InsertAt(c, p, elem);
    InsertPosUnique(Interior(c), elem, p - 1, Key<K>, less);
  }
}
