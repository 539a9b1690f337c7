/** The order in which the kernel keeps its lists.

    `list_insert_ordered` and `list_sort` take a comparison function.  Here a list is a
    sequence of elements, `key` extracts what is compared (a priority, say) and `less`
    compares keys.  These are the value-level meanings that the pointer code of
    `LinkedList` is proved against and that the scheduler model uses. */
module Order {

  /** Irreflexive, transitive, and ties are transitive.  The laws are used for keys that are
      named with `WeakOrderLaw`. */
  ghost predicate StrictWeakOrder<K(!new)>(less: (K, K) -> bool) {
    forall x, y, z {:trigger Named(x, y, z)} :: Named(x, y, z) ==>
      && !less(x, x)
      && (less(x, y) && less(y, z) ==> less(x, z))
      && (!less(x, y) && !less(y, z) ==> !less(x, z))
  }

  ghost predicate Named<K>(x: K, y: K, z: K) { true }

  lemma WeakOrderLaw<K(!new)>(x: K, y: K, z: K, less: (K, K) -> bool)
    requires StrictWeakOrder(less)
    ensures !less(x, x) && !less(y, y) && !less(z, z)
    ensures less(x, y) && less(y, z) ==> less(x, z)
    ensures !less(x, y) && !less(y, z) ==> !less(x, z)
    ensures less(x, y) ==> !less(y, x)
  {
    assert Named(x, y, z) && Named(y, x, z) && Named(z, x, y) && Named(x, y, x);
  }

  /** The order of `thread_cmp_priority` and `lock_cmp_priority`: larger first. */
  predicate Greater(a: int, b: int) { a > b }

  ghost predicate Sorted<T, K>(s: seq<T>, key: T -> K, less: (K, K) -> bool) {
    forall i, j :: 0 <= i < j < |s| ==> !less(key(s[j]), key(s[i]))
  }

  ghost predicate Distinct<T>(s: seq<T>) {
    forall i, j :: 0 <= i < j < |s| ==> s[i] != s[j]
  }

  /** Where `list_insert_ordered` stops: the first element that `x` must precede. */
  function InsertPos<T, K>(s: seq<T>, x: T, key: T -> K, less: (K, K) -> bool): (p: nat)
    ensures p <= |s|
  {
    if s == [] || less(key(x), key(s[0])) then 0 else InsertPos(s[1..], x, key, less) + 1
  }

  lemma {:induction false} InsertPosIsFirst<T, K>(s: seq<T>, x: T, key: T -> K, less: (K, K) -> bool)
    ensures var p := InsertPos(s, x, key, less);
      && (forall i :: 0 <= i < p ==> !less(key(x), key(s[i])))
      && (p < |s| ==> less(key(x), key(s[p])))
  {
    if s != [] && !less(key(x), key(s[0])) {
      InsertPosIsFirst(s[1..], x, key, less);
      var q := InsertPos(s[1..], x, key, less);
      assert forall i :: 0 < i < q + 1 ==> s[i] == s[1..][i - 1];
    }
  }

  function InsertOrdered<T, K>(s: seq<T>, x: T, key: T -> K, less: (K, K) -> bool): seq<T> {
    InsertAt(s, InsertPos(s, x, key, less), x)
  }

  /** Only the keys of the elements in question matter. */
  lemma {:induction false} InsertSamePos<T, K>(s: seq<T>, x: T, key: T -> K, key': T -> K, less: (K, K) -> bool)
    requires key(x) == key'(x) && forall y :: y in s ==> key(y) == key'(y)
    ensures InsertPos(s, x, key, less) == InsertPos(s, x, key', less)
  {
    if s != [] {
      assert s[0] in s;
      InsertSamePos(s[1..], x, key, key', less);
    }
  }

  /** `s` with `x` put in front of what was at index `p`. */
  function InsertAt<T>(s: seq<T>, p: nat, x: T): (r: seq<T>)
    requires p <= |s|
    ensures |r| == |s| + 1
  {
    s[..p] + [x] + s[p..]
  }

  /** Insert the elements of `s` into `acc` one after the other. */
  function InsertAll<T, K>(acc: seq<T>, s: seq<T>, key: T -> K, less: (K, K) -> bool): seq<T>
    decreases |s|
  {
    if s == [] then acc
    else InsertAll(InsertOrdered(acc, s[0], key, less), s[1..], key, less)
  }

  /** The stable sort: insert the elements in turn, each behind its equals. */
  function StableSort<T, K>(s: seq<T>, key: T -> K, less: (K, K) -> bool): seq<T> {
    InsertAll([], s, key, less)
  }

  // ---- insertion

  lemma InsertPosUnique<T, K>(s: seq<T>, x: T, p: nat, key: T -> K, less: (K, K) -> bool)
    requires p <= |s|
    requires forall i :: 0 <= i < p ==> !less(key(x), key(s[i]))
    requires p < |s| ==> less(key(x), key(s[p]))
    ensures InsertPos(s, x, key, less) == p
  {
    InsertPosIsFirst(s, x, key, less);
    var q := InsertPos(s, x, key, less);
    assert !(p < q) && !(q < p);
  }

  /** Insertion keeps a list in order, and what was in the list keeps its relative order. */
  lemma InsertKeepsSorted<T, K(!new)>(s: seq<T>, x: T, key: T -> K, less: (K, K) -> bool)
    requires StrictWeakOrder(less)
    requires Sorted(s, key, less)
    ensures Sorted(InsertOrdered(s, x, key, less), key, less)
  {
    var p := InsertPos(s, x, key, less);
    var r := InsertAt(s, p, x);
    InsertPosIsFirst(s, x, key, less);
    forall i, j | 0 <= i < j < |r|
      ensures !less(key(r[j]), key(r[i]))
    {
      if i == p && p < |s| {
        assert r[j] == s[j - 1];
        WeakOrderLaw(key(s[j - 1]), key(x), key(s[p]), less);
        assert p == j - 1 || !less(key(s[j - 1]), key(s[p]));
      }
    }
  }

  lemma InsertMultiset<T>(s: seq<T>, p: nat, x: T)
    requires p <= |s|
    ensures multiset(InsertAt(s, p, x)) == multiset(s) + multiset{x}
  {
    assert s == s[..p] + s[p..];
  }

  // ---- sorting

  lemma {:induction false} InsertAllMultiset<T, K>(acc: seq<T>, s: seq<T>, key: T -> K, less: (K, K) -> bool)
    ensures multiset(InsertAll(acc, s, key, less)) == multiset(acc) + multiset(s)
    decreases |s|
  {
    if s != [] {
      InsertMultiset(acc, InsertPos(acc, s[0], key, less), s[0]);
      InsertAllMultiset(InsertOrdered(acc, s[0], key, less), s[1..], key, less);
      assert s == [s[0]] + s[1..];
    }
  }

  lemma {:induction false} InsertAllSorted<T, K(!new)>(acc: seq<T>, s: seq<T>, key: T -> K, less: (K, K) -> bool)
    requires StrictWeakOrder(less)
    requires Sorted(acc, key, less)
    ensures Sorted(InsertAll(acc, s, key, less), key, less)
    decreases |s|
  {
    if s != [] {
      InsertKeepsSorted(acc, s[0], key, less);
      InsertAllSorted(InsertOrdered(acc, s[0], key, less), s[1..], key, less);
    }
  }

  /** Sorting yields a permutation in order. */
  lemma SortSorts<T, K(!new)>(s: seq<T>, key: T -> K, less: (K, K) -> bool)
    requires StrictWeakOrder(less)
    ensures multiset(StableSort(s, key, less)) == multiset(s)
    ensures Sorted(StableSort(s, key, less), key, less)
  {
    InsertAllMultiset([], s, key, less);
    InsertAllSorted([], s, key, less);
  }

  // ---- stability

  ghost predicate Equivalent<K>(x: K, y: K, less: (K, K) -> bool) { !less(x, y) && !less(y, x) }

  /** The elements whose key ties with `k`, in list order. */
  ghost function Ties<T, K>(s: seq<T>, k: K, key: T -> K, less: (K, K) -> bool): seq<T> {
    if s == [] then []
    else
      var rest := Ties(s[..|s| - 1], k, key, less);
      if Equivalent(k, key(s[|s| - 1]), less) then rest + [s[|s| - 1]] else rest
  }

  lemma {:induction false} TiesOfConcat<T, K>(s: seq<T>, t: seq<T>, k: K, key: T -> K, less: (K, K) -> bool)
    ensures Ties(s + t, k, key, less) == Ties(s, k, key, less) + Ties(t, k, key, less)
  {
    if t == [] {
      assert s + t == s;
    } else {
      assert (s + t)[..|s + t| - 1] == s + t[..|t| - 1];
      TiesOfConcat(s, t[..|t| - 1], k, key, less);
    }
  }

  lemma {:induction false} NoTies<T, K>(s: seq<T>, k: K, key: T -> K, less: (K, K) -> bool)
    requires forall x :: x in s ==> !Equivalent(k, key(x), less)
    ensures Ties(s, k, key, less) == []
  {
    if s != [] {
      NoTies(s[..|s| - 1], k, key, less);
    }
  }

  lemma BehindNoTies<T, K(!new)>(s: seq<T>, x: T, k: K, key: T -> K, less: (K, K) -> bool)
    requires StrictWeakOrder(less)
    requires Sorted(s, key, less)
    requires Equivalent(k, key(x), less)
    ensures Ties(s[InsertPos(s, x, key, less)..], k, key, less) == []
  {
    var p := InsertPos(s, x, key, less);
    InsertPosIsFirst(s, x, key, less);
    forall y | y in s[p..]
      ensures !Equivalent(k, key(y), less)
    {
      var i :| p <= i < |s| && s[i] == y;
      assert i == p || !less(key(s[i]), key(s[p]));
      WeakOrderLaw(key(s[i]), key(x), key(s[p]), less);
      WeakOrderLaw(key(s[i]), k, key(x), less);
      WeakOrderLaw(key(x), key(s[i]), key(s[p]), less);
      WeakOrderLaw(key(x), k, key(s[i]), less);
      WeakOrderLaw(key(x), key(s[i]), key(x), less);
    }
    NoTies(s[p..], k, key, less);
  }

  /** First in, first out among equals: an element joins its ties at the back. */
  lemma InsertTies<T, K(!new)>(s: seq<T>, x: T, k: K, key: T -> K, less: (K, K) -> bool)
    requires StrictWeakOrder(less)
    requires Sorted(s, key, less)
    ensures Ties(InsertOrdered(s, x, key, less), k, key, less) == Ties(s + [x], k, key, less)
  {
    var p := InsertPos(s, x, key, less);
    assert s == s[..p] + s[p..];
    TiesOfConcat(s[..p], s[p..], k, key, less);
    TiesOfConcat(s[..p] + [x], s[p..], k, key, less);
    TiesOfConcat(s[..p], [x], k, key, less);
    TiesOfConcat(s, [x], k, key, less);
    if Equivalent(k, key(x), less) {
      BehindNoTies(s, x, k, key, less);
    } else {
      assert Ties([x], k, key, less) == [];
    }
  }

  lemma TiesOfPrefix<T, K>(s: seq<T>, s': seq<T>, t: seq<T>, k: K, key: T -> K, less: (K, K) -> bool)
    requires Ties(s, k, key, less) == Ties(s', k, key, less)
    ensures Ties(s + t, k, key, less) == Ties(s' + t, k, key, less)
  {
    TiesOfConcat(s, t, k, key, less);
    TiesOfConcat(s', t, k, key, less);
  }

  lemma {:induction false} InsertAllTies<T, K(!new)>(acc: seq<T>, s: seq<T>, k: K, key: T -> K, less: (K, K) -> bool)
    requires StrictWeakOrder(less)
    requires Sorted(acc, key, less)
    ensures Ties(InsertAll(acc, s, key, less), k, key, less) == Ties(acc + s, k, key, less)
    decreases |s|
  {
    if s == [] {
      assert acc + s == acc;
    } else {
      var r := InsertOrdered(acc, s[0], key, less);
      InsertKeepsSorted(acc, s[0], key, less);
      InsertAllTies(r, s[1..], k, key, less);
      InsertTies(acc, s[0], k, key, less);
      TiesOfPrefix(r, acc + [s[0]], s[1..], k, key, less);
      assert (acc + [s[0]]) + s[1..] == acc + s;
    }
  }

  /** Sorting is stable: elements that tie keep their order. */
  lemma SortIsStable<T, K(!new)>(s: seq<T>, k: K, key: T -> K, less: (K, K) -> bool)
    requires StrictWeakOrder(less)
    ensures Ties(StableSort(s, key, less), k, key, less) == Ties(s, k, key, less)
  {
    InsertAllTies([], s, k, key, less);
    assert [] + s == s;
  }

  /** In order and with the same ties leaves no choice. */
  lemma {:induction false} SameTiesSameList<T, K(!new)>(s: seq<T>, r: seq<T>, key: T -> K, less: (K, K) -> bool)
    requires StrictWeakOrder(less)
    requires Sorted(s, key, less) && Sorted(r, key, less)
    requires forall k :: Ties(r, k, key, less) == Ties(s, k, key, less)
    ensures r == s
  {
    if s != [] && r != [] {
      var n, m := |s| - 1, |r| - 1;
      LastTies(s, r, key, less);
      forall k
        ensures Ties(r[..m], k, key, less) == Ties(s[..n], k, key, less)
      {
        assert Ties(r, k, key, less) == Ties(s, k, key, less);
        if Equivalent(k, key(s[n]), less) {
          SnocInjective(Ties(r[..m], k, key, less), Ties(s[..n], k, key, less), s[n]);
        }
      }
      SameTiesSameList(s[..n], r[..m], key, less);
      assert s == s[..n] + [s[n]] && r == r[..m] + [r[m]];
    } else if s != [] {
      SomeTies(s, key, less);
    } else if r != [] {
      SomeTies(r, key, less);
    }
  }

  lemma SomeTies<T, K(!new)>(s: seq<T>, key: T -> K, less: (K, K) -> bool)
    requires StrictWeakOrder(less)
    requires s != []
    ensures exists k :: Ties(s, k, key, less) != []
  {
    WeakOrderLaw(key(s[|s| - 1]), key(s[|s| - 1]), key(s[|s| - 1]), less);
    assert Ties(s, key(s[|s| - 1]), key, less) != [];
  }

  lemma SnocInjective<T>(s: seq<T>, t: seq<T>, x: T)
    requires s + [x] == t + [x]
    ensures s == t
  {
    assert s == (s + [x])[..|s + [x]| - 1];
    assert t == (t + [x])[..|t + [x]| - 1];
  }

  /** The same elements, and those that tie in the same order. */
  ghost predicate SameTies<T, K(!new)>(s: seq<T>, t: seq<T>, key: T -> K, less: (K, K) -> bool) {
    forall k :: Ties(s, k, key, less) == Ties(t, k, key, less)
  }

  lemma SameTiesInside<T, K(!new)>(u: seq<T>, s: seq<T>, t: seq<T>, v: seq<T>, key: T -> K, less: (K, K) -> bool)
    requires SameTies(s, t, key, less)
    ensures SameTies(u + s + v, u + t + v, key, less)
  {
    forall k
      ensures Ties(u + s + v, k, key, less) == Ties(u + t + v, k, key, less)
    {
      TiesOfConcat(u, s, k, key, less);
      TiesOfConcat(u, t, k, key, less);
      TiesOfPrefix(u + s, u + t, v, k, key, less);
    }
  }

  /** An element may move to the left over elements it must precede. */
  lemma SameTiesMoveLeft<T, K(!new)>(m: seq<T>, b: T, key: T -> K, less: (K, K) -> bool)
    requires StrictWeakOrder(less)
    requires forall x :: x in m ==> less(key(b), key(x))
    ensures SameTies(m + [b], [b] + m, key, less)
  {
    forall k
      ensures Ties(m + [b], k, key, less) == Ties([b] + m, k, key, less)
    {
      TiesOfConcat(m, [b], k, key, less);
      TiesOfConcat([b], m, k, key, less);
      if Equivalent(k, key(b), less) {
        forall x | x in m
          ensures !Equivalent(k, key(x), less)
        {
          WeakOrderLaw(key(b), k, key(x), less);
        }
        NoTies(m, k, key, less);
      } else {
        assert Ties([b], k, key, less) == [];
      }
    }
  }

  /** The independent description of `StableSort`: any list in order with the ties of `s`
      in the order `s` has them is the stable sort of `s`. */
  lemma StableSortUnique<T, K(!new)>(s: seq<T>, r: seq<T>, key: T -> K, less: (K, K) -> bool)
    requires StrictWeakOrder(less)
    requires Sorted(r, key, less)
    requires SameTies(r, s, key, less)
    ensures r == StableSort(s, key, less)
  {
    var t := StableSort(s, key, less);
    SortSorts(s, key, less);
    forall k
      ensures Ties(r, k, key, less) == Ties(t, k, key, less)
    {
      SortIsStable(s, k, key, less);
    }
    SameTiesSameList(t, r, key, less);
  }

  lemma {:induction false} TiesMember<T, K>(s: seq<T>, x: T, k: K, key: T -> K, less: (K, K) -> bool)
    requires x in Ties(s, k, key, less)
    ensures exists i :: 0 <= i < |s| && s[i] == x && Equivalent(k, key(s[i]), less)
  {
    var n := |s| - 1;
    if x in Ties(s[..n], k, key, less) {
      TiesMember(s[..n], x, k, key, less);
      var i :| 0 <= i < n && s[..n][i] == x && Equivalent(k, key(s[..n][i]), less);
      assert s[i] == x;
    } else {
      assert s[n] == x;
    }
  }

  lemma LastTies<T, K(!new)>(s: seq<T>, r: seq<T>, key: T -> K, less: (K, K) -> bool)
    requires StrictWeakOrder(less)
    requires Sorted(s, key, less) && Sorted(r, key, less) && s != [] && r != []
    requires forall k :: Ties(r, k, key, less) == Ties(s, k, key, less)
    ensures r[|r| - 1] == s[|s| - 1]
  {
    var x, y := s[|s| - 1], r[|r| - 1];
    WeakOrderLaw(key(x), key(y), key(x), less);
    assert x in Ties(s, key(x), key, less);
    assert y in Ties(r, key(y), key, less);
    TiesMember(r, x, key(x), key, less);
    TiesMember(s, y, key(y), key, less);
    var i :| 0 <= i < |r| && r[i] == x && Equivalent(key(x), key(r[i]), less);
    var j :| 0 <= j < |s| && s[j] == y && Equivalent(key(y), key(s[j]), less);
    assert i == |r| - 1 || !less(key(y), key(x));
    assert j == |s| - 1 || !less(key(x), key(y));
    var tr, ts := Ties(r, key(x), key, less), Ties(s, key(x), key, less);
    assert tr[|tr| - 1] == y;
    assert ts[|ts| - 1] == x;
  }

  // ---- runs

  /** The number of maximal nondecreasing runs. */
  ghost function Runs<T, K>(s: seq<T>, key: T -> K, less: (K, K) -> bool): nat {
    if |s| <= 1 then |s|
    else Runs(s[1..], key, less) + if less(key(s[1]), key(s[0])) then 1 else 0
  }

  lemma {:induction false} RunsOfConcat<T, K>(s: seq<T>, t: seq<T>, key: T -> K, less: (K, K) -> bool)
    ensures Runs(s + t, key, less) <= Runs(s, key, less) + Runs(t, key, less)
    ensures s != [] && t != [] && less(key(t[0]), key(s[|s| - 1])) ==>
      Runs(s + t, key, less) == Runs(s, key, less) + Runs(t, key, less)
  {
    if s == [] {
      assert s + t == t;
    } else if t == [] {
      assert s + t == s;
    } else {
      assert (s + t)[1..] == s[1..] + t;
      RunsOfConcat(s[1..], t, key, less);
      if |s| == 1 {
        assert s[1..] + t == t;
      } else {
        assert s[1..][|s| - 2] == s[|s| - 1];
      }
    }
  }

  lemma RunsOfSlices<T, K>(s: seq<T>, p: nat, k: nat, m: nat, key: T -> K, less: (K, K) -> bool)
    requires p <= k <= m <= |s|
    ensures Runs(s[p..m], key, less) <= Runs(s[p..k], key, less) + Runs(s[k..m], key, less)
    ensures p < k < m && less(key(s[k]), key(s[k - 1])) ==>
      Runs(s[p..m], key, less) == Runs(s[p..k], key, less) + Runs(s[k..m], key, less)
  {
    assert s[p..m] == s[p..k] + s[k..m];
    RunsOfConcat(s[p..k], s[k..m], key, less);
  }

  lemma {:induction false} RunsOfSorted<T, K>(s: seq<T>, key: T -> K, less: (K, K) -> bool)
    requires s != [] && Sorted(s, key, less)
    ensures Runs(s, key, less) == 1
  {
    if |s| > 1 {
      assert Sorted(s[1..], key, less) by {
        forall i, j | 0 <= i < j < |s| - 1
          ensures !less(key(s[1..][j]), key(s[1..][i]))
        {
          assert s[1..][j] == s[j + 1] && s[1..][i] == s[i + 1];
        }
      }
      RunsOfSorted(s[1..], key, less);
    }
  }

  /** One run is a list in order. */
  lemma {:induction false} OneRunIsSorted<T, K(!new)>(s: seq<T>, key: T -> K, less: (K, K) -> bool)
    requires StrictWeakOrder(less)
    requires Runs(s, key, less) <= 1
    ensures Sorted(s, key, less)
  {
    if |s| > 1 {
      SomeRun(s[1..], key, less);
      OneRunIsSorted(s[1..], key, less);
      forall i, j | 0 <= i < j < |s|
        ensures !less(key(s[j]), key(s[i]))
      {
        if i > 0 {
          assert s[j] == s[1..][j - 1] && s[i] == s[1..][i - 1];
        } else if j > 1 {
          assert s[j] == s[1..][j - 1] && s[1] == s[1..][0];
          WeakOrderLaw(key(s[j]), key(s[1]), key(s[0]), less);
        }
      }
    }
  }

  lemma {:induction false} SomeRun<T, K>(s: seq<T>, key: T -> K, less: (K, K) -> bool)
    requires s != []
    ensures Runs(s, key, less) >= 1
  {
    if |s| > 1 { SomeRun(s[1..], key, less); }
  }

  // ---- lists in which each element occurs once

  function Without(s: seq<nat>, x: nat): (r: seq<nat>)
    ensures x !in r
    ensures forall y :: y in r <==> y in s && y != x
    ensures |r| <= |s|
  {
    if s == [] then []
    else if s[0] == x then Without(s[1..], x)
    else
      assert s == [s[0]] + s[1..];
      [s[0]] + Without(s[1..], x)
  }

  lemma {:induction false} WithoutDistinct(s: seq<nat>, x: nat)
    requires Distinct(s)
    ensures Distinct(Without(s, x))
  {
    if s != [] {
      assert Distinct(s[1..]);
      WithoutDistinct(s[1..], x);
      assert s[0] !in s[1..];
    }
  }

  lemma InsertedMembers(s: seq<nat>, x: nat, key: nat -> int)
    ensures forall y :: y in InsertOrdered(s, x, key, Greater) <==> y == x || y in s
    ensures Distinct(s) && x !in s ==> Distinct(InsertOrdered(s, x, key, Greater))
  {
    var p := InsertPos(s, x, key, Greater);
    var r := InsertAt(s, p, x);
    forall y
      ensures y in r <==> y == x || y in s
    {
      if y == x { assert r[p] == y; }
      if y in s {
        var i :| 0 <= i < |s| && s[i] == y;
        assert r[if i < p then i else i + 1] == y;
      }
    }
  }

  lemma SameMembers(s: seq<nat>, r: seq<nat>)
    requires multiset(s) == multiset(r)
    ensures forall x :: x in s <==> x in r
    ensures Distinct(s) ==> Distinct(r)
  {
    forall x
      ensures x in s <==> x in r
    {
      assert x in multiset(s) <==> x in multiset(r);
    }
    if Distinct(s) {
      DistinctOnce(s);
      OnceDistinct(r);
    }
  }

  lemma {:induction false} DistinctOnce(s: seq<nat>)
    requires Distinct(s)
    ensures forall x :: multiset(s)[x] <= 1
  {
    if s != [] {
      var n := |s| - 1;
      DistinctOnce(s[..n]);
      assert s == s[..n] + [s[n]];
      assert s[n] !in s[..n];
    }
  }

  lemma OnceDistinct(r: seq<nat>)
    requires forall x :: multiset(r)[x] <= 1
    ensures Distinct(r)
  {
    forall i, j | 0 <= i < j < |r|
      ensures r[i] != r[j]
    {
      assert r == r[..j] + [r[j]] + r[j + 1..];
      assert multiset(r)[r[j]] >= multiset(r[..j])[r[j]] + 1;
      assert r[j] !in r[..j];
      assert r[i] == r[..j][i];
    }
  }

  lemma SortedMembers(s: seq<nat>, key: nat -> int)
    requires Distinct(s)
    ensures var q := StableSort(s, key, Greater);
      Distinct(q) && |q| == |s| && forall x :: x in q <==> x in s
  {
    var q := StableSort(s, key, Greater);
    InsertAllMultiset([], s, key, Greater);
    SameMembers(s, q);
    assert |q| == |multiset(q)| == |s|;
  }
}
