/** The chained hash table of `lib/kernel/hash.c`, which is a finite set through every change of
    its number of buckets. */
module HashTable {
  import opened Wrappers
  import opened Numbers
  import opened Words
  import opened Order

  // ---- buckets

  /** The elements in the order of iteration. */
  function Flat<T>(buckets: seq<seq<T>>): seq<T> { if buckets == [] then [] else buckets[0] + Flat(buckets[1..]) }

  lemma {:induction false} FlatMembers<T>(buckets: seq<seq<T>>, x: T)
    ensures x in Flat(buckets) <==> exists i: nat :: i < |buckets| && x in buckets[i]
  {
    if buckets != [] {
      FlatMembers(buckets[1..], x);
      if x in buckets[0] { assert 0 < |buckets| && x in buckets[0]; }
      if i: nat :| i < |buckets| && x in buckets[i] {
        if i > 0 { assert x in buckets[1..][i - 1]; }
      }
      if i: nat :| i < |buckets[1..]| && x in buckets[1..][i] {
        assert x in buckets[i + 1];
      }
    }
  }

  /** Exchanging one bucket exchanges its elements. */
  lemma {:induction false} FlatUpdate<T>(buckets: seq<seq<T>>, j: nat, list: seq<T>)
    requires j < |buckets|
    ensures multiset(Flat(buckets[j := list])) + multiset(buckets[j]) == multiset(Flat(buckets)) + multiset(list)
  {
    if j == 0 {
      assert buckets[j := list][1..] == buckets[1..];
    } else {
      FlatUpdate(buckets[1..], j - 1, list);
      var tail, tail' := Flat(buckets[1..]), Flat(buckets[1..][j - 1 := list]);
      assert buckets[j := list][1..] == buckets[1..][j - 1 := list];
      assert Flat(buckets[j := list]) == buckets[0] + tail';
      AddSame(multiset(buckets[0]), multiset(tail'), multiset(buckets[j]), multiset(tail), multiset(list));
    }
  }

  lemma AddSame<T>(m: multiset<T>, a: multiset<T>, b: multiset<T>, c: multiset<T>, d: multiset<T>)
    requires a + b == c + d
    ensures (m + a) + b == (m + c) + d
  {
    assert (m + a) + b == m + (a + b);
    assert (m + c) + d == m + (c + d);
  }

  lemma Cancel<T>(m: multiset<T>, a: multiset<T>, c: multiset<T>, d: multiset<T>)
    requires a + m == c + (d + m)
    ensures a == c + d
  {
    forall x
      ensures a[x] == (c + d)[x]
    {
      assert (a + m)[x] == (c + (d + m))[x];
    }
  }

  function EmptyBuckets<T>(n: nat): seq<seq<T>> { seq(n, _ => []) }

  lemma {:induction false} FlatEmpty<T>(n: nat)
    ensures Flat(EmptyBuckets<T>(n)) == []
  {
    if n > 0 {
      FlatEmpty<T>(n - 1);
      assert EmptyBuckets<T>(n)[1..] == EmptyBuckets<T>(n - 1);
    }
  }

  /** Where an element with hash `h` belongs among `n` buckets. */
  function Home(h: nat, n: nat): nat
    requires n > 0
  {
    And(h, n - 1)
  }

  ghost predicate IsPow2(n: nat) { exists k: nat :: n == Pow2(k) }

  lemma HomeInRange(h: nat, n: nat)
    requires IsPow2(n)
    ensures n > 0 && Home(h, n) < n && Home(h, n) == h % n
  {
    var k: nat :| n == Pow2(k);
    AndLowBits(h, k);
  }

  // ---- the number of buckets

  /** Clearing the lowest bit that is set, short of a power of two, leaves the highest. */
  lemma {:induction false} LowestCleared(x: nat, k: nat)
    requires Pow2(k) < x < 2 * Pow2(k)
    ensures Pow2(k) <= And(x, x - 1) < x
  {
    if x % 2 == 1 {
      AndSelf(x / 2);
      assert (x - 1) / 2 == x / 2;
    } else {
      LowestCleared(x / 2, k - 1);
      assert (x - 1) / 2 == x / 2 - 1;
    }
  }

  lemma {:induction false} Between(x: nat) returns (k: nat)
    requires x > 0
    ensures Pow2(k) <= x < 2 * Pow2(k)
  {
    if x == 1 {
      k := 0;
    } else {
      k := Between(x / 2);
      k := k + 1;
    }
  }

  /** The largest power of two that is at most half the number of elements, but at least four. */
  ghost predicate IsBest(n: nat, elemCnt: nat) {
    var want := if elemCnt / 2 < 4 then 4 else elemCnt / 2;
    IsPow2(n) && 4 <= n <= want < 2 * n
  }

  method BestCount(elemCnt: nat) returns (n: nat)
    ensures IsBest(n, elemCnt)
  {
    n := elemCnt / 2;
    if n < 4 {
      n := 4;
    }
    ghost var want := n;
    ghost var k := Between(n);
    assert Pow2(2) == 4;
    if k >= 2 { Pow2Monotone(2, k); }
    while !(n != 0 && And(n, n - 1) == 0)
      invariant Pow2(k) <= n <= want < 2 * Pow2(k) && 4 <= Pow2(k)
      decreases n
    {
      if n == Pow2(k) { LowestBit(n); }
      LowestCleared(n, k);
      n := And(n, n - 1);
    }
    LowestBit(n);
    OnlyPower(n, k);
  }

  lemma OnlyPower(n: nat, k: nat)
    requires IsPow2(n) && Pow2(k) <= n < 2 * Pow2(k)
    ensures n == Pow2(k)
  {
    var j: nat :| n == Pow2(j);
    if j < k { Pow2Grows(j, k); }
    if k < j { Pow2Monotone(k + 1, j); }
  }

  // ---- the table

  predicate Equal<T>(x: T, y: T, less: (T, T) -> bool) { !less(x, y) && !less(y, x) }

  /** What the caller's functions have to satisfy. */
  ghost predicate Compatible<T(!new)>(hash: T -> nat, less: (T, T) -> bool) {
    StrictWeakOrder(less) && forall x, y :: Equal(x, y, less) ==> hash(x) == hash(y)
  }

  /** No two elements are equal. */
  ghost predicate Unique<T(!new)>(elems: multiset<T>, less: (T, T) -> bool) {
    && (forall x :: elems[x] <= 1)
    && forall x, y :: x in elems && y in elems && Equal(x, y, less) ==> x == y
  }

  /** Every element is in the bucket of its hash. */
  ghost predicate AtHome<T(!new)>(buckets: seq<seq<T>>, hash: T -> nat) {
    |buckets| > 0 && forall i: nat, x :: i < |buckets| && x in buckets[i] ==> Home(hash(x), |buckets|) == i
  }

  ghost function Elems<T>(buckets: seq<seq<T>>): multiset<T> { multiset(Flat(buckets)) }

  lemma MemberAtHome<T(!new)>(buckets: seq<seq<T>>, hash: T -> nat, x: T)
    requires AtHome(buckets, hash) && IsPow2(|buckets|)
    ensures Home(hash(x), |buckets|) < |buckets|
    ensures x in Elems(buckets) <==> x in buckets[Home(hash(x), |buckets|)]
  {
    HomeInRange(hash(x), |buckets|);
    FlatMembers(buckets, x);
  }

  /** Putting an element at the front of its bucket. */
  lemma PushElem<T(!new)>(buckets: seq<seq<T>>, hash: T -> nat, x: T)
    requires AtHome(buckets, hash) && IsPow2(|buckets|)
    ensures Home(hash(x), |buckets|) < |buckets|
    ensures var j := Home(hash(x), |buckets|); var b' := buckets[j := [x] + buckets[j]];
      AtHome(b', hash) && Elems(b') == Elems(buckets) + multiset{x}
  {
    HomeInRange(hash(x), |buckets|);
    var j := Home(hash(x), |buckets|);
    FlatUpdate(buckets, j, [x] + buckets[j]);
    assert multiset([x] + buckets[j]) == multiset{x} + multiset(buckets[j]);
    Cancel(multiset(buckets[j]), Elems(buckets[j := [x] + buckets[j]]), Elems(buckets), multiset{x});
  }

  /** Taking an element out of a bucket. */
  lemma PullElem<T(!new)>(buckets: seq<seq<T>>, hash: T -> nat, j: nat, k: nat)
    requires AtHome(buckets, hash) && j < |buckets| && k < |buckets[j]|
    ensures var b' := buckets[j := buckets[j][..k] + buckets[j][k + 1..]];
      AtHome(b', hash) && Elems(b') == Elems(buckets) - multiset{buckets[j][k]}
  {
    var list := buckets[j];
    FlatUpdate(buckets, j, list[..k] + list[k + 1..]);
    assert list == list[..k] + [list[k]] + list[k + 1..];
    var rest := multiset(list[..k] + list[k + 1..]);
    assert multiset(list) == multiset{list[k]} + rest;
    Cancel(rest, Elems(buckets), Elems(buckets[j := list[..k] + list[k + 1..]]), multiset{list[k]});
  }

  class Table<T(==, !new)> {
    const hash: T -> nat
    const less: (T, T) -> bool
    var elemCnt: nat
    var buckets: seq<seq<T>>

    ghost predicate Valid()
      reads this
    {
      && Compatible(hash, less)
      && 4 <= |buckets| && IsPow2(|buckets|) && AtHome(buckets, hash)
      && Unique(Elems(buckets), less) && elemCnt == |Elems(buckets)|
    }

    /** The set of elements. */
    ghost function Contents(): multiset<T>
      reads this
    {
      Elems(buckets)
    }

    constructor (hash: T -> nat, less: (T, T) -> bool)
      requires Compatible(hash, less)
      ensures Valid() && Contents() == multiset{} && this.hash == hash && this.less == less
    {
      this.hash, this.less := hash, less;
      elemCnt, buckets := 0, EmptyBuckets<T>(4);
      FlatEmpty<T>(4);
      assert Pow2(2) == 4;
    }

    /** The position in its bucket of an element equal to `e`. */
    method FindElem(e: T) returns (j: nat, k: Option<nat>)
      requires Valid()
      ensures j < |buckets| && j == Home(hash(e), |buckets|)
      ensures k.Some? ==> k.value < |buckets[j]| && Equal(buckets[j][k.value], e, less) && buckets[j][k.value] in Contents()
      ensures k.None? ==> forall x :: x in Contents() ==> !Equal(x, e, less)
    {
      HomeInRange(hash(e), |buckets|);
      j := And(hash(e), |buckets| - 1);
      for i := 0 to |buckets[j]|
        invariant forall f :: 0 <= f < i ==> !Equal(buckets[j][f], e, less)
      {
        if !less(buckets[j][i], e) && !less(e, buckets[j][i]) {
          FlatMembers(buckets, buckets[j][i]);
          return j, Some(i);
        }
      }
      forall x | x in Contents()
        ensures !Equal(x, e, less)
      {
        MemberAtHome(buckets, hash, x);
      }
      return j, None;
    }

    method Find(e: T) returns (r: Option<T>)
      requires Valid()
      ensures r.Some? ==> r.value in Contents() && Equal(r.value, e, less)
      ensures r.None? ==> forall x :: x in Contents() ==> !Equal(x, e, less)
    {
      var j, k := FindElem(e);
      r := if k.Some? then Some(buckets[j][k.value]) else None;
    }

    /** `memory` says whether new buckets can be had; without them the table is as good as before. */
    method Rehash(memory: bool)
      requires Valid()
      modifies this`buckets
      ensures Valid() && Contents() == old(Contents())
      ensures IsBest(|buckets|, elemCnt) || (!memory && buckets == old(buckets))
    {
      var n := BestCount(elemCnt);
      if n == |buckets| || !memory {
        return;
      }
      buckets := Redistribute(buckets, n);
    }

    method Redistribute(from: seq<seq<T>>, n: nat) returns (to: seq<seq<T>>)
      requires 0 < n && IsPow2(n)
      ensures |to| == n && AtHome(to, hash) && Elems(to) == Elems(from)
    {
      to := EmptyBuckets<T>(n);
      FlatEmpty<T>(n);
      for i := 0 to |from|
        invariant |to| == n && AtHome(to, hash) && Elems(to) == Elems(from[..i])
      {
        to := MoveBucket(to, from[i]);
        FlatSnoc(from, i);
      }
      assert from[..|from|] == from;
    }

    /** Moves the elements of an old bucket into the new ones. */
    method MoveBucket(to: seq<seq<T>>, list: seq<T>) returns (r: seq<seq<T>>)
      requires AtHome(to, hash) && IsPow2(|to|)
      ensures |r| == |to| && AtHome(r, hash) && Elems(r) == Elems(to) + multiset(list)
    {
      r := to;
      for i := 0 to |list|
        invariant |r| == |to| && AtHome(r, hash) && Elems(r) == Elems(to) + multiset(list[..i])
      {
        PushElem(r, hash, list[i]);
        var j := And(hash(list[i]), |r| - 1);
        r := r[j := [list[i]] + r[j]];
        assert list[..i + 1] == list[..i] + [list[i]];
      }
      assert list[..|list|] == list;
    }

    /** Adds the element unless one equal to it is there, which is returned. */
    method Insert(e: T, memory: bool) returns (r: Option<T>)
      requires Valid()
      modifies this
      ensures Valid()
      ensures r.Some? ==> Contents() == old(Contents()) && r.value in Contents() && Equal(r.value, e, less)
      ensures r.None? ==> (forall x :: x in old(Contents()) ==> !Equal(x, e, less)) && Contents() == old(Contents()) + multiset{e}
    {
      var j, k := FindElem(e);
      if k.None? {
        InsertElem(j, e);
        r := None;
      } else {
        r := Some(buckets[j][k.value]);
      }
      Rehash(memory);
    }

    method InsertElem(j: nat, e: T)
      requires Valid() && j < |buckets| && j == Home(hash(e), |buckets|)
      requires forall x :: x in Contents() ==> !Equal(x, e, less)
      modifies this
      ensures Valid() && Contents() == old(Contents()) + multiset{e} && |buckets| == |old(buckets)|
    {
      PushElem(buckets, hash, e);
      EqualSelf(e, less);
      elemCnt := elemCnt + 1;
      buckets := buckets[j := [e] + buckets[j]];
    }

    method RemoveElem(j: nat, k: nat)
      requires Valid() && j < |buckets| && k < |buckets[j]| && buckets[j][k] in Contents()
      modifies this
      ensures Valid() && Contents() == old(Contents()) - multiset{old(buckets)[j][k]} && |buckets| == |old(buckets)|
    {
      PullElem(buckets, hash, j, k);
      elemCnt := elemCnt - 1;
      buckets := buckets[j := buckets[j][..k] + buckets[j][k + 1..]];
    }

    /** Adds the element in place of one equal to it, if there is one, which is returned. */
    method Replace(e: T, memory: bool) returns (r: Option<T>)
      requires Valid()
      modifies this
      ensures Valid()
      ensures r.Some? ==> r.value in old(Contents()) && Equal(r.value, e, less)
      ensures r.Some? ==> Contents() == old(Contents()) - multiset{r.value} + multiset{e}
      ensures r.None? ==> (forall x :: x in old(Contents()) ==> !Equal(x, e, less)) && Contents() == old(Contents()) + multiset{e}
    {
      var j, k := FindElem(e);
      r := None;
      if k.Some? {
        r := Some(buckets[j][k.value]);
        AloneEqual(Contents(), less, buckets[j][k.value], e);
        RemoveElem(j, k.value);
      }
      InsertElem(j, e);
      Rehash(memory);
    }

    /** Removes the element equal to `e`, if there is one, and returns it. */
    method Delete(e: T, memory: bool) returns (r: Option<T>)
      requires Valid()
      modifies this
      ensures Valid()
      ensures r.Some? ==> r.value in old(Contents()) && Equal(r.value, e, less) && Contents() == old(Contents()) - multiset{r.value}
      ensures r.None? ==> (forall x :: x in Contents() ==> !Equal(x, e, less)) && Contents() == old(Contents())
    {
      var j, k := FindElem(e);
      r := None;
      if k.Some? {
        r := Some(buckets[j][k.value]);
        RemoveElem(j, k.value);
        Rehash(memory);
      }
    }
  }

  lemma EqualSelf<T(!new)>(x: T, less: (T, T) -> bool)
    requires StrictWeakOrder(less)
    ensures Equal(x, x, less)
  {
    WeakOrderLaw(x, x, x, less);
  }

  /** Without the element equal to `e` there is none. */
  lemma AloneEqual<T(!new)>(elems: multiset<T>, less: (T, T) -> bool, y: T, e: T)
    requires StrictWeakOrder(less) && Unique(elems, less) && y in elems && Equal(y, e, less)
    ensures forall x :: x in elems - multiset{y} ==> !Equal(x, e, less)
  {
    forall x | x in elems - multiset{y}
      ensures !Equal(x, e, less)
    {
      assert elems[y] == 1 && x != y;
      WeakOrderLaw(x, e, y, less);
      WeakOrderLaw(y, e, x, less);
      assert !Equal(x, y, less);
    }
  }

  lemma {:induction false} FlatConcat<T>(a: seq<seq<T>>, b: seq<seq<T>>)
    ensures Flat(a + b) == Flat(a) + Flat(b)
  {
    if a == [] {
      assert a + b == b;
    } else {
      FlatConcat(a[1..], b);
      assert (a + b)[1..] == a[1..] + b;
      assert a[0] + (Flat(a[1..]) + Flat(b)) == (a[0] + Flat(a[1..])) + Flat(b);
    }
  }

  lemma FlatSnoc<T>(buckets: seq<seq<T>>, i: nat)
    requires i < |buckets|
    ensures Elems(buckets[..i + 1]) == Elems(buckets[..i]) + multiset(buckets[i])
  {
    assert buckets[..i + 1] == buckets[..i] + [buckets[i]];
    FlatConcat(buckets[..i], [buckets[i]]);
    assert Flat([buckets[i]]) == buckets[i] + Flat([]);
  }

  // ---- iteration

  /** What an iterator in front of element `pos` of a bucket has still to visit. */
  function Pending<T>(buckets: seq<seq<T>>, bucket: nat, pos: nat): seq<T>
    requires bucket < |buckets| && pos <= |buckets[bucket]|
  {
    buckets[bucket][pos..] + Flat(buckets[bucket + 1..])
  }

  class Cursor<T> {
    var bucket: nat
    var pos: nat

    /** `hash_first`: everything is still to be visited. */
    constructor (buckets: seq<seq<T>>)
      requires buckets != []
      ensures bucket < |buckets| && pos <= |buckets[bucket]| && Pending(buckets, bucket, pos) == Flat(buckets)
    {
      bucket, pos := 0, 0;
    }

    /** `hash_next`: the next element, until all have been visited. */
    method Next(buckets: seq<seq<T>>) returns (e: Option<T>)
      requires bucket < |buckets| && pos <= |buckets[bucket]|
      modifies this
      ensures e.Some? ==> bucket < |buckets| && pos <= |buckets[bucket]|
      ensures e.Some? ==> old(Pending(buckets, bucket, pos)) == [e.value] + Pending(buckets, bucket, pos)
      ensures e.None? ==> old(Pending(buckets, bucket, pos)) == []
    {
      ghost var pending := Pending(buckets, bucket, pos);
      while pos == |buckets[bucket]|
        invariant bucket < |buckets| && pos <= |buckets[bucket]| && Pending(buckets, bucket, pos) == pending
        decreases |buckets| - bucket
      {
        bucket := bucket + 1;
        if bucket >= |buckets| {
          return None;
        }
        pos := 0;
      }
      e := Some(buckets[bucket][pos]);
      pos := pos + 1;
    }
  }

  /** `hash_first` and `hash_next` until there is no more: all elements, bucket by bucket. */
  method Visit<T>(buckets: seq<seq<T>>) returns (out: seq<T>)
    requires buckets != []
    ensures out == Flat(buckets)
  {
    var cursor := new Cursor<T>(buckets);
    out := [];
    ghost var pending := Flat(buckets);
    while true
      invariant cursor.bucket < |buckets| && cursor.pos <= |buckets[cursor.bucket]|
      invariant pending == Pending(buckets, cursor.bucket, cursor.pos) && out + pending == Flat(buckets)
      decreases |pending|
    {
      var e := cursor.Next(buckets);
      if e.None? {
        return;
      }
      assert pending == [e.value] + Pending(buckets, cursor.bucket, cursor.pos);
      pending := Pending(buckets, cursor.bucket, cursor.pos);
      out := out + [e.value];
    }
  }

  /** An iteration visits each element once. */
  lemma VisitsOnce<T(!new)>(buckets: seq<seq<T>>, less: (T, T) -> bool)
    requires Unique(Elems(buckets), less)
    ensures Distinct(Flat(buckets)) && forall x :: x in Flat(buckets) <==> x in Elems(buckets)
  {
    var s := Flat(buckets);
    forall i, j | 0 <= i < j < |s|
      ensures s[i] != s[j]
    {
      assert s == s[..j] + [s[j]] + s[j + 1..];
      assert multiset(s)[s[j]] >= multiset(s[..j])[s[j]] + 1;
      assert s[j] !in s[..j] && s[i] == s[..j][i];
    }
  }
}
