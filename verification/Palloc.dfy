/** The page allocator of `threads/palloc.c`: runs of pages by first fit from a bitmap. */
module Palloc {
  import opened Wrappers
  import opened Bitmap

  const PGSIZE: nat := 4096

  /** The runs that have been handed out and not yet freed: index of the first page, and length. */
  type Runs = map<nat, nat>

  predicate InRun(k: nat, first: nat, cnt: nat) { first <= k < first + cnt }

  /** The used bits are exactly the pages of the outstanding runs, each page in one run:
      `owner` gives the first page of that run. */
  ghost predicate PageInv(used: seq<bool>, runs: Runs, owner: seq<Option<nat>>) {
    && |owner| == |used|
    && (forall k :: 0 <= k < |used| ==> used[k] == owner[k].Some?)
    && (forall p :: p in runs ==> RunOwned(owner, p, runs[p]))
    && (forall k: nat :: k < |used| && owner[k].Some? ==>
         owner[k].value in runs && InRun(k, owner[k].value, runs[owner[k].value]))
  }

  ghost predicate RunOwned(owner: seq<Option<nat>>, first: nat, cnt: nat) {
    0 < cnt && first + cnt <= |owner| && forall k :: first <= k < first + cnt ==> owner[k] == Some(first)
  }

  /** Outstanding runs are pairwise disjoint and lie in the pool. */
  lemma RunsDisjoint(used: seq<bool>, runs: Runs, owner: seq<Option<nat>>, p: nat, q: nat)
    requires PageInv(used, runs, owner) && p in runs && q in runs
    ensures p + runs[p] <= |used|
    ensures p != q ==> p + runs[p] <= q || q + runs[q] <= p
  {
    assert RunOwned(owner, p, runs[p]) && RunOwned(owner, q, runs[q]);
    assert owner[p] == Some(p) && owner[q] == Some(q);
  }

  /** Taking a free run. */
  lemma TakeRun(used: seq<bool>, runs: Runs, owner: seq<Option<nat>>, p: nat, cnt: nat)
    requires PageInv(used, runs, owner)
    requires cnt > 0 && p + cnt <= |used| && AllAre(used, p, cnt, false)
    ensures p !in runs
    ensures PageInv(SetRange(used, p, cnt, true), runs[p := cnt], SetRange(owner, p, cnt, Some(p)))
  {
    assert p in runs ==> RunOwned(owner, p, runs[p]);
    assert !used[p];
    var runs', owner' := runs[p := cnt], SetRange(owner, p, cnt, Some(p));
    forall q | q in runs'
      ensures RunOwned(owner', q, runs'[q])
    {
      if q != p { KeptRun(owner, owner', p, cnt, q, runs[q]); }
    }
  }

  lemma KeptRun(owner: seq<Option<nat>>, owner': seq<Option<nat>>, p: nat, cnt: nat, q: nat, n: nat)
    requires RunOwned(owner, q, n) && |owner'| == |owner| && p + cnt <= |owner| && p != q
    requires forall k :: p <= k < p + cnt ==> owner[k] != Some(q)
    requires forall k :: 0 <= k < |owner| ==> p <= k < p + cnt || owner'[k] == owner[k]
    ensures RunOwned(owner', q, n)
  {
    forall k | q <= k < q + n
      ensures owner'[k] == Some(q)
    {
      assert owner[k] == Some(q);
    }
  }

  /** Giving a run back: its bits are all set, as `palloc_free_multiple` asserts. */
  lemma GiveRun(used: seq<bool>, runs: Runs, owner: seq<Option<nat>>, p: nat)
    requires PageInv(used, runs, owner) && p in runs
    ensures p + runs[p] <= |used| && AllAre(used, p, runs[p], true)
    ensures PageInv(SetRange(used, p, runs[p], false), runs - {p}, SetRange(owner, p, runs[p], None))
  {
    assert RunOwned(owner, p, runs[p]);
    var runs', owner' := runs - {p}, SetRange(owner, p, runs[p], None);
    forall q | q in runs'
      ensures RunOwned(owner', q, runs'[q])
    {
      KeptRun(owner, owner', p, runs[p], q, runs[q]);
    }
  }

  /** How many pages a bitmap of `pageCnt` bits takes. */
  function BitmapPages(pageCnt: nat): nat {
    (8 + 4 * ((pageCnt + ELEM_BITS - 1) / ELEM_BITS) + PGSIZE - 1) / PGSIZE
  }

  class Pool {
    const base: nat
    const usedMap: Map

    ghost predicate Valid() { usedMap.Valid() }

    /** The pages from `start` on, less those at the front that hold the bitmap itself; the
        original panics when there is no room for it. */
    constructor (start: nat, pageCnt: nat)
      requires BitmapPages(pageCnt) <= pageCnt
      ensures Valid() && fresh(usedMap.words) && Used() == seq(pageCnt - BitmapPages(pageCnt), _ => false)
      ensures base == start + BitmapPages(pageCnt)
    {
      base := start + BitmapPages(pageCnt);
      usedMap := new Map(pageCnt - BitmapPages(pageCnt));
    }

    ghost function Used(): seq<bool>
      requires Valid()
      reads usedMap.words
    {
      usedMap.Bits()
    }

    /** The first free run of `cnt` pages, if there is one; nothing for no pages. */
    method GetMultiple(cnt: nat) returns (page: Option<nat>)
      requires Valid()
      modifies usedMap.words
      ensures cnt == 0 || FirstGroup(old(Used()), 0, cnt, false).None? ==> page == None && Used() == old(Used())
      ensures cnt > 0 && FirstGroup(old(Used()), 0, cnt, false).Some? ==>
        var i := FirstGroup(old(Used()), 0, cnt, false).value;
        page == Some(base + i) && Used() == SetRange(old(Used()), i, cnt, true)
    {
      if cnt == 0 {
        return None;
      }
      var idx := usedMap.ScanAndFlip(0, cnt, false);
      page := if idx.Some? then Some(base + idx.value) else None;
    }

    /** `inUse` is the assertion that the pages were in use. */
    method FreeMultiple(page: nat, cnt: nat) returns (inUse: bool)
      requires Valid() && base <= page && page - base + cnt <= usedMap.bitCnt
      modifies usedMap.words
      ensures inUse <==> AllAre(old(Used()), page - base, cnt, true)
      ensures inUse ==> Used() == SetRange(old(Used()), page - base, cnt, false)
    {
      if cnt == 0 {
        assert SetRange(Used(), page - base, cnt, false) == Used();
        return true;
      }
      var unused := usedMap.Contains(page - base, cnt, false);
      inUse := !unused;
      if inUse {
        usedMap.SetMultiple(page - base, cnt, false);
      }
    }
  }
}
