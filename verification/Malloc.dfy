/** The block allocator of `threads/malloc.c`: arenas of equal blocks carved out of pages, with a
    free list per block size, and runs of whole pages for what does not fit.

    An address is counted from the base of the page pool, so that `a / PGSIZE` is the index of a
    page in the pool; a null pointer is `None`. */
module Malloc {
  import opened Wrappers
  import opened Numbers
  import opened Order
  import opened Bitmap
  import opened Palloc

  const HEADER: nat := 12                     // sizeof (struct arena)
  const DESCS: nat := 7                       // 16 to 1024 bytes
  const SIZE_LIMIT: nat := 0x1_0000_0000      // values of a size_t

  function BlockSize(d: nat): (r: nat)
    ensures r > 0
  {
    Pow2(d + 4)
  }

  function PerArena(d: nat): nat {
    DivBounds(PGSIZE - HEADER, BlockSize(d));
    (PGSIZE - HEADER) / BlockSize(d)
  }

  /** The header at the front of a run of pages. */
  datatype Arena = Small(desc: nat, freeCnt: nat) | Big(pageCnt: nat)

  datatype Heap = Heap(used: seq<bool>, runs: Runs, arenas: map<nat, Arena>, free: seq<seq<nat>>)

  function Span(a: Arena): nat { if a.Small? then 1 else a.pageCnt }

  // ---- where blocks are

  function Addr(p: nat, d: nat, i: nat): nat { p * PGSIZE + HEADER + i * BlockSize(d) }

  /** What `block_to_arena` asserts of a block of descriptor `d`, and that it fits its page. */
  predicate IsBlock(d: nat, a: nat) {
    var ofs := a % PGSIZE - HEADER;
    ofs >= 0 && ofs % BlockSize(d) == 0 && ofs / BlockSize(d) < PerArena(d)
  }

  lemma BlockInPage(d: nat, i: nat)
    requires i < PerArena(d)
    ensures HEADER + i * BlockSize(d) + BlockSize(d) <= PGSIZE
  {
    DivBounds(PGSIZE - HEADER, BlockSize(d));
    MulMono(i + 1, PerArena(d), BlockSize(d));
  }

  lemma PageOf(p: nat, ofs: nat)
    requires ofs < PGSIZE
    ensures (p * PGSIZE + ofs) / PGSIZE == p && (p * PGSIZE + ofs) % PGSIZE == ofs
  {
  }

  /** `arena_to_block` gives blocks, and `block_to_arena` finds their arena again. */
  lemma AddrIsBlock(p: nat, d: nat, i: nat)
    requires i < PerArena(d)
    ensures Addr(p, d, i) / PGSIZE == p && IsBlock(d, Addr(p, d, i))
    ensures (Addr(p, d, i) % PGSIZE - HEADER) / BlockSize(d) == i
  {
    BlockInPage(d, i);
    PageOf(p, HEADER + i * BlockSize(d));
    DivUnique(i * BlockSize(d), BlockSize(d), i);
    DivBounds(i * BlockSize(d), BlockSize(d));
  }

  /** Every block is one of them. */
  lemma BlockIsAddr(d: nat, a: nat) returns (i: nat)
    requires IsBlock(d, a)
    ensures i < PerArena(d) && a == Addr(a / PGSIZE, d, i)
  {
    var ofs := a % PGSIZE - HEADER;
    i := ofs / BlockSize(d);
    assert ofs == i * BlockSize(d) + ofs % BlockSize(d);
  }

  /** The blocks of a new arena, in the order in which they join the free list. */
  function BlockList(p: nat, d: nat, n: nat): (r: seq<nat>)
    ensures |r| == n
  {
    if n == 0 then [] else BlockList(p, d, n - 1) + [Addr(p, d, n - 1)]
  }

  lemma {:induction false} BlockListAt(p: nat, d: nat, n: nat, i: nat)
    requires i < n
    ensures BlockList(p, d, n)[i] == Addr(p, d, i)
  {
    if i < n - 1 { BlockListAt(p, d, n - 1, i); }
  }

  lemma BlockListMembers(p: nat, d: nat)
    ensures forall a: nat :: a in BlockList(p, d, PerArena(d)) <==> a / PGSIZE == p && IsBlock(d, a)
    ensures Distinct(BlockList(p, d, PerArena(d)))
  {
    var n := PerArena(d);
    var l := BlockList(p, d, n);
    forall a: nat
      ensures a in l <==> a / PGSIZE == p && IsBlock(d, a)
    {
      if a / PGSIZE == p && IsBlock(d, a) {
        var i := BlockIsAddr(d, a);
        BlockListAt(p, d, n, i);
      }
      if a in l {
        var i :| 0 <= i < n && l[i] == a;
        BlockListAt(p, d, n, i);
        AddrIsBlock(p, d, i);
      }
    }
    forall i, j | 0 <= i < j < n
      ensures l[i] != l[j]
    {
      BlockListAt(p, d, n, i);
      BlockListAt(p, d, n, j);
      AddrIsBlock(p, d, i);
      AddrIsBlock(p, d, j);
    }
  }

  // ---- counting free blocks

  /** The blocks of page `p` in a free list. */
  ghost function FreeIn(list: seq<nat>, p: nat): set<nat> { set a | a in list && a / PGSIZE == p }

  ghost function Elements(s: seq<nat>): set<nat> { set a | a in s }

  lemma {:induction false} DistinctSize(s: seq<nat>)
    requires Distinct(s)
    ensures |Elements(s)| == |s|
  {
    if s != [] {
      var n := |s| - 1;
      DistinctSize(s[..n]);
      assert s == s[..n] + [s[n]] && s[n] !in s[..n];
      assert Elements(s) == Elements(s[..n]) + {s[n]};
    }
  }

  lemma SubsetSize(a: set<nat>, b: set<nat>)
    requires a <= b
    ensures |a| <= |b| && (|a| == |b| <==> a == b)
  {
    assert b == a + (b - a);
    assert |b| == |a| + |b - a|;
  }

  /** A free list has at most the blocks of the arena, and that many only if it has them all. */
  lemma FreeCount(list: seq<nat>, p: nat, d: nat)
    requires forall a :: a in list && a / PGSIZE == p ==> IsBlock(d, a)
    ensures |FreeIn(list, p)| <= PerArena(d)
    ensures |FreeIn(list, p)| == PerArena(d) <==> forall a: nat :: a / PGSIZE == p && IsBlock(d, a) ==> a in list
  {
    var all := BlockList(p, d, PerArena(d));
    BlockListMembers(p, d);
    DistinctSize(all);
    SubsetSize(FreeIn(list, p), Elements(all));
    if FreeIn(list, p) == Elements(all) {
      forall a: nat | a / PGSIZE == p && IsBlock(d, a)
        ensures a in list
      {
        assert a in Elements(all);
      }
    }
  }

  // ---- the invariant

  predicate InArena(arenas: map<nat, Arena>, a: nat, d: nat) {
    a / PGSIZE in arenas && arenas[a / PGSIZE].Small? && arenas[a / PGSIZE].desc == d && IsBlock(d, a)
  }

  ghost predicate ListOk(arenas: map<nat, Arena>, list: seq<nat>, d: nat) {
    Distinct(list) && forall a :: a in list ==> InArena(arenas, a, d)
  }

  /** The free lists hold blocks of their arenas, each once. */
  ghost predicate ListInv(h: Heap) {
    |h.free| == DESCS && forall d: nat :: d < DESCS ==> ListOk(h.arenas, h.free[d], d)
  }

  ghost predicate ArenaOk(h: Heap, p: nat, full: bool)
    requires |h.free| == DESCS && p in h.arenas
  {
    && p in h.runs && h.runs[p] == Span(h.arenas[p])
    && match h.arenas[p]
       case Small(d, cnt) => d < DESCS && cnt == |FreeIn(h.free[d], p)| && (cnt < PerArena(d) || full)
       case Big(_) => true
  }

  /** Every arena has a run of its own, an exact count of free blocks, and a block in use (but
      for the arena `full`, on the way in or out). */
  ghost predicate ArenaInv(h: Heap, full: int)
    requires |h.free| == DESCS
  {
    forall p :: p in h.arenas ==> ArenaOk(h, p, p == full)
  }

  ghost predicate Core(h: Heap, owner: seq<Option<nat>>, full: int) {
    PageInv(h.used, h.runs, owner) && ListInv(h) && ArenaInv(h, full)
  }

  /** `a` is a block of an arena and not on a free list. */
  predicate Allocated(h: Heap, a: nat) {
    && a / PGSIZE in h.arenas
    && match h.arenas[a / PGSIZE]
       case Small(d, _) => d < |h.free| && IsBlock(d, a) && a !in h.free[d]
       case Big(_) => a % PGSIZE == HEADER
  }

  // ---- the steps of malloc

  function PopState(h: Heap, d: nat): Heap
    requires d < |h.free| && h.free[d] != [] && InArena(h.arenas, h.free[d][0], d)
  {
    var p := h.free[d][0] / PGSIZE;
    h.(free := h.free[d := h.free[d][1..]],
       arenas := h.arenas[p := Small(d, if h.arenas[p].freeCnt > 0 then h.arenas[p].freeCnt - 1 else 0)])
  }

  lemma PopLists(h: Heap, d: nat)
    requires ListInv(h) && d < DESCS && h.free[d] != []
    ensures InArena(h.arenas, h.free[d][0], d) && ListInv(PopState(h, d))
  {
    var h' := PopState(h, d);
    forall e: nat | e < DESCS
      ensures ListOk(h'.arenas, h'.free[e], e)
    {
      assert ListOk(h.arenas, h.free[e], e);
      if e == d { DistinctTail(h.free[d]); }
    }
  }

  lemma DistinctTail(s: seq<nat>)
    requires Distinct(s) && s != []
    ensures Distinct(s[1..]) && s[0] !in s[1..] && forall x :: x in s[1..] ==> x in s
  {
  }

  lemma PopCounts(list: seq<nat>, p: nat)
    requires Distinct(list) && list != []
    ensures FreeIn(list[1..], p) == FreeIn(list, p) - {list[0]}
    ensures |FreeIn(list[1..], p)| == |FreeIn(list, p)| - if list[0] / PGSIZE == p then 1 else 0
  {
    DistinctTail(list);
    assert list == [list[0]] + list[1..];
    assert FreeIn(list[1..], p) == FreeIn(list, p) - {list[0]};
  }

  lemma CountBound(h: Heap, p: nat, full: bool)
    requires ListInv(h) && p in h.arenas && h.arenas[p].Small? && ArenaOk(h, p, full)
    ensures h.arenas[p].freeCnt <= PerArena(h.arenas[p].desc)
  {
    var d := h.arenas[p].desc;
    assert ListOk(h.arenas, h.free[d], d);
    FreeCount(h.free[d], p, d);
  }

  lemma PopOwnArena(h: Heap, full: bool, d: nat)
    requires ListInv(h) && d < DESCS && h.free[d] != [] && InArena(h.arenas, h.free[d][0], d)
    requires ArenaOk(h, h.free[d][0] / PGSIZE, full)
    ensures ArenaOk(PopState(h, d), h.free[d][0] / PGSIZE, false)
  {
    var list := h.free[d];
    var p := list[0] / PGSIZE;
    assert ListOk(h.arenas, list, d);
    PopCounts(list, p);
    assert list[0] in FreeIn(list, p);
    CountBound(h, p, full);
  }

  lemma PopOtherArena(h: Heap, d: nat, p: nat)
    requires ListInv(h) && d < DESCS && h.free[d] != [] && InArena(h.arenas, h.free[d][0], d)
    requires p in h.arenas && ArenaOk(h, p, false) && p != h.free[d][0] / PGSIZE
    ensures ArenaOk(PopState(h, d), p, false)
  {
    assert ListOk(h.arenas, h.free[d], d);
    PopCounts(h.free[d], p);
  }

  lemma PopKeeps(h: Heap, owner: seq<Option<nat>>, full: int, d: nat)
    requires Core(h, owner, full) && d < DESCS && h.free[d] != []
    requires full == -1 || full == h.free[d][0] / PGSIZE
    ensures InArena(h.arenas, h.free[d][0], d) && Core(PopState(h, d), owner, -1)
  {
    PopLists(h, d);
    forall p | p in PopState(h, d).arenas
      ensures ArenaOk(PopState(h, d), p, false)
    {
      assert ArenaOk(h, p, p == full);
      if p == h.free[d][0] / PGSIZE { PopOwnArena(h, p == full, d); } else { PopOtherArena(h, d, p); }
    }
  }

  lemma PopAllocates(h: Heap, d: nat, a: nat)
    requires ListInv(h) && d < DESCS && h.free[d] != [] && InArena(h.arenas, h.free[d][0], d)
    ensures Allocated(PopState(h, d), a) <==> a == h.free[d][0] || Allocated(h, a)
    ensures !Allocated(h, h.free[d][0])
  {
    var list := h.free[d];
    assert ListOk(h.arenas, list, d);
    assert list == [list[0]] + list[1..];
  }

  /** A page of free blocks. */
  function ArenaState(h: Heap, d: nat, p: nat): Heap
    requires d < |h.free| && p < |h.used|
  {
    h.(used := SetRange(h.used, p, 1, true), runs := h.runs[p := 1],
       arenas := h.arenas[p := Small(d, PerArena(d))],
       free := h.free[d := h.free[d] + BlockList(p, d, PerArena(d))])
  }

  lemma NewList(h: Heap, d: nat, p: nat)
    requires ListInv(h) && d < DESCS && p < |h.used| && p !in h.arenas
    ensures ListInv(ArenaState(h, d, p))
  {
    var h' := ArenaState(h, d, p);
    BlockListMembers(p, d);
    forall e: nat | e < DESCS
      ensures ListOk(h'.arenas, h'.free[e], e)
    {
      assert ListOk(h.arenas, h.free[e], e);
      if e == d { DistinctConcat(h.free[d], BlockList(p, d, PerArena(d))); }
    }
  }

  lemma DistinctConcat(s: seq<nat>, t: seq<nat>)
    requires Distinct(s) && Distinct(t) && forall a :: a in s ==> a !in t
    ensures Distinct(s + t)
  {
    forall i, j | 0 <= i < j < |s + t|
      ensures (s + t)[i] != (s + t)[j]
    {
      if i < |s| <= j { assert s[i] in s && t[j - |s|] in t; }
    }
  }

  lemma NewCounts(h: Heap, d: nat, p: nat, q: nat)
    requires ListInv(h) && d < DESCS && p < |h.used| && p !in h.arenas
    ensures q != p ==> FreeIn(ArenaState(h, d, p).free[d], q) == FreeIn(h.free[d], q)
    ensures |FreeIn(ArenaState(h, d, p).free[d], p)| == PerArena(d)
  {
    var all := BlockList(p, d, PerArena(d));
    BlockListMembers(p, d);
    DistinctSize(all);
    assert ListOk(h.arenas, h.free[d], d);
    assert FreeIn(h.free[d] + all, p) == Elements(all);
  }

  lemma NewArenaKeeps(h: Heap, owner: seq<Option<nat>>, d: nat, p: nat)
    requires Core(h, owner, -1) && d < DESCS && p < |h.used| && AllAre(h.used, p, 1, false)
    ensures p !in h.arenas && Core(ArenaState(h, d, p), SetRange(owner, p, 1, Some(p)), p)
  {
    assert p in h.arenas ==> ArenaOk(h, p, false);
    TakeRun(h.used, h.runs, owner, p, 1);
    NewList(h, d, p);
    var h' := ArenaState(h, d, p);
    forall q | q in h'.arenas
      ensures ArenaOk(h', q, q == p)
    {
      NewCounts(h, d, p, q);
      if q != p { assert ArenaOk(h, q, false); }
    }
  }

  lemma NewArenaAllocates(h: Heap, d: nat, p: nat, a: nat)
    requires ListInv(h) && d < DESCS && p < |h.used| && p !in h.arenas
    ensures Allocated(ArenaState(h, d, p), a) <==> Allocated(h, a)
  {
    BlockListMembers(p, d);
    assert ListOk(h.arenas, h.free[d], d);
  }

  /** A run of whole pages. */
  function BigState(h: Heap, p: nat, cnt: nat): Heap
    requires p + cnt <= |h.used|
  {
    h.(used := SetRange(h.used, p, cnt, true), runs := h.runs[p := cnt], arenas := h.arenas[p := Big(cnt)])
  }

  lemma BigKeeps(h: Heap, owner: seq<Option<nat>>, p: nat, cnt: nat)
    requires Core(h, owner, -1) && 0 < cnt && p + cnt <= |h.used| && AllAre(h.used, p, cnt, false)
    ensures p !in h.arenas && Core(BigState(h, p, cnt), SetRange(owner, p, cnt, Some(p)), -1)
  {
    assert p in h.arenas ==> ArenaOk(h, p, false);
    TakeRun(h.used, h.runs, owner, p, cnt);
    var h' := BigState(h, p, cnt);
    forall q | q in h'.arenas
      ensures ArenaOk(h', q, false)
    {
      if q != p { assert ArenaOk(h, q, false); }
    }
    forall e: nat | e < DESCS
      ensures ListOk(h'.arenas, h'.free[e], e)
    {
      assert ListOk(h.arenas, h.free[e], e);
    }
  }

  // ---- the steps of free

  function PushState(h: Heap, a: nat): Heap
    requires Allocated(h, a) && h.arenas[a / PGSIZE].Small?
  {
    var p := a / PGSIZE;
    var Small(d, cnt) := h.arenas[p];
    h.(free := h.free[d := [a] + h.free[d]], arenas := h.arenas[p := Small(d, cnt + 1)])
  }

  lemma PushCounts(list: seq<nat>, a: nat, p: nat)
    requires a !in list
    ensures |FreeIn([a] + list, p)| == |FreeIn(list, p)| + if a / PGSIZE == p then 1 else 0
  {
    assert FreeIn([a] + list, p) == FreeIn(list, p) + if a / PGSIZE == p then {a} else {};
  }

  lemma PushKeeps(h: Heap, owner: seq<Option<nat>>, a: nat)
    requires Core(h, owner, -1) && Allocated(h, a) && h.arenas[a / PGSIZE].Small?
    ensures Core(PushState(h, a), owner, a / PGSIZE)
  {
    var h', d := PushState(h, a), h.arenas[a / PGSIZE].desc;
    assert ArenaOk(h, a / PGSIZE, false);
    forall e: nat | e < DESCS
      ensures ListOk(h'.arenas, h'.free[e], e)
    {
      assert ListOk(h.arenas, h.free[e], e);
    }
    forall p | p in h'.arenas
      ensures ArenaOk(h', p, p == a / PGSIZE)
    {
      assert ArenaOk(h, p, false);
      PushCounts(h.free[d], a, p);
    }
  }

  lemma PushFrees(h: Heap, a: nat, b: nat)
    requires ListInv(h) && Allocated(h, a) && h.arenas[a / PGSIZE].Small?
    ensures Allocated(PushState(h, a), b) <==> b != a && Allocated(h, b)
  {
  }

  /** The list without the elements of `xs`, taken out one by one. */
  function RemoveAll(list: seq<nat>, xs: seq<nat>): (r: seq<nat>)
    ensures forall a :: a in r <==> a in list && a !in xs
  {
    if xs == [] then list
    else
      assert xs == xs[..|xs| - 1] + [xs[|xs| - 1]];
      Without(RemoveAll(list, xs[..|xs| - 1]), xs[|xs| - 1])
  }

  lemma {:induction false} RemoveAllDistinct(list: seq<nat>, xs: seq<nat>)
    requires Distinct(list)
    ensures Distinct(RemoveAll(list, xs))
  {
    if xs != [] {
      RemoveAllDistinct(list, xs[..|xs| - 1]);
      WithoutDistinct(RemoveAll(list, xs[..|xs| - 1]), xs[|xs| - 1]);
    }
  }

  /** An arena with all its blocks free gives up its blocks and its page. */
  function RetireState(h: Heap, p: nat): Heap
    requires p in h.arenas && h.arenas[p].Small? && h.arenas[p].desc < |h.free| && p < |h.used|
  {
    var d := h.arenas[p].desc;
    h.(used := SetRange(h.used, p, 1, false), runs := h.runs - {p}, arenas := h.arenas - {p},
       free := h.free[d := RemoveAll(h.free[d], BlockList(p, d, PerArena(d)))])
  }

  lemma RetireList(h: Heap, p: nat)
    requires ListInv(h) && p in h.arenas && h.arenas[p].Small? && h.arenas[p].desc < DESCS && p < |h.used|
    ensures ListInv(RetireState(h, p))
    ensures var d := h.arenas[p].desc;
      forall q :: q != p ==> FreeIn(RetireState(h, p).free[d], q) == FreeIn(h.free[d], q)
  {
    var h', d := RetireState(h, p), h.arenas[p].desc;
    BlockListMembers(p, d);
    forall e: nat | e < DESCS
      ensures ListOk(h'.arenas, h'.free[e], e)
    {
      assert ListOk(h.arenas, h.free[e], e);
      if e == d { RemoveAllDistinct(h.free[d], BlockList(p, d, PerArena(d))); }
    }
  }

  lemma RetireKeeps(h: Heap, owner: seq<Option<nat>>, p: nat)
    requires Core(h, owner, p) && p in h.arenas && h.arenas[p].Small?
    ensures p < |h.used| && AllAre(h.used, p, 1, true) && h.arenas[p].desc < DESCS
    ensures Core(RetireState(h, p), SetRange(owner, p, 1, None), -1)
  {
    assert ArenaOk(h, p, true);
    GiveRun(h.used, h.runs, owner, p);
    RetireList(h, p);
    var h' := RetireState(h, p);
    forall q | q in h'.arenas
      ensures ArenaOk(h', q, false)
    {
      assert ArenaOk(h, q, false);
    }
  }

  lemma RetireFrees(h: Heap, p: nat, a: nat)
    requires ListInv(h) && p in h.arenas && p < |h.used|
    requires h.arenas[p].Small? && h.arenas[p].desc < DESCS && h.arenas[p].freeCnt == PerArena(h.arenas[p].desc)
    requires ArenaOk(h, p, true)
    ensures Allocated(RetireState(h, p), a) <==> Allocated(h, a)
  {
    var d := h.arenas[p].desc;
    assert ListOk(h.arenas, h.free[d], d);
    FreeCount(h.free[d], p, d);
    BlockListMembers(p, d);
  }

  function UnbigState(h: Heap, p: nat): Heap
    requires p in h.arenas && h.arenas[p].Big? && p + h.arenas[p].pageCnt <= |h.used|
  {
    h.(used := SetRange(h.used, p, h.arenas[p].pageCnt, false), runs := h.runs - {p}, arenas := h.arenas - {p})
  }

  lemma UnbigKeeps(h: Heap, owner: seq<Option<nat>>, p: nat)
    requires Core(h, owner, -1) && p in h.arenas && h.arenas[p].Big?
    ensures p + h.arenas[p].pageCnt <= |h.used| && AllAre(h.used, p, h.arenas[p].pageCnt, true)
    ensures Core(UnbigState(h, p), SetRange(owner, p, h.arenas[p].pageCnt, None), -1)
  {
    assert ArenaOk(h, p, false);
    GiveRun(h.used, h.runs, owner, p);
    var h' := UnbigState(h, p);
    forall q | q in h'.arenas
      ensures ArenaOk(h', q, false)
    {
      assert ArenaOk(h, q, false);
    }
    forall e: nat | e < DESCS
      ensures ListOk(h'.arenas, h'.free[e], e)
    {
      assert ListOk(h.arenas, h.free[e], e);
    }
  }

  // ---- malloc and free

  /** The smallest descriptor from `d` on whose blocks are large enough. */
  function DescFrom(size: nat, d: nat): (r: nat)
    requires d <= DESCS
    ensures d <= r <= DESCS && (r < DESCS ==> BlockSize(r) >= size)
    ensures forall e :: d <= e < r ==> BlockSize(e) < size
    decreases DESCS - d
  {
    if d == DESCS || BlockSize(d) >= size then d else DescFrom(size, d + 1)
  }

  /** Pages for a block that fits no descriptor, in the arithmetic of `size_t`. */
  function PageCnt(size: nat): nat { ((size + HEADER + PGSIZE - 1) % SIZE_LIMIT) / PGSIZE }

  /** The pages hold the request exactly when rounding it up with its header does not wrap around.
      Where it does there are no pages at all, or, if adding the header already wraps, too few. */
  lemma PageCntExact(size: nat)
    requires size < SIZE_LIMIT
    ensures PageCnt(size) * PGSIZE - HEADER >= size <==> size + HEADER + PGSIZE - 1 < SIZE_LIMIT
    ensures PageCnt(size) > 0 ==> (PageCnt(size) * PGSIZE - HEADER >= size <==> size + HEADER < SIZE_LIMIT)
  {
    var n := size + HEADER + PGSIZE - 1;
    if n < SIZE_LIMIT {
      assert n % SIZE_LIMIT == n;
    } else {
      assert n % SIZE_LIMIT == n - SIZE_LIMIT;
      assert PageCnt(size) <= 1;
    }
  }

  ghost function FreeRun(h: Heap, cnt: nat): Option<nat> { if cnt == 0 then None else FirstGroup(h.used, 0, cnt, false) }

  ghost function BigResult(h: Heap, size: nat): (Heap, Option<nat>) {
    match FreeRun(h, PageCnt(size))
    case None => (h, None)
    case Some(p) => (BigState(h, p, PageCnt(size)), Some(p * PGSIZE + HEADER))
  }

  function PopResult(h: Heap, d: nat): (Heap, Option<nat>)
    requires d < |h.free| && h.free[d] != [] && InArena(h.arenas, h.free[d][0], d)
  {
    (PopState(h, d), Some(h.free[d][0]))
  }

  ghost function SmallResult(h: Heap, d: nat): (Heap, Option<nat>)
    requires ListInv(h) && d < DESCS
  {
    if h.free[d] != [] then
      PopLists(h, d);
      PopResult(h, d)
    else
      match FreeRun(h, 1)
      case None => (h, None)
      case Some(p) =>
        FreshFront(h, d, p);
        PopResult(ArenaState(h, d, p), d)
  }

  ghost function MallocState(h: Heap, size: nat): (Heap, Option<nat>)
    requires ListInv(h)
  {
    var d := DescFrom(size, 0);
    if size == 0 then (h, None) else if d == DESCS then BigResult(h, size) else SmallResult(h, d)
  }

  lemma FreshFront(h: Heap, d: nat, p: nat)
    requires |h.free| == DESCS && d < DESCS && p < |h.used| && h.free[d] == []
    ensures ArenaState(h, d, p).free[d] != [] && ArenaState(h, d, p).free[d][0] == Addr(p, d, 0)
    ensures InArena(ArenaState(h, d, p).arenas, ArenaState(h, d, p).free[d][0], d)
  {
    ManyBlocks(d);
    BlockListAt(p, d, PerArena(d), 0);
    AddrIsBlock(p, d, 0);
  }

  lemma ManyBlocks(d: nat)
    requires d < DESCS
    ensures BlockSize(d) <= 1024 && PerArena(d) > 1
  {
    Pow2Values();
    Pow2Add(8, 2);
    if d < 6 { Pow2Monotone(d + 4, 10); }
    DivBounds(PGSIZE - HEADER, BlockSize(d));
    if PerArena(d) <= 1 { MulMono(PerArena(d), 1, BlockSize(d)); }
  }

  function FreeState(h: Heap, a: nat): Heap
    requires Allocated(h, a)
    requires a / PGSIZE + Span(h.arenas[a / PGSIZE]) <= |h.used|
  {
    var p := a / PGSIZE;
    if h.arenas[p].Big? then UnbigState(h, p)
    else
      var h' := PushState(h, a);
      if h'.arenas[p].freeCnt >= PerArena(h'.arenas[p].desc) then RetireState(h', p) else h'
  }

  /** How many bytes an allocated block has. */
  function Capacity(h: Heap, a: nat): int
    requires Allocated(h, a)
  {
    match h.arenas[a / PGSIZE]
    case Small(d, _) => BlockSize(d)
    case Big(cnt) => PGSIZE * cnt - HEADER
  }

  /** Block `b` is as it was. */
  predicate Same(h: Heap, h': Heap, b: nat) {
    && (Allocated(h', b) <==> Allocated(h, b))
    && (Allocated(h, b) ==> Capacity(h', b) == Capacity(h, b))
  }

  /** What `malloc` promises: a block that was not allocated, if it returns one, and no other block
      changes.  The block is large enough exactly when the size and the header do not overflow. */
  ghost predicate Served(h: Heap, result: (Heap, Option<nat>), size: nat) {
    var (h', r) := result;
    && (r.None? ==> h' == h)
    && (r.Some? ==> size > 0 && !Allocated(h, r.value) && Allocated(h', r.value))
    && (r.Some? ==> (Capacity(h', r.value) >= size <==> size + HEADER < SIZE_LIMIT))
    && forall b: nat :: r != Some(b) ==> Same(h, h', b)
  }

  lemma MallocKeeps(h: Heap, owner: seq<Option<nat>>, size: nat) returns (owner': seq<Option<nat>>)
    requires Core(h, owner, -1) && size < SIZE_LIMIT
    ensures Core(MallocState(h, size).0, owner', -1) && Served(h, MallocState(h, size), size)
  {
    var d := DescFrom(size, 0);
    if size == 0 {
      owner' := owner;
    } else if d == DESCS {
      owner' := BigMalloc(h, owner, size);
    } else if h.free[d] != [] {
      owner' := owner;
      PopMalloc(h, owner, d, size);
    } else {
      owner' := FreshMalloc(h, owner, d, size);
    }
  }

  lemma PopMalloc(h: Heap, owner: seq<Option<nat>>, d: nat, size: nat)
    requires Core(h, owner, -1) && d < DESCS && h.free[d] != [] && 0 < size <= BlockSize(d)
    ensures Core(SmallResult(h, d).0, owner, -1) && Served(h, SmallResult(h, d), size)
  {
    PopKeeps(h, owner, -1, d);
    PopAllocates(h, d, h.free[d][0]);
    forall b: nat | b != h.free[d][0]
      ensures Same(h, PopState(h, d), b)
    {
      PopAllocates(h, d, b);
    }
  }

  lemma BigMalloc(h: Heap, owner: seq<Option<nat>>, size: nat) returns (owner': seq<Option<nat>>)
    requires Core(h, owner, -1) && 0 < size < SIZE_LIMIT
    ensures Core(BigResult(h, size).0, owner', -1) && Served(h, BigResult(h, size), size)
  {
    owner' := owner;
    var cnt := PageCnt(size);
    if FreeRun(h, cnt).Some? {
      var p := FreeRun(h, cnt).value;
      owner' := SetRange(owner, p, cnt, Some(p));
      BigKeeps(h, owner, p, cnt);
      PageCntExact(size);
      PageOf(p, HEADER);
      OneBigBlock(p * PGSIZE + HEADER);
    }
  }

  lemma FreshMalloc(h: Heap, owner: seq<Option<nat>>, d: nat, size: nat) returns (owner': seq<Option<nat>>)
    requires Core(h, owner, -1) && d < DESCS && h.free[d] == [] && 0 < size <= BlockSize(d)
    ensures Core(SmallResult(h, d).0, owner', -1) && Served(h, SmallResult(h, d), size)
  {
    owner' := owner;
    if FreeRun(h, 1).Some? {
      var p := FreeRun(h, 1).value;
      owner' := SetRange(owner, p, 1, Some(p));
      NewArenaKeeps(h, owner, d, p);
      FreshFront(h, d, p);
      AddrIsBlock(p, d, 0);
      PopKeeps(ArenaState(h, d, p), owner', p, d);
      FreshServed(h, d, p, size);
    }
  }

  lemma FreshServed(h: Heap, d: nat, p: nat, size: nat)
    requires ListInv(h) && d < DESCS && p < |h.used| && p !in h.arenas && 0 < size <= BlockSize(d)
    requires var h1 := ArenaState(h, d, p); ListInv(h1) && h1.free[d] != [] && InArena(h1.arenas, h1.free[d][0], d)
    ensures Served(h, PopResult(ArenaState(h, d, p), d), size)
  {
    var h1 := ArenaState(h, d, p);
    NewArenaAllocates(h, d, p, h1.free[d][0]);
    PopAllocates(h1, d, h1.free[d][0]);
    forall b: nat | b != h1.free[d][0]
      ensures Same(h, PopState(h1, d), b)
    {
      NewArenaAllocates(h, d, p, b);
      PopAllocates(h1, d, b);
    }
  }

  // ---- when malloc fails, and what it costs

  /** Descriptor `d` is the smallest one whose blocks hold `size` bytes. */
  predicate Smallest(size: nat, d: nat) { d < DESCS && BlockSize(d) >= size && forall e: nat :: e < d ==> BlockSize(e) < size }

  /** No `cnt` pages in a row are free. */
  ghost predicate NoRun(used: seq<bool>, cnt: nat) {
    forall p: nat :: p + cnt <= |used| ==> !AllAre(used, p, cnt, false)
  }

  /** Nothing is asked for; or the smallest descriptor has no free block and no page is free; or no
      descriptor will do, and the number of pages wraps around to 0 or is not free in a row. */
  ghost predicate Exhausted(h: Heap, size: nat)
    requires |h.free| == DESCS
  {
    || size == 0
    || (exists d: nat :: Smallest(size, d) && h.free[d] == [] && forall p :: 0 <= p < |h.used| ==> h.used[p])
    || ((forall d: nat :: d < DESCS ==> BlockSize(d) < size) && (PageCnt(size) == 0 || NoRun(h.used, PageCnt(size))))
  }

  lemma FreeRunExact(h: Heap, cnt: nat)
    ensures FreeRun(h, cnt).None? <==> cnt == 0 || NoRun(h.used, cnt)
  {
  }

  lemma OnePage(used: seq<bool>)
    ensures NoRun(used, 1) <==> forall p :: 0 <= p < |used| ==> used[p]
  {
    forall p: nat | p < |used|
      ensures AllAre(used, p, 1, false) <==> !used[p]
    {
    }
  }

  lemma SmallestUnique(size: nat, d: nat)
    requires Smallest(size, d)
    ensures DescFrom(size, 0) == d
  {
    var r := DescFrom(size, 0);
    assert BlockSize(d) >= size;
  }

  /** `malloc` returns no block exactly when nothing is left that would do. */
  lemma MallocFails(h: Heap, size: nat)
    requires ListInv(h)
    ensures MallocState(h, size).1.None? <==> Exhausted(h, size)
  {
    hide BlockSize, PageCnt, NoRun, FreeRun, ListOk;
    var d := DescFrom(size, 0);
    FreeRunExact(h, PageCnt(size));
    FreeRunExact(h, 1);
    OnePage(h.used);
    if d < DESCS { assert Smallest(size, d); }
    forall e: nat | Smallest(size, e)
      ensures e == d
    {
      SmallestUnique(size, e);
    }
  }

  /** What a block of `size` bytes at `a` costs: a block of the smallest descriptor, and a page only if
      there was no free block, the first one that was free; or the pages that the size calls for. */
  ghost predicate Costs(h: Heap, size: nat, a: nat, h': Heap)
    requires |h.free| == DESCS
  {
    var p := a / PGSIZE;
    && (forall d: nat :: Smallest(size, d) ==>
      && p in h'.arenas && h'.arenas[p].Small? && h'.arenas[p].desc == d
      && if h.free[d] != [] then a in h.free[d] && h'.used == h.used
         else p < |h.used| && !h.used[p] && (forall q :: 0 <= q < p ==> h.used[q]) && h'.used == h.used[p := true])
    && ((forall d: nat :: d < DESCS ==> BlockSize(d) < size) ==>
      && p + PageCnt(size) <= |h.used| && AllAre(h.used, p, PageCnt(size), false)
      && h'.arenas == h.arenas[p := Big(PageCnt(size))] && h'.used == SetRange(h.used, p, PageCnt(size), true))
  }

  lemma SmallCosts(h: Heap, d: nat, size: nat, a: nat, h': Heap)
    requires ListInv(h) && Smallest(size, d) && SmallResult(h, d) == (h', Some(a))
    ensures Costs(h, size, a, h')
  {
    hide BlockSize, PageCnt;
    forall e: nat | Smallest(size, e)
      ensures e == d
    {
      SmallestUnique(size, e);
      SmallestUnique(size, d);
    }
    assert !(forall e: nat :: e < DESCS ==> BlockSize(e) < size);
    if h.free[d] != [] {
      PopLists(h, d);
    } else {
      var p := FreeRun(h, 1).value;
      FreshFront(h, d, p);
      AddrIsBlock(p, d, 0);
      FirstPage(h.used, p);
    }
  }

  lemma FirstPage(used: seq<bool>, p: nat)
    requires FirstGroup(used, 0, 1, false) == Some(p)
    ensures p < |used| && !used[p] && (forall q :: 0 <= q < p ==> used[q]) && SetRange(used, p, 1, true) == used[p := true]
  {
    assert AllAre(used, p, 1, false);
    forall q: nat | q < p
      ensures used[q]
    {
      assert !AllAre(used, q, 1, false);
    }
  }

  lemma BigCosts(h: Heap, size: nat, a: nat, h': Heap)
    requires |h.free| == DESCS && (forall d: nat :: d < DESCS ==> BlockSize(d) < size) && BigResult(h, size) == (h', Some(a))
    ensures Costs(h, size, a, h')
  {
    hide BlockSize, PageCnt;
    PageOf(FreeRun(h, PageCnt(size)).value, HEADER);
  }

  lemma MallocCosts(h: Heap, size: nat, a: nat, h': Heap)
    requires ListInv(h) && MallocState(h, size) == (h', Some(a))
    ensures Costs(h, size, a, h')
  {
    hide BlockSize, PageCnt, SmallResult, BigResult, Costs, ListOk;
    var d := DescFrom(size, 0);
    if d == DESCS {
      BigCosts(h, size, a, h');
    } else {
      SmallCosts(h, d, size, a, h');
    }
  }

  /** `free` frees that block and no other; the assertions on the way hold. */
  lemma FreeKeeps(h: Heap, owner: seq<Option<nat>>, a: nat) returns (owner': seq<Option<nat>>)
    requires Core(h, owner, -1) && Allocated(h, a)
    ensures a / PGSIZE + Span(h.arenas[a / PGSIZE]) <= |h.used|
    ensures Core(FreeState(h, a), owner', -1) && !Allocated(FreeState(h, a), a)
    ensures forall b: nat :: b != a ==> Same(h, FreeState(h, a), b)
  {
    var p := a / PGSIZE;
    assert ArenaOk(h, p, false);
    RunsDisjoint(h.used, h.runs, owner, p, p);
    if h.arenas[p].Big? {
      UnbigKeeps(h, owner, p);
      owner' := SetRange(owner, p, h.arenas[p].pageCnt, None);
      OneBigBlock(a);
    } else {
      owner' := SmallFree(h, owner, a);
    }
  }

  lemma OneBigBlock(a: nat)
    ensures forall b: nat :: b / PGSIZE == a / PGSIZE && b % PGSIZE == a % PGSIZE ==> b == a
  {
  }

  lemma SmallFree(h: Heap, owner: seq<Option<nat>>, a: nat) returns (owner': seq<Option<nat>>)
    requires Core(h, owner, -1) && Allocated(h, a) && h.arenas[a / PGSIZE].Small? && a / PGSIZE < |h.used|
    ensures Core(FreeState(h, a), owner', -1) && !Allocated(FreeState(h, a), a)
    ensures forall b: nat :: b != a ==> Same(h, FreeState(h, a), b)
  {
    var p, h' := a / PGSIZE, PushState(h, a);
    PushKeeps(h, owner, a);
    assert ArenaOk(h', p, true);
    var d := h'.arenas[p].desc;
    assert ListOk(h'.arenas, h'.free[d], d);
    FreeCount(h'.free[d], p, d);
    owner' := owner;
    if h'.arenas[p].freeCnt >= PerArena(d) {
      RetireKeeps(h', owner, p);
      owner' := SetRange(owner, p, 1, None);
    } else {
      NotFull(h', owner, p);
    }
    forall b: nat
      ensures b != a ==> Same(h, FreeState(h, a), b)
      ensures !Allocated(FreeState(h, a), a)
    {
      SmallFreeBlock(h, owner, a, b);
      SmallFreeBlock(h, owner, a, a);
    }
  }

  lemma NotFull(h: Heap, owner: seq<Option<nat>>, p: nat)
    requires Core(h, owner, p) && p in h.arenas && h.arenas[p].Small? && h.arenas[p].freeCnt < PerArena(h.arenas[p].desc)
    ensures Core(h, owner, -1)
  {
    forall q | q in h.arenas
      ensures ArenaOk(h, q, false)
    {
      assert ArenaOk(h, q, q == p);
    }
  }

  lemma SmallFreeBlock(h: Heap, owner: seq<Option<nat>>, a: nat, b: nat)
    requires Core(h, owner, -1) && Allocated(h, a) && h.arenas[a / PGSIZE].Small? && a / PGSIZE < |h.used|
    ensures Allocated(FreeState(h, a), b) <==> b != a && Allocated(h, b)
    ensures b != a ==> Same(h, FreeState(h, a), b)
  {
    var p, h' := a / PGSIZE, PushState(h, a);
    PushKeeps(h, owner, a);
    PushFrees(h, a, b);
    assert ArenaOk(h', p, true);
    var d := h'.arenas[p].desc;
    if h'.arenas[p].freeCnt >= PerArena(d) {
      assert ListOk(h'.arenas, h'.free[d], d);
      FreeCount(h'.free[d], p, d);
      RetireFrees(h', p, b);
    }
  }

  /** The page of a small block goes back exactly when no other block of it is in use. */
  lemma PageReturned(h: Heap, owner: seq<Option<nat>>, a: nat)
    requires Core(h, owner, -1) && Allocated(h, a) && h.arenas[a / PGSIZE].Small?
    ensures a / PGSIZE < |h.used|
    ensures a / PGSIZE in FreeState(h, a).arenas <==> exists b: nat :: b != a && b / PGSIZE == a / PGSIZE && Allocated(h, b)
    ensures a / PGSIZE in FreeState(h, a).arenas <==> FreeState(h, a).used[a / PGSIZE]
  {
    var p, h' := a / PGSIZE, PushState(h, a);
    assert ArenaOk(h, p, false);
    GiveRun(h.used, h.runs, owner, p);
    PushKeeps(h, owner, a);
    assert ArenaOk(h', p, true);
    var d := h'.arenas[p].desc;
    assert ListOk(h'.arenas, h'.free[d], d);
    FreeCount(h'.free[d], p, d);
    if h'.arenas[p].freeCnt < PerArena(d) {
      var b: nat :| b / PGSIZE == p && IsBlock(d, b) && b !in h'.free[d];
      PushFrees(h, a, b);
    } else {
      forall b: nat | b / PGSIZE == p && b != a
        ensures !Allocated(h, b)
      {
        PushFrees(h, a, b);
      }
    }
  }
}
