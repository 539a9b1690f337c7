/** `malloc` and `free` as they run: loops over descriptors and blocks, headers and free lists
    updated in place. */
module Allocator {
  import opened Wrappers
  import opened Numbers
  import opened Order
  import opened Bitmap
  import opened Palloc
  import opened Malloc

  datatype Desc = Desc(blockSize: nat, blocksPerArena: nat)

  /** `malloc_init`: the descriptors are those of the specification, and fit the table of ten. */
  method MallocInit() returns (descs: seq<Desc>)
    ensures |descs| == DESCS <= 10
    ensures forall d :: 0 <= d < DESCS ==> descs[d] == Desc(BlockSize(d), PerArena(d))
  {
    descs := [];
    var blockSize := 16;
    SizesBelowHalfPage();
    while blockSize < PGSIZE / 2
      invariant |descs| <= DESCS && blockSize == BlockSize(|descs|)
      invariant forall d :: 0 <= d < |descs| ==> descs[d] == Desc(BlockSize(d), PerArena(d))
      decreases DESCS - |descs|
    {
      descs := descs + [Desc(blockSize, (PGSIZE - HEADER) / blockSize)];
      blockSize := blockSize * 2;
    }
  }

  lemma SizesBelowHalfPage()
    ensures BlockSize(0) == 16
    ensures forall d: nat :: d <= DESCS ==> (BlockSize(d) < PGSIZE / 2 <==> d < DESCS)
  {
    Pow2Values();
    Pow2Add(8, 3);
    forall d: nat | d < DESCS
      ensures BlockSize(d) < PGSIZE / 2
    {
      ManyBlocks(d);
    }
  }

  class Arenas {
    const pool: Pool
    const descs: seq<Desc>
    ghost var runs: Runs
    var arenas: map<nat, Arena>
    var free: seq<seq<nat>>

    ghost predicate Valid() {
      && pool.Valid() && |descs| == DESCS
      && forall d :: 0 <= d < DESCS ==> descs[d] == Desc(BlockSize(d), PerArena(d))
    }

    ghost function View(): Heap
      requires Valid()
      reads this, pool.usedMap.words
    {
      Heap(pool.Used(), runs, arenas, free)
    }

    constructor (pool: Pool)
      requires pool.Valid()
      ensures Valid() && this.pool == pool && View() == Heap(pool.Used(), map[], map[], seq(DESCS, _ => []))
    {
      this.pool := pool;
      var table := MallocInit();
      descs := table;
      runs, arenas := map[], map[];
      free := seq(DESCS, _ => []);
    }

    method FindDesc(size: nat) returns (d: nat)
      requires Valid()
      ensures d == DescFrom(size, 0)
    {
      d := 0;
      while d < |descs| && descs[d].blockSize < size
        invariant d <= DESCS && DescFrom(size, 0) == DescFrom(size, d)
      {
        d := d + 1;
      }
    }

    /** Pages for an arena: the first run that is free. */
    method GetPages(cnt: nat) returns (p: Option<nat>)
      requires Valid()
      modifies this`runs, pool.usedMap.words
      ensures p == FreeRun(old(View()), cnt)
      ensures p.None? ==> View() == old(View())
      ensures p.Some? ==>
        View() == old(View()).(used := SetRange(old(pool.Used()), p.value, cnt, true), runs := old(runs)[p.value := cnt])
    {
      var page := pool.GetMultiple(cnt);
      if page.None? {
        return None;
      }
      p := Some(page.value - pool.base);
      runs := runs[p.value := cnt];
    }

    method Malloc(size: nat) returns (r: Option<nat>)
      requires Valid() && ListInv(View())
      modifies this, pool.usedMap.words
      ensures (View(), r) == MallocState(old(View()), size)
      ensures old(Sound(View())) && size < SIZE_LIMIT ==> Sound(View()) && Served(old(View()), (View(), r), size)
      ensures r.None? <==> Exhausted(old(View()), size)
    {
      hide Exhausted, Served, Sound, SmallResult, BigResult;
      MallocFails(View(), size);
      if Sound(View()) && size < SIZE_LIMIT { MallocServes(View(), size); }
      if size == 0 {
        return None;
      }
      var d := FindDesc(size);
      if d == |descs| {
        r := MallocBig(size);
      } else {
        r := MallocSmall(d);
      }
    }

    /** A block of descriptor `d`: the first one that is free, in a new arena if there is none. */
    method MallocSmall(d: nat) returns (r: Option<nat>)
      requires Valid() && ListInv(View()) && d < DESCS
      modifies this, pool.usedMap.words
      ensures (View(), r) == SmallResult(old(View()), d)
    {
      ghost var h := View();
      if free[d] == [] {
        var p := GetPages(1);
        if p.None? {
          return None;
        }
        AddBlocks(d, p.value);
        FreshFront(h, d, p.value);
      } else {
        PopLists(h, d);
      }
      r := TakeBlock(d);
    }

    method MallocBig(size: nat) returns (r: Option<nat>)
      requires Valid()
      modifies this, pool.usedMap.words
      ensures (View(), r) == BigResult(old(View()), size)
    {
      var cnt := ((size + HEADER + PGSIZE - 1) % SIZE_LIMIT) / PGSIZE;
      var p := GetPages(cnt);
      if p.None? {
        return None;
      }
      arenas := arenas[p.value := Big(cnt)];
      r := Some(p.value * PGSIZE + HEADER);
    }

    /** A new arena: its header, and its blocks at the end of the free list. */
    method AddBlocks(d: nat, p: nat)
      requires Valid() && d < |free| && d < DESCS
      modifies this`arenas, this`free
      ensures arenas == old(arenas)[p := Small(d, PerArena(d))]
      ensures free == old(free)[d := old(free)[d] + BlockList(p, d, PerArena(d))]
    {
      arenas := arenas[p := Small(d, descs[d].blocksPerArena)];
      for i := 0 to descs[d].blocksPerArena
        invariant arenas == old(arenas)[p := Small(d, PerArena(d))]
        invariant |free| == |old(free)| && free == old(free)[d := free[d]]
        invariant free[d] == old(free)[d] + BlockList(p, d, i)
      {
        free := free[d := free[d] + [p * PGSIZE + HEADER + i * descs[d].blockSize]];
      }
    }

    method TakeBlock(d: nat) returns (r: Option<nat>)
      requires Valid() && d < |free| && free[d] != [] && InArena(arenas, free[d][0], d)
      modifies this`arenas, this`free
      ensures (View(), r) == PopResult(old(View()), d)
    {
      var a := free[d][0];
      var p := a / PGSIZE;
      free := free[d := free[d][1..]];
      arenas := arenas[p := Small(d, if arenas[p].freeCnt > 0 then arenas[p].freeCnt - 1 else 0)];
      r := Some(a);
    }

    /** Frees a block in use; the assertions of the original hold. */
    method Free(a: nat, ghost owner: seq<Option<nat>>)
      requires Valid() && Core(View(), owner, -1) && Allocated(View(), a)
      modifies this, pool.usedMap.words
      ensures old(a / PGSIZE + Span(View().arenas[a / PGSIZE]) <= |View().used|)
      ensures View() == FreeState(old(View()), a) && Sound(View())
      ensures forall b: nat :: b != a ==> Same(old(View()), View(), b)
    {
      ghost var h := View();
      var p := a / PGSIZE;
      ghost var owner' := FreeKeeps(h, owner, a);
      match arenas[p]
      case Big(cnt) =>
        UnbigKeeps(h, owner, p);
        arenas, runs := arenas - {p}, runs - {p};
        var inUse := pool.FreeMultiple(pool.base + p, cnt);
        assert inUse;
      case Small(d, cnt) =>
        PushKeeps(h, owner, a);
        free := free[d := [a] + free[d]];
        arenas := arenas[p := Small(d, cnt + 1)];
        assert View() == PushState(h, a);
        if arenas[p].freeCnt >= descs[d].blocksPerArena {
          CountBound(View(), p, true);
          assert arenas[p].freeCnt == descs[d].blocksPerArena;
          RetireKeeps(View(), owner, p);
          Retire(d, p);
        }
    }

    method RemoveBlocks(d: nat, p: nat)
      requires Valid() && d < DESCS && |free| == DESCS
      modifies this`free
      ensures free == old(free)[d := RemoveAll(old(free)[d], BlockList(p, d, PerArena(d)))]
    {
      ghost var list := free[d];
      for i := 0 to descs[d].blocksPerArena
        invariant |free| == DESCS && free == old(free)[d := free[d]]
        invariant free[d] == RemoveAll(list, BlockList(p, d, i))
      {
        RemoveOne(list, p, d, i);
        free := free[d := Without(free[d], p * PGSIZE + HEADER + i * descs[d].blockSize)];
      }
    }

    method Retire(d: nat, p: nat)
      requires Valid() && d < DESCS && |free| == DESCS && p in arenas && arenas[p].Small? && arenas[p].desc == d
      requires p < |pool.Used()| && AllAre(pool.Used(), p, 1, true)
      modifies this, pool.usedMap.words
      ensures View() == RetireState(old(View()), p)
    {
      RemoveBlocks(d, p);
      arenas, runs := arenas - {p}, runs - {p};
      var inUse := pool.FreeMultiple(pool.base + p, 1);
    }
  }

  /** Some ownership of pages explains the heap. */
  ghost predicate Sound(h: Heap) { exists owner :: Core(h, owner, -1) }

  lemma MallocServes(h: Heap, size: nat)
    requires Sound(h) && size < SIZE_LIMIT
    ensures Sound(MallocState(h, size).0) && Served(h, MallocState(h, size), size)
  {
    var owner :| Core(h, owner, -1);
    var owner' := MallocKeeps(h, owner, size);
  }

  lemma RemoveOne(list: seq<nat>, p: nat, d: nat, i: nat)
    ensures RemoveAll(list, BlockList(p, d, i + 1)) == Without(RemoveAll(list, BlockList(p, d, i)), Addr(p, d, i))
  {
    var xs := BlockList(p, d, i + 1);
    assert xs[..|xs| - 1] == BlockList(p, d, i) && xs[|xs| - 1] == Addr(p, d, i);
  }
}
