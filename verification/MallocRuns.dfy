/** Every run of the allocators: what clients of `malloc`, `free` and the page allocator may rely
    on, whatever they do and in whatever order. */
module MallocRuns {
  import opened Wrappers
  import opened Numbers
  import opened Bitmap
  import opened Palloc
  import opened Malloc

  // ---- blocks in memory

  /** A block lies in the pages of its arena, behind the header. */
  lemma BlockInRun(h: Heap, owner: seq<Option<nat>>, a: nat)
    requires Core(h, owner, -1) && Allocated(h, a)
    ensures a / PGSIZE in h.runs && h.runs[a / PGSIZE] == Span(h.arenas[a / PGSIZE])
    ensures a / PGSIZE * PGSIZE + HEADER <= a && a + Capacity(h, a) <= (a / PGSIZE + h.runs[a / PGSIZE]) * PGSIZE
  {
    var p := a / PGSIZE;
    assert ArenaOk(h, p, false);
    if h.arenas[p].Small? {
      var d := h.arenas[p].desc;
      var i := BlockIsAddr(d, a);
      BlockInPage(d, i);
    }
  }

  /** Blocks in use do not overlap. */
  lemma BlocksDisjoint(h: Heap, owner: seq<Option<nat>>, a: nat, b: nat)
    requires Core(h, owner, -1) && Allocated(h, a) && Allocated(h, b) && a < b
    ensures a + Capacity(h, a) <= b
  {
    var p, q := a / PGSIZE, b / PGSIZE;
    BlockInRun(h, owner, a);
    BlockInRun(h, owner, b);
    if p == q {
      assert ArenaOk(h, p, false);
      if h.arenas[p].Small? {
        var d := h.arenas[p].desc;
        var i := BlockIsAddr(d, a);
        var j := BlockIsAddr(d, b);
        StepsApart(i, j, BlockSize(d));
      }
    } else {
      assert p < q;
      RunsDisjoint(h.used, h.runs, owner, p, q);
      MulMono(p + h.runs[p], q, PGSIZE);
    }
  }

  lemma StepsApart(i: nat, j: nat, size: nat)
    requires i * size < j * size
    ensures i * size + size <= j * size
  {
    if j <= i { MulMono(j, i, size); } else { MulMono(i + 1, j, size); }
  }

  /** Nor do they touch the header of an arena. */
  lemma HeadersKept(h: Heap, owner: seq<Option<nat>>, a: nat, q: nat)
    requires Core(h, owner, -1) && Allocated(h, a) && q in h.arenas
    ensures a + Capacity(h, a) <= q * PGSIZE || q * PGSIZE + HEADER <= a
  {
    var p := a / PGSIZE;
    BlockInRun(h, owner, a);
    assert ArenaOk(h, q, false);
    RunsDisjoint(h.used, h.runs, owner, p, q);
    if p < q {
      MulMono(p + h.runs[p], q, PGSIZE);
    } else if q < p {
      MulMono(q + 1, p, PGSIZE);
    }
  }

  // ---- runs

  /** The allocator, and the requests that have been served and not freed. */
  datatype World = World(heap: Heap, sizes: map<nat, nat>)

  datatype Action =
    | Malloc(size: nat)
    | Free(block: nat)
    | PageGet(cnt: nat)      // palloc_get_multiple by somebody else
    | PageFree(page: nat)    // and palloc_free_multiple

  ghost predicate Inv(w: World) {
    && (exists owner :: Core(w.heap, owner, -1))
    && (forall a: nat :: a in w.sizes <==> Allocated(w.heap, a))
    && (forall a: nat :: a in w.sizes ==> Enough(w, a))
  }

  predicate Enough(w: World, a: nat)
    requires a in w.sizes
  {
    Allocated(w.heap, a) && (w.sizes[a] <= Capacity(w.heap, a) <==> w.sizes[a] + HEADER < SIZE_LIMIT)
  }

  /** Clients free what they have been given; sizes are values of `size_t`. */
  predicate Enabled(w: World, a: Action) {
    match a
    case Malloc(size) => size < SIZE_LIMIT
    case Free(b) => b in w.sizes
    case PageGet(_) => true
    case PageFree(p) => p in w.heap.runs && p !in w.heap.arenas
  }

  ghost function GetState(h: Heap, cnt: nat): Heap {
    match FreeRun(h, cnt)
    case None => h
    case Some(p) => h.(used := SetRange(h.used, p, cnt, true), runs := h.runs[p := cnt])
  }

  function GiveState(h: Heap, p: nat): Heap
    requires p in h.runs && p + h.runs[p] <= |h.used|
  {
    h.(used := SetRange(h.used, p, h.runs[p], false), runs := h.runs - {p})
  }

  lemma InPool(w: World, p: nat)
    requires Inv(w) && p in w.heap.runs
    ensures p + w.heap.runs[p] <= |w.heap.used|
  {
    var owner :| Core(w.heap, owner, -1);
    RunsDisjoint(w.heap.used, w.heap.runs, owner, p, p);
  }

  lemma BlockInPool(w: World, b: nat)
    requires Inv(w) && b in w.sizes
    ensures Allocated(w.heap, b) && b / PGSIZE + Span(w.heap.arenas[b / PGSIZE]) <= |w.heap.used|
  {
    var owner :| Core(w.heap, owner, -1);
    BlockInRun(w.heap, owner, b);
    InPool(w, b / PGSIZE);
  }

  ghost function Apply(w: World, a: Action): World
    requires Inv(w) && Enabled(w, a)
  {
    match a
    case Malloc(size) =>
      var (h, r) := MallocState(w.heap, size);
      World(h, if r.Some? then w.sizes[r.value := size] else w.sizes)
    case Free(b) =>
      BlockInPool(w, b);
      World(FreeState(w.heap, b), w.sizes - {b})
    case PageGet(cnt) => w.(heap := GetState(w.heap, cnt))
    case PageFree(p) =>
      InPool(w, p);
      w.(heap := GiveState(w.heap, p))
  }

  lemma MallocStep(w: World, size: nat)
    requires Inv(w) && size < SIZE_LIMIT
    ensures Inv(Apply(w, Malloc(size)))
  {
    var owner :| Core(w.heap, owner, -1);
    var owner' := MallocKeeps(w.heap, owner, size);
    var w' := Apply(w, Malloc(size));
    assert Core(w'.heap, owner', -1);
    forall a: nat
      ensures a in w'.sizes <==> Allocated(w'.heap, a)
      ensures a in w'.sizes ==> Enough(w', a)
    {
      if MallocState(w.heap, size).1 != Some(a) {
        assert Same(w.heap, w'.heap, a);
        assert a in w.sizes ==> Enough(w, a);
      }
    }
  }

  lemma FreeStep(w: World, b: nat)
    requires Inv(w) && b in w.sizes
    ensures Inv(Apply(w, Free(b)))
  {
    var owner :| Core(w.heap, owner, -1);
    var owner' := FreeKeeps(w.heap, owner, b);
    var w' := Apply(w, Free(b));
    assert Core(w'.heap, owner', -1);
    forall a: nat
      ensures a in w'.sizes <==> Allocated(w'.heap, a)
      ensures a in w'.sizes ==> Enough(w', a)
    {
      if a != b {
        assert Same(w.heap, w'.heap, a);
        assert a in w.sizes ==> Enough(w, a);
      }
    }
  }

  /** A change of runs that belong to no arena leaves the arenas in order. */
  lemma OthersPages(h: Heap, h': Heap, owner': seq<Option<nat>>)
    requires ListInv(h) && ArenaInv(h, -1) && PageInv(h'.used, h'.runs, owner')
    requires h'.arenas == h.arenas && h'.free == h.free
    requires forall p :: p in h.arenas && p in h.runs ==> p in h'.runs && h'.runs[p] == h.runs[p]
    ensures Core(h', owner', -1)
  {
    forall p | p in h'.arenas
      ensures ArenaOk(h', p, false)
    {
      assert ArenaOk(h, p, false);
    }
  }

  lemma SameBlocks(w: World, w': World)
    requires Inv(w) && w'.sizes == w.sizes && w'.heap.arenas == w.heap.arenas && w'.heap.free == w.heap.free
    requires exists owner :: Core(w'.heap, owner, -1)
    ensures Inv(w')
  {
    forall a: nat
      ensures Allocated(w'.heap, a) <==> Allocated(w.heap, a)
      ensures a in w'.sizes ==> Enough(w', a)
    {
      assert a in w.sizes ==> Enough(w, a);
    }
  }

  lemma PageGetStep(w: World, cnt: nat)
    requires Inv(w)
    ensures Inv(Apply(w, PageGet(cnt)))
  {
    var owner :| Core(w.heap, owner, -1);
    var h, h' := w.heap, GetState(w.heap, cnt);
    if FreeRun(h, cnt).Some? {
      var p := FreeRun(h, cnt).value;
      TakeRun(h.used, h.runs, owner, p, cnt);
      OthersPages(h, h', SetRange(owner, p, cnt, Some(p)));
    }
    SameBlocks(w, w.(heap := h'));
  }

  lemma PageFreeStep(w: World, p: nat)
    requires Inv(w) && Enabled(w, PageFree(p))
    ensures Inv(Apply(w, PageFree(p)))
  {
    var owner :| Core(w.heap, owner, -1);
    var h := w.heap;
    GiveRun(h.used, h.runs, owner, p);
    OthersPages(h, GiveState(h, p), SetRange(owner, p, h.runs[p], None));
    SameBlocks(w, w.(heap := GiveState(h, p)));
  }

  lemma StepKeeps(w: World, a: Action)
    requires Inv(w) && Enabled(w, a)
    ensures Inv(Apply(w, a))
  {
    match a
    case Malloc(size) => MallocStep(w, size);
    case Free(b) => FreeStep(w, b);
    case PageGet(cnt) => PageGetStep(w, cnt);
    case PageFree(p) => PageFreeStep(w, p);
  }

  /** After `palloc_init` and `malloc_init`. */
  function Init(pages: nat): World {
    World(Heap(seq(pages, _ => false), map[], map[], seq(DESCS, _ => [])), map[])
  }

  lemma InitInv(pages: nat)
    ensures Inv(Init(pages))
  {
    var owner := seq<Option<nat>>(pages, _ => None);
    assert Core(Init(pages).heap, owner, -1);
  }

  /** The world after the actions, if each was enabled. */
  ghost function Run(pages: nat, actions: seq<Action>): (r: Option<World>)
    ensures r.Some? ==> Inv(r.value)
  {
    if actions == [] then
      InitInv(pages);
      Some(Init(pages))
    else
      var n := |actions| - 1;
      match Run(pages, actions[..n])
      case None => None
      case Some(w) =>
        if Enabled(w, actions[n]) then
          StepKeeps(w, actions[n]);
          Some(Apply(w, actions[n]))
        else None
  }

  /** In every run the requests that have been served have blocks that are large enough (exactly
      when the size and the header do not overflow), that do not overlap and that leave the headers
      alone; each arena counts its free blocks exactly and has one in use; and the used pages are
      those of the outstanding runs, none of them in two. */
  lemma EveryRunIsSafe(pages: nat, actions: seq<Action>)
    requires Run(pages, actions).Some?
    ensures var w := Run(pages, actions).value; var h := w.heap;
      && (forall a: nat :: a in w.sizes ==> Enough(w, a))
      && (forall a: nat, b: nat :: a in w.sizes && b in w.sizes && a < b ==> a + Capacity(h, a) <= b)
      && (forall a: nat, q: nat :: a in w.sizes && q in h.arenas ==>
           a + Capacity(h, a) <= q * PGSIZE || q * PGSIZE + HEADER <= a)
      && |h.free| == DESCS
      && (forall p: nat :: p in h.arenas && h.arenas[p].Small? ==> var Small(d, cnt) := h.arenas[p];
           d < DESCS && cnt == |FreeIn(h.free[d], p)| < PerArena(d))
      && (forall p: nat, q: nat :: p in h.runs && q in h.runs && p < q ==> p + h.runs[p] <= q)
      && (forall k: nat :: k < |h.used| ==> (h.used[k] <==> exists p: nat :: p in h.runs && InRun(k, p, h.runs[p])))
  {
    var w := Run(pages, actions).value;
    var owner :| Core(w.heap, owner, -1);
    forall a: nat, b: nat | a in w.sizes && b in w.sizes && a < b
      ensures a + Capacity(w.heap, a) <= b
    {
      BlocksDisjoint(w.heap, owner, a, b);
    }
    forall a: nat, q: nat | a in w.sizes && q in w.heap.arenas
      ensures a + Capacity(w.heap, a) <= q * PGSIZE || q * PGSIZE + HEADER <= a
    {
      HeadersKept(w.heap, owner, a, q);
    }
    forall p: nat | p in w.heap.arenas
      ensures ArenaOk(w.heap, p, false)
    {
    }
    UsedExactly(w.heap, owner);
  }

  /** Nothing is on the free list of descriptor `d` exactly when all blocks of its arenas are in use. */
  lemma NothingFree(h: Heap, d: nat)
    requires ListInv(h) && d < DESCS
    ensures h.free[d] == [] <==> forall a: nat :: InArena(h.arenas, a, d) ==> Allocated(h, a)
  {
    assert ListOk(h.arenas, h.free[d], d);
    if h.free[d] != [] { assert InArena(h.arenas, h.free[d][0], d) && !Allocated(h, h.free[d][0]); }
  }

  /** In every run `malloc` returns no block exactly when nothing is left that would do; a block that it
      returns is not among those in use, and costs no more than it has to. */
  lemma RunFails(pages: nat, actions: seq<Action>, size: nat)
    requires Run(pages, actions).Some? && size < SIZE_LIMIT
    ensures ListInv(Run(pages, actions).value.heap)
    ensures var w := Run(pages, actions).value;
      match MallocState(w.heap, size)
      case (h, None) => Exhausted(w.heap, size) && h == w.heap
      case (h, Some(a)) => !Exhausted(w.heap, size) && a !in w.sizes && Costs(w.heap, size, a, h)
  {
    hide Exhausted, Costs;
    var w := Run(pages, actions).value;
    var owner :| Core(w.heap, owner, -1);
    var owner' := MallocKeeps(w.heap, owner, size);
    MallocFails(w.heap, size);
    var (h, r) := MallocState(w.heap, size);
    if r.Some? { MallocCosts(w.heap, size, r.value, h); }
  }

  lemma UsedExactly(h: Heap, owner: seq<Option<nat>>)
    requires Core(h, owner, -1)
    ensures forall p: nat, q: nat :: p in h.runs && q in h.runs && p < q ==> p + h.runs[p] <= q
    ensures forall k: nat :: k < |h.used| ==> (h.used[k] <==> exists p: nat :: p in h.runs && InRun(k, p, h.runs[p]))
  {
    forall p: nat, q: nat | p in h.runs && q in h.runs && p < q
      ensures p + h.runs[p] <= q
    {
      RunsDisjoint(h.used, h.runs, owner, p, q);
    }
    forall k: nat | k < |h.used|
      ensures h.used[k] <==> exists p: nat :: p in h.runs && InRun(k, p, h.runs[p])
    {
      if h.used[k] { assert InRun(k, owner[k].value, h.runs[owner[k].value]); }
      if p: nat :| p in h.runs && InRun(k, p, h.runs[p]) { assert RunOwned(owner, p, h.runs[p]); }
    }
  }

  /** In every run, freeing a block gives its pages back exactly when no other block is in them. */
  lemma FreeReturnsPages(pages: nat, actions: seq<Action>, b: nat)
    requires Run(pages, actions).Some? && b in Run(pages, actions).value.sizes
    ensures var w := Run(pages, actions).value; var p, h' := b / PGSIZE, Apply(w, Free(b)).heap;
      && p in w.heap.arenas && p < |h'.used| == |w.heap.used|
      && (h'.used[p] <==> exists c: nat :: c in w.sizes && c != b && c / PGSIZE == p)
      && (p in h'.arenas <==> h'.used[p])
      && (!h'.used[p] ==> forall k: nat :: InRun(k, p, w.heap.runs[p]) ==> k < |h'.used| && !h'.used[k])
  {
    var w := Run(pages, actions).value;
    var owner :| Core(w.heap, owner, -1);
    BlockInPool(w, b);
    BlockInRun(w.heap, owner, b);
    if w.heap.arenas[b / PGSIZE].Small? {
      PageReturned(w.heap, owner, b);
      SmallReturns(w, b);
    } else {
      BigReturns(w, owner, b);
    }
  }

  lemma SmallReturns(w: World, b: nat)
    requires Inv(w) && b in w.sizes
    ensures (exists c: nat :: c != b && c / PGSIZE == b / PGSIZE && Allocated(w.heap, c)) <==>
      exists c: nat :: c in w.sizes && c != b && c / PGSIZE == b / PGSIZE
  {
    assert forall c: nat :: Allocated(w.heap, c) <==> c in w.sizes;
  }

  lemma BigReturns(w: World, owner: seq<Option<nat>>, b: nat)
    requires Inv(w) && Core(w.heap, owner, -1) && b in w.sizes && Allocated(w.heap, b) && w.heap.arenas[b / PGSIZE].Big?
    requires b / PGSIZE in w.heap.runs && w.heap.runs[b / PGSIZE] == Span(w.heap.arenas[b / PGSIZE])
    requires b / PGSIZE + Span(w.heap.arenas[b / PGSIZE]) <= |w.heap.used|
    ensures var p, h' := b / PGSIZE, FreeState(w.heap, b);
      && p < |h'.used| == |w.heap.used| && !h'.used[p] && p !in h'.arenas
      && (forall c: nat :: c in w.sizes && c != b ==> c / PGSIZE != p)
      && (forall k: nat :: InRun(k, p, w.heap.runs[p]) ==> k < |h'.used| && !h'.used[k])
  {
    assert ArenaOk(w.heap, b / PGSIZE, false);
    forall c: nat | c in w.sizes && c != b
      ensures c / PGSIZE != b / PGSIZE
    {
      assert Allocated(w.heap, c);
    }
  }

  /** The largest request of all is served with less than a page. */
  lemma ShortBlock(pages: nat)
    requires pages > 0
    ensures Run(pages, [Malloc(SIZE_LIMIT - 1)]).Some?
    ensures var w := Run(pages, [Malloc(SIZE_LIMIT - 1)]).value;
      && HEADER in w.sizes && w.sizes[HEADER] == SIZE_LIMIT - 1
      && Allocated(w.heap, HEADER) && Capacity(w.heap, HEADER) == PGSIZE - HEADER
  {
    var size, w := SIZE_LIMIT - 1, Init(pages);
    InitInv(pages);
    WrapsAround();
    FirstPage(pages);
    assert [Malloc(size)][..0] == [];
    assert Run(pages, []) == Some(w);
    assert MallocState(w.heap, size) == (BigState(w.heap, 0, 1), Some(HEADER));
  }

  lemma WrapsAround()
    ensures PageCnt(SIZE_LIMIT - 1) == 1 && DescFrom(SIZE_LIMIT - 1, 0) == DESCS
  {
    var d := DescFrom(SIZE_LIMIT - 1, 0);
    if d < DESCS { ManyBlocks(d); }
  }

  lemma FirstPage(pages: nat)
    requires pages > 0
    ensures FreeRun(Init(pages).heap, 1) == Some(0)
  {
    var bits := Init(pages).heap.used;
    ScanUnique(bits, 0, 1, false, Some(0), FirstGroup(bits, 0, 1, false));
  }
}
