/** Who owns which sector: `filesys/inode.c`, `free-map.c`, `directory.c` and `filesys.c`. */
module FileSystem {
  import opened Wrappers
  import opened Bitmap
  import FileData

  const FREE_MAP_SECTOR: nat := 0
  const ROOT_DIR_SECTOR: nat := 1
  const NAME_MAX: nat := 14

  type Header = FileData.Inode

  /** An in-memory inode; the list of open inodes is a map from sectors. */
  datatype Open = Open(openCnt: nat, removed: bool, denyWriteCnt: nat, data: Header)

  /** A directory entry. */
  datatype Slot = Slot(inUse: bool, name: string, sector: nat)

  /** `disk[k]` is the header that was last written to sector `k`, or `None` if something else
      was; `slots` are the entries of the root directory; `plain` and `denying` hold the inode
      of each open file, according to whether the file denies writes. */
  datatype State = State(marked: seq<bool>, disk: seq<Option<Header>>, slots: seq<Slot>, open: map<nat, Open>,
                         plain: multiset<nat>, denying: multiset<nat>)

  function Sectors(h: Header): nat { FileData.SectorsOf(h.length) }

  // ---- ownership

  /** A sector is free, belongs to the inode in some header sector, or is marked but lost (or
      about to be given to a new file). */
  datatype Owner = Free | Of(inode: nat) | Stray

  predicate Live(owner: seq<Owner>, i: nat) { i < |owner| && owner[i] == Of(i) }

  predicate InExtent(h: Header, k: nat) { h.start <= k < h.start + Sectors(h) }

  /** The inode in sector `i` owns its header sector and its extent. */
  ghost predicate Holds(disk: seq<Option<Header>>, owner: seq<Owner>, i: nat)
    requires |disk| == |owner| && i < |disk|
  {
    && disk[i].Some? && disk[i].value.start + Sectors(disk[i].value) <= |disk| && !InExtent(disk[i].value, i)
    && forall k: nat :: k < |disk| && InExtent(disk[i].value, k) ==> owner[k] == Of(i)
  }

  predicate BelongsTo(disk: seq<Option<Header>>, k: nat, i: nat) {
    i < |disk| && (k == i || (disk[i].Some? && InExtent(disk[i].value, k)))
  }

  /** The free map marks the sectors that are owned, every live inode owns its sectors, and
      every sector with an inode for an owner is one of that inode's. */
  ghost predicate SectorInv(marked: seq<bool>, disk: seq<Option<Header>>, owner: seq<Owner>) {
    && |marked| == |disk| == |owner|
    && (forall k: nat :: k < |marked| ==> marked[k] == (owner[k] != Free))
    && (forall i: nat :: Live(owner, i) ==> Holds(disk, owner, i))
    && (forall k: nat :: k < |owner| && owner[k].Of? ==> Live(owner, owner[k].inode) && BelongsTo(disk, k, owner[k].inode))
  }

  /** Sectors of different live inodes are different. */
  lemma OwnersDisjoint(marked: seq<bool>, disk: seq<Option<Header>>, owner: seq<Owner>, i: nat, j: nat, k: nat)
    requires SectorInv(marked, disk, owner) && Live(owner, i) && Live(owner, j)
    requires k < |disk| && BelongsTo(disk, k, i) && BelongsTo(disk, k, j)
    ensures i == j && marked[k]
  {
    assert Holds(disk, owner, i) && Holds(disk, owner, j);
  }

  /** Marking free sectors. */
  lemma TakeSectors(marked: seq<bool>, disk: seq<Option<Header>>, owner: seq<Owner>, p: nat, cnt: nat)
    requires SectorInv(marked, disk, owner) && p + cnt <= |marked| && AllAre(marked, p, cnt, false)
    ensures SectorInv(SetRange(marked, p, cnt, true), disk, SetRange(owner, p, cnt, Stray))
    ensures forall i: nat :: Live(SetRange(owner, p, cnt, Stray), i) <==> Live(owner, i)
  {
    var owner' := SetRange(owner, p, cnt, Stray);
    assert forall k: nat :: p <= k < p + cnt ==> !marked[k] && owner[k] == Free;
    forall i: nat
      ensures Live(owner', i) <==> Live(owner, i)
      ensures Live(owner', i) ==> Holds(disk, owner', i)
    {
      assert Live(owner, i) ==> Holds(disk, owner, i);
    }
  }

  /** Writing to stray sectors changes no live inode. */
  lemma WriteStrays(marked: seq<bool>, disk: seq<Option<Header>>, disk': seq<Option<Header>>, owner: seq<Owner>)
    requires SectorInv(marked, disk, owner) && |disk'| == |disk|
    requires forall k: nat :: k < |disk| && Live(owner, k) ==> disk'[k] == disk[k]
    ensures SectorInv(marked, disk', owner)
  {
    forall i: nat | Live(owner, i)
      ensures Holds(disk', owner, i)
    {
      assert Holds(disk, owner, i);
    }
    forall k: nat | k < |owner| && owner[k].Of?
      ensures BelongsTo(disk', k, owner[k].inode)
    {
      assert Live(owner, owner[k].inode);
    }
  }

  /** Clearing the mark of stray sectors. */
  lemma DropStrays(marked: seq<bool>, disk: seq<Option<Header>>, owner: seq<Owner>, p: nat, cnt: nat)
    requires SectorInv(marked, disk, owner) && p + cnt <= |marked|
    requires forall k: nat :: p <= k < p + cnt ==> owner[k] == Stray
    ensures AllAre(marked, p, cnt, true)
    ensures SectorInv(SetRange(marked, p, cnt, false), disk, SetRange(owner, p, cnt, Free))
    ensures forall i: nat :: Live(SetRange(owner, p, cnt, Free), i) <==> Live(owner, i)
  {
    var owner' := SetRange(owner, p, cnt, Free);
    forall i: nat
      ensures Live(owner', i) <==> Live(owner, i)
      ensures Live(owner', i) ==> Holds(disk, owner', i)
    {
      assert Live(owner, i) ==> Holds(disk, owner, i);
    }
  }

  ghost function Given(owner: seq<Owner>, i: nat, h: Header, o: Owner): (r: seq<Owner>)
    requires i < |owner| && h.start + Sectors(h) <= |owner|
    ensures |r| == |owner|
    ensures forall k: nat :: k < |owner| ==> r[k] == if k == i || InExtent(h, k) then o else owner[k]
  {
    SetRange(SetRange(owner, h.start, Sectors(h), o), i, 1, o)
  }

  /** Stray sectors become an inode. */
  lemma Adopt(marked: seq<bool>, disk: seq<Option<Header>>, owner: seq<Owner>, i: nat, h: Header)
    requires SectorInv(marked, disk, owner) && i < |disk| && disk[i] == Some(h)
    requires h.start + Sectors(h) <= |disk| && !InExtent(h, i)
    requires forall k: nat :: k < |owner| && (k == i || InExtent(h, k)) ==> owner[k] == Stray
    ensures SectorInv(marked, disk, Given(owner, i, h, Of(i)))
    ensures forall j: nat :: Live(Given(owner, i, h, Of(i)), j) <==> j == i || Live(owner, j)
  {
    var owner' := Given(owner, i, h, Of(i));
    forall j: nat
      ensures Live(owner', j) <==> j == i || Live(owner, j)
      ensures Live(owner', j) ==> Holds(disk, owner', j)
    {
      assert Live(owner, j) ==> Holds(disk, owner, j);
    }
  }

  /** An inode gives up its sectors, which are all marked. */
  lemma Disown(marked: seq<bool>, disk: seq<Option<Header>>, owner: seq<Owner>, i: nat)
    requires SectorInv(marked, disk, owner) && Live(owner, i)
    ensures Holds(disk, owner, i) && marked[i]
    ensures AllAre(marked, disk[i].value.start, Sectors(disk[i].value), true)
    ensures var h := disk[i].value;
      SectorInv(SetRange(SetRange(marked, i, 1, false), h.start, Sectors(h), false), disk, Given(owner, i, h, Free))
    ensures forall j: nat :: Live(Given(owner, i, disk[i].value, Free), j) <==> j != i && Live(owner, j)
  {
    assert Holds(disk, owner, i);
    var h := disk[i].value;
    var owner' := Given(owner, i, h, Free);
    forall j: nat
      ensures Live(owner', j) <==> j != i && Live(owner, j)
      ensures Live(owner', j) ==> Holds(disk, owner', j)
    {
      assert Live(owner, j) ==> Holds(disk, owner, j);
    }
    forall k: nat | k < |owner'| && owner'[k].Of?
      ensures Live(owner', owner'[k].inode)
    {
      assert Live(owner, owner[k].inode);
    }
  }

  // ---- the invariant

  ghost predicate OpenOk(disk: seq<Option<Header>>, owner: seq<Owner>, o: Open, i: nat, refs: nat, denies: nat) {
    && Live(owner, i) && i < |disk| && disk[i] == Some(o.data)
    && o.openCnt == refs > 0 && o.denyWriteCnt == denies <= refs
  }

  /** `refs` are the references to inodes that somebody holds, `denies` the calls of
      `inode_deny_write` in force. */
  ghost predicate OpenInv(s: State, owner: seq<Owner>, refs: multiset<nat>, denies: multiset<nat>) {
    && (forall i: nat :: i in s.open ==> OpenOk(s.disk, owner, s.open[i], i, refs[i], denies[i]))
    && (forall i: nat :: i in refs ==> i in s.open)
  }

  ghost predicate SlotOk(s: State, owner: seq<Owner>, k: nat)
    requires k < |s.slots|
  {
    s.slots[k].inUse ==>
      var i := s.slots[k].sector;
      Live(owner, i) && i != FREE_MAP_SECTOR && i != ROOT_DIR_SECTOR && (i in s.open ==> !s.open[i].removed)
  }

  predicate SlotsApart(slots: seq<Slot>) {
    forall j: nat, k: nat :: j < k < |slots| && slots[j].inUse && slots[k].inUse ==> slots[j].sector != slots[k].sector
  }

  /** Entries name different live inodes, none of which has been removed. */
  ghost predicate SlotInv(s: State, owner: seq<Owner>) {
    SlotsApart(s.slots) && forall k: nat :: k < |s.slots| ==> SlotOk(s, owner, k)
  }

  /** The free map and the root directory are there to stay. */
  ghost predicate RootInv(s: State, owner: seq<Owner>) {
    && Live(owner, FREE_MAP_SECTOR) && Live(owner, ROOT_DIR_SECTOR)
    && (FREE_MAP_SECTOR in s.open ==> !s.open[FREE_MAP_SECTOR].removed)
    && (ROOT_DIR_SECTOR in s.open ==> !s.open[ROOT_DIR_SECTOR].removed)
  }

  ghost predicate Core(s: State, owner: seq<Owner>, refs: multiset<nat>, denies: multiset<nat>) {
    SectorInv(s.marked, s.disk, owner) && OpenInv(s, owner, refs, denies) && SlotInv(s, owner) && RootInv(s, owner)
  }

  // ---- inodes in memory

  function OpenInode(s: State, i: nat): State
    requires i in s.open || (i < |s.disk| && s.disk[i].Some?)
  {
    s.(open := s.open[i := if i in s.open then s.open[i].(openCnt := s.open[i].openCnt + 1)
                           else Open(1, false, 0, s.disk[i].value)])
  }

  predicate Openable(s: State, i: nat) { i in s.open || (i < |s.disk| && s.disk[i].Some?) }

  lemma OpenKeeps(s: State, owner: seq<Owner>, refs: multiset<nat>, denies: multiset<nat>, i: nat)
    requires Core(s, owner, refs, denies) && Live(owner, i) && denies <= refs
    ensures Openable(s, i) && Core(OpenInode(s, i), owner, refs + multiset{i}, denies)
  {
    assert Holds(s.disk, owner, i);
    OpenOpens(s, owner, refs, denies, i);
    OpenSlots(s, owner, i);
  }

  lemma OpenOpens(s: State, owner: seq<Owner>, refs: multiset<nat>, denies: multiset<nat>, i: nat)
    requires OpenInv(s, owner, refs, denies) && Live(owner, i) && i < |s.disk| && s.disk[i].Some? && denies <= refs
    ensures OpenInv(OpenInode(s, i), owner, refs + multiset{i}, denies)
  {
    var s' := OpenInode(s, i);
    forall j: nat | j in s'.open
      ensures OpenOk(s'.disk, owner, s'.open[j], j, (refs + multiset{i})[j], denies[j])
    {
      if j in s.open {
        assert OpenOk(s.disk, owner, s.open[j], j, refs[j], denies[j]);
      } else {
        assert j !in refs && denies[j] <= refs[j];
      }
    }
  }

  lemma OpenSlots(s: State, owner: seq<Owner>, i: nat)
    requires SlotInv(s, owner) && RootInv(s, owner) && Openable(s, i)
    ensures SlotInv(OpenInode(s, i), owner) && RootInv(OpenInode(s, i), owner)
  {
    var s' := OpenInode(s, i);
    forall k: nat | k < |s'.slots|
      ensures SlotOk(s', owner, k)
    {
      assert SlotOk(s, owner, k);
    }
  }

  function Release(marked: seq<bool>, p: nat, cnt: nat): seq<bool>
    requires p + cnt <= |marked|
  {
    SetRange(marked, p, cnt, false)
  }

  /** The marks after the last reference to a removed inode has gone. */
  function Freed(marked: seq<bool>, i: nat, h: Header): seq<bool>
    requires i < |marked| && h.start + Sectors(h) <= |marked|
  {
    Release(Release(marked, i, 1), h.start, Sectors(h))
  }

  function CloseInode(s: State, i: nat): State
    requires i in s.open && i < |s.marked| && s.open[i].data.start + Sectors(s.open[i].data) <= |s.marked|
  {
    var o := s.open[i];
    if o.openCnt > 1 then s.(open := s.open[i := o.(openCnt := o.openCnt - 1)])
    else if !o.removed then s.(open := s.open - {i})
    else s.(open := s.open - {i}, marked := Freed(s.marked, i, o.data))
  }

  predicate Closable(s: State, i: nat) {
    i in s.open && i < |s.marked| && s.open[i].data.start + Sectors(s.open[i].data) <= |s.marked|
  }

  lemma OpenIsClosable(s: State, owner: seq<Owner>, refs: multiset<nat>, denies: multiset<nat>, i: nat)
    requires Core(s, owner, refs, denies) && i in refs
    ensures Closable(s, i) && s.open[i].openCnt == refs[i]
  {
    assert OpenOk(s.disk, owner, s.open[i], i, refs[i], denies[i]);
    assert Holds(s.disk, owner, i);
  }

  /** Closing keeps the invariant; an inode that is removed and no longer referred to gives up
      its sectors, which were all marked. */
  lemma CloseKeeps(s: State, owner: seq<Owner>, refs: multiset<nat>, denies: multiset<nat>, i: nat)
    returns (owner': seq<Owner>)
    requires Core(s, owner, refs, denies) && i in refs && denies <= refs - multiset{i}
    ensures Closable(s, i) && Core(CloseInode(s, i), owner', refs - multiset{i}, denies)
    ensures owner' == if refs[i] == 1 && s.open[i].removed then Given(owner, i, s.open[i].data, Free) else owner
  {
    OpenIsClosable(s, owner, refs, denies, i);
    assert OpenOk(s.disk, owner, s.open[i], i, refs[i], denies[i]);
    owner' := owner;
    if refs[i] == 1 && s.open[i].removed {
      Disown(s.marked, s.disk, owner, i);
      owner' := Given(owner, i, s.open[i].data, Free);
    }
    CloseOpens(s, owner, owner', refs, denies, i);
    CloseSlots(s, owner, owner', i);
  }

  /** The assertions of `free_map_release` for an inode that is to go. */
  ghost predicate Releasable(s: State, i: nat)
    requires Closable(s, i)
  {
    var h := s.open[i].data;
    AllAre(s.marked, i, 1, true) && AllAre(Release(s.marked, i, 1), h.start, Sectors(h), true)
  }

  /** They hold whenever a reference is given up. */
  lemma AlwaysReleasable(s: State, owner: seq<Owner>, refs: multiset<nat>, denies: multiset<nat>, i: nat)
    requires Core(s, owner, refs, denies) && i in refs
    ensures Closable(s, i) && s.open[i].openCnt > 0 && Releasable(s, i)
  {
    OpenIsClosable(s, owner, refs, denies, i);
    assert OpenOk(s.disk, owner, s.open[i], i, refs[i], denies[i]);
    Disown(s.marked, s.disk, owner, i);
  }

  lemma CloseOpens(s: State, owner: seq<Owner>, owner': seq<Owner>, refs: multiset<nat>, denies: multiset<nat>, i: nat)
    requires OpenInv(s, owner, refs, denies) && i in refs && denies <= refs - multiset{i} && Closable(s, i)
    requires forall j: nat :: j != i && Live(owner, j) ==> Live(owner', j)
    requires refs[i] == 1 || Live(owner', i)
    ensures OpenInv(CloseInode(s, i), owner', refs - multiset{i}, denies)
  {
    var s' := CloseInode(s, i);
    assert OpenOk(s.disk, owner, s.open[i], i, refs[i], denies[i]);
    forall j: nat | j in s'.open
      ensures OpenOk(s'.disk, owner', s'.open[j], j, (refs - multiset{i})[j], denies[j])
    {
      assert OpenOk(s.disk, owner, s.open[j], j, refs[j], denies[j]);
      assert denies[j] <= (refs - multiset{i})[j];
    }
  }

  lemma CloseSlots(s: State, owner: seq<Owner>, owner': seq<Owner>, i: nat)
    requires SlotInv(s, owner) && RootInv(s, owner) && Closable(s, i)
    requires forall j: nat :: Live(owner, j) ==> Live(owner', j) || (j == i && s.open[i].removed)
    ensures SlotInv(CloseInode(s, i), owner') && RootInv(CloseInode(s, i), owner')
  {
    var s' := CloseInode(s, i);
    forall k: nat | k < |s'.slots|
      ensures SlotOk(s', owner', k)
    {
      assert SlotOk(s, owner, k);
    }
  }

  // ---- directory entries

  /** `lookup`, when the first `seen` reads of the directory succeed: the scan takes a read that
      fails for want of memory for the end of the directory. */
  function Lookup(slots: seq<Slot>, name: string, seen: nat, from: nat): (r: Option<nat>)
    requires from <= |slots|
    ensures r.Some? ==> from <= r.value < |slots| && r.value < seen && slots[r.value].inUse && slots[r.value].name == name
    ensures forall k: nat :: from <= k < |slots| && k < seen && (r.Some? ==> k < r.value) ==>
      !(slots[k].inUse && slots[k].name == name)
    decreases |slots| - from
  {
    if from == |slots| || from >= seen then None
    else if slots[from].inUse && slots[from].name == name then Some(from)
    else Lookup(slots, name, seen, from + 1)
  }

  /** Where `dir_add` puts the entry: the first slot that it does not see in use. */
  function FreeSlot(slots: seq<Slot>, seen: nat, from: nat): (r: nat)
    requires from <= |slots|
    ensures from <= r <= |slots|
    ensures r < seen && r < |slots| ==> !slots[r].inUse
    ensures forall k: nat :: from <= k < r ==> slots[k].inUse
    decreases |slots| - from
  {
    if from == |slots| || from >= seen || !slots[from].inUse then from else FreeSlot(slots, seen, from + 1)
  }

  /** Which of the steps that need memory find it. */
  datatype Memory = Memory(root: bool,      // dir_open_root
                           header: bool,    // writing the free map for the header sector
                           inode: bool,     // inode_create or inode_open
                           extent: bool,    // writing the free map for the extent
                           scan: nat,       // how many reads of the directory succeed in lookup
                           rescan: nat,     // and in the search for a free slot
                           write: bool,     // writing the directory entry
                           file: bool)      // file_open

  function AddEntry(slots: seq<Slot>, name: string, i: nat, m: Memory): Option<seq<Slot>> {
    if name == "" || |name| > NAME_MAX || Lookup(slots, name, m.scan, 0).Some? then None
    else
      var k := FreeSlot(slots, m.rescan, 0);
      if m.write && k < |slots| then Some(slots[k := Slot(true, name, i)]) else None
  }

  lemma AddKeeps(s: State, owner: seq<Owner>, name: string, i: nat, m: Memory)
    requires SlotInv(s, owner) && AddEntry(s.slots, name, i, m).Some?
    requires Live(owner, i) && i != FREE_MAP_SECTOR && i != ROOT_DIR_SECTOR && i !in s.open
    requires forall k: nat :: k < |s.slots| && s.slots[k].inUse ==> s.slots[k].sector != i
    ensures SlotInv(s.(slots := AddEntry(s.slots, name, i, m).value), owner)
  {
    var s' := s.(slots := AddEntry(s.slots, name, i, m).value);
    forall k: nat | k < |s'.slots|
      ensures SlotOk(s', owner, k)
    {
      assert SlotOk(s, owner, k);
    }
  }

  // ---- filesys_create

  /** `free_map_allocate`; when the free map cannot be written the marks are taken back. */
  ghost function Allocate(marked: seq<bool>, cnt: nat, written: bool): (r: Option<nat>)
    ensures r.Some? ==> r.value + cnt <= |marked| && AllAre(marked, r.value, cnt, false)
  {
    var r := FirstGroup(marked, 0, cnt, false);
    if written then r else None
  }

  /** The state with an inode of `size` bytes written to sector `i`, and `p` for its extent. */
  function NewInode(s: State, i: nat, p: nat, size: nat): State
    requires |s.disk| == |s.marked| && i < |s.marked| && p + FileData.SectorsOf(size) <= |s.marked|
  {
    var n := FileData.SectorsOf(size);
    s.(marked := SetRange(SetRange(s.marked, i, 1, true), p, n, true),
       disk := SetRange(s.disk[i := Some(FileData.Inode(p, size))], p, n, None))
  }

  ghost function CreateState(s: State, name: string, size: nat, m: Memory): (State, bool)
    requires |s.disk| == |s.marked|
  {
    match if m.root then Allocate(s.marked, 1, m.header) else None
    case None => (s, false)
    case Some(i) =>
      match if m.inode then Allocate(SetRange(s.marked, i, 1, true), FileData.SectorsOf(size), m.extent) else None
      case None => (s, false)
      case Some(p) => AddNew(NewInode(s, i, p, size), name, i, m)
  }

  /** `dir_add` for a new inode, and what `filesys_create` does when it fails. */
  function AddNew(s: State, name: string, i: nat, m: Memory): (State, bool)
    requires i < |s.marked|
  {
    match AddEntry(s.slots, name, i, m)
    case Some(slots) => (s.(slots := slots), true)
    case None => (s.(marked := Release(s.marked, i, 1)), false)
  }

  /** The new inode before it has an entry: its sectors are marked, and nobody's. */
  lemma NewKeeps(s: State, owner: seq<Owner>, refs: multiset<nat>, denies: multiset<nat>, i: nat, p: nat, size: nat)
    returns (owner': seq<Owner>)
    requires Core(s, owner, refs, denies) && i < |s.marked| && p + FileData.SectorsOf(size) <= |s.marked|
    requires AllAre(s.marked, i, 1, false) && AllAre(SetRange(s.marked, i, 1, true), p, FileData.SectorsOf(size), false)
    ensures Core(NewInode(s, i, p, size), owner', refs, denies)
    ensures var h := FileData.Inode(p, size);
      NewInode(s, i, p, size).disk[i] == Some(h) && !InExtent(h, i) && owner' == Given(owner, i, h, Stray)
    ensures forall j: nat :: Live(owner', j) <==> Live(owner, j)
  {
    var n, h, s' := FileData.SectorsOf(size), FileData.Inode(p, size), NewInode(s, i, p, size);
    var owner1 := SetRange(owner, i, 1, Stray);
    TakeSectors(s.marked, s.disk, owner, i, 1);
    TakeSectors(SetRange(s.marked, i, 1, true), s.disk, owner1, p, n);
    owner' := SetRange(owner1, p, n, Stray);
    assert SetRange(s.marked, i, 1, true)[i];
    assert owner' == Given(owner, i, h, Stray);
    WriteStrays(s'.marked, s.disk, s'.disk, owner');
    SameInodes(s, s', owner, owner', refs, denies);
  }

  /** Nothing that concerns live inodes has changed. */
  lemma SameInodes(s: State, s': State, owner: seq<Owner>, owner': seq<Owner>, refs: multiset<nat>, denies: multiset<nat>)
    requires OpenInv(s, owner, refs, denies) && SlotInv(s, owner) && RootInv(s, owner)
    requires s'.open == s.open && s'.slots == s.slots && |s'.disk| == |s.disk|
    requires forall j: nat :: Live(owner, j) ==> Live(owner', j)
    requires forall j: nat :: j < |s.disk| && Live(owner, j) ==> s'.disk[j] == s.disk[j]
    ensures OpenInv(s', owner', refs, denies) && SlotInv(s', owner') && RootInv(s', owner')
  {
    forall j: nat | j in s'.open
      ensures OpenOk(s'.disk, owner', s'.open[j], j, refs[j], denies[j])
    {
      assert OpenOk(s.disk, owner, s.open[j], j, refs[j], denies[j]);
    }
    forall k: nat | k < |s'.slots|
      ensures SlotOk(s', owner', k)
    {
      assert SlotOk(s, owner, k);
    }
  }

  lemma AddNewKeeps(s: State, owner: seq<Owner>, refs: multiset<nat>, denies: multiset<nat>, name: string, i: nat, h: Header, m: Memory)
    returns (owner': seq<Owner>)
    requires Core(s, owner, refs, denies) && i < |s.disk| && s.disk[i] == Some(h)
    requires h.start + Sectors(h) <= |s.disk| && !InExtent(h, i)
    requires forall k: nat :: k < |owner| && (k == i || InExtent(h, k)) ==> owner[k] == Stray
    ensures Core(AddNew(s, name, i, m).0, owner', refs, denies)
    ensures owner' == if AddNew(s, name, i, m).1 then Given(owner, i, h, Of(i)) else SetRange(owner, i, 1, Free)
  {
    var s' := AddNew(s, name, i, m).0;
    assert i in s.open ==> OpenOk(s.disk, owner, s.open[i], i, refs[i], denies[i]);
    if AddEntry(s.slots, name, i, m).Some? {
      owner' := Given(owner, i, h, Of(i));
      Adopt(s.marked, s.disk, owner, i, h);
      NotListed(s, owner, i);
      SameInodes(s, s, owner, owner', refs, denies);
      AddKeeps(s, owner', name, i, m);
      AddedOpens(s, s', owner', refs, denies);
    } else {
      owner' := SetRange(owner, i, 1, Free);
      DropStrays(s.marked, s.disk, owner, i, 1);
      SameInodes(s, s', owner, owner', refs, denies);
    }
  }

  lemma NotListed(s: State, owner: seq<Owner>, i: nat)
    requires SlotInv(s, owner) && !Live(owner, i)
    ensures forall k: nat :: k < |s.slots| && s.slots[k].inUse ==> s.slots[k].sector != i
  {
    forall k: nat | k < |s.slots| && s.slots[k].inUse
      ensures s.slots[k].sector != i
    {
      assert SlotOk(s, owner, k);
    }
  }

  lemma AddedOpens(s: State, s': State, owner: seq<Owner>, refs: multiset<nat>, denies: multiset<nat>)
    requires OpenInv(s, owner, refs, denies) && RootInv(s, owner) && s'.open == s.open && s'.disk == s.disk
    ensures OpenInv(s', owner, refs, denies) && RootInv(s', owner)
  {
    forall j: nat | j in s'.open
      ensures OpenOk(s'.disk, owner, s'.open[j], j, refs[j], denies[j])
    {
      assert OpenOk(s.disk, owner, s.open[j], j, refs[j], denies[j]);
    }
  }

  lemma CreateKeeps(s: State, owner: seq<Owner>, refs: multiset<nat>, denies: multiset<nat>, name: string, size: nat, m: Memory)
    returns (owner': seq<Owner>)
    requires Core(s, owner, refs, denies)
    ensures Core(CreateState(s, name, size, m).0, owner', refs, denies)
  {
    owner' := owner;
    var header := if m.root then Allocate(s.marked, 1, m.header) else None;
    if header.Some? {
      var i := header.value;
      var extent := if m.inode then Allocate(SetRange(s.marked, i, 1, true), FileData.SectorsOf(size), m.extent) else None;
      if extent.Some? {
        var owner1 := NewKeeps(s, owner, refs, denies, i, extent.value, size);
        owner' := AddNewKeeps(NewInode(s, i, extent.value, size), owner1, refs, denies, name, i, FileData.Inode(extent.value, size), m);
      }
    }
  }

  // ---- filesys_remove

  /** The entry cleared, and the inode marked as removed. */
  function Unlink(s: State, k: nat): State
    requires k < |s.slots| && s.slots[k].sector in s.open
  {
    var i := s.slots[k].sector;
    s.(slots := s.slots[k := s.slots[k].(inUse := false)], open := s.open[i := s.open[i].(removed := true)])
  }

  lemma UnlinkKeeps(s: State, owner: seq<Owner>, refs: multiset<nat>, denies: multiset<nat>, k: nat)
    requires Core(s, owner, refs, denies) && k < |s.slots| && s.slots[k].inUse && s.slots[k].sector in s.open
    ensures Core(Unlink(s, k), owner, refs, denies)
  {
    UnlinkSlots(s, owner, k);
    var s' := Unlink(s, k);
    forall j: nat | j in s'.open
      ensures OpenOk(s'.disk, owner, s'.open[j], j, refs[j], denies[j])
    {
      assert OpenOk(s.disk, owner, s.open[j], j, refs[j], denies[j]);
    }
  }

  lemma UnlinkSlots(s: State, owner: seq<Owner>, k: nat)
    requires SlotInv(s, owner) && RootInv(s, owner) && k < |s.slots| && s.slots[k].inUse && s.slots[k].sector in s.open
    ensures SlotInv(Unlink(s, k), owner) && RootInv(Unlink(s, k), owner)
  {
    var s', i := Unlink(s, k), s.slots[k].sector;
    assert SlotOk(s, owner, k);
    forall j: nat | j < |s'.slots|
      ensures SlotOk(s', owner, j)
    {
      assert SlotOk(s, owner, j);
      assert j == k || !s.slots[j].inUse || s.slots[j].sector != i;
    }
  }

  /** `dir_remove` once the entry has been found, in slot `k`. */
  function RemoveEntry(s: State, k: nat, m: Memory): (State, bool)
    requires k < |s.slots| && Openable(s, s.slots[k].sector)
    requires Closable(OpenInode(s, s.slots[k].sector), s.slots[k].sector)
  {
    var i := s.slots[k].sector;
    var s1 := OpenInode(s, i);
    if m.write then (CloseInode(Unlink(s1, k), i), true) else (CloseInode(s1, i), false)
  }

  /** What can be opened for the moment and closed again. */
  lemma BrieflyOpen(s: State, owner: seq<Owner>, refs: multiset<nat>, denies: multiset<nat>, i: nat)
    requires Core(s, owner, refs, denies) && Live(owner, i) && denies <= refs
    ensures Openable(s, i) && Closable(OpenInode(s, i), i)
    ensures Core(OpenInode(s, i), owner, refs + multiset{i}, denies)
  {
    OpenKeeps(s, owner, refs, denies, i);
    OpenIsClosable(OpenInode(s, i), owner, refs + multiset{i}, denies, i);
  }

  lemma SlotLive(s: State, owner: seq<Owner>, k: nat)
    requires SlotInv(s, owner) && k < |s.slots| && s.slots[k].inUse
    ensures Live(owner, s.slots[k].sector)
  {
    assert SlotOk(s, owner, k);
  }

  lemma RemoveKeeps(s: State, owner: seq<Owner>, refs: multiset<nat>, denies: multiset<nat>, k: nat, m: Memory)
    returns (owner': seq<Owner>)
    requires Core(s, owner, refs, denies) && denies <= refs && k < |s.slots| && s.slots[k].inUse
    ensures Openable(s, s.slots[k].sector) && Closable(OpenInode(s, s.slots[k].sector), s.slots[k].sector)
    ensures Core(RemoveEntry(s, k, m).0, owner', refs, denies)
  {
    hide SectorInv, OpenInv, SlotInv, RootInv, Live, CloseInode;
    var i := s.slots[k].sector;
    SlotLive(s, owner, k);
    BrieflyOpen(s, owner, refs, denies, i);
    assert refs + multiset{i} - multiset{i} == refs;
    if m.write {
      UnlinkKeeps(OpenInode(s, i), owner, refs + multiset{i}, denies, k);
      owner' := CloseKeeps(Unlink(OpenInode(s, i), k), owner, refs + multiset{i}, denies, i);
    } else {
      owner' := CloseKeeps(OpenInode(s, i), owner, refs + multiset{i}, denies, i);
    }
  }
}
