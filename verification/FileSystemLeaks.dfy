/** When the file system loses sectors: exactly which calls leave a sector marked that belongs to
    no file any more. */
module FileSystemLeaks {
  import opened Wrappers
  import opened Bitmap
  import opened FileSystem
  import opened FileSystemRuns
  import FileData

  ghost predicate Used(s: State, k: nat) { exists i: nat :: InUse(s, i) && BelongsTo(s.disk, k, i) }

  /** Every marked sector belongs to an inode in use. */
  ghost predicate NoLeak(s: State) { forall k: nat :: k < |s.marked| && s.marked[k] ==> Used(s, k) }

  predicate Listed(s: State, i: nat) { exists k: nat :: k < |s.slots| && s.slots[k].inUse && s.slots[k].sector == i }

  /** The calls that lose sectors: `filesys_create` when there is an extent and `dir_add` fails, or
      when `dir_add` takes a slot in use for a free one and nobody has its file open; and the
      last `file_close` of a file whose entry has been overwritten so. */
  ghost predicate Leaks(s: State, a: Action)
    requires Inv(s) && Enabled(s, a)
  {
    match a
    case Create(name, size, m) =>
      && Built(s, size, m)
      && (match AddEntry(s.slots, name, 0, m)
          case None => FileData.SectorsOf(size) > 0
          case Some(_) =>
            var slot := s.slots[FreeSlot(s.slots, m.rescan, 0)];
            slot.inUse && slot.sector !in s.open)
    case CloseFile(i, _) =>
      Ready(s, a);
      Refs(s)[i] == 1 && !s.open[i].removed && !Listed(s, i)
    case _ => false
  }

  /** `inode_create` succeeds. */
  ghost predicate Built(s: State, size: nat, m: Memory) {
    && m.root && m.inode && Allocate(s.marked, 1, m.header).Some?
    && Allocate(SetRange(s.marked, Allocate(s.marked, 1, m.header).value, 1, true), FileData.SectorsOf(size), m.extent).Some?
  }

  // ---- what stays

  /** The inodes in use are still in use, but for `gone`, and have their headers. */
  ghost predicate Stay(s: State, s': State, gone: set<nat>) {
    && |s'.disk| == |s.disk| && |s'.marked| == |s.marked|
    && forall i: nat :: InUse(s, i) && i !in gone ==> InUse(s', i) && (i < |s.disk| ==> s'.disk[i] == s.disk[i])
  }

  lemma StayUsed(s: State, s': State, gone: set<nat>, k: nat)
    requires Stay(s, s', gone) && Used(s, k) && forall i: nat :: i in gone ==> !BelongsTo(s.disk, k, i)
    ensures Used(s', k)
  {
    var i: nat :| InUse(s, i) && BelongsTo(s.disk, k, i);
    assert InUse(s', i) && BelongsTo(s'.disk, k, i);
  }

  lemma StayNoLeak(s: State, s': State)
    requires Stay(s, s', {}) && NoLeak(s) && s'.marked == s.marked
    ensures NoLeak(s')
  {
    forall k: nat | k < |s'.marked| && s'.marked[k]
      ensures Used(s', k)
    {
      StayUsed(s, s', {}, k);
    }
  }

  /** Nobody owns an unmarked sector. */
  lemma UnmarkedUnused(s: State, k: nat)
    requires Inv(s) && k < |s.marked| && !s.marked[k]
    ensures !Used(s, k) && !InUse(s, k)
  {
    SafeSectors(s);
    SafeLength(s);
    assert BelongsTo(s.disk, k, k);
    forall i: nat | InUse(s, i)
      ensures !BelongsTo(s.disk, k, i)
    {
    }
  }

  lemma SafeLength(s: State)
    requires Inv(s)
    ensures |s.disk| == |s.marked|
  {
    var owner :| Core(s, owner, Refs(s), s.denying);
  }

  /** A sector with an inode for header belongs to no other inode. */
  lemma HeaderOwn(s: State, j: nat, i: nat)
    requires Inv(s) && InUse(s, j) && InUse(s, i) && BelongsTo(s.disk, j, i) && j < |s.disk|
    ensures i == j
  {
    SafeSectors(s);
    assert BelongsTo(s.disk, j, j);
  }

  // ---- filesys_create

  /** Two unmarked places for a new inode. */
  ghost predicate Room(s: State, i: nat, p: nat, size: nat) {
    && i < |s.marked| && p + FileData.SectorsOf(size) <= |s.marked| && AllAre(s.marked, i, 1, false)
    && AllAre(SetRange(s.marked, i, 1, true), p, FileData.SectorsOf(size), false)
  }

  lemma RoomUnmarked(s: State, i: nat, p: nat, size: nat, k: nat)
    requires Room(s, i, p, size) && |s.disk| == |s.marked|
    ensures !InExtent(FileData.Inode(p, size), i) && !s.marked[i]
    ensures InExtent(FileData.Inode(p, size), k) ==> k < |s.marked| && !s.marked[k]
    ensures k < |s.marked| ==>
      NewInode(s, i, p, size).marked[k] == (s.marked[k] || k == i || InExtent(FileData.Inode(p, size), k))
    ensures NewInode(s, i, p, size).disk[i] == Some(FileData.Inode(p, size))
    ensures k < |s.disk| && s.marked[k] ==> NewInode(s, i, p, size).disk[k] == s.disk[k]
  {
    var m1 := SetRange(s.marked, i, 1, true);
    assert m1[i];
    if InExtent(FileData.Inode(p, size), k) { assert !m1[k]; }
  }

  /** The new inode leaves those in use alone. */
  lemma NewStays(s: State, i: nat, p: nat, size: nat, j: nat)
    requires Inv(s) && Room(s, i, p, size) && InUse(s, j)
    ensures |s.disk| == |s.marked| && j < |s.disk| && j != i && s.marked[j]
    ensures NewInode(s, i, p, size).disk[j] == s.disk[j]
  {
    SafeLength(s);
    var owner :| Core(s, owner, Refs(s), s.denying);
    InUseLive(s, owner, j);
    RoomUnmarked(s, i, p, size, j);
  }

  /** The new sectors belong to no inode but the new one. */
  lemma NewUnused(s: State, i: nat, p: nat, size: nat, j: nat, k: nat)
    requires Inv(s) && Room(s, i, p, size) && InUse(s, j) && |s.disk| == |s.marked|
    requires k < |s.marked| && !s.marked[k]
    ensures !BelongsTo(NewInode(s, i, p, size).disk, k, j)
  {
    NewStays(s, i, p, size, j);
    UnmarkedUnused(s, k);
  }

  lemma AddFails(s: State, name: string, i: nat, p: nat, size: nat, m: Memory)
    requires Inv(s) && NoLeak(s) && Room(s, i, p, size) && AddEntry(s.slots, name, i, m).None? && |s.disk| == |s.marked|
    ensures NoLeak(AddNew(NewInode(s, i, p, size), name, i, m).0) <==> FileData.SectorsOf(size) == 0
  {
    var s1 := NewInode(s, i, p, size);
    var s' := AddNew(s1, name, i, m).0;
    assert forall j: nat :: InUse(s', j) <==> InUse(s, j);
    if FileData.SectorsOf(size) == 0 {
      forall k: nat | k < |s'.marked| && s'.marked[k]
        ensures Used(s', k)
      {
        RoomUnmarked(s, i, p, size, k);
        var j: nat :| InUse(s, j) && BelongsTo(s.disk, k, j);
        NewStays(s, i, p, size, j);
        assert InUse(s', j) && BelongsTo(s'.disk, k, j);
      }
    } else {
      RoomUnmarked(s, i, p, size, p);
      assert s'.marked[p];
      forall j: nat | InUse(s', j)
        ensures !BelongsTo(s'.disk, p, j)
      {
        NewUnused(s, i, p, size, j, p);
      }
    }
  }

  ghost function Added(s: State, name: string, i: nat, p: nat, size: nat, k: nat): State
    requires |s.disk| == |s.marked| && i < |s.marked| && p + FileData.SectorsOf(size) <= |s.marked| && k < |s.slots|
  {
    NewInode(s, i, p, size).(slots := s.slots[k := Slot(true, name, i)])
  }

  /** The inodes in use after an entry has been written to slot `k`. */
  lemma AddedInUse(s: State, name: string, i: nat, p: nat, size: nat, k: nat, j: nat)
    requires Inv(s) && Room(s, i, p, size) && |s.disk| == |s.marked| && k < |s.slots|
    ensures InUse(Added(s, name, i, p, size, k), j) <==>
      j == i || (InUse(s, j) && !(s.slots[k].inUse && s.slots[k].sector == j && j !in s.open))
  {
    var s' := Added(s, name, i, p, size, k);
    var owner :| Core(s, owner, Refs(s), s.denying);
    assert SlotOk(s, owner, k);
    if j == i { assert s'.slots[k].inUse && s'.slots[k].sector == i; }
    if x: nat :| x < |s.slots| && s.slots[x].inUse && s.slots[x].sector == j {
      if x != k { assert s'.slots[x].inUse && s'.slots[x].sector == j; }
    }
    if x: nat :| x < |s'.slots| && s'.slots[x].inUse && s'.slots[x].sector == j {
      if x != k { assert s.slots[x].inUse && s.slots[x].sector == j; }
    }
  }

  lemma AddSucceeds(s: State, name: string, i: nat, p: nat, size: nat, k: nat)
    requires Inv(s) && NoLeak(s) && Room(s, i, p, size) && |s.disk| == |s.marked| && k < |s.slots|
    requires !(s.slots[k].inUse && s.slots[k].sector !in s.open)
    ensures NoLeak(Added(s, name, i, p, size, k))
  {
    var s' := Added(s, name, i, p, size, k);
    forall x: nat | x < |s'.marked| && s'.marked[x]
      ensures Used(s', x)
    {
      RoomUnmarked(s, i, p, size, x);
      if s.marked[x] {
        var j: nat :| InUse(s, j) && BelongsTo(s.disk, x, j);
        NewStays(s, i, p, size, j);
        AddedInUse(s, name, i, p, size, k, j);
        assert InUse(s', j) && BelongsTo(s'.disk, x, j);
      } else {
        AddedInUse(s, name, i, p, size, k, i);
        assert InUse(s', i) && BelongsTo(s'.disk, x, i);
      }
    }
  }

  lemma AddOverwrites(s: State, name: string, i: nat, p: nat, size: nat, k: nat)
    requires Inv(s) && Room(s, i, p, size) && |s.disk| == |s.marked| && k < |s.slots|
    requires s.slots[k].inUse && s.slots[k].sector !in s.open
    ensures !NoLeak(Added(s, name, i, p, size, k))
  {
    var s', y := Added(s, name, i, p, size, k), s.slots[k].sector;
    assert InUse(s, y);
    NewStays(s, i, p, size, y);
    RoomUnmarked(s, i, p, size, y);
    forall j: nat | InUse(s', j)
      ensures !BelongsTo(s'.disk, y, j)
    {
      AddedInUse(s, name, i, p, size, k, j);
      if j != i {
        NewStays(s, i, p, size, j);
        if BelongsTo(s.disk, y, j) { HeaderOwn(s, y, j); }
      }
    }
    var owner :| Core(s, owner, Refs(s), s.denying);
    assert SlotOk(s, owner, k);
    assert s'.marked[y] && !Used(s', y);
  }

  lemma CreateExact(s: State, name: string, size: nat, m: Memory)
    requires Inv(s) && NoLeak(s)
    ensures NoLeak(Apply(s, Create(name, size, m))) <==> !Leaks(s, Create(name, size, m))
  {
    SafeLength(s);
    if Built(s, size, m) {
      var i := Allocate(s.marked, 1, m.header).value;
      var p := Allocate(SetRange(s.marked, i, 1, true), FileData.SectorsOf(size), m.extent).value;
      assert Room(s, i, p, size);
      var s1 := NewInode(s, i, p, size);
      assert CreateState(s, name, size, m) == AddNew(s1, name, i, m);
      if AddEntry(s.slots, name, i, m).None? {
        AddFails(s, name, i, p, size, m);
      } else {
        var k := FreeSlot(s.slots, m.rescan, 0);
        assert AddNew(s1, name, i, m).0 == Added(s, name, i, p, size, k);
        if s.slots[k].inUse && s.slots[k].sector !in s.open {
          AddOverwrites(s, name, i, p, size, k);
        } else {
          AddSucceeds(s, name, i, p, size, k);
        }
      }
    }
  }

  // ---- opening and closing

  /** What closing needs to know of the state. */
  ghost predicate Sound(s: State) {
    && |s.disk| == |s.marked| && Exclusive(s) && CachesHeaders(s)
    && forall j: nat :: InUse(s, j) ==> j < |s.disk|
  }

  lemma InvSound(s: State)
    requires Inv(s)
    ensures Sound(s)
  {
    SafeLength(s);
    SafeSectors(s);
    SafeOpens(s);
    var owner :| Core(s, owner, Refs(s), s.denying);
    forall j: nat | InUse(s, j)
      ensures j < |s.disk|
    {
      InUseLive(s, owner, j);
    }
  }

  /** Changes that leave the inodes in use and the sectors as they are. */
  ghost predicate SameUse(s: State, s': State) {
    s'.marked == s.marked && s'.disk == s.disk && forall j: nat :: InUse(s', j) <==> InUse(s, j)
  }

  lemma SameUseNoLeak(s: State, s': State)
    requires SameUse(s, s') && NoLeak(s)
    ensures NoLeak(s')
  {
    StayNoLeak(s, s');
  }

  lemma CloseInUse(s: State, i: nat, j: nat)
    requires Closable(s, i)
    ensures InUse(CloseInode(s, i), j) <==>
      InUse(s, j) && !(j == i && s.open[i].openCnt <= 1 && !Listed(s, i) && i != FREE_MAP_SECTOR && i != ROOT_DIR_SECTOR)
  {
    var s' := CloseInode(s, i);
    assert s'.slots == s.slots;
  }

  /** Closing loses sectors exactly when it is the last reference to an inode that has neither an
      entry nor been removed. */
  lemma CloseExact(s: State, i: nat)
    requires Sound(s) && NoLeak(s) && Closable(s, i)
    requires (i != FREE_MAP_SECTOR && i != ROOT_DIR_SECTOR) || s.open[i].openCnt > 1
    requires s.open[i].removed ==> !Listed(s, i)
    ensures NoLeak(CloseInode(s, i)) <==> !(s.open[i].openCnt <= 1 && !s.open[i].removed && !Listed(s, i))
  {
    var s' := CloseInode(s, i);
    forall j: nat
      ensures InUse(s', j) <==> InUse(s, j) && !(j == i && s.open[i].openCnt <= 1 && !Listed(s, i))
    {
      CloseInUse(s, i, j);
    }
    if s.open[i].openCnt > 1 || Listed(s, i) {
      StayNoLeak(s, s');
    } else if s.open[i].removed {
      CloseFrees(s, i);
    } else {
      CloseLoses(s, i);
    }
  }

  lemma CloseFrees(s: State, i: nat)
    requires Sound(s) && NoLeak(s) && Closable(s, i) && s.open[i].openCnt <= 1 && s.open[i].removed
    requires forall j: nat :: InUse(CloseInode(s, i), j) <==> InUse(s, j) && j != i
    ensures NoLeak(CloseInode(s, i))
  {
    var s' := CloseInode(s, i);
    forall k: nat | k < |s'.marked| && s'.marked[k]
      ensures Used(s', k)
    {
      StayUsed(s, s', {i}, k);
    }
  }

  lemma CloseLoses(s: State, i: nat)
    requires Sound(s) && Closable(s, i) && s.open[i].openCnt <= 1 && !s.open[i].removed
    requires forall j: nat :: InUse(CloseInode(s, i), j) <==> InUse(s, j) && j != i
    ensures !NoLeak(CloseInode(s, i))
  {
    var s' := CloseInode(s, i);
    assert InUse(s, i) && BelongsTo(s.disk, i, i) && s.marked[i];
    forall j: nat | InUse(s', j)
      ensures !BelongsTo(s'.disk, i, j)
    {
      assert InUse(s, j) && j != i;
    }
    assert s'.marked[i] && !Used(s', i);
  }

  lemma OpenSameUse(s: State, i: nat)
    requires Openable(s, i) && InUse(s, i)
    ensures SameUse(s, OpenInode(s, i))
  {
  }

  lemma OpenSound(s: State, i: nat)
    requires Sound(s) && Openable(s, i) && InUse(s, i) && s.disk[i].Some?
    ensures Sound(OpenInode(s, i))
  {
    OpenSameUse(s, i);
  }

  lemma RemovedUnlisted(s: State, i: nat)
    requires Inv(s)
    ensures i in s.open && s.open[i].removed ==> !Listed(s, i)
    ensures Listed(s, i) ==> i != FREE_MAP_SECTOR && i != ROOT_DIR_SECTOR
    ensures i in s.plain + s.denying ==> i in s.open
  {
    var owner :| Core(s, owner, Refs(s), s.denying);
    assert i in s.plain + s.denying ==> i in Refs(s);
    if k: nat :| k < |s.slots| && s.slots[k].inUse && s.slots[k].sector == i {
      assert SlotOk(s, owner, k);
    }
  }

  /** Opening, and closing again if there is no memory for the file. */
  lemma OpenExact(s: State, i: nat, memory: bool)
    requires Inv(s) && NoLeak(s) && CanOpen(s, i) && i < |s.disk| && s.disk[i].Some?
    requires Listed(s, i) || i in s.plain + s.denying
    ensures NoLeak(OpenState(s, i, memory))
  {
    InvSound(s);
    SafeOpens(s);
    assert i in s.plain + s.denying ==> i in Refs(s);
    RemovedUnlisted(s, i);
    OpenSameUse(s, i);
    var s1 := OpenInode(s, i);
    SameUseNoLeak(s, s1);
    if memory {
      SameUseNoLeak(s1, s1.(plain := s1.plain + multiset{i}));
    } else {
      OpenSound(s, i);
      assert Listed(s1, i) == Listed(s, i);
      CloseExact(s1, i);
    }
  }

  lemma OpenFileExact(s: State, name: string, m: Memory)
    requires Inv(s) && NoLeak(s)
    ensures NoLeak(Apply(s, OpenFile(name, m)))
  {
    if Found(s, name, m).Some? {
      var k := Found(s, name, m).value;
      var i := s.slots[k].sector;
      var owner :| Core(s, owner, Refs(s), s.denying);
      assert SlotOk(s, owner, k) && Holds(s.disk, owner, i);
      Ready(s, OpenFile(name, m));
      OpenExact(s, i, m.file);
    }
  }

  lemma ReopenExact(s: State, i: nat, m: Memory)
    requires Inv(s) && NoLeak(s) && Enabled(s, Reopen(i, m))
    ensures NoLeak(Apply(s, Reopen(i, m)))
  {
    Ready(s, Reopen(i, m));
    RemovedUnlisted(s, i);
    SafeOpens(s);
    OpenExact(s, i, m.file);
  }

  lemma UnlinkSameUse(s: State, k: nat)
    requires k < |s.slots| && s.slots[k].inUse && s.slots[k].sector in s.open && SlotsApart(s.slots)
    ensures SameUse(s, Unlink(s, k)) && !Listed(Unlink(s, k), s.slots[k].sector)
  {
    var s' := Unlink(s, k);
    forall j: nat
      ensures InUse(s', j) <==> InUse(s, j)
    {
      if x: nat :| x < |s.slots| && s.slots[x].inUse && s.slots[x].sector == j {
        if x != k { assert s'.slots[x].inUse && s'.slots[x].sector == j; }
      }
      if x: nat :| x < |s'.slots| && s'.slots[x].inUse && s'.slots[x].sector == j {
        assert s.slots[x].inUse && s.slots[x].sector == j;
      }
    }
  }

  lemma FoundUsed(s: State, k: nat)
    requires Inv(s) && k < |s.slots| && s.slots[k].inUse
    ensures var i := s.slots[k].sector;
      && i != FREE_MAP_SECTOR && i != ROOT_DIR_SECTOR && i < |s.disk| && s.disk[i].Some? && InUse(s, i)
      && (i in s.open ==> !s.open[i].removed)
    ensures SlotsApart(s.slots)
  {
    var owner :| Core(s, owner, Refs(s), s.denying);
    assert SlotOk(s, owner, k) && Holds(s.disk, owner, s.slots[k].sector);
  }

  lemma RemoveExact(s: State, name: string, m: Memory)
    requires Inv(s) && NoLeak(s)
    ensures NoLeak(Apply(s, Remove(name, m)))
  {
    Ready(s, Remove(name, m));
    InvSound(s);
    hide Inv, NoLeak, Sound, SameUse, CloseInode, InUse;
    if Found(s, name, m).Some? {
      var k := Found(s, name, m).value;
      var i := s.slots[k].sector;
      FoundUsed(s, k);
      OpenSameUse(s, i);
      var s1 := OpenInode(s, i);
      SameUseNoLeak(s, s1);
      OpenSound(s, i);
      if m.write {
        RemoveFrees(s1, k);
      } else {
        assert s1.slots[k].inUse && s1.slots[k].sector == i;
        CloseExact(s1, i);
      }
    }
  }

  lemma RemoveFrees(s: State, k: nat)
    requires Sound(s) && NoLeak(s) && SlotsApart(s.slots) && k < |s.slots| && s.slots[k].inUse && Closable(s, s.slots[k].sector)
    requires s.slots[k].sector != FREE_MAP_SECTOR && s.slots[k].sector != ROOT_DIR_SECTOR
    ensures NoLeak(CloseInode(Unlink(s, k), s.slots[k].sector))
  {
    var s2 := Unlink(s, k);
    UnlinkSameUse(s, k);
    SameUseNoLeak(s, s2);
    assert Sound(s2);
    CloseExact(s2, s.slots[k].sector);
  }

  /** A change in the bookkeeping of open files only. */
  lemma HandlesOnly(s: State, s': State)
    requires s'.marked == s.marked && s'.disk == s.disk && s'.slots == s.slots && s'.open.Keys == s.open.Keys
    ensures SameUse(s, s') && forall i: nat :: Listed(s', i) == Listed(s, i)
  {
  }

  lemma SameUseSound(s: State, s': State)
    requires Sound(s) && SameUse(s, s') && CachesHeaders(s')
    ensures Sound(s')
  {
  }

  /** The state just before the reference of a file goes. */
  function Dropping(s: State, i: nat, deny: bool): State
    requires i in s.open
  {
    var s1 := if deny then Allowed(s, i) else s;
    s1.(plain := s1.plain - multiset{i})
  }

  lemma DroppingSame(s: State, i: nat, deny: bool)
    requires Closable(s, i) && CachesHeaders(s)
    ensures SameUse(s, Dropping(s, i, deny)) && CachesHeaders(Dropping(s, i, deny)) && Closable(Dropping(s, i, deny), i)
    ensures Listed(Dropping(s, i, deny), i) == Listed(s, i)
    ensures var o := Dropping(s, i, deny).open[i]; o.removed == s.open[i].removed && o.openCnt == s.open[i].openCnt
    ensures CloseState(s, i, deny) == CloseInode(Dropping(s, i, deny), i)
  {
    HandlesOnly(s, Dropping(s, i, deny));
  }

  lemma CloseFileExact(s: State, i: nat, deny: bool)
    requires Inv(s) && NoLeak(s) && Enabled(s, CloseFile(i, deny))
    ensures NoLeak(Apply(s, CloseFile(i, deny))) <==> !Leaks(s, CloseFile(i, deny))
  {
    Ready(s, CloseFile(i, deny));
    RemovedUnlisted(s, i);
    SafeOpens(s);
    DroppingSame(s, i, deny);
    InvSound(s);
    var s' := Dropping(s, i, deny);
    SameUseNoLeak(s, s');
    SameUseSound(s, s');
    assert s'.open[i].openCnt == Refs(s)[i];
    DropExact(s, s', i);
    assert Apply(s, CloseFile(i, deny)) == CloseState(s, i, deny);
  }

  lemma DropExact(s: State, s': State, i: nat)
    requires Sound(s') && NoLeak(s') && Closable(s', i) && i in s.open
    requires s'.open[i].removed == s.open[i].removed && s'.open[i].openCnt == Refs(s)[i] > 0
    requires (i != FREE_MAP_SECTOR && i != ROOT_DIR_SECTOR) || Refs(s)[i] > 1
    requires s.open[i].removed ==> !Listed(s, i)
    requires Listed(s', i) == Listed(s, i)
    ensures NoLeak(CloseInode(s', i)) <==> !(Refs(s)[i] == 1 && !s.open[i].removed && !Listed(s, i))
  {
    CloseExact(s', i);
  }

  lemma WriteExact(s: State, i: nat, k: nat)
    requires Inv(s) && NoLeak(s) && Enabled(s, Write(i, k))
    ensures NoLeak(Apply(s, Write(i, k)))
  {
    Ready(s, Write(i, k));
    DataIsNoHeader(s, i, s.open[i].data.start + k);
    StayNoLeak(s, WriteState(s, i, k));
  }

  lemma HandleExact(s: State, i: nat)
    requires Inv(s) && NoLeak(s) && i in s.open
    ensures NoLeak(Denied(s, i)) && NoLeak(Allowed(s, i))
  {
    hide Inv, NoLeak, SameUse, Listed;
    HandlesOnly(s, Denied(s, i));
    SameUseNoLeak(s, Denied(s, i));
    HandlesOnly(s, Allowed(s, i));
    SameUseNoLeak(s, Allowed(s, i));
  }

  lemma DataIsNoHeader(s: State, i: nat, d: nat)
    requires Inv(s) && i in s.open && InExtent(s.open[i].data, d)
    ensures !InUse(s, d)
  {
    var owner :| Core(s, owner, Refs(s), s.denying);
    assert OpenOk(s.disk, owner, s.open[i], i, Refs(s)[i], s.denying[i]) && Holds(s.disk, owner, i);
    if InUse(s, d) { InUseLive(s, owner, d); }
  }

  /** A call loses sectors exactly when `Leaks` says so. */
  lemma LeakExact(s: State, a: Action)
    requires Inv(s) && NoLeak(s) && Enabled(s, a)
    ensures NoLeak(Apply(s, a)) <==> !Leaks(s, a)
  {
    match a
    case Create(name, size, m) => CreateExact(s, name, size, m);
    case OpenFile(name, m) => OpenFileExact(s, name, m);
    case Remove(name, m) => RemoveExact(s, name, m);
    case Reopen(i, m) => ReopenExact(s, i, m);
    case CloseFile(i, deny) => CloseFileExact(s, i, deny);
    case DenyWrite(i) =>
      Ready(s, a);
      HandleExact(s, i);
    case AllowWrite(i) =>
      Ready(s, a);
      HandleExact(s, i);
    case Write(i, k) => WriteExact(s, i, k);
  }

  /** None of the actions of a run loses sectors. */
  ghost predicate Lossless(n: nat, actions: seq<Action>)
    requires LargeEnough(n) && Run(n, actions).Some?
  {
    actions == [] || var k := |actions| - 1;
      Lossless(n, actions[..k]) && !Leaks(Run(n, actions[..k]).value, actions[k])
  }

  /** In a run without such calls the free map marks exactly the sectors of inodes in use. */
  lemma {:induction false} NothingLost(n: nat, actions: seq<Action>)
    requires LargeEnough(n) && Run(n, actions).Some? && Lossless(n, actions)
    ensures NoLeak(Run(n, actions).value)
  {
    if actions == [] {
      FormattedNoLeak(n);
    } else {
      var k := |actions| - 1;
      NothingLost(n, actions[..k]);
      LeakExact(Run(n, actions[..k]).value, actions[k]);
    }
  }

  lemma FormattedNoLeak(n: nat)
    requires LargeEnough(n)
    ensures NoLeak(Formatted(n))
  {
    var s := Formatted(n);
    OneSector();
    forall k: nat | k < |s.marked| && s.marked[k]
      ensures Used(s, k)
    {
      assert InUse(s, 0) && InUse(s, 1);
      assert BelongsTo(s.disk, k, 0) || BelongsTo(s.disk, k, 1);
    }
  }

  const PLENTY := Memory(true, true, true, true, ENTRIES, ENTRIES, true, true)

  /** Creating a file of one byte without a name loses a sector on every formatted device with two
      sectors to spare. */
  lemma LeakHappens(n: nat)
    requires 5 + MapSectors(n) <= n
    ensures LargeEnough(n) && Run(n, [Create("", 1, PLENTY)]).Some?
    ensures !NoLeak(Run(n, [Create("", 1, PLENTY)]).value)
  {
    var a, s, f := Create("", 1, PLENTY), Formatted(n), 3 + MapSectors(n);
    FormattedInv(n);
    FormattedNoLeak(n);
    FormatAllocates(n, f, 1);
    FormatAllocates(n, f + 1, 1);
    assert FileData.SectorsOf(1) == 1;
    assert Built(s, 1, PLENTY);
    LeakExact(s, a);
    assert [a][..0] == [];
    assert Run(n, []) == Some(s);
  }
}
