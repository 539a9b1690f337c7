/** The file system as it runs: the list of open inodes, the free map and the directory scanned
    and updated in place, each operation proved equal to its step in the model. */
module FileSystemOps {
  import opened Wrappers
  import opened Bitmap
  import opened FileSystem
  import opened FileSystemRuns
  import OpenFiles
  import FileData

  /** `struct inode`, an element of the list of open inodes. */
  datatype InMemory = InMemory(sector: nat, inode: Open)

  /** The list holds each open inode once. */
  ghost predicate Represents(list: seq<InMemory>, open: map<nat, Open>) {
    && (forall e, f :: 0 <= e < f < |list| ==> list[e].sector != list[f].sector)
    && (forall e :: 0 <= e < |list| ==> list[e].sector in open && open[list[e].sector] == list[e].inode)
    && (forall i: nat :: i in open ==> exists e :: 0 <= e < |list| && list[e].sector == i)
  }

  lemma PushRepresents(list: seq<InMemory>, open: map<nat, Open>, x: InMemory)
    requires Represents(list, open) && x.sector !in open
    ensures Represents([x] + list, open[x.sector := x.inode])
  {
    var list', open' := [x] + list, open[x.sector := x.inode];
    forall i: nat | i in open'
      ensures exists e :: 0 <= e < |list'| && list'[e].sector == i
    {
      if i == x.sector {
        assert list'[0].sector == i;
      } else {
        var e :| 0 <= e < |list| && list[e].sector == i;
        assert list'[e + 1].sector == i;
      }
    }
  }

  lemma UpdateRepresents(list: seq<InMemory>, open: map<nat, Open>, e: nat, o: Open)
    requires Represents(list, open) && e < |list|
    ensures Represents(list[e := list[e].(inode := o)], open[list[e].sector := o])
  {
    var list', open' := list[e := list[e].(inode := o)], open[list[e].sector := o];
    forall i: nat | i in open'
      ensures exists f :: 0 <= f < |list'| && list'[f].sector == i
    {
      var f :| 0 <= f < |list| && list[f].sector == i;
      assert list'[f].sector == i;
    }
  }

  lemma RemoveRepresents(list: seq<InMemory>, open: map<nat, Open>, e: nat)
    requires Represents(list, open) && e < |list|
    ensures Represents(list[..e] + list[e + 1..], open - {list[e].sector})
  {
    var list', open' := list[..e] + list[e + 1..], open - {list[e].sector};
    forall f, g | 0 <= f < g < |list'|
      ensures list'[f].sector != list'[g].sector
    {
      var f', g' := if f < e then f else f + 1, if g < e then g else g + 1;
      assert list'[f] == list[f'] && list'[g] == list[g'];
    }
    forall f | 0 <= f < |list'|
      ensures list'[f].sector in open' && open'[list'[f].sector] == list'[f].inode
    {
      var f' := if f < e then f else f + 1;
      assert list'[f] == list[f'];
    }
    forall i: nat | i in open'
      ensures exists f :: 0 <= f < |list'| && list'[f].sector == i
    {
      StillListed(list, open, e, i);
    }
  }

  lemma StillListed(list: seq<InMemory>, open: map<nat, Open>, e: nat, i: nat)
    requires Represents(list, open) && e < |list| && i in open && i != list[e].sector
    ensures var list' := list[..e] + list[e + 1..]; exists f :: 0 <= f < |list'| && list'[f].sector == i
  {
    var list' := list[..e] + list[e + 1..];
    var f :| 0 <= f < |list| && list[f].sector == i;
    assert list'[if f < e then f else f - 1].sector == i;
  }

  class FileSys {
    const freeMap: Map
    var disk: seq<Option<Header>>
    var slots: seq<Slot>
    var openInodes: seq<InMemory>
    ghost var open: map<nat, Open>
    ghost var plain: multiset<nat>
    ghost var denying: multiset<nat>

    ghost predicate Valid()
      reads this
    {
      freeMap.Valid() && Represents(openInodes, open) && freeMap.bitCnt == |disk|
    }

    ghost function View(): State
      requires Valid()
      reads this, freeMap.words
    {
      State(freeMap.Bits(), disk, slots, open, plain, denying)
    }

    /** A device with nothing open. */
    constructor (disk: seq<Option<Header>>, slots: seq<Slot>)
      ensures Valid() && fresh(freeMap.words)
      ensures View() == State(seq(|disk|, _ => false), disk, slots, map[], multiset{}, multiset{})
    {
      this.disk, this.slots, openInodes := disk, slots, [];
      open, plain, denying := map[], multiset{}, multiset{};
      freeMap := new Map(|disk|);
    }

    // ---- free-map.c

    /** `written` says whether the free map file can be written. */
    method FreeMapAllocate(cnt: nat, written: bool) returns (r: Option<nat>)
      requires freeMap.Valid()
      modifies freeMap.words
      ensures r == Allocate(old(freeMap.Bits()), cnt, written)
      ensures freeMap.Bits() == if r.Some? then SetRange(old(freeMap.Bits()), r.value, cnt, true) else old(freeMap.Bits())
    {
      r := freeMap.ScanAndFlip(0, cnt, false);
      if r.Some? && !written {
        freeMap.SetMultiple(r.value, cnt, false);
        assert freeMap.Bits() == old(freeMap.Bits());
        r := None;
      }
    }

    /** The caller has to show what the original asserts. */
    method FreeMapRelease(sector: nat, cnt: nat)
      requires freeMap.Valid() && sector + cnt <= freeMap.bitCnt && AllAre(freeMap.Bits(), sector, cnt, true)
      modifies freeMap.words
      ensures freeMap.Bits() == Release(old(freeMap.Bits()), sector, cnt)
    {
      freeMap.SetMultiple(sector, cnt, false);
    }

    // ---- inode.c

    /** Where the list has the inode of a sector, if anywhere. */
    method Find(sector: nat) returns (r: Option<nat>)
      requires Valid()
      ensures r.Some? <==> sector in open
      ensures r.Some? ==> r.value < |openInodes| && openInodes[r.value].sector == sector
    {
      for e := 0 to |openInodes|
        invariant forall f :: 0 <= f < e ==> openInodes[f].sector != sector
      {
        if openInodes[e].sector == sector {
          return Some(e);
        }
      }
      return None;
    }

    /** Opening twice gives the same inode, with one more reference. */
    method InodeOpen(sector: nat, memory: bool) returns (found: bool)
      requires Valid() && Openable(View(), sector)
      modifies this`openInodes, this`open
      ensures Valid() && found == (sector in old(open) || memory)
      ensures View() == if found then OpenInode(old(View()), sector) else old(View())
    {
      var e := Find(sector);
      if e.Some? {
        var o := openInodes[e.value].inode;
        o := o.(openCnt := o.openCnt + 1);
        UpdateRepresents(openInodes, open, e.value, o);
        openInodes := openInodes[e.value := openInodes[e.value].(inode := o)];
        open := open[sector := o];
        return true;
      }
      if !memory {
        return false;
      }
      var o := Open(1, false, 0, disk[sector].value);
      PushRepresents(openInodes, open, InMemory(sector, o));
      openInodes := [InMemory(sector, o)] + openInodes;
      open := open[sector := o];
      return true;
    }

    /** The sectors of a removed inode are all marked when its last reference goes. */
    method InodeClose(sector: nat)
      requires Valid() && Closable(View(), sector) && open[sector].openCnt > 0
      requires open[sector].removed && open[sector].openCnt == 1 ==> Releasable(View(), sector)
      modifies this`openInodes, this`open, freeMap.words
      ensures Valid() && View() == CloseInode(old(View()), sector)
    {
      var e := Find(sector);
      var o := openInodes[e.value].inode;
      if o.openCnt - 1 == 0 {
        RemoveRepresents(openInodes, open, e.value);
        openInodes := openInodes[..e.value] + openInodes[e.value + 1..];
        open := open - {sector};
        if o.removed {
          FreeMapRelease(sector, 1);
          FreeMapRelease(o.data.start, FileData.SectorsOf(o.data.length));
        }
      } else {
        o := o.(openCnt := o.openCnt - 1);
        UpdateRepresents(openInodes, open, e.value, o);
        openInodes := openInodes[e.value := openInodes[e.value].(inode := o)];
        open := open[sector := o];
      }
    }

    method InodeRemove(sector: nat)
      requires Valid() && sector in open
      modifies this`openInodes, this`open
      ensures Valid() && open == old(open)[sector := old(open)[sector].(removed := true)]
    {
      var e := Find(sector);
      var o := openInodes[e.value].inode.(removed := true);
      UpdateRepresents(openInodes, open, e.value, o);
      openInodes := openInodes[e.value := openInodes[e.value].(inode := o)];
      open := open[sector := o];
    }

    /** Writes a header and a zeroed extent; fails without memory or room. */
    method InodeCreate(sector: nat, length: nat, m: Memory) returns (p: Option<nat>)
      requires Valid() && sector < |disk|
      modifies this`disk, freeMap.words
      ensures var n := FileData.SectorsOf(length);
        && Valid() && |disk| == |old(disk)|
        && p == (if m.inode then Allocate(old(freeMap.Bits()), n, m.extent) else None)
        && freeMap.Bits() == (if p.Some? then SetRange(old(freeMap.Bits()), p.value, n, true) else old(freeMap.Bits()))
        && disk == if p.None? then old(disk)
                   else SetRange(old(disk)[sector := Some(FileData.Inode(p.value, length))], p.value, n, None)
    {
      if !m.inode {
        return None;
      }
      var n := FileData.SectorsOf(length);
      p := FreeMapAllocate(n, m.extent);
      if p.Some? {
        disk := disk[sector := Some(FileData.Inode(p.value, length))];
        ghost var written := disk;
        for i := 0 to n
          invariant |disk| == |written| && disk == SetRange(written, p.value, i, None)
          modifies this`disk
        {
          disk := disk[p.value + i := None];
        }
      }
    }

    // ---- directory.c

    method LookupEntry(name: string, seen: nat) returns (r: Option<nat>)
      ensures r == Lookup(slots, name, seen, 0)
    {
      var ofs := 0;
      while ofs < |slots| && ofs < seen
        invariant ofs <= |slots| && Lookup(slots, name, seen, 0) == Lookup(slots, name, seen, ofs)
      {
        if slots[ofs].inUse && slots[ofs].name == name {
          return Some(ofs);
        }
        ofs := ofs + 1;
      }
      return None;
    }

    method DirAdd(name: string, sector: nat, m: Memory) returns (success: bool)
      modifies this`slots
      ensures success == AddEntry(old(slots), name, sector, m).Some?
      ensures slots == if success then AddEntry(old(slots), name, sector, m).value else old(slots)
    {
      if name == "" || |name| > NAME_MAX {
        return false;
      }
      var there := LookupEntry(name, m.scan);
      if there.Some? {
        return false;
      }
      var ofs := 0;
      while ofs < |slots| && ofs < m.rescan && slots[ofs].inUse
        invariant ofs <= |slots| && FreeSlot(slots, m.rescan, 0) == FreeSlot(slots, m.rescan, ofs)
      {
        ofs := ofs + 1;
      }
      success := m.write && ofs < |slots|;
      if success {
        slots := slots[ofs := Slot(true, name, sector)];
      }
    }

    // ---- filesys.c

    /** The root directory, open while an operation lasts. */
    method DirOpenRoot(memory: bool) returns (dir: bool)
      requires Valid() && RootClosed(View())
      modifies this`openInodes, this`open
      ensures Valid() && dir == memory
      ensures View() == if dir then WithRoot(old(View())) else old(View())
    {
      dir := InodeOpen(ROOT_DIR_SECTOR, memory);
    }

    method DirClose(ghost s: State)
      requires Valid() && RootClosed(s) && View().open == WithRoot(s).open && Closable(View(), ROOT_DIR_SECTOR)
      modifies this`openInodes, this`open, freeMap.words
      ensures Valid() && View() == old(View()).(open := s.open)
    {
      InodeClose(ROOT_DIR_SECTOR);
      assert open == s.open;
    }

    method CreateIn(name: string, size: nat, m: Memory) returns (success: bool)
      requires Valid() && m.root && 0 < |disk| && freeMap.Bits()[FREE_MAP_SECTOR]
      modifies this`disk, this`slots, freeMap.words
      ensures Valid() && (View(), success) == CreateState(old(View()), name, size, m)
    {
      ghost var s := View();
      var header := FreeMapAllocate(1, m.header);
      if header.None? {
        return false;
      }
      var sector := header.value;
      var p := InodeCreate(sector, size, m);
      success := p.Some?;
      if success {
        success := DirAdd(name, sector, m);
      }
      if !success && sector != 0 {
        MarkedStill(s.marked, sector, p, size);
        FreeMapRelease(sector, 1);
      }
      assert p.None? ==> freeMap.Bits() == s.marked;
    }

    method FilesysCreate(name: string, size: nat, m: Memory) returns (success: bool)
      requires Valid() && RootClosed(View()) && freeMap.Bits()[FREE_MAP_SECTOR]
      modifies this, freeMap.words
      ensures Valid() && (View(), success) == CreateState(old(View()), name, size, m)
      ensures old(Inv(View())) ==> Inv(View())
    {
      hide Inv;
      ghost var s := View();
      CreatedInv(s, name, size, m);
      var dir := DirOpenRoot(m.root);
      if !dir {
        return false;
      }
      success := CreateIn(name, size, m);
      RootCreates(s, name, size, m);
      DirClose(s);
    }

    /** `dir_lookup` in the root directory that was opened in `s`. */
    method DirLookup(name: string, m: Memory, ghost s: State) returns (inode: Option<nat>)
      requires Valid() && RootClosed(s) && View() == WithRoot(s) && Inv(s) && m.root
      modifies this`openInodes, this`open
      ensures Valid() && inode.Some? == Found(s, name, m).Some?
      ensures inode.None? ==> View() == WithRoot(s)
      ensures inode.Some? ==> inode.value == s.slots[Found(s, name, m).value].sector && ReadyToOpen(s, inode.value)
      ensures inode.Some? ==> View() == WithRoot(OpenInode(s, inode.value))
    {
      var k := LookupEntry(name, m.scan);
      if k.None? {
        return None;
      }
      var i := slots[k.value].sector;
      Listed(s, k.value);
      RootOpens(s, i);
      var got := InodeOpen(i, m.inode);
      inode := if got then Some(i) else None;
    }

    method FilesysOpen(name: string, m: Memory) returns (file: Option<nat>)
      requires Valid() && Inv(View())
      modifies this, freeMap.words
      ensures Valid() && (View(), file) == OpenFileState(old(View()), name, m) && Inv(View())
      ensures match file case Some(i) => OpenFiles.Opened(old(View()), i, View()) case None => View() == old(View())
    {
      hide OpenFiles.Opened;
      ghost var s := View();
      OpenFiles.OpenRefers(s, name, m);
      StepKeeps(s, OpenFile(name, m));
      InvRoot(s);
      var dir := DirOpenRoot(m.root);
      if !dir {
        return None;
      }
      var inode := DirLookup(name, m, s);
      DirClose(if inode.Some? then OpenInode(s, inode.value) else s);
      if inode.None? {
        return None;
      }
      FinishOpen(inode.value, m.file);
      file := if m.file then inode else None;
    }

    /** `file_open`: it takes over the reference, or gives it up. */
    method FinishOpen(i: nat, memory: bool)
      requires Valid() && Closable(View(), i) && open[i].openCnt > 0 && Releasable(View(), i)
      modifies this, freeMap.words
      ensures Valid() && View() == FileOpen(old(View()), i, memory)
    {
      if memory {
        plain := plain + multiset{i};
      } else {
        InodeClose(i);
      }
    }

    method EraseEntry(k: nat)
      requires Valid() && k < |slots| && slots[k].sector in open
      modifies this`slots, this`openInodes, this`open
      ensures Valid() && View() == Unlink(old(View()), k)
    {
      var i := slots[k].sector;
      slots := slots[k := slots[k].(inUse := false)];
      InodeRemove(i);
    }

    /** The rest of `dir_remove` once the entry has been found. */
    method RemoveIn(k: nat, m: Memory) returns (success: bool)
      requires Valid() && k < |slots| && CanRemove(View(), k)
      modifies this, freeMap.words
      ensures Valid()
      ensures (View(), success) ==
        if old(slots[k].sector in open) || m.inode then RemoveEntry(old(View()), k, m) else (old(View()), false)
    {
      var i := slots[k].sector;
      var got := InodeOpen(i, m.inode);
      if !got {
        return false;
      }
      if m.write {
        EraseEntry(k);
      }
      InodeClose(i);
      success := m.write;
    }

    /** `dir_remove` in the root directory that was opened in `s`. */
    method DirRemove(name: string, m: Memory, ghost s: State) returns (success: bool)
      requires Valid() && RootClosed(s) && View() == WithRoot(s) && Inv(s) && m.root
      modifies this, freeMap.words
      ensures Valid() && RootClosed(RemoveState(s, name, m).0)
      ensures (View(), success) == (WithRoot(RemoveState(s, name, m).0), RemoveState(s, name, m).1)
    {
      var k := LookupEntry(name, m.scan);
      if k.None? {
        return false;
      }
      RootRemoveState(s, name, m, k.value);
      success := RemoveIn(k.value, m);
    }

    method FilesysRemove(name: string, m: Memory) returns (success: bool)
      requires Valid() && Inv(View())
      modifies this, freeMap.words
      ensures Valid() && (View(), success) == RemoveState(old(View()), name, m) && Inv(View())
    {
      ghost var s := View();
      StepKeeps(s, Remove(name, m));
      InvRoot(s);
      var dir := DirOpenRoot(m.root);
      if !dir {
        return false;
      }
      success := DirRemove(name, m, s);
      DirClose(RemoveState(s, name, m).0);
    }
  }

  lemma CreatedInv(s: State, name: string, size: nat, m: Memory)
    requires RootClosed(s) && s.marked[FREE_MAP_SECTOR]
    ensures Inv(s) ==> Inv(CreateState(s, name, size, m).0)
  {
    if Inv(s) { StepKeeps(s, Create(name, size, m)); }
  }

  /** What `dir_remove` relies on: the inode can be opened, and its sectors freed if it is to go. */
  ghost predicate CanRemove(s: State, k: nat)
    requires k < |s.slots|
  {
    var i := s.slots[k].sector;
    && CanOpen(s, i) && OpenInode(s, i).open[i].openCnt > 0
    && Releasable(OpenInode(s, i), i)
  }

  ghost predicate ReadyToOpen(s: State, i: nat) {
    i != ROOT_DIR_SECTOR && RootClosed(s) && CanOpen(s, i) && RootClosed(OpenInode(s, i))
    && OpenInode(s, i).open[i].openCnt > 0 && Releasable(OpenInode(s, i), i)
  }

  /** Room for the root directory to be opened. */
  ghost predicate RootClosed(s: State) {
    && ROOT_DIR_SECTOR !in s.open && ROOT_DIR_SECTOR < |s.disk| == |s.marked| && s.disk[ROOT_DIR_SECTOR].Some?
    && s.disk[ROOT_DIR_SECTOR].value.start + Sectors(s.disk[ROOT_DIR_SECTOR].value) <= |s.marked|
  }

  ghost function WithRoot(s: State): State
    requires RootClosed(s)
  {
    OpenInode(s, ROOT_DIR_SECTOR)
  }

  lemma InvRoot(s: State)
    requires Inv(s)
    ensures RootClosed(s) && s.marked[FREE_MAP_SECTOR]
  {
    var owner :| Core(s, owner, Refs(s), s.denying);
    assert Holds(s.disk, owner, ROOT_DIR_SECTOR);
  }

  /** Creating does not look at the open inodes. */
  lemma RootCreates(s: State, name: string, size: nat, m: Memory)
    requires RootClosed(s)
    ensures CreateState(WithRoot(s), name, size, m).0 == CreateState(s, name, size, m).0.(open := WithRoot(s).open)
    ensures CreateState(WithRoot(s), name, size, m).1 == CreateState(s, name, size, m).1
    ensures |CreateState(s, name, size, m).0.marked| == |s.marked|
  {
  }

  /** What `dir_lookup` finds can be opened, beside the root directory. */
  lemma Listed(s: State, k: nat)
    requires Inv(s) && k < |s.slots| && s.slots[k].inUse && RootClosed(s)
    ensures var i := s.slots[k].sector;
      && i != ROOT_DIR_SECTOR && CanOpen(s, i) && Openable(WithRoot(s), i)
      && OpenInode(s, i).open[i].openCnt > 0 && Releasable(OpenInode(s, i), i)
  {
    var owner :| Core(s, owner, Refs(s), s.denying);
    var i := s.slots[k].sector;
    assert SlotOk(s, owner, k);
    BrieflyOpen(s, owner, Refs(s), s.denying, i);
    AlwaysReleasable(OpenInode(s, i), owner, Refs(s) + multiset{i}, s.denying, i);
  }

  lemma RootOpens(s: State, i: nat)
    requires RootClosed(s) && i != ROOT_DIR_SECTOR && Openable(s, i)
    ensures RootClosed(OpenInode(s, i))
    ensures OpenInode(WithRoot(s), i) == WithRoot(OpenInode(s, i))
  {
    assert OpenInode(WithRoot(s), i).open == WithRoot(OpenInode(s, i)).open;
  }

  /** Removing does not look at the root's own inode. */
  lemma RootRemoves(s: State, k: nat, m: Memory)
    requires Inv(s) && RootClosed(s) && k < |s.slots| && s.slots[k].inUse
    ensures CanOpen(s, s.slots[k].sector) && CanRemove(WithRoot(s), k)
    ensures RootClosed(RemoveEntry(s, k, m).0)
    ensures RemoveEntry(WithRoot(s), k, m) == (WithRoot(RemoveEntry(s, k, m).0), m.write)
  {
    var i := s.slots[k].sector;
    Listed(s, k);
    RootOpens(s, i);
    var s1 := OpenInode(s, i);
    RootCloses(s1, i);
    if m.write {
      RootUnlinks(s1, k);
      RootCloses(Unlink(s1, k), i);
    }
  }

  lemma RootRemoveState(s: State, name: string, m: Memory, k: nat)
    requires Inv(s) && RootClosed(s) && m.root && Lookup(s.slots, name, m.scan, 0) == Some(k)
    ensures CanRemove(WithRoot(s), k) && RootClosed(RemoveState(s, name, m).0)
    ensures (WithRoot(RemoveState(s, name, m).0), RemoveState(s, name, m).1) ==
      if s.slots[k].sector in WithRoot(s).open || m.inode then RemoveEntry(WithRoot(s), k, m) else (WithRoot(s), false)
  {
    RootRemoves(s, k, m);
    Listed(s, k);
  }

  lemma RootUnlinks(s: State, k: nat)
    requires RootClosed(s) && k < |s.slots| && s.slots[k].sector in s.open
    ensures RootClosed(Unlink(s, k)) && Unlink(WithRoot(s), k) == WithRoot(Unlink(s, k))
  {
    assert Unlink(WithRoot(s), k).open == WithRoot(Unlink(s, k)).open;
  }

  lemma RootCloses(s: State, i: nat)
    requires RootClosed(s) && i != ROOT_DIR_SECTOR && Closable(s, i)
    ensures Closable(WithRoot(s), i) && RootClosed(CloseInode(s, i))
    ensures CloseInode(WithRoot(s), i) == WithRoot(CloseInode(s, i))
  {
    assert CloseInode(WithRoot(s), i).open == WithRoot(CloseInode(s, i)).open;
  }

  lemma MarkedStill(marked: seq<bool>, sector: nat, p: Option<nat>, size: nat)
    requires sector < |marked| && !marked[sector]
    requires p.Some? ==> p.value + FileData.SectorsOf(size) <= |marked|
    ensures Release(SetRange(marked, sector, 1, true), sector, 1) == marked
    ensures p.Some? ==> SetRange(SetRange(marked, sector, 1, true), p.value, FileData.SectorsOf(size), true)[sector]
  {
  }
}
