/** Every run of the file system: files created, opened, removed and closed in any order, with
    memory running out anywhere. */
module FileSystemRuns {
  import opened Wrappers
  import opened Bitmap
  import opened FileSystem
  import FileData

  /** An open file is named by its inode; two files on one inode differ only in their positions
      and in whether they deny writes. */
  datatype Action =
    | Create(name: string, size: nat, memory: Memory)      // filesys_create
    | OpenFile(name: string, memory: Memory)               // filesys_open
    | Remove(name: string, memory: Memory)                 // filesys_remove
    | Reopen(inode: nat, memory: Memory)                   // file_reopen
    | CloseFile(inode: nat, deny: bool)                    // file_close
    | DenyWrite(inode: nat)                                // file_deny_write
    | AllowWrite(inode: nat)                               // file_allow_write
    | Write(inode: nat, sector: nat)                       // a sector's worth of file_write

  /** References to inodes: one for each open file, and that of the free map. */
  function Refs(s: State): multiset<nat> { s.plain + s.denying + multiset{FREE_MAP_SECTOR} }

  ghost predicate Inv(s: State) {
    ROOT_DIR_SECTOR !in s.open && exists owner :: Core(s, owner, Refs(s), s.denying)
  }

  predicate Enabled(s: State, a: Action) {
    match a
    case Create(_, _, _) => true
    case OpenFile(_, _) => true
    case Remove(_, _) => true
    case Reopen(i, _) => i in s.plain + s.denying
    case CloseFile(i, deny) => if deny then i in s.denying else i in s.plain
    case DenyWrite(i) => i in s.plain
    case AllowWrite(i) => i in s.denying
    case Write(i, k) => i in s.plain + s.denying && i in s.open && k < Sectors(s.open[i].data)
  }

  // ---- the operations

  /** The sector of the inode that `dir_lookup` finds and can open. */
  function Found(s: State, name: string, m: Memory): Option<nat> {
    var k := Lookup(s.slots, name, m.scan, 0);
    if m.root && k.Some? && (s.slots[k.value].sector in s.open || m.inode) then Some(k.value) else None
  }

  /** `file_open` on an inode that has just been opened; without memory it closes it again. */
  function FileOpen(s: State, i: nat, memory: bool): State
    requires Closable(s, i)
  {
    if memory then s.(plain := s.plain + multiset{i}) else CloseInode(s, i)
  }

  ghost predicate CanOpen(s: State, i: nat) { Openable(s, i) && Closable(OpenInode(s, i), i) }

  function OpenState(s: State, i: nat, memory: bool): State
    requires Openable(s, i) && Closable(OpenInode(s, i), i)
  {
    FileOpen(OpenInode(s, i), i, memory)
  }

  lemma FileOpens(s: State, owner: seq<Owner>, i: nat)
    requires Core(s, owner, Refs(s) + multiset{i}, s.denying)
    ensures var s' := s.(plain := s.plain + multiset{i}); Core(s', owner, Refs(s'), s'.denying)
  {
    var s' := s.(plain := s.plain + multiset{i});
    assert Refs(s') == Refs(s) + multiset{i};
    SameInodes(s, s', owner, owner, Refs(s'), s.denying);
  }

  lemma FileFails(s: State, owner: seq<Owner>, i: nat) returns (owner': seq<Owner>)
    requires Core(s, owner, Refs(s) + multiset{i}, s.denying)
    ensures Closable(s, i)
    ensures Core(CloseInode(s, i), owner', Refs(CloseInode(s, i)), CloseInode(s, i).denying)
  {
    assert Refs(s) + multiset{i} - multiset{i} == Refs(s);
    owner' := CloseKeeps(s, owner, Refs(s) + multiset{i}, s.denying, i);
  }

  lemma OpenStateKeeps(s: State, owner: seq<Owner>, i: nat, memory: bool) returns (owner': seq<Owner>)
    requires Core(s, owner, Refs(s), s.denying) && Live(owner, i)
    ensures CanOpen(s, i) && Core(OpenState(s, i, memory), owner', Refs(OpenState(s, i, memory)), OpenState(s, i, memory).denying)
  {
    BrieflyOpen(s, owner, Refs(s), s.denying, i);
    var s1 := OpenInode(s, i);
    assert Refs(s1) == Refs(s);
    if memory {
      owner' := owner;
      FileOpens(s1, owner, i);
    } else {
      owner' := FileFails(s1, owner, i);
    }
  }

  /** A file that denies writes allows them again when it is closed. */
  function Allowed(s: State, i: nat): State
    requires i in s.open
  {
    var o := s.open[i];
    s.(open := s.open[i := o.(denyWriteCnt := if o.denyWriteCnt > 0 then o.denyWriteCnt - 1 else 0)],
       denying := s.denying - multiset{i}, plain := s.plain + multiset{i})
  }

  function Denied(s: State, i: nat): State
    requires i in s.open
  {
    s.(open := s.open[i := s.open[i].(denyWriteCnt := s.open[i].denyWriteCnt + 1)],
       plain := s.plain - multiset{i}, denying := s.denying + multiset{i})
  }

  /** Only the counts of denials have changed. */
  lemma Recount(s: State, s': State, owner: seq<Owner>, i: nat)
    requires Core(s, owner, Refs(s), s.denying) && i in s.open && i in s'.open
    requires s' == s.(open := s'.open, plain := s'.plain, denying := s'.denying)
    requires s'.open == s.open[i := s'.open[i]] && s'.open[i] == s.open[i].(denyWriteCnt := s'.open[i].denyWriteCnt)
    requires Refs(s') == Refs(s) && s'.open[i].denyWriteCnt == s'.denying[i]
    requires forall j: nat :: j != i ==> s'.denying[j] == s.denying[j]
    ensures Core(s', owner, Refs(s'), s'.denying)
  {
    forall j: nat | j in s'.open
      ensures OpenOk(s'.disk, owner, s'.open[j], j, Refs(s')[j], s'.denying[j])
    {
      assert OpenOk(s.disk, owner, s.open[j], j, Refs(s)[j], s.denying[j]);
      assert s'.denying[j] <= Refs(s')[j];
    }
    RecountSlots(s, s', owner);
  }

  lemma RecountSlots(s: State, s': State, owner: seq<Owner>)
    requires SlotInv(s, owner) && RootInv(s, owner) && s'.slots == s.slots
    requires forall j: nat :: j in s'.open ==> j in s.open && s'.open[j].removed == s.open[j].removed
    ensures SlotInv(s', owner) && RootInv(s', owner)
  {
    forall k: nat | k < |s'.slots|
      ensures SlotOk(s', owner, k)
    {
      assert SlotOk(s, owner, k);
    }
  }

  /** Moving a file from one of the two kinds to the other leaves the references as they are. */
  lemma Moved(from: multiset<nat>, to: multiset<nat>, i: nat)
    requires i in from
    ensures (from - multiset{i}) + (to + multiset{i}) == from + to
    ensures (to + multiset{i}) + (from - multiset{i}) == to + from
  {
  }

  lemma AllowedKeeps(s: State, owner: seq<Owner>, i: nat)
    requires Core(s, owner, Refs(s), s.denying) && i in s.denying
    ensures i in s.open && s.open[i].denyWriteCnt > 0
    ensures Core(Allowed(s, i), owner, Refs(Allowed(s, i)), Allowed(s, i).denying)
  {
    hide SectorInv, SlotInv, RootInv;
    assert i in Refs(s);
    assert OpenOk(s.disk, owner, s.open[i], i, Refs(s)[i], s.denying[i]);
    Moved(s.denying, s.plain, i);
    Recount(s, Allowed(s, i), owner, i);
  }

  lemma DeniedKeeps(s: State, owner: seq<Owner>, i: nat)
    requires Core(s, owner, Refs(s), s.denying) && i in s.plain
    ensures i in s.open && Denied(s, i).open[i].denyWriteCnt <= Denied(s, i).open[i].openCnt
    ensures Core(Denied(s, i), owner, Refs(Denied(s, i)), Denied(s, i).denying)
  {
    hide SectorInv, SlotInv, RootInv;
    assert i in Refs(s);
    assert OpenOk(s.disk, owner, s.open[i], i, Refs(s)[i], s.denying[i]);
    Moved(s.plain, s.denying, i);
    Recount(s, Denied(s, i), owner, i);
    assert OpenOk(s.disk, owner, Denied(s, i).open[i], i, Refs(s)[i], Denied(s, i).denying[i]);
  }

  /** `file_close` of a file that does not deny writes. */
  function ClosePlain(s: State, i: nat): State
    requires Closable(s, i)
  {
    CloseInode(s.(plain := s.plain - multiset{i}), i)
  }

  lemma ClosePlainKeeps(s: State, owner: seq<Owner>, i: nat) returns (owner': seq<Owner>)
    requires Core(s, owner, Refs(s), s.denying) && i in s.plain
    ensures Closable(s, i) && Core(ClosePlain(s, i), owner', Refs(ClosePlain(s, i)), ClosePlain(s, i).denying)
  {
    var s1 := s.(plain := s.plain - multiset{i});
    SameInodes(s, s1, owner, owner, Refs(s), s.denying);
    assert i in Refs(s) && Refs(s) - multiset{i} == Refs(s1);
    owner' := CloseKeeps(s1, owner, Refs(s), s.denying, i);
  }

  function CloseState(s: State, i: nat, deny: bool): State
    requires Closable(s, i)
  {
    if deny then ClosePlain(Allowed(s, i), i) else ClosePlain(s, i)
  }

  lemma CloseStateKeeps(s: State, owner: seq<Owner>, i: nat, deny: bool) returns (owner': seq<Owner>)
    requires Core(s, owner, Refs(s), s.denying) && if deny then i in s.denying else i in s.plain
    ensures Closable(s, i) && Core(CloseState(s, i, deny), owner', Refs(CloseState(s, i, deny)), CloseState(s, i, deny).denying)
  {
    if deny {
      AllowedKeeps(s, owner, i);
      owner' := ClosePlainKeeps(Allowed(s, i), owner, i);
    } else {
      owner' := ClosePlainKeeps(s, owner, i);
    }
  }

  /** Data goes to a sector of the extent, unless writes are denied. */
  function WriteState(s: State, i: nat, k: nat): State
    requires i in s.open && s.open[i].data.start + k < |s.disk|
  {
    if s.open[i].denyWriteCnt > 0 then s else s.(disk := s.disk[s.open[i].data.start + k := None])
  }

  /** Data never lands on the header of a live inode. */
  lemma WriteKeeps(s: State, owner: seq<Owner>, i: nat, k: nat)
    requires Core(s, owner, Refs(s), s.denying) && i in s.open && k < Sectors(s.open[i].data)
    ensures s.open[i].data.start + k < |s.disk|
    ensures Core(WriteState(s, i, k), owner, Refs(s), s.denying)
  {
    assert OpenOk(s.disk, owner, s.open[i], i, Refs(s)[i], s.denying[i]);
    assert Holds(s.disk, owner, i);
    var d := s.open[i].data.start + k;
    assert InExtent(s.open[i].data, d) && owner[d] == Of(i) && d != i;
    var s' := WriteState(s, i, k);
    WriteStrays(s.marked, s.disk, s'.disk, owner);
    SameInodes(s, s', owner, owner, Refs(s), s.denying);
  }

  // ---- runs

  /** What the operations need is there. */
  lemma Ready(s: State, a: Action)
    requires Inv(s) && Enabled(s, a)
    ensures |s.disk| == |s.marked|
    ensures a.OpenFile? && Found(s, a.name, a.memory).Some? ==> CanOpen(s, s.slots[Found(s, a.name, a.memory).value].sector)
    ensures a.Remove? && Found(s, a.name, a.memory).Some? ==> CanOpen(s, s.slots[Found(s, a.name, a.memory).value].sector)
    ensures a.Reopen? ==> CanOpen(s, a.inode)
    ensures a.CloseFile? || a.DenyWrite? || a.AllowWrite? ==> Closable(s, a.inode)
    ensures a.Write? ==> s.open[a.inode].data.start + a.sector < |s.disk|
  {
    var owner :| Core(s, owner, Refs(s), s.denying);
    if (a.OpenFile? || a.Remove?) && Found(s, a.name, a.memory).Some? {
      var k := Found(s, a.name, a.memory).value;
      assert SlotOk(s, owner, k);
      BrieflyOpen(s, owner, Refs(s), s.denying, s.slots[k].sector);
    } else if a.Reopen? || a.CloseFile? || a.DenyWrite? || a.AllowWrite? || a.Write? {
      assert a.inode in Refs(s);
      OpenIsClosable(s, owner, Refs(s), s.denying, a.inode);
      assert OpenOk(s.disk, owner, s.open[a.inode], a.inode, Refs(s)[a.inode], s.denying[a.inode]);
      BrieflyOpen(s, owner, Refs(s), s.denying, a.inode);
    }
  }

  /** `filesys_open`: the inode of the new file, if there is one. */
  ghost function OpenFileState(s: State, name: string, m: Memory): (State, Option<nat>)
    requires Inv(s)
  {
    Ready(s, OpenFile(name, m));
    match Found(s, name, m)
    case None => (s, None)
    case Some(k) => (OpenState(s, s.slots[k].sector, m.file), if m.file then Some(s.slots[k].sector) else None)
  }

  ghost function RemoveState(s: State, name: string, m: Memory): (State, bool)
    requires Inv(s)
  {
    Ready(s, Remove(name, m));
    match Found(s, name, m)
    case None => (s, false)
    case Some(k) => RemoveEntry(s, k, m)
  }

  ghost function Apply(s: State, a: Action): State
    requires Inv(s) && Enabled(s, a)
  {
    Ready(s, a);
    match a
    case Create(name, size, m) => CreateState(s, name, size, m).0
    case OpenFile(name, m) => OpenFileState(s, name, m).0
    case Remove(name, m) => RemoveState(s, name, m).0
    case Reopen(i, m) => OpenState(s, i, m.file)
    case CloseFile(i, deny) => CloseState(s, i, deny)
    case DenyWrite(i) => Denied(s, i)
    case AllowWrite(i) => Allowed(s, i)
    case Write(i, k) => WriteState(s, i, k)
  }

  lemma FoundLive(s: State, owner: seq<Owner>, name: string, m: Memory)
    requires SlotInv(s, owner) && Found(s, name, m).Some?
    ensures var k := Found(s, name, m).value;
      k < |s.slots| && s.slots[k].inUse && Live(owner, s.slots[k].sector) && s.slots[k].sector != ROOT_DIR_SECTOR
  {
    assert SlotOk(s, owner, Found(s, name, m).value);
  }

  lemma OpenFileStep(s: State, name: string, m: Memory)
    requires Inv(s)
    ensures Inv(OpenFileState(s, name, m).0)
  {
    var owner :| Core(s, owner, Refs(s), s.denying);
    if Found(s, name, m).Some? {
      FoundLive(s, owner, name, m);
      var owner' := OpenStateKeeps(s, owner, s.slots[Found(s, name, m).value].sector, m.file);
    }
  }

  lemma RemoveStep(s: State, name: string, m: Memory)
    requires Inv(s)
    ensures Inv(RemoveState(s, name, m).0)
  {
    if Found(s, name, m).Some? {
      var owner :| Core(s, owner, Refs(s), s.denying);
      FoundLive(s, owner, name, m);
      EntryRemoved(s, owner, Found(s, name, m).value, m);
    }
  }

  lemma EntryRemoved(s: State, owner: seq<Owner>, k: nat, m: Memory)
    requires Core(s, owner, Refs(s), s.denying) && ROOT_DIR_SECTOR !in s.open
    requires k < |s.slots| && s.slots[k].inUse && s.slots[k].sector != ROOT_DIR_SECTOR
    ensures CanOpen(s, s.slots[k].sector) && Inv(RemoveEntry(s, k, m).0)
  {
    var owner' := RemoveKeeps(s, owner, Refs(s), s.denying, k, m);
    assert Refs(RemoveEntry(s, k, m).0) == Refs(s);
  }

  lemma HandleLive(s: State, owner: seq<Owner>, i: nat)
    requires Core(s, owner, Refs(s), s.denying) && i in Refs(s)
    ensures Live(owner, i) && i in s.open
  {
    assert OpenOk(s.disk, owner, s.open[i], i, Refs(s)[i], s.denying[i]);
  }

  lemma ReopenStep(s: State, i: nat, m: Memory)
    requires Inv(s) && Enabled(s, Reopen(i, m))
    ensures CanOpen(s, i) && Inv(OpenState(s, i, m.file))
  {
    var owner :| Core(s, owner, Refs(s), s.denying);
    HandleLive(s, owner, i);
    var owner' := OpenStateKeeps(s, owner, i, m.file);
  }

  lemma CloseRoot(s: State, owner: seq<Owner>, i: nat, deny: bool)
    requires Core(s, owner, Refs(s), s.denying) && ROOT_DIR_SECTOR !in s.open && Enabled(s, CloseFile(i, deny))
    ensures Closable(s, i) && Inv(CloseState(s, i, deny))
  {
    hide Core;
    var owner' := CloseStateKeeps(s, owner, i, deny);
  }

  lemma CloseStep(s: State, i: nat, deny: bool)
    requires Inv(s) && Enabled(s, CloseFile(i, deny))
    ensures Closable(s, i) && Inv(CloseState(s, i, deny))
  {
    var owner :| Core(s, owner, Refs(s), s.denying);
    CloseRoot(s, owner, i, deny);
  }

  lemma DenyStep(s: State, i: nat)
    requires Inv(s) && Enabled(s, DenyWrite(i))
    ensures i in s.open && Inv(Denied(s, i))
  {
    var owner :| Core(s, owner, Refs(s), s.denying);
    DeniedKeeps(s, owner, i);
  }

  lemma AllowStep(s: State, i: nat)
    requires Inv(s) && Enabled(s, AllowWrite(i))
    ensures i in s.open && Inv(Allowed(s, i))
  {
    var owner :| Core(s, owner, Refs(s), s.denying);
    AllowedKeeps(s, owner, i);
  }

  lemma WriteStep(s: State, i: nat, k: nat)
    requires Inv(s) && Enabled(s, Write(i, k))
    ensures s.open[i].data.start + k < |s.disk| && Inv(WriteState(s, i, k))
  {
    var owner :| Core(s, owner, Refs(s), s.denying);
    WriteKeeps(s, owner, i, k);
    assert Refs(WriteState(s, i, k)) == Refs(s) && WriteState(s, i, k).denying == s.denying;
  }

  lemma CreateStep(s: State, name: string, size: nat, m: Memory)
    requires Inv(s)
    ensures |s.disk| == |s.marked| && Inv(CreateState(s, name, size, m).0)
  {
    var owner :| Core(s, owner, Refs(s), s.denying);
    var owner' := CreateKeeps(s, owner, Refs(s), s.denying, name, size, m);
    assert Refs(CreateState(s, name, size, m).0) == Refs(s);
  }

  lemma StepKeeps(s: State, a: Action)
    requires Inv(s) && Enabled(s, a)
    ensures Inv(Apply(s, a))
  {
    match a
    case Create(name, size, m) => CreateStep(s, name, size, m);
    case OpenFile(name, m) => OpenFileStep(s, name, m);
    case Remove(name, m) => RemoveStep(s, name, m);
    case Reopen(i, m) => ReopenStep(s, i, m);
    case CloseFile(i, deny) => CloseStep(s, i, deny);
    case DenyWrite(i) => DenyStep(s, i);
    case AllowWrite(i) => AllowStep(s, i);
    case Write(i, k) => WriteStep(s, i, k);
  }

  // ---- a formatted device

  const ENTRIES: nat := 16
  const ENTRY_SIZE: nat := 20

  /** Bytes of the free map file for a device of `n` sectors. */
  function MapBytes(n: nat): nat { 4 * ((n + ELEM_BITS - 1) / ELEM_BITS) }

  function MapSectors(n: nat): nat { FileData.SectorsOf(MapBytes(n)) }

  /** Room for the two headers, the free map and one sector of directory entries. */
  predicate LargeEnough(n: nat) { 3 + MapSectors(n) <= n }

  function Marked(n: nat, used: nat): seq<bool>
    requires used <= n
  {
    seq(used, _ => true) + seq(n - used, _ => false)
  }

  /** After `filesys_init` with formatting: the original panics on a device that is too small. */
  function Formatted(n: nat): State
    requires LargeEnough(n)
  {
    var f := MapSectors(n);
    var map0 := FileData.Inode(2, MapBytes(n));
    State(Marked(n, 3 + f),
          [Some(map0), Some(FileData.Inode(2 + f, ENTRIES * ENTRY_SIZE))] + seq(n - 2, _ => None),
          seq(ENTRIES, _ => Slot(false, "", 0)), map[FREE_MAP_SECTOR := Open(1, false, 0, map0)], multiset{}, multiset{})
  }

  /** Where formatting puts the extents: right behind what is marked already. */
  lemma FormatAllocates(n: nat, used: nat, cnt: nat)
    requires used + cnt <= n && cnt > 0
    ensures FirstGroup(Marked(n, used), 0, cnt, false) == Some(used)
    ensures SetRange(Marked(n, used), used, cnt, true) == Marked(n, used + cnt)
  {
    var bits := Marked(n, used);
    forall j: nat | j < used
      ensures !AllAre(bits, j, cnt, false)
    {
      assert bits[j];
    }
    ScanUnique(bits, 0, cnt, false, Some(used), FirstGroup(bits, 0, cnt, false));
  }

  /** `inode_create` in a formatted or fresh device, with memory: the marks and headers after it. */
  ghost function Created(marked: seq<bool>, disk: seq<Option<Header>>, i: nat, size: nat): Option<(seq<bool>, seq<Option<Header>>)>
    requires |marked| == |disk| && i < |disk|
  {
    var cnt := FileData.SectorsOf(size);
    match Allocate(marked, cnt, true)
    case None => None
    case Some(p) => Some((SetRange(marked, p, cnt, true), SetRange(disk[i := Some(FileData.Inode(p, size))], p, cnt, None)))
  }

  /** `do_format` on a device of `n` sectors, two of which `free_map_init` has marked; without a
      result where it panics. */
  ghost function DoFormat(n: nat): Option<(seq<bool>, seq<Option<Header>>)>
    requires n >= 2
  {
    match Created(Marked(n, 2), seq(n, _ => None), FREE_MAP_SECTOR, MapBytes(n))
    case None => None
    case Some(d) => if |d.0| == |d.1| == n then Created(d.0, d.1, ROOT_DIR_SECTOR, ENTRIES * ENTRY_SIZE) else None
  }

  /** Formatting succeeds exactly on devices that are large enough, and then gives `Formatted`. */
  lemma FormatBuilds(n: nat)
    requires n >= 2
    ensures DoFormat(n).Some? <==> LargeEnough(n)
    ensures LargeEnough(n) ==> DoFormat(n).value == (Formatted(n).marked, Formatted(n).disk)
  {
    var f := MapSectors(n);
    OneSector();
    MapNonempty(n);
    if 2 + f <= n {
      FormatAllocates(n, 2, f);
      if 3 + f <= n {
        FormatAllocates(n, 2 + f, 1);
        FormatDisk(n, f);
      } else {
        NoRoom(n, 2 + f, 1);
      }
    } else {
      NoRoom(n, 2, f);
    }
  }

  lemma MapNonempty(n: nat)
    requires n >= 2
    ensures MapSectors(n) > 0
  {
    assert (n + ELEM_BITS - 1) / ELEM_BITS >= 1;
  }

  lemma NoRoom(n: nat, used: nat, cnt: nat)
    requires used <= n < used + cnt
    ensures FirstGroup(Marked(n, used), 0, cnt, false) == None
  {
    var bits := Marked(n, used);
    forall j: nat | j + cnt <= |bits|
      ensures !AllAre(bits, j, cnt, false)
    {
      assert bits[j];
    }
    ScanUnique(bits, 0, cnt, false, None, FirstGroup(bits, 0, cnt, false));
  }

  lemma FormatDisk(n: nat, f: nat)
    requires f == MapSectors(n) && 3 + f <= n && FileData.SectorsOf(ENTRIES * ENTRY_SIZE) == 1
    ensures var d: seq<Option<Header>> := seq(n, _ => None);
      var d1 := SetRange(d[0 := Some(FileData.Inode(2, MapBytes(n)))], 2, f, None);
      |d1| == n && SetRange(d1[1 := Some(FileData.Inode(2 + f, ENTRIES * ENTRY_SIZE))], 2 + f, 1, None) == Formatted(n).disk
  {
  }

  lemma OneSector()
    ensures FileData.SectorsOf(ENTRIES * ENTRY_SIZE) == 1
  {
  }

  lemma FormattedInv(n: nat)
    requires LargeEnough(n)
    ensures Inv(Formatted(n))
  {
    var s, f := Formatted(n), MapSectors(n);
    var owner := [Of(0), Of(1)] + seq(f, _ => Of(0)) + [Of(1)] + seq(n - 3 - f, _ => Free);
    OneSector();
    assert Holds(s.disk, owner, 0) && Holds(s.disk, owner, 1);
    assert SectorInv(s.marked, s.disk, owner);
    assert Core(s, owner, Refs(s), s.denying);
  }

  /** The state after the actions, if each was enabled. */
  ghost function Run(n: nat, actions: seq<Action>): (r: Option<State>)
    requires LargeEnough(n)
    ensures r.Some? ==> Inv(r.value)
  {
    if actions == [] then
      FormattedInv(n);
      Some(Formatted(n))
    else
      var k := |actions| - 1;
      match Run(n, actions[..k])
      case None => None
      case Some(s) =>
        if Enabled(s, actions[k]) then
          StepKeeps(s, actions[k]);
          Some(Apply(s, actions[k]))
        else None
  }

  /** An inode that is in use: a file with an entry, an open file, the free map or the root. */
  predicate InUse(s: State, i: nat) {
    || i == FREE_MAP_SECTOR || i == ROOT_DIR_SECTOR || i in s.open
    || exists k: nat :: k < |s.slots| && s.slots[k].inUse && s.slots[k].sector == i
  }

  lemma InUseLive(s: State, owner: seq<Owner>, i: nat)
    requires Core(s, owner, Refs(s), s.denying) && InUse(s, i)
    ensures Live(owner, i) && Holds(s.disk, owner, i)
  {
    if i in s.open {
      assert OpenOk(s.disk, owner, s.open[i], i, Refs(s)[i], s.denying[i]);
    } else if k: nat :| k < |s.slots| && s.slots[k].inUse && s.slots[k].sector == i {
      assert SlotOk(s, owner, k);
    }
  }

  /** Sectors of inodes in use are marked, and belong to one inode only. */
  ghost predicate Exclusive(s: State) {
    forall i: nat, j: nat, k: nat :: InUse(s, i) && InUse(s, j) && BelongsTo(s.disk, k, i) && BelongsTo(s.disk, k, j) ==>
      i == j && k < |s.marked| && s.marked[k]
  }

  /** The header that an open inode caches is the one on disk. */
  ghost predicate CachesHeaders(s: State) {
    forall i: nat :: i in s.open ==> i < |s.disk| && s.disk[i] == Some(s.open[i].data)
  }

  /** An inode is open exactly while there are references to it, and counts them. */
  ghost predicate CountsExactly(s: State) {
    && (forall i: nat :: i in s.open <==> i in Refs(s))
    && (forall i: nat :: i in s.open ==> s.open[i].openCnt == Refs(s)[i] && s.open[i].denyWriteCnt == s.denying[i])
  }

  /** No entry names an inode that has been removed, and no two the same. */
  ghost predicate EntriesLive(s: State) {
    && SlotsApart(s.slots)
    && forall k: nat :: k < |s.slots| && s.slots[k].inUse && s.slots[k].sector in s.open ==> !s.open[s.slots[k].sector].removed
  }

  lemma SafeSectors(s: State)
    requires Inv(s)
    ensures Exclusive(s)
  {
    hide Core, InUse, BelongsTo;
    var owner :| Core(s, owner, Refs(s), s.denying);
    forall i: nat, j: nat, k: nat | InUse(s, i) && InUse(s, j) && BelongsTo(s.disk, k, i) && BelongsTo(s.disk, k, j)
      ensures i == j && k < |s.marked| && s.marked[k]
    {
      SafeSector(s, owner, i, j, k);
    }
  }

  lemma SafeSector(s: State, owner: seq<Owner>, i: nat, j: nat, k: nat)
    requires Core(s, owner, Refs(s), s.denying)
    requires InUse(s, i) && InUse(s, j) && BelongsTo(s.disk, k, i) && BelongsTo(s.disk, k, j)
    ensures i == j && k < |s.marked| && s.marked[k]
  {
    InUseLive(s, owner, i);
    InUseLive(s, owner, j);
    OwnersDisjoint(s.marked, s.disk, owner, i, j, k);
  }

  lemma SafeOpens(s: State)
    requires Inv(s)
    ensures CachesHeaders(s) && CountsExactly(s)
  {
    var owner :| Core(s, owner, Refs(s), s.denying);
    forall i: nat | i in s.open
      ensures OpenOk(s.disk, owner, s.open[i], i, Refs(s)[i], s.denying[i])
    {
    }
  }

  lemma SafeEntries(s: State)
    requires Inv(s)
    ensures EntriesLive(s)
  {
    var owner :| Core(s, owner, Refs(s), s.denying);
    forall k: nat | k < |s.slots| && s.slots[k].inUse && s.slots[k].sector in s.open
      ensures !s.open[s.slots[k].sector].removed
    {
      assert SlotOk(s, owner, k);
    }
  }

  /** All of this in every run, also while a file is unlinked but open, and whatever fails. */
  lemma EveryRunIsSafe(n: nat, actions: seq<Action>)
    requires LargeEnough(n) && Run(n, actions).Some?
    ensures var s := Run(n, actions).value;
      Exclusive(s) && CachesHeaders(s) && CountsExactly(s) && EntriesLive(s)
  {
    var s := Run(n, actions).value;
    SafeSectors(s);
    SafeOpens(s);
    SafeEntries(s);
  }

  // ---- what a write changes

  /** Different inodes in use have no sector in common. */
  lemma ExtentsApart(s: State, owner: seq<Owner>, i: nat, j: nat)
    requires Core(s, owner, Refs(s), s.denying) && InUse(s, i) && InUse(s, j) && i != j
    ensures i < |s.disk| && j < |s.disk| && s.disk[i].Some? && s.disk[j].Some?
    ensures s.disk[i].value.start + Sectors(s.disk[i].value) <= |s.disk|
    ensures s.disk[j].value.start + Sectors(s.disk[j].value) <= |s.disk|
    ensures FileData.Disjoint(s.disk[i].value, s.disk[j].value)
  {
    InUseLive(s, owner, i);
    InUseLive(s, owner, j);
    var a, b := s.disk[i].value, s.disk[j].value;
    var k := if a.start < b.start then b.start else a.start;
    if InExtent(a, k) && InExtent(b, k) { OwnersDisjoint(s.marked, s.disk, owner, i, j, k); }
  }

  /** The contents of inode `j` are the same on both devices. */
  ghost predicate Unharmed(s: State, j: nat, bytes: seq<FileData.Sector>, bytes': seq<FileData.Sector>) {
    && j < |s.disk| && s.disk[j].Some? && FileData.OnDevice(bytes, s.disk[j].value) && FileData.OnDevice(bytes', s.disk[j].value)
    && FileData.Contents(bytes', s.disk[j].value) == FileData.Contents(bytes, s.disk[j].value)
  }

  /** The data are stored in the open file on inode `i`, within its length. */
  ghost predicate StoredIn(s: State, i: nat, bytes: seq<FileData.Sector>, bytes': seq<FileData.Sector>, offset: nat, data: seq<FileData.Byte>) {
    && i in s.open && |bytes| == |s.disk| && offset + |data| <= s.open[i].data.length
    && FileData.Stored(bytes, bytes', s.open[i].data.start * FileData.SECTOR + offset, data)
  }

  lemma StoredInside(s: State, i: nat, j: nat, bytes: seq<FileData.Sector>, bytes': seq<FileData.Sector>, offset: nat, data: seq<FileData.Byte>)
    requires Inv(s) && StoredIn(s, i, bytes, bytes', offset, data) && InUse(s, j) && i != j
    ensures Unharmed(s, j, bytes, bytes')
  {
    var owner :| Core(s, owner, Refs(s), s.denying);
    SafeOpens(s);
    ExtentsApart(s, owner, i, j);
    FileData.WriteKeepsOthers(bytes, bytes', s.disk[i].value, s.disk[j].value, offset, data);
  }

  /** In every run, storing data in an open file leaves the contents of every other inode in use
      as they were, whatever bytes are on the device. */
  lemma WritesStayInside(n: nat, actions: seq<Action>, i: nat, j: nat, bytes: seq<FileData.Sector>, bytes': seq<FileData.Sector>,
                         offset: nat, data: seq<FileData.Byte>)
    requires LargeEnough(n) && Run(n, actions).Some? && i != j && InUse(Run(n, actions).value, j)
    requires StoredIn(Run(n, actions).value, i, bytes, bytes', offset, data)
    ensures Unharmed(Run(n, actions).value, j, bytes, bytes')
  {
    StoredInside(Run(n, actions).value, i, j, bytes, bytes', offset, data);
  }
}
