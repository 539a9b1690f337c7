/** Creating files: when it succeeds, and that a file keeps the size it was created with. */
module CreatedFiles {
  import opened Wrappers
  import opened Bitmap
  import opened FileSystem
  import opened FileSystemRuns
  import opened Directory
  import opened DirectoryRuns
  import FileData

  /** A first free sector for the header, and `cnt` others in a row that are free. */
  ghost predicate Room(marked: seq<bool>, cnt: nat) {
    exists i: nat, p: nat :: RoomAt(marked, cnt, i, p)
  }

  ghost predicate RoomAt(marked: seq<bool>, cnt: nat, i: nat, p: nat) {
    && i < |marked| && !marked[i] && (forall j :: 0 <= j < i ==> marked[j])
    && p + cnt <= |marked| && (forall j :: p <= j < p + cnt ==> !marked[j] && j != i)
  }

  lemma AllocateExact(marked: seq<bool>, cnt: nat, written: bool)
    ensures Allocate(marked, cnt, written).Some? <==> written && exists p: nat :: p + cnt <= |marked| && AllAre(marked, p, cnt, false)
  {
  }

  /** The first free sector, as the scan finds it. */
  lemma FirstFree(marked: seq<bool>, i: nat)
    requires i < |marked| && !marked[i] && forall j :: 0 <= j < i ==> marked[j]
    ensures FirstGroup(marked, 0, 1, false) == Some(i)
  {
    forall j: nat | j < i
      ensures !AllAre(marked, j, 1, false)
    {
      assert marked[j];
    }
    ScanUnique(marked, 0, 1, false, Some(i), FirstGroup(marked, 0, 1, false));
  }

  lemma FoundFree(marked: seq<bool>, i: nat)
    requires FirstGroup(marked, 0, 1, false) == Some(i)
    ensures i < |marked| && !marked[i] && forall j :: 0 <= j < i ==> marked[j]
  {
    forall j: nat | j < i
      ensures marked[j]
    {
      assert !AllAre(marked, j, 1, false);
    }
  }

  /** The two allocations of a create find their sectors exactly when there is room. */
  lemma RoomExact(marked: seq<bool>, cnt: nat)
    ensures Room(marked, cnt) <==>
      var i := FirstGroup(marked, 0, 1, false);
      i.Some? && exists p: nat :: p + cnt <= |marked| && AllAre(SetRange(marked, i.value, 1, true), p, cnt, false)
  {
    var f := FirstGroup(marked, 0, 1, false);
    if Room(marked, cnt) {
      var i: nat, p: nat :| RoomAt(marked, cnt, i, p);
      FirstFree(marked, i);
      assert AllAre(SetRange(marked, i, 1, true), p, cnt, false);
    }
    if f.Some? {
      FoundFree(marked, f.value);
      if p: nat :| p + cnt <= |marked| && AllAre(SetRange(marked, f.value, 1, true), p, cnt, false) {
        forall j | p <= j < p + cnt
          ensures !marked[j] && j != f.value
        {
          assert SetRange(marked, f.value, 1, true)[j] == false;
        }
        assert RoomAt(marked, cnt, f.value, p);
      }
    }
  }

  /** What a create needs of memory and of the device, other than the directory. */
  ghost predicate Means(s: State, size: nat, m: Memory) {
    m.root && m.header && m.inode && m.extent && Room(s.marked, FileData.SectorsOf(size))
  }

  lemma CreateExact(s: State, name: string, size: nat, m: Memory)
    requires |s.disk| == |s.marked|
    ensures CreateState(s, name, size, m).1 <==> Means(s, size, m) && AddEntry(s.slots, name, 0, m).Some?
  {
    hide Room, Lookup, FreeSlot, FirstGroup;
    var cnt := FileData.SectorsOf(size);
    RoomExact(s.marked, cnt);
    AllocateExact(s.marked, 1, m.header);
    if m.root && Allocate(s.marked, 1, m.header).Some? {
      AllocateExact(SetRange(s.marked, Allocate(s.marked, 1, m.header).value, 1, true), cnt, m.extent);
    }
  }

  function Used(slots: seq<Slot>): nat {
    if slots == [] then 0 else Used(slots[..|slots| - 1]) + if slots[|slots| - 1].inUse then 1 else 0
  }

  /** There are as many names as entries in use. */
  lemma {:induction false} EntryCount(slots: seq<Slot>, d: map<string, nat>)
    requires IsMap(slots, d)
    ensures |d| == Used(slots)
    decreases |slots|
  {
    if slots == [] {
      assert forall name :: name in d ==> exists k: nat :: Entry(slots, k, name);
      assert d.Keys == {};
      assert |d| == |d.Keys|;
    } else {
      var n := |slots| - 1;
      var rest, name := slots[..n], slots[n].name;
      if slots[n].inUse {
        LastEntry(slots, d);
        EntryCount(rest, d - {name});
        assert (d - {name}).Keys == d.Keys - {name};
        assert |d| == |d.Keys| && |d - {name}| == |(d - {name}).Keys|;
      } else {
        assert forall k: nat, x :: Entry(slots, k, x) <==> Entry(rest, k, x);
        assert IsMap(rest, d);
        EntryCount(rest, d);
      }
    }
  }

  lemma LastEntry(slots: seq<Slot>, d: map<string, nat>)
    requires IsMap(slots, d) && slots != [] && slots[|slots| - 1].inUse
    ensures slots[|slots| - 1].name in d && IsMap(slots[..|slots| - 1], d - {slots[|slots| - 1].name})
  {
    var n := |slots| - 1;
    var rest, last := slots[..n], slots[n].name;
    assert Entry(slots, n, last);
    assert forall k: nat, x :: Entry(rest, k, x) <==> Entry(slots, k, x) && k != n;
    forall k: nat | k < |rest| && rest[k].inUse
      ensures rest[k].name in d - {last} && (d - {last})[rest[k].name] == rest[k].sector
    {
      assert Entry(slots, k, slots[k].name);
    }
    forall x | x in d - {last}
      ensures exists k: nat :: Entry(rest, k, x)
    {
      var k: nat :| Entry(slots, k, x);
      assert Entry(rest, k, x);
    }
  }

  lemma {:induction false} FreeOrFull(slots: seq<Slot>)
    ensures Used(slots) <= |slots|
    ensures Used(slots) < |slots| <==> exists k: nat :: k < |slots| && !slots[k].inUse
    decreases |slots|
  {
    if slots != [] {
      var n := |slots| - 1;
      FreeOrFull(slots[..n]);
      if exists k: nat :: k < |slots| && !slots[k].inUse {
        var k: nat :| k < |slots| && !slots[k].inUse;
        assert k < n ==> !slots[..n][k].inUse;
      }
      if k: nat :| k < n && !slots[..n][k].inUse {
        assert !slots[k].inUse;
      }
    }
  }

  /** In every run whose creates have read the directory without failure, one that does so too
      succeeds exactly when memory suffices, there is room, the name is one for a file and new, and
      fewer files than entries are listed. */
  lemma CreateSucceeds(n: nat, actions: seq<Action>, name: string, size: nat, m: Memory)
    requires LargeEnough(n) && Run(n, actions).Some? && AllRead(actions) && m.scan >= ENTRIES && m.rescan >= ENTRIES
    ensures var s, d := Run(n, actions).value, Listing(n, actions);
      |s.disk| == |s.marked| &&
      (CreateState(s, name, size, m).1 <==>
        Means(s, size, m) && m.write && 0 < |name| <= NAME_MAX && name !in d && |d| < ENTRIES)
  {
    hide Inv, IsMap, Means, CreateState, AddEntry;
    var s, d := Run(n, actions).value, Listing(n, actions);
    Ready(s, Create(name, size, m));
    RunEntries(n, actions);
    RunIsMap(n, actions);
    EntryCount(s.slots, d);
    FreeOrFull(s.slots);
    CreateExact(s, name, size, m);
    AddSucceeds(s.slots, d, name, m);
  }

  lemma AddSucceeds(slots: seq<Slot>, d: map<string, nat>, name: string, m: Memory)
    requires IsMap(slots, d) && m.scan >= |slots| && m.rescan >= |slots|
    ensures AddEntry(slots, name, 0, m).Some? <==>
      m.write && 0 < |name| <= NAME_MAX && name !in d && exists k: nat :: k < |slots| && !slots[k].inUse
  {
    LookupIsMap(slots, d, name, m.scan);
  }

  // ---- the size of a file

  /** The sizes of the files listed, after one more call. */
  ghost function Sizing(z: map<string, nat>, s: State, a: Action): map<string, nat>
    requires Inv(s) && Enabled(s, a)
  {
    Ready(s, a);
    match a
    case Create(name, size, m) => if CreateState(s, name, size, m).1 then z[name := size] else z
    case Remove(name, m) => if RemoveState(s, name, m).1 then z - {name} else z
    case _ => z
  }

  /** The header of inode `i` gives length `n`. */
  predicate HasLength(s: State, i: nat, n: nat) { i < |s.disk| && s.disk[i].Some? && s.disk[i].value.length == n }

  ghost predicate Sized(s: State, d: map<string, nat>, z: map<string, nat>) {
    z.Keys == d.Keys && forall name :: name in d ==> HasLength(s, d[name], z[name])
  }

  lemma CreateHeader(s: State, name: string, size: nat, m: Memory, j: nat)
    requires |s.disk| == |s.marked| && j < |s.disk| && s.marked[j]
    ensures var s' := CreateState(s, name, size, m).0; |s'.disk| == |s.disk| && s'.disk[j] == s.disk[j]
  {
  }

  /** A new file has the size that was asked for. */
  lemma CreateLength(s: State, name: string, size: nat, m: Memory)
    requires |s.disk| == |s.marked| && CreateState(s, name, size, m).1
    ensures FirstGroup(s.marked, 0, 1, false).Some?
    ensures HasLength(CreateState(s, name, size, m).0, FirstGroup(s.marked, 0, 1, false).value, size)
  {
    var i := FirstGroup(s.marked, 0, 1, false).value;
    var marked' := SetRange(s.marked, i, 1, true);
    var p := Allocate(marked', FileData.SectorsOf(size), m.extent).value;
    assert marked'[i] && AllAre(marked', p, FileData.SectorsOf(size), false);
  }

  lemma WriteHeader(s: State, i: nat, k: nat, j: nat)
    requires Inv(s) && Enabled(s, Write(i, k)) && InUse(s, j)
    ensures s.open[i].data.start + k < |s.disk|
    ensures var s' := WriteState(s, i, k); j < |s.disk| == |s'.disk| && s'.disk[j] == s.disk[j]
  {
    var owner :| Core(s, owner, Refs(s), s.denying);
    assert i in Refs(s);
    InUseLive(s, owner, j);
    assert OpenOk(s.disk, owner, s.open[i], i, Refs(s)[i], s.denying[i]);
    assert Holds(s.disk, owner, i);
    assert InExtent(s.open[i].data, s.open[i].data.start + k);
  }

  lemma InUseMarked(s: State, j: nat)
    requires Inv(s) && InUse(s, j)
    ensures |s.disk| == |s.marked| && j < |s.disk| && s.marked[j]
  {
    var owner :| Core(s, owner, Refs(s), s.denying);
    InUseLive(s, owner, j);
  }

  lemma OtherDisk(s: State, a: Action)
    requires Inv(s) && Enabled(s, a) && !a.Create? && !a.Write?
    ensures Apply(s, a).disk == s.disk
  {
    hide Inv;
    Ready(s, a);
  }

  /** No call changes the header of an inode that is in use. */
  lemma HeaderKept(s: State, a: Action, j: nat)
    requires Inv(s) && Enabled(s, a) && InUse(s, j)
    ensures j < |s.disk| == |Apply(s, a).disk| && Apply(s, a).disk[j] == s.disk[j]
  {
    hide Inv, InUse, CreateState, WriteState;
    InUseMarked(s, j);
    match a
    case Create(name, size, m) => CreateHeader(s, name, size, m, j);
    case Write(i, k) => WriteHeader(s, i, k, j);
    case _ => OtherDisk(s, a);
  }

  lemma ListedInUse(s: State, d: map<string, nat>, name: string)
    requires IsMap(s.slots, d) && name in d
    ensures InUse(s, d[name])
  {
    var k: nat :| Entry(s.slots, k, name);
  }

  lemma StillSized(s: State, d: map<string, nat>, z: map<string, nat>, a: Action, name: string)
    requires Inv(s) && Enabled(s, a) && IsMap(s.slots, d) && Sized(s, d, z) && name in d
    ensures HasLength(Apply(s, a), d[name], z[name])
  {
    hide Inv, IsMap, Apply, Enabled;
    ListedInUse(s, d, name);
    HeaderKept(s, a, d[name]);
  }

  lemma StepSized(s: State, d: map<string, nat>, z: map<string, nat>, a: Action)
    requires Inv(s) && Enabled(s, a) && IsMap(s.slots, d) && Sized(s, d, z)
    ensures Sized(Apply(s, a), Logged(s, d, a), Sizing(z, s, a))
  {
    hide Inv, IsMap, HasLength, CreateState, RemoveState;
    Ready(s, a);
    forall name | name in d
      ensures HasLength(Apply(s, a), d[name], z[name])
    {
      StillSized(s, d, z, a, name);
    }
    if a.Create? && CreateState(s, a.name, a.size, a.memory).1 { CreateLength(s, a.name, a.size, a.memory); }
  }

  /** The sizes with which the files listed were created. */
  ghost function Sizes(n: nat, actions: seq<Action>): map<string, nat>
    requires LargeEnough(n) && Run(n, actions).Some?
    decreases |actions|
  {
    if actions == [] then map[]
    else
      var k := |actions| - 1;
      Sizing(Sizes(n, actions[..k]), Run(n, actions[..k]).value, actions[k])
  }

  /** In every run whose creates read the directory without failure, every file listed has the size
      that it was created with. */
  lemma {:induction false} RunSized(n: nat, actions: seq<Action>)
    requires LargeEnough(n) && Run(n, actions).Some? && AllRead(actions)
    ensures Sized(Run(n, actions).value, Listing(n, actions), Sizes(n, actions))
    decreases |actions|
  {
    hide Inv, IsMap, Enabled, Apply, Logged, Sizing, Sized;
    if actions == [] {
      NothingSized(Formatted(n));
    } else {
      var k := |actions| - 1;
      RunSized(n, actions[..k]);
      RunIsMap(n, actions[..k]);
      StepSized(Run(n, actions[..k]).value, Listing(n, actions[..k]), Sizes(n, actions[..k]), actions[k]);
    }
  }

  lemma NothingSized(s: State)
    ensures Sized(s, map[], map[])
  {
  }
}
