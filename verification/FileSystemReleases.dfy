/** The calls of `free_map_release` in `filesys/inode.c` and `filesys/filesys.c`: its assertion
    holds at each of them, in every run. */
module FileSystemReleases {
  import opened Wrappers
  import opened Bitmap
  import opened FileSystem
  import opened FileSystemRuns
  import FileData

  /** A call of `free_map_release`, with the free map as it finds it. */
  datatype Call = Call(marked: seq<bool>, start: nat, cnt: nat)

  /** What `free_map_release` asserts. */
  ghost predicate Allowed(c: Call) { c.start + c.cnt <= |c.marked| && AllAre(c.marked, c.start, c.cnt, true) }

  /** The calls of `inode_close`. */
  function CloseCalls(s: State, i: nat): seq<Call>
    requires Closable(s, i)
  {
    var o := s.open[i];
    if o.openCnt == 1 && o.removed then [Call(s.marked, i, 1), Call(Release(s.marked, i, 1), o.data.start, Sectors(o.data))] else []
  }

  /** The call of `filesys_create` when it fails after it has got a sector for the header. */
  ghost function CreateCalls(s: State, name: string, size: nat, m: Memory): seq<Call>
    requires |s.disk| == |s.marked|
  {
    match if m.root then Allocate(s.marked, 1, m.header) else None
    case None => []
    case Some(i) =>
      var marked := SetRange(s.marked, i, 1, true);
      match if m.inode then Allocate(marked, FileData.SectorsOf(size), m.extent) else None
      case None => [Call(marked, i, 1)]
      case Some(p) =>
        if AddEntry(s.slots, name, i, m).Some? then [] else [Call(NewInode(s, i, p, size).marked, i, 1)]
  }

  /** The calls that an action makes, in order. */
  ghost function Calls(s: State, a: Action): seq<Call>
    requires FileSystemRuns.Inv(s) && Enabled(s, a)
  {
    Ready(s, a);
    match a
    case Create(name, size, m) => CreateCalls(s, name, size, m)
    case OpenFile(name, m) =>
      if Found(s, name, m).Some? && !m.file then
        var i := s.slots[Found(s, name, m).value].sector;
        CloseCalls(OpenInode(s, i), i)
      else []
    case Remove(name, m) =>
      if Found(s, name, m).Some? then
        var k := Found(s, name, m).value;
        var s1 := OpenInode(s, s.slots[k].sector);
        CloseCalls(if m.write then Unlink(s1, k) else s1, s.slots[k].sector)
      else []
    case Reopen(i, m) => if m.file then [] else CloseCalls(OpenInode(s, i), i)
    case CloseFile(i, deny) => CloseCalls(if deny then FileSystemRuns.Allowed(s, i) else s, i)
    case _ => []
  }

  lemma CloseAllowed(s: State, owner: seq<Owner>, refs: multiset<nat>, denies: multiset<nat>, i: nat)
    requires Core(s, owner, refs, denies) && i in refs
    ensures Closable(s, i) && forall c :: c in CloseCalls(s, i) ==> Allowed(c)
  {
    AlwaysReleasable(s, owner, refs, denies, i);
  }

  lemma CreateAllowed(s: State, name: string, size: nat, m: Memory)
    requires |s.disk| == |s.marked|
    ensures forall c :: c in CreateCalls(s, name, size, m) ==> Allowed(c)
  {
  }

  lemma FoundAllowed(s: State, owner: seq<Owner>, k: nat, unlinked: bool)
    requires Core(s, owner, Refs(s), s.denying) && k < |s.slots| && s.slots[k].inUse && Live(owner, s.slots[k].sector)
    ensures CanOpen(s, s.slots[k].sector)
    ensures var i := s.slots[k].sector;
      var s1 := if unlinked then Unlink(OpenInode(s, i), k) else OpenInode(s, i);
      Closable(s1, i) && forall c :: c in CloseCalls(s1, i) ==> Allowed(c)
  {
    var i, refs := s.slots[k].sector, Refs(s) + multiset{s.slots[k].sector};
    BrieflyOpen(s, owner, Refs(s), s.denying, i);
    if unlinked {
      UnlinkKeeps(OpenInode(s, i), owner, refs, s.denying, k);
      CloseAllowed(Unlink(OpenInode(s, i), k), owner, refs, s.denying, i);
    } else {
      CloseAllowed(OpenInode(s, i), owner, refs, s.denying, i);
    }
  }

  lemma CloseFileAllowed(s: State, owner: seq<Owner>, i: nat, deny: bool)
    requires Core(s, owner, Refs(s), s.denying) && if deny then i in s.denying else i in s.plain
    ensures var s1 := if deny && i in s.open then FileSystemRuns.Allowed(s, i) else s;
      Closable(s1, i) && forall c :: c in CloseCalls(s1, i) ==> Allowed(c)
  {
    if deny {
      AllowedKeeps(s, owner, i);
      CloseAllowed(FileSystemRuns.Allowed(s, i), owner, Refs(FileSystemRuns.Allowed(s, i)), FileSystemRuns.Allowed(s, i).denying, i);
    } else {
      CloseAllowed(s, owner, Refs(s), s.denying, i);
    }
  }

  lemma StepAllowed(s: State, a: Action)
    requires FileSystemRuns.Inv(s) && Enabled(s, a)
    ensures forall c :: c in Calls(s, a) ==> Allowed(c)
  {
    Ready(s, a);
    var owner :| Core(s, owner, Refs(s), s.denying);
    hide Core, Allowed, CloseCalls, CreateCalls;
    match a
    case Create(name, size, m) => CreateAllowed(s, name, size, m);
    case OpenFile(name, m) =>
      if Found(s, name, m).Some? { FoundLive(s, owner, name, m); FoundAllowed(s, owner, Found(s, name, m).value, false); }
    case Remove(name, m) =>
      if Found(s, name, m).Some? { FoundLive(s, owner, name, m); FoundAllowed(s, owner, Found(s, name, m).value, m.write); }
    case Reopen(i, m) => ReopenAllowed(s, owner, i);
    case CloseFile(i, deny) => CloseFileAllowed(s, owner, i, deny);
    case _ =>
  }

  lemma ReopenAllowed(s: State, owner: seq<Owner>, i: nat)
    requires Core(s, owner, Refs(s), s.denying) && i in s.plain + s.denying
    ensures CanOpen(s, i) && forall c :: c in CloseCalls(OpenInode(s, i), i) ==> Allowed(c)
  {
    HandleLive(s, owner, i);
    BrieflyOpen(s, owner, Refs(s), s.denying, i);
    CloseAllowed(OpenInode(s, i), owner, Refs(s) + multiset{i}, s.denying, i);
  }

  /** The marks `marked'` are what the calls leave, or no mark is cleared without a call. */
  ghost predicate Accounts(marked: seq<bool>, calls: seq<Call>, marked': seq<bool>) {
    if calls == [] then |marked'| == |marked| && forall k :: 0 <= k < |marked| && marked[k] ==> marked'[k]
    else
      var c := calls[|calls| - 1];
      c.start + c.cnt <= |c.marked| && marked' == Release(c.marked, c.start, c.cnt)
  }

  lemma CloseAccounts(s: State, i: nat)
    requires Closable(s, i) && s.open[i].openCnt > 0
    ensures Accounts(s.marked, CloseCalls(s, i), CloseInode(s, i).marked)
  {
  }

  lemma CreateAccounts(s: State, name: string, size: nat, m: Memory)
    requires |s.disk| == |s.marked|
    ensures Accounts(s.marked, CreateCalls(s, name, size, m), CreateState(s, name, size, m).0.marked)
  {
  }

  lemma OpenFileAccounts(s: State, name: string, m: Memory)
    requires FileSystemRuns.Inv(s)
    ensures Accounts(s.marked, Calls(s, OpenFile(name, m)), Apply(s, OpenFile(name, m)).marked)
  {
    hide FileSystemRuns.Inv, Accounts, CloseCalls, CloseInode;
    Ready(s, OpenFile(name, m));
    if Found(s, name, m).Some? {
      var i := s.slots[Found(s, name, m).value].sector;
      OpenCounts(s, i);
      CloseAccounts(OpenInode(s, i), i);
    }
    NothingAccounts(s.marked);
  }

  lemma RemoveAccounts(s: State, name: string, m: Memory)
    requires FileSystemRuns.Inv(s)
    ensures Accounts(s.marked, Calls(s, Remove(name, m)), Apply(s, Remove(name, m)).marked)
  {
    hide FileSystemRuns.Inv, Accounts, CloseCalls, CloseInode;
    Ready(s, Remove(name, m));
    if Found(s, name, m).Some? {
      var k := Found(s, name, m).value;
      var i := s.slots[k].sector;
      OpenCounts(s, i);
      CloseAccounts(if m.write then Unlink(OpenInode(s, i), k) else OpenInode(s, i), i);
    }
    NothingAccounts(s.marked);
  }

  lemma CloseFileAccounts(s: State, i: nat, deny: bool)
    requires FileSystemRuns.Inv(s) && Enabled(s, CloseFile(i, deny))
    ensures Accounts(s.marked, Calls(s, CloseFile(i, deny)), Apply(s, CloseFile(i, deny)).marked)
  {
    hide FileSystemRuns.Inv, Accounts, CloseCalls;
    Ready(s, CloseFile(i, deny));
    SafeOpens(s);
    CloseAccounts(if deny then FileSystemRuns.Allowed(s, i) else s, i);
  }

  lemma OtherAccounts(s: State, a: Action)
    requires FileSystemRuns.Inv(s) && Enabled(s, a) && (a.Create? || a.Reopen? || a.DenyWrite? || a.AllowWrite? || a.Write?)
    ensures Accounts(s.marked, Calls(s, a), Apply(s, a).marked)
  {
    hide FileSystemRuns.Inv, Accounts, CloseCalls, CloseInode, CreateCalls, CreateState;
    Ready(s, a);
    match a
    case Create(name, size, m) => CreateAccounts(s, name, size, m);
    case Reopen(i, m) =>
      OpenCounts(s, i);
      CloseAccounts(OpenInode(s, i), i);
      NothingAccounts(s.marked);
    case _ => NothingAccounts(s.marked);
  }

  lemma OpenCounts(s: State, i: nat)
    requires FileSystemRuns.Inv(s) && Openable(s, i)
    ensures OpenInode(s, i).open[i].openCnt > 0
  {
    SafeOpens(s);
  }

  lemma NothingAccounts(marked: seq<bool>)
    ensures Accounts(marked, [], marked)
  {
  }

  /** The calls are all that clears marks. */
  lemma StepAccounts(s: State, a: Action)
    requires FileSystemRuns.Inv(s) && Enabled(s, a)
    ensures Accounts(s.marked, Calls(s, a), Apply(s, a).marked)
  {
    hide FileSystemRuns.Inv, Accounts, Calls, Apply;
    match a
    case OpenFile(name, m) => OpenFileAccounts(s, name, m);
    case Remove(name, m) => RemoveAccounts(s, name, m);
    case CloseFile(i, deny) => CloseFileAccounts(s, i, deny);
    case _ => OtherAccounts(s, a);
  }

  /** In every run, whatever is called next, every range that is given back is marked throughout:
      the assertion in `free_map_release` never fails. */
  lemma EveryReleaseIsAllowed(n: nat, actions: seq<Action>, a: Action)
    requires LargeEnough(n) && Run(n, actions).Some? && Enabled(Run(n, actions).value, a)
    ensures forall c :: c in Calls(Run(n, actions).value, a) ==> Allowed(c)
  {
    StepAllowed(Run(n, actions).value, a);
  }
}
