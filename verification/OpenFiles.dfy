/** Open files over whole runs: every file that has been returned and not closed keeps its inode and
    its sectors, also when it is removed meanwhile. */
module OpenFiles {
  import opened Wrappers
  import opened Bitmap
  import opened FileSystem
  import opened FileSystemRuns

  /** One more file on inode `i`, and nothing else changes. */
  ghost predicate Opened(s: State, i: nat, s': State) {
    && i in s'.open && Refs(s')[i] == Refs(s)[i] + 1
    && s'.open == s.open[i := s'.open[i]] && s'.open[i].openCnt == (if i in s.open then s.open[i].openCnt else 0) + 1
    && s' == s.(open := s'.open, plain := s.plain + multiset{i})
  }

  /** Without memory for the file the reference goes back, and nothing has changed. */
  lemma OpenedExact(s: State, i: nat, memory: bool)
    requires Openable(s, i) && Closable(OpenInode(s, i), i) && (i in s.open ==> s.open[i].openCnt > 0)
    ensures if memory then Opened(s, i, OpenState(s, i, memory)) else OpenState(s, i, memory) == s
  {
    if !memory {
      var s' := OpenState(s, i, memory);
      assert s'.open == s.open;
    }
  }

  lemma CountsRun(s: State, i: nat)
    requires Inv(s)
    ensures i in s.open <==> i in Refs(s)
    ensures i in s.open ==> s.open[i].openCnt == Refs(s)[i] > 0 && s.open[i].denyWriteCnt == s.denying[i]
  {
    var owner :| Core(s, owner, Refs(s), s.denying);
    if i in s.open { assert OpenOk(s.disk, owner, s.open[i], i, Refs(s)[i], s.denying[i]); }
  }

  /** `filesys_open` returns a file with a reference of its own, or changes nothing. */
  lemma OpenRefers(s: State, name: string, m: Memory)
    requires Inv(s)
    ensures var (s', r) := OpenFileState(s, name, m);
      match r case Some(i) => Opened(s, i, s') case None => s' == s
  {
    hide Inv, Opened;
    Ready(s, OpenFile(name, m));
    if Found(s, name, m).Some? {
      var i := s.slots[Found(s, name, m).value].sector;
      CountsRun(s, i);
      OpenedExact(s, i, m.file);
    }
  }

  /** And so does `file_reopen`. */
  lemma ReopenRefers(s: State, i: nat, m: Memory)
    requires Inv(s) && Enabled(s, Reopen(i, m))
    ensures CanOpen(s, i)
    ensures if m.file then Opened(s, i, Apply(s, Reopen(i, m))) else Apply(s, Reopen(i, m)) == s
  {
    hide Inv, Opened;
    Ready(s, Reopen(i, m));
    CountsRun(s, i);
    OpenedExact(s, i, m.file);
  }

  // ---- the files that callers have

  /** The files that have been returned and not closed, after one more call. */
  ghost function Handing(f: multiset<nat>, s: State, a: Action): multiset<nat>
    requires Inv(s)
  {
    match a
    case OpenFile(name, m) => (match OpenFileState(s, name, m).1 case Some(i) => f + multiset{i} case None => f)
    case Reopen(i, m) => if m.file then f + multiset{i} else f
    case CloseFile(i, _) => f - multiset{i}
    case _ => f
  }

  /** The files among them that deny writes. */
  function Denying(g: multiset<nat>, a: Action): multiset<nat> {
    match a
    case DenyWrite(i) => g + multiset{i}
    case AllowWrite(i) => g - multiset{i}
    case CloseFile(i, deny) => if deny then g - multiset{i} else g
    case _ => g
  }

  lemma CreateFiles(s: State, name: string, size: nat, m: Memory)
    requires |s.disk| == |s.marked|
    ensures CreateState(s, name, size, m).0.plain == s.plain && CreateState(s, name, size, m).0.denying == s.denying
  {
  }

  lemma RemoveFiles(s: State, name: string, m: Memory)
    requires Inv(s)
    ensures RemoveState(s, name, m).0.plain == s.plain && RemoveState(s, name, m).0.denying == s.denying
  {
    hide Inv;
  }

  lemma CloseFiles(s: State, i: nat, deny: bool)
    requires Closable(s, i) && if deny then i in s.denying else i in s.plain
    ensures var s' := CloseState(s, i, deny);
      s'.plain + s'.denying == s.plain + s.denying - multiset{i} && s'.denying == if deny then s.denying - multiset{i} else s.denying
  {
    if deny { assert s.plain + multiset{i} - multiset{i} == s.plain; }
  }

  lemma OpenedFiles(s: State, i: nat, s': State)
    requires Opened(s, i, s')
    ensures s'.plain + s'.denying == s.plain + s.denying + multiset{i} && s'.denying == s.denying
  {
  }

  lemma OpenFileFiles(s: State, name: string, m: Memory)
    requires Inv(s)
    ensures var s' := OpenFileState(s, name, m).0;
      s'.plain + s'.denying == Handing(s.plain + s.denying, s, OpenFile(name, m)) && s'.denying == s.denying
  {
    hide Inv, Opened, OpenFileState;
    OpenRefers(s, name, m);
    var (s', r) := OpenFileState(s, name, m);
    if r.Some? { OpenedFiles(s, r.value, s'); }
  }

  lemma ReopenFiles(s: State, i: nat, m: Memory)
    requires Inv(s) && Enabled(s, Reopen(i, m))
    ensures var s' := Apply(s, Reopen(i, m));
      s'.plain + s'.denying == Handing(s.plain + s.denying, s, Reopen(i, m)) && s'.denying == s.denying
  {
    hide Inv, Opened, Apply;
    ReopenRefers(s, i, m);
    if m.file { OpenedFiles(s, i, Apply(s, Reopen(i, m))); }
  }

  lemma StepFiles(s: State, a: Action)
    requires Inv(s) && Enabled(s, a)
    ensures var s' := Apply(s, a);
      s'.plain + s'.denying == Handing(s.plain + s.denying, s, a) && s'.denying == Denying(s.denying, a)
  {
    hide Inv, CreateState, OpenFileState, RemoveState, CloseState, OpenState, Found;
    Ready(s, a);
    match a
    case Create(name, size, m) => CreateFiles(s, name, size, m);
    case OpenFile(name, m) => OpenFileFiles(s, name, m);
    case Remove(name, m) => RemoveFiles(s, name, m);
    case Reopen(i, m) => ReopenFiles(s, i, m);
    case CloseFile(i, deny) => CloseFiles(s, i, deny);
    case DenyWrite(i) => Moved(s.plain, s.denying, i);
    case AllowWrite(i) => Moved(s.denying, s.plain, i);
    case Write(_, _) =>
  }

  ghost function Handles(n: nat, actions: seq<Action>): multiset<nat>
    requires LargeEnough(n) && Run(n, actions).Some?
    decreases |actions|
  {
    if actions == [] then multiset{}
    else
      var k := |actions| - 1;
      Handing(Handles(n, actions[..k]), Run(n, actions[..k]).value, actions[k])
  }

  function Denials(actions: seq<Action>): multiset<nat> {
    if actions == [] then multiset{} else Denying(Denials(actions[..|actions| - 1]), actions[|actions| - 1])
  }

  /** In every run the files that the state accounts for are those that were returned and not closed. */
  lemma {:induction false} RunHandles(n: nat, actions: seq<Action>)
    requires LargeEnough(n) && Run(n, actions).Some?
    ensures var s := Run(n, actions).value;
      s.plain + s.denying == Handles(n, actions) && s.denying == Denials(actions)
    decreases |actions|
  {
    hide Inv, Enabled, Apply, Handing, Denying;
    if actions != [] {
      var k := |actions| - 1;
      RunHandles(n, actions[..k]);
      StepFiles(Run(n, actions[..k]).value, actions[k]);
    }
  }

  /** Inode `i` is open, its header is on disk, and its sectors are marked and nobody else's. */
  ghost predicate Safe(s: State, i: nat) {
    && i in s.open && i < |s.disk| && s.disk[i] == Some(s.open[i].data)
    && forall k: nat :: BelongsTo(s.disk, k, i) ==>
      k < |s.marked| && s.marked[k] && forall j: nat :: InUse(s, j) && BelongsTo(s.disk, k, j) ==> j == i
  }

  lemma OpenInUse(s: State, i: nat)
    requires i in s.open
    ensures InUse(s, i)
  {
  }

  lemma OpenSafe(s: State, i: nat)
    requires Exclusive(s) && CachesHeaders(s) && i in s.open
    ensures Safe(s, i)
  {
    hide BelongsTo, InUse;
    OpenInUse(s, i);
    forall k: nat | BelongsTo(s.disk, k, i)
      ensures k < |s.marked| && s.marked[k] && forall j: nat :: InUse(s, j) && BelongsTo(s.disk, k, j) ==> j == i
    {
    }
  }

  /** In every run a file that has been returned and not closed, also one that has been removed, keeps
      its inode open with as many references as there are such files, and its sectors marked; and
      writes to it change nothing while one of those files denies them. */
  lemma HandlesAreSafe(n: nat, actions: seq<Action>, i: nat)
    requires LargeEnough(n) && Run(n, actions).Some? && i in Handles(n, actions)
    ensures var s := Run(n, actions).value;
      && Safe(s, i) && s.open[i].openCnt == Handles(n, actions)[i] + (if i == FREE_MAP_SECTOR then 1 else 0)
      && s.open[i].denyWriteCnt == Denials(actions)[i]
      && (forall k: nat :: Enabled(s, Write(i, k)) && i in Denials(actions) ==> Apply(s, Write(i, k)) == s)
  {
    hide Inv, Safe, Exclusive, CachesHeaders, CountsExactly, EntriesLive;
    var s := Run(n, actions).value;
    RunHandles(n, actions);
    CountsRun(s, i);
    EveryRunIsSafe(n, actions);
    OpenSafe(s, i);
    forall k: nat | Enabled(s, Write(i, k)) && i in Denials(actions)
      ensures Apply(s, Write(i, k)) == s
    {
      Ready(s, Write(i, k));
    }
  }
}
