/** The root directory over whole runs: which names it has, and for which inodes. */
module DirectoryRuns {
  import opened Wrappers
  import opened Bitmap
  import opened FileSystem
  import opened FileSystemRuns
  import opened Directory

  /** What a call does to the map of names: a create that succeeds adds one, for the first free
      sector, and a remove that succeeds takes one away. */
  ghost function Logged(s: State, d: map<string, nat>, a: Action): map<string, nat>
    requires Inv(s) && Enabled(s, a)
  {
    Ready(s, a);
    match a
    case Create(name, size, m) =>
      if CreateState(s, name, size, m).1 then d[name := FirstGroup(s.marked, 0, 1, false).value] else d
    case Remove(name, m) => if RemoveState(s, name, m).1 then d - {name} else d
    case _ => d
  }

  /** The files that the calls of a run have created and not removed. */
  ghost function Listing(n: nat, actions: seq<Action>): map<string, nat>
    requires LargeEnough(n) && Run(n, actions).Some?
    decreases |actions|
  {
    if actions == [] then map[]
    else
      var k := |actions| - 1;
      Logged(Run(n, actions[..k]).value, Listing(n, actions[..k]), actions[k])
  }

  /** The slot that `dir_add` takes is free and the name is nowhere, or it is the slot of that name. */
  predicate SlotFits(slots: seq<Slot>, name: string, m: Memory) {
    var k := FreeSlot(slots, m.rescan, 0);
    k < |slots| && if slots[k].inUse then slots[k].name == name else Lookup(slots, name, |slots|, 0).None?
  }

  ghost predicate Fits(s: State, a: Action)
    requires Inv(s) && Enabled(s, a)
  {
    Ready(s, a);
    a.Create? && CreateState(s, a.name, a.size, a.memory).1 ==> SlotFits(s.slots, a.name, a.memory)
  }

  lemma CreateSlots(s: State, name: string, size: nat, m: Memory)
    requires |s.disk| == |s.marked|
    ensures var c, i := CreateState(s, name, size, m), FirstGroup(s.marked, 0, 1, false);
      if c.1 then i.Some? && AddEntry(s.slots, name, i.value, m) == Some(c.0.slots) else c.0.slots == s.slots
  {
  }

  lemma CreateListed(s: State, d: map<string, nat>, name: string, size: nat, m: Memory)
    requires Inv(s) && IsMap(s.slots, d)
    ensures IsMap(Apply(s, Create(name, size, m)).slots, Logged(s, d, Create(name, size, m))) <==> Fits(s, Create(name, size, m))
  {
    hide Inv, IsMap, CreateState, AddEntry;
    Ready(s, Create(name, size, m));
    CreateSlots(s, name, size, m);
    LookupIsMap(s.slots, d, name, |s.slots|);
    if CreateState(s, name, size, m).1 {
      AddFits(s.slots, d, name, FirstGroup(s.marked, 0, 1, false).value, m);
    }
  }

  lemma AddFits(slots: seq<Slot>, d: map<string, nat>, name: string, i: nat, m: Memory)
    requires IsMap(slots, d) && AddEntry(slots, name, i, m).Some?
    ensures IsMap(AddEntry(slots, name, i, m).value, d[name := i]) <==> SlotFits(slots, name, m)
  {
    hide IsMap;
    LookupIsMap(slots, d, name, |slots|);
    AddIsMap(slots, d, name, i, m);
  }

  lemma RemoveListed(s: State, d: map<string, nat>, name: string, m: Memory)
    requires Inv(s) && IsMap(s.slots, d)
    ensures IsMap(Apply(s, Remove(name, m)).slots, Logged(s, d, Remove(name, m)))
  {
    hide Inv, IsMap;
    Ready(s, Remove(name, m));
    if Found(s, name, m).Some? {
      EraseIsMap(s.slots, d, Found(s, name, m).value);
    }
  }

  lemma OtherSlots(s: State, a: Action)
    requires Inv(s) && Enabled(s, a) && !a.Create? && !a.Remove?
    ensures Apply(s, a).slots == s.slots
  {
    hide Inv;
    Ready(s, a);
  }

  /** A call does to the directory what it does to the map exactly when the slot that it takes, if
      it takes one, fits. */
  lemma StepListed(s: State, d: map<string, nat>, a: Action)
    requires Inv(s) && Enabled(s, a) && IsMap(s.slots, d)
    ensures IsMap(Apply(s, a).slots, Logged(s, d, a)) <==> Fits(s, a)
  {
    hide Inv, IsMap;
    match a
    case Create(name, size, m) => CreateListed(s, d, name, size, m);
    case Remove(name, m) => RemoveListed(s, d, name, m);
    case _ => OtherSlots(s, a);
  }

  // ---- runs

  /** After each call of the run the directory is the map of the files created and not removed. */
  ghost predicate Listed(n: nat, actions: seq<Action>)
    requires LargeEnough(n) && Run(n, actions).Some?
    decreases |actions|
  {
    && IsMap(Run(n, actions).value.slots, Listing(n, actions))
    && (actions != [] ==> Listed(n, actions[..|actions| - 1]))
  }

  /** Every call of the run takes a slot that fits. */
  ghost predicate AllFit(n: nat, actions: seq<Action>)
    requires LargeEnough(n) && Run(n, actions).Some?
    decreases |actions|
  {
    actions != [] ==>
      var k := |actions| - 1;
      Fits(Run(n, actions[..k]).value, actions[k]) && AllFit(n, actions[..k])
  }

  lemma FormattedEmpty(n: nat)
    requires LargeEnough(n)
    ensures IsMap(Formatted(n).slots, map[])
  {
  }

  /** Whatever fails: at every point of a run the directory is that map exactly when every call has
      taken a slot that fits. */
  lemma {:induction false} ListedExact(n: nat, actions: seq<Action>)
    requires LargeEnough(n) && Run(n, actions).Some?
    ensures Listed(n, actions) <==> AllFit(n, actions)
    decreases |actions|
  {
    hide IsMap, Inv, Enabled, Apply, Fits, Logged;
    if actions == [] {
      FormattedEmpty(n);
    } else {
      var k := |actions| - 1;
      ListedExact(n, actions[..k]);
      if Listed(n, actions[..k]) {
        StepListed(Run(n, actions[..k]).value, Listing(n, actions[..k]), actions[k]);
      }
    }
  }

  /** No read of the directory fails in a create. */
  ghost predicate AllRead(actions: seq<Action>) {
    forall a :: a in actions && a.Create? ==> a.memory.scan >= ENTRIES && a.memory.rescan >= ENTRIES
  }

  lemma SlotsKept(s: State, a: Action)
    requires Inv(s) && Enabled(s, a)
    ensures |Apply(s, a).slots| == |s.slots|
  {
    hide Inv;
    Ready(s, a);
    match a
    case Create(name, size, m) => CreateSlots(s, name, size, m);
    case Remove(_, _) =>
    case _ => OtherSlots(s, a);
  }

  lemma {:induction false} RunEntries(n: nat, actions: seq<Action>)
    requires LargeEnough(n) && Run(n, actions).Some?
    ensures |Run(n, actions).value.slots| == ENTRIES
    decreases |actions|
  {
    hide Inv, Enabled, Apply;
    if actions != [] {
      var k := |actions| - 1;
      RunEntries(n, actions[..k]);
      SlotsKept(Run(n, actions[..k]).value, actions[k]);
    }
  }

  /** A directory that is read to its end takes a free slot, for a name that it does not have. */
  lemma ReadFits(s: State, a: Action)
    requires Inv(s) && Enabled(s, a)
    requires a.Create? ==> a.memory.scan >= |s.slots| && a.memory.rescan >= |s.slots|
    ensures Fits(s, a)
  {
    hide Inv;
    Ready(s, a);
    if a.Create? { CreateSlots(s, a.name, a.size, a.memory); }
  }

  lemma {:induction false} ReadsFit(n: nat, actions: seq<Action>)
    requires LargeEnough(n) && Run(n, actions).Some? && AllRead(actions)
    ensures AllFit(n, actions)
    decreases |actions|
  {
    hide Inv, Enabled, Apply, Fits;
    if actions != [] {
      var k := |actions| - 1;
      RunEntries(n, actions[..k]);
      assert actions[k] in actions;
      ReadFits(Run(n, actions[..k]).value, actions[k]);
      ReadsFit(n, actions[..k]);
    }
  }

  /** In every run whose creates read the directory without failure, it is the map of the files
      created and not removed. */
  lemma RunIsMap(n: nat, actions: seq<Action>)
    requires LargeEnough(n) && Run(n, actions).Some? && AllRead(actions)
    ensures IsMap(Run(n, actions).value.slots, Listing(n, actions))
  {
    ReadsFit(n, actions);
    ListedExact(n, actions);
  }

  /** So opening finds exactly these files, each with the inode that it was created with. */
  lemma OpenFinds(n: nat, actions: seq<Action>, name: string, m: Memory)
    requires LargeEnough(n) && Run(n, actions).Some? && AllRead(actions) && m.scan >= ENTRIES
    ensures var s, d := Run(n, actions).value, Listing(n, actions);
      OpenFileState(s, name, m).1 ==
        if name in d && m.root && (d[name] in s.open || m.inode) && m.file then Some(d[name]) else None
  {
    hide Inv, IsMap;
    RunEntries(n, actions);
    RunIsMap(n, actions);
    LookupIsMap(Run(n, actions).value.slots, Listing(n, actions), name, m.scan);
  }

  /** So removing succeeds exactly for these files, as far as memory goes. */
  lemma RemoveFinds(n: nat, actions: seq<Action>, name: string, m: Memory)
    requires LargeEnough(n) && Run(n, actions).Some? && AllRead(actions) && m.scan >= ENTRIES
    ensures var s, d := Run(n, actions).value, Listing(n, actions);
      RemoveState(s, name, m).1 <==> name in d && m.root && (d[name] in s.open || m.inode) && m.write
  {
    hide Inv, IsMap;
    RunEntries(n, actions);
    RunIsMap(n, actions);
    LookupIsMap(Run(n, actions).value.slots, Listing(n, actions), name, m.scan);
  }
}
