/** A directory is a finite map from names to inodes, as long as no read fails in `dir_add`. */
module Directory {
  import opened Wrappers
  import opened FileSystem

  predicate Entry(slots: seq<Slot>, k: nat, name: string) {
    k < |slots| && slots[k].inUse && slots[k].name == name
  }

  /** The entries in use are the map `d`, each name in one slot. */
  ghost predicate IsMap(slots: seq<Slot>, d: map<string, nat>) {
    && (forall k: nat :: k < |slots| && slots[k].inUse ==> slots[k].name in d && d[slots[k].name] == slots[k].sector)
    && (forall name :: name in d ==> exists k: nat :: Entry(slots, k, name))
    && (forall j: nat, k: nat, name :: Entry(slots, j, name) && Entry(slots, k, name) ==> j == k)
  }

  /** Enough reads to see all of the directory. */
  predicate Whole(slots: seq<Slot>, m: Memory) { m.scan >= |slots| && m.rescan >= |slots| && m.write }

  lemma LookupIsMap(slots: seq<Slot>, d: map<string, nat>, name: string, seen: nat)
    requires IsMap(slots, d) && seen >= |slots|
    ensures Lookup(slots, name, seen, 0).Some? <==> name in d
    ensures name in d ==> slots[Lookup(slots, name, seen, 0).value].sector == d[name]
  {
    var r := Lookup(slots, name, seen, 0);
    if name in d {
      var k: nat :| Entry(slots, k, name);
      assert r.Some?;
    }
  }

  /** If no read fails, `dir_add` adds the name unless it is there, is no name for a file, or no
      slot is free.  Whatever fails, it adds that name and no more to the map exactly when the slot
      it takes is free and the name was not there, or is the slot of that name. */
  lemma AddIsMap(slots: seq<Slot>, d: map<string, nat>, name: string, i: nat, m: Memory)
    requires IsMap(slots, d)
    ensures Whole(slots, m) ==> (AddEntry(slots, name, i, m).Some? <==>
      0 < |name| <= NAME_MAX && name !in d && exists k: nat :: k < |slots| && !slots[k].inUse)
    ensures Whole(slots, m) && AddEntry(slots, name, i, m).Some? ==> IsMap(AddEntry(slots, name, i, m).value, d[name := i])
    ensures AddEntry(slots, name, i, m).Some? ==>
      var k := FreeSlot(slots, m.rescan, 0);
      IsMap(AddEntry(slots, name, i, m).value, d[name := i]) <==> if slots[k].inUse then slots[k].name == name else name !in d
  {
    if Whole(slots, m) { LookupIsMap(slots, d, name, m.scan); }
    if AddEntry(slots, name, i, m).Some? { SlotTaken(slots, d, name, i, FreeSlot(slots, m.rescan, 0)); }
  }

  lemma SlotTaken(slots: seq<Slot>, d: map<string, nat>, name: string, i: nat, k: nat)
    requires IsMap(slots, d) && k < |slots|
    ensures IsMap(slots[k := Slot(true, name, i)], d[name := i]) <==> if slots[k].inUse then slots[k].name == name else name !in d
  {
    var slots' := slots[k := Slot(true, name, i)];
    if slots[k].inUse {
      if slots[k].name == name { ReplacedIsMap(slots, d, name, i, k); } else { OverwrittenNoMap(slots, d, name, i, k); }
    } else if name in d {
      var j: nat :| Entry(slots, j, name);
      assert Entry(slots', j, name) && Entry(slots', k, name);
    } else {
      AddedIsMap(slots, d, name, i, k);
    }
  }

  /** A short read of a slot in use loses the entry that is there. */
  lemma OverwrittenNoMap(slots: seq<Slot>, d: map<string, nat>, name: string, i: nat, k: nat)
    requires IsMap(slots, d) && k < |slots| && slots[k].inUse && slots[k].name != name
    ensures !IsMap(slots[k := Slot(true, name, i)], d[name := i])
  {
    var slots', gone := slots[k := Slot(true, name, i)], slots[k].name;
    assert Entry(slots, k, gone);
    forall j: nat
      ensures !Entry(slots', j, gone)
    {
      assert Entry(slots', j, gone) ==> Entry(slots, j, gone);
    }
    assert gone in d[name := i];
  }

  /** With memory for no read in the search for a free slot, an entry `b` replaces the entry `a`. */
  lemma EntryLost(m: Memory)
    requires m.write && m.scan == 1 && m.rescan == 0
    ensures AddEntry([Slot(true, "a", 2)], "b", 3, m) == Some([Slot(true, "b", 3)])
  {
    var slots := [Slot(true, "a", 2)];
    assert "a"[0] != "b"[0];
    assert Lookup(slots, "b", 1, 1).None? && Lookup(slots, "b", 1, 0).None?;
    assert FreeSlot(slots, 0, 0) == 0;
    assert slots[0 := Slot(true, "b", 3)] == [Slot(true, "b", 3)];
  }

  lemma ReplacedIsMap(slots: seq<Slot>, d: map<string, nat>, name: string, i: nat, k: nat)
    requires IsMap(slots, d) && k < |slots| && slots[k].inUse && slots[k].name == name
    ensures IsMap(slots[k := Slot(true, name, i)], d[name := i])
  {
    var slots' := slots[k := Slot(true, name, i)];
    assert Entry(slots, k, name);
    assert forall j: nat, n :: Entry(slots', j, n) <==> Entry(slots, j, n);
    forall j: nat | j < |slots'| && slots'[j].inUse && j != k
      ensures slots'[j].name != name
    {
      assert Entry(slots, j, slots[j].name);
    }
    forall n | n in d
      ensures exists j: nat :: Entry(slots', j, n)
    {
      var j: nat :| Entry(slots, j, n);
      assert Entry(slots', j, n);
    }
  }

  lemma AddedIsMap(slots: seq<Slot>, d: map<string, nat>, name: string, i: nat, k: nat)
    requires IsMap(slots, d) && k < |slots| && !slots[k].inUse && name !in d
    ensures IsMap(slots[k := Slot(true, name, i)], d[name := i])
  {
    var slots', d' := slots[k := Slot(true, name, i)], d[name := i];
    forall n | n in d'
      ensures exists j: nat :: Entry(slots', j, n)
    {
      if n == name {
        assert Entry(slots', k, n);
      } else {
        var j: nat :| Entry(slots, j, n);
        assert Entry(slots', j, n);
      }
    }
    forall j: nat, x: nat, n | Entry(slots', j, n) && Entry(slots', x, n)
      ensures j == x
    {
      assert j == k || Entry(slots, j, n);
      assert x == k || Entry(slots, x, n);
    }
  }

  /** Erasing an entry, as `dir_remove` does, removes its name. */
  lemma EraseIsMap(slots: seq<Slot>, d: map<string, nat>, k: nat)
    requires IsMap(slots, d) && k < |slots| && slots[k].inUse
    ensures IsMap(slots[k := slots[k].(inUse := false)], d - {slots[k].name})
  {
    var slots', d' := slots[k := slots[k].(inUse := false)], d - {slots[k].name};
    assert Entry(slots, k, slots[k].name);
    forall j: nat | j < |slots'| && slots'[j].inUse
      ensures slots'[j].name in d' && d'[slots'[j].name] == slots'[j].sector
    {
      assert Entry(slots, j, slots[j].name);
    }
    forall n | n in d'
      ensures exists j: nat :: Entry(slots', j, n)
    {
      var j: nat :| Entry(slots, j, n);
      assert Entry(slots', j, n);
    }
    forall j: nat, x: nat, n | Entry(slots', j, n) && Entry(slots', x, n)
      ensures j == x
    {
      assert Entry(slots, j, n) && Entry(slots, x, n);
    }
  }

  // ---- dir_readdir

  /** The names of the entries in use from slot `pos` on, in order. */
  function Names(slots: seq<Slot>, pos: nat): seq<string>
    requires pos <= |slots|
    decreases |slots| - pos
  {
    if pos == |slots| then []
    else (if slots[pos].inUse then [slots[pos].name] else []) + Names(slots, pos + 1)
  }

  lemma {:induction false} NamesFrom(slots: seq<Slot>, pos: nat, name: string)
    requires pos <= |slots|
    ensures name in Names(slots, pos) <==> exists k: nat :: k >= pos && Entry(slots, k, name)
    decreases |slots| - pos
  {
    if pos < |slots| {
      NamesFrom(slots, pos + 1, name);
      if slots[pos].inUse && slots[pos].name == name { assert Entry(slots, pos, name); }
    }
  }

  lemma {:induction false} NamesDistinct(slots: seq<Slot>, d: map<string, nat>, pos: nat)
    requires IsMap(slots, d) && pos <= |slots|
    ensures forall i, j :: 0 <= i < j < |Names(slots, pos)| ==> Names(slots, pos)[i] != Names(slots, pos)[j]
    decreases |slots| - pos
  {
    if pos < |slots| {
      NamesDistinct(slots, d, pos + 1);
      if slots[pos].inUse {
        NamesFrom(slots, pos + 1, slots[pos].name);
        assert Entry(slots, pos, slots[pos].name);
      }
    }
  }

  /** Reading a directory from its start to its end gives each of its names once. */
  lemma NamesExact(slots: seq<Slot>, d: map<string, nat>)
    requires IsMap(slots, d)
    ensures forall name :: name in Names(slots, 0) <==> name in d
    ensures forall i, j :: 0 <= i < j < |Names(slots, 0)| ==> Names(slots, 0)[i] != Names(slots, 0)[j]
  {
    NamesDistinct(slots, d, 0);
    forall name
      ensures name in Names(slots, 0) <==> name in d
    {
      NamesFrom(slots, 0, name);
      if k: nat :| Entry(slots, k, name) { assert slots[k].name in d; }
    }
  }

  class Dir {
    var pos: nat

    /** Each call gives the next name, until there are no more. */
    method ReadDir(slots: seq<Slot>) returns (name: Option<string>)
      requires pos <= |slots|
      modifies this
      ensures old(pos) <= pos <= |slots|
      ensures name.Some? ==> Names(slots, old(pos)) == [name.value] + Names(slots, pos)
      ensures name.None? ==> Names(slots, old(pos)) == []
    {
      while pos < |slots|
        invariant old(pos) <= pos <= |slots| && Names(slots, pos) == Names(slots, old(pos))
        decreases |slots| - pos
      {
        var e := slots[pos];
        pos := pos + 1;
        if e.inUse {
          return Some(e.name);
        }
      }
      return None;
    }
  }
}
