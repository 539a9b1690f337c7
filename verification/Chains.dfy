/** Priority inversion over whole runs, with the donation loop of `lock_acquire` preempted anywhere.

    A thread that has begun to donate and is still in its loop excuses the inversions at the lock
    it is heading for.  When nobody is in its loop, no excuse is left. */
module Chains {
  import opened Wrappers
  import Order
  import opened Kernel
  import opened Donation
  import opened Locks
  import opened LockRuns

  /** The lock that a thread has noted, or has gone on to without seeing a holder. */
  function Wanted(th: Thread): Option<Lid> {
    if th.waits.Some? then th.waits else if th.pc.Wanting? then Some(th.pc.lock) else None
  }

  /** Thread `u` wants lock `l`, which somebody holds. */
  ghost predicate Awaits(s: State, u: Tid, l: Lid) {
    u in s.threads && l in s.locks && Wanted(s.threads[u]) == Some(l) && s.locks[l].holder.Some?
  }

  /** The thread that a donation to lock `k` goes to waits for `l`. */
  ghost predicate LeadsTo(s: State, k: Lid, l: Lid) {
    && k in s.locks && s.locks[k].holder.Some? && s.locks[k].holder.value in s.threads
    && s.threads[s.locks[k].holder.value].waits == Some(l)
  }

  /** Thread `d` is in its loop, and the next lock that it will look at or store into is `l`. */
  ghost predicate Heads(s: State, d: Tid, l: Lid) {
    && d in s.threads && InLoop(s.threads[d].pc)
    && if s.threads[d].pc.Testing? || s.threads[d].pc.Writing? then s.threads[d].pc.at == l else LeadsTo(s, s.threads[d].pc.at, l)
  }

  /** A thread of priority `p` or more heads for lock `l`. */
  ghost predicate Pursued(s: State, p: int, l: Lid) {
    exists d: Tid :: Heads(s, d, l) && s.threads[d].priority >= p
  }

  /** Every thread that outranks the lock it awaits has a donor of its rank on the way there. */
  ghost predicate Tended(s: State) {
    forall u, l :: Awaits(s, u, l) ==> s.threads[u].priority <= s.locks[l].maxPriority || Pursued(s, s.threads[u].priority, l)
  }

  ghost predicate Outranked(s: State, h: Tid, l: Lid) {
    && h in s.threads && l in s.threads[h].held && l in s.locks
    && s.locks[l].maxPriority > s.threads[h].priority
  }

  ghost predicate Backs(s: State, e: Tid, l: Lid, p: int) {
    e in s.threads && Gives(s.threads[e].pc, l) && s.threads[e].priority >= p
  }

  /** Every lock that outranks its holder has a donor of its rank about to give to the holder. */
  ghost predicate Backed(s: State) {
    forall h, l :: Outranked(s, h, l) ==> exists e :: Backs(s, e, l, s.locks[l].maxPriority)
  }

  ghost predicate Sound(s: State) { Tended(s) && Backed(s) }

  // ---- steps that disturb nothing

  /** No wait begins, no donor turns away, and no lock outranks its holder anew. */
  ghost predicate Undisturbed(s: State, s': State) {
    && (forall u, l :: Awaits(s', u, l) ==>
      Awaits(s, u, l) && s'.threads[u].priority == s.threads[u].priority && s'.locks[l].maxPriority == s.locks[l].maxPriority)
    && (forall d, l :: Heads(s, d, l) ==> Heads(s', d, l) && s'.threads[d].priority == s.threads[d].priority)
    && (forall h, l :: Outranked(s', h, l) ==> Outranked(s, h, l) && s'.locks[l].maxPriority == s.locks[l].maxPriority)
    && (forall e, l, p :: Backs(s, e, l, p) ==> Backs(s', e, l, p))
  }

  lemma PursuedAgain(s: State, s': State, p: int, l: Lid)
    requires forall d :: Heads(s, d, l) ==> Heads(s', d, l) && s'.threads[d].priority == s.threads[d].priority
    ensures Pursued(s, p, l) ==> Pursued(s', p, l)
  {
    if Pursued(s, p, l) {
      var d: Tid :| Heads(s, d, l) && s.threads[d].priority >= p;
      assert Heads(s', d, l);
    }
  }

  lemma SoundFrame(s: State, s': State)
    requires Sound(s) && Undisturbed(s, s')
    ensures Sound(s')
  {
    forall u, l | Awaits(s', u, l)
      ensures s'.threads[u].priority <= s'.locks[l].maxPriority || Pursued(s', s'.threads[u].priority, l)
    {
      PursuedAgain(s, s', s.threads[u].priority, l);
    }
    forall h, l | Outranked(s', h, l)
      ensures exists e :: Backs(s', e, l, s'.locks[l].maxPriority)
    {
      var e :| Backs(s, e, l, s.locks[l].maxPriority);
      assert Backs(s', e, l, s.locks[l].maxPriority);
    }
  }

  /** Threads in their loops stay where they are, and so do the locks and threads ahead of them;
      nobody else gets a lock to wait for, and priorities cover what they covered. */
  ghost predicate Steady(s: State, s': State) {
    && (forall d :: d in s.threads && InLoop(s.threads[d].pc) ==>
      d in s'.threads && s'.threads[d].pc == s.threads[d].pc && s'.threads[d].priority == s.threads[d].priority)
    && (forall k, l :: LeadsTo(s, k, l) ==> LeadsTo(s', k, l))
    && (forall u :: u in s'.threads && Wanted(s'.threads[u]).Some? ==>
      u in s.threads && Wanted(s.threads[u]) == Wanted(s'.threads[u]) && s'.threads[u].priority == s.threads[u].priority)
    && (forall l :: l in s'.locks ==>
      l in s.locks && s'.locks[l].maxPriority == s.locks[l].maxPriority && (s'.locks[l].holder.Some? ==> s.locks[l].holder.Some?))
    && (forall h, l :: Outranked(s', h, l) ==> Outranked(s, h, l))
  }

  lemma SteadyFrame(s: State, s': State)
    requires Sound(s) && Steady(s, s')
    ensures Sound(s')
  {
    forall d, l | Heads(s, d, l)
      ensures Heads(s', d, l) && s'.threads[d].priority == s.threads[d].priority
    {
    }
    SoundFrame(s, s');
  }

  lemma StatusSound(s: State, s': State)
    requires Sound(s) && StatusOnly(s, s')
    ensures Sound(s')
  {
    StatusSteady(s, s');
    SteadyFrame(s, s');
  }

  lemma StatusSteady(s: State, s': State)
    requires StatusOnly(s, s')
    ensures Steady(s, s')
  {
  }

  lemma YieldSound(s: State)
    requires ReadyInv(s) && Sound(s)
    ensures Sound(Yield(s))
  {
    YieldStatusOnly(s);
    StatusSound(s, Yield(s));
  }

  lemma StoppedSteady(s: State)
    requires s.current in s.threads
    ensures Steady(s, Stopped(s))
  {
  }

  lemma BlockSound(s: State)
    requires ReadyInv(s) && Sound(s)
    ensures s.ready != [] ==> s.ready[0] in s.threads
    ensures Sound(Block(s))
  {
    BlockStatusOnly(s);
    StoppedSteady(s);
    SteadyFrame(s, Stopped(s));
    StatusSound(Stopped(s), Block(s));
  }

  /** Only the running thread changes; it is in no loop and awaits nothing new, and its priority
      covers what it covered. */
  lemma RunnerSteady(s: State, s': State)
    requires s.current in s.threads && s.current in s'.threads
    requires s'.threads == s.threads[s.current := s'.threads[s.current]] && s'.locks.Keys == s.locks.Keys
    requires forall l :: l in s.locks ==> HolderKept(s, s', l)
    requires !InLoop(Cur(s).pc) && s'.threads[s.current].waits == Cur(s).waits
    requires Cur(s).waits.Some? ==> s'.threads[s.current].priority == Cur(s).priority
    requires s'.threads[s.current].pc.Wanting? ==> s'.threads[s.current] == Cur(s)
    requires forall l :: Outranked(s', s.current, l) ==> Outranked(s, s.current, l)
    ensures Steady(s, s')
  {
    assert forall h, l :: Outranked(s', h, l) && h != s.current ==> Outranked(s, h, l);
  }

  /** A lock keeps its priority and its holder, unless the running thread gives it up. */
  ghost predicate HolderKept(s: State, s': State, l: Lid)
    requires l in s.locks && l in s'.locks && s.current in s.threads
  {
    && s'.locks[l].maxPriority == s.locks[l].maxPriority
    && (s'.locks[l].holder != s.locks[l].holder ==>
      s.locks[l].holder == Some(s.current) && s'.locks[l].holder == None && Cur(s).waits == None)
  }

  lemma OutsiderSound(s: State, s': State, t: Tid)
    requires Sound(s) && Outsider(s, s', t) && (t in s.threads ==> s.threads[t].waits == None)
    requires t in s.threads && s'.threads[t].priority < s.threads[t].priority ==> s.threads[t].held == []
    ensures Sound(s')
  {
    assert forall h, l :: Outranked(s', h, l) ==> Outranked(s, h, l);
    SteadyFrame(s, s');
  }

  // ---- the steps, one by one

  lemma LookSound(s: State, l: Lid)
    requires Sound(s) && Enabled(s, Look(l)) && Cur(s).waits == None
    ensures Sound(LookState(s, l))
  {
    var s' := LookState(s, l);
    assert forall u, k :: Awaits(s', u, k) ==> Awaits(s, u, k);
    assert forall d, k :: Heads(s, d, k) ==> Heads(s', d, k);
    SoundFrame(s, s');
  }

  /** The new waiter tends to its own lock. */
  lemma NoteSound(s: State)
    requires Sound(s) && Enabled(s, Note) && Cur(s).waits == None
    ensures Sound(NoteState(s))
  {
    var s', l := NoteState(s), Cur(s).pc.lock;
    assert forall d, k :: Heads(s, d, k) ==> Heads(s', d, k);
    assert Heads(s', s.current, l);
    forall u, k | Awaits(s', u, k)
      ensures s'.threads[u].priority <= s'.locks[k].maxPriority || Pursued(s', s'.threads[u].priority, k)
    {
      if u != s.current {
        assert Awaits(s, u, k);
        PursuedAgain(s, s', s.threads[u].priority, k);
      }
    }
    BackedAgain(s, s');
  }

  lemma BackedAgain(s: State, s': State)
    requires Backed(s)
    requires forall h, l :: Outranked(s', h, l) ==> Outranked(s, h, l) && s'.locks[l].maxPriority == s.locks[l].maxPriority
    requires forall e, l, p :: Backs(s, e, l, p) ==> Backs(s', e, l, p)
    ensures Backed(s')
  {
    forall h, l | Outranked(s', h, l)
      ensures exists e :: Backs(s', e, l, s'.locks[l].maxPriority)
    {
      var e :| Backs(s, e, l, s.locks[l].maxPriority);
      assert Backs(s', e, l, s.locks[l].maxPriority);
    }
  }

  /** A donor that leaves the loop leaves no inversion at the lock it has tested. */
  lemma TestSound(s: State)
    requires Sound(s) && Enabled(s, Test) && Cur(s).waits == Some(Cur(s).pc.lock)
    ensures Sound(TestState(s))
  {
    var s', at := TestState(s), Cur(s).pc.at;
    assert forall k, l :: LeadsTo(s, k, l) <==> LeadsTo(s', k, l);
    assert forall d, k :: Heads(s, d, k) && d != s.current ==> Heads(s', d, k);
    assert forall k :: Heads(s, s.current, k) ==> k == at;
    forall u, k | Awaits(s', u, k)
      ensures s'.threads[u].priority <= s'.locks[k].maxPriority || Pursued(s', s'.threads[u].priority, k)
    {
      assert Awaits(s, u, k);
      if Pursued(s, s.threads[u].priority, k) {
        var d: Tid :| Heads(s, d, k) && s.threads[d].priority >= s.threads[u].priority;
        assert d != s.current || Cur(s).priority > s.locks[at].maxPriority ==> Heads(s', d, k);
      }
    }
    BackedAgain(s, s');
  }

  lemma FollowSound(s: State, h: Tid)
    requires Sound(s) && Enabled(s, Follow) && s.locks[Cur(s).pc.at].holder == Some(h) && h in s.threads
    requires Cur(s).waits == Some(Cur(s).pc.lock)
    ensures Sound(FollowState(s, h))
  {
    var s' := FollowState(s, h);
    assert forall k, l :: LeadsTo(s, k, l) <==> LeadsTo(s', k, l);
    assert forall d, k :: Heads(s, d, k) ==> Heads(s', d, k);
    assert forall u, k :: Awaits(s', u, k) ==> Awaits(s, u, k);
    SoundFrame(s, s');
  }

  // ---- storing a priority

  /** Nobody who awaits the lock that is about to be written outranks the writer, except where
      another donor of that rank heads for the lock. */
  ghost predicate WritesHighest(s: State)
    requires Enabled(s, Write)
  {
    forall u :: Awaits(s, u, Cur(s).pc.at) ==>
      s.threads[u].priority <= Cur(s).priority || PursuedByOther(s, s.threads[u].priority, Cur(s).pc.at)
  }

  ghost predicate PursuedByOther(s: State, p: int, l: Lid) {
    exists d: Tid :: d != s.current && Heads(s, d, l) && s.threads[d].priority >= p
  }

  lemma WriteHeads(s: State)
    requires Enabled(s, Write)
    ensures forall d, l :: d != s.current ==> (Heads(WriteState(s), d, l) <==> Heads(s, d, l))
    ensures forall l :: Heads(s, s.current, l) ==> l == Cur(s).pc.at
    ensures forall u, l :: Awaits(s, u, l) && Cur(s).waits == Some(Cur(s).pc.lock) ==> Awaits(WriteState(s), u, l)
  {
    var s' := WriteState(s);
    assert forall k, l :: LeadsTo(s, k, l) <==> LeadsTo(s', k, l);
  }

  lemma WriteBacked(s: State)
    requires Backed(s) && Enabled(s, Write)
    ensures Backed(WriteState(s))
  {
    var s', at := WriteState(s), Cur(s).pc.at;
    assert Backs(s', s.current, at, Cur(s).priority);
    forall h, l | Outranked(s', h, l)
      ensures exists e :: Backs(s', e, l, s'.locks[l].maxPriority)
    {
      if l != at {
        assert Outranked(s, h, l);
        var e :| Backs(s, e, l, s.locks[l].maxPriority);
        assert Backs(s', e, l, s.locks[l].maxPriority);
      }
    }
  }

  lemma WriteTended(s: State, u: Tid, l: Lid)
    requires Tended(s) && Enabled(s, Write) && WritesHighest(s) && Cur(s).waits == Some(Cur(s).pc.lock)
    requires Awaits(WriteState(s), u, l)
    ensures var s' := WriteState(s);
      s'.threads[u].priority <= s'.locks[l].maxPriority || Pursued(s', s'.threads[u].priority, l)
  {
    var s', at, p := WriteState(s), Cur(s).pc.at, s.threads[u].priority;
    WriteHeads(s);
    assert Awaits(s, u, l);
    if l == at {
      if p > Cur(s).priority {
        var d: Tid :| d != s.current && Heads(s, d, l) && s.threads[d].priority >= p;
        assert Heads(s', d, l);
      }
    } else if p > s.locks[l].maxPriority {
      var d: Tid :| Heads(s, d, l) && s.threads[d].priority >= p;
      assert Heads(s', d, l);
    }
  }

  /** Storing a priority leaves every waiter that outranks its lock with a donor of its rank on the
      way, and every lock that outranks its holder with one about to give, exactly when every waiter
      that outranks the writer has another donor of its rank on the way: the test that came before
      may be out of date. */
  lemma WriteExact(s: State)
    requires Sound(s) && Enabled(s, Write) && Cur(s).waits == Some(Cur(s).pc.lock)
    ensures Sound(WriteState(s)) <==> WritesHighest(s)
  {
    var s', at := WriteState(s), Cur(s).pc.at;
    WriteBacked(s);
    if WritesHighest(s) {
      forall u, l | Awaits(s', u, l)
        ensures s'.threads[u].priority <= s'.locks[l].maxPriority || Pursued(s', s'.threads[u].priority, l)
      {
        WriteTended(s, u, l);
      }
    }
    if Sound(s') {
      WriteHeads(s);
      forall u | Awaits(s, u, at) && s.threads[u].priority > Cur(s).priority
        ensures PursuedByOther(s, s.threads[u].priority, at)
      {
        assert Awaits(s', u, at);
        var d: Tid :| Heads(s', d, at) && s'.threads[d].priority >= s'.threads[u].priority;
        assert d != s.current;
      }
    }
  }

  // ---- taking a lock

  /** Thread `d` heads for lock `l`, and not by way of a lock that the running thread holds. */
  ghost predicate HeadsPast(s: State, d: Tid, l: Lid) {
    && Heads(s, d, l)
    && (s.threads[d].pc.Giving? || s.threads[d].pc.Following? ==>
      s.threads[d].pc.at in s.locks && s.locks[s.threads[d].pc.at].holder != Some(s.current))
  }

  ghost predicate PursuedPast(s: State, p: int, l: Lid) {
    exists d: Tid :: HeadsPast(s, d, l) && s.threads[d].priority >= p
  }

  /** The taker of a freed lock outranks every other thread that wants the lock, except where a
      donor of that rank heads for it. */
  ghost predicate TopContender(s: State)
    requires Enabled(s, Take)
  {
    forall u :: u in s.threads && u != s.current && Wanted(s.threads[u]) == Some(Cur(s).pc.lock) ==>
      s.threads[u].priority <= Cur(s).priority || PursuedPast(s, s.threads[u].priority, Cur(s).pc.lock)
  }

  lemma TakeHeads(s: State, d: Tid, l: Lid)
    requires Enabled(s, Take) && s.locks[Cur(s).pc.lock].holder == None
    ensures Heads(TakeState(s), d, l) <==> HeadsPast(s, d, l)
  {
  }

  lemma TakeBacked(s: State)
    requires Backed(s) && Enabled(s, Take)
    requires forall t :: t in s.threads ==> Cur(s).pc.lock !in s.threads[t].held
    requires forall k :: k in TakeState(s).threads[s.current].held <==> k in Cur(s).held || k == Cur(s).pc.lock
    ensures Backed(TakeState(s))
  {
    var s' := TakeState(s);
    assert forall h, l :: Outranked(s', h, l) ==> Outranked(s, h, l);
    BackedAgain(s, s');
  }

  lemma TakeTended(s: State, u: Tid, l: Lid)
    requires Tended(s) && Enabled(s, Take) && TopContender(s) && s.locks[Cur(s).pc.lock].holder == None
    requires Cur(s).waits.Some? ==> Cur(s).waits.value == Cur(s).pc.lock
    requires Awaits(TakeState(s), u, l)
    ensures var s' := TakeState(s);
      s'.threads[u].priority <= s'.locks[l].maxPriority || Pursued(s', s'.threads[u].priority, l)
  {
    var s', p := TakeState(s), s.threads[u].priority;
    assert u != s.current;
    if l == Cur(s).pc.lock {
      if p > Cur(s).priority {
        var d: Tid :| HeadsPast(s, d, l) && s.threads[d].priority >= p;
        TakeHeads(s, d, l);
      }
    } else {
      assert Awaits(s, u, l);
      if p > s.locks[l].maxPriority {
        var d: Tid :| Heads(s, d, l) && s.threads[d].priority >= p;
        TakeHeads(s, d, l);
      }
    }
  }

  /** The lock that is being taken is on nobody's list, and the taker has noted no other. */
  ghost predicate TakesFree(s: State) {
    && Enabled(s, Take) && s.locks[Cur(s).pc.lock].holder == None
    && (Cur(s).waits.Some? ==> Cur(s).waits.value == Cur(s).pc.lock)
    && (forall t :: t in s.threads ==> Cur(s).pc.lock !in s.threads[t].held)
    && (forall k :: k in TakeState(s).threads[s.current].held <==> k in Cur(s).held || k == Cur(s).pc.lock)
  }

  lemma NobodyHolds(s: State, l: Lid)
    requires ThreadInv(s) && OwnerInv(s) && HolderHolds(s)
    requires s.current in s.threads && l in s.locks && Cur(s).pc == Won(l)
    ensures s.locks[l].holder == None && forall t :: t in s.threads ==> l !in s.threads[t].held
  {
    assert ThreadOk(Cur(s), s.locks, s.current == s.idle);
    assert Owns(s, s.current, l);
    forall t
      ensures !Holds(s, t, l) && (t in s.threads ==> l !in s.threads[t].held)
    {
      if Holds(s, t, l) { assert Owns(s, t, l); }
    }
  }

  lemma TakeIsFree(s: State)
    requires ThreadInv(s) && OwnerInv(s) && HolderHolds(s) && Enabled(s, Take)
    ensures TakesFree(s)
  {
    NobodyHolds(s, Cur(s).pc.lock);
    assert ThreadOk(Cur(s), s.locks, s.current == s.idle);
    Order.InsertedMembers(Cur(s).held, Cur(s).pc.lock, TakeRank(s));
  }

  lemma TakeNeeds(s: State, u: Tid)
    requires TakesFree(s) && Sound(TakeState(s))
    requires u in s.threads && u != s.current && Wanted(s.threads[u]) == Some(Cur(s).pc.lock)
    ensures s.threads[u].priority <= Cur(s).priority || PursuedPast(s, s.threads[u].priority, Cur(s).pc.lock)
  {
    var s', l := TakeState(s), Cur(s).pc.lock;
    assert Awaits(s', u, l);
    if s.threads[u].priority > Cur(s).priority {
      var d: Tid :| Heads(s', d, l) && s'.threads[d].priority >= s'.threads[u].priority;
      TakeHeads(s, d, l);
    }
  }

  /** Taking a lock leaves every waiter that outranks its lock with a donor of its rank on the way, and
      every lock that outranks its holder with one about to give, exactly when everybody who wants the
      lock and outranks the taker has a donor of its rank on the way. */
  lemma TakeExact(s: State)
    requires TakesFree(s) && Sound(s)
    ensures Sound(TakeState(s)) <==> TopContender(s)
  {
    var s' := TakeState(s);
    TakeBacked(s);
    if TopContender(s) {
      forall u, k | Awaits(s', u, k)
        ensures s'.threads[u].priority <= s'.locks[k].maxPriority || Pursued(s', s'.threads[u].priority, k)
      {
        TakeTended(s, u, k);
      }
    }
    if Sound(s') {
      forall u | u in s.threads && u != s.current && Wanted(s.threads[u]) == Some(Cur(s).pc.lock)
        ensures s.threads[u].priority <= Cur(s).priority || PursuedPast(s, s.threads[u].priority, Cur(s).pc.lock)
      {
        TakeNeeds(s, u);
      }
    }
  }

  // ---- giving

  /** The priority that a donation to `h` leaves it with. */
  function Gift(s: State, h: Tid): int
    requires h in s.threads
  {
    Updated(s.threads[h], s.locks).priority
  }

  ghost predicate PursuedBesides(s: State, h: Tid, p: int, l: Lid) {
    exists d: Tid :: d != h && Heads(s, d, l) && s.threads[d].priority >= p
  }

  /** The donation of `q` to `h`, itself a donor, does not lower it below a waiter that counts on it.
      A donation lowers a thread that has lowered its base priority in `thread_set_priority` while
      it held a lock, since it keeps its old priority until then. */
  ghost predicate SparesWaiters(s: State, h: Tid, q: int)
    requires h in s.threads
  {
    forall u, l :: Heads(s, h, l) && Awaits(s, u, l) && u != h && s.threads[u].priority > s.locks[l].maxPriority ==>
      q >= s.threads[u].priority || PursuedBesides(s, h, s.threads[u].priority, l)
  }

  /** Nor does it lower `h` below a lock that counts on it. */
  ghost predicate SparesLocks(s: State, h: Tid, q: int)
    requires h in s.threads
  {
    forall x, l :: Gives(s.threads[h].pc, l) && Outranked(s, x, l) && x != h ==>
      q >= s.locks[l].maxPriority || exists e :: e != h && Backs(s, e, l, s.locks[l].maxPriority)
  }

  /** The donation of `q` does not lift `h` above a lock that it awaits without having noted it,
      since the loop goes no further there, except where another donor heads for that lock. */
  ghost predicate GivesToNoted(s: State, h: Tid, q: int)
    requires h in s.threads
  {
    s.threads[h].waits == None && s.threads[h].pc.Wanting? && Awaits(s, h, s.threads[h].pc.lock) ==>
      q <= s.locks[s.threads[h].pc.lock].maxPriority || Pursued(s, q, s.threads[h].pc.lock)
  }

  /** What the step of giving does: the holder `h` gets `q`, and the donor goes on. */
  ghost predicate Gave(s: State, h: Tid, q: int, s': State) {
    && Enabled(s, Give) && h in s.threads && s.locks[Cur(s).pc.at].holder == Some(h)
    && s'.locks == s.locks && s'.threads.Keys == s.threads.Keys
    && s'.threads[h].priority == q
    && (forall t :: t in s.threads && t != h ==> s'.threads[t].priority == s.threads[t].priority)
    && (forall t :: t in s.threads ==>
      && s'.threads[t].waits == s.threads[t].waits
      && s'.threads[t].pc == (if t == s.current then Following(Cur(s).pc.lock, Cur(s).pc.at) else s.threads[t].pc)
      && (forall l :: l in s'.threads[t].held <==> l in s.threads[t].held))
    && IsEffective(q, s.threads[h], s.locks)
  }

  lemma GiveGave(s: State, h: Tid)
    requires Enabled(s, Give) && h in s.threads && s.locks[Cur(s).pc.at].holder == Some(h)
    ensures Gave(s, h, Gift(s, h), GiveState(s, h))
  {
    GiveGives(s, h);
    GivenGave(s, h, DonateTo(s, h));
  }

  lemma GivenGave(s: State, h: Tid, s1: State)
    requires Enabled(s, Give) && h in s.threads && s.locks[Cur(s).pc.at].holder == Some(h) && Given(s, h, s1)
    ensures Gave(s, h, s1.threads[h].priority, Walked(s1, Following(Cur(s).pc.lock, Cur(s).pc.at), Cur(s).waits))
  {
  }

  lemma GaveHeads(s: State, h: Tid, q: int, s': State)
    requires Gave(s, h, q, s')
    ensures forall d, l :: Heads(s', d, l) <==> Heads(s, d, l)
    ensures Cur(s).waits.Some? ==> forall u, l :: Awaits(s', u, l) <==> Awaits(s, u, l)
  {
    assert forall k, l :: LeadsTo(s', k, l) <==> LeadsTo(s, k, l);
  }

  lemma GavePursued(s: State, h: Tid, q: int, s': State, p: int, l: Lid)
    requires Gave(s, h, q, s') && Pursued(s, p, l)
    requires Heads(s, h, l) ==> q >= p || PursuedBesides(s, h, p, l)
    ensures Pursued(s', p, l)
  {
    GaveHeads(s, h, q, s');
    var d: Tid :| Heads(s, d, l) && s.threads[d].priority >= p;
    assert Heads(s', d, l);
    if d == h && q < p {
      var e: Tid :| e != h && Heads(s, e, l) && s.threads[e].priority >= p;
      assert Heads(s', e, l);
    }
  }

  lemma GaveBacked(s: State, h: Tid, q: int, s': State)
    requires Backed(s) && HolderHolds(s) && Gave(s, h, q, s') && SparesLocks(s, h, q)
    ensures Backed(s')
  {
    forall x, l | Outranked(s', x, l)
      ensures exists e :: Backs(s', e, l, s'.locks[l].maxPriority)
    {
      assert LockRank(s.locks)(l) == s.locks[l].maxPriority;
      assert Holds(s, x, l) && x != h;
      assert Outranked(s, x, l);
      var e :| Backs(s, e, l, s.locks[l].maxPriority);
      if e == h && q < s.locks[l].maxPriority {
        var e' :| e' != h && Backs(s, e', l, s.locks[l].maxPriority);
        assert Backs(s', e', l, s.locks[l].maxPriority);
      } else {
        assert Backs(s', e, l, s.locks[l].maxPriority);
      }
    }
  }

  /** A thread that is lifted above the lock it has noted is followed there by the donor whose
      gift lifted it. */
  lemma LiftedPursued(s: State, h: Tid, q: int, s': State, l: Lid)
    requires Backed(s) && HolderHolds(s) && Gave(s, h, q, s')
    requires s.threads[h].waits == Some(l) && q > s.threads[h].priority >= s.threads[h].base
    requires forall k :: k in s.threads[h].held ==> k in s.locks
    ensures Pursued(s', q, l)
  {
    var m :| m in s.threads[h].held && q == LockRank(s.locks)(m);
    assert Outranked(s, h, m) && Holds(s, h, m);
    var e :| Backs(s, e, m, s.locks[m].maxPriority);
    assert LeadsTo(s', m, l);
    assert Heads(s', e, l);
  }

  lemma GaveTended(s: State, h: Tid, q: int, s': State, u: Tid, l: Lid)
    requires Sound(s) && HolderHolds(s) && Gave(s, h, q, s') && SparesWaiters(s, h, q)
    requires s.threads[h].priority >= s.threads[h].base && forall k :: k in s.threads[h].held ==> k in s.locks
    requires Awaits(s, u, l)
    requires u == h && s.threads[h].waits == None ==> q <= s.locks[l].maxPriority || Pursued(s, q, l)
    ensures s'.threads[u].priority <= s.locks[l].maxPriority || Pursued(s', s'.threads[u].priority, l)
  {
    if u != h {
      if s.threads[u].priority > s.locks[l].maxPriority { GavePursued(s, h, q, s', s.threads[u].priority, l); }
    } else if q > s.threads[h].priority && s.threads[h].waits.Some? {
      LiftedPursued(s, h, q, s', l);
    } else if q > s.locks[l].maxPriority {
      GavePursued(s, h, q, s', q, l);
    }
  }

  lemma GiveNeeds(s: State, h: Tid, q: int, s': State, l: Lid)
    requires Gave(s, h, q, s') && Tended(s') && Cur(s).waits.Some?
    requires s.threads[h].waits == None && s.threads[h].pc.Wanting? && Awaits(s, h, l)
    ensures q <= s.locks[l].maxPriority || Pursued(s, q, l)
  {
    GaveHeads(s, h, q, s');
    assert Awaits(s', h, l);
    if q > s.locks[l].maxPriority {
      var d: Tid :| Heads(s', d, l) && s'.threads[d].priority >= q;
      assert Heads(s, d, l) && d != h;
    }
  }

  lemma WaitersNeed(s: State, h: Tid, q: int, s': State)
    requires Gave(s, h, q, s') && Tended(s') && Cur(s).waits.Some?
    ensures SparesWaiters(s, h, q)
  {
    GaveHeads(s, h, q, s');
    forall u, l | Heads(s, h, l) && Awaits(s, u, l) && u != h && s.threads[u].priority > s.locks[l].maxPriority
      ensures q >= s.threads[u].priority || PursuedBesides(s, h, s.threads[u].priority, l)
    {
      assert Awaits(s', u, l);
      var d: Tid :| Heads(s', d, l) && s'.threads[d].priority >= s'.threads[u].priority;
      assert Heads(s, d, l);
    }
  }

  lemma LocksNeed(s: State, h: Tid, q: int, s': State)
    requires Gave(s, h, q, s') && Backed(s')
    ensures SparesLocks(s, h, q)
  {
    forall x, l | Gives(s.threads[h].pc, l) && Outranked(s, x, l) && x != h
      ensures q >= s.locks[l].maxPriority || exists e :: e != h && Backs(s, e, l, s.locks[l].maxPriority)
    {
      assert Outranked(s', x, l);
      var e :| Backs(s', e, l, s.locks[l].maxPriority);
      assert e == h || Backs(s, e, l, s.locks[l].maxPriority);
    }
  }

  /** Every waiter has a donor of its rank on the way after the donation exactly when it neither
      lifts a thread above a lock that the loop cannot follow it to, nor lowers the only donor of
      its rank on the way to another. */
  lemma GaveTendedExact(s: State, h: Tid, q: int, s': State)
    requires Sound(s) && HolderHolds(s) && Gave(s, h, q, s')
    requires s.threads[h].priority >= s.threads[h].base && forall k :: k in s.threads[h].held ==> k in s.locks
    requires Cur(s).waits.Some?
    ensures Tended(s') <==> GivesToNoted(s, h, q) && SparesWaiters(s, h, q)
  {
    GaveHeads(s, h, q, s');
    if Tended(s') {
      WaitersNeed(s, h, q, s');
      if s.threads[h].waits == None && s.threads[h].pc.Wanting? && Awaits(s, h, s.threads[h].pc.lock) {
        GiveNeeds(s, h, q, s', s.threads[h].pc.lock);
      }
    }
    if GivesToNoted(s, h, q) && SparesWaiters(s, h, q) {
      forall u, l | Awaits(s', u, l)
        ensures s'.threads[u].priority <= s'.locks[l].maxPriority || Pursued(s', s'.threads[u].priority, l)
      {
        GaveTended(s, h, q, s', u, l);
      }
    }
  }

  /** Every lock that outranks its holder has a donor of its rank about to give after the donation
      exactly when that lowers no other such donor. */
  lemma GaveBackedExact(s: State, h: Tid, q: int, s': State)
    requires Backed(s) && HolderHolds(s) && Gave(s, h, q, s')
    ensures Backed(s') <==> SparesLocks(s, h, q)
  {
    if Backed(s') { LocksNeed(s, h, q, s'); }
    if SparesLocks(s, h, q) { GaveBacked(s, h, q, s'); }
  }

  /** Both together. */
  lemma GaveExact(s: State, h: Tid, q: int, s': State)
    requires Sound(s) && HolderHolds(s) && Gave(s, h, q, s')
    requires s.threads[h].priority >= s.threads[h].base && forall k :: k in s.threads[h].held ==> k in s.locks
    requires Cur(s).waits.Some?
    ensures Sound(s') <==> GivesToNoted(s, h, q) && SparesWaiters(s, h, q) && SparesLocks(s, h, q)
  {
    hide Tended, Backed, Gave, GivesToNoted, SparesWaiters, SparesLocks;
    GaveTendedExact(s, h, q, s');
    GaveBackedExact(s, h, q, s');
  }

  // ---- every step

  lemma WalkSound(s: State, a: Action, s': State)
    requires a.Look? || a.Note? || a.Test? || a.Follow?
    requires Inv(s) && Sound(s) && Enabled(s, a) && Apply(s, a) == Done(s')
    ensures Sound(s')
  {
    assert ThreadOk(Cur(s), s.locks, s.current == s.idle);
    match a
    case Look(l) => LookSound(s, l);
    case Note => NoteSound(s);
    case Test => TestSound(s);
    case Follow => CoreRefs(s); FollowSound(s, s.locks[Cur(s).pc.at].holder.value);
  }

  lemma QueueSound(s: State)
    requires ReadyInv(s) && Sound(s) && Enabled(s, Queue)
    ensures Sound(AfterQueue(s))
  {
    ReadyFrame(s, QueueState(s));
    assert Steady(s, QueueState(s));
    SteadyFrame(s, QueueState(s));
    BlockSound(QueueState(s));
  }

  lemma PassSound(s: State)
    requires Sound(s) && Enabled(s, Pass)
    ensures Sound(PassState(s))
  {
    RunnerSteady(s, PassState(s));
    SteadyFrame(s, PassState(s));
  }

  lemma DropSound(s: State, l: Lid)
    requires Sound(s) && Enabled(s, Drop(l)) && Cur(s).waits == None
    ensures Sound(DropState(s, l))
  {
    var th := Cur(s).(held := Order.Without(Cur(s).held, l), pc := Dropping(l));
    UpdatedIsEffective(th, s.locks);
    DropSteady(s, l, Updated(th, s.locks));
    SteadyFrame(s, DropState(s, l));
  }

  lemma DropSteady(s: State, l: Lid, th: Thread)
    requires s.current in s.threads && Cur(s).pc == Outside && Cur(s).waits == None == th.waits && th.pc == Dropping(l)
    requires forall k :: k in th.held ==> th.priority >= LockRank(s.locks)(k)
    ensures Steady(s, SetCur(s, th))
  {
    assert forall k :: k in s.locks ==> LockRank(s.locks)(k) == s.locks[k].maxPriority;
    assert forall k :: k in s.locks ==> HolderKept(s, SetCur(s, th), k);
    RunnerSteady(s, SetCur(s, th));
  }

  lemma ClearSound(s: State)
    requires Sound(s) && Enabled(s, Clear) && Cur(s).waits == None
    requires s.locks[Cur(s).pc.lock].holder == Some(s.current)
    ensures Sound(ClearState(s))
  {
    RunnerSteady(s, ClearState(s));
    SteadyFrame(s, ClearState(s));
  }

  /** Only who is awake has changed, and the running thread has come out of the lock routines. */
  ghost predicate SameWants(s: State, s': State) {
    && s.current in s.threads && s'.threads.Keys == s.threads.Keys && s'.locks.Keys == s.locks.Keys
    && (forall l :: l in s.locks ==> s'.locks[l].holder == s.locks[l].holder && s'.locks[l].maxPriority == s.locks[l].maxPriority)
    && (forall t :: t in s.threads ==>
      && s'.threads[t].waits == s.threads[t].waits && s'.threads[t].priority == s.threads[t].priority
      && s'.threads[t].held == s.threads[t].held && (t != s.current ==> s'.threads[t].pc == s.threads[t].pc))
    && s'.threads[s.current].pc == Outside
  }

  lemma WokenWants(s: State, s': State, l: Lid, w: Option<Tid>)
    requires Woken(s, s', l, w)
    ensures SameWants(s, s')
  {
  }

  lemma WantsSteady(s: State, s': State)
    requires SameWants(s, s') && Cur(s).pc.Cleared? && Cur(s).waits == None
    ensures Steady(s, s')
  {
    assert forall k, m :: LeadsTo(s, k, m) ==> LeadsTo(s', k, m);
    assert forall h, k :: Outranked(s', h, k) ==> Outranked(s, h, k);
  }

  lemma WokenSteady(s: State, s': State, l: Lid, w: Option<Tid>)
    requires Woken(s, s', l, w) && Cur(s).pc == Cleared(l) && Cur(s).waits == None
    ensures Steady(s, s')
  {
    hide Woken, Steady;
    WokenWants(s, s', l, w);
    WantsSteady(s, s');
  }

  lemma UpSound(s: State)
    requires Inv(s) && Sound(s) && Enabled(s, Up) && Cur(s).waits == None
    ensures Sound(AfterUp(s))
  {
    UpKeeps(s);
    var w := UpWakes(s);
    WokenSteady(s, UpState(s), Cur(s).pc.lock, w);
    SteadyFrame(s, UpState(s));
    YieldSound(UpState(s));
  }

  lemma NothingNoted(s: State)
    requires ThreadInv(s) && s.current in s.threads
    requires !InLoop(Cur(s).pc) && !Cur(s).pc.Wanting? && !Cur(s).pc.Won?
    ensures Cur(s).waits == None
  {
    assert ThreadOk(Cur(s), s.locks, s.current == s.idle);
  }

  lemma ClearStep(s: State)
    requires ThreadInv(s) && HolderHolds(s) && Sound(s) && Enabled(s, Clear)
    ensures Sound(ClearState(s))
  {
    NothingNoted(s);
    assert Holds(s, s.current, Cur(s).pc.lock);
    ClearSound(s);
  }

  lemma ReleaseSound(s: State, a: Action, s': State)
    requires a.Drop? || a.Clear? || a.Up?
    requires Inv(s) && Sound(s) && Enabled(s, a) && Apply(s, a) == Done(s')
    ensures Sound(s')
  {
    hide ThreadInv, OwnerInv, QueueInv, HolderHolds, AllCovered, ReadyInv, Sound, DropState, ClearState, AfterUp;
    NothingNoted(s);
    match a
    case Drop(l) => DropSound(s, l);
    case Clear => ClearStep(s);
    case Up => UpSound(s);
  }

  lemma SetPrioritySound(s: State, p: int)
    requires ReadyInv(s) && Sound(s) && Enabled(s, SetPriority(p)) && Cur(s).waits == None
    ensures Sound(AfterSetPriority(s, p))
  {
    OutsiderSound(s, WithPriority(s, p), s.current);
    SetPriorityReady(s, p);
    YieldSound(WithPriority(s, p));
  }

  lemma GoToSleepSound(s: State)
    requires ReadyInv(s) && Sound(s) && Enabled(s, GoToSleep) && Cur(s).waits == None
    ensures Sound(AfterGoToSleep(s))
  {
    OutsiderSound(s, Drowsy(s), s.current);
    ReadyFrame(s, Drowsy(s));
    BlockSound(Drowsy(s));
  }

  lemma WakeUpSound(s: State, t: Tid)
    requires Sound(s) && Enabled(s, WakeUp(t)) && s.threads[t].waits == None && t != s.idle
    ensures Sound(AfterWakeUp(s, t))
  {
    var s' := AfterWakeUp(s, t);
    assert s'.threads == s.threads[t := s'.threads[t]];
    OutsiderSound(s, s', t);
  }

  lemma CreateSound(s: State, t: Tid, p: int)
    requires ReadyInv(s) && Sound(s) && Enabled(s, Create(t, p))
    ensures Sound(AfterCreate(s, t, p))
  {
    var s' := Unblock(Born(s, t, p), t);
    assert s'.threads == s.threads[t := s'.threads[t]];
    OutsiderSound(s, s', t);
    BornReady(s, t, p);
    YieldSound(s');
  }

  lemma SleeperNotes(s: State, t: Tid)
    requires ThreadInv(s) && Enabled(s, WakeUp(t))
    ensures s.threads[t].waits == None && t != s.idle
  {
    assert ThreadOk(s.threads[t], s.locks, t == s.idle);
  }

  lemma OtherSound(s: State, a: Action, s': State)
    requires a.SetPriority? || a.GoToSleep? || a.WakeUp? || a.Create?
    requires Inv(s) && Sound(s) && Enabled(s, a) && Apply(s, a) == Done(s')
    ensures Sound(s')
  {
    hide ThreadInv, OwnerInv, QueueInv, HolderHolds, AllCovered, ReadyInv, Sound, AfterSetPriority, AfterGoToSleep, AfterWakeUp, AfterCreate;
    if !a.WakeUp? { NothingNoted(s); }
    match a
    case SetPriority(p) => SetPrioritySound(s, p);
    case GoToSleep => GoToSleepSound(s);
    case WakeUp(t) => SleeperNotes(s, t); WakeUpSound(s, t);
    case Create(t, p) => CreateSound(s, t, p);
  }

  lemma WriteStep(s: State)
    requires Inv(s) && Sound(s) && Enabled(s, Write)
    ensures Sound(WriteState(s)) <==> WritesHighest(s)
  {
    assert ThreadOk(Cur(s), s.locks, s.current == s.idle);
    WriteExact(s);
  }

  lemma TakeStep(s: State)
    requires Inv(s) && Sound(s) && Enabled(s, Take)
    ensures Sound(TakeState(s)) <==> TopContender(s)
  {
    hide Sound, TopContender;
    TakeIsFree(s);
    TakeExact(s);
  }

  lemma HolderGiven(s: State, h: Tid)
    requires Inv(s) && Sound(s) && Enabled(s, Give)
    requires s.locks[Cur(s).pc.at].holder == Some(h) && h in s.threads
    ensures Sound(GiveState(s, h)) <==> GivesToNoted(s, h, Gift(s, h)) && SparesWaiters(s, h, Gift(s, h)) && SparesLocks(s, h, Gift(s, h))
  {
    hide Sound, GivesToNoted, SparesWaiters, SparesLocks, GiveState;
    assert ThreadOk(Cur(s), s.locks, s.current == s.idle);
    assert ThreadOk(s.threads[h], s.locks, h == s.idle) && Covered(s, s.threads[h]);
    GiveGave(s, h);
    GaveExact(s, h, Gift(s, h), GiveState(s, h));
  }

  lemma GiveStep(s: State, s': State)
    requires Inv(s) && Sound(s) && Enabled(s, Give) && Apply(s, Give) == Done(s')
    ensures Sound(s') <==> Careful(s, Give)
  {
    hide Sound, GivesToNoted, SparesWaiters, SparesLocks, GiveState, Gift;
    hide ThreadInv, OwnerInv, QueueInv, HolderHolds, AllCovered, ReadyInv;
    CoreRefs(s);
    HolderGiven(s, s.locks[Cur(s).pc.at].holder.value);
  }

  /** The freed lock goes to its top contender, no store undoes a higher one, and no donation ends
      at a thread that has not noted the lock it awaits or lowers a donor that is still needed. */
  ghost predicate Careful(s: State, a: Action) {
    Enabled(s, a) ==>
      match a
      case Take => TopContender(s)
      case Write => WritesHighest(s)
      case Give =>
        s.locks[Cur(s).pc.at].holder.Some? && s.locks[Cur(s).pc.at].holder.value in s.threads ==>
          var h := s.locks[Cur(s).pc.at].holder.value;
          GivesToNoted(s, h, Gift(s, h)) && SparesWaiters(s, h, Gift(s, h)) && SparesLocks(s, h, Gift(s, h))
      case _ => true
  }

  lemma PreemptSound(s: State)
    requires ReadyInv(s) && Sound(s)
    ensures Sound(AfterPreempt(s))
  {
    YieldSound(s);
  }

  lemma IdleSound(s: State)
    requires ReadyInv(s) && Sound(s)
    ensures Sound(AfterIdleBlocks(s))
  {
    BlockSound(s);
  }

  lemma PlainSound(s: State, a: Action, s': State)
    requires !a.Take? && !a.Write? && !a.Give?
    requires Inv(s) && Sound(s) && Enabled(s, a) && Apply(s, a) == Done(s')
    ensures Sound(s')
  {
    hide Core, ReadyInv, Sound, Enabled, AfterQueue, PassState, AfterPreempt;
    match a
    case Queue => QueueSound(s);
    case Pass => PassSound(s);
    case Drop(_) => ReleaseSound(s, a, s');
    case Clear => ReleaseSound(s, a, s');
    case Up => ReleaseSound(s, a, s');
    case SetPriority(_) => OtherSound(s, a, s');
    case GoToSleep => OtherSound(s, a, s');
    case WakeUp(_) => OtherSound(s, a, s');
    case Create(_, _) => OtherSound(s, a, s');
    case Preempt => PreemptSound(s);
    case IdleBlocks => IdleSound(s);
    case _ => WalkSound(s, a, s');
  }

  /** For every step of the lock routines and the scheduler: it leaves every waiter that outranks its
      lock with a donor of its rank on the way, and every lock that outranks its holder with one about
      to give, exactly when it is careful. */
  lemma StepExact(s: State, a: Action, s': State)
    requires Inv(s) && Sound(s) && Enabled(s, a) && Apply(s, a) == Done(s')
    ensures Sound(s') <==> Careful(s, a)
  {
    hide Core, ReadyInv, Sound, TopContender, WritesHighest, GivesToNoted, SparesWaiters, SparesLocks, TakeState, WriteState, Gift;
    match a
    case Take => TakeStep(s);
    case Write => WriteStep(s);
    case Give => GiveStep(s, s');
    case _ => PlainSound(s, a, s');
  }

  // ---- runs

  /** In the run from `s`, every step meets the condition that is asked of it. */
  ghost predicate CarefulRun(s: State, actions: seq<Action>)
    requires Inv(s)
  {
    forall i :: 0 <= i < |actions| && Run(s, actions[..i]).Some? ==> Careful(Run(s, actions[..i]).value, actions[i])
  }

  /** Every state of the run is free of untended inversions. */
  ghost predicate SoundRun(s: State, actions: seq<Action>)
    requires Inv(s)
  {
    forall i :: 0 <= i <= |actions| && Run(s, actions[..i]).Some? ==> Sound(Run(s, actions[..i]).value)
  }

  lemma RunStep(s: State, actions: seq<Action>, i: nat)
    requires Inv(s) && i < |actions| && Run(s, actions[..i + 1]).Some?
    ensures Run(s, actions[..i]).Some?
    ensures Enabled(Run(s, actions[..i]).value, actions[i])
    ensures Apply(Run(s, actions[..i]).value, actions[i]) == Done(Run(s, actions[..i + 1]).value)
  {
    hide Inv, Enabled, Apply;
    assert actions[..i + 1][..i] == actions[..i];
  }

  lemma SoundNext(s: State, actions: seq<Action>, i: nat)
    requires Inv(s) && CarefulRun(s, actions) && i < |actions|
    requires Run(s, actions[..i]).Some? && Sound(Run(s, actions[..i]).value) && Run(s, actions[..i + 1]).Some?
    ensures Sound(Run(s, actions[..i + 1]).value)
  {
    hide Sound, Careful, Inv, Enabled, Apply;
    RunStep(s, actions, i);
    StepExact(Run(s, actions[..i]).value, actions[i], Run(s, actions[..i + 1]).value);
  }

  lemma {:induction false} SoundAt(s: State, actions: seq<Action>, i: nat)
    requires Inv(s) && Sound(s) && CarefulRun(s, actions)
    requires i <= |actions| && Run(s, actions[..i]).Some?
    ensures Sound(Run(s, actions[..i]).value)
  {
    hide Sound, Careful, Inv;
    if i > 0 {
      RunStep(s, actions, i - 1);
      SoundAt(s, actions, i - 1);
      SoundNext(s, actions, i - 1);
    }
  }

  lemma {:induction false} RunPrefix(s: State, actions: seq<Action>, i: nat)
    requires Inv(s) && i <= |actions| && Run(s, actions).Some?
    ensures Run(s, actions[..i]).Some?
    decreases |actions| - i
  {
    hide Inv, Enabled, Apply;
    if i == |actions| {
      assert actions[..i] == actions;
    } else {
      RunPrefix(s, actions, i + 1);
      RunStep(s, actions, i);
    }
  }

  /** A run is free of untended inversions throughout exactly when every step of it is careful. */
  lemma RunExact(s: State, actions: seq<Action>)
    requires Inv(s) && Sound(s) && Run(s, actions).Some?
    ensures SoundRun(s, actions) <==> CarefulRun(s, actions)
  {
    hide Inv, Sound, Careful, Enabled, Apply;
    if CarefulRun(s, actions) {
      forall i | 0 <= i <= |actions| && Run(s, actions[..i]).Some?
        ensures Sound(Run(s, actions[..i]).value)
      {
        SoundAt(s, actions, i);
      }
    }
    if SoundRun(s, actions) {
      forall i | 0 <= i < |actions| && Run(s, actions[..i]).Some?
        ensures Careful(Run(s, actions[..i]).value, actions[i])
      {
        RunPrefix(s, actions, i + 1);
        RunStep(s, actions, i);
        StepExact(Run(s, actions[..i]).value, actions[i], Run(s, actions[..i + 1]).value);
      }
    }
  }

  lemma BootedSound(s: State)
    requires Booted(s)
    ensures Inv(s) && Sound(s)
  {
    BootedInv(s);
    assert forall u, l :: !Awaits(s, u, l) && !Outranked(s, u, l);
  }

  // ---- chains of waiting threads

  /** `path` climbs from a waiter to the holder of the lock it wants, and so on. */
  ghost predicate WaitChain(s: State, path: seq<Tid>) {
    && path != []
    && (forall i :: 0 <= i < |path| ==> path[i] in s.threads)
    && (forall i :: 0 <= i < |path| - 1 ==>
      && Wanted(s.threads[path[i]]).Some?
      && Wanted(s.threads[path[i]]).value in s.threads[path[i + 1]].held)
  }

  /** Some thread is in its donation loop on the way to the lock that `u` wants, or to its holder. */
  ghost predicate Underway(s: State, u: Tid)
    requires u in s.threads && Wanted(s.threads[u]).Some?
  {
    var l := Wanted(s.threads[u]).value;
    exists d: Tid :: d in s.threads && InLoop(s.threads[d].pc) && (Heads(s, d, l) || Gives(s.threads[d].pc, l))
  }

  lemma LinkRises(s: State, u: Tid, h: Tid, l: Lid)
    requires Sound(s) && HolderHolds(s) && u in s.threads && h in s.threads
    requires Wanted(s.threads[u]) == Some(l) && l in s.threads[h].held
    ensures s.threads[u].priority <= s.threads[h].priority || Underway(s, u)
  {
    assert Holds(s, h, l);
    assert Awaits(s, u, l);
    if s.threads[u].priority > s.locks[l].maxPriority {
      var d: Tid :| Heads(s, d, l) && s.threads[d].priority >= s.threads[u].priority;
    } else if s.locks[l].maxPriority > s.threads[h].priority {
      assert Outranked(s, h, l);
      var e :| Backs(s, e, l, s.locks[l].maxPriority);
    }
  }

  lemma {:induction false} ChainRises(s: State, path: seq<Tid>)
    requires Sound(s) && HolderHolds(s) && WaitChain(s, path)
    ensures s.threads[path[0]].priority <= s.threads[path[|path| - 1]].priority
      || exists i :: 0 <= i < |path| - 1 && Underway(s, path[i])
  {
    var n := |path| - 1;
    if n > 0 {
      ChainRises(s, path[..n]);
      LinkRises(s, path[n - 1], path[n], Wanted(s.threads[path[n - 1]]).value);
      if i :| 0 <= i < n - 1 && Underway(s, path[..n][i]) {
        assert Underway(s, path[i]);
      }
    }
  }

  /** No priority inversion: in every careful run from boot, no thread outranks a thread that it
      waits for, directly or through others, unless a donor on that chain is still in its loop. */
  lemma NoPriorityInversion(s: State, actions: seq<Action>, path: seq<Tid>)
    requires Booted(s)
    requires Inv(s) && Run(s, actions).Some? && CarefulRun(s, actions)
    requires WaitChain(Run(s, actions).value, path)
    ensures var r := Run(s, actions).value;
      r.threads[path[0]].priority <= r.threads[path[|path| - 1]].priority || exists i :: 0 <= i < |path| - 1 && Underway(r, path[i])
  {
    BootedSound(s);
    assert actions[..|actions|] == actions;
    SoundAt(s, actions, |actions|);
    ChainRises(Run(s, actions).value, path);
  }

  /** With nobody in its loop there is no exception. */
  lemma NoInversionAtRest(s: State, actions: seq<Action>, path: seq<Tid>)
    requires Booted(s)
    requires Inv(s) && Run(s, actions).Some? && CarefulRun(s, actions)
    requires WaitChain(Run(s, actions).value, path)
    requires forall d :: d in Run(s, actions).value.threads ==> !InLoop(Run(s, actions).value.threads[d].pc)
    ensures var r := Run(s, actions).value;
      r.threads[path[0]].priority <= r.threads[path[|path| - 1]].priority
  {
    NoPriorityInversion(s, actions, path);
  }
}
