/** What the priority of a thread is over whole runs: the one it last asked for, and the donations to
    the locks that it holds, which go back when it releases them. */
module Priorities {
  import opened Wrappers
  import opened Order
  import opened Kernel
  import opened Donation
  import opened Locks
  import opened LockRuns

  /** A lock that thread `th` holds accounts for its priority, or is about to change it. */
  ghost predicate Lends(s: State, th: Thread, l: Lid) {
    l in th.held && l in s.locks && (s.locks[l].maxPriority >= th.priority || InFlight(s, l))
  }

  /** The priority is no higher than the base priority or a donation to a held lock. */
  ghost predicate Justified(s: State, th: Thread) { th.priority <= th.base || exists l :: Lends(s, th, l) }

  ghost predicate AllJustified(s: State) {
    forall t :: t in s.threads ==> Justified(s, s.threads[t])
  }

  /** A thread that holds no lock has no more than its base priority. */
  predicate Unlent(th: Thread) { th.held == [] ==> th.priority <= th.base }

  ghost predicate AllUnlent(s: State) {
    forall t :: t in s.threads ==> Unlent(s.threads[t])
  }

  // ---- steps that leave priorities alone

  predicate SameThread(a: Thread, b: Thread) { a.priority == b.priority && a.base == b.base && a.held == b.held }

  ghost predicate SameLocks(s: State, s': State) {
    && SameFlights(s, s') && s'.locks.Keys == s.locks.Keys
    && (forall l :: l in s.locks ==> s'.locks[l].maxPriority == s.locks[l].maxPriority)
  }

  /** Threads other than `t` and all locks are as they were. */
  ghost predicate Others(s: State, s': State, t: Tid) {
    && SameLocks(s, s')
    && (forall u :: u in s.threads ==> u in s'.threads)
    && (forall u :: u in s'.threads && u != t ==> u in s.threads && SameThread(s.threads[u], s'.threads[u]))
  }

  ghost predicate Calm(s: State, s': State) {
    && SameLocks(s, s') && s'.threads.Keys == s.threads.Keys
    && (forall u :: u in s.threads ==> SameThread(s.threads[u], s'.threads[u]))
  }

  lemma CalmTransitive(a: State, b: State, c: State)
    requires Calm(a, b) && Calm(b, c)
    ensures Calm(a, c)
  {
  }

  lemma OthersCalm(a: State, b: State, c: State, t: Tid)
    requires Others(a, b, t) && Calm(b, c)
    ensures Others(a, c, t)
  {
  }

  lemma StatusCalm(s: State, s': State)
    requires StatusOnly(s, s')
    ensures Calm(s, s')
  {
  }

  lemma YieldCalm(s: State)
    requires ReadyInv(s)
    ensures Calm(s, Yield(s))
  {
    YieldStatusOnly(s);
    StatusCalm(s, Yield(s));
  }

  lemma BlockCalm(s: State)
    requires ReadyInv(s)
    ensures s.ready != [] ==> s.ready[0] in s.threads
    ensures Calm(s, Block(s))
  {
    BlockStatusOnly(s);
    StatusCalm(Stopped(s), Block(s));
    CalmTransitive(s, Stopped(s), Block(s));
  }

  lemma WalkCalm(s: State, a: Action, s': State)
    requires a.Look? || a.Note? || a.Test? || a.Follow?
    requires Inv(s) && Enabled(s, a) && Apply(s, a) == Done(s')
    ensures Calm(s, s')
  {
    hide Core;
  }

  lemma QueueCalm(s: State)
    requires ReadyInv(s) && Enabled(s, Queue)
    ensures Calm(s, AfterQueue(s))
  {
    ReadyFrame(s, QueueState(s));
    BlockCalm(QueueState(s));
    CalmTransitive(s, QueueState(s), AfterQueue(s));
  }

  lemma WokenCalm(s: State, s': State, l: Lid, w: Option<Tid>)
    requires Woken(s, s', l, w) && Cur(s).pc == Cleared(l)
    ensures Calm(s, s')
  {
  }

  lemma UpStateCalm(s: State)
    requires QueueInv(s) && Enabled(s, Up) && Cur(s).status == Running
    ensures forall t :: t in s.locks[Cur(s).pc.lock].waiters ==> t in s.threads
    ensures Calm(s, UpState(s))
  {
    hide Calm, UpState, Woken, QueueInv;
    var w := UpWakes(s);
    WokenCalm(s, UpState(s), Cur(s).pc.lock, w);
  }

  lemma UpCalm(s: State)
    requires Inv(s) && Enabled(s, Up)
    ensures Calm(s, AfterUp(s))
  {
    hide Calm, UpState, Yield, ThreadInv, OwnerInv, QueueInv, HolderHolds, AllCovered;
    UpStateCalm(s);
    UpKeeps(s);
    YieldCalm(UpState(s));
    CalmTransitive(s, UpState(s), Yield(UpState(s)));
  }

  lemma SleepCalm(s: State)
    requires ReadyInv(s) && Enabled(s, GoToSleep)
    ensures Calm(s, AfterGoToSleep(s))
  {
    ReadyFrame(s, Drowsy(s));
    BlockCalm(Drowsy(s));
    CalmTransitive(s, Drowsy(s), AfterGoToSleep(s));
  }

  lemma WakeUpCalm(s: State, t: Tid)
    requires Enabled(s, WakeUp(t))
    ensures Calm(s, AfterWakeUp(s, t))
  {
  }

  lemma PassCalm(s: State)
    requires Enabled(s, Pass)
    ensures Calm(s, PassState(s))
  {
  }

  lemma ClearCalm(s: State)
    requires Enabled(s, Clear)
    ensures Calm(s, ClearState(s))
  {
  }

  /** The steps that change no priority, no base priority, no lock and no list of held locks. */
  predicate Plain(a: Action) {
    !a.Write? && !a.Give? && !a.Take? && !a.Drop? && !a.SetPriority? && !a.Create?
  }

  lemma PlainCalm(s: State, a: Action, s': State)
    requires Plain(a) && Inv(s) && Enabled(s, a) && Apply(s, a) == Done(s')
    ensures Calm(s, s')
  {
    hide Core, ReadyInv, Calm, AfterQueue, AfterUp, AfterGoToSleep, AfterWakeUp, Yield, Block, PassState, ClearState;
    match a
    case Queue => QueueCalm(s);
    case Pass => PassCalm(s);
    case Clear => ClearCalm(s);
    case Up => UpCalm(s);
    case Preempt => YieldCalm(s);
    case GoToSleep => SleepCalm(s);
    case WakeUp(t) => WakeUpCalm(s, t);
    case IdleBlocks => BlockCalm(s);
    case _ => WalkCalm(s, a, s');
  }

  // ---- the other steps

  /** Whoever accounts for a priority still does. */
  lemma JustifiedAgain(s: State, s': State, th: Thread, th': Thread)
    requires SameLocks(s, s') && SameThread(th, th')
    ensures Justified(s, th) ==> Justified(s', th')
  {
    if Justified(s, th) && th.priority > th.base {
      var l :| Lends(s, th, l);
      if InFlight(s, l) {
        var d: Tid :| d in s.threads && Gives(s.threads[d].pc, l);
        assert Gives(s'.threads[d].pc, l);
      }
      assert Lends(s', th', l);
    }
  }

  lemma OthersJustified(s: State, s': State, t: Tid)
    requires AllJustified(s) && Others(s, s', t)
    ensures forall u :: u in s'.threads && u != t ==> Justified(s', s'.threads[u])
  {
    forall u | u in s'.threads && u != t
      ensures Justified(s', s'.threads[u])
    {
      JustifiedAgain(s, s', s.threads[u], s'.threads[u]);
    }
  }

  lemma CalmJustified(s: State, s': State)
    requires AllJustified(s) && Calm(s, s')
    ensures AllJustified(s')
  {
    forall u | u in s'.threads
      ensures Justified(s', s'.threads[u])
    {
      JustifiedAgain(s, s', s.threads[u], s'.threads[u]);
    }
  }

  /** Storing a priority: the donation is in flight. */
  lemma WriteJustified(s: State)
    requires AllJustified(s) && Enabled(s, Write)
    ensures AllJustified(WriteState(s))
  {
    var s', at := WriteState(s), Cur(s).pc.at;
    assert Gives(s'.threads[s.current].pc, at);
    forall u | u in s'.threads
      ensures Justified(s', s'.threads[u])
    {
      StoredJustified(s, s', at, s.threads[u], s'.threads[u]);
    }
  }

  lemma StoredJustified(s: State, s': State, at: Lid, th: Thread, th': Thread)
    requires SameFlights(s, s') && InFlight(s', at) && s'.locks.Keys == s.locks.Keys && SameThread(th, th')
    requires forall l :: l in s.locks && l != at ==> s'.locks[l].maxPriority == s.locks[l].maxPriority
    requires Justified(s, th)
    ensures Justified(s', th')
  {
    if th.priority > th.base {
      var l :| Lends(s, th, l);
      if l != at && InFlight(s, l) {
        var d: Tid :| d in s.threads && Gives(s.threads[d].pc, l);
        assert Gives(s'.threads[d].pc, l);
      }
      assert Lends(s', th', l);
    }
  }

  /** A thread that has been updated is justified, whatever is in flight. */
  lemma EffectiveJustified(s: State, th: Thread)
    requires IsEffective(th.priority, th, s.locks) && forall l :: l in th.held ==> l in s.locks
    ensures Justified(s, th) && Unlent(th)
  {
    if th.priority != th.base {
      var l :| l in th.held && th.priority == LockRank(s.locks)(l);
      assert Lends(s, th, l);
    }
  }

  lemma EffectiveKept(p: int, th: Thread, th': Thread, L: map<Lid, Lock>)
    requires IsEffective(p, th, L) && th'.base == th.base && forall l :: l in th'.held <==> l in th.held
    ensures IsEffective(p, th', L)
  {
  }

  /** What the donation leaves: the holder is updated, and nobody else holds that lock. */
  ghost predicate Handed(s: State, h: Tid, s': State) {
    && s.current in s.threads && Cur(s).pc.Giving? && h in s.threads && h in s'.threads
    && s'.locks == s.locks && s'.threads.Keys == s.threads.Keys && s'.threads[h].base == s.threads[h].base
    && IsEffective(s'.threads[h].priority, s'.threads[h], s.locks)
    && (forall l :: l in s'.threads[h].held ==> l in s.locks)
    && (forall u :: u in s.threads && u != h ==> SameThread(s.threads[u], s'.threads[u]) && Cur(s).pc.at !in s.threads[u].held)
    && (forall u :: u in s.threads && u != s.current ==> s'.threads[u].pc == s.threads[u].pc)
  }

  lemma GiveHands(s: State, h: Tid)
    requires Inv(s) && Enabled(s, Give) && s.locks[Cur(s).pc.at].holder == Some(h) && h in s.threads
    ensures Handed(s, h, GiveState(s, h))
  {
    hide OwnerInv, QueueInv, AllCovered, ReadyInv;
    GiveGives(s, h);
    assert ThreadOk(s.threads[h], s.locks, h == s.idle);
    forall u | u in s.threads && u != h
      ensures Cur(s).pc.at !in s.threads[u].held
    {
      assert !Holds(s, u, Cur(s).pc.at);
    }
    GivenHands(s, h, DonateTo(s, h), GiveState(s, h));
  }

  lemma GivenHands(s: State, h: Tid, d: State, s': State)
    requires Given(s, h, d) && Enabled(s, Give) && (forall l :: l in s.threads[h].held ==> l in s.locks)
    requires forall u :: u in s.threads && u != h ==> Cur(s).pc.at !in s.threads[u].held
    requires s' == Walked(d, Following(Cur(s).pc.lock, Cur(s).pc.at), Cur(s).waits)
    ensures Handed(s, h, s')
  {
    EffectiveKept(d.threads[h].priority, s.threads[h], s'.threads[h], s.locks);
  }

  lemma HandedJustified(s: State, h: Tid, s': State)
    requires AllJustified(s) && Handed(s, h, s')
    ensures AllJustified(s')
  {
    hide IsEffective;
    EffectiveJustified(s', s'.threads[h]);
    forall u | u in s'.threads && u != h
      ensures Justified(s', s'.threads[u])
    {
      BystanderJustified(s, h, s', u);
    }
  }

  lemma BystanderJustified(s: State, h: Tid, s': State, u: Tid)
    requires Handed(s, h, s') && u in s.threads && u != h && Justified(s, s.threads[u])
    ensures Justified(s', s'.threads[u])
  {
    hide IsEffective;
    var th := s.threads[u];
    if th.priority > th.base {
      var l :| Lends(s, th, l);
      if InFlight(s, l) {
        var d: Tid :| d in s.threads && Gives(s.threads[d].pc, l);
        assert Gives(s'.threads[d].pc, l);
      }
      assert Lends(s', s'.threads[u], l);
    }
  }

  lemma TakeAlone(s: State, u: Tid)
    requires OwnerInv(s) && Enabled(s, Take) && u in s.threads && u != s.current
    ensures Cur(s).pc.lock !in s.threads[u].held
  {
    assert Owns(s, s.current, Cur(s).pc.lock) && !Owns(s, u, Cur(s).pc.lock);
  }

  lemma TakeJustified(s: State)
    requires OwnerInv(s) && AllJustified(s) && Enabled(s, Take)
    ensures AllJustified(TakeState(s))
  {
    hide OwnerInv;
    var s', l := TakeState(s), Cur(s).pc.lock;
    InsertedMembers(Cur(s).held, l, TakeRank(s));
    assert Lends(s', Cur(s'), l);
    forall u | u in s'.threads && u != s.current
      ensures Justified(s', s'.threads[u])
    {
      TakeAlone(s, u);
      TakenJustified(s, s', l, s.threads[u]);
    }
  }

  lemma TakenJustified(s: State, s': State, l: Lid, th: Thread)
    requires SameFlights(s, s') && s'.locks.Keys == s.locks.Keys && l !in th.held
    requires forall k :: k in s.locks && k != l ==> s'.locks[k].maxPriority == s.locks[k].maxPriority
    requires Justified(s, th)
    ensures Justified(s', th)
  {
    if th.priority > th.base {
      var k :| Lends(s, th, k);
      if InFlight(s, k) {
        var d: Tid :| d in s.threads && Gives(s.threads[d].pc, k);
        assert Gives(s'.threads[d].pc, k);
      }
      assert Lends(s', th, k);
    }
  }

  // ---- lock_release

  /** A thread that releases lock `l` keeps its other locks and has exactly the largest of its base
      priority and the donations to those; nothing else changes. */
  ghost predicate GaveBack(s: State, l: Lid, s': State) {
    && s'.current == s.current && s.current in s.threads && s'.locks == s.locks && s'.ready == s.ready
    && s.current in s'.threads && s'.threads == s.threads[s.current := Cur(s')]
    && Cur(s').base == Cur(s).base && Cur(s').waits == Cur(s).waits
    && IsEffective(Cur(s').priority, Cur(s'), s'.locks)
    && Distinct(Cur(s').held) && (forall k :: k in Cur(s').held <==> k in Cur(s).held && k != l)
  }

  lemma ReleaseGivesBack(s: State, l: Lid, s': State)
    requires Inv(s) && Enabled(s, Drop(l)) && Apply(s, Drop(l)) == Done(s')
    ensures GaveBack(s, l, s')
  {
    hide OwnerInv, QueueInv, AllCovered, ReadyInv, HolderHolds, DropState, GaveBack;
    assert ThreadOk(Cur(s), s.locks, s.current == s.idle);
    DropGivesBack(s, l);
  }

  lemma DropGivesBack(s: State, l: Lid)
    requires Enabled(s, Drop(l)) && Distinct(Cur(s).held)
    ensures GaveBack(s, l, DropState(s, l))
  {
    hide Updated, IsEffective;
    var th := Cur(s).(held := Without(Cur(s).held, l), pc := Dropping(l));
    WithoutDistinct(Cur(s).held, l);
    UpdatedIsEffective(th, s.locks);
    UpdatedKeeps(th, s.locks);
    EffectiveKept(Updated(th, s.locks).priority, th, Updated(th, s.locks), s.locks);
  }

  lemma UpdatedKeeps(th: Thread, L: map<Lid, Lock>)
    ensures Updated(th, L) == th.(priority := Updated(th, L).priority, held := Updated(th, L).held)
  {
  }

  /** So it is after every release in every run. */
  lemma RunGivesBack(s: State, actions: seq<Action>, l: Lid)
    requires Inv(s) && Run(s, actions + [Drop(l)]).Some?
    ensures Run(s, actions).Some? && GaveBack(Run(s, actions).value, l, Run(s, actions + [Drop(l)]).value)
  {
    hide Inv, Apply, Enabled, GaveBack;
    assert (actions + [Drop(l)])[..|actions|] == actions;
    ReleaseGivesBack(Run(s, actions).value, l, Run(s, actions + [Drop(l)]).value);
  }

  lemma DropOthers(s: State, l: Lid, s': State)
    requires GaveBack(s, l, s') && Cur(s).pc == Outside
    ensures Others(s, s', s.current)
  {
    hide IsEffective;
  }

  lemma DropJustified(s: State, l: Lid, s': State)
    requires Inv(s) && Enabled(s, Drop(l)) && Apply(s, Drop(l)) == Done(s')
    ensures Justified(s', Cur(s')) && Unlent(Cur(s')) && Others(s, s', s.current) && s.current in s'.threads && s'.current == s.current
  {
    hide OwnerInv, QueueInv, AllCovered, ReadyInv, HolderHolds, IsEffective, DropState;
    assert ThreadOk(Cur(s), s.locks, s.current == s.idle);
    ReleaseGivesBack(s, l, s');
    DropOthers(s, l, s');
    EffectiveJustified(s', Cur(s'));
  }

  // ---- thread_set_priority and thread_create

  /** What `thread_set_priority` is asked for does not leave the caller above its base priority and
      all donations to it. */
  ghost predicate Modest(s: State, a: Action) {
    a.SetPriority? && s.current in s.threads ==>
      Cur(s).held == [] || a.priority >= Cur(s).priority || exists l :: Lends(s, Cur(s), l)
  }

  lemma AskOthers(s: State, p: int)
    requires Enabled(s, SetPriority(p))
    ensures Others(s, WithPriority(s, p), s.current) && SameFlights(WithPriority(s, p), s)
  {
  }

  lemma AskExact(s: State, p: int)
    requires AllJustified(s) && Enabled(s, SetPriority(p))
    ensures AllJustified(WithPriority(s, p)) <==> Modest(s, SetPriority(p))
  {
    hide Others, SameFlights;
    var s' := WithPriority(s, p);
    AskOthers(s, p);
    OthersJustified(s, s', s.current);
    AskSelf(s, p);
  }

  lemma AskSelf(s: State, p: int)
    requires Enabled(s, SetPriority(p))
    ensures Justified(WithPriority(s, p), Cur(WithPriority(s, p))) <==> Modest(s, SetPriority(p))
  {
    hide InFlight;
    var s' := WithPriority(s, p);
    AskOthers(s, p);
    SameInFlight(s, s');
    if Cur(s).held != [] && p < Cur(s).priority {
      assert forall l :: Lends(s, Cur(s), l) <==> Lends(s', Cur(s'), l);
    }
  }

  lemma SameInFlight(s: State, s': State)
    requires SameFlights(s, s') && SameFlights(s', s)
    ensures forall l :: InFlight(s, l) <==> InFlight(s', l)
  {
    forall l
      ensures InFlight(s, l) <==> InFlight(s', l)
    {
      if InFlight(s, l) {
        var d: Tid :| d in s.threads && Gives(s.threads[d].pc, l);
        assert Gives(s'.threads[d].pc, l);
      }
      if InFlight(s', l) {
        var d: Tid :| d in s'.threads && Gives(s'.threads[d].pc, l);
        assert Gives(s.threads[d].pc, l);
      }
    }
  }

  /** Rescheduling does not matter. */
  lemma StatusJustified(s: State, s': State)
    requires StatusOnly(s, s')
    ensures AllJustified(s) <==> AllJustified(s')
  {
    StatusCalm(s, s');
    if AllJustified(s) { CalmJustified(s, s'); }
    if AllJustified(s') {
      assert Calm(s', s);
      CalmJustified(s', s);
    }
  }

  lemma SetPriorityExact(s: State, p: int)
    requires ReadyInv(s) && AllJustified(s) && Enabled(s, SetPriority(p))
    ensures AllJustified(AfterSetPriority(s, p)) <==> Modest(s, SetPriority(p))
  {
    hide AllJustified, Modest, Yield, WithPriority;
    AskExact(s, p);
    SetPriorityReady(s, p);
    YieldStatusOnly(WithPriority(s, p));
    StatusJustified(WithPriority(s, p), Yield(WithPriority(s, p)));
  }

  lemma SetPriorityOthers(s: State, p: int)
    requires ReadyInv(s) && Enabled(s, SetPriority(p))
    ensures var s' := AfterSetPriority(s, p);
      Others(s, s', s.current) && s.current in s'.threads && s'.threads[s.current].base == p && Unlent(s'.threads[s.current])
  {
    hide Yield;
    var z := WithPriority(s, p);
    SetPriorityReady(s, p);
    YieldCalm(z);
    assert Others(s, z, s.current);
    OthersCalm(s, z, Yield(z), s.current);
  }

  lemma BornOthers(s: State, t: Tid, p: int)
    requires t !in s.threads
    ensures var z := Unblock(Born(s, t, p), t);
      Others(s, z, t) && t in z.threads && z.threads[t].base == z.threads[t].priority == p
  {
    hide InsertOrdered;
  }

  lemma CreateOthers(s: State, t: Tid, p: int)
    requires ReadyInv(s) && Enabled(s, Create(t, p))
    ensures var s' := AfterCreate(s, t, p);
      Others(s, s', t) && t in s'.threads && s'.threads[t].base == s'.threads[t].priority == p
  {
    hide Yield, Unblock, Others;
    var z := Unblock(Born(s, t, p), t);
    BornReady(s, t, p);
    BornOthers(s, t, p);
    YieldCalm(z);
    OthersCalm(s, z, Yield(z), t);
  }

  lemma CreateJustified(s: State, t: Tid, p: int)
    requires ReadyInv(s) && AllJustified(s) && Enabled(s, Create(t, p))
    ensures AllJustified(AfterCreate(s, t, p))
  {
    hide AfterCreate;
    CreateOthers(s, t, p);
    OthersJustified(s, AfterCreate(s, t, p), t);
  }

  // ---- every step

  lemma DropAll(s: State, l: Lid, s': State)
    requires Inv(s) && AllJustified(s) && Enabled(s, Drop(l)) && Apply(s, Drop(l)) == Done(s')
    ensures AllJustified(s')
  {
    hide Core, ReadyInv, DropState;
    DropJustified(s, l, s');
    OthersJustified(s, s', s.current);
  }

  lemma GiveAll(s: State, s': State)
    requires Inv(s) && AllJustified(s) && Enabled(s, Give) && Apply(s, Give) == Done(s')
    ensures AllJustified(s')
  {
    hide ThreadInv, OwnerInv, QueueInv, HolderHolds, AllCovered, ReadyInv, GiveState, AllJustified, Handed;
    CoreRefs(s);
    var h := s.locks[Cur(s).pc.at].holder.value;
    GiveHands(s, h);
    HandedJustified(s, h, s');
  }

  lemma TakeAll(s: State)
    requires Inv(s) && AllJustified(s) && Enabled(s, Take)
    ensures AllJustified(TakeState(s))
  {
    hide ReadyInv, AllJustified, TakeState;
    TakeJustified(s);
  }

  lemma PlainAll(s: State, a: Action, s': State)
    requires Plain(a) && Inv(s) && AllJustified(s) && Enabled(s, a) && Apply(s, a) == Done(s')
    ensures AllJustified(s')
  {
    hide Core, ReadyInv, Calm, AllJustified, Apply, Enabled;
    PlainCalm(s, a, s');
    CalmJustified(s, s');
  }

  lemma KeepsJustified(s: State, a: Action, s': State)
    requires !a.SetPriority? && Inv(s) && AllJustified(s) && Enabled(s, a) && Apply(s, a) == Done(s')
    ensures AllJustified(s')
  {
    hide Core, ReadyInv, AllJustified, Enabled, WriteState, TakeState, DropState, AfterCreate, AfterGive;
    match a
    case Write => WriteJustified(s);
    case Give => GiveAll(s, s');
    case Take => TakeAll(s);
    case Drop(l) => DropAll(s, l, s');
    case Create(t, p) => CreateJustified(s, t, p);
    case _ => PlainAll(s, a, s');
  }

  /** A step keeps every priority justified exactly when it is modest. */
  lemma JustifiedExact(s: State, a: Action, s': State)
    requires Inv(s) && AllJustified(s) && Enabled(s, a) && Apply(s, a) == Done(s')
    ensures AllJustified(s') <==> Modest(s, a)
  {
    hide Core, ReadyInv, AllJustified, Enabled, AfterSetPriority;
    if a.SetPriority? { SetPriorityExact(s, a.priority); } else { KeepsJustified(s, a, s'); }
  }

  // ---- the base priority, and threads without locks

  /** The priorities that threads have asked for, after one more step. */
  function Asking(d: map<Tid, int>, s: State, a: Action): map<Tid, int> {
    match a
    case SetPriority(p) => d[s.current := p]
    case Create(t, p) => d[t := p]
    case _ => d
  }

  /** Each thread has the base priority that it asked for, and no more without a lock. */
  ghost predicate Granted(s: State, d: map<Tid, int>) {
    && d.Keys == s.threads.Keys
    && forall t :: t in s.threads ==> s.threads[t].base == d[t] && Unlent(s.threads[t])
  }

  lemma OthersGranted(s: State, d: map<Tid, int>, s': State, t: Tid, p: int)
    requires Granted(s, d) && Others(s, s', t) && t in s'.threads && s'.threads[t].base == p && Unlent(s'.threads[t])
    ensures Granted(s', d[t := p])
  {
  }

  lemma CalmGranted(s: State, d: map<Tid, int>, s': State)
    requires Granted(s, d) && Calm(s, s')
    ensures Granted(s', d)
  {
  }

  lemma HandedGranted(s: State, d: map<Tid, int>, h: Tid, s': State)
    requires Granted(s, d) && Handed(s, h, s')
    ensures Granted(s', d)
  {
    EffectiveJustified(s', s'.threads[h]);
  }

  lemma TakeGranted(s: State, d: map<Tid, int>)
    requires Granted(s, d) && Enabled(s, Take)
    ensures Granted(TakeState(s), d)
  {
    InsertedMembers(Cur(s).held, Cur(s).pc.lock, TakeRank(s));
    assert Cur(s).pc.lock in Cur(TakeState(s)).held;
  }

  lemma WriteGranted(s: State, d: map<Tid, int>)
    requires Granted(s, d) && Enabled(s, Write)
    ensures Granted(WriteState(s), d)
  {
  }

  lemma DropGranted(s: State, d: map<Tid, int>, l: Lid, s': State)
    requires Inv(s) && Granted(s, d) && Enabled(s, Drop(l)) && Apply(s, Drop(l)) == Done(s')
    ensures Granted(s', d)
  {
    hide Core, ReadyInv, DropState;
    ReleaseGivesBack(s, l, s');
    DropJustified(s, l, s');
    OthersGranted(s, d, s', s.current, d[s.current]);
    assert d[s.current := d[s.current]] == d;
  }

  lemma GiveGranted(s: State, d: map<Tid, int>, s': State)
    requires Inv(s) && Granted(s, d) && Enabled(s, Give) && Apply(s, Give) == Done(s')
    ensures Granted(s', d)
  {
    hide ThreadInv, OwnerInv, QueueInv, HolderHolds, AllCovered, ReadyInv, GiveState, Granted, Handed;
    CoreRefs(s);
    var h := s.locks[Cur(s).pc.at].holder.value;
    GiveHands(s, h);
    HandedGranted(s, d, h, s');
  }

  lemma PlainGranted(s: State, d: map<Tid, int>, a: Action, s': State)
    requires Plain(a) && Inv(s) && Granted(s, d) && Enabled(s, a) && Apply(s, a) == Done(s')
    ensures Granted(s', d)
  {
    hide Core, ReadyInv, Calm, Granted, Apply, Enabled;
    PlainCalm(s, a, s');
    CalmGranted(s, d, s');
  }

  lemma StepGranted(s: State, d: map<Tid, int>, a: Action, s': State)
    requires Inv(s) && Granted(s, d) && Enabled(s, a) && Apply(s, a) == Done(s')
    ensures Granted(s', Asking(d, s, a))
  {
    hide Core, ReadyInv, Granted, Enabled, Others;
    hide WriteState, TakeState, DropState, AfterSetPriority, AfterCreate, AfterGive;
    match a
    case Write => WriteGranted(s, d);
    case Give => GiveGranted(s, d, s');
    case Take => TakeGranted(s, d);
    case Drop(l) => DropGranted(s, d, l, s');
    case SetPriority(p) => SetPriorityOthers(s, p); OthersGranted(s, d, s', s.current, p);
    case Create(t, p) => CreateOthers(s, t, p); OthersGranted(s, d, s', t, p);
    case _ => PlainGranted(s, d, a, s');
  }

  // ---- runs

  /** The priority that each thread has asked for last, when it was created or since. */
  ghost function Asked(s: State, actions: seq<Action>): map<Tid, int>
    requires Inv(s) && Run(s, actions).Some?
    decreases |actions|
  {
    if actions == [] then map t | t in s.threads :: s.threads[t].base
    else
      var n := |actions| - 1;
      Asking(Asked(s, actions[..n]), Run(s, actions[..n]).value, actions[n])
  }

  lemma BootedPriorities(s: State)
    requires Booted(s)
    ensures AllJustified(s) && Granted(s, map t | t in s.threads :: s.threads[t].base)
  {
  }

  lemma {:induction false} RunGranted(s: State, actions: seq<Action>)
    requires Booted(s) && Inv(s) && Run(s, actions).Some?
    ensures Granted(Run(s, actions).value, Asked(s, actions))
    decreases |actions|
  {
    hide Inv, Booted, Granted, Apply, Enabled, Asking;
    if actions == [] {
      BootedPriorities(s);
    } else {
      var n := |actions| - 1;
      RunGranted(s, actions[..n]);
      StepGranted(Run(s, actions[..n]).value, Asked(s, actions[..n]), actions[n], Run(s, actions).value);
    }
  }

  /** In every run from boot a thread that holds no lock has exactly the priority that it last asked
      for: every donation has been given back. */
  lemma EverythingGivenBack(s: State, actions: seq<Action>, t: Tid)
    requires Booted(s) && Inv(s) && Run(s, actions).Some?
    requires t in Run(s, actions).value.threads && Run(s, actions).value.threads[t].held == []
    ensures t in Asked(s, actions) && Run(s, actions).value.threads[t].priority == Asked(s, actions)[t]
  {
    hide Booted, ThreadInv, OwnerInv, QueueInv, HolderHolds, ReadyInv;
    RunGranted(s, actions);
    assert Covered(Run(s, actions).value, Run(s, actions).value.threads[t]);
  }

  /** At every point of the run every priority is justified. */
  ghost predicate JustifiedRun(s: State, actions: seq<Action>)
    requires Inv(s) && Run(s, actions).Some?
    decreases |actions|
  {
    AllJustified(Run(s, actions).value) && (actions != [] ==> JustifiedRun(s, actions[..|actions| - 1]))
  }

  /** Every step of the run is modest. */
  ghost predicate ModestRun(s: State, actions: seq<Action>)
    requires Inv(s) && Run(s, actions).Some?
    decreases |actions|
  {
    actions != [] ==>
      var n := |actions| - 1;
      Modest(Run(s, actions[..n]).value, actions[n]) && ModestRun(s, actions[..n])
  }

  /** In every run from boot no thread is above its base priority and the donations to its locks, at
      any point, exactly when every call of `thread_set_priority` is modest. */
  lemma {:induction false} RunJustifiedExact(s: State, actions: seq<Action>)
    requires Booted(s) && Inv(s) && Run(s, actions).Some?
    ensures JustifiedRun(s, actions) <==> ModestRun(s, actions)
    decreases |actions|
  {
    hide Inv, Booted, AllJustified, Apply, Enabled, Modest;
    if actions == [] {
      BootedPriorities(s);
    } else {
      var n := |actions| - 1;
      RunJustifiedExact(s, actions[..n]);
      if JustifiedRun(s, actions[..n]) {
        RunJustifiedLast(s, actions[..n]);
        JustifiedExact(Run(s, actions[..n]).value, actions[n], Run(s, actions).value);
      }
    }
  }

  lemma RunJustifiedLast(s: State, actions: seq<Action>)
    requires Inv(s) && Run(s, actions).Some? && JustifiedRun(s, actions)
    ensures AllJustified(Run(s, actions).value)
  {
  }

  /** In every such run the priority of a thread with no donation on the way to it is exactly the
      largest of the priority that it last asked for and the donations to the locks that it holds. */
  lemma RunEffective(s: State, actions: seq<Action>, t: Tid)
    requires Booted(s) && Inv(s) && Run(s, actions).Some? && ModestRun(s, actions)
    requires t in Run(s, actions).value.threads
    requires forall l :: l in Run(s, actions).value.threads[t].held ==> !InFlight(Run(s, actions).value, l)
    ensures var r := Run(s, actions).value;
      t in Asked(s, actions) && r.threads[t].base == Asked(s, actions)[t] && IsEffective(r.threads[t].priority, r.threads[t], r.locks)
  {
    hide Booted, OwnerInv, QueueInv, HolderHolds, ReadyInv, InFlight;
    var r := Run(s, actions).value;
    RunGranted(s, actions);
    RunJustifiedExact(s, actions);
    assert ThreadOk(r.threads[t], r.locks, t == r.idle);
    assert Covered(r, r.threads[t]) && Justified(r, r.threads[t]);
    BoundsMeet(r, r.threads[t]);
  }

  lemma BoundsMeet(s: State, th: Thread)
    requires Covered(s, th) && Justified(s, th) && forall l :: l in th.held ==> l in s.locks && !InFlight(s, l)
    ensures IsEffective(th.priority, th, s.locks)
  {
    hide InFlight;
    if th.priority > th.base {
      var l :| Lends(s, th, l);
      assert th.priority == LockRank(s.locks)(l);
    }
  }
}
