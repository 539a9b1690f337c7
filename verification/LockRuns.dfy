/** What holds in every run of the lock routines and the scheduler. */
module LockRuns {
  import opened Wrappers
  import opened Kernel
  import opened Donation
  import opened Locks

  ghost predicate Inv(s: State) { Core(s) && ReadyInv(s) }

  // ---- every step keeps the invariant

  lemma YieldKeeps(s: State)
    requires Inv(s)
    ensures Inv(Yield(s))
  {
    YieldStatusOnly(s);
    StatusOnlyCore(s, Yield(s));
    YieldKeepsReady(s);
  }

  lemma BlockKeeps(s: State)
    requires ReadyInv(s) && Core(Stopped(s))
    ensures Inv(Block(s))
  {
    BlockStatusOnly(s);
    StatusOnlyCore(Stopped(s), Block(s));
    BlockKeepsReady(s);
  }

  lemma WalkReady(s: State, pc: Pc, waits: Option<Lid>)
    requires ReadyInv(s)
    ensures ReadyInv(Walked(s, pc, waits))
  {
    ReadyFrame(s, Walked(s, pc, waits));
  }

  /** The steps of lock_acquire up to and including its loop. */
  predicate Walks(a: Action) { a.Look? || a.Note? || a.Test? || a.Write? || a.Give? || a.Follow? }

  lemma WalkKeeps(s: State, a: Action, s': State)
    requires Walks(a) && Inv(s) && Enabled(s, a) && Apply(s, a) == Done(s')
    ensures Inv(s')
  {
    match a
    case Look(l) => LookKeeps(s, l);
    case Note => NoteKeeps(s);
    case Test => TestKeeps(s);
    case Write => WriteKeeps(s);
    case Give => CoreRefs(s); GiveKeeps(s, s.locks[Cur(s).pc.at].holder.value);
    case Follow => CoreRefs(s); FollowKeeps(s, s.locks[Cur(s).pc.at].holder.value);
  }

  lemma LookKeeps(s: State, l: Lid)
    requires Inv(s) && Enabled(s, Look(l))
    ensures Inv(LookState(s, l))
  {
    LookCore(s, l);
    WalkReady(s, if s.locks[l].holder == None then Wanting(l) else Noting(l), Cur(s).waits);
  }

  lemma NoteKeeps(s: State)
    requires Inv(s) && Enabled(s, Note)
    ensures Inv(NoteState(s))
  {
    NoteCore(s);
    WalkReady(s, Testing(Cur(s).pc.lock, Cur(s).pc.lock), Some(Cur(s).pc.lock));
  }

  lemma TestKeeps(s: State)
    requires Inv(s) && Enabled(s, Test)
    ensures Inv(TestState(s))
  {
    TestCore(s);
    ReadyFrame(s, TestState(s));
  }

  lemma WriteKeeps(s: State)
    requires Inv(s) && Enabled(s, Write)
    ensures Inv(WriteState(s))
  {
    WriteCore(s);
    ReadyFrame(s, WriteState(s));
  }

  lemma GiveKeeps(s: State, h: Tid)
    requires Inv(s) && Enabled(s, Give) && s.locks[Cur(s).pc.at].holder == Some(h) && h in s.threads && h != s.idle
    ensures Inv(GiveState(s, h))
  {
    GiveCore(s, h);
    GiveKeepsReady(s, h);
    WalkReady(DonateTo(s, h), Following(Cur(s).pc.lock, Cur(s).pc.at), Cur(s).waits);
  }

  lemma FollowKeeps(s: State, h: Tid)
    requires Inv(s) && Enabled(s, Follow) && h in s.threads
    ensures Inv(FollowState(s, h))
  {
    FollowCore(s, h);
    ReadyFrame(s, FollowState(s, h));
  }

  lemma AcquireKeeps(s: State, a: Action, s': State)
    requires a.Queue? || a.Pass? || a.Take?
    requires Inv(s) && Enabled(s, a) && Apply(s, a) == Done(s')
    ensures Inv(s')
  {
    match a
    case Queue => QueueKeeps(s);
    case Pass => PassCore(s); PassReady(s);
    case Take => TakeCore(s); TakeReady(s);
  }

  lemma PassReady(s: State)
    requires ReadyInv(s) && Enabled(s, Pass)
    ensures ReadyInv(PassState(s))
  {
    ReadyFrame(s, PassState(s));
  }

  lemma TakeReady(s: State)
    requires ReadyInv(s) && Enabled(s, Take)
    ensures ReadyInv(TakeState(s))
  {
    ReadyFrame(s, TakeState(s));
  }

  lemma QueueReady(s: State)
    requires ReadyInv(s) && Enabled(s, Queue)
    ensures ReadyInv(QueueState(s))
  {
    ReadyFrame(s, QueueState(s));
  }

  lemma QueueKeeps(s: State)
    requires Inv(s) && Enabled(s, Queue)
    ensures Inv(AfterQueue(s))
  {
    QueueCore(s);
    QueueReady(s);
    BlockKeeps(QueueState(s));
  }

  lemma ReleaseKeeps(s: State, a: Action, s': State)
    requires a.Drop? || a.Clear? || a.Up?
    requires Inv(s) && Enabled(s, a) && Apply(s, a) == Done(s')
    ensures Inv(s')
  {
    match a
    case Drop(l) => DropCore(s, l); DropReady(s, l);
    case Clear => ClearCore(s); ClearReady(s);
    case Up => UpKeeps(s);
  }

  lemma ClearReady(s: State)
    requires ReadyInv(s) && Enabled(s, Clear)
    ensures ReadyInv(ClearState(s))
  {
    ReadyFrame(s, ClearState(s));
  }

  lemma DropReady(s: State, l: Lid)
    requires ReadyInv(s) && Enabled(s, Drop(l))
    ensures ReadyInv(DropState(s, l))
  {
    ReadyFrame(s, DropState(s, l));
  }

  lemma SchedulerKeeps(s: State, a: Action, s': State)
    requires a.Preempt? || a.GoToSleep? || a.WakeUp? || a.IdleBlocks?
    requires Inv(s) && Enabled(s, a) && Apply(s, a) == Done(s')
    ensures Inv(s')
  {
    hide ThreadInv, OwnerInv, QueueInv, HolderHolds, AllCovered, ReadyList;
    match a
    case Preempt => YieldKeeps(s);
    case GoToSleep => GoToSleepCore(s); BlockKeeps(Drowsy(s));
    case WakeUp(t) => WakeUpCore(s, t);
    case IdleBlocks => IdleBlocksKeeps(s);
  }

  lemma SetPriorityKeeps(s: State, p: int)
    requires Inv(s) && Enabled(s, SetPriority(p))
    ensures Inv(AfterSetPriority(s, p))
  {
    SetPriorityCore(s, p);
    SetPriorityReady(s, p);
    YieldKeeps(WithPriority(s, p));
  }

  lemma CreateKeeps(s: State, t: Tid, p: int)
    requires Inv(s) && Enabled(s, Create(t, p))
    ensures Inv(AfterCreate(s, t, p))
  {
    CreateCore(s, t, p);
    YieldKeeps(Unblock(Born(s, t, p), t));
  }

  /** Every step keeps the invariant. */
  lemma StepKeeps(s: State, a: Action, s': State)
    requires Inv(s) && Enabled(s, a) && Apply(s, a) == Done(s')
    ensures Inv(s')
  {
    hide Core, ReadyInv, Enabled, AfterSetPriority, AfterCreate;
    match a
    case Queue => AcquireKeeps(s, a, s');
    case Pass => AcquireKeeps(s, a, s');
    case Take => AcquireKeeps(s, a, s');
    case Drop(_) => ReleaseKeeps(s, a, s');
    case Clear => ReleaseKeeps(s, a, s');
    case Up => ReleaseKeeps(s, a, s');
    case SetPriority(p) => SetPriorityKeeps(s, p);
    case Create(t, p) => CreateKeeps(s, t, p);
    case Preempt => SchedulerKeeps(s, a, s');
    case GoToSleep => SchedulerKeeps(s, a, s');
    case WakeUp(_) => SchedulerKeeps(s, a, s');
    case IdleBlocks => SchedulerKeeps(s, a, s');
    case _ => WalkKeeps(s, a, s');
  }

  lemma UpKeeps(s: State)
    requires Inv(s) && Enabled(s, Up)
    ensures forall t :: t in s.locks[Cur(s).pc.lock].waiters ==> t in s.threads
    ensures Inv(UpState(s)) && Inv(Yield(UpState(s)))
  {
    assert ThreadOk(s.threads[s.idle], s.locks, true);
    UpReady(s);
    var w := UpWakes(s);
    WokenCore(s, UpState(s), Cur(s).pc.lock, w);
    YieldKeeps(UpState(s));
  }

  lemma IdleBlocksKeeps(s: State)
    requires Inv(s) && s.current == s.idle
    ensures Inv(Block(s))
  {
    assert ThreadOk(s.threads[s.idle], s.locks, true);
    assert Covered(s, s.threads[s.idle]);
    OutsiderCore(s, Stopped(s), s.idle);
    BlockKeeps(s);
  }

  // ---- runs

  /** A kernel that has just started: no lock is taken, nobody waits or sleeps. */
  ghost predicate Booted(s: State) {
    && ReadyInv(s)
    && (forall t :: t in s.threads ==>
      && s.threads[t].pc == Outside && s.threads[t].held == [] && s.threads[t].waits == None
      && s.threads[t].priority == s.threads[t].base && (s.threads[t].status == Blocked ==> t == s.idle))
    && (forall l :: l in s.locks ==> s.locks[l].holder == None && s.locks[l].value == 1 && s.locks[l].waiters == [])
  }

  lemma BootedInv(s: State)
    requires Booted(s)
    ensures Inv(s)
  {
    assert forall t: Tid, l: Lid :: !Owns(s, t, l) && !Holds(s, t, l) && !Asleep(s, t, l);
    assert forall t :: t in s.threads ==> ThreadOk(s.threads[t], s.locks, t == s.idle) && Covered(s, s.threads[t]);
  }

  /** The state after a sequence of actions, if each was enabled in its turn and none faulted. */
  ghost function Run(s: State, actions: seq<Action>): (r: Option<State>)
    requires Inv(s)
    ensures r.Some? ==> Inv(r.value)
  {
    if actions == [] then Some(s)
    else
      var n := |actions| - 1;
      match Run(s, actions[..n])
      case None => None
      case Some(m) =>
        if !Enabled(m, actions[n]) then None
        else match Apply(m, actions[n])
          case Fault => None
          case Done(s') => StepKeeps(m, actions[n], s'); Some(s')
  }

  /** Mutual exclusion in every run: at most one thread is between taking and giving up a lock. */
  lemma MutualExclusion(s: State, actions: seq<Action>, l: Lid, t: Tid, u: Tid)
    requires Inv(s) && Run(s, actions).Some? && l in Run(s, actions).value.locks
    requires Owns(Run(s, actions).value, t, l) && Owns(Run(s, actions).value, u, l)
    ensures t == u
  {
  }

  /** No lost wake-up in any run: if threads are queued for a lock, some thread owns it or some
      thread that is awake contends for it. */
  lemma NoLostWakeup(s: State, actions: seq<Action>, l: Lid)
    requires Inv(s) && Run(s, actions).Some? && l in Run(s, actions).value.locks
    requires Run(s, actions).value.locks[l].waiters != []
    ensures exists t :: Owns(Run(s, actions).value, t, l) || Contends(Run(s, actions).value, t, l)
  {
    var r := Run(s, actions).value;
    if r.locks[l].value == 0 {
      var t :| Owns(r, t, l);
    } else {
      var t :| Contends(r, t, l);
    }
  }
}
