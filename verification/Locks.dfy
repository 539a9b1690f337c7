/** Every step of the lock routines and the scheduler, and what all runs keep. */
module Locks {
  import opened Wrappers
  import opened Order
  import opened Kernel
  import opened Donation

  /** What the running thread, or the timer interrupt, does next. */
  datatype Action =
    | Look(lock: Lid)           // lock_acquire: is there a holder?
    | Note                      // lock_acquire: note the lock as the one waited for
    | Test                      // the loop of lock_acquire: is my priority higher than the lock's?
    | Write                     // the loop: store my priority in the lock
    | Give                      // the loop: donate to the holder
    | Follow                    // the loop: go on to the lock that the holder waits for
    | Queue                     // sema_down with value 0: queue and block
    | Pass                      // sema_down with value > 0: decrement
    | Take                      // the rest of lock_acquire: become the holder
    | Drop(lock: Lid)           // lock_release: off the list, give donations back
    | Clear                     // lock_release: no holder
    | Up                        // sema_up: wake the first waiter, increment, yield
    | SetPriority(priority: int)
    | Preempt                   // the time slice is over
    | GoToSleep                 // timer_sleep
    | WakeUp(thread: Tid)       // check_blocked in the timer interrupt
    | Create(thread: Tid, priority: int)
    | IdleBlocks                // the idle loop

  function Cur(s: State): Thread
    requires s.current in s.threads
  {
    s.threads[s.current]
  }

  function SetCur(s: State, th: Thread): State {
    s.(threads := s.threads[s.current := th])
  }

  function SetLock(s: State, l: Lid, lock: Lock): State {
    s.(locks := s.locks[l := lock])
  }

  /** What the caller of each routine owes, and which routine the thread is in. */
  predicate Enabled(s: State, a: Action) {
    && s.current in s.threads && s.idle in s.threads
    && (a.IdleBlocks? || a.Preempt? || a.WakeUp? || s.current != s.idle)
    && match a
       case Look(l) => Cur(s).pc == Outside && l in s.locks && s.locks[l].holder != Some(s.current)
       case Note => Cur(s).pc.Noting?
       case Test => Cur(s).pc.Testing? && Cur(s).pc.at in s.locks
       case Write => Cur(s).pc.Writing? && Cur(s).pc.at in s.locks
       case Give => Cur(s).pc.Giving? && Cur(s).pc.at in s.locks
       case Follow => Cur(s).pc.Following? && Cur(s).pc.at in s.locks
       case Queue => Cur(s).pc.Wanting? && Cur(s).pc.lock in s.locks && s.locks[Cur(s).pc.lock].value == 0
       case Pass => Cur(s).pc.Wanting? && Cur(s).pc.lock in s.locks && s.locks[Cur(s).pc.lock].value > 0
       case Take => Cur(s).pc.Won? && Cur(s).pc.lock in s.locks
       case Drop(l) => Cur(s).pc == Outside && l in s.locks && s.locks[l].holder == Some(s.current)
       case Clear => Cur(s).pc.Dropping? && Cur(s).pc.lock in s.locks
       case Up => Cur(s).pc.Cleared? && Cur(s).pc.lock in s.locks
       case SetPriority(_) => Cur(s).pc == Outside
       case Preempt => true
       case GoToSleep => Cur(s).pc == Outside
       case WakeUp(t) => t in s.threads && s.threads[t].pc == Sleeping && s.threads[t].status == Blocked
       case Create(t, _) => t !in s.threads && Cur(s).pc == Outside
       case IdleBlocks => s.current == s.idle
  }

  /** The running thread at another point of lock_acquire. */
  function Walked(s: State, pc: Pc, waits: Option<Lid>): State
    requires s.current in s.threads
  {
    SetCur(s, Cur(s).(pc := pc, waits := waits))
  }

  function LookState(s: State, l: Lid): State
    requires Enabled(s, Look(l))
  {
    Walked(s, if s.locks[l].holder == None then Wanting(l) else Noting(l), Cur(s).waits)
  }

  function NoteState(s: State): State
    requires Enabled(s, Note)
  {
    var l := Cur(s).pc.lock;
    Walked(s, Testing(l, l), Some(l))
  }

  function TestState(s: State): State
    requires Enabled(s, Test)
  {
    var l, at := Cur(s).pc.lock, Cur(s).pc.at;
    Walked(s, if Cur(s).priority > s.locks[at].maxPriority then Writing(l, at) else Wanting(l), Cur(s).waits)
  }

  function WriteState(s: State): State
    requires Enabled(s, Write)
  {
    var l, at := Cur(s).pc.lock, Cur(s).pc.at;
    Lifted(Walked(s, Giving(l, at), Cur(s).waits), at, Cur(s).priority)
  }

  function GiveState(s: State, h: Tid): State
    requires Enabled(s, Give) && h in s.threads
  {
    var s' := DonateTo(s, h);
    Walked(s', Following(Cur(s).pc.lock, Cur(s).pc.at), Cur(s).waits)
  }

  function FollowState(s: State, h: Tid): State
    requires Enabled(s, Follow) && h in s.threads
  {
    var l := Cur(s).pc.lock;
    Walked(s, match s.threads[h].waits case None => Wanting(l) case Some(k) => Testing(l, k), Cur(s).waits)
  }

  function QueueState(s: State): State
    requires s.current in s.threads && Cur(s).pc.Wanting? && Cur(s).pc.lock in s.locks
  {
    var l := Cur(s).pc.lock;
    SetLock(s, l, s.locks[l].(waiters := InsertOrdered(s.locks[l].waiters, s.current, Rank(s.threads), Greater)))
  }

  /** Queued and stopped: the state in which the waiting thread calls `schedule`. */
  function Queued(s: State): State
    requires Enabled(s, Queue)
  {
    Stopped(QueueState(s))
  }

  function PassState(s: State): State
    requires Enabled(s, Pass)
  {
    var l := Cur(s).pc.lock;
    SetCur(SetLock(s, l, s.locks[l].(value := s.locks[l].value - 1)), Cur(s).(pc := Won(l)))
  }

  function TakeState(s: State): State
    requires Enabled(s, Take)
  {
    var l := Cur(s).pc.lock;
    var L := s.locks[l := s.locks[l].(maxPriority := Cur(s).priority)];
    SetCur(SetLock(s, l, L[l].(holder := Some(s.current))),
           Cur(s).(waits := None, pc := Outside, held := InsertOrdered(Cur(s).held, l, LockRank(L), Greater)))
  }

  /** The ranks by which `thread_hold_lock` inserts the lock that is being taken. */
  function TakeRank(s: State): Lid -> int
    requires Enabled(s, Take)
  {
    var l := Cur(s).pc.lock;
    LockRank(s.locks[l := s.locks[l].(maxPriority := Cur(s).priority)])
  }

  function DropState(s: State, l: Lid): State
    requires Enabled(s, Drop(l))
  {
    SetCur(s, Updated(Cur(s).(held := Without(Cur(s).held, l), pc := Dropping(l)), s.locks))
  }

  function ClearState(s: State): State
    requires Enabled(s, Clear)
  {
    var l := Cur(s).pc.lock;
    SetCur(SetLock(s, l, s.locks[l].(holder := None)), Cur(s).(pc := Cleared(l)))
  }

  /** Take the front thread off the sorted queue `q` of lock `l` and make it ready. */
  function WakeFront(s: State, l: Lid, q: seq<Tid>): State
    requires s.current in s.threads && l in s.locks && (q != [] ==> q[0] in s.threads)
  {
    if q == [] then Popped(s, l, q) else Unblock(Popped(s, l, q), q[0])
  }

  function Popped(s: State, l: Lid, q: seq<Tid>): State
    requires s.current in s.threads && l in s.locks
  {
    var lock := s.locks[l];
    SetCur(SetLock(s, l, lock.(value := lock.value + 1, waiters := if q == [] then [] else q[1..])), Cur(s).(pc := Outside))
  }

  /** `sema_up` before it yields: sort the waiters and wake the front one. */
  function UpState(s: State): State
    requires Enabled(s, Up)
    requires forall t :: t in s.locks[Cur(s).pc.lock].waiters ==> t in s.threads
  {
    var l := Cur(s).pc.lock;
    SortedWaiters(s.locks[l].waiters, s.threads);
    WakeFront(s, l, StableSort(s.locks[l].waiters, Rank(s.threads), Greater))
  }

  lemma SortedWaiters(waiters: seq<Tid>, T: map<Tid, Thread>)
    ensures var w := StableSort(waiters, Rank(T), Greater);
      && |w| == |waiters|
      && (forall t :: t in w <==> t in waiters)
      && (Distinct(waiters) ==> Distinct(w))
      && (w != [] ==> w[0] in waiters && forall t :: t in waiters ==> Rank(T)(t) <= Rank(T)(w[0]))
  {
    var w := StableSort(waiters, Rank(T), Greater);
    PriorityOrder();
    SortSorts(waiters, Rank(T), Greater);
    SameMembers(waiters, w);
    assert |w| == |multiset(w)| == |multiset(waiters)| == |waiters|;
    if w != [] {
      assert w[0] in w;
      forall t | t in waiters
        ensures Rank(T)(t) <= Rank(T)(w[0])
      {
        var i :| 0 <= i < |w| && w[i] == t;
        assert i == 0 || !Greater(Rank(T)(w[i]), Rank(T)(w[0]));
      }
    }
  }

  function Drowsy(s: State): State
    requires s.current in s.threads
  {
    SetCur(s, Cur(s).(pc := Sleeping))
  }

  function Awakened(s: State, t: Tid): State
    requires t in s.threads
  {
    s.(threads := s.threads[t := s.threads[t].(pc := Outside)])
  }

  function Born(s: State, t: Tid, p: int): State {
    s.(threads := s.threads[t := Thread(Blocked, p, p, [], None, Outside)])
  }

  /** The loop reads the holder of a lock without a check. */
  function AfterGive(s: State): Outcome
    requires Core(s) && ReadyInv(s) && Enabled(s, Give)
  {
    match s.locks[Cur(s).pc.at].holder
    case None => Fault
    case Some(h) => CoreRefs(s); Done(GiveState(s, h))
  }

  function AfterFollow(s: State): Outcome
    requires Core(s) && ReadyInv(s) && Enabled(s, Follow)
  {
    match s.locks[Cur(s).pc.at].holder
    case None => Fault
    case Some(h) => CoreRefs(s); Done(FollowState(s, h))
  }

  function AfterQueue(s: State): State
    requires ReadyInv(s) && Enabled(s, Queue)
  {
    if s.ready == [] then Block(QueueState(s))
    else assert s.ready[0] in s.ready; Block(QueueState(s))
  }

  function AfterUp(s: State): State
    requires QueueInv(s) && ThreadInv(s) && ReadyInv(s) && Enabled(s, Up)
  {
    assert ThreadOk(s.threads[s.idle], s.locks, true);
    UpReady(s);
    Yield(UpState(s))
  }

  function AfterSetPriority(s: State, p: int): State
    requires ReadyInv(s) && Enabled(s, SetPriority(p))
  {
    SetPriorityReady(s, p);
    if Cur(s).held == [] || p > Cur(s).priority then Yield(WithPriority(s, p)) else WithPriority(s, p)
  }

  function AfterPreempt(s: State): State
    requires ReadyInv(s)
  {
    Yield(s)
  }

  function AfterWakeUp(s: State, t: Tid): State
    requires Enabled(s, WakeUp(t))
  {
    Unblock(Awakened(s, t), t)
  }

  function AfterGoToSleep(s: State): State
    requires ReadyInv(s) && Enabled(s, GoToSleep)
  {
    if s.ready == [] then Block(Drowsy(s))
    else assert s.ready[0] in s.ready; Block(Drowsy(s))
  }

  function AfterCreate(s: State, t: Tid, p: int): State
    requires ReadyInv(s) && Enabled(s, Create(t, p))
  {
    BornReady(s, t, p);
    if Cur(s).priority < p then Yield(Unblock(Born(s, t, p), t)) else Unblock(Born(s, t, p), t)
  }

  function AfterIdleBlocks(s: State): State
    requires ReadyInv(s)
  {
    if s.ready == [] then Block(s)
    else assert s.ready[0] in s.ready; Block(s)
  }

  /** The state after action `a`; a donation that runs into a lock without holder has none. */
  function Apply(s: State, a: Action): Outcome
    requires Core(s) && ReadyInv(s) && Enabled(s, a)
  {
    match a
    case Look(l) => Done(LookState(s, l))
    case Note => Done(NoteState(s))
    case Test => Done(TestState(s))
    case Write => Done(WriteState(s))
    case Give => AfterGive(s)
    case Follow => AfterFollow(s)
    case Queue => Done(AfterQueue(s))
    case Pass => Done(PassState(s))
    case Take => Done(TakeState(s))
    case Drop(l) => Done(DropState(s, l))
    case Clear => Done(ClearState(s))
    case Up => Done(AfterUp(s))
    case SetPriority(p) => Done(AfterSetPriority(s, p))
    case Preempt => Done(AfterPreempt(s))
    case GoToSleep => Done(AfterGoToSleep(s))
    case WakeUp(t) => Done(AfterWakeUp(s, t))
    case Create(t, p) => Done(AfterCreate(s, t, p))
    case IdleBlocks => Done(AfterIdleBlocks(s))
  }

  // ---- the invariant

  /** Thread `t` has the semaphore of lock `l` down. */
  ghost predicate Owns(s: State, t: Tid, l: Lid) {
    && t in s.threads
    && (l in s.threads[t].held || s.threads[t].pc == Won(l) || s.threads[t].pc == Dropping(l) || s.threads[t].pc == Cleared(l))
  }

  predicate InLockRoutine(pc: Pc) { pc != Outside && pc != Sleeping }

  /** Between getting the semaphore down and up, but not with the lock on the list. */
  predicate Owning(pc: Pc) { pc.Won? || pc.Dropping? || pc.Cleared? }

  ghost predicate ThreadOk(th: Thread, L: map<Lid, Lock>, idle: bool) {
    && Distinct(th.held)
    && (forall l :: l in th.held ==> l in L)
    && (InLockRoutine(th.pc) ==> th.pc.lock in L && (Owning(th.pc) ==> th.pc.lock !in th.held))
    && (InLoop(th.pc) ==> th.waits == Some(th.pc.lock) && th.pc.at in L)
    && (th.waits.Some? ==> InLoop(th.pc) || th.pc == Wanting(th.waits.value) || th.pc == Won(th.waits.value))
    && (th.status == Blocked ==> idle || th.pc.Wanting? || th.pc.Sleeping?)
    && (idle ==> th.pc == Outside && forall l :: l !in th.held)
  }

  ghost predicate ThreadInv(s: State) {
    forall t :: t in s.threads ==> ThreadOk(s.threads[t], s.locks, t == s.idle)
  }

  /** Mutual exclusion: the semaphore is up or exactly one thread owns the lock. */
  ghost predicate OwnerInv(s: State) {
    forall l :: l in s.locks ==>
      && s.locks[l].value <= 1
      && (forall t :: Owns(s, t, l) ==> s.locks[l].value == 0)
      && (forall t, u :: Owns(s, t, l) && Owns(s, u, l) ==> t == u)
      && (s.locks[l].value == 0 ==> exists t :: Owns(s, t, l))
  }

  /** `t` contends for `l` and will look at the semaphore when it runs. */
  ghost predicate Contends(s: State, t: Tid, l: Lid) {
    t in s.threads && s.threads[t].pc == Wanting(l) && s.threads[t].status != Blocked
  }

  ghost predicate Asleep(s: State, t: Tid, l: Lid) {
    t in s.threads && s.threads[t].pc == Wanting(l) && s.threads[t].status == Blocked
  }

  /** The queue holds exactly the blocked contenders, and no wake-up is lost: when the semaphore
      is up and threads are queued, one that is awake is on its way to it. */
  ghost predicate QueueInv(s: State) {
    forall l :: l in s.locks ==>
      && Distinct(s.locks[l].waiters)
      && (forall t :: t in s.locks[l].waiters <==> Asleep(s, t, l))
      && (s.locks[l].waiters != [] && s.locks[l].value > 0 ==> exists t :: Contends(s, t, l))
  }

  predicate Gives(pc: Pc, l: Lid) { pc.Giving? && pc.at == l }

  /** Some thread has stored its priority in lock `l` and has yet to donate to the holder. */
  ghost predicate InFlight(s: State, l: Lid) {
    exists d: Tid :: d in s.threads && Gives(s.threads[d].pc, l)
  }

  /** A priority covers the base priority and every donation to a held lock that is not in flight. */
  ghost predicate Covered(s: State, th: Thread) {
    && th.priority >= th.base
    && (forall l :: l in th.held && l in s.locks ==> s.locks[l].maxPriority <= th.priority || InFlight(s, l))
  }

  ghost predicate AllCovered(s: State) {
    forall t :: t in s.threads ==> Covered(s, s.threads[t])
  }

  ghost predicate Core(s: State) {
    && s.idle in s.threads
    && ThreadInv(s) && OwnerInv(s) && QueueInv(s) && HolderHolds(s) && AllCovered(s)
  }

  lemma CoreRefs(s: State)
    requires ThreadInv(s) && HolderHolds(s) && ReadyInv(s)
    ensures Refs(s)
    ensures forall l :: l in s.locks ==> s.locks[l].holder != Some(s.idle)
  {
    forall t | t in s.threads
      ensures s.threads[t].waits.Some? ==> s.threads[t].waits.value in s.locks
      ensures forall l :: l in s.threads[t].held ==> l in s.locks
    {
      assert ThreadOk(s.threads[t], s.locks, t == s.idle);
    }
    assert ThreadOk(s.threads[s.idle], s.locks, true);
    forall l | l in s.locks && s.locks[l].holder.Some?
      ensures s.locks[l].holder.value in s.threads && s.locks[l].holder.value != s.idle
    {
      assert Holds(s, s.locks[l].holder.value, l);
    }
  }

  // ---- frames

  lemma ReadyFrame(s: State, s': State)
    requires ReadyInv(s)
    requires s'.ready == s.ready && s'.current == s.current && s'.idle == s.idle
    requires s'.threads.Keys == s.threads.Keys
    requires forall t :: t in s.threads ==> s'.threads[t].status == s.threads[t].status
    requires forall t :: t in s.threads && t != s.current ==> s'.threads[t].priority == s.threads[t].priority
    ensures ReadyInv(s')
  {
    SortedAgain(s.ready, Rank(s.threads), Rank(s'.threads));
  }

  /** Whoever has a donation in flight still has it. */
  ghost predicate SameFlights(s: State, s': State) {
    forall d: Tid :: d in s.threads && s.threads[d].pc.Giving? ==> d in s'.threads && s'.threads[d].pc == s.threads[d].pc
  }

  lemma CoveredAgain(s: State, s': State, th: Thread)
    requires SameFlights(s, s') && Covered(s, th) && s'.locks.Keys == s.locks.Keys
    requires forall l :: l in s.locks ==> s'.locks[l].maxPriority == s.locks[l].maxPriority
    ensures Covered(s', th)
  {
    forall l | l in th.held && l in s'.locks && InFlight(s, l)
      ensures InFlight(s', l)
    {
      var d: Tid :| d in s.threads && Gives(s.threads[d].pc, l);
      assert Gives(s'.threads[d].pc, l);
    }
  }

  lemma CoverFrame(s: State, s': State)
    requires AllCovered(s) && SameFlights(s, s')
    requires s'.threads.Keys == s.threads.Keys && s'.locks.Keys == s.locks.Keys
    requires forall t :: t in s.threads ==>
      s'.threads[t].priority == s.threads[t].priority && s'.threads[t].base == s.threads[t].base && s'.threads[t].held == s.threads[t].held
    requires forall l :: l in s.locks ==> s'.locks[l].maxPriority == s.locks[l].maxPriority
    ensures AllCovered(s')
  {
    forall t | t in s'.threads
      ensures Covered(s', s'.threads[t])
    {
      CoveredAgain(s, s', s.threads[t]);
    }
  }

  lemma BornReady(s: State, t: Tid, p: int)
    requires ReadyInv(s) && t !in s.threads
    ensures ReadyInv(Unblock(Born(s, t, p), t))
  {
    assert t !in s.ready;
    SortedAgain(s.ready, Rank(s.threads), Rank(Born(s, t, p).threads));
    UnblockKeepsReady(Born(s, t, p), t);
  }

  lemma SetPriorityReady(s: State, p: int)
    requires ReadyInv(s)
    ensures ReadyInv(WithPriority(s, p))
  {
    ReadyFrame(s, WithPriority(s, p));
  }

  lemma UpReady(s: State)
    requires QueueInv(s) && ReadyInv(s) && Enabled(s, Up) && s.threads[s.idle].pc == Outside
    ensures forall t :: t in s.locks[Cur(s).pc.lock].waiters ==> t in s.threads
    ensures ReadyInv(UpState(s))
  {
    var l := Cur(s).pc.lock;
    forall t | t in s.locks[l].waiters
      ensures Asleep(s, t, l)
    {
    }
    SortedWaiters(s.locks[l].waiters, s.threads);
    WakeReady(s, l, StableSort(s.locks[l].waiters, Rank(s.threads), Greater));
  }

  lemma WakeReady(s: State, l: Lid, q: seq<Tid>)
    requires ReadyInv(s) && l in s.locks
    requires q != [] ==> q[0] in s.threads && s.threads[q[0]].status == Blocked && q[0] != s.idle
    ensures ReadyInv(WakeFront(s, l, q))
  {
    ReadyFrame(s, Popped(s, l, q));
    if q != [] {
      UnblockKeepsReady(Popped(s, l, q), q[0]);
    }
  }

  /** The same threads own the same locks, and the semaphores have the same values. */
  ghost predicate SameOwners(s: State, s': State) {
    && s'.locks.Keys == s.locks.Keys
    && (forall l :: l in s.locks ==> s'.locks[l].value == s.locks[l].value)
    && (forall t, l :: Owns(s, t, l) <==> Owns(s', t, l))
  }

  lemma OwnersKept(s: State, s': State)
    requires OwnerInv(s) && SameOwners(s, s')
    ensures OwnerInv(s')
  {
  }

  /** The same threads sleep in the same queues, and nobody has given up contending. */
  ghost predicate SameQueues(s: State, s': State) {
    && s'.locks.Keys == s.locks.Keys
    && (forall l :: l in s.locks ==> s'.locks[l].waiters == s.locks[l].waiters)
    && (forall t, l :: Asleep(s, t, l) <==> Asleep(s', t, l))
    && (forall t, l :: Contends(s, t, l) && l in s.locks ==> Contends(s', t, l) || s'.locks[l].value == 0)
  }

  lemma QueuesKept(s: State, s': State)
    requires QueueInv(s) && SameQueues(s, s')
    requires forall l :: l in s.locks ==> s'.locks[l].value <= s.locks[l].value
    ensures QueueInv(s')
  {
    forall l | l in s'.locks && s'.locks[l].waiters != [] && s'.locks[l].value > 0
      ensures exists t :: Contends(s', t, l)
    {
      var t :| Contends(s, t, l);
      assert Contends(s', t, l);
    }
  }

  /** The same threads hold the same locks, and the holder fields agree. */
  ghost predicate SameHolding(s: State, s': State) {
    && s'.locks.Keys == s.locks.Keys
    && (forall l :: l in s.locks ==> s'.locks[l].holder == s.locks[l].holder)
    && (forall t: Tid, l: Lid :: Holds(s, t, l) <==> Holds(s', t, l))
  }

  lemma HoldersKept(s: State, s': State)
    requires HolderHolds(s) && SameHolding(s, s')
    ensures HolderHolds(s')
  {
  }

  /** Only the running thread and the locks have changed. */
  lemma ThreadsKept(s: State, s': State)
    requires ThreadInv(s) && s.current in s.threads && s.current in s'.threads
    requires s'.threads == s.threads[s.current := s'.threads[s.current]]
    requires s'.locks.Keys == s.locks.Keys && s'.idle == s.idle
    requires ThreadOk(s'.threads[s.current], s'.locks, s.current == s.idle)
    ensures ThreadInv(s')
  {
    forall t | t in s'.threads
      ensures ThreadOk(s'.threads[t], s'.locks, t == s'.idle)
    {
      if t != s.current { assert ThreadOk(s.threads[t], s.locks, t == s.idle); }
    }
  }

  // ---- rescheduling changes who runs and nothing else

  ghost predicate StatusOnly(s: State, s': State) {
    && s'.threads.Keys == s.threads.Keys && s'.locks == s.locks && s'.idle == s.idle
    && forall t :: t in s.threads ==>
      && s'.threads[t] == s.threads[t].(status := s'.threads[t].status)
      && (t != s.idle ==> (s'.threads[t].status == Blocked <==> s.threads[t].status == Blocked))
  }

  lemma StatusOnlyThreads(s: State, s': State)
    requires StatusOnly(s, s') && ThreadInv(s)
    ensures ThreadInv(s')
  {
    forall t | t in s'.threads
      ensures ThreadOk(s'.threads[t], s'.locks, t == s'.idle)
    {
      assert ThreadOk(s.threads[t], s.locks, t == s.idle);
    }
  }

  lemma StatusOnlySame(s: State, s': State)
    requires StatusOnly(s, s') && s.idle in s.threads && s.threads[s.idle].pc == Outside
    ensures SameOwners(s, s') && SameQueues(s, s') && SameHolding(s, s')
  {
  }

  lemma StatusOnlyCore(s: State, s': State)
    requires StatusOnly(s, s') && Core(s)
    ensures Core(s')
  {
    StatusOnlyThreads(s, s');
    StatusOnlySame(s, s');
    OwnersKept(s, s');
    QueuesKept(s, s');
    HoldersKept(s, s');
    CoverFrame(s, s');
  }

  lemma ScheduleStatusOnly(s: State)
    requires s.idle in s.threads && ReadyList(s.threads, s.ready, s.idle)
    ensures StatusOnly(s, Schedule(s))
  {
    if s.ready != [] { assert s.ready[0] in s.ready; }
  }

  /** The current thread as `thread_yield` leaves it when it calls `schedule`. */
  ghost function Yielding(s: State): State
    requires s.current in s.threads
  {
    s.(ready := if s.current == s.idle then s.ready else InsertOrdered(s.ready, s.current, Rank(s.threads), Greater),
       threads := s.threads[s.current := s.threads[s.current].(status := Ready)])
  }

  lemma YieldingList(s: State)
    requires ReadyInv(s)
    ensures ReadyList(Yielding(s).threads, Yielding(s).ready, s.idle)
    ensures StatusOnly(s, Yielding(s))
  {
    if s.current == s.idle {
      StatusKeepsList(s.threads, s.ready, s.idle, s.idle, Ready);
    } else {
      EnqueueKeepsList(s.threads, s.ready, s.idle, s.current);
    }
  }

  lemma YieldStatusOnly(s: State)
    requires ReadyInv(s)
    ensures StatusOnly(s, Yield(s))
  {
    YieldingList(s);
    ScheduleStatusOnly(Yielding(s));
    StatusOnlyTransitive(s, Yielding(s), Schedule(Yielding(s)));
    assert Yield(s) == Schedule(Yielding(s));
  }

  lemma StatusOnlyTransitive(a: State, b: State, c: State)
    requires StatusOnly(a, b) && StatusOnly(b, c)
    ensures StatusOnly(a, c)
  {
  }

  function Stopped(s: State): State
    requires s.current in s.threads
  {
    SetCur(s, Cur(s).(status := Blocked))
  }

  lemma BlockStatusOnly(s: State)
    requires ReadyInv(s)
    ensures s.ready != [] ==> s.ready[0] in s.threads
    ensures StatusOnly(Stopped(s), Block(s))
  {
    if s.ready != [] { assert s.ready[0] in s.ready; }
    StatusKeepsList(s.threads, s.ready, s.idle, s.current, Blocked);
    ScheduleStatusOnly(Stopped(s));
  }

  // ---- donation changes priorities and nothing else

  lemma SamePrioritiesThreads(s: State, s': State)
    requires SameButPriorities(s, s') && ThreadInv(s)
    ensures ThreadInv(s')
  {
    forall t | t in s'.threads
      ensures ThreadOk(s'.threads[t], s'.locks, t == s'.idle)
    {
      assert ThreadOk(s.threads[t], s.locks, t == s.idle);
    }
  }

  lemma SamePrioritiesSame(s: State, s': State)
    requires SameButPriorities(s, s')
    ensures SameOwners(s, s') && SameQueues(s, s') && SameHolding(s, s')
  {
  }

  lemma SamePrioritiesCore(s: State, s': State)
    requires SameButPriorities(s, s') && Core(s) && AllCovered(s')
    ensures Core(s')
  {
    SamePrioritiesThreads(s, s');
    SamePrioritiesSame(s, s');
    OwnersKept(s, s');
    QueuesKept(s, s');
    HoldersKept(s, s');
  }

  // ---- the steps of lock_acquire and lock_release

  /** In lock_acquire, before sema_down. */
  predicate Early(pc: Pc) { pc == Outside || pc.Noting? || InLoop(pc) }

  lemma WalkSame(s: State, pc: Pc, waits: Option<Lid>)
    requires s.current in s.threads && Cur(s).status == Running && Early(Cur(s).pc) && (Early(pc) || pc.Wanting?)
    ensures var s' := Walked(s, pc, waits);
      SameOwners(s, s') && SameQueues(s, s') && SameHolding(s, s')
  {
  }

  lemma WalkThreads(s: State, pc: Pc, waits: Option<Lid>)
    requires ThreadInv(s) && s.current in s.threads && s.current != s.idle && Cur(s).status == Running
    requires pc.Noting? || InLoop(pc) || pc.Wanting?
    requires pc.lock in s.locks && (pc.Noting? ==> waits == None) && (waits.Some? ==> waits.value == pc.lock)
    requires InLoop(pc) ==> waits.Some? && pc.at in s.locks
    ensures ThreadInv(Walked(s, pc, waits))
  {
    assert ThreadOk(Cur(s), s.locks, s.current == s.idle);
    ThreadsKept(s, Walked(s, pc, waits));
  }

  /** A step from one point of lock_acquire to another, short of sema_down and without a donation
      in flight. */
  ghost predicate MayWalk(s: State, pc: Pc, waits: Option<Lid>) {
    && s.current in s.threads && s.current != s.idle && Cur(s).status == Running
    && Early(Cur(s).pc) && (pc.Noting? || InLoop(pc) || pc.Wanting?)
    && pc.lock in s.locks && (pc.Noting? ==> waits == None) && (waits.Some? ==> waits.value == pc.lock)
    && (InLoop(pc) ==> waits.Some? && pc.at in s.locks)
  }

  lemma WalkCore(s: State, pc: Pc, waits: Option<Lid>)
    requires Core(s) && MayWalk(s, pc, waits) && !Cur(s).pc.Giving?
    ensures Core(Walked(s, pc, waits))
  {
    CoverFrame(s, Walked(s, pc, waits));
    WalkRest(s, pc, waits);
  }

  lemma WalkRest(s: State, pc: Pc, waits: Option<Lid>)
    requires Core(s) && MayWalk(s, pc, waits) && AllCovered(Walked(s, pc, waits))
    ensures Core(Walked(s, pc, waits))
  {
    var s' := Walked(s, pc, waits);
    WalkThreads(s, pc, waits);
    WalkSame(s, pc, waits);
    OwnersKept(s, s');
    QueuesKept(s, s');
    HoldersKept(s, s');
  }

  /** Storing a priority in a lock: the donation to its holder is in flight. */
  lemma LiftCore(s: State, l: Lid, p: int)
    requires Core(s) && l in s.locks && InFlight(s, l)
    ensures Core(Lifted(s, l, p))
  {
    var s' := Lifted(s, l, p);
    SamePrioritiesSame(s, s');
    SamePrioritiesThreads(s, s');
    OwnersKept(s, s');
    QueuesKept(s, s');
    HoldersKept(s, s');
    LiftCovers(s, l, p);
  }

  lemma LiftCovers(s: State, l: Lid, p: int)
    requires AllCovered(s) && l in s.locks && InFlight(s, l)
    ensures AllCovered(Lifted(s, l, p))
  {
    var s' := Lifted(s, l, p);
    assert forall k :: InFlight(s, k) ==> InFlight(s', k);
    forall t | t in s'.threads
      ensures Covered(s', s'.threads[t])
    {
      assert Covered(s, s.threads[t]);
    }
  }

  lemma GivenSame(s: State, h: Tid, s': State)
    requires Given(s, h, s')
    ensures SameButPriorities(s, s')
  {
  }

  lemma GivenCovers(s: State, h: Tid, s': State)
    requires AllCovered(s) && Given(s, h, s')
    ensures AllCovered(s')
    ensures forall l :: l in s'.threads[h].held && l in s'.locks ==> s'.locks[l].maxPriority <= s'.threads[h].priority
  {
    assert forall l :: l in s'.locks ==> LockRank(s'.locks)(l) == s'.locks[l].maxPriority;
    forall t | t in s'.threads
      ensures Covered(s', s'.threads[t])
    {
      if t != h { CoveredAgain(s, s', s.threads[t]); }
    }
  }

  lemma GivenCore(s: State, h: Tid, s': State)
    requires Core(s) && Given(s, h, s')
    ensures Core(s')
  {
    GivenSame(s, h, s');
    GivenCovers(s, h, s');
    SamePrioritiesCore(s, s');
  }

  /** The donation has arrived: the holder covers the lock, also when no other one is in flight. */
  lemma ArrivedCovers(s: State, l: Lid, h: Tid, pc: Pc, waits: Option<Lid>)
    requires AllCovered(s) && HolderHolds(s) && s.current in s.threads && Gives(Cur(s).pc, l)
    requires l in s.locks && s.locks[l].holder == Some(h) && h in s.threads
    requires l in s.threads[h].held ==> s.locks[l].maxPriority <= s.threads[h].priority
    ensures AllCovered(Walked(s, pc, waits))
  {
    var s' := Walked(s, pc, waits);
    forall t | t in s'.threads
      ensures Covered(s', s'.threads[t])
    {
      ArrivedCovered(s, l, h, pc, waits, t);
    }
  }

  lemma ArrivedCovered(s: State, l: Lid, h: Tid, pc: Pc, waits: Option<Lid>, t: Tid)
    requires AllCovered(s) && HolderHolds(s) && s.current in s.threads && Gives(Cur(s).pc, l)
    requires l in s.locks && s.locks[l].holder == Some(h) && h in s.threads
    requires l in s.threads[h].held ==> s.locks[l].maxPriority <= s.threads[h].priority
    requires t in s.threads
    ensures Covered(Walked(s, pc, waits), Walked(s, pc, waits).threads[t])
  {
    var s' := Walked(s, pc, waits);
    assert Covered(s, s.threads[t]);
    forall k | k in s.threads[t].held && k in s.locks
      ensures s.locks[k].maxPriority <= s.threads[t].priority || InFlight(s', k)
    {
      if k == l {
        assert Holds(s, t, l);
      } else if InFlight(s, k) {
        var d: Tid :| d in s.threads && Gives(s.threads[d].pc, k);
        assert Gives(s'.threads[d].pc, k);
      }
    }
  }

  lemma LookCore(s: State, l: Lid)
    requires Core(s) && Enabled(s, Look(l)) && Cur(s).status == Running
    ensures Core(LookState(s, l))
  {
    hide OwnerInv, QueueInv, HolderHolds, AllCovered;
    assert ThreadOk(Cur(s), s.locks, false);
    WalkCore(s, if s.locks[l].holder == None then Wanting(l) else Noting(l), Cur(s).waits);
  }

  lemma NoteCore(s: State)
    requires Core(s) && Enabled(s, Note) && Cur(s).status == Running
    ensures Core(NoteState(s))
  {
    var l := Cur(s).pc.lock;
    assert ThreadOk(Cur(s), s.locks, false);
    WalkCore(s, Testing(l, l), Some(l));
  }

  lemma TestCore(s: State)
    requires Core(s) && Enabled(s, Test) && Cur(s).status == Running
    ensures Core(TestState(s))
  {
    hide OwnerInv, QueueInv, HolderHolds, AllCovered;
    var l, at := Cur(s).pc.lock, Cur(s).pc.at;
    assert ThreadOk(Cur(s), s.locks, false);
    WalkCore(s, if Cur(s).priority > s.locks[at].maxPriority then Writing(l, at) else Wanting(l), Cur(s).waits);
  }

  lemma WriteCore(s: State)
    requires Core(s) && Enabled(s, Write) && Cur(s).status == Running
    ensures Core(WriteState(s))
  {
    var l, at := Cur(s).pc.lock, Cur(s).pc.at;
    var s1 := Walked(s, Giving(l, at), Cur(s).waits);
    assert ThreadOk(Cur(s), s.locks, false);
    WalkCore(s, Giving(l, at), Cur(s).waits);
    assert Gives(s1.threads[s.current].pc, at);
    LiftCore(s1, at, Cur(s).priority);
  }

  lemma GiveCore(s: State, h: Tid)
    requires Core(s) && Enabled(s, Give) && Cur(s).status == Running
    requires s.locks[Cur(s).pc.at].holder == Some(h) && h in s.threads
    ensures Core(GiveState(s, h))
  {
    GiveGives(s, h);
    GivenCore(s, h, DonateTo(s, h));
    GivenArrives(s, h, DonateTo(s, h));
    ArriveCore(DonateTo(s, h), h, Cur(s).pc.lock, Cur(s).pc.at, Cur(s).waits);
  }

  lemma GivenArrives(s: State, h: Tid, s1: State)
    requires ThreadInv(s) && AllCovered(s) && Enabled(s, Give) && Cur(s).status == Running
    requires s.locks[Cur(s).pc.at].holder == Some(h) && Given(s, h, s1)
    ensures MayWalk(s1, Following(Cur(s).pc.lock, Cur(s).pc.at), Cur(s).waits) && Gives(Cur(s1).pc, Cur(s).pc.at)
    ensures s1.locks[Cur(s).pc.at].holder == Some(h)
    ensures Cur(s).pc.at in s1.threads[h].held ==> s1.locks[Cur(s).pc.at].maxPriority <= s1.threads[h].priority
  {
    assert ThreadOk(Cur(s), s.locks, false);
    GivenCovers(s, h, s1);
    GivenRunner(s, h, s1);
  }

  lemma GivenRunner(s: State, h: Tid, s1: State)
    requires Given(s, h, s1) && s.current in s.threads
    ensures s1.current == s.current && s1.idle == s.idle && s1.locks == s.locks
    ensures Cur(s1).pc == Cur(s).pc && Cur(s1).waits == Cur(s).waits && Cur(s1).status == Cur(s).status
  {
  }

  lemma ArriveCore(s: State, h: Tid, l: Lid, at: Lid, waits: Option<Lid>)
    requires Core(s) && MayWalk(s, Following(l, at), waits) && Gives(Cur(s).pc, at)
    requires s.locks[at].holder == Some(h) && h in s.threads
    requires at in s.threads[h].held ==> s.locks[at].maxPriority <= s.threads[h].priority
    ensures Core(Walked(s, Following(l, at), waits))
  {
    ArrivedCovers(s, at, h, Following(l, at), waits);
    WalkRest(s, Following(l, at), waits);
  }

  lemma FollowCore(s: State, h: Tid)
    requires Core(s) && Enabled(s, Follow) && Cur(s).status == Running && h in s.threads
    ensures Core(FollowState(s, h))
  {
    hide OwnerInv, QueueInv, HolderHolds, AllCovered;
    var l := Cur(s).pc.lock;
    assert ThreadOk(Cur(s), s.locks, false) && ThreadOk(s.threads[h], s.locks, h == s.idle);
    WalkCore(s, match s.threads[h].waits case None => Wanting(l) case Some(k) => Testing(l, k), Cur(s).waits);
  }

  lemma PassSame(s: State)
    requires Enabled(s, Pass) && Cur(s).status == Running && s.locks[Cur(s).pc.lock].value == 1
    ensures SameQueues(s, PassState(s)) && SameHolding(s, PassState(s))
  {
  }

  lemma PassOwners(s: State)
    requires OwnerInv(s) && Enabled(s, Pass)
    ensures OwnerInv(PassState(s))
  {
    var s', l := PassState(s), Cur(s).pc.lock;
    assert forall t, k :: Owns(s', t, k) <==> Owns(s, t, k) || (t == s.current && k == l);
    assert Owns(s', s.current, l);
    forall k | k in s'.locks && s'.locks[k].value == 0
      ensures exists t :: Owns(s', t, k)
    {
      if k != l {
        var t :| Owns(s, t, k);
        assert Owns(s', t, k);
      }
    }
  }

  lemma PassThreads(s: State)
    requires ThreadInv(s) && OwnerInv(s) && Enabled(s, Pass) && Cur(s).status == Running
    ensures ThreadInv(PassState(s)) && s.locks[Cur(s).pc.lock].value == 1
  {
    assert !Owns(s, s.current, Cur(s).pc.lock);
    assert ThreadOk(Cur(s), s.locks, s.current == s.idle);
    ThreadsKept(s, PassState(s));
  }

  lemma PassCovers(s: State)
    requires AllCovered(s) && Enabled(s, Pass)
    ensures AllCovered(PassState(s))
  {
    CoverFrame(s, PassState(s));
  }

  lemma PassCore(s: State)
    requires Core(s) && Enabled(s, Pass) && Cur(s).status == Running
    ensures Core(PassState(s))
  {
    var s' := PassState(s);
    PassThreads(s);
    PassOwners(s);
    PassSame(s);
    QueuesKept(s, s');
    HoldersKept(s, s');
    PassCovers(s);
  }

  lemma TakeSame(s: State)
    requires Enabled(s, Take) && Cur(s).status == Running
    ensures SameOwners(s, TakeState(s)) && SameQueues(s, TakeState(s))
  {
    InsertedMembers(Cur(s).held, Cur(s).pc.lock, TakeRank(s));
  }

  lemma TakeHolders(s: State)
    requires OwnerInv(s) && HolderHolds(s) && Enabled(s, Take)
    ensures HolderHolds(TakeState(s))
  {
    var s', l := TakeState(s), Cur(s).pc.lock;
    InsertedMembers(Cur(s).held, l, TakeRank(s));
    assert Owns(s, s.current, l);
    forall t: Tid, k: Lid
      ensures Holds(s', t, k) <==> k in s'.locks && s'.locks[k].holder == Some(t)
    {
      assert Holds(s, t, k) <==> k in s.locks && s.locks[k].holder == Some(t);
      assert Holds(s, t, l) ==> Owns(s, t, l);
    }
  }

  lemma TakeCovers(s: State)
    requires OwnerInv(s) && AllCovered(s) && Enabled(s, Take)
    ensures AllCovered(TakeState(s))
  {
    var s', l := TakeState(s), Cur(s).pc.lock;
    InsertedMembers(Cur(s).held, l, TakeRank(s));
    assert Owns(s, s.current, l);
    forall t | t in s'.threads
      ensures Covered(s', s'.threads[t])
    {
      assert Owns(s, t, l) ==> t == s.current;
      TakeCovered(s, t);
    }
  }

  lemma TakeCovered(s: State, t: Tid)
    requires Enabled(s, Take) && t in s.threads && Covered(s, s.threads[t])
    requires t != s.current ==> Cur(s).pc.lock !in s.threads[t].held
    requires forall k :: k in TakeState(s).threads[s.current].held <==> k in Cur(s).held || k == Cur(s).pc.lock
    ensures Covered(TakeState(s), TakeState(s).threads[t])
  {
    var s', l := TakeState(s), Cur(s).pc.lock;
    forall k | InFlight(s, k)
      ensures InFlight(s', k)
    {
      var d: Tid :| d in s.threads && Gives(s.threads[d].pc, k);
      assert Gives(s'.threads[d].pc, k);
    }
  }

  lemma TakeThreads(s: State)
    requires ThreadInv(s) && Enabled(s, Take) && Cur(s).status == Running
    ensures ThreadInv(TakeState(s))
  {
    InsertedMembers(Cur(s).held, Cur(s).pc.lock, TakeRank(s));
    assert ThreadOk(Cur(s), s.locks, s.current == s.idle);
    TakenThread(Cur(s), Cur(TakeState(s)), s.locks, TakeState(s).locks);
    ThreadsKept(s, TakeState(s));
  }

  lemma TakenThread(th: Thread, th': Thread, L: map<Lid, Lock>, L': map<Lid, Lock>)
    requires ThreadOk(th, L, false) && th.pc.Won? && th.status == Running && L'.Keys == L.Keys
    requires th' == th.(waits := None, pc := Outside, held := th'.held) && Distinct(th'.held)
    requires forall k :: k in th'.held <==> k in th.held || k == th.pc.lock
    ensures ThreadOk(th', L', false)
  {
  }

  lemma TakeCore(s: State)
    requires Core(s) && Enabled(s, Take) && Cur(s).status == Running
    ensures Core(TakeState(s))
  {
    var s' := TakeState(s);
    TakeThreads(s);
    TakeSame(s);
    TakeHolders(s);
    TakeCovers(s);
    OwnersKept(s, s');
    QueuesKept(s, s');
  }

  lemma DropSame(s: State, l: Lid, th: Thread)
    requires s.current in s.threads && Cur(s).pc == Outside && l in Cur(s).held && Cur(s).status == Running
    requires th.pc == Dropping(l) && th.status == Running
    requires forall k :: k in th.held <==> k in Cur(s).held && k != l
    ensures SameOwners(s, SetCur(s, th)) && SameQueues(s, SetCur(s, th)) && SameHolding(s, SetCur(s, th))
  {
  }

  lemma DropThread(th: Thread, l: Lid, L: map<Lid, Lock>)
    requires ThreadOk(th, L, false) && l in L && th.pc == Outside && th.status == Running
    ensures var th' := Updated(th.(held := Without(th.held, l), pc := Dropping(l)), L);
      ThreadOk(th', L, false) && forall k :: k in th'.held <==> k in th.held && k != l
  {
    var th' := Updated(th.(held := Without(th.held, l), pc := Dropping(l)), L);
    UpdatedIsEffective(th.(held := Without(th.held, l), pc := Dropping(l)), L);
    WithoutDistinct(th.held, l);
    DroppedThread(th, l, L, th');
  }

  lemma DroppedThread(th: Thread, l: Lid, L: map<Lid, Lock>, th': Thread)
    requires ThreadOk(th, L, false) && l in L && th.pc == Outside && th.status == Running
    requires th'.pc == Dropping(l) && th'.status == Running && th'.waits == th.waits
    requires Distinct(th'.held) && forall k :: k in th'.held <==> k in th.held && k != l
    ensures ThreadOk(th', L, false)
  {
  }

  /** After giving a lock up, the thread keeps what its other locks and its base call for. */
  lemma DropCovers(s: State, l: Lid)
    requires AllCovered(s) && Enabled(s, Drop(l))
    ensures AllCovered(DropState(s, l))
  {
    var th := Cur(s).(held := Without(Cur(s).held, l), pc := Dropping(l));
    UpdatedIsEffective(th, s.locks);
    SetCovers(s, Updated(th, s.locks));
  }

  lemma SetCovers(s: State, th: Thread)
    requires AllCovered(s) && s.current in s.threads && !Cur(s).pc.Giving?
    requires th.priority >= th.base && forall k :: k in th.held && k in s.locks ==> LockRank(s.locks)(k) <= th.priority
    ensures AllCovered(SetCur(s, th))
  {
    forall t | t in SetCur(s, th).threads
      ensures Covered(SetCur(s, th), SetCur(s, th).threads[t])
    {
      if t == s.current {
        assert forall k :: k in th.held && k in s.locks ==> LockRank(s.locks)(k) == s.locks[k].maxPriority;
      } else {
        CoveredAgain(s, SetCur(s, th), s.threads[t]);
      }
    }
  }

  lemma DropCore(s: State, l: Lid)
    requires Core(s) && Enabled(s, Drop(l)) && Cur(s).status == Running
    ensures Core(DropState(s, l))
  {
    var s' := DropState(s, l);
    assert Holds(s, s.current, l);
    assert ThreadOk(Cur(s), s.locks, s.current == s.idle);
    DropThread(Cur(s), l, s.locks);
    ThreadsKept(s, s');
    DropSame(s, l, Cur(s'));
    DropCovers(s, l);
    OwnersKept(s, s');
    QueuesKept(s, s');
    HoldersKept(s, s');
  }

  lemma ClearSame(s: State)
    requires Enabled(s, Clear) && Cur(s).status == Running
    ensures SameOwners(s, ClearState(s)) && SameQueues(s, ClearState(s))
  {
  }

  lemma ClearHolders(s: State)
    requires ThreadInv(s) && HolderHolds(s) && Enabled(s, Clear)
    ensures HolderHolds(ClearState(s))
  {
    var s', l := ClearState(s), Cur(s).pc.lock;
    assert ThreadOk(Cur(s), s.locks, s.current == s.idle);
    forall t: Tid, k: Lid
      ensures Holds(s', t, k) <==> k in s'.locks && s'.locks[k].holder == Some(t)
    {
      assert Holds(s, t, k) <==> k in s.locks && s.locks[k].holder == Some(t);
      assert Holds(s, s.current, l);
    }
  }

  lemma ClearThreads(s: State)
    requires ThreadInv(s) && Enabled(s, Clear) && Cur(s).status == Running
    ensures ThreadInv(ClearState(s))
  {
    assert ThreadOk(Cur(s), s.locks, s.current == s.idle);
    ThreadsKept(s, ClearState(s));
  }

  lemma ClearCovers(s: State)
    requires AllCovered(s) && Enabled(s, Clear)
    ensures AllCovered(ClearState(s))
  {
    CoverFrame(s, ClearState(s));
  }

  lemma ClearCore(s: State)
    requires Core(s) && Enabled(s, Clear) && Cur(s).status == Running
    ensures Core(ClearState(s))
  {
    var s' := ClearState(s);
    ClearThreads(s);
    ClearSame(s);
    ClearHolders(s);
    OwnersKept(s, s');
    QueuesKept(s, s');
    ClearCovers(s);
  }

  // ---- queueing and waking

  lemma QueueQueues(s: State)
    requires QueueInv(s) && Enabled(s, Queue) && Cur(s).status == Running
    ensures QueueInv(Queued(s))
  {
    var s', l := Queued(s), Cur(s).pc.lock;
    assert !Asleep(s, s.current, l);
    InsertedMembers(s.locks[l].waiters, s.current, Rank(s.threads));
    assert forall t: Tid, k: Lid :: Asleep(s', t, k) <==> Asleep(s, t, k) || (t == s.current && k == l);
    forall k | k in s'.locks && s'.locks[k].waiters != [] && s'.locks[k].value > 0
      ensures exists t :: Contends(s', t, k)
    {
      var t :| Contends(s, t, k);
      assert Contends(s', t, k);
    }
  }

  lemma QueueSame(s: State)
    requires Enabled(s, Queue)
    ensures SameOwners(s, Queued(s)) && SameHolding(s, Queued(s))
  {
  }

  lemma QueueThreads(s: State)
    requires ThreadInv(s) && Enabled(s, Queue)
    ensures ThreadInv(Queued(s))
  {
    assert ThreadOk(Cur(s), s.locks, s.current == s.idle);
    ThreadsKept(s, Queued(s));
  }

  lemma QueueCore(s: State)
    requires Core(s) && Enabled(s, Queue) && Cur(s).status == Running
    ensures Core(Queued(s))
  {
    var s' := Queued(s);
    QueueThreads(s);
    QueueQueues(s);
    QueueSame(s);
    QueueCovers(s);
    OwnersKept(s, s');
    HoldersKept(s, s');
  }

  lemma QueueCovers(s: State)
    requires AllCovered(s) && Enabled(s, Queue)
    ensures AllCovered(Queued(s))
  {
    CoverFrame(s, Queued(s));
  }

  /** The state after `sema_up` has woken `w`, if the queue was not empty. */
  ghost predicate Woken(s: State, s': State, l: Lid, w: Option<Tid>) {
    && s.current in s.threads && l in s.locks && s.threads.Keys == s'.threads.Keys
    && s'.current == s.current && s'.idle == s.idle
    && s'.locks == s.locks[l := s.locks[l].(value := s.locks[l].value + 1, waiters := if l in s'.locks then s'.locks[l].waiters else [])]
    && s'.threads[s.current] == s.threads[s.current].(pc := Outside)
    && (forall t :: t in s.threads && t != s.current ==>
      s'.threads[t] == if w == Some(t) then s.threads[t].(status := Ready) else s.threads[t])
    && (w == None ==> s.locks[l].waiters == [] == s'.locks[l].waiters)
    && (w.Some? ==>
      && Distinct(s'.locks[l].waiters) && w.value in s.locks[l].waiters
      && (forall t :: t in s'.locks[l].waiters <==> t in s.locks[l].waiters && t != w.value)
      && (forall t :: t in s.locks[l].waiters ==> Rank(s.threads)(t) <= Rank(s.threads)(w.value)))
  }

  lemma WakeFrontWakes(s: State, l: Lid, q: seq<Tid>)
    requires s.current in s.threads && l in s.locks && Distinct(q)
    requires forall t :: t in q <==> t in s.locks[l].waiters
    requires |q| == |s.locks[l].waiters|
    requires forall t :: t in q ==> t in s.threads && t != s.current
    requires q != [] ==> forall t :: t in q ==> Rank(s.threads)(t) <= Rank(s.threads)(q[0])
    ensures q != [] ==> q[0] in s.threads
    ensures Woken(s, WakeFront(s, l, q), l, if q == [] then None else Some(q[0]))
  {
    if q != [] {
      FrontAndRest(q);
    }
  }

  lemma FrontAndRest(q: seq<nat>)
    requires q != [] && Distinct(q)
    ensures q[0] in q && Distinct(q[1..])
    ensures forall t :: t in q[1..] <==> t in q && t != q[0]
  {
    assert q == [q[0]] + q[1..];
  }

  /** `sema_up` wakes a waiter of the highest priority. */
  lemma UpWakes(s: State) returns (w: Option<Tid>)
    requires QueueInv(s) && Enabled(s, Up) && Cur(s).status == Running
    ensures forall t :: t in s.locks[Cur(s).pc.lock].waiters ==> t in s.threads
    ensures Woken(s, UpState(s), Cur(s).pc.lock, w)
    ensures w == None <==> s.locks[Cur(s).pc.lock].waiters == []
  {
    var l := Cur(s).pc.lock;
    forall t | t in s.locks[l].waiters
      ensures Asleep(s, t, l)
    {
    }
    var q := StableSort(s.locks[l].waiters, Rank(s.threads), Greater);
    SortedWaiters(s.locks[l].waiters, s.threads);
    WakeFrontWakes(s, l, q);
    w := if q == [] then None else Some(q[0]);
  }

  lemma WokenThreads(s: State, s': State, l: Lid, w: Option<Tid>)
    requires ThreadInv(s) && Woken(s, s', l, w) && Cur(s).pc == Cleared(l) && Cur(s).status == Running
    ensures ThreadInv(s')
  {
    forall t | t in s'.threads
      ensures ThreadOk(s'.threads[t], s'.locks, t == s'.idle)
    {
      WokenThread(s.threads[t], s'.threads[t], s.locks, s'.locks, t == s.idle, t == s.current);
    }
  }

  lemma WokenThread(th: Thread, th': Thread, L: map<Lid, Lock>, L': map<Lid, Lock>, idle: bool, current: bool)
    requires ThreadOk(th, L, idle) && L'.Keys == L.Keys
    requires current ==> th.pc.Cleared? && th.status == Running && th' == th.(pc := Outside)
    requires !current ==> th' == th || th' == th.(status := Ready)
    ensures ThreadOk(th', L', idle)
  {
  }

  lemma WokenOwns(s: State, s': State, l: Lid, w: Option<Tid>, t: Tid, k: Lid)
    requires Woken(s, s', l, w) && Cur(s).pc == Cleared(l) && l !in Cur(s).held
    requires Owns(s, t, l) ==> t == s.current
    ensures Owns(s', t, k) <==> Owns(s, t, k) && k != l
  {
    if t != s.current && t in s.threads {
      assert s'.threads[t].pc == s.threads[t].pc && s'.threads[t].held == s.threads[t].held;
    }
  }

  lemma WokenOwners(s: State, s': State, l: Lid, w: Option<Tid>)
    requires ThreadInv(s) && OwnerInv(s) && Woken(s, s', l, w) && Cur(s).pc == Cleared(l)
    ensures OwnerInv(s') && s.locks[l].value == 0
  {
    assert Owns(s, s.current, l);
    assert ThreadOk(Cur(s), s.locks, s.current == s.idle);
    assert forall t: Tid :: Owns(s, t, l) ==> t == s.current;
    forall t: Tid, k: Lid
      ensures Owns(s', t, k) <==> Owns(s, t, k) && k != l
    {
      WokenOwns(s, s', l, w, t, k);
    }
    forall k | k in s'.locks && s'.locks[k].value == 0
      ensures exists t :: Owns(s', t, k)
    {
      var t :| Owns(s, t, k);
      assert Owns(s', t, k);
    }
  }

  lemma WokenQueues(s: State, s': State, l: Lid, w: Option<Tid>)
    requires QueueInv(s) && Woken(s, s', l, w) && Cur(s).pc == Cleared(l) && Cur(s).status == Running
    ensures QueueInv(s')
  {
    forall t: Tid, k: Lid
      ensures Asleep(s', t, k) <==> Asleep(s, t, k) && w != Some(t)
      ensures Contends(s, t, k) ==> Contends(s', t, k)
    {
    }
    if w.Some? {
      assert Asleep(s, w.value, l);
      assert Contends(s', w.value, l);
    }
    forall k | k in s'.locks
      ensures forall t :: t in s'.locks[k].waiters <==> Asleep(s', t, k)
    {
      assert forall t :: t in s.locks[k].waiters <==> Asleep(s, t, k);
    }
    forall k | k in s'.locks && s'.locks[k].waiters != [] && s'.locks[k].value > 0
      ensures exists t :: Contends(s', t, k)
    {
      if k != l {
        var t :| Contends(s, t, k);
        assert Contends(s', t, k);
      }
    }
  }

  lemma WokenSame(s: State, s': State, l: Lid, w: Option<Tid>)
    requires Woken(s, s', l, w) && Cur(s).pc == Cleared(l)
    ensures SameHolding(s, s')
  {
  }

  lemma WokenCore(s: State, s': State, l: Lid, w: Option<Tid>)
    requires Core(s) && Woken(s, s', l, w) && Cur(s).pc == Cleared(l) && Cur(s).status == Running
    ensures Core(s')
  {
    WokenThreads(s, s', l, w);
    WokenOwners(s, s', l, w);
    WokenQueues(s, s', l, w);
    WokenSame(s, s', l, w);
    WokenCovers(s, s', l, w);
    HoldersKept(s, s');
  }

  lemma WokenCovers(s: State, s': State, l: Lid, w: Option<Tid>)
    requires AllCovered(s) && Woken(s, s', l, w) && Cur(s).pc == Cleared(l)
    ensures AllCovered(s')
  {
    CoverFrame(s, s');
  }

  // ---- steps outside the lock routines

  /** Only thread `t` changes, or comes into being; it is in no lock routine before and after. */
  ghost predicate Outsider(s: State, s': State, t: Tid) {
    && s'.locks == s.locks && s'.idle == s.idle && t in s'.threads && s'.threads == s.threads[t := s'.threads[t]]
    && !InLockRoutine(s'.threads[t].pc) && s'.threads[t].waits == None
    && (t in s.threads ==> !InLockRoutine(s.threads[t].pc) && s'.threads[t].held == s.threads[t].held)
    && (t !in s.threads ==> s'.threads[t].held == [] && t != s.idle)
    && (s'.threads[t].status == Blocked ==> t == s.idle || s'.threads[t].pc.Sleeping?)
    && (t == s.idle ==> s'.threads[t].pc == Outside)
  }

  lemma OutsiderThreads(s: State, s': State, t: Tid)
    requires ThreadInv(s) && Outsider(s, s', t)
    ensures ThreadInv(s')
  {
    forall u | u in s'.threads
      ensures ThreadOk(s'.threads[u], s'.locks, u == s'.idle)
    {
      if u in s.threads { assert ThreadOk(s.threads[u], s.locks, u == s.idle); }
    }
  }

  lemma OutsiderSame(s: State, s': State, t: Tid)
    requires Outsider(s, s', t)
    ensures SameOwners(s, s') && SameQueues(s, s') && SameHolding(s, s')
  {
  }

  lemma OutsiderCovers(s: State, s': State, t: Tid)
    requires AllCovered(s) && Outsider(s, s', t) && Covered(s, s'.threads[t])
    ensures AllCovered(s')
  {
    forall u | u in s'.threads
      ensures Covered(s', s'.threads[u])
    {
      CoveredAgain(s, s', s'.threads[u]);
    }
  }

  lemma OutsiderCore(s: State, s': State, t: Tid)
    requires Core(s) && Outsider(s, s', t) && Covered(s, s'.threads[t])
    ensures Core(s')
  {
    OutsiderThreads(s, s', t);
    OutsiderSame(s, s', t);
    OutsiderCovers(s, s', t);
    OwnersKept(s, s');
    QueuesKept(s, s');
    HoldersKept(s, s');
  }

  /** The running thread with the priority that `thread_set_priority` gives it, before yielding. */
  function WithPriority(s: State, p: int): State
    requires s.current in s.threads
  {
    var raise := Cur(s).held == [] || p > Cur(s).priority;
    SetCur(s, Cur(s).(base := p, priority := if raise then p else Cur(s).priority))
  }

  lemma SetPriorityCore(s: State, p: int)
    requires Core(s) && Enabled(s, SetPriority(p))
    ensures Core(WithPriority(s, p))
  {
    var s' := WithPriority(s, p);
    assert ThreadOk(Cur(s), s.locks, s.current == s.idle);
    assert Covered(s, Cur(s));
    OutsiderCore(s, s', s.current);
  }

  lemma GoToSleepCore(s: State)
    requires Core(s) && ReadyInv(s) && Enabled(s, GoToSleep)
    ensures ReadyInv(Drowsy(s)) && Core(Stopped(Drowsy(s)))
  {
    assert ThreadOk(Cur(s), s.locks, s.current == s.idle);
    assert Covered(s, Cur(s));
    OutsiderCore(s, Stopped(Drowsy(s)), s.current);
    ReadyFrame(s, Drowsy(s));
  }

  lemma WakeUpReady(s: State, t: Tid)
    requires ReadyInv(s) && Enabled(s, WakeUp(t)) && t != s.idle
    ensures ReadyInv(Unblock(Awakened(s, t), t))
  {
    ReadyFrame(s, Awakened(s, t));
    UnblockKeepsReady(Awakened(s, t), t);
  }

  lemma WakeUpCore(s: State, t: Tid)
    requires Core(s) && ReadyInv(s) && Enabled(s, WakeUp(t))
    ensures Core(AfterWakeUp(s, t)) && ReadyInv(AfterWakeUp(s, t))
  {
    assert ThreadOk(s.threads[t], s.locks, t == s.idle);
    assert Covered(s, s.threads[t]);
    WakeUpOutsider(s, t);
    OutsiderCore(s, AfterWakeUp(s, t), t);
    WakeUpReady(s, t);
  }

  lemma WakeUpOutsider(s: State, t: Tid)
    requires Enabled(s, WakeUp(t)) && ThreadOk(s.threads[t], s.locks, t == s.idle) && Covered(s, s.threads[t])
    ensures Outsider(s, AfterWakeUp(s, t), t) && Covered(s, AfterWakeUp(s, t).threads[t])
  {
    var s1 := AfterWakeUp(s, t);
    assert s1.threads == s.threads[t := s1.threads[t]];
  }

  lemma CreateCore(s: State, t: Tid, p: int)
    requires Core(s) && ReadyInv(s) && Enabled(s, Create(t, p))
    ensures Core(Unblock(Born(s, t, p), t)) && ReadyInv(Unblock(Born(s, t, p), t))
  {
    hide ThreadInv, OwnerInv, QueueInv, HolderHolds, AllCovered;
    var s1 := Unblock(Born(s, t, p), t);
    assert s1.threads == s.threads[t := s1.threads[t]];
    OutsiderCore(s, s1, t);
    BornReady(s, t, p);
  }
}
