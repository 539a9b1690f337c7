/** Threads, locks and the ready list of `threads/thread.c` and `threads/synch.c` under a
    non-fair policy, as a transition system.

    The state is what the routines share.  A step is a region with interrupts off, or one access
    to the shared state with interrupts on, where testing or storing the priority of a lock takes
    in the reading of the own one, and reading a holder takes in the donation to it or the reading
    of the lock it waits for.  A timer interrupt may come between any two steps.
    The program counter of a thread says where in the lock routines it is. */
module Kernel {
  import opened Wrappers
  import opened Order

  type Tid = nat
  type Lid = nat

  datatype Status = Running | Ready | Blocked

  datatype Pc =
    | Outside                        // in neither lock_acquire nor lock_release
    | Noting(lock: Lid)              // in lock_acquire, has seen a holder, the lock not yet noted
    | Testing(lock: Lid, at: Lid)    // in its loop, about to compare priorities with lock `at`
    | Writing(lock: Lid, at: Lid)    // in its loop, found its priority higher, about to store it
    | Giving(lock: Lid, at: Lid)     // in its loop, has stored it, about to donate to the holder
    | Following(lock: Lid, at: Lid)  // in its loop, has donated, about to go on along the chain
    | Wanting(lock: Lid)             // in lock_acquire, past the loop, in front of or inside sema_down
    | Won(lock: Lid)                 // in lock_acquire, the semaphore is down, not yet the holder
    | Dropping(lock: Lid)            // in lock_release, off the list of held locks, still the holder
    | Cleared(lock: Lid)             // in lock_release, no longer the holder, the semaphore not yet up
    | Sleeping                       // in timer_sleep

  /** In the donation loop of lock_acquire, which runs with interrupts on. */
  predicate InLoop(pc: Pc) { pc.Testing? || pc.Writing? || pc.Giving? || pc.Following? }

  datatype Thread = Thread(status: Status, priority: int, base: int, held: seq<Lid>, waits: Option<Lid>, pc: Pc)

  datatype Lock = Lock(holder: Option<Tid>, value: nat, waiters: seq<Tid>, maxPriority: int)

  datatype State = State(threads: map<Tid, Thread>, locks: map<Lid, Lock>, ready: seq<Tid>, current: Tid, idle: Tid)

  /** What `thread_cmp_priority` and `lock_cmp_priority` compare. */
  function Rank(T: map<Tid, Thread>): Tid -> int { (t: Tid) => if t in T then T[t].priority else 0 }
  function LockRank(L: map<Lid, Lock>): Lid -> int { (l: Lid) => if l in L then L[l].maxPriority else 0 }

  // ---- scheduling

  function Unblock(s: State, t: Tid): State
    requires t in s.threads
  {
    s.(ready := InsertOrdered(s.ready, t, Rank(s.threads), Greater),
       threads := s.threads[t := s.threads[t].(status := Ready)])
  }

  /** `schedule`: the front of the ready list runs next, or the idle thread. */
  function Schedule(s: State): State
    requires s.idle in s.threads && (s.ready != [] ==> s.ready[0] in s.threads)
  {
    var next := if s.ready == [] then s.idle else s.ready[0];
    s.(ready := if s.ready == [] then [] else s.ready[1..],
       current := next,
       threads := s.threads[next := s.threads[next].(status := Running)])
  }

  function Block(s: State): State
    requires s.current in s.threads && s.idle in s.threads && (s.ready != [] ==> s.ready[0] in s.threads)
  {
    Schedule(s.(threads := s.threads[s.current := s.threads[s.current].(status := Blocked)]))
  }

  function Yield(s: State): State
    requires s.current in s.threads && s.idle in s.threads && (forall t :: t in s.ready ==> t in s.threads)
  {
    var ready := if s.current == s.idle then s.ready else InsertOrdered(s.ready, s.current, Rank(s.threads), Greater);
    InsertedMembers(s.ready, s.current, Rank(s.threads));
    Schedule(s.(ready := ready, threads := s.threads[s.current := s.threads[s.current].(status := Ready)]))
  }

  lemma PriorityOrder()
    ensures StrictWeakOrder(Greater)
  {
  }

  /** The list is in order of priority, first in first out among equals, and holds exactly the
      ready threads other than the idle one, each once. */
  ghost predicate ReadyList(T: map<Tid, Thread>, ready: seq<Tid>, idle: Tid) {
    && Distinct(ready)
    && (forall t :: t in ready <==> t in T && T[t].status == Ready && t != idle)
    && Sorted(ready, Rank(T), Greater)
  }

  ghost predicate ReadyInv(s: State) {
    && s.current in s.threads && s.idle in s.threads
    && (forall t :: t in s.threads ==> (s.threads[t].status == Running <==> t == s.current))
    && ReadyList(s.threads, s.ready, s.idle)
  }

  /** Only the priorities of the listed threads matter. */
  lemma SortedAgain(s: seq<nat>, key: nat -> int, key': nat -> int)
    requires Sorted(s, key, Greater)
    requires forall t :: t in s ==> key(t) == key'(t)
    ensures Sorted(s, key', Greater)
  {
  }

  lemma EnqueueKeepsList(T: map<Tid, Thread>, ready: seq<Tid>, idle: Tid, t: Tid)
    requires t in T && T[t].status != Ready && t != idle
    requires ReadyList(T, ready, idle)
    ensures ReadyList(T[t := T[t].(status := Ready)], InsertOrdered(ready, t, Rank(T), Greater), idle)
  {
    var T' := T[t := T[t].(status := Ready)];
    var r := InsertOrdered(ready, t, Rank(T), Greater);
    InsertedMembers(ready, t, Rank(T));
    PriorityOrder();
    InsertKeepsSorted(ready, t, Rank(T), Greater);
    SortedAgain(r, Rank(T), Rank(T'));
  }

  lemma StatusKeepsList(T: map<Tid, Thread>, ready: seq<Tid>, idle: Tid, t: Tid, status: Status)
    requires t in T && ReadyList(T, ready, idle)
    requires t == idle || (T[t].status != Ready && status != Ready)
    ensures ReadyList(T[t := T[t].(status := status)], ready, idle)
  {
    SortedAgain(ready, Rank(T), Rank(T[t := T[t].(status := status)]));
  }

  lemma DispatchKeepsList(T: map<Tid, Thread>, ready: seq<Tid>, idle: Tid)
    requires ReadyList(T, ready, idle) && ready != []
    ensures ready[0] in T && ReadyList(T[ready[0] := T[ready[0]].(status := Running)], ready[1..], idle)
    ensures forall t :: t in ready ==> T[t].priority <= T[ready[0]].priority
  {
    var next, rest := ready[0], ready[1..];
    assert next in ready;
    var T' := T[next := T[next].(status := Running)];
    forall t
      ensures t in rest <==> t in ready && t != next
    {
      assert ready == [next] + rest;
      assert next !in rest;
    }
    forall t | t in ready
      ensures T[t].priority <= T[next].priority
    {
      var i :| 0 <= i < |ready| && ready[i] == t;
      assert i == 0 || !Greater(Rank(T)(ready[i]), Rank(T)(ready[0]));
    }
    RestSorted(ready, Rank(T));
    SortedAgain(rest, Rank(T), Rank(T'));
  }

  lemma RestSorted(s: seq<nat>, key: nat -> int)
    requires s != [] && Distinct(s) && Sorted(s, key, Greater)
    ensures Distinct(s[1..]) && Sorted(s[1..], key, Greater)
  {
  }

  lemma ScheduleKeepsReady(s: State)
    requires s.idle in s.threads && ReadyList(s.threads, s.ready, s.idle)
    requires forall t :: t in s.threads ==> s.threads[t].status != Running
    ensures ReadyInv(Schedule(s))
    ensures forall t :: t in s.ready ==> s.threads[t].priority <= s.threads[Schedule(s).current].priority
  {
    if s.ready == [] {
      StatusKeepsList(s.threads, s.ready, s.idle, s.idle, Running);
    } else {
      DispatchKeepsList(s.threads, s.ready, s.idle);
    }
  }

  lemma UnblockKeepsReady(s: State, t: Tid)
    requires ReadyInv(s) && t in s.threads && s.threads[t].status == Blocked && t != s.idle
    ensures ReadyInv(Unblock(s, t))
  {
    EnqueueKeepsList(s.threads, s.ready, s.idle, t);
  }

  lemma BlockKeepsReady(s: State)
    requires ReadyInv(s)
    requires s.ready != [] ==> s.ready[0] in s.threads
    ensures ReadyInv(Block(s))
  {
    StatusKeepsList(s.threads, s.ready, s.idle, s.current, Blocked);
    ScheduleKeepsReady(s.(threads := s.threads[s.current := s.threads[s.current].(status := Blocked)]));
  }

  /** Yielding hands the processor to a thread of maximal priority. */
  lemma YieldKeepsReady(s: State)
    requires ReadyInv(s)
    ensures ReadyInv(Yield(s))
    ensures s.current != s.idle ==>
      forall t :: t in s.threads && t != s.idle && s.threads[t].status != Blocked ==>
        s.threads[t].priority <= s.threads[Yield(s).current].priority
  {
    var T' := s.threads[s.current := s.threads[s.current].(status := Ready)];
    var ready := if s.current == s.idle then s.ready else InsertOrdered(s.ready, s.current, Rank(s.threads), Greater);
    if s.current == s.idle {
      StatusKeepsList(s.threads, s.ready, s.idle, s.idle, Ready);
    } else {
      EnqueueKeepsList(s.threads, s.ready, s.idle, s.current);
    }
    ScheduleKeepsReady(s.(threads := T', ready := ready));
  }
}
