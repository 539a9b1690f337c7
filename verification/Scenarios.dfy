/** Particular runs, given as a list of states each of which leads to the next.

    The steps are said without the invariant, so that they can be worked out on their own. */
module Scenarios {
  import opened Wrappers
  import opened Order
  import opened Kernel
  import opened Donation
  import opened Locks
  import opened LockRuns
  import opened Chains

  /** The front of the ready list is a thread. */
  predicate FrontKnown(m: State) { m.ready != [] ==> m.ready[0] in m.threads }

  /** What action `a` does, for the actions that occur in these runs. */
  ghost predicate Step(m: State, a: Action, m': State) {
    && Enabled(m, a)
    && match a
       case Look(l) => LookState(m, l) == m'
       case Note => NoteState(m) == m'
       case Test => TestState(m) == m'
       case Write => WriteState(m) == m'
       case Give => HolderKnown(m) && GiveState(m, m.locks[Cur(m).pc.at].holder.value) == m'
       case Follow => HolderKnown(m) && FollowState(m, m.locks[Cur(m).pc.at].holder.value) == m'
       case Queue => FrontKnown(m) && Block(QueueState(m)) == m'
       case Pass => PassState(m) == m'
       case Take => TakeState(m) == m'
       case Drop(l) => DropState(m, l) == m'
       case Clear => ClearState(m) == m'
       case Preempt => (forall t :: t in m.ready ==> t in m.threads) && Yield(m) == m'
       case GoToSleep => FrontKnown(m) && Block(Drowsy(m)) == m'
       case SetPriority(p) =>
         if Cur(m).held == [] || p > Cur(m).priority then (forall t :: t in m.ready ==> t in m.threads) && Yield(WithPriority(m, p)) == m'
         else WithPriority(m, p) == m'
       case WakeUp(t) => AfterWakeUp(m, t) == m'
       case _ => false
  }

  predicate HolderKnown(m: State)
    requires m.current in m.threads && (Cur(m).pc.Giving? || Cur(m).pc.Following?) && Cur(m).pc.at in m.locks
  {
    m.locks[Cur(m).pc.at].holder.Some? && m.locks[Cur(m).pc.at].holder.value in m.threads
  }

  lemma StepApplies(m: State, a: Action, m': State)
    requires Inv(m) && Step(m, a, m')
    ensures Enabled(m, a) && Apply(m, a) == Done(m')
  {
    hide ThreadInv, OwnerInv, QueueInv, HolderHolds, AllCovered, ReadyList, Yield, Block, GiveState, TakeState;
  }

  lemma OneMore(s: State, actions: seq<Action>, a: Action, m: State, m': State)
    requires Inv(s) && Run(s, actions) == Some(m) && Step(m, a, m')
    ensures Run(s, actions + [a]) == Some(m')
  {
    hide Step, Inv, Enabled, Apply;
    StepApplies(m, a, m');
    assert (actions + [a])[..|actions|] == actions;
  }

  /** A state, what is done next, and how it goes on. */
  datatype Trace = End(state: State) | Then(state: State, action: Action, rest: Trace)

  function Actions(r: Trace): seq<Action> {
    match r case End(_) => [] case Then(_, a, rest) => [a] + Actions(rest)
  }

  /** Each state leads to the next, and the last one is `z`. */
  ghost predicate Leads(r: Trace, z: State) {
    match r
    case End(m) => m == z
    case Then(m, a, rest) => Step(m, a, rest.state) && Leads(rest, z)
  }

  lemma Arrived(z: State)
    ensures Leads(End(z), z)
  {
  }

  lemma Onward(r: Trace, z: State)
    requires r.Then? && Step(r.state, r.action, r.rest.state) && Leads(r.rest, z)
    ensures Leads(r, z)
  {
  }

  lemma {:induction false} LeadsOn(s: State, done: seq<Action>, r: Trace, z: State)
    requires Inv(s) && Run(s, done) == Some(r.state) && Leads(r, z)
    ensures Run(s, done + Actions(r)) == Some(z)
    decreases r
  {
    hide Step, Inv, Run;
    match r
    case End(_) => assert done + Actions(r) == done;
    case Then(m, a, rest) =>
      OneMore(s, done, a, m, rest.state);
      LeadsOn(s, done + [a], rest, z);
      assert done + Actions(r) == done + [a] + Actions(rest);
  }

  /** The trace is a run from boot to state `z`. */
  ghost predicate RunsFromBoot(r: Trace, z: State) {
    Booted(r.state) && Inv(r.state) && Inv(z) && Run(r.state, Actions(r)) == Some(z)
  }

  /** States each of which leads to the next make a run. */
  lemma Happens(r: Trace, z: State)
    requires Booted(r.state) && Leads(r, z)
    ensures RunsFromBoot(r, z)
  {
    hide Step, Leads, Actions, Inv;
    BootedInv(r.state);
    LeadsOn(r.state, [], r, z);
    assert [] + Actions(r) == Actions(r);
  }

  /** With nobody in its donation loop, the first thread of `path` outranks the last one, for which
      it waits. */
  ghost predicate Inverted(s: State, path: seq<Tid>) {
    && WaitChain(s, path) && s.threads[path[0]].priority > s.threads[path[|path| - 1]].priority
    && forall d :: d in s.threads ==> !InLoop(s.threads[d].pc)
  }

  // ---- small lists

  lemma InsertedAlone(x: nat, key: nat -> int)
    ensures InsertOrdered([], x, key, Greater) == [x]
  {
  }

  lemma SortedAlone(x: nat, key: nat -> int)
    ensures StableSort([x], key, Greater) == [x]
  {
    InsertedAlone(x, key);
    assert [x][1..] == [];
    assert InsertAll([x], [], key, Greater) == [x];
  }

  /** A first lock. */
  lemma TakenFirst(m: State, l: Lid)
    requires Enabled(m, Take) && Cur(m).pc == Won(l) && Cur(m).held == []
    ensures TakeState(m) == State(m.threads[m.current := Cur(m).(waits := None, pc := Outside, held := [l])],
      m.locks[l := m.locks[l].(maxPriority := Cur(m).priority, holder := Some(m.current))], m.ready, m.current, m.idle)
  {
    InsertedAlone(l, TakeRank(m));
  }

  /** A donation to another thread, which is not ready and has one lock. */
  lemma GivenAlone(m: State, h: Tid, l: Lid, at: Lid)
    requires Enabled(m, Give) && Cur(m).pc == Giving(l, at)
    requires h in m.threads && h != m.current && m.threads[h].held == [at] && m.threads[h].status != Ready
    requires m.locks[at].maxPriority > m.threads[h].base
    ensures GiveState(m, h) == m.(threads := m.threads[h := m.threads[h].(priority := m.locks[at].maxPriority)]
                                                      [m.current := Cur(m).(pc := Following(l, at))])
  {
    SortedAlone(at, LockRank(m.locks));
  }

  /** A donation to another thread, which is ready, has one lock, and goes to place `p`. */
  lemma GivenReady(m: State, h: Tid, l: Lid, at: Lid, others: seq<Tid>, p: nat)
    requires Enabled(m, Give) && Cur(m).pc == Giving(l, at)
    requires h in m.threads && h != m.current && m.threads[h].held == [at] && m.threads[h].status == Ready
    requires m.locks[at].maxPriority > m.threads[h].base
    requires Without(m.ready, h) == others && p <= |others|
    requires forall t :: t in others ==> t in m.threads && t != h
    requires forall i :: 0 <= i < p ==> m.locks[at].maxPriority <= m.threads[others[i]].priority
    requires p < |others| ==> m.locks[at].maxPriority > m.threads[others[p]].priority
    ensures GiveState(m, h) == m.(threads := m.threads[h := m.threads[h].(priority := m.locks[at].maxPriority)]
                                                      [m.current := Cur(m).(pc := Following(l, at))],
                                  ready := InsertAt(others, p, h))
  {
    SortedAlone(at, LockRank(m.locks));
    InsertPosUnique(others, h, p, Rank(m.threads[h := m.threads[h].(priority := m.locks[at].maxPriority)]), Greater);
  }

  lemma InsertedBehindFront(ready: seq<Tid>, p: nat, t: Tid)
    requires ready != [] && 0 < p <= |ready|
    ensures InsertAt(ready, p, t)[0] == ready[0] && InsertAt(ready, p, t)[1..] == InsertAt(ready[1..], p - 1, t)
  {
  }

  /** The running thread yields, goes to place `p` of the list, and the front one runs. */
  lemma Preempted(m: State, p: nat, next: Tid)
    requires m.current in m.threads && m.idle in m.threads && m.current != m.idle && 0 < p <= |m.ready|
    requires forall t :: t in m.ready ==> t in m.threads && t != m.current
    requires forall i :: 0 <= i < p ==> m.threads[m.current].priority <= m.threads[m.ready[i]].priority
    requires p < |m.ready| ==> m.threads[m.current].priority > m.threads[m.ready[p]].priority
    requires m.ready[0] == next
    ensures Yield(m) == State(m.threads[m.current := Cur(m).(status := Ready)][next := m.threads[next].(status := Running)],
      m.locks, InsertAt(m.ready[1..], p - 1, m.current), next, m.idle)
  {
    assert next in m.ready;
    InsertPosUnique(m.ready, m.current, p, Rank(m.threads), Greater);
    InsertedBehindFront(m.ready, p, m.current);
    DispatchedFront(Yielding(m), next);
    assert Yield(m) == Schedule(Yielding(m));
  }

  lemma DispatchedFront(m: State, next: Tid)
    requires m.idle in m.threads && m.ready != [] && m.ready[0] == next && next in m.threads
    ensures Schedule(m) == State(m.threads[next := m.threads[next].(status := Running)], m.locks, m.ready[1..], next, m.idle)
  {
  }

  lemma WokenTo(m: State, t: Tid, p: nat)
    requires Enabled(m, WakeUp(t)) && p <= |m.ready|
    requires forall u :: u in m.ready ==> u in m.threads && u != t
    requires forall i :: 0 <= i < p ==> m.threads[t].priority <= m.threads[m.ready[i]].priority
    requires p < |m.ready| ==> m.threads[t].priority > m.threads[m.ready[p]].priority
    ensures AfterWakeUp(m, t) == m.(threads := m.threads[t := m.threads[t].(pc := Outside, status := Ready)],
                                    ready := InsertAt(m.ready, p, t))
  {
    InsertPosUnique(m.ready, t, p, Rank(Awakened(m, t).threads), Greater);
  }

  /** A first waiter queues, and the front of the ready list runs. */
  lemma QueuedFirst(m: State, l: Lid, next: Tid)
    requires Enabled(m, Queue) && Cur(m).pc == Wanting(l) && m.locks[l].waiters == []
    requires m.ready != [] && m.ready[0] == next && next in m.threads && next != m.current
    ensures Block(QueueState(m)) == State(m.threads[m.current := Cur(m).(status := Blocked)][next := m.threads[next].(status := Running)],
      m.locks[l := m.locks[l].(waiters := [m.current])], m.ready[1..], next, m.idle)
  {
    InsertedAlone(m.current, Rank(m.threads));
  }

  lemma FallsAsleep(m: State, next: Tid)
    requires Enabled(m, GoToSleep) && m.ready != [] && m.ready[0] == next && next in m.threads && next != m.current
    ensures Block(Drowsy(m)) == State(
      m.threads[m.current := Cur(m).(pc := Sleeping, status := Blocked)][next := m.threads[next].(status := Running)],
      m.locks, m.ready[1..], next, m.idle)
  {
  }

  lemma DroppedLast(m: State, l: Lid)
    requires Enabled(m, Drop(l)) && Cur(m).held == [l]
    ensures DropState(m, l) == SetCur(m, Cur(m).(held := [], pc := Dropping(l), priority := Cur(m).base))
  {
    assert Without([l], l) == [];
  }

  /** With nobody else ready, the thread that yields goes on. */
  lemma YieldedAlone(m: State)
    requires m.current in m.threads && m.idle in m.threads && m.current != m.idle && m.ready == []
    requires Cur(m).status == Running
    ensures Yield(m) == m
  {
    InsertedAlone(m.current, Rank(m.threads));
    DispatchedFront(Yielding(m), m.current);
    assert Yield(m) == Schedule(Yielding(m));
    assert Yield(m).threads == m.threads;
  }

  lemma WokenAlone(m: State, t: Tid)
    requires Enabled(m, WakeUp(t)) && m.ready == []
    ensures AfterWakeUp(m, t) == m.(threads := m.threads[t := m.threads[t].(pc := Outside, status := Ready)], ready := [t])
  {
    InsertedAlone(t, Rank(Awakened(m, t).threads));
  }

  /** A kernel with threads 1, 2 and 3 besides the idle thread 0; thread 1 runs. */
  function Start(p1: int, p2: int, p3: int, L: map<Lid, Lock>): State {
    State(map[0 := Fresh(Blocked, 0), 1 := Fresh(Running, p1), 2 := Fresh(Ready, p2), 3 := Fresh(Ready, p3)], L, [3, 2], 1, 0)
  }

  function Fresh(status: Status, p: int): Thread { Thread(status, p, p, [], None, Outside) }

  lemma StartList(p1: int, p2: int, p3: int, L: map<Lid, Lock>)
    requires p2 <= p3
    ensures ReadyList(Start(p1, p2, p3, L).threads, [3, 2], 0)
  {
  }

  lemma StartBooted(p1: int, p2: int, p3: int, L: map<Lid, Lock>)
    requires p2 <= p3 && forall l :: l in L ==> L[l] == Lock(None, 1, [], 0)
    ensures Booted(Start(p1, p2, p3, L))
  {
    StartList(p1, p2, p3, L);
    StartReady(p1, p2, p3, L);
  }

  lemma StartReady(p1: int, p2: int, p3: int, L: map<Lid, Lock>)
    requires ReadyList(Start(p1, p2, p3, L).threads, [3, 2], 0)
    ensures ReadyInv(Start(p1, p2, p3, L))
  {
  }

  /** A thread is created in a kernel that has just started, and is ahead of the others. */
  function Joined(s: State, t: Tid, p: int): State {
    s.(threads := s.threads[t := Fresh(Ready, p)], ready := [t] + s.ready)
  }

  lemma JoinedList(s: State, t: Tid, p: int)
    requires ReadyInv(s) && t !in s.threads
    requires forall u :: u in s.ready ==> s.threads[u].priority <= p
    ensures ReadyInv(Joined(s, t, p))
  {
    var s' := Joined(s, t, p);
    assert s'.ready[1..] == s.ready;
    forall i, j | 0 <= i < j < |s'.ready|
      ensures s'.ready[i] != s'.ready[j] && !Greater(Rank(s'.threads)(s'.ready[j]), Rank(s'.threads)(s'.ready[i]))
    {
      assert s'.ready[j] == s.ready[j - 1] && s.ready[j - 1] in s.ready;
      if i > 0 { assert s'.ready[i] == s.ready[i - 1] && s.ready[i - 1] in s.ready; }
    }
    assert forall u :: u in s'.ready <==> u == t || u in s.ready;
  }

  lemma JoinedBooted(s: State, t: Tid, p: int)
    requires Booted(s) && t !in s.threads
    requires forall u :: u in s.ready ==> s.threads[u].priority <= p
    ensures Booted(Joined(s, t, p))
  {
    JoinedList(s, t, p);
  }
}
