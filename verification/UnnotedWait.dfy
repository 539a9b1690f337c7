/** A run from boot that ends in a priority inversion.

    Thread 1, at 40, has the semaphore of lock 0 down and is preempted before it becomes the
    holder.  Thread 2, at 60, sees no holder, so it neither notes the lock nor donates, and queues.
    Thread 1 then takes the lock at 40 while thread 2 waits for it at 60. */
module UnnotedWait {
  import opened Wrappers
  import opened Order
  import opened Kernel
  import opened Donation
  import opened Locks
  import opened LockRuns
  import opened Scenarios

  function Snap(t1: Thread, t2: Thread, l0: Lock, ready: seq<Tid>, current: Tid): State {
    State(map[0 := Fresh(Blocked, 0), 1 := t1, 2 := t2],
      map[0 := l0], ready, current, 0)
  }

  function T0(): Trace {
    Then(Snap(Thread(Running, 40, 40, [], None, Outside), Thread(Ready, 60, 60, [], None, Outside), Lock(None, 1, [], 0),
      [2], 1), Look(0), T1())
  }

  function T1(): Trace {
    Then(Snap(Thread(Running, 40, 40, [], None, Wanting(0)), Thread(Ready, 60, 60, [], None, Outside),
      Lock(None, 1, [], 0), [2], 1), Pass, T2())
  }

  function T2(): Trace {
    Then(Snap(Thread(Running, 40, 40, [], None, Won(0)), Thread(Ready, 60, 60, [], None, Outside), Lock(None, 0, [], 0),
      [2], 1), Preempt, T3())
  }

  function T3(): Trace {
    Then(Snap(Thread(Ready, 40, 40, [], None, Won(0)), Thread(Running, 60, 60, [], None, Outside), Lock(None, 0, [], 0),
      [1], 2), Look(0), T4())
  }

  function T4(): Trace {
    Then(Snap(Thread(Ready, 40, 40, [], None, Won(0)), Thread(Running, 60, 60, [], None, Wanting(0)),
      Lock(None, 0, [], 0), [1], 2), Queue, T5())
  }

  function T5(): Trace {
    Then(Snap(Thread(Running, 40, 40, [], None, Won(0)), Thread(Blocked, 60, 60, [], None, Wanting(0)),
      Lock(None, 0, [2], 0), [], 1), Take, T6())
  }

  function T6(): Trace {
    End(Snap(Thread(Running, 40, 40, [0], None, Outside), Thread(Blocked, 60, 60, [], None, Wanting(0)),
      Lock(Some(1), 0, [2], 40), [], 1))
  }

  lemma From5()
    ensures Leads(T5(), T6().state)
  {
    hide TakeState, Leads;
    TakenFirst(T5().state, 0);
    Arrived(T6().state);
    Onward(T5(), T6().state);
  }

  lemma From4()
    ensures Leads(T4(), T6().state)
  {
    hide Block, QueueState, Leads, T6;
    QueuedFirst(T4().state, 0, 1);
    From5();
    Onward(T4(), T6().state);
  }

  lemma From3()
    ensures Leads(T3(), T6().state)
  {
    hide Leads, T5, T6;
    From4();
    Onward(T3(), T6().state);
  }

  lemma From2()
    ensures Leads(T2(), T6().state)
  {
    hide Yield, Leads, T4, T6;
    Preempted(T2().state, 1, 2);
    From3();
    Onward(T2(), T6().state);
  }

  lemma From1()
    ensures Leads(T1(), T6().state)
  {
    hide Leads, T3, T6;
    From2();
    Onward(T1(), T6().state);
  }

  lemma From0()
    ensures Leads(T0(), T6().state)
  {
    hide Leads, T2, T6;
    From1();
    Onward(T0(), T6().state);
  }

  lemma Boots()
    ensures Booted(T0().state)
  {
    hide T1;
    assert T0().state.threads.Keys == {0, 1, 2};
    assert ReadyList(T0().state.threads, T0().state.ready, 0);
  }

  lemma Ends()
    ensures Inverted(T6().state, [2, 1])
  {
    assert T6().state.threads.Keys == {0, 1, 2};
  }

  /** Donation does not prevent this inversion: the taker is not the top contender. */
  lemma InversionHappens()
    ensures RunsFromBoot(T0(), T6().state) && Inverted(T6().state, [2, 1])
  {
    hide Leads, Inverted, Booted, RunsFromBoot;
    Boots();
    Ends();
    From0();
    Happens(T0(), T6().state);
  }
}
