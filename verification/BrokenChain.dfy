/** A run from boot in which a donation stops half-way.

    Thread 2, at 40, holds lock 1 and queues for lock 0 without noting it, since thread 1, at 40,
    has its semaphore down but is not yet the holder.  Thread 3, at 60, wants lock 1 and donates to
    thread 2.  The loop ends there, and thread 1 keeps lock 0 at 40 while both wait for it at 60. */
module BrokenChain {
  import opened Wrappers
  import opened Order
  import opened Kernel
  import opened Donation
  import opened Locks
  import opened LockRuns
  import opened Scenarios

  function Snap(t1: Thread, t2: Thread, t3: Thread, l0: Lock, l1: Lock, ready: seq<Tid>, current: Tid): State {
    State(map[0 := Fresh(Blocked, 0), 1 := t1, 2 := t2, 3 := t3],
      map[0 := l0, 1 := l1], ready, current, 0)
  }

  function T0(): Trace {
    Then(Snap(Thread(Running, 40, 40, [], None, Outside), Thread(Ready, 40, 40, [], None, Outside),
      Thread(Ready, 60, 60, [], None, Outside), Lock(None, 1, [], 0), Lock(None, 1, [], 0), [3, 2], 1), Look(0), T1())
  }

  function T1(): Trace {
    Then(Snap(Thread(Running, 40, 40, [], None, Wanting(0)), Thread(Ready, 40, 40, [], None, Outside),
      Thread(Ready, 60, 60, [], None, Outside), Lock(None, 1, [], 0), Lock(None, 1, [], 0), [3, 2], 1), Pass, T2())
  }

  function T2(): Trace {
    Then(Snap(Thread(Running, 40, 40, [], None, Won(0)), Thread(Ready, 40, 40, [], None, Outside),
      Thread(Ready, 60, 60, [], None, Outside), Lock(None, 0, [], 0), Lock(None, 1, [], 0), [3, 2], 1), Preempt, T3())
  }

  function T3(): Trace {
    Then(Snap(Thread(Ready, 40, 40, [], None, Won(0)), Thread(Ready, 40, 40, [], None, Outside),
      Thread(Running, 60, 60, [], None, Outside), Lock(None, 0, [], 0), Lock(None, 1, [], 0), [2, 1], 3), GoToSleep, T4())
  }

  function T4(): Trace {
    Then(Snap(Thread(Ready, 40, 40, [], None, Won(0)), Thread(Running, 40, 40, [], None, Outside),
      Thread(Blocked, 60, 60, [], None, Sleeping), Lock(None, 0, [], 0), Lock(None, 1, [], 0), [1], 2), Look(1), T5())
  }

  function T5(): Trace {
    Then(Snap(Thread(Ready, 40, 40, [], None, Won(0)), Thread(Running, 40, 40, [], None, Wanting(1)),
      Thread(Blocked, 60, 60, [], None, Sleeping), Lock(None, 0, [], 0), Lock(None, 1, [], 0), [1], 2), Pass, T6())
  }

  function T6(): Trace {
    Then(Snap(Thread(Ready, 40, 40, [], None, Won(0)), Thread(Running, 40, 40, [], None, Won(1)),
      Thread(Blocked, 60, 60, [], None, Sleeping), Lock(None, 0, [], 0), Lock(None, 0, [], 0), [1], 2), Take, T7())
  }

  function T7(): Trace {
    Then(Snap(Thread(Ready, 40, 40, [], None, Won(0)), Thread(Running, 40, 40, [1], None, Outside),
      Thread(Blocked, 60, 60, [], None, Sleeping), Lock(None, 0, [], 0), Lock(Some(2), 0, [], 40), [1], 2), Look(0), T8())
  }

  function T8(): Trace {
    Then(Snap(Thread(Ready, 40, 40, [], None, Won(0)), Thread(Running, 40, 40, [1], None, Wanting(0)),
      Thread(Blocked, 60, 60, [], None, Sleeping), Lock(None, 0, [], 0), Lock(Some(2), 0, [], 40), [1], 2), Queue, T9())
  }

  function T9(): Trace {
    Then(Snap(Thread(Running, 40, 40, [], None, Won(0)), Thread(Blocked, 40, 40, [1], None, Wanting(0)),
      Thread(Blocked, 60, 60, [], None, Sleeping), Lock(None, 0, [2], 0), Lock(Some(2), 0, [], 40), [], 1), Take, T10())
  }

  function T10(): Trace {
    Then(Snap(Thread(Running, 40, 40, [0], None, Outside), Thread(Blocked, 40, 40, [1], None, Wanting(0)),
      Thread(Blocked, 60, 60, [], None, Sleeping), Lock(Some(1), 0, [2], 40), Lock(Some(2), 0, [], 40), [], 1), WakeUp(3), T11())
  }

  function T11(): Trace {
    Then(Snap(Thread(Running, 40, 40, [0], None, Outside), Thread(Blocked, 40, 40, [1], None, Wanting(0)),
      Thread(Ready, 60, 60, [], None, Outside), Lock(Some(1), 0, [2], 40), Lock(Some(2), 0, [], 40), [3], 1), Preempt, T12())
  }

  function T12(): Trace {
    Then(Snap(Thread(Ready, 40, 40, [0], None, Outside), Thread(Blocked, 40, 40, [1], None, Wanting(0)),
      Thread(Running, 60, 60, [], None, Outside), Lock(Some(1), 0, [2], 40), Lock(Some(2), 0, [], 40), [1], 3), Look(1), T13())
  }

  function T13(): Trace {
    Then(Snap(Thread(Ready, 40, 40, [0], None, Outside), Thread(Blocked, 40, 40, [1], None, Wanting(0)),
      Thread(Running, 60, 60, [], None, Noting(1)), Lock(Some(1), 0, [2], 40), Lock(Some(2), 0, [], 40), [1], 3), Note, T14())
  }

  function T14(): Trace {
    Then(Snap(Thread(Ready, 40, 40, [0], None, Outside), Thread(Blocked, 40, 40, [1], None, Wanting(0)),
      Thread(Running, 60, 60, [], Some(1), Testing(1, 1)), Lock(Some(1), 0, [2], 40), Lock(Some(2), 0, [], 40),
      [1], 3), Test, T15())
  }

  function T15(): Trace {
    Then(Snap(Thread(Ready, 40, 40, [0], None, Outside), Thread(Blocked, 40, 40, [1], None, Wanting(0)),
      Thread(Running, 60, 60, [], Some(1), Writing(1, 1)), Lock(Some(1), 0, [2], 40), Lock(Some(2), 0, [], 40),
      [1], 3), Write, T16())
  }

  function T16(): Trace {
    Then(Snap(Thread(Ready, 40, 40, [0], None, Outside), Thread(Blocked, 40, 40, [1], None, Wanting(0)),
      Thread(Running, 60, 60, [], Some(1), Giving(1, 1)), Lock(Some(1), 0, [2], 40), Lock(Some(2), 0, [], 60),
      [1], 3), Give, T17())
  }

  function T17(): Trace {
    Then(Snap(Thread(Ready, 40, 40, [0], None, Outside), Thread(Blocked, 60, 40, [1], None, Wanting(0)),
      Thread(Running, 60, 60, [], Some(1), Following(1, 1)), Lock(Some(1), 0, [2], 40), Lock(Some(2), 0, [], 60),
      [1], 3), Follow, T18())
  }

  function T18(): Trace {
    End(Snap(Thread(Ready, 40, 40, [0], None, Outside), Thread(Blocked, 60, 40, [1], None, Wanting(0)),
      Thread(Running, 60, 60, [], Some(1), Wanting(1)), Lock(Some(1), 0, [2], 40), Lock(Some(2), 0, [], 60), [1],
      3))
  }

  lemma From17()
    ensures Leads(T17(), T18().state)
  {
    hide Leads;
    Arrived(T18().state);
    Onward(T17(), T18().state);
  }

  lemma From16()
    ensures Leads(T16(), T18().state)
  {
    hide GiveState, Leads, T18;
    GivenAlone(T16().state, 2, 1, 1);
    From17();
    Onward(T16(), T18().state);
  }

  lemma From15()
    ensures Leads(T15(), T18().state)
  {
    hide Leads, T17, T18;
    From16();
    Onward(T15(), T18().state);
  }

  lemma From14()
    ensures Leads(T14(), T18().state)
  {
    hide Leads, T16, T18;
    From15();
    Onward(T14(), T18().state);
  }

  lemma From13()
    ensures Leads(T13(), T18().state)
  {
    hide Leads, T15, T18;
    From14();
    Onward(T13(), T18().state);
  }

  lemma From12()
    ensures Leads(T12(), T18().state)
  {
    hide Leads, T14, T18;
    From13();
    Onward(T12(), T18().state);
  }

  lemma From11()
    ensures Leads(T11(), T18().state)
  {
    hide Yield, Leads, T13, T18;
    Preempted(T11().state, 1, 3);
    From12();
    Onward(T11(), T18().state);
  }

  lemma From10()
    ensures Leads(T10(), T18().state)
  {
    hide AfterWakeUp, Leads, T12, T18;
    WokenAlone(T10().state, 3);
    From11();
    Onward(T10(), T18().state);
  }

  lemma From9()
    ensures Leads(T9(), T18().state)
  {
    hide TakeState, Leads, T11, T18;
    TakenFirst(T9().state, 0);
    From10();
    Onward(T9(), T18().state);
  }

  lemma From8()
    ensures Leads(T8(), T18().state)
  {
    hide Block, QueueState, Leads, T10, T18;
    QueuedFirst(T8().state, 0, 1);
    From9();
    Onward(T8(), T18().state);
  }

  lemma From7()
    ensures Leads(T7(), T18().state)
  {
    hide Leads, T9, T18;
    From8();
    Onward(T7(), T18().state);
  }

  lemma From6()
    ensures Leads(T6(), T18().state)
  {
    hide TakeState, Leads, T8, T18;
    TakenFirst(T6().state, 1);
    From7();
    Onward(T6(), T18().state);
  }

  lemma From5()
    ensures Leads(T5(), T18().state)
  {
    hide Leads, T7, T18;
    From6();
    Onward(T5(), T18().state);
  }

  lemma From4()
    ensures Leads(T4(), T18().state)
  {
    hide Leads, T6, T18;
    From5();
    Onward(T4(), T18().state);
  }

  lemma From3()
    ensures Leads(T3(), T18().state)
  {
    hide Block, Leads, T5, T18;
    FallsAsleep(T3().state, 2);
    From4();
    Onward(T3(), T18().state);
  }

  lemma From2()
    ensures Leads(T2(), T18().state)
  {
    hide Yield, Leads, T4, T18;
    Preempted(T2().state, 2, 3);
    From3();
    Onward(T2(), T18().state);
  }

  lemma From1()
    ensures Leads(T1(), T18().state)
  {
    hide Leads, T3, T18;
    From2();
    Onward(T1(), T18().state);
  }

  lemma From0()
    ensures Leads(T0(), T18().state)
  {
    hide Leads, T2, T18;
    From1();
    Onward(T0(), T18().state);
  }

  lemma Boots()
    ensures Booted(T0().state)
  {
    hide T1;
    StartBooted(40, 40, 60, map[0 := Lock(None, 1, [], 0), 1 := Lock(None, 1, [], 0)]);
    assert T0().state == Start(40, 40, 60, map[0 := Lock(None, 1, [], 0), 1 := Lock(None, 1, [], 0)]);
  }

  lemma Ends()
    ensures Inverted(T18().state, [3, 2, 1])
  {
    assert T18().state.threads.Keys == {0, 1, 2, 3};
  }

  /** A donation that ends at a thread which has not noted its lock leaves an inversion further on. */
  lemma InversionHappens()
    ensures RunsFromBoot(T0(), T18().state) && Inverted(T18().state, [3, 2, 1])
  {
    hide Leads, Inverted, Booted, RunsFromBoot;
    Boots();
    Ends();
    From0();
    Happens(T0(), T18().state);
  }
}
