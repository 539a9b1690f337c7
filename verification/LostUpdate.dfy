/** A run from boot in which a donation is undone.

    Thread 1, at 30, holds lock 0.  Thread 2, at 50, finds its priority higher than that of the
    lock and is preempted before it stores it.  Thread 3, at 60, donates to the end and queues.
    Thread 2 goes on, stores 50 over 60, and so lowers thread 1 to 50 while thread 3 waits at 60. */
module LostUpdate {
  import opened Wrappers
  import opened Order
  import opened Kernel
  import opened Donation
  import opened Locks
  import opened LockRuns
  import opened Scenarios

  function Snap(t1: Thread, t2: Thread, t3: Thread, l0: Lock, ready: seq<Tid>, current: Tid): State {
    State(map[0 := Fresh(Blocked, 0), 1 := t1, 2 := t2, 3 := t3],
      map[0 := l0], ready, current, 0)
  }

  function T0(): Trace {
    Then(Snap(Thread(Running, 30, 30, [], None, Outside), Thread(Ready, 50, 50, [], None, Outside),
      Thread(Ready, 60, 60, [], None, Outside), Lock(None, 1, [], 0), [3, 2], 1), Look(0), T1())
  }

  function T1(): Trace {
    Then(Snap(Thread(Running, 30, 30, [], None, Wanting(0)), Thread(Ready, 50, 50, [], None, Outside),
      Thread(Ready, 60, 60, [], None, Outside), Lock(None, 1, [], 0), [3, 2], 1), Pass, T2())
  }

  function T2(): Trace {
    Then(Snap(Thread(Running, 30, 30, [], None, Won(0)), Thread(Ready, 50, 50, [], None, Outside),
      Thread(Ready, 60, 60, [], None, Outside), Lock(None, 0, [], 0), [3, 2], 1), Take, T3())
  }

  function T3(): Trace {
    Then(Snap(Thread(Running, 30, 30, [0], None, Outside), Thread(Ready, 50, 50, [], None, Outside),
      Thread(Ready, 60, 60, [], None, Outside), Lock(Some(1), 0, [], 30), [3, 2], 1), Preempt, T4())
  }

  function T4(): Trace {
    Then(Snap(Thread(Ready, 30, 30, [0], None, Outside), Thread(Ready, 50, 50, [], None, Outside),
      Thread(Running, 60, 60, [], None, Outside), Lock(Some(1), 0, [], 30), [2, 1], 3), GoToSleep, T5())
  }

  function T5(): Trace {
    Then(Snap(Thread(Ready, 30, 30, [0], None, Outside), Thread(Running, 50, 50, [], None, Outside),
      Thread(Blocked, 60, 60, [], None, Sleeping), Lock(Some(1), 0, [], 30), [1], 2), Look(0), T6())
  }

  function T6(): Trace {
    Then(Snap(Thread(Ready, 30, 30, [0], None, Outside), Thread(Running, 50, 50, [], None, Noting(0)),
      Thread(Blocked, 60, 60, [], None, Sleeping), Lock(Some(1), 0, [], 30), [1], 2), Note, T7())
  }

  function T7(): Trace {
    Then(Snap(Thread(Ready, 30, 30, [0], None, Outside), Thread(Running, 50, 50, [], Some(0), Testing(0, 0)),
      Thread(Blocked, 60, 60, [], None, Sleeping), Lock(Some(1), 0, [], 30), [1], 2), Test, T8())
  }

  function T8(): Trace {
    Then(Snap(Thread(Ready, 30, 30, [0], None, Outside), Thread(Running, 50, 50, [], Some(0), Writing(0, 0)),
      Thread(Blocked, 60, 60, [], None, Sleeping), Lock(Some(1), 0, [], 30), [1], 2), WakeUp(3), T9())
  }

  function T9(): Trace {
    Then(Snap(Thread(Ready, 30, 30, [0], None, Outside), Thread(Running, 50, 50, [], Some(0), Writing(0, 0)),
      Thread(Ready, 60, 60, [], None, Outside), Lock(Some(1), 0, [], 30), [3, 1], 2), Preempt, T10())
  }

  function T10(): Trace {
    Then(Snap(Thread(Ready, 30, 30, [0], None, Outside), Thread(Ready, 50, 50, [], Some(0), Writing(0, 0)),
      Thread(Running, 60, 60, [], None, Outside), Lock(Some(1), 0, [], 30), [2, 1], 3), Look(0), T11())
  }

  function T11(): Trace {
    Then(Snap(Thread(Ready, 30, 30, [0], None, Outside), Thread(Ready, 50, 50, [], Some(0), Writing(0, 0)),
      Thread(Running, 60, 60, [], None, Noting(0)), Lock(Some(1), 0, [], 30), [2, 1], 3), Note, T12())
  }

  function T12(): Trace {
    Then(Snap(Thread(Ready, 30, 30, [0], None, Outside), Thread(Ready, 50, 50, [], Some(0), Writing(0, 0)),
      Thread(Running, 60, 60, [], Some(0), Testing(0, 0)), Lock(Some(1), 0, [], 30), [2, 1], 3), Test, T13())
  }

  function T13(): Trace {
    Then(Snap(Thread(Ready, 30, 30, [0], None, Outside), Thread(Ready, 50, 50, [], Some(0), Writing(0, 0)),
      Thread(Running, 60, 60, [], Some(0), Writing(0, 0)), Lock(Some(1), 0, [], 30), [2, 1], 3), Write, T14())
  }

  function T14(): Trace {
    Then(Snap(Thread(Ready, 30, 30, [0], None, Outside), Thread(Ready, 50, 50, [], Some(0), Writing(0, 0)),
      Thread(Running, 60, 60, [], Some(0), Giving(0, 0)), Lock(Some(1), 0, [], 60), [2, 1], 3), Give, T15())
  }

  function T15(): Trace {
    Then(Snap(Thread(Ready, 60, 30, [0], None, Outside), Thread(Ready, 50, 50, [], Some(0), Writing(0, 0)),
      Thread(Running, 60, 60, [], Some(0), Following(0, 0)), Lock(Some(1), 0, [], 60), [1, 2], 3), Follow, T16())
  }

  function T16(): Trace {
    Then(Snap(Thread(Ready, 60, 30, [0], None, Outside), Thread(Ready, 50, 50, [], Some(0), Writing(0, 0)),
      Thread(Running, 60, 60, [], Some(0), Wanting(0)), Lock(Some(1), 0, [], 60), [1, 2], 3), Queue, T17())
  }

  function T17(): Trace {
    Then(Snap(Thread(Running, 60, 30, [0], None, Outside), Thread(Ready, 50, 50, [], Some(0), Writing(0, 0)),
      Thread(Blocked, 60, 60, [], Some(0), Wanting(0)), Lock(Some(1), 0, [3], 60), [2], 1), GoToSleep, T18())
  }

  function T18(): Trace {
    Then(Snap(Thread(Blocked, 60, 30, [0], None, Sleeping), Thread(Running, 50, 50, [], Some(0), Writing(0, 0)),
      Thread(Blocked, 60, 60, [], Some(0), Wanting(0)), Lock(Some(1), 0, [3], 60), [], 2), Write, T19())
  }

  function T19(): Trace {
    Then(Snap(Thread(Blocked, 60, 30, [0], None, Sleeping), Thread(Running, 50, 50, [], Some(0), Giving(0, 0)),
      Thread(Blocked, 60, 60, [], Some(0), Wanting(0)), Lock(Some(1), 0, [3], 50), [], 2), Give, T20())
  }

  function T20(): Trace {
    Then(Snap(Thread(Blocked, 50, 30, [0], None, Sleeping), Thread(Running, 50, 50, [], Some(0), Following(0, 0)),
      Thread(Blocked, 60, 60, [], Some(0), Wanting(0)), Lock(Some(1), 0, [3], 50), [], 2), Follow, T21())
  }

  function T21(): Trace {
    End(Snap(Thread(Blocked, 50, 30, [0], None, Sleeping), Thread(Running, 50, 50, [], Some(0), Wanting(0)),
      Thread(Blocked, 60, 60, [], Some(0), Wanting(0)), Lock(Some(1), 0, [3], 50), [], 2))
  }

  lemma From20()
    ensures Leads(T20(), T21().state)
  {
    hide Leads;
    Arrived(T21().state);
    Onward(T20(), T21().state);
  }

  lemma From19()
    ensures Leads(T19(), T21().state)
  {
    hide GiveState, Leads, T21;
    GivenAlone(T19().state, 1, 0, 0);
    From20();
    Onward(T19(), T21().state);
  }

  lemma From18()
    ensures Leads(T18(), T21().state)
  {
    hide Leads, T20, T21;
    From19();
    Onward(T18(), T21().state);
  }

  lemma From17()
    ensures Leads(T17(), T21().state)
  {
    hide Block, Leads, T19, T21;
    FallsAsleep(T17().state, 2);
    From18();
    Onward(T17(), T21().state);
  }

  lemma From16()
    ensures Leads(T16(), T21().state)
  {
    hide Block, QueueState, Leads, T18, T21;
    QueuedFirst(T16().state, 0, 1);
    From17();
    Onward(T16(), T21().state);
  }

  lemma From15()
    ensures Leads(T15(), T21().state)
  {
    hide Leads, T17, T21;
    From16();
    Onward(T15(), T21().state);
  }

  lemma From14()
    ensures Leads(T14(), T21().state)
  {
    hide GiveState, Leads, T16, T21;
    GivenReady(T14().state, 1, 0, 0, [2], 0);
    From15();
    Onward(T14(), T21().state);
  }

  lemma From13()
    ensures Leads(T13(), T21().state)
  {
    hide Leads, T15, T21;
    From14();
    Onward(T13(), T21().state);
  }

  lemma From12()
    ensures Leads(T12(), T21().state)
  {
    hide Leads, T14, T21;
    From13();
    Onward(T12(), T21().state);
  }

  lemma From11()
    ensures Leads(T11(), T21().state)
  {
    hide Leads, T13, T21;
    From12();
    Onward(T11(), T21().state);
  }

  lemma From10()
    ensures Leads(T10(), T21().state)
  {
    hide Leads, T12, T21;
    From11();
    Onward(T10(), T21().state);
  }

  lemma From9()
    ensures Leads(T9(), T21().state)
  {
    hide Yield, Leads, T11, T21;
    Preempted(T9().state, 1, 3);
    From10();
    Onward(T9(), T21().state);
  }

  lemma From8()
    ensures Leads(T8(), T21().state)
  {
    hide AfterWakeUp, Leads, T10, T21;
    WokenTo(T8().state, 3, 0);
    From9();
    Onward(T8(), T21().state);
  }

  lemma From7()
    ensures Leads(T7(), T21().state)
  {
    hide Leads, T9, T21;
    From8();
    Onward(T7(), T21().state);
  }

  lemma From6()
    ensures Leads(T6(), T21().state)
  {
    hide Leads, T8, T21;
    From7();
    Onward(T6(), T21().state);
  }

  lemma From5()
    ensures Leads(T5(), T21().state)
  {
    hide Leads, T7, T21;
    From6();
    Onward(T5(), T21().state);
  }

  lemma From4()
    ensures Leads(T4(), T21().state)
  {
    hide Block, Leads, T6, T21;
    FallsAsleep(T4().state, 2);
    From5();
    Onward(T4(), T21().state);
  }

  lemma From3()
    ensures Leads(T3(), T21().state)
  {
    hide Yield, Leads, T5, T21;
    Preempted(T3().state, 2, 3);
    From4();
    Onward(T3(), T21().state);
  }

  lemma From2()
    ensures Leads(T2(), T21().state)
  {
    hide TakeState, Leads, T4, T21;
    TakenFirst(T2().state, 0);
    From3();
    Onward(T2(), T21().state);
  }

  lemma From1()
    ensures Leads(T1(), T21().state)
  {
    hide Leads, T3, T21;
    From2();
    Onward(T1(), T21().state);
  }

  lemma From0()
    ensures Leads(T0(), T21().state)
  {
    hide Leads, T2, T21;
    From1();
    Onward(T0(), T21().state);
  }

  lemma Boots()
    ensures Booted(T0().state)
  {
    hide T1;
    StartBooted(30, 50, 60, map[0 := Lock(None, 1, [], 0)]);
    assert T0().state == Start(30, 50, 60, map[0 := Lock(None, 1, [], 0)]);
  }

  lemma Ends()
    ensures Inverted(T21().state, [3, 1])
  {
    assert T21().state.threads.Keys == {0, 1, 2, 3};
  }

  /** The store of a lower priority over a higher one leaves an inversion. */
  lemma InversionHappens()
    ensures RunsFromBoot(T0(), T21().state) && Inverted(T21().state, [3, 1])
  {
    hide Leads, Inverted, Booted, RunsFromBoot;
    Boots();
    Ends();
    From0();
    Happens(T0(), T21().state);
  }
}
