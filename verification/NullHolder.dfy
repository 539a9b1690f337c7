/** A run from boot in which the donation loop reads the fields of a missing holder.

    Thread 2, at 50, holds lock 1 and waits for lock 0.  Thread 1 is preempted in the middle of
    releasing lock 0, which has no holder then.  Thread 3, at 60, wants lock 1, and its loop goes
    from thread 2 to lock 0 without being interrupted. */
module NullHolder {
  import opened Wrappers
  import opened Order
  import opened Kernel
  import opened Donation
  import opened Locks
  import opened LockRuns
  import opened Scenarios

  function Snap(t1: Thread, t2: Thread, t3: Thread, l0: Lock, l1: Lock, ready: seq<Tid>, current: Tid): State {
    State(map[0 := Fresh(Blocked, 0), 1 := t1, 2 := t2, 3 := t3],
      map[0 := l0, 1 := l1], ready, current, 0)
  }

  function T0(): Trace {
    Then(Snap(Thread(Running, 50, 50, [], None, Outside), Thread(Ready, 50, 50, [], None, Outside),
      Thread(Ready, 60, 60, [], None, Outside), Lock(None, 1, [], 0), Lock(None, 1, [], 0), [3, 2], 1), Look(0), T1())
  }

  function T1(): Trace {
    Then(Snap(Thread(Running, 50, 50, [], None, Wanting(0)), Thread(Ready, 50, 50, [], None, Outside),
      Thread(Ready, 60, 60, [], None, Outside), Lock(None, 1, [], 0), Lock(None, 1, [], 0), [3, 2], 1), Pass, T2())
  }

  function T2(): Trace {
    Then(Snap(Thread(Running, 50, 50, [], None, Won(0)), Thread(Ready, 50, 50, [], None, Outside),
      Thread(Ready, 60, 60, [], None, Outside), Lock(None, 0, [], 0), Lock(None, 1, [], 0), [3, 2], 1), Take, T3())
  }

  function T3(): Trace {
    Then(Snap(Thread(Running, 50, 50, [0], None, Outside), Thread(Ready, 50, 50, [], None, Outside),
      Thread(Ready, 60, 60, [], None, Outside), Lock(Some(1), 0, [], 50), Lock(None, 1, [], 0), [3, 2], 1), Preempt, T4())
  }

  function T4(): Trace {
    Then(Snap(Thread(Ready, 50, 50, [0], None, Outside), Thread(Ready, 50, 50, [], None, Outside),
      Thread(Running, 60, 60, [], None, Outside), Lock(Some(1), 0, [], 50), Lock(None, 1, [], 0), [2, 1], 3), GoToSleep, T5())
  }

  function T5(): Trace {
    Then(Snap(Thread(Ready, 50, 50, [0], None, Outside), Thread(Running, 50, 50, [], None, Outside),
      Thread(Blocked, 60, 60, [], None, Sleeping), Lock(Some(1), 0, [], 50), Lock(None, 1, [], 0), [1], 2), Look(1), T6())
  }

  function T6(): Trace {
    Then(Snap(Thread(Ready, 50, 50, [0], None, Outside), Thread(Running, 50, 50, [], None, Wanting(1)),
      Thread(Blocked, 60, 60, [], None, Sleeping), Lock(Some(1), 0, [], 50), Lock(None, 1, [], 0), [1], 2), Pass, T7())
  }

  function T7(): Trace {
    Then(Snap(Thread(Ready, 50, 50, [0], None, Outside), Thread(Running, 50, 50, [], None, Won(1)),
      Thread(Blocked, 60, 60, [], None, Sleeping), Lock(Some(1), 0, [], 50), Lock(None, 0, [], 0), [1], 2), Take, T8())
  }

  function T8(): Trace {
    Then(Snap(Thread(Ready, 50, 50, [0], None, Outside), Thread(Running, 50, 50, [1], None, Outside),
      Thread(Blocked, 60, 60, [], None, Sleeping), Lock(Some(1), 0, [], 50), Lock(Some(2), 0, [], 50), [1], 2), Look(0), T9())
  }

  function T9(): Trace {
    Then(Snap(Thread(Ready, 50, 50, [0], None, Outside), Thread(Running, 50, 50, [1], None, Noting(0)),
      Thread(Blocked, 60, 60, [], None, Sleeping), Lock(Some(1), 0, [], 50), Lock(Some(2), 0, [], 50), [1], 2), Note, T10())
  }

  function T10(): Trace {
    Then(Snap(Thread(Ready, 50, 50, [0], None, Outside), Thread(Running, 50, 50, [1], Some(0), Testing(0, 0)),
      Thread(Blocked, 60, 60, [], None, Sleeping), Lock(Some(1), 0, [], 50), Lock(Some(2), 0, [], 50), [1], 2), Test, T11())
  }

  function T11(): Trace {
    Then(Snap(Thread(Ready, 50, 50, [0], None, Outside), Thread(Running, 50, 50, [1], Some(0), Wanting(0)),
      Thread(Blocked, 60, 60, [], None, Sleeping), Lock(Some(1), 0, [], 50), Lock(Some(2), 0, [], 50), [1], 2), Queue, T12())
  }

  function T12(): Trace {
    Then(Snap(Thread(Running, 50, 50, [0], None, Outside), Thread(Blocked, 50, 50, [1], Some(0), Wanting(0)),
      Thread(Blocked, 60, 60, [], None, Sleeping), Lock(Some(1), 0, [2], 50), Lock(Some(2), 0, [], 50), [], 1), Drop(0), T13())
  }

  function T13(): Trace {
    Then(Snap(Thread(Running, 50, 50, [], None, Dropping(0)), Thread(Blocked, 50, 50, [1], Some(0), Wanting(0)),
      Thread(Blocked, 60, 60, [], None, Sleeping), Lock(Some(1), 0, [2], 50), Lock(Some(2), 0, [], 50), [], 1), Clear, T14())
  }

  function T14(): Trace {
    Then(Snap(Thread(Running, 50, 50, [], None, Cleared(0)), Thread(Blocked, 50, 50, [1], Some(0), Wanting(0)),
      Thread(Blocked, 60, 60, [], None, Sleeping), Lock(None, 0, [2], 50), Lock(Some(2), 0, [], 50), [], 1), WakeUp(3), T15())
  }

  function T15(): Trace {
    Then(Snap(Thread(Running, 50, 50, [], None, Cleared(0)), Thread(Blocked, 50, 50, [1], Some(0), Wanting(0)),
      Thread(Ready, 60, 60, [], None, Outside), Lock(None, 0, [2], 50), Lock(Some(2), 0, [], 50), [3], 1), Preempt, T16())
  }

  function T16(): Trace {
    Then(Snap(Thread(Ready, 50, 50, [], None, Cleared(0)), Thread(Blocked, 50, 50, [1], Some(0), Wanting(0)),
      Thread(Running, 60, 60, [], None, Outside), Lock(None, 0, [2], 50), Lock(Some(2), 0, [], 50), [1], 3), Look(1), T17())
  }

  function T17(): Trace {
    Then(Snap(Thread(Ready, 50, 50, [], None, Cleared(0)), Thread(Blocked, 50, 50, [1], Some(0), Wanting(0)),
      Thread(Running, 60, 60, [], None, Noting(1)), Lock(None, 0, [2], 50), Lock(Some(2), 0, [], 50), [1], 3), Note, T18())
  }

  function T18(): Trace {
    Then(Snap(Thread(Ready, 50, 50, [], None, Cleared(0)), Thread(Blocked, 50, 50, [1], Some(0), Wanting(0)),
      Thread(Running, 60, 60, [], Some(1), Testing(1, 1)), Lock(None, 0, [2], 50), Lock(Some(2), 0, [], 50), [1],
      3), Test, T19())
  }

  function T19(): Trace {
    Then(Snap(Thread(Ready, 50, 50, [], None, Cleared(0)), Thread(Blocked, 50, 50, [1], Some(0), Wanting(0)),
      Thread(Running, 60, 60, [], Some(1), Writing(1, 1)), Lock(None, 0, [2], 50), Lock(Some(2), 0, [], 50), [1],
      3), Write, T20())
  }

  function T20(): Trace {
    Then(Snap(Thread(Ready, 50, 50, [], None, Cleared(0)), Thread(Blocked, 50, 50, [1], Some(0), Wanting(0)),
      Thread(Running, 60, 60, [], Some(1), Giving(1, 1)), Lock(None, 0, [2], 50), Lock(Some(2), 0, [], 60), [1],
      3), Give, T21())
  }

  function T21(): Trace {
    Then(Snap(Thread(Ready, 50, 50, [], None, Cleared(0)), Thread(Blocked, 60, 50, [1], Some(0), Wanting(0)),
      Thread(Running, 60, 60, [], Some(1), Following(1, 1)), Lock(None, 0, [2], 50), Lock(Some(2), 0, [], 60),
      [1], 3), Follow, T22())
  }

  function T22(): Trace {
    Then(Snap(Thread(Ready, 50, 50, [], None, Cleared(0)), Thread(Blocked, 60, 50, [1], Some(0), Wanting(0)),
      Thread(Running, 60, 60, [], Some(1), Testing(1, 0)), Lock(None, 0, [2], 50), Lock(Some(2), 0, [], 60), [1],
      3), Test, T23())
  }

  function T23(): Trace {
    Then(Snap(Thread(Ready, 50, 50, [], None, Cleared(0)), Thread(Blocked, 60, 50, [1], Some(0), Wanting(0)),
      Thread(Running, 60, 60, [], Some(1), Writing(1, 0)), Lock(None, 0, [2], 50), Lock(Some(2), 0, [], 60), [1],
      3), Write, T24())
  }

  function T24(): Trace {
    End(Snap(Thread(Ready, 50, 50, [], None, Cleared(0)), Thread(Blocked, 60, 50, [1], Some(0), Wanting(0)),
      Thread(Running, 60, 60, [], Some(1), Giving(1, 0)), Lock(None, 0, [2], 60), Lock(Some(2), 0, [], 60), [1],
      3))
  }

  lemma From23()
    ensures Leads(T23(), T24().state)
  {
    hide Leads;
    Arrived(T24().state);
    Onward(T23(), T24().state);
  }

  lemma From22()
    ensures Leads(T22(), T24().state)
  {
    hide Leads, T24;
    From23();
    Onward(T22(), T24().state);
  }

  lemma From21()
    ensures Leads(T21(), T24().state)
  {
    hide Leads, T23, T24;
    From22();
    Onward(T21(), T24().state);
  }

  lemma From20()
    ensures Leads(T20(), T24().state)
  {
    hide GiveState, Leads, T22, T24;
    GivenAlone(T20().state, 2, 1, 1);
    From21();
    Onward(T20(), T24().state);
  }

  lemma From19()
    ensures Leads(T19(), T24().state)
  {
    hide Leads, T21, T24;
    From20();
    Onward(T19(), T24().state);
  }

  lemma From18()
    ensures Leads(T18(), T24().state)
  {
    hide Leads, T20, T24;
    From19();
    Onward(T18(), T24().state);
  }

  lemma From17()
    ensures Leads(T17(), T24().state)
  {
    hide Leads, T19, T24;
    From18();
    Onward(T17(), T24().state);
  }

  lemma From16()
    ensures Leads(T16(), T24().state)
  {
    hide Leads, T18, T24;
    From17();
    Onward(T16(), T24().state);
  }

  lemma From15()
    ensures Leads(T15(), T24().state)
  {
    hide Yield, Leads, T17, T24;
    Preempted(T15().state, 1, 3);
    From16();
    Onward(T15(), T24().state);
  }

  lemma From14()
    ensures Leads(T14(), T24().state)
  {
    hide AfterWakeUp, Leads, T16, T24;
    WokenAlone(T14().state, 3);
    From15();
    Onward(T14(), T24().state);
  }

  lemma From13()
    ensures Leads(T13(), T24().state)
  {
    hide Leads, T15, T24;
    From14();
    Onward(T13(), T24().state);
  }

  lemma From12()
    ensures Leads(T12(), T24().state)
  {
    hide DropState, Leads, T14, T24;
    DroppedLast(T12().state, 0);
    From13();
    Onward(T12(), T24().state);
  }

  lemma From11()
    ensures Leads(T11(), T24().state)
  {
    hide Block, QueueState, Leads, T13, T24;
    QueuedFirst(T11().state, 0, 1);
    From12();
    Onward(T11(), T24().state);
  }

  lemma From10()
    ensures Leads(T10(), T24().state)
  {
    hide Leads, T12, T24;
    From11();
    Onward(T10(), T24().state);
  }

  lemma From9()
    ensures Leads(T9(), T24().state)
  {
    hide Leads, T11, T24;
    From10();
    Onward(T9(), T24().state);
  }

  lemma From8()
    ensures Leads(T8(), T24().state)
  {
    hide Leads, T10, T24;
    From9();
    Onward(T8(), T24().state);
  }

  lemma From7()
    ensures Leads(T7(), T24().state)
  {
    hide TakeState, Leads, T9, T24;
    TakenFirst(T7().state, 1);
    From8();
    Onward(T7(), T24().state);
  }

  lemma From6()
    ensures Leads(T6(), T24().state)
  {
    hide Leads, T8, T24;
    From7();
    Onward(T6(), T24().state);
  }

  lemma From5()
    ensures Leads(T5(), T24().state)
  {
    hide Leads, T7, T24;
    From6();
    Onward(T5(), T24().state);
  }

  lemma From4()
    ensures Leads(T4(), T24().state)
  {
    hide Block, Leads, T6, T24;
    FallsAsleep(T4().state, 2);
    From5();
    Onward(T4(), T24().state);
  }

  lemma From3()
    ensures Leads(T3(), T24().state)
  {
    hide Yield, Leads, T5, T24;
    Preempted(T3().state, 2, 3);
    From4();
    Onward(T3(), T24().state);
  }

  lemma From2()
    ensures Leads(T2(), T24().state)
  {
    hide TakeState, Leads, T4, T24;
    TakenFirst(T2().state, 0);
    From3();
    Onward(T2(), T24().state);
  }

  lemma From1()
    ensures Leads(T1(), T24().state)
  {
    hide Leads, T3, T24;
    From2();
    Onward(T1(), T24().state);
  }

  lemma From0()
    ensures Leads(T0(), T24().state)
  {
    hide Leads, T2, T24;
    From1();
    Onward(T0(), T24().state);
  }

  lemma Boots()
    ensures Booted(T0().state)
  {
    hide T1;
    StartBooted(50, 50, 60, map[0 := Lock(None, 1, [], 0), 1 := Lock(None, 1, [], 0)]);
    assert T0().state == Start(50, 50, 60, map[0 := Lock(None, 1, [], 0), 1 := Lock(None, 1, [], 0)]);
  }

  lemma Faulty(m: State)
    requires Inv(m) && Enabled(m, Give) && m.locks[Cur(m).pc.at].holder == None
    ensures Apply(m, Give) == Fault
  {
  }

  lemma Ends()
    ensures Enabled(T24().state, Give) && T24().state.locks[Cur(T24().state).pc.at].holder == None
  {
  }

  /** The run is possible, and its next step faults. */
  lemma FaultHappens()
    ensures RunsFromBoot(T0(), T24().state) && Enabled(T24().state, Give) && Apply(T24().state, Give) == Fault
  {
    hide Leads, Booted;
    Boots();
    Ends();
    From0();
    Happens(T0(), T24().state);
    Faulty(T24().state);
  }
}
