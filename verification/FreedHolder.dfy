/** A run from boot in which a thread is preempted between donating to a holder and going on from it,
    and that holder gives the lock up meanwhile.

    Thread 1, at 30, takes lock 0.  Thread 2, at 40, donates to it and is preempted.  Thread 1, now
    at 40, starts to release the lock, which has no holder then, and is preempted.  Thread 2 goes on
    and reads what the holder of lock 0 waits for. */
module FreedHolder {
  import opened Wrappers
  import opened Order
  import opened Kernel
  import opened Donation
  import opened Locks
  import opened LockRuns
  import opened Scenarios

  function Snap(t1: Thread, t2: Thread, l0: Lock, ready: seq<Tid>, current: Tid): State {
    State(map[0 := Fresh(Blocked, 0), 1 := t1, 2 := t2],
      map[0 := l0], ready, current, 0)
  }

  function T0(): Trace {
    Then(Snap(Thread(Running, 30, 30, [], None, Outside), Thread(Ready, 40, 40, [], None, Outside), Lock(None, 1, [], 0),
      [2], 1), Look(0), T1())
  }

  function T1(): Trace {
    Then(Snap(Thread(Running, 30, 30, [], None, Wanting(0)), Thread(Ready, 40, 40, [], None, Outside),
      Lock(None, 1, [], 0), [2], 1), Pass, T2())
  }

  function T2(): Trace {
    Then(Snap(Thread(Running, 30, 30, [], None, Won(0)), Thread(Ready, 40, 40, [], None, Outside), Lock(None, 0, [], 0),
      [2], 1), Take, T3())
  }

  function T3(): Trace {
    Then(Snap(Thread(Running, 30, 30, [0], None, Outside), Thread(Ready, 40, 40, [], None, Outside),
      Lock(Some(1), 0, [], 30), [2], 1), Preempt, T4())
  }

  function T4(): Trace {
    Then(Snap(Thread(Ready, 30, 30, [0], None, Outside), Thread(Running, 40, 40, [], None, Outside),
      Lock(Some(1), 0, [], 30), [1], 2), Look(0), T5())
  }

  function T5(): Trace {
    Then(Snap(Thread(Ready, 30, 30, [0], None, Outside), Thread(Running, 40, 40, [], None, Noting(0)),
      Lock(Some(1), 0, [], 30), [1], 2), Note, T6())
  }

  function T6(): Trace {
    Then(Snap(Thread(Ready, 30, 30, [0], None, Outside), Thread(Running, 40, 40, [], Some(0), Testing(0, 0)),
      Lock(Some(1), 0, [], 30), [1], 2), Test, T7())
  }

  function T7(): Trace {
    Then(Snap(Thread(Ready, 30, 30, [0], None, Outside), Thread(Running, 40, 40, [], Some(0), Writing(0, 0)),
      Lock(Some(1), 0, [], 30), [1], 2), Write, T8())
  }

  function T8(): Trace {
    Then(Snap(Thread(Ready, 30, 30, [0], None, Outside), Thread(Running, 40, 40, [], Some(0), Giving(0, 0)),
      Lock(Some(1), 0, [], 40), [1], 2), Give, T9())
  }

  function T9(): Trace {
    Then(Snap(Thread(Ready, 40, 30, [0], None, Outside), Thread(Running, 40, 40, [], Some(0), Following(0, 0)),
      Lock(Some(1), 0, [], 40), [1], 2), Preempt, T10())
  }

  function T10(): Trace {
    Then(Snap(Thread(Running, 40, 30, [0], None, Outside), Thread(Ready, 40, 40, [], Some(0), Following(0, 0)),
      Lock(Some(1), 0, [], 40), [2], 1), Drop(0), T11())
  }

  function T11(): Trace {
    Then(Snap(Thread(Running, 30, 30, [], None, Dropping(0)), Thread(Ready, 40, 40, [], Some(0), Following(0, 0)),
      Lock(Some(1), 0, [], 40), [2], 1), Clear, T12())
  }

  function T12(): Trace {
    Then(Snap(Thread(Running, 30, 30, [], None, Cleared(0)), Thread(Ready, 40, 40, [], Some(0), Following(0, 0)),
      Lock(None, 0, [], 40), [2], 1), Preempt, T13())
  }

  function T13(): Trace {
    End(Snap(Thread(Ready, 30, 30, [], None, Cleared(0)), Thread(Running, 40, 40, [], Some(0), Following(0, 0)),
      Lock(None, 0, [], 40), [1], 2))
  }

  lemma From12()
    ensures Leads(T12(), T13().state)
  {
    hide Yield, Leads;
    Preempted(T12().state, 1, 2);
    Arrived(T13().state);
    Onward(T12(), T13().state);
  }

  lemma From11()
    ensures Leads(T11(), T13().state)
  {
    hide Leads, T13;
    From12();
    Onward(T11(), T13().state);
  }

  lemma From10()
    ensures Leads(T10(), T13().state)
  {
    hide DropState, Leads, T12, T13;
    DroppedLast(T10().state, 0);
    From11();
    Onward(T10(), T13().state);
  }

  lemma From9()
    ensures Leads(T9(), T13().state)
  {
    hide Yield, Leads, T11, T13;
    Preempted(T9().state, 1, 1);
    From10();
    Onward(T9(), T13().state);
  }

  lemma From8()
    ensures Leads(T8(), T13().state)
  {
    hide GiveState, Leads, T10, T13;
    GivenReady(T8().state, 1, 0, 0, [], 0);
    From9();
    Onward(T8(), T13().state);
  }

  lemma From7()
    ensures Leads(T7(), T13().state)
  {
    hide Leads, T9, T13;
    From8();
    Onward(T7(), T13().state);
  }

  lemma From6()
    ensures Leads(T6(), T13().state)
  {
    hide Leads, T8, T13;
    From7();
    Onward(T6(), T13().state);
  }

  lemma From5()
    ensures Leads(T5(), T13().state)
  {
    hide Leads, T7, T13;
    From6();
    Onward(T5(), T13().state);
  }

  lemma From4()
    ensures Leads(T4(), T13().state)
  {
    hide Leads, T6, T13;
    From5();
    Onward(T4(), T13().state);
  }

  lemma From3()
    ensures Leads(T3(), T13().state)
  {
    hide Yield, Leads, T5, T13;
    Preempted(T3().state, 1, 2);
    From4();
    Onward(T3(), T13().state);
  }

  lemma From2()
    ensures Leads(T2(), T13().state)
  {
    hide TakeState, Leads, T4, T13;
    TakenFirst(T2().state, 0);
    From3();
    Onward(T2(), T13().state);
  }

  lemma From1()
    ensures Leads(T1(), T13().state)
  {
    hide Leads, T3, T13;
    From2();
    Onward(T1(), T13().state);
  }

  lemma From0()
    ensures Leads(T0(), T13().state)
  {
    hide Leads, T2, T13;
    From1();
    Onward(T0(), T13().state);
  }

  lemma Boots()
    ensures Booted(T0().state)
  {
    hide T1;
    assert T0().state.threads.Keys == {0, 1, 2};
    assert ReadyList(T0().state.threads, T0().state.ready, 0);
  }

  lemma Faulty(m: State)
    requires Inv(m) && Enabled(m, Follow) && m.locks[Cur(m).pc.at].holder == None
    ensures Apply(m, Follow) == Fault
  {
  }

  lemma Ends()
    ensures Enabled(T13().state, Follow) && T13().state.locks[Cur(T13().state).pc.at].holder == None
  {
  }

  /** The run is possible, and its next step faults. */
  lemma FaultHappens()
    ensures RunsFromBoot(T0(), T13().state) && Enabled(T13().state, Follow) && Apply(T13().state, Follow) == Fault
  {
    hide Leads, Booted;
    Boots();
    Ends();
    From0();
    Happens(T0(), T13().state);
    Faulty(T13().state);
  }
}
