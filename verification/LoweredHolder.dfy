/** A run from boot after which a thread is above its base priority and every donation to it.

    Thread 1, at 40, takes lock 0, sets its priority to 60 and then to 10.  It stays at 60, though its
    base priority is 10 and lock 0 is at 40. */
module LoweredHolder {
  import opened Wrappers
  import opened Order
  import opened Kernel
  import opened Donation
  import opened Locks
  import opened LockRuns
  import Priorities
  import opened Scenarios

  function Snap(t1: Thread, l0: Lock, ready: seq<Tid>, current: Tid): State {
    State(map[0 := Fresh(Blocked, 0), 1 := t1],
      map[0 := l0], ready, current, 0)
  }

  function T0(): Trace {
    Then(Snap(Thread(Running, 40, 40, [], None, Outside), Lock(None, 1, [], 0), [], 1), Look(0), T1())
  }

  function T1(): Trace {
    Then(Snap(Thread(Running, 40, 40, [], None, Wanting(0)), Lock(None, 1, [], 0), [], 1), Pass, T2())
  }

  function T2(): Trace {
    Then(Snap(Thread(Running, 40, 40, [], None, Won(0)), Lock(None, 0, [], 0), [], 1), Take, T3())
  }

  function T3(): Trace {
    Then(Snap(Thread(Running, 40, 40, [0], None, Outside), Lock(Some(1), 0, [], 40), [], 1), SetPriority(60), T4())
  }

  function T4(): Trace {
    Then(Snap(Thread(Running, 60, 60, [0], None, Outside), Lock(Some(1), 0, [], 40), [], 1), SetPriority(10), T5())
  }

  function T5(): Trace {
    End(Snap(Thread(Running, 60, 10, [0], None, Outside), Lock(Some(1), 0, [], 40), [], 1))
  }

  lemma From4()
    ensures Leads(T4(), T5().state)
  {
    hide Leads;
    Arrived(T5().state);
    Onward(T4(), T5().state);
  }

  lemma From3()
    ensures Leads(T3(), T5().state)
  {
    hide Yield, Leads, T5;
    YieldedAlone(WithPriority(T3().state, 60));
    From4();
    Onward(T3(), T5().state);
  }

  lemma From2()
    ensures Leads(T2(), T5().state)
  {
    hide TakeState, Leads, T4, T5;
    TakenFirst(T2().state, 0);
    From3();
    Onward(T2(), T5().state);
  }

  lemma From1()
    ensures Leads(T1(), T5().state)
  {
    hide Leads, T3, T5;
    From2();
    Onward(T1(), T5().state);
  }

  lemma From0()
    ensures Leads(T0(), T5().state)
  {
    hide Leads, T2, T5;
    From1();
    Onward(T0(), T5().state);
  }

  lemma Boots()
    ensures Booted(T0().state)
  {
    hide T1;
    assert T0().state.threads.Keys == {0, 1};
    assert ReadyList(T0().state.threads, T0().state.ready, 0);
  }

  lemma Ends()
    ensures !IsEffective(60, Cur(T5().state), T5().state.locks) && !Priorities.Justified(T5().state, Cur(T5().state))
  {
    var s := T5().state;
    assert s.threads.Keys == {0, 1};
    assert forall l :: !InFlight(s, l);
  }

  /** The run is possible, and the running thread does not have the priority that it should. */
  lemma HolderStaysHigh()
    ensures RunsFromBoot(T0(), T5().state) && Cur(T5().state).priority == 60
    ensures !IsEffective(60, Cur(T5().state), T5().state.locks) && !Priorities.Justified(T5().state, Cur(T5().state))
  {
    hide Leads, Booted, RunsFromBoot, IsEffective, Priorities.Justified;
    Boots();
    Ends();
    From0();
    Happens(T0(), T5().state);
  }
}
