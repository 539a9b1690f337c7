/** A run from boot in which a donation lowers a donor.

    Thread 2 takes lock 1 at 20, sets its priority to 60 and then to 10, and so stays at 60.  Thread
    3, at 50, stores 50 in lock 1 and is preempted.  Thread 2, at 60, stores 60 in lock 0, which
    thread 1 holds at 30, and is preempted.  Thread 4, at 70, lifts thread 3, which then donates to
    thread 2: that falls from 60 to 50 while it is the only donor on its way to thread 1. */
module LoweredDonor {
  import opened Wrappers
  import opened Order
  import opened Kernel
  import opened Donation
  import opened Locks
  import opened LockRuns
  import Chains
  import opened Scenarios

  function Snap(t1: Thread, t2: Thread, t3: Thread, t4: Thread, l0: Lock, l1: Lock, l2: Lock, ready: seq<Tid>, current: Tid): State {
    State(map[0 := Fresh(Blocked, 0), 1 := t1, 2 := t2, 3 := t3, 4 := t4],
      map[0 := l0, 1 := l1, 2 := l2], ready, current, 0)
  }

  function T0(): Trace {
    Then(Snap(Thread(Running, 30, 30, [], None, Outside), Thread(Ready, 20, 20, [], None, Outside),
      Thread(Ready, 50, 50, [], None, Outside), Thread(Ready, 70, 70, [], None, Outside), Lock(None, 1, [], 0),
      Lock(None, 1, [], 0), Lock(None, 1, [], 0), [4, 3, 2], 1), Look(0), T1())
  }

  function T1(): Trace {
    Then(Snap(Thread(Running, 30, 30, [], None, Wanting(0)), Thread(Ready, 20, 20, [], None, Outside),
      Thread(Ready, 50, 50, [], None, Outside), Thread(Ready, 70, 70, [], None, Outside), Lock(None, 1, [], 0),
      Lock(None, 1, [], 0), Lock(None, 1, [], 0), [4, 3, 2], 1), Pass, T2())
  }

  function T2(): Trace {
    Then(Snap(Thread(Running, 30, 30, [], None, Won(0)), Thread(Ready, 20, 20, [], None, Outside),
      Thread(Ready, 50, 50, [], None, Outside), Thread(Ready, 70, 70, [], None, Outside), Lock(None, 0, [], 0),
      Lock(None, 1, [], 0), Lock(None, 1, [], 0), [4, 3, 2], 1), Take, T3())
  }

  function T3(): Trace {
    Then(Snap(Thread(Running, 30, 30, [0], None, Outside), Thread(Ready, 20, 20, [], None, Outside),
      Thread(Ready, 50, 50, [], None, Outside), Thread(Ready, 70, 70, [], None, Outside),
      Lock(Some(1), 0, [], 30), Lock(None, 1, [], 0), Lock(None, 1, [], 0), [4, 3, 2], 1), Preempt, T4())
  }

  function T4(): Trace {
    Then(Snap(Thread(Ready, 30, 30, [0], None, Outside), Thread(Ready, 20, 20, [], None, Outside),
      Thread(Ready, 50, 50, [], None, Outside), Thread(Running, 70, 70, [], None, Outside),
      Lock(Some(1), 0, [], 30), Lock(None, 1, [], 0), Lock(None, 1, [], 0), [3, 1, 2], 4), GoToSleep, T5())
  }

  function T5(): Trace {
    Then(Snap(Thread(Ready, 30, 30, [0], None, Outside), Thread(Ready, 20, 20, [], None, Outside),
      Thread(Running, 50, 50, [], None, Outside), Thread(Blocked, 70, 70, [], None, Sleeping),
      Lock(Some(1), 0, [], 30), Lock(None, 1, [], 0), Lock(None, 1, [], 0), [1, 2], 3), Look(2), T6())
  }

  function T6(): Trace {
    Then(Snap(Thread(Ready, 30, 30, [0], None, Outside), Thread(Ready, 20, 20, [], None, Outside),
      Thread(Running, 50, 50, [], None, Wanting(2)), Thread(Blocked, 70, 70, [], None, Sleeping),
      Lock(Some(1), 0, [], 30), Lock(None, 1, [], 0), Lock(None, 1, [], 0), [1, 2], 3), Pass, T7())
  }

  function T7(): Trace {
    Then(Snap(Thread(Ready, 30, 30, [0], None, Outside), Thread(Ready, 20, 20, [], None, Outside),
      Thread(Running, 50, 50, [], None, Won(2)), Thread(Blocked, 70, 70, [], None, Sleeping),
      Lock(Some(1), 0, [], 30), Lock(None, 1, [], 0), Lock(None, 0, [], 0), [1, 2], 3), Take, T8())
  }

  function T8(): Trace {
    Then(Snap(Thread(Ready, 30, 30, [0], None, Outside), Thread(Ready, 20, 20, [], None, Outside),
      Thread(Running, 50, 50, [2], None, Outside), Thread(Blocked, 70, 70, [], None, Sleeping),
      Lock(Some(1), 0, [], 30), Lock(None, 1, [], 0), Lock(Some(3), 0, [], 50), [1, 2], 3), GoToSleep, T9())
  }

  function T9(): Trace {
    Then(Snap(Thread(Running, 30, 30, [0], None, Outside), Thread(Ready, 20, 20, [], None, Outside),
      Thread(Blocked, 50, 50, [2], None, Sleeping), Thread(Blocked, 70, 70, [], None, Sleeping),
      Lock(Some(1), 0, [], 30), Lock(None, 1, [], 0), Lock(Some(3), 0, [], 50), [2], 1), GoToSleep, T10())
  }

  function T10(): Trace {
    Then(Snap(Thread(Blocked, 30, 30, [0], None, Sleeping), Thread(Running, 20, 20, [], None, Outside),
      Thread(Blocked, 50, 50, [2], None, Sleeping), Thread(Blocked, 70, 70, [], None, Sleeping),
      Lock(Some(1), 0, [], 30), Lock(None, 1, [], 0), Lock(Some(3), 0, [], 50), [], 2), Look(1), T11())
  }

  function T11(): Trace {
    Then(Snap(Thread(Blocked, 30, 30, [0], None, Sleeping), Thread(Running, 20, 20, [], None, Wanting(1)),
      Thread(Blocked, 50, 50, [2], None, Sleeping), Thread(Blocked, 70, 70, [], None, Sleeping),
      Lock(Some(1), 0, [], 30), Lock(None, 1, [], 0), Lock(Some(3), 0, [], 50), [], 2), Pass, T12())
  }

  function T12(): Trace {
    Then(Snap(Thread(Blocked, 30, 30, [0], None, Sleeping), Thread(Running, 20, 20, [], None, Won(1)),
      Thread(Blocked, 50, 50, [2], None, Sleeping), Thread(Blocked, 70, 70, [], None, Sleeping),
      Lock(Some(1), 0, [], 30), Lock(None, 0, [], 0), Lock(Some(3), 0, [], 50), [], 2), Take, T13())
  }

  function T13(): Trace {
    Then(Snap(Thread(Blocked, 30, 30, [0], None, Sleeping), Thread(Running, 20, 20, [1], None, Outside),
      Thread(Blocked, 50, 50, [2], None, Sleeping), Thread(Blocked, 70, 70, [], None, Sleeping),
      Lock(Some(1), 0, [], 30), Lock(Some(2), 0, [], 20), Lock(Some(3), 0, [], 50), [], 2), SetPriority(60), T14())
  }

  function T14(): Trace {
    Then(Snap(Thread(Blocked, 30, 30, [0], None, Sleeping), Thread(Running, 60, 60, [1], None, Outside),
      Thread(Blocked, 50, 50, [2], None, Sleeping), Thread(Blocked, 70, 70, [], None, Sleeping),
      Lock(Some(1), 0, [], 30), Lock(Some(2), 0, [], 20), Lock(Some(3), 0, [], 50), [], 2), SetPriority(10), T15())
  }

  function T15(): Trace {
    Then(Snap(Thread(Blocked, 30, 30, [0], None, Sleeping), Thread(Running, 60, 10, [1], None, Outside),
      Thread(Blocked, 50, 50, [2], None, Sleeping), Thread(Blocked, 70, 70, [], None, Sleeping),
      Lock(Some(1), 0, [], 30), Lock(Some(2), 0, [], 20), Lock(Some(3), 0, [], 50), [], 2), WakeUp(3), T16())
  }

  function T16(): Trace {
    Then(Snap(Thread(Blocked, 30, 30, [0], None, Sleeping), Thread(Running, 60, 10, [1], None, Outside),
      Thread(Ready, 50, 50, [2], None, Outside), Thread(Blocked, 70, 70, [], None, Sleeping),
      Lock(Some(1), 0, [], 30), Lock(Some(2), 0, [], 20), Lock(Some(3), 0, [], 50), [3], 2), GoToSleep, T17())
  }

  function T17(): Trace {
    Then(Snap(Thread(Blocked, 30, 30, [0], None, Sleeping), Thread(Blocked, 60, 10, [1], None, Sleeping),
      Thread(Running, 50, 50, [2], None, Outside), Thread(Blocked, 70, 70, [], None, Sleeping),
      Lock(Some(1), 0, [], 30), Lock(Some(2), 0, [], 20), Lock(Some(3), 0, [], 50), [], 3), Look(1), T18())
  }

  function T18(): Trace {
    Then(Snap(Thread(Blocked, 30, 30, [0], None, Sleeping), Thread(Blocked, 60, 10, [1], None, Sleeping),
      Thread(Running, 50, 50, [2], None, Noting(1)), Thread(Blocked, 70, 70, [], None, Sleeping),
      Lock(Some(1), 0, [], 30), Lock(Some(2), 0, [], 20), Lock(Some(3), 0, [], 50), [], 3), Note, T19())
  }

  function T19(): Trace {
    Then(Snap(Thread(Blocked, 30, 30, [0], None, Sleeping), Thread(Blocked, 60, 10, [1], None, Sleeping),
      Thread(Running, 50, 50, [2], Some(1), Testing(1, 1)), Thread(Blocked, 70, 70, [], None, Sleeping),
      Lock(Some(1), 0, [], 30), Lock(Some(2), 0, [], 20), Lock(Some(3), 0, [], 50), [], 3), Test, T20())
  }

  function T20(): Trace {
    Then(Snap(Thread(Blocked, 30, 30, [0], None, Sleeping), Thread(Blocked, 60, 10, [1], None, Sleeping),
      Thread(Running, 50, 50, [2], Some(1), Writing(1, 1)), Thread(Blocked, 70, 70, [], None, Sleeping),
      Lock(Some(1), 0, [], 30), Lock(Some(2), 0, [], 20), Lock(Some(3), 0, [], 50), [], 3), Write, T21())
  }

  function T21(): Trace {
    Then(Snap(Thread(Blocked, 30, 30, [0], None, Sleeping), Thread(Blocked, 60, 10, [1], None, Sleeping),
      Thread(Running, 50, 50, [2], Some(1), Giving(1, 1)), Thread(Blocked, 70, 70, [], None, Sleeping),
      Lock(Some(1), 0, [], 30), Lock(Some(2), 0, [], 50), Lock(Some(3), 0, [], 50), [], 3), WakeUp(2), T22())
  }

  function T22(): Trace {
    Then(Snap(Thread(Blocked, 30, 30, [0], None, Sleeping), Thread(Ready, 60, 10, [1], None, Outside),
      Thread(Running, 50, 50, [2], Some(1), Giving(1, 1)), Thread(Blocked, 70, 70, [], None, Sleeping),
      Lock(Some(1), 0, [], 30), Lock(Some(2), 0, [], 50), Lock(Some(3), 0, [], 50), [2], 3), Preempt, T23())
  }

  function T23(): Trace {
    Then(Snap(Thread(Blocked, 30, 30, [0], None, Sleeping), Thread(Running, 60, 10, [1], None, Outside),
      Thread(Ready, 50, 50, [2], Some(1), Giving(1, 1)), Thread(Blocked, 70, 70, [], None, Sleeping),
      Lock(Some(1), 0, [], 30), Lock(Some(2), 0, [], 50), Lock(Some(3), 0, [], 50), [3], 2), Look(0), T24())
  }

  function T24(): Trace {
    Then(Snap(Thread(Blocked, 30, 30, [0], None, Sleeping), Thread(Running, 60, 10, [1], None, Noting(0)),
      Thread(Ready, 50, 50, [2], Some(1), Giving(1, 1)), Thread(Blocked, 70, 70, [], None, Sleeping),
      Lock(Some(1), 0, [], 30), Lock(Some(2), 0, [], 50), Lock(Some(3), 0, [], 50), [3], 2), Note, T25())
  }

  function T25(): Trace {
    Then(Snap(Thread(Blocked, 30, 30, [0], None, Sleeping), Thread(Running, 60, 10, [1], Some(0), Testing(0, 0)),
      Thread(Ready, 50, 50, [2], Some(1), Giving(1, 1)), Thread(Blocked, 70, 70, [], None, Sleeping),
      Lock(Some(1), 0, [], 30), Lock(Some(2), 0, [], 50), Lock(Some(3), 0, [], 50), [3], 2), Test, T26())
  }

  function T26(): Trace {
    Then(Snap(Thread(Blocked, 30, 30, [0], None, Sleeping), Thread(Running, 60, 10, [1], Some(0), Writing(0, 0)),
      Thread(Ready, 50, 50, [2], Some(1), Giving(1, 1)), Thread(Blocked, 70, 70, [], None, Sleeping),
      Lock(Some(1), 0, [], 30), Lock(Some(2), 0, [], 50), Lock(Some(3), 0, [], 50), [3], 2), Write, T27())
  }

  function T27(): Trace {
    Then(Snap(Thread(Blocked, 30, 30, [0], None, Sleeping), Thread(Running, 60, 10, [1], Some(0), Giving(0, 0)),
      Thread(Ready, 50, 50, [2], Some(1), Giving(1, 1)), Thread(Blocked, 70, 70, [], None, Sleeping),
      Lock(Some(1), 0, [], 60), Lock(Some(2), 0, [], 50), Lock(Some(3), 0, [], 50), [3], 2), WakeUp(4), T28())
  }

  function T28(): Trace {
    Then(Snap(Thread(Blocked, 30, 30, [0], None, Sleeping), Thread(Running, 60, 10, [1], Some(0), Giving(0, 0)),
      Thread(Ready, 50, 50, [2], Some(1), Giving(1, 1)), Thread(Ready, 70, 70, [], None, Outside),
      Lock(Some(1), 0, [], 60), Lock(Some(2), 0, [], 50), Lock(Some(3), 0, [], 50), [4, 3], 2), Preempt, T29())
  }

  function T29(): Trace {
    Then(Snap(Thread(Blocked, 30, 30, [0], None, Sleeping), Thread(Ready, 60, 10, [1], Some(0), Giving(0, 0)),
      Thread(Ready, 50, 50, [2], Some(1), Giving(1, 1)), Thread(Running, 70, 70, [], None, Outside),
      Lock(Some(1), 0, [], 60), Lock(Some(2), 0, [], 50), Lock(Some(3), 0, [], 50), [2, 3], 4), Look(2), T30())
  }

  function T30(): Trace {
    Then(Snap(Thread(Blocked, 30, 30, [0], None, Sleeping), Thread(Ready, 60, 10, [1], Some(0), Giving(0, 0)),
      Thread(Ready, 50, 50, [2], Some(1), Giving(1, 1)), Thread(Running, 70, 70, [], None, Noting(2)),
      Lock(Some(1), 0, [], 60), Lock(Some(2), 0, [], 50), Lock(Some(3), 0, [], 50), [2, 3], 4), Note, T31())
  }

  function T31(): Trace {
    Then(Snap(Thread(Blocked, 30, 30, [0], None, Sleeping), Thread(Ready, 60, 10, [1], Some(0), Giving(0, 0)),
      Thread(Ready, 50, 50, [2], Some(1), Giving(1, 1)), Thread(Running, 70, 70, [], Some(2), Testing(2, 2)),
      Lock(Some(1), 0, [], 60), Lock(Some(2), 0, [], 50), Lock(Some(3), 0, [], 50), [2, 3], 4), Test, T32())
  }

  function T32(): Trace {
    Then(Snap(Thread(Blocked, 30, 30, [0], None, Sleeping), Thread(Ready, 60, 10, [1], Some(0), Giving(0, 0)),
      Thread(Ready, 50, 50, [2], Some(1), Giving(1, 1)), Thread(Running, 70, 70, [], Some(2), Writing(2, 2)),
      Lock(Some(1), 0, [], 60), Lock(Some(2), 0, [], 50), Lock(Some(3), 0, [], 50), [2, 3], 4), Write, T33())
  }

  function T33(): Trace {
    Then(Snap(Thread(Blocked, 30, 30, [0], None, Sleeping), Thread(Ready, 60, 10, [1], Some(0), Giving(0, 0)),
      Thread(Ready, 50, 50, [2], Some(1), Giving(1, 1)), Thread(Running, 70, 70, [], Some(2), Giving(2, 2)),
      Lock(Some(1), 0, [], 60), Lock(Some(2), 0, [], 50), Lock(Some(3), 0, [], 70), [2, 3], 4), Give, T34())
  }

  function T34(): Trace {
    Then(Snap(Thread(Blocked, 30, 30, [0], None, Sleeping), Thread(Ready, 60, 10, [1], Some(0), Giving(0, 0)),
      Thread(Ready, 70, 50, [2], Some(1), Giving(1, 1)), Thread(Running, 70, 70, [], Some(2), Following(2, 2)),
      Lock(Some(1), 0, [], 60), Lock(Some(2), 0, [], 50), Lock(Some(3), 0, [], 70), [3, 2], 4), Preempt, T35())
  }

  function T35(): Trace {
    End(Snap(Thread(Blocked, 30, 30, [0], None, Sleeping), Thread(Ready, 60, 10, [1], Some(0), Giving(0, 0)),
      Thread(Running, 70, 50, [2], Some(1), Giving(1, 1)), Thread(Ready, 70, 70, [], Some(2), Following(2, 2)),
      Lock(Some(1), 0, [], 60), Lock(Some(2), 0, [], 50), Lock(Some(3), 0, [], 70), [4, 2], 3))
  }

  lemma From34()
    ensures Leads(T34(), T35().state)
  {
    hide Yield, Leads;
    Preempted(T34().state, 1, 3);
    Arrived(T35().state);
    Onward(T34(), T35().state);
  }

  lemma From33()
    ensures Leads(T33(), T35().state)
  {
    hide GiveState, Leads, T35;
    GivenReady(T33().state, 3, 2, 2, [2], 0);
    From34();
    Onward(T33(), T35().state);
  }

  lemma From32()
    ensures Leads(T32(), T35().state)
  {
    hide Leads, T34, T35;
    From33();
    Onward(T32(), T35().state);
  }

  lemma From31()
    ensures Leads(T31(), T35().state)
  {
    hide Leads, T33, T35;
    From32();
    Onward(T31(), T35().state);
  }

  lemma From30()
    ensures Leads(T30(), T35().state)
  {
    hide Leads, T32, T35;
    From31();
    Onward(T30(), T35().state);
  }

  lemma From29()
    ensures Leads(T29(), T35().state)
  {
    hide Leads, T31, T35;
    From30();
    Onward(T29(), T35().state);
  }

  lemma From28()
    ensures Leads(T28(), T35().state)
  {
    hide Yield, Leads, T30, T35;
    Preempted(T28().state, 1, 4);
    From29();
    Onward(T28(), T35().state);
  }

  lemma From27()
    ensures Leads(T27(), T35().state)
  {
    hide AfterWakeUp, Leads, T29, T35;
    WokenTo(T27().state, 4, 0);
    From28();
    Onward(T27(), T35().state);
  }

  lemma From26()
    ensures Leads(T26(), T35().state)
  {
    hide Leads, T28, T35;
    From27();
    Onward(T26(), T35().state);
  }

  lemma From25()
    ensures Leads(T25(), T35().state)
  {
    hide Leads, T27, T35;
    From26();
    Onward(T25(), T35().state);
  }

  lemma From24()
    ensures Leads(T24(), T35().state)
  {
    hide Leads, T26, T35;
    From25();
    Onward(T24(), T35().state);
  }

  lemma From23()
    ensures Leads(T23(), T35().state)
  {
    hide Leads, T25, T35;
    From24();
    Onward(T23(), T35().state);
  }

  lemma From22()
    ensures Leads(T22(), T35().state)
  {
    hide Yield, Leads, T24, T35;
    Preempted(T22().state, 1, 2);
    From23();
    Onward(T22(), T35().state);
  }

  lemma From21()
    ensures Leads(T21(), T35().state)
  {
    hide AfterWakeUp, Leads, T23, T35;
    WokenAlone(T21().state, 2);
    From22();
    Onward(T21(), T35().state);
  }

  lemma From20()
    ensures Leads(T20(), T35().state)
  {
    hide Leads, T22, T35;
    From21();
    Onward(T20(), T35().state);
  }

  lemma From19()
    ensures Leads(T19(), T35().state)
  {
    hide Leads, T21, T35;
    From20();
    Onward(T19(), T35().state);
  }

  lemma From18()
    ensures Leads(T18(), T35().state)
  {
    hide Leads, T20, T35;
    From19();
    Onward(T18(), T35().state);
  }

  lemma From17()
    ensures Leads(T17(), T35().state)
  {
    hide Leads, T19, T35;
    From18();
    Onward(T17(), T35().state);
  }

  lemma From16()
    ensures Leads(T16(), T35().state)
  {
    hide Block, Leads, T18, T35;
    FallsAsleep(T16().state, 3);
    From17();
    Onward(T16(), T35().state);
  }

  lemma From15()
    ensures Leads(T15(), T35().state)
  {
    hide AfterWakeUp, Leads, T17, T35;
    WokenAlone(T15().state, 3);
    From16();
    Onward(T15(), T35().state);
  }

  lemma From14()
    ensures Leads(T14(), T35().state)
  {
    hide Leads, T16, T35;
    From15();
    Onward(T14(), T35().state);
  }

  lemma From13()
    ensures Leads(T13(), T35().state)
  {
    hide Yield, Leads, T15, T35;
    YieldedAlone(WithPriority(T13().state, 60));
    From14();
    Onward(T13(), T35().state);
  }

  lemma From12()
    ensures Leads(T12(), T35().state)
  {
    hide TakeState, Leads, T14, T35;
    TakenFirst(T12().state, 1);
    From13();
    Onward(T12(), T35().state);
  }

  lemma From11()
    ensures Leads(T11(), T35().state)
  {
    hide Leads, T13, T35;
    From12();
    Onward(T11(), T35().state);
  }

  lemma From10()
    ensures Leads(T10(), T35().state)
  {
    hide Leads, T12, T35;
    From11();
    Onward(T10(), T35().state);
  }

  lemma From9()
    ensures Leads(T9(), T35().state)
  {
    hide Block, Leads, T11, T35;
    FallsAsleep(T9().state, 2);
    From10();
    Onward(T9(), T35().state);
  }

  lemma From8()
    ensures Leads(T8(), T35().state)
  {
    hide Block, Leads, T10, T35;
    FallsAsleep(T8().state, 1);
    From9();
    Onward(T8(), T35().state);
  }

  lemma From7()
    ensures Leads(T7(), T35().state)
  {
    hide TakeState, Leads, T9, T35;
    TakenFirst(T7().state, 2);
    From8();
    Onward(T7(), T35().state);
  }

  lemma From6()
    ensures Leads(T6(), T35().state)
  {
    hide Leads, T8, T35;
    From7();
    Onward(T6(), T35().state);
  }

  lemma From5()
    ensures Leads(T5(), T35().state)
  {
    hide Leads, T7, T35;
    From6();
    Onward(T5(), T35().state);
  }

  lemma From4()
    ensures Leads(T4(), T35().state)
  {
    hide Block, Leads, T6, T35;
    FallsAsleep(T4().state, 3);
    From5();
    Onward(T4(), T35().state);
  }

  lemma From3()
    ensures Leads(T3(), T35().state)
  {
    hide Yield, Leads, T5, T35;
    Preempted(T3().state, 2, 4);
    From4();
    Onward(T3(), T35().state);
  }

  lemma From2()
    ensures Leads(T2(), T35().state)
  {
    hide TakeState, Leads, T4, T35;
    TakenFirst(T2().state, 0);
    From3();
    Onward(T2(), T35().state);
  }

  lemma From1()
    ensures Leads(T1(), T35().state)
  {
    hide Leads, T3, T35;
    From2();
    Onward(T1(), T35().state);
  }

  lemma From0()
    ensures Leads(T0(), T35().state)
  {
    hide Leads, T2, T35;
    From1();
    Onward(T0(), T35().state);
  }

  lemma Boots()
    ensures Booted(T0().state)
  {
    hide T1, Booted;
    var L := map[0 := Lock(None, 1, [], 0), 1 := Lock(None, 1, [], 0), 2 := Lock(None, 1, [], 0)];
    StartBooted(30, 20, 50, L);
    JoinedBooted(Start(30, 20, 50, L), 4, 70);
    assert T0().state == Joined(Start(30, 20, 50, L), 4, 70);
  }

  lemma Falls()
    ensures Enabled(T35().state, Give) && T35().state.locks[1].holder == Some(2) && Chains.Gift(T35().state, 2) == 50
  {
    SortedAlone(1, LockRank(T35().state.locks));
  }

  /** Lock 0 is at 60, its holder at 30, and thread 2 is the only donor about to give. */
  lemma Ends()
    ensures !Chains.SparesLocks(T35().state, 2, 50)
  {
    assert T35().state.threads.Keys == {0, 1, 2, 3, 4};
    assert Gives(T35().state.threads[2].pc, 0) && Chains.Outranked(T35().state, 1, 0);
    assert forall e :: e != 2 ==> !Chains.Backs(T35().state, e, 0, 60);
  }

  /** The donation that the running thread makes next lowers thread `h`, and that leaves a lock
      without a donor of its rank. */
  ghost predicate Lowers(s: State, h: Tid) {
    && Enabled(s, Give) && s.locks[Cur(s).pc.at].holder == Some(h) && h in s.threads
    && Chains.Gift(s, h) < s.threads[h].priority && !Chains.SparesLocks(s, h, Chains.Gift(s, h))
  }

  /** The run is possible, and its next step lowers a donor that is still needed. */
  lemma DonorFalls()
    ensures RunsFromBoot(T0(), T35().state) && Lowers(T35().state, 2)
  {
    hide Leads, Booted, RunsFromBoot, Chains.SparesLocks, Chains.Gift;
    Boots();
    Falls();
    Ends();
    From0();
    Happens(T0(), T35().state);
  }
}
