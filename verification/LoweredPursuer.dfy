/** A run from boot in which a donation lowers a donor that a waiter counts on.

    Thread 3 holds lock 2 and waits for lock 0 at 40.  Thread 2 takes lock 1 at 20, sets its priority
    to 60 and then to 10, and so stays at 60.  Thread 4, at 50, stores 50 in lock 1 and is preempted.
    Thread 2 donates 60 to thread 3, is about to go on to lock 0, and is preempted.  Thread 5, at 70,
    lifts thread 4, which then donates to thread 2: that falls from 60 to 50 while thread 3, at 60,
    waits for lock 0 at 40, and nobody else is on the way there. */
module LoweredPursuer {
  import opened Wrappers
  import opened Order
  import opened Kernel
  import opened Donation
  import opened Locks
  import opened LockRuns
  import Chains
  import opened Scenarios

  function Snap(t1: Thread, t2: Thread, t3: Thread, t4: Thread, t5: Thread, l0: Lock, l1: Lock, l2: Lock, l3: Lock, ready: seq<Tid>, current: Tid): State {
    State(map[0 := Fresh(Blocked, 0), 1 := t1, 2 := t2, 3 := t3, 4 := t4, 5 := t5],
      map[0 := l0, 1 := l1, 2 := l2, 3 := l3], ready, current, 0)
  }

  function T0(): Trace {
    Then(Snap(Thread(Running, 30, 30, [], None, Outside), Thread(Ready, 20, 20, [], None, Outside),
      Thread(Ready, 40, 40, [], None, Outside), Thread(Ready, 50, 50, [], None, Outside),
      Thread(Ready, 70, 70, [], None, Outside), Lock(None, 1, [], 0), Lock(None, 1, [], 0), Lock(None, 1, [], 0),
      Lock(None, 1, [], 0), [5, 4, 3, 2], 1), Look(0), T1())
  }

  function T1(): Trace {
    Then(Snap(Thread(Running, 30, 30, [], None, Wanting(0)), Thread(Ready, 20, 20, [], None, Outside),
      Thread(Ready, 40, 40, [], None, Outside), Thread(Ready, 50, 50, [], None, Outside),
      Thread(Ready, 70, 70, [], None, Outside), Lock(None, 1, [], 0), Lock(None, 1, [], 0), Lock(None, 1, [], 0),
      Lock(None, 1, [], 0), [5, 4, 3, 2], 1), Pass, T2())
  }

  function T2(): Trace {
    Then(Snap(Thread(Running, 30, 30, [], None, Won(0)), Thread(Ready, 20, 20, [], None, Outside),
      Thread(Ready, 40, 40, [], None, Outside), Thread(Ready, 50, 50, [], None, Outside),
      Thread(Ready, 70, 70, [], None, Outside), Lock(None, 0, [], 0), Lock(None, 1, [], 0), Lock(None, 1, [], 0),
      Lock(None, 1, [], 0), [5, 4, 3, 2], 1), Take, T3())
  }

  function T3(): Trace {
    Then(Snap(Thread(Running, 30, 30, [0], None, Outside), Thread(Ready, 20, 20, [], None, Outside),
      Thread(Ready, 40, 40, [], None, Outside), Thread(Ready, 50, 50, [], None, Outside),
      Thread(Ready, 70, 70, [], None, Outside), Lock(Some(1), 0, [], 30), Lock(None, 1, [], 0),
      Lock(None, 1, [], 0), Lock(None, 1, [], 0), [5, 4, 3, 2], 1), Preempt, T4())
  }

  function T4(): Trace {
    Then(Snap(Thread(Ready, 30, 30, [0], None, Outside), Thread(Ready, 20, 20, [], None, Outside),
      Thread(Ready, 40, 40, [], None, Outside), Thread(Ready, 50, 50, [], None, Outside),
      Thread(Running, 70, 70, [], None, Outside), Lock(Some(1), 0, [], 30), Lock(None, 1, [], 0),
      Lock(None, 1, [], 0), Lock(None, 1, [], 0), [4, 3, 1, 2], 5), GoToSleep, T5())
  }

  function T5(): Trace {
    Then(Snap(Thread(Ready, 30, 30, [0], None, Outside), Thread(Ready, 20, 20, [], None, Outside),
      Thread(Ready, 40, 40, [], None, Outside), Thread(Running, 50, 50, [], None, Outside),
      Thread(Blocked, 70, 70, [], None, Sleeping), Lock(Some(1), 0, [], 30), Lock(None, 1, [], 0),
      Lock(None, 1, [], 0), Lock(None, 1, [], 0), [3, 1, 2], 4), Look(3), T6())
  }

  function T6(): Trace {
    Then(Snap(Thread(Ready, 30, 30, [0], None, Outside), Thread(Ready, 20, 20, [], None, Outside),
      Thread(Ready, 40, 40, [], None, Outside), Thread(Running, 50, 50, [], None, Wanting(3)),
      Thread(Blocked, 70, 70, [], None, Sleeping), Lock(Some(1), 0, [], 30), Lock(None, 1, [], 0),
      Lock(None, 1, [], 0), Lock(None, 1, [], 0), [3, 1, 2], 4), Pass, T7())
  }

  function T7(): Trace {
    Then(Snap(Thread(Ready, 30, 30, [0], None, Outside), Thread(Ready, 20, 20, [], None, Outside),
      Thread(Ready, 40, 40, [], None, Outside), Thread(Running, 50, 50, [], None, Won(3)),
      Thread(Blocked, 70, 70, [], None, Sleeping), Lock(Some(1), 0, [], 30), Lock(None, 1, [], 0),
      Lock(None, 1, [], 0), Lock(None, 0, [], 0), [3, 1, 2], 4), Take, T8())
  }

  function T8(): Trace {
    Then(Snap(Thread(Ready, 30, 30, [0], None, Outside), Thread(Ready, 20, 20, [], None, Outside),
      Thread(Ready, 40, 40, [], None, Outside), Thread(Running, 50, 50, [3], None, Outside),
      Thread(Blocked, 70, 70, [], None, Sleeping), Lock(Some(1), 0, [], 30), Lock(None, 1, [], 0),
      Lock(None, 1, [], 0), Lock(Some(4), 0, [], 50), [3, 1, 2], 4), GoToSleep, T9())
  }

  function T9(): Trace {
    Then(Snap(Thread(Ready, 30, 30, [0], None, Outside), Thread(Ready, 20, 20, [], None, Outside),
      Thread(Running, 40, 40, [], None, Outside), Thread(Blocked, 50, 50, [3], None, Sleeping),
      Thread(Blocked, 70, 70, [], None, Sleeping), Lock(Some(1), 0, [], 30), Lock(None, 1, [], 0),
      Lock(None, 1, [], 0), Lock(Some(4), 0, [], 50), [1, 2], 3), Look(2), T10())
  }

  function T10(): Trace {
    Then(Snap(Thread(Ready, 30, 30, [0], None, Outside), Thread(Ready, 20, 20, [], None, Outside),
      Thread(Running, 40, 40, [], None, Wanting(2)), Thread(Blocked, 50, 50, [3], None, Sleeping),
      Thread(Blocked, 70, 70, [], None, Sleeping), Lock(Some(1), 0, [], 30), Lock(None, 1, [], 0),
      Lock(None, 1, [], 0), Lock(Some(4), 0, [], 50), [1, 2], 3), Pass, T11())
  }

  function T11(): Trace {
    Then(Snap(Thread(Ready, 30, 30, [0], None, Outside), Thread(Ready, 20, 20, [], None, Outside),
      Thread(Running, 40, 40, [], None, Won(2)), Thread(Blocked, 50, 50, [3], None, Sleeping),
      Thread(Blocked, 70, 70, [], None, Sleeping), Lock(Some(1), 0, [], 30), Lock(None, 1, [], 0),
      Lock(None, 0, [], 0), Lock(Some(4), 0, [], 50), [1, 2], 3), Take, T12())
  }

  function T12(): Trace {
    Then(Snap(Thread(Ready, 30, 30, [0], None, Outside), Thread(Ready, 20, 20, [], None, Outside),
      Thread(Running, 40, 40, [2], None, Outside), Thread(Blocked, 50, 50, [3], None, Sleeping),
      Thread(Blocked, 70, 70, [], None, Sleeping), Lock(Some(1), 0, [], 30), Lock(None, 1, [], 0),
      Lock(Some(3), 0, [], 40), Lock(Some(4), 0, [], 50), [1, 2], 3), Look(0), T13())
  }

  function T13(): Trace {
    Then(Snap(Thread(Ready, 30, 30, [0], None, Outside), Thread(Ready, 20, 20, [], None, Outside),
      Thread(Running, 40, 40, [2], None, Noting(0)), Thread(Blocked, 50, 50, [3], None, Sleeping),
      Thread(Blocked, 70, 70, [], None, Sleeping), Lock(Some(1), 0, [], 30), Lock(None, 1, [], 0),
      Lock(Some(3), 0, [], 40), Lock(Some(4), 0, [], 50), [1, 2], 3), Note, T14())
  }

  function T14(): Trace {
    Then(Snap(Thread(Ready, 30, 30, [0], None, Outside), Thread(Ready, 20, 20, [], None, Outside),
      Thread(Running, 40, 40, [2], Some(0), Testing(0, 0)), Thread(Blocked, 50, 50, [3], None, Sleeping),
      Thread(Blocked, 70, 70, [], None, Sleeping), Lock(Some(1), 0, [], 30), Lock(None, 1, [], 0),
      Lock(Some(3), 0, [], 40), Lock(Some(4), 0, [], 50), [1, 2], 3), Test, T15())
  }

  function T15(): Trace {
    Then(Snap(Thread(Ready, 30, 30, [0], None, Outside), Thread(Ready, 20, 20, [], None, Outside),
      Thread(Running, 40, 40, [2], Some(0), Writing(0, 0)), Thread(Blocked, 50, 50, [3], None, Sleeping),
      Thread(Blocked, 70, 70, [], None, Sleeping), Lock(Some(1), 0, [], 30), Lock(None, 1, [], 0),
      Lock(Some(3), 0, [], 40), Lock(Some(4), 0, [], 50), [1, 2], 3), Write, T16())
  }

  function T16(): Trace {
    Then(Snap(Thread(Ready, 30, 30, [0], None, Outside), Thread(Ready, 20, 20, [], None, Outside),
      Thread(Running, 40, 40, [2], Some(0), Giving(0, 0)), Thread(Blocked, 50, 50, [3], None, Sleeping),
      Thread(Blocked, 70, 70, [], None, Sleeping), Lock(Some(1), 0, [], 40), Lock(None, 1, [], 0),
      Lock(Some(3), 0, [], 40), Lock(Some(4), 0, [], 50), [1, 2], 3), Give, T17())
  }

  function T17(): Trace {
    Then(Snap(Thread(Ready, 40, 30, [0], None, Outside), Thread(Ready, 20, 20, [], None, Outside),
      Thread(Running, 40, 40, [2], Some(0), Following(0, 0)), Thread(Blocked, 50, 50, [3], None, Sleeping),
      Thread(Blocked, 70, 70, [], None, Sleeping), Lock(Some(1), 0, [], 40), Lock(None, 1, [], 0),
      Lock(Some(3), 0, [], 40), Lock(Some(4), 0, [], 50), [1, 2], 3), Follow, T18())
  }

  function T18(): Trace {
    Then(Snap(Thread(Ready, 40, 30, [0], None, Outside), Thread(Ready, 20, 20, [], None, Outside),
      Thread(Running, 40, 40, [2], Some(0), Wanting(0)), Thread(Blocked, 50, 50, [3], None, Sleeping),
      Thread(Blocked, 70, 70, [], None, Sleeping), Lock(Some(1), 0, [], 40), Lock(None, 1, [], 0),
      Lock(Some(3), 0, [], 40), Lock(Some(4), 0, [], 50), [1, 2], 3), Queue, T19())
  }

  function T19(): Trace {
    Then(Snap(Thread(Running, 40, 30, [0], None, Outside), Thread(Ready, 20, 20, [], None, Outside),
      Thread(Blocked, 40, 40, [2], Some(0), Wanting(0)), Thread(Blocked, 50, 50, [3], None, Sleeping),
      Thread(Blocked, 70, 70, [], None, Sleeping), Lock(Some(1), 0, [3], 40), Lock(None, 1, [], 0),
      Lock(Some(3), 0, [], 40), Lock(Some(4), 0, [], 50), [2], 1), GoToSleep, T20())
  }

  function T20(): Trace {
    Then(Snap(Thread(Blocked, 40, 30, [0], None, Sleeping), Thread(Running, 20, 20, [], None, Outside),
      Thread(Blocked, 40, 40, [2], Some(0), Wanting(0)), Thread(Blocked, 50, 50, [3], None, Sleeping),
      Thread(Blocked, 70, 70, [], None, Sleeping), Lock(Some(1), 0, [3], 40), Lock(None, 1, [], 0),
      Lock(Some(3), 0, [], 40), Lock(Some(4), 0, [], 50), [], 2), Look(1), T21())
  }

  function T21(): Trace {
    Then(Snap(Thread(Blocked, 40, 30, [0], None, Sleeping), Thread(Running, 20, 20, [], None, Wanting(1)),
      Thread(Blocked, 40, 40, [2], Some(0), Wanting(0)), Thread(Blocked, 50, 50, [3], None, Sleeping),
      Thread(Blocked, 70, 70, [], None, Sleeping), Lock(Some(1), 0, [3], 40), Lock(None, 1, [], 0),
      Lock(Some(3), 0, [], 40), Lock(Some(4), 0, [], 50), [], 2), Pass, T22())
  }

  function T22(): Trace {
    Then(Snap(Thread(Blocked, 40, 30, [0], None, Sleeping), Thread(Running, 20, 20, [], None, Won(1)),
      Thread(Blocked, 40, 40, [2], Some(0), Wanting(0)), Thread(Blocked, 50, 50, [3], None, Sleeping),
      Thread(Blocked, 70, 70, [], None, Sleeping), Lock(Some(1), 0, [3], 40), Lock(None, 0, [], 0),
      Lock(Some(3), 0, [], 40), Lock(Some(4), 0, [], 50), [], 2), Take, T23())
  }

  function T23(): Trace {
    Then(Snap(Thread(Blocked, 40, 30, [0], None, Sleeping), Thread(Running, 20, 20, [1], None, Outside),
      Thread(Blocked, 40, 40, [2], Some(0), Wanting(0)), Thread(Blocked, 50, 50, [3], None, Sleeping),
      Thread(Blocked, 70, 70, [], None, Sleeping), Lock(Some(1), 0, [3], 40), Lock(Some(2), 0, [], 20),
      Lock(Some(3), 0, [], 40), Lock(Some(4), 0, [], 50), [], 2), SetPriority(60), T24())
  }

  function T24(): Trace {
    Then(Snap(Thread(Blocked, 40, 30, [0], None, Sleeping), Thread(Running, 60, 60, [1], None, Outside),
      Thread(Blocked, 40, 40, [2], Some(0), Wanting(0)), Thread(Blocked, 50, 50, [3], None, Sleeping),
      Thread(Blocked, 70, 70, [], None, Sleeping), Lock(Some(1), 0, [3], 40), Lock(Some(2), 0, [], 20),
      Lock(Some(3), 0, [], 40), Lock(Some(4), 0, [], 50), [], 2), SetPriority(10), T25())
  }

  function T25(): Trace {
    Then(Snap(Thread(Blocked, 40, 30, [0], None, Sleeping), Thread(Running, 60, 10, [1], None, Outside),
      Thread(Blocked, 40, 40, [2], Some(0), Wanting(0)), Thread(Blocked, 50, 50, [3], None, Sleeping),
      Thread(Blocked, 70, 70, [], None, Sleeping), Lock(Some(1), 0, [3], 40), Lock(Some(2), 0, [], 20),
      Lock(Some(3), 0, [], 40), Lock(Some(4), 0, [], 50), [], 2), WakeUp(4), T26())
  }

  function T26(): Trace {
    Then(Snap(Thread(Blocked, 40, 30, [0], None, Sleeping), Thread(Running, 60, 10, [1], None, Outside),
      Thread(Blocked, 40, 40, [2], Some(0), Wanting(0)), Thread(Ready, 50, 50, [3], None, Outside),
      Thread(Blocked, 70, 70, [], None, Sleeping), Lock(Some(1), 0, [3], 40), Lock(Some(2), 0, [], 20),
      Lock(Some(3), 0, [], 40), Lock(Some(4), 0, [], 50), [4], 2), GoToSleep, T27())
  }

  function T27(): Trace {
    Then(Snap(Thread(Blocked, 40, 30, [0], None, Sleeping), Thread(Blocked, 60, 10, [1], None, Sleeping),
      Thread(Blocked, 40, 40, [2], Some(0), Wanting(0)), Thread(Running, 50, 50, [3], None, Outside),
      Thread(Blocked, 70, 70, [], None, Sleeping), Lock(Some(1), 0, [3], 40), Lock(Some(2), 0, [], 20),
      Lock(Some(3), 0, [], 40), Lock(Some(4), 0, [], 50), [], 4), Look(1), T28())
  }

  function T28(): Trace {
    Then(Snap(Thread(Blocked, 40, 30, [0], None, Sleeping), Thread(Blocked, 60, 10, [1], None, Sleeping),
      Thread(Blocked, 40, 40, [2], Some(0), Wanting(0)), Thread(Running, 50, 50, [3], None, Noting(1)),
      Thread(Blocked, 70, 70, [], None, Sleeping), Lock(Some(1), 0, [3], 40), Lock(Some(2), 0, [], 20),
      Lock(Some(3), 0, [], 40), Lock(Some(4), 0, [], 50), [], 4), Note, T29())
  }

  function T29(): Trace {
    Then(Snap(Thread(Blocked, 40, 30, [0], None, Sleeping), Thread(Blocked, 60, 10, [1], None, Sleeping),
      Thread(Blocked, 40, 40, [2], Some(0), Wanting(0)), Thread(Running, 50, 50, [3], Some(1), Testing(1, 1)),
      Thread(Blocked, 70, 70, [], None, Sleeping), Lock(Some(1), 0, [3], 40), Lock(Some(2), 0, [], 20),
      Lock(Some(3), 0, [], 40), Lock(Some(4), 0, [], 50), [], 4), Test, T30())
  }

  function T30(): Trace {
    Then(Snap(Thread(Blocked, 40, 30, [0], None, Sleeping), Thread(Blocked, 60, 10, [1], None, Sleeping),
      Thread(Blocked, 40, 40, [2], Some(0), Wanting(0)), Thread(Running, 50, 50, [3], Some(1), Writing(1, 1)),
      Thread(Blocked, 70, 70, [], None, Sleeping), Lock(Some(1), 0, [3], 40), Lock(Some(2), 0, [], 20),
      Lock(Some(3), 0, [], 40), Lock(Some(4), 0, [], 50), [], 4), Write, T31())
  }

  function T31(): Trace {
    Then(Snap(Thread(Blocked, 40, 30, [0], None, Sleeping), Thread(Blocked, 60, 10, [1], None, Sleeping),
      Thread(Blocked, 40, 40, [2], Some(0), Wanting(0)), Thread(Running, 50, 50, [3], Some(1), Giving(1, 1)),
      Thread(Blocked, 70, 70, [], None, Sleeping), Lock(Some(1), 0, [3], 40), Lock(Some(2), 0, [], 50),
      Lock(Some(3), 0, [], 40), Lock(Some(4), 0, [], 50), [], 4), WakeUp(2), T32())
  }

  function T32(): Trace {
    Then(Snap(Thread(Blocked, 40, 30, [0], None, Sleeping), Thread(Ready, 60, 10, [1], None, Outside),
      Thread(Blocked, 40, 40, [2], Some(0), Wanting(0)), Thread(Running, 50, 50, [3], Some(1), Giving(1, 1)),
      Thread(Blocked, 70, 70, [], None, Sleeping), Lock(Some(1), 0, [3], 40), Lock(Some(2), 0, [], 50),
      Lock(Some(3), 0, [], 40), Lock(Some(4), 0, [], 50), [2], 4), Preempt, T33())
  }

  function T33(): Trace {
    Then(Snap(Thread(Blocked, 40, 30, [0], None, Sleeping), Thread(Running, 60, 10, [1], None, Outside),
      Thread(Blocked, 40, 40, [2], Some(0), Wanting(0)), Thread(Ready, 50, 50, [3], Some(1), Giving(1, 1)),
      Thread(Blocked, 70, 70, [], None, Sleeping), Lock(Some(1), 0, [3], 40), Lock(Some(2), 0, [], 50),
      Lock(Some(3), 0, [], 40), Lock(Some(4), 0, [], 50), [4], 2), Look(2), T34())
  }

  function T34(): Trace {
    Then(Snap(Thread(Blocked, 40, 30, [0], None, Sleeping), Thread(Running, 60, 10, [1], None, Noting(2)),
      Thread(Blocked, 40, 40, [2], Some(0), Wanting(0)), Thread(Ready, 50, 50, [3], Some(1), Giving(1, 1)),
      Thread(Blocked, 70, 70, [], None, Sleeping), Lock(Some(1), 0, [3], 40), Lock(Some(2), 0, [], 50),
      Lock(Some(3), 0, [], 40), Lock(Some(4), 0, [], 50), [4], 2), Note, T35())
  }

  function T35(): Trace {
    Then(Snap(Thread(Blocked, 40, 30, [0], None, Sleeping), Thread(Running, 60, 10, [1], Some(2), Testing(2, 2)),
      Thread(Blocked, 40, 40, [2], Some(0), Wanting(0)), Thread(Ready, 50, 50, [3], Some(1), Giving(1, 1)),
      Thread(Blocked, 70, 70, [], None, Sleeping), Lock(Some(1), 0, [3], 40), Lock(Some(2), 0, [], 50),
      Lock(Some(3), 0, [], 40), Lock(Some(4), 0, [], 50), [4], 2), Test, T36())
  }

  function T36(): Trace {
    Then(Snap(Thread(Blocked, 40, 30, [0], None, Sleeping), Thread(Running, 60, 10, [1], Some(2), Writing(2, 2)),
      Thread(Blocked, 40, 40, [2], Some(0), Wanting(0)), Thread(Ready, 50, 50, [3], Some(1), Giving(1, 1)),
      Thread(Blocked, 70, 70, [], None, Sleeping), Lock(Some(1), 0, [3], 40), Lock(Some(2), 0, [], 50),
      Lock(Some(3), 0, [], 40), Lock(Some(4), 0, [], 50), [4], 2), Write, T37())
  }

  function T37(): Trace {
    Then(Snap(Thread(Blocked, 40, 30, [0], None, Sleeping), Thread(Running, 60, 10, [1], Some(2), Giving(2, 2)),
      Thread(Blocked, 40, 40, [2], Some(0), Wanting(0)), Thread(Ready, 50, 50, [3], Some(1), Giving(1, 1)),
      Thread(Blocked, 70, 70, [], None, Sleeping), Lock(Some(1), 0, [3], 40), Lock(Some(2), 0, [], 50),
      Lock(Some(3), 0, [], 60), Lock(Some(4), 0, [], 50), [4], 2), Give, T38())
  }

  function T38(): Trace {
    Then(Snap(Thread(Blocked, 40, 30, [0], None, Sleeping), Thread(Running, 60, 10, [1], Some(2), Following(2, 2)),
      Thread(Blocked, 60, 40, [2], Some(0), Wanting(0)), Thread(Ready, 50, 50, [3], Some(1), Giving(1, 1)),
      Thread(Blocked, 70, 70, [], None, Sleeping), Lock(Some(1), 0, [3], 40), Lock(Some(2), 0, [], 50),
      Lock(Some(3), 0, [], 60), Lock(Some(4), 0, [], 50), [4], 2), WakeUp(5), T39())
  }

  function T39(): Trace {
    Then(Snap(Thread(Blocked, 40, 30, [0], None, Sleeping), Thread(Running, 60, 10, [1], Some(2), Following(2, 2)),
      Thread(Blocked, 60, 40, [2], Some(0), Wanting(0)), Thread(Ready, 50, 50, [3], Some(1), Giving(1, 1)),
      Thread(Ready, 70, 70, [], None, Outside), Lock(Some(1), 0, [3], 40), Lock(Some(2), 0, [], 50),
      Lock(Some(3), 0, [], 60), Lock(Some(4), 0, [], 50), [5, 4], 2), Preempt, T40())
  }

  function T40(): Trace {
    Then(Snap(Thread(Blocked, 40, 30, [0], None, Sleeping), Thread(Ready, 60, 10, [1], Some(2), Following(2, 2)),
      Thread(Blocked, 60, 40, [2], Some(0), Wanting(0)), Thread(Ready, 50, 50, [3], Some(1), Giving(1, 1)),
      Thread(Running, 70, 70, [], None, Outside), Lock(Some(1), 0, [3], 40), Lock(Some(2), 0, [], 50),
      Lock(Some(3), 0, [], 60), Lock(Some(4), 0, [], 50), [2, 4], 5), Look(3), T41())
  }

  function T41(): Trace {
    Then(Snap(Thread(Blocked, 40, 30, [0], None, Sleeping), Thread(Ready, 60, 10, [1], Some(2), Following(2, 2)),
      Thread(Blocked, 60, 40, [2], Some(0), Wanting(0)), Thread(Ready, 50, 50, [3], Some(1), Giving(1, 1)),
      Thread(Running, 70, 70, [], None, Noting(3)), Lock(Some(1), 0, [3], 40), Lock(Some(2), 0, [], 50),
      Lock(Some(3), 0, [], 60), Lock(Some(4), 0, [], 50), [2, 4], 5), Note, T42())
  }

  function T42(): Trace {
    Then(Snap(Thread(Blocked, 40, 30, [0], None, Sleeping), Thread(Ready, 60, 10, [1], Some(2), Following(2, 2)),
      Thread(Blocked, 60, 40, [2], Some(0), Wanting(0)), Thread(Ready, 50, 50, [3], Some(1), Giving(1, 1)),
      Thread(Running, 70, 70, [], Some(3), Testing(3, 3)), Lock(Some(1), 0, [3], 40), Lock(Some(2), 0, [], 50),
      Lock(Some(3), 0, [], 60), Lock(Some(4), 0, [], 50), [2, 4], 5), Test, T43())
  }

  function T43(): Trace {
    Then(Snap(Thread(Blocked, 40, 30, [0], None, Sleeping), Thread(Ready, 60, 10, [1], Some(2), Following(2, 2)),
      Thread(Blocked, 60, 40, [2], Some(0), Wanting(0)), Thread(Ready, 50, 50, [3], Some(1), Giving(1, 1)),
      Thread(Running, 70, 70, [], Some(3), Writing(3, 3)), Lock(Some(1), 0, [3], 40), Lock(Some(2), 0, [], 50),
      Lock(Some(3), 0, [], 60), Lock(Some(4), 0, [], 50), [2, 4], 5), Write, T44())
  }

  function T44(): Trace {
    Then(Snap(Thread(Blocked, 40, 30, [0], None, Sleeping), Thread(Ready, 60, 10, [1], Some(2), Following(2, 2)),
      Thread(Blocked, 60, 40, [2], Some(0), Wanting(0)), Thread(Ready, 50, 50, [3], Some(1), Giving(1, 1)),
      Thread(Running, 70, 70, [], Some(3), Giving(3, 3)), Lock(Some(1), 0, [3], 40), Lock(Some(2), 0, [], 50),
      Lock(Some(3), 0, [], 60), Lock(Some(4), 0, [], 70), [2, 4], 5), Give, T45())
  }

  function T45(): Trace {
    Then(Snap(Thread(Blocked, 40, 30, [0], None, Sleeping), Thread(Ready, 60, 10, [1], Some(2), Following(2, 2)),
      Thread(Blocked, 60, 40, [2], Some(0), Wanting(0)), Thread(Ready, 70, 50, [3], Some(1), Giving(1, 1)),
      Thread(Running, 70, 70, [], Some(3), Following(3, 3)), Lock(Some(1), 0, [3], 40), Lock(Some(2), 0, [], 50),
      Lock(Some(3), 0, [], 60), Lock(Some(4), 0, [], 70), [4, 2], 5), Preempt, T46())
  }

  function T46(): Trace {
    End(Snap(Thread(Blocked, 40, 30, [0], None, Sleeping), Thread(Ready, 60, 10, [1], Some(2), Following(2, 2)),
      Thread(Blocked, 60, 40, [2], Some(0), Wanting(0)), Thread(Running, 70, 50, [3], Some(1), Giving(1, 1)),
      Thread(Ready, 70, 70, [], Some(3), Following(3, 3)), Lock(Some(1), 0, [3], 40), Lock(Some(2), 0, [], 50),
      Lock(Some(3), 0, [], 60), Lock(Some(4), 0, [], 70), [5, 2], 4))
  }

  lemma From45()
    ensures Leads(T45(), T46().state)
  {
    hide Yield, Leads;
    Preempted(T45().state, 1, 4);
    Arrived(T46().state);
    Onward(T45(), T46().state);
  }

  lemma From44()
    ensures Leads(T44(), T46().state)
  {
    hide GiveState, Leads, T46;
    GivenReady(T44().state, 4, 3, 3, [2], 0);
    From45();
    Onward(T44(), T46().state);
  }

  lemma From43()
    ensures Leads(T43(), T46().state)
  {
    hide Leads, T45, T46;
    From44();
    Onward(T43(), T46().state);
  }

  lemma From42()
    ensures Leads(T42(), T46().state)
  {
    hide Leads, T44, T46;
    From43();
    Onward(T42(), T46().state);
  }

  lemma From41()
    ensures Leads(T41(), T46().state)
  {
    hide Leads, T43, T46;
    From42();
    Onward(T41(), T46().state);
  }

  lemma From40()
    ensures Leads(T40(), T46().state)
  {
    hide Leads, T42, T46;
    From41();
    Onward(T40(), T46().state);
  }

  lemma From39()
    ensures Leads(T39(), T46().state)
  {
    hide Yield, Leads, T41, T46;
    Preempted(T39().state, 1, 5);
    From40();
    Onward(T39(), T46().state);
  }

  lemma From38()
    ensures Leads(T38(), T46().state)
  {
    hide AfterWakeUp, Leads, T40, T46;
    WokenTo(T38().state, 5, 0);
    From39();
    Onward(T38(), T46().state);
  }

  lemma From37()
    ensures Leads(T37(), T46().state)
  {
    hide GiveState, Leads, T39, T46;
    GivenAlone(T37().state, 3, 2, 2);
    From38();
    Onward(T37(), T46().state);
  }

  lemma From36()
    ensures Leads(T36(), T46().state)
  {
    hide Leads, T38, T46;
    From37();
    Onward(T36(), T46().state);
  }

  lemma From35()
    ensures Leads(T35(), T46().state)
  {
    hide Leads, T37, T46;
    From36();
    Onward(T35(), T46().state);
  }

  lemma From34()
    ensures Leads(T34(), T46().state)
  {
    hide Leads, T36, T46;
    From35();
    Onward(T34(), T46().state);
  }

  lemma From33()
    ensures Leads(T33(), T46().state)
  {
    hide Leads, T35, T46;
    From34();
    Onward(T33(), T46().state);
  }

  lemma From32()
    ensures Leads(T32(), T46().state)
  {
    hide Yield, Leads, T34, T46;
    Preempted(T32().state, 1, 2);
    From33();
    Onward(T32(), T46().state);
  }

  lemma From31()
    ensures Leads(T31(), T46().state)
  {
    hide AfterWakeUp, Leads, T33, T46;
    WokenAlone(T31().state, 2);
    From32();
    Onward(T31(), T46().state);
  }

  lemma From30()
    ensures Leads(T30(), T46().state)
  {
    hide Leads, T32, T46;
    From31();
    Onward(T30(), T46().state);
  }

  lemma From29()
    ensures Leads(T29(), T46().state)
  {
    hide Leads, T31, T46;
    From30();
    Onward(T29(), T46().state);
  }

  lemma From28()
    ensures Leads(T28(), T46().state)
  {
    hide Leads, T30, T46;
    From29();
    Onward(T28(), T46().state);
  }

  lemma From27()
    ensures Leads(T27(), T46().state)
  {
    hide Leads, T29, T46;
    From28();
    Onward(T27(), T46().state);
  }

  lemma From26()
    ensures Leads(T26(), T46().state)
  {
    hide Block, Leads, T28, T46;
    FallsAsleep(T26().state, 4);
    From27();
    Onward(T26(), T46().state);
  }

  lemma From25()
    ensures Leads(T25(), T46().state)
  {
    hide AfterWakeUp, Leads, T27, T46;
    WokenAlone(T25().state, 4);
    From26();
    Onward(T25(), T46().state);
  }

  lemma From24()
    ensures Leads(T24(), T46().state)
  {
    hide Leads, T26, T46;
    From25();
    Onward(T24(), T46().state);
  }

  lemma From23()
    ensures Leads(T23(), T46().state)
  {
    hide Yield, Leads, T25, T46;
    YieldedAlone(WithPriority(T23().state, 60));
    From24();
    Onward(T23(), T46().state);
  }

  lemma From22()
    ensures Leads(T22(), T46().state)
  {
    hide TakeState, Leads, T24, T46;
    TakenFirst(T22().state, 1);
    From23();
    Onward(T22(), T46().state);
  }

  lemma From21()
    ensures Leads(T21(), T46().state)
  {
    hide Leads, T23, T46;
    From22();
    Onward(T21(), T46().state);
  }

  lemma From20()
    ensures Leads(T20(), T46().state)
  {
    hide Leads, T22, T46;
    From21();
    Onward(T20(), T46().state);
  }

  lemma From19()
    ensures Leads(T19(), T46().state)
  {
    hide Block, Leads, T21, T46;
    FallsAsleep(T19().state, 2);
    From20();
    Onward(T19(), T46().state);
  }

  lemma From18()
    ensures Leads(T18(), T46().state)
  {
    hide Block, QueueState, Leads, T20, T46;
    QueuedFirst(T18().state, 0, 1);
    From19();
    Onward(T18(), T46().state);
  }

  lemma From17()
    ensures Leads(T17(), T46().state)
  {
    hide Leads, T19, T46;
    From18();
    Onward(T17(), T46().state);
  }

  lemma From16()
    ensures Leads(T16(), T46().state)
  {
    hide GiveState, Leads, T18, T46;
    GivenReady(T16().state, 1, 0, 0, [2], 0);
    From17();
    Onward(T16(), T46().state);
  }

  lemma From15()
    ensures Leads(T15(), T46().state)
  {
    hide Leads, T17, T46;
    From16();
    Onward(T15(), T46().state);
  }

  lemma From14()
    ensures Leads(T14(), T46().state)
  {
    hide Leads, T16, T46;
    From15();
    Onward(T14(), T46().state);
  }

  lemma From13()
    ensures Leads(T13(), T46().state)
  {
    hide Leads, T15, T46;
    From14();
    Onward(T13(), T46().state);
  }

  lemma From12()
    ensures Leads(T12(), T46().state)
  {
    hide Leads, T14, T46;
    From13();
    Onward(T12(), T46().state);
  }

  lemma From11()
    ensures Leads(T11(), T46().state)
  {
    hide TakeState, Leads, T13, T46;
    TakenFirst(T11().state, 2);
    From12();
    Onward(T11(), T46().state);
  }

  lemma From10()
    ensures Leads(T10(), T46().state)
  {
    hide Leads, T12, T46;
    From11();
    Onward(T10(), T46().state);
  }

  lemma From9()
    ensures Leads(T9(), T46().state)
  {
    hide Leads, T11, T46;
    From10();
    Onward(T9(), T46().state);
  }

  lemma From8()
    ensures Leads(T8(), T46().state)
  {
    hide Block, Leads, T10, T46;
    FallsAsleep(T8().state, 3);
    From9();
    Onward(T8(), T46().state);
  }

  lemma From7()
    ensures Leads(T7(), T46().state)
  {
    hide TakeState, Leads, T9, T46;
    TakenFirst(T7().state, 3);
    From8();
    Onward(T7(), T46().state);
  }

  lemma From6()
    ensures Leads(T6(), T46().state)
  {
    hide Leads, T8, T46;
    From7();
    Onward(T6(), T46().state);
  }

  lemma From5()
    ensures Leads(T5(), T46().state)
  {
    hide Leads, T7, T46;
    From6();
    Onward(T5(), T46().state);
  }

  lemma From4()
    ensures Leads(T4(), T46().state)
  {
    hide Block, Leads, T6, T46;
    FallsAsleep(T4().state, 4);
    From5();
    Onward(T4(), T46().state);
  }

  lemma From3()
    ensures Leads(T3(), T46().state)
  {
    hide Yield, Leads, T5, T46;
    Preempted(T3().state, 3, 5);
    From4();
    Onward(T3(), T46().state);
  }

  lemma From2()
    ensures Leads(T2(), T46().state)
  {
    hide TakeState, Leads, T4, T46;
    TakenFirst(T2().state, 0);
    From3();
    Onward(T2(), T46().state);
  }

  lemma From1()
    ensures Leads(T1(), T46().state)
  {
    hide Leads, T3, T46;
    From2();
    Onward(T1(), T46().state);
  }

  lemma From0()
    ensures Leads(T0(), T46().state)
  {
    hide Leads, T2, T46;
    From1();
    Onward(T0(), T46().state);
  }

  lemma Boots()
    ensures Booted(T0().state)
  {
    hide T1, Booted;
    var L := map[0 := Lock(None, 1, [], 0), 1 := Lock(None, 1, [], 0), 2 := Lock(None, 1, [], 0), 3 := Lock(None, 1, [], 0)];
    StartBooted(30, 20, 40, L);
    JoinedBooted(Start(30, 20, 40, L), 4, 50);
    JoinedBooted(Joined(Start(30, 20, 40, L), 4, 50), 5, 70);
    assert T0().state == Joined(Joined(Start(30, 20, 40, L), 4, 50), 5, 70);
  }

  lemma Falls()
    ensures Enabled(T46().state, Give) && T46().state.locks[1].holder == Some(2) && Chains.Gift(T46().state, 2) == 50
  {
    SortedAlone(1, LockRank(T46().state.locks));
  }

  /** Thread 3 is at 60, lock 0 at 40, and thread 2 is the only donor on the way. */
  lemma Ends()
    ensures !Chains.SparesWaiters(T46().state, 2, 50)
  {
    var s := T46().state;
    assert s.threads.Keys == {0, 1, 2, 3, 4, 5};
    assert Chains.Heads(s, 2, 0) && Chains.Awaits(s, 3, 0);
    assert forall d :: d != 2 ==> !Chains.Heads(s, d, 0);
  }

  /** The donation that the running thread makes next lowers thread `h`, and that leaves a waiter
      without a donor of its rank. */
  ghost predicate Lowers(s: State, h: Tid) {
    && Enabled(s, Give) && s.locks[Cur(s).pc.at].holder == Some(h) && h in s.threads
    && Chains.Gift(s, h) < s.threads[h].priority && !Chains.SparesWaiters(s, h, Chains.Gift(s, h))
  }

  /** The run is possible, and its next step lowers a donor that a waiter counts on. */
  lemma PursuerFalls()
    ensures RunsFromBoot(T0(), T46().state) && Lowers(T46().state, 2)
  {
    hide Leads, Booted, RunsFromBoot, Chains.SparesWaiters, Chains.Gift;
    Boots();
    Falls();
    Ends();
    From0();
    Happens(T0(), T46().state);
  }
}
