/** The routines of `threads/thread.c` and the donation loop of `threads/synch.c` as they update
    the kernel's structures in place. */
module Machine {
  import opened Wrappers
  import opened Order
  import opened Kernel
  import opened Donation
  import opened Locks
  import opened LockRuns
  import opened Dispatch
  import Chains

  /** The locks of `held`, in order of their priority. */
  ghost predicate InOrder(sorted: seq<Lid>, held: seq<Lid>, L: map<Lid, Lock>) {
    Sorted(sorted, LockRank(L), Greater) && multiset(sorted) == multiset(held)
  }

  lemma UpdatedInOrder(th: Thread, L: map<Lid, Lock>)
    ensures InOrder(Updated(th, L).held, th.held, L)
  {
    PriorityOrder();
    SortSorts(th.held, LockRank(L), Greater);
  }

  /** The body of `thread_update_priority`; the list is sorted as `LinkedList.Sort` does it. */
  method UpdateThread(th: Thread, L: map<Lid, Lock>) returns (r: Thread)
    ensures r == Updated(th, L)
  {
    var maxPriority, held := th.base, th.held;
    if held != [] {
      SortedLength(held, L);
      held := StableSort(held, LockRank(L), Greater);
      var lockPriority := LockRank(L)(held[0]);
      if lockPriority > maxPriority {
        maxPriority := lockPriority;
      }
    }
    r := th.(held := held, priority := maxPriority);
  }

  lemma SortedLength(held: seq<Lid>, L: map<Lid, Lock>)
    ensures |StableSort(held, LockRank(L), Greater)| == |held|
  {
    PriorityOrder();
    SortSorts(held, LockRank(L), Greater);
    assert |multiset(held)| == |held|;
    var s := StableSort(held, LockRank(L), Greater);
    assert |multiset(s)| == |s|;
  }

  lemma LiftedReady(s: State, l: Lid, p: int)
    requires ReadyInv(s) && l in s.locks
    ensures ReadyInv(Lifted(s, l, p))
  {
  }

  lemma ListedThreads(s: State)
    requires ReadyInv(s)
    ensures forall u :: u in s.ready ==> u in s.threads
  {
  }

  class Machine {
    var threads: map<Tid, Thread>
    var locks: map<Lid, Lock>
    var ready: seq<Tid>
    var current: Tid
    const idle: Tid

    ghost function View(): State
      reads this
    {
      State(threads, locks, ready, current, idle)
    }

    constructor (threads: map<Tid, Thread>, locks: map<Lid, Lock>, ready: seq<Tid>, current: Tid, idle: Tid)
      requires Booted(State(threads, locks, ready, current, idle))
      ensures Inv(View()) && Chains.Sound(View())
    {
      this.threads, this.locks, this.ready, this.current, this.idle := threads, locks, ready, current, idle;
      new;
      Chains.BootedSound(View());
    }

    /** The walk of `list_insert_ordered` along a list of threads. */
    method InsertByPriority(list: seq<Tid>, t: Tid) returns (r: seq<Tid>)
      requires t in threads && forall u :: u in list ==> u in threads
      ensures r == InsertOrdered(list, t, Rank(threads), Greater)
    {
      var i := 0;
      while i < |list| && threads[t].priority <= threads[list[i]].priority
        invariant i <= |list|
        invariant forall k :: 0 <= k < i ==> !Greater(Rank(threads)(t), Rank(threads)(list[k]))
      {
        i := i + 1;
      }
      InsertPosUnique(list, t, i, Rank(threads), Greater);
      r := list[..i] + [t] + list[i..];
    }

    method ThreadUnblock(t: Tid)
      requires ReadyInv(View()) && t in threads && threads[t].status == Blocked && t != idle
      modifies this
      ensures View() == Unblock(old(View()), t)
      ensures ReadyInv(View())
    {
      UnblockKeepsReady(View(), t);
      ready := InsertByPriority(ready, t);
      threads := threads[t := threads[t].(status := Ready)];
    }

    /** `schedule`, in which a thread other than the old one gets the processor. */
    method ScheduleNext()
      requires idle in threads && ReadyList(threads, ready, idle)
      requires forall t :: t in threads ==> threads[t].status != Running
      modifies this
      ensures old(ready != [] ==> ready[0] in threads) && View() == Schedule(old(View()))
      ensures ReadyInv(View()) && TopRuns(View())
    {
      ScheduleTop(View());
      ScheduleKeepsReady(View());
      var next := idle;
      if ready != [] {
        next, ready := ready[0], ready[1..];
      }
      current := next;
      threads := threads[next := threads[next].(status := Running)];
    }

    /** After `thread_block` and `thread_yield` the processor is with a thread that no ready thread
        outranks. */
    method ThreadBlock()
      requires ReadyInv(View())
      modifies this
      ensures old(ready != [] ==> ready[0] in threads) && View() == Block(old(View()))
      ensures ReadyInv(View()) && TopRuns(View())
    {
      StatusKeepsList(threads, ready, idle, current, Blocked);
      threads := threads[current := threads[current].(status := Blocked)];
      ScheduleNext();
    }

    method ThreadYield()
      requires ReadyInv(View())
      modifies this
      ensures View() == Yield(old(View()))
      ensures ReadyInv(View()) && TopRuns(View())
    {
      ghost var s := View();
      YieldingList(s);
      if current != idle {
        ready := InsertByPriority(ready, current);
      }
      threads := threads[current := threads[current].(status := Ready)];
      assert View() == Yielding(s);
      ScheduleNext();
    }

    /** A thread gets the largest of its base priority and the donations to its locks, which are
        then in order of priority. */
    method ThreadUpdatePriority(t: Tid)
      requires t in threads
      modifies this`threads
      ensures threads == old(threads)[t := Updated(old(threads)[t], locks)]
      ensures IsEffective(threads[t].priority, old(threads)[t], locks)
      ensures InOrder(threads[t].held, old(threads)[t].held, locks)
    {
      hide Updated, IsEffective, InOrder;
      UpdatedIsEffective(threads[t], locks);
      UpdatedInOrder(threads[t], locks);
      var th := UpdateThread(threads[t], locks);
      threads := threads[t := th];
    }

    method ThreadDonatePriority(t: Tid)
      requires ReadyInv(View()) && t in threads && t != idle
      modifies this
      ensures View() == DonateTo(old(View()), t)
      ensures ReadyInv(View()) && IsEffective(threads[t].priority, old(threads)[t], locks)
    {
      GiveKeepsReady(View(), t);
      ListedThreads(View());
      hide ReadyInv, Updated, IsEffective, InOrder;
      ThreadUpdatePriority(t);
      if threads[t].status == Ready {
        ready := Without(ready, t);
        ready := InsertByPriority(ready, t);
      }
    }

    /** One turn of the donation loop. */
    method DonateTurn(k: Lid, h: Tid)
      requires Donating(View(), current) && k in locks && locks[k].holder == Some(h) && h in threads
      requires threads[current].priority > locks[k].maxPriority
      modifies this
      ensures View() == Raise(old(View()), old(current), k)
      ensures Donating(View(), current) && Nearer(old(View()), View(), current)
    {
      hide Refs, HolderHolds, ReadyInv, DonateTo, Nearer, Risen, SameButPriorities, LocksRaised, Raised;
      ghost var s := View();
      RaiseTurn(s, current, k);
      LiftedReady(s, k, threads[current].priority);
      locks := locks[k := locks[k].(maxPriority := threads[current].priority)];
      assert View() == Lifted(s, k, threads[current].priority);
      ThreadDonatePriority(h);
    }

    /** The loop comes to an end whatever the chain of holders looks like. */
    method DonateLoop(lock: Lid) returns (ok: bool)
      requires Donating(View(), current) && lock in locks
      modifies this
      ensures ok <==> Donate(old(View()), old(current), Some(lock)).Done?
      ensures ok ==> Donate(old(View()), old(current), Some(lock)) == Done(View())
    {
      var l: Option<Lid> := Some(lock);
      while l.Some? && threads[current].priority > locks[l.value].maxPriority
        invariant Donating(View(), current) && current == old(current)
        invariant l.Some? ==> l.value in locks
        invariant Donate(View(), current, l) == Donate(old(View()), old(current), Some(lock))
        decreases Unsettled(View(), current), Below(View(), current)
      {
        ghost var s := View();
        var k := l.value;
        if locks[k].holder == None {
          return false;
        }
        var h := locks[k].holder.value;
        DonateTurn(k, h);
        DonateUnfold(s, current, k, h, View());
        l := threads[h].waits;
      }
      ok := true;
    }

    /** The donation loop, run without being preempted: it leaves no inversion of its making, and
        fails exactly when the chain leads to a lock without holder. */
    method DonateAlong(lock: Lid) returns (ok: bool)
      requires Donating(View(), current) && lock in locks
      modifies this
      ensures !ok <==> ComesFree(old(View()), old(current), old(threads[current].priority), Some(lock))
      ensures ok ==> Donating(View(), current) && SameButPriorities(old(View()), View()) && Risen(old(View()), View(), current)
      ensures ok ==> LocksRaised(old(View()), View(), old(threads[current].priority), threads[current].priority)
      ensures ok && old(AllCover(View()) && NoInversionBut(View(), Some(lock), threads[current].priority)) ==> NoInversion(View())
    {
      ghost var s, t := View(), current;
      DonateFaults(s, t, Some(lock));
      ok := DonateLoop(lock);
      if ok {
        DonateRestores(s, t, Some(lock), View());
      }
    }
  }
}
