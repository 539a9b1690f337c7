/** Who runs next: the ready thread of the highest priority, and among equals the one that became
    ready first. */
module Dispatch {
  import opened Wrappers
  import opened Order
  import opened Kernel
  import opened Donation
  import opened Locks
  import opened LockRuns

  /** The ready threads of priority `p`, in the order of the list. */
  ghost function Band(s: State, p: int): seq<Tid> { Of(s.ready, s.threads, p) }

  /** The threads of `list` that have priority `p`. */
  ghost function Of(list: seq<Tid>, T: map<Tid, Thread>, p: int): seq<Tid> { Ties(list, p, Rank(T), Greater) }

  lemma {:induction false} OfAgain(list: seq<Tid>, T: map<Tid, Thread>, T': map<Tid, Thread>, p: int)
    requires forall t :: t in list ==> Rank(T)(t) == Rank(T')(t)
    ensures Of(list, T, p) == Of(list, T', p)
  {
    if list != [] {
      assert list[|list| - 1] in list;
      OfAgain(list[..|list| - 1], T, T', p);
    }
  }

  lemma OfConcat(a: seq<Tid>, b: seq<Tid>, T: map<Tid, Thread>, p: int)
    ensures Of(a + b, T, p) == Of(a, T, p) + Of(b, T, p)
  {
    TiesOfConcat(a, b, p, Rank(T), Greater);
  }

  lemma OfInserted(list: seq<Tid>, t: Tid, T: map<Tid, Thread>, p: int)
    requires Sorted(list, Rank(T), Greater)
    ensures Of(InsertOrdered(list, t, Rank(T), Greater), T, p) == Of(list, T, p) + Of([t], T, p)
  {
    PriorityOrder();
    InsertTies(list, t, p, Rank(T), Greater);
    OfConcat(list, [t], T, p);
  }

  /** A thread that becomes ready joins its equals at the back. */
  lemma UnblockBand(s: State, t: Tid, p: int)
    requires ReadyInv(s) && t in s.threads && s.threads[t].status == Blocked
    ensures Band(Unblock(s, t), p) == Band(s, p) + Of([t], s.threads, p)
  {
    OfInserted(s.ready, t, s.threads, p);
    OfAgain(Unblock(s, t).ready, s.threads, Unblock(s, t).threads, p);
  }

  /** A ready thread that gets a donation leaves its place and joins its new equals at the back; the
      others stay in order. */
  lemma DonateBand(s: State, h: Tid, p: int)
    requires ReadyInv(s) && h in s.threads && h != s.idle && s.threads[h].status == Ready
    ensures Band(DonateTo(s, h), p) == Of(Without(s.ready, h), s.threads, p) + Of([h], DonateTo(s, h).threads, p)
  {
    var T := DonateTo(s, h).threads;
    WithoutSorted(s.ready, h, Rank(s.threads));
    SortedAgain(Without(s.ready, h), Rank(s.threads), Rank(T));
    OfInserted(Without(s.ready, h), h, T, p);
    OfAgain(Without(s.ready, h), s.threads, T, p);
  }

  /** The thread that is scheduled, unless it is the idle thread, if its priority is `p`. */
  ghost function Chosen(s': State, p: int): seq<Tid> {
    if s'.current == s'.idle then [] else Of([s'.current], s'.threads, p)
  }

  /** The thread that is scheduled leaves its equals from the front. */
  lemma ScheduleBand(s: State, p: int)
    requires s.idle in s.threads && ReadyList(s.threads, s.ready, s.idle)
    ensures s.ready != [] ==> s.ready[0] in s.threads
    ensures Band(s, p) == Chosen(Schedule(s), p) + Band(Schedule(s), p)
  {
    if s.ready != [] {
      assert s.ready[0] in s.ready;
      assert s.ready == [s.ready[0]] + s.ready[1..];
      OfConcat([s.ready[0]], s.ready[1..], s.threads, p);
      OfAgain(s.ready[1..], s.threads, Schedule(s).threads, p);
      OfAgain([s.ready[0]], s.threads, Schedule(s).threads, p);
    }
  }

  lemma BlockBand(s: State, p: int)
    requires ReadyInv(s)
    ensures s.ready != [] ==> s.ready[0] in s.threads
    ensures Band(s, p) == Chosen(Block(s), p) + Band(Block(s), p)
  {
    if s.ready != [] { assert s.ready[0] in s.ready; }
    StatusKeepsList(s.threads, s.ready, s.idle, s.current, Blocked);
    OfAgain(s.ready, s.threads, Stopped(s).threads, p);
    ScheduleBand(Stopped(s), p);
  }

  /** The running thread, if it takes part in the ready list. */
  function Self(s: State): seq<Tid> { if s.current == s.idle then [] else [s.current] }

  lemma YieldBand(s: State, p: int)
    requires ReadyInv(s)
    ensures Band(s, p) + Of(Self(s), s.threads, p) == Chosen(Yield(s), p) + Band(Yield(s), p)
  {
    YieldingList(s);
    if s.current != s.idle { OfInserted(s.ready, s.current, s.threads, p); }
    OfAgain(Yielding(s).ready, s.threads, Yielding(s).threads, p);
    ScheduleBand(Yielding(s), p);
    assert Yield(s) == Schedule(Yielding(s));
  }

  // ---- every step

  function Front(q: seq<Tid>): seq<Tid> { if q == [] then [] else [q[0]] }

  /** The threads that a step puts on the ready list, in order. */
  function Enqueued(s: State, a: Action): seq<Tid>
    requires Enabled(s, a)
  {
    match a
    case Up => Front(StableSort(s.locks[Cur(s).pc.lock].waiters, Rank(s.threads), Greater)) + Self(s)
    case SetPriority(_) => if Dispatches(s, a) then Self(s) else []
    case Preempt => Self(s)
    case WakeUp(t) => [t]
    case Create(t, _) => [t] + if Dispatches(s, a) then Self(s) else []
    case _ => []
  }

  /** Does the step end in `schedule`? */
  predicate Dispatches(s: State, a: Action)
    requires Enabled(s, a)
  {
    match a
    case SetPriority(p) => Cur(s).held == [] || p > Cur(s).priority
    case Create(_, p) => Cur(s).priority < p
    case _ => a.Queue? || a.Up? || a.Preempt? || a.GoToSleep? || a.IdleBlocks?
  }

  ghost function Served(s: State, a: Action, s': State, p: int): seq<Tid>
    requires Enabled(s, a)
  {
    if Dispatches(s, a) then Chosen(s', p) else []
  }

  /** The ready thread that the step moves in the list, since it donates to it. */
  ghost function Moved(s: State, a: Action): Option<Tid>
    requires Enabled(s, a)
  {
    if a.Give? && s.locks[Cur(s).pc.at].holder.Some? then
      var h := s.locks[Cur(s).pc.at].holder.value;
      if h in s.threads && s.threads[h].status == Ready then Some(h) else None
    else None
  }

  /** First in, first out: of each priority, what was ready and then what joined is what was
      served and then what is ready. */
  ghost predicate Fifo(s: State, a: Action, s': State, p: int)
    requires Enabled(s, a)
  {
    Band(s, p) + Of(Enqueued(s, a), s'.threads, p) == Served(s, a, s', p) + Band(s', p)
  }

  lemma SameList(s: State, a: Action, s': State, p: int)
    requires Enabled(s, a) && Enqueued(s, a) == [] && !Dispatches(s, a) && s'.ready == s.ready
    requires forall t :: t in s.ready ==> Rank(s.threads)(t) == Rank(s'.threads)(t)
    ensures Fifo(s, a, s', p)
  {
    OfAgain(s.ready, s.threads, s'.threads, p);
  }

  lemma SameBand(s: State, s': State, p: int)
    requires s'.ready == s.ready && forall t :: t in s.ready ==> Rank(s.threads)(t) == Rank(s'.threads)(t)
    ensures Band(s', p) == Band(s, p)
  {
    OfAgain(s.ready, s.threads, s'.threads, p);
  }

  lemma YieldOf(s: State, list: seq<Tid>, p: int)
    requires ReadyInv(s) && forall t :: t in list ==> t in s.threads
    ensures Of(list, Yield(s).threads, p) == Of(list, s.threads, p)
  {
    YieldStatusOnly(s);
    OfAgain(list, s.threads, Yield(s).threads, p);
  }

  lemma QueueFifo(s: State, p: int)
    requires ReadyInv(s) && Enabled(s, Queue)
    ensures Fifo(s, Queue, AfterQueue(s), p)
  {
    ReadyFrame(s, QueueState(s));
    SameBand(s, QueueState(s), p);
    BlockBand(QueueState(s), p);
  }

  lemma GoToSleepFifo(s: State, p: int)
    requires ReadyInv(s) && Enabled(s, GoToSleep)
    ensures Fifo(s, GoToSleep, AfterGoToSleep(s), p)
  {
    ReadyFrame(s, Drowsy(s));
    SameBand(s, Drowsy(s), p);
    BlockBand(Drowsy(s), p);
  }

  lemma Regroup(a: seq<Tid>, j: seq<Tid>, j': seq<Tid>, v: seq<Tid>, v': seq<Tid>, b: seq<Tid>, b': seq<Tid>)
    requires a + j == v + b && b + j' == v' + b'
    ensures a + (j + j') == (v + v') + b'
  {
    assert a + (j + j') == (a + j) + j' == v + (b + j');
    assert v + (v' + b') == (v + v') + b';
  }

  /** Threads `x` have joined on the way from `s` to `s1`, where the running thread yields. */
  lemma JoinedThenYield(s: State, s1: State, x: seq<Tid>, p: int)
    requires ReadyInv(s1) && Band(s1, p) == Band(s, p) + Of(x, s1.threads, p) && forall t :: t in x ==> t in s1.threads
    ensures Band(s, p) + Of(x + Self(s1), Yield(s1).threads, p) == Chosen(Yield(s1), p) + Band(Yield(s1), p)
  {
    YieldBand(s1, p);
    YieldOf(s1, x + Self(s1), p);
    JoinedThen(s, s1, Yield(s1), x, p);
  }

  lemma JoinedThen(s: State, s1: State, s': State, x: seq<Tid>, p: int)
    requires Band(s1, p) == Band(s, p) + Of(x, s1.threads, p)
    requires Band(s1, p) + Of(Self(s1), s1.threads, p) == Chosen(s', p) + Band(s', p)
    requires Of(x + Self(s1), s'.threads, p) == Of(x + Self(s1), s1.threads, p)
    ensures Band(s, p) + Of(x + Self(s1), s'.threads, p) == Chosen(s', p) + Band(s', p)
  {
    OfConcat(x, Self(s1), s1.threads, p);
    Regroup(Band(s, p), Of(x, s1.threads, p), Of(Self(s1), s1.threads, p), [], Chosen(s', p), Band(s1, p), Band(s', p));
  }

  lemma UpFifo(s: State, p: int)
    requires QueueInv(s) && ThreadInv(s) && ReadyInv(s) && Enabled(s, Up)
    ensures Fifo(s, Up, AfterUp(s), p)
  {
    var l := Cur(s).pc.lock;
    assert ThreadOk(s.threads[s.idle], s.locks, true);
    UpReady(s);
    var q := StableSort(s.locks[l].waiters, Rank(s.threads), Greater);
    SortedWaiters(s.locks[l].waiters, s.threads);
    assert q != [] ==> Asleep(s, q[0], l);
    UpBand(s, l, q, p);
    JoinedThenYield(s, UpState(s), Front(q), p);
  }

  lemma UpBand(s: State, l: Lid, q: seq<Tid>, p: int)
    requires ReadyInv(s) && l in s.locks && (q != [] ==> q[0] in s.threads && s.threads[q[0]].status == Blocked)
    ensures Band(WakeFront(s, l, q), p) == Band(s, p) + Of(Front(q), WakeFront(s, l, q).threads, p)
    ensures Self(WakeFront(s, l, q)) == Self(s) && forall t :: t in Front(q) ==> t in WakeFront(s, l, q).threads
  {
    ReadyFrame(s, Popped(s, l, q));
    SameBand(s, Popped(s, l, q), p);
    if q != [] {
      UnblockBand(Popped(s, l, q), q[0], p);
      OfAgain([q[0]], Popped(s, l, q).threads, WakeFront(s, l, q).threads, p);
    }
  }

  lemma WithPriorityBand(s: State, q: int, p: int)
    requires ReadyInv(s)
    ensures Band(WithPriority(s, q), p) == Band(s, p)
  {
    SameBand(s, WithPriority(s, q), p);
  }

  lemma SetPriorityFifo(s: State, q: int, p: int)
    requires ReadyInv(s) && Enabled(s, SetPriority(q))
    ensures Fifo(s, SetPriority(q), AfterSetPriority(s, q), p)
  {
    assert Of([], AfterSetPriority(s, q).threads, p) == [];
    hide Of, ReadyList, Yield;
    var s1 := WithPriority(s, q);
    SetPriorityReady(s, q);
    WithPriorityBand(s, q, p);
    YieldBand(s1, p);
    YieldOf(s1, Self(s1), p);
  }

  lemma PreemptFifo(s: State, p: int)
    requires ReadyInv(s) && Enabled(s, Preempt)
    ensures Fifo(s, Preempt, AfterPreempt(s), p)
  {
    YieldBand(s, p);
    YieldOf(s, Self(s), p);
  }

  lemma AwakenedBand(s: State, t: Tid, p: int)
    requires ReadyInv(s) && t in s.threads
    ensures ReadyInv(Awakened(s, t)) && Band(Awakened(s, t), p) == Band(s, p)
  {
    ReadyFrame(s, Awakened(s, t));
    SameBand(s, Awakened(s, t), p);
  }

  lemma WakeUpFifo(s: State, t: Tid, p: int)
    requires ReadyInv(s) && Enabled(s, WakeUp(t))
    ensures Fifo(s, WakeUp(t), AfterWakeUp(s, t), p)
  {
    hide Of, ReadyList;
    AwakenedBand(s, t, p);
    UnblockBand(Awakened(s, t), t, p);
    OfAgain([t], Awakened(s, t).threads, AfterWakeUp(s, t).threads, p);
  }

  lemma BornBand(s: State, t: Tid, q: int, p: int)
    requires ReadyInv(s) && t !in s.threads
    ensures var s1 := Unblock(Born(s, t, q), t);
      ReadyInv(s1) && Self(s1) == Self(s) && t in s1.threads && Band(s1, p) == Band(s, p) + Of([t], s1.threads, p)
  {
    var b := Born(s, t, q);
    assert t !in s.ready;
    SortedAgain(s.ready, Rank(s.threads), Rank(b.threads));
    SameBand(s, b, p);
    UnblockBand(b, t, p);
    OfAgain([t], b.threads, Unblock(b, t).threads, p);
    BornReady(s, t, q);
  }

  lemma CreateFifo(s: State, t: Tid, q: int, p: int)
    requires ReadyInv(s) && Enabled(s, Create(t, q))
    ensures Fifo(s, Create(t, q), AfterCreate(s, t, q), p)
  {
    BornBand(s, t, q, p);
    BornFifo(s, Unblock(Born(s, t, q), t), t, q, p);
  }

  lemma BornFifo(s: State, s1: State, t: Tid, q: int, p: int)
    requires Enabled(s, Create(t, q)) && ReadyInv(s1) && Self(s1) == Self(s) && t in s1.threads
    requires Band(s1, p) == Band(s, p) + Of([t], s1.threads, p)
    ensures Fifo(s, Create(t, q), if Cur(s).priority < q then Yield(s1) else s1, p)
  {
    if Cur(s).priority < q {
      JoinedThenYield(s, s1, [t], p);
    } else {
      assert [t] + [] == [t];
    }
  }

  lemma GiveFifo(s: State, h: Tid, p: int)
    requires ReadyInv(s) && Enabled(s, Give) && h in s.threads && s.threads[h].status != Ready
    ensures Fifo(s, Give, GiveState(s, h), p)
  {
    SameList(s, Give, GiveState(s, h), p);
  }

  lemma IdleFifo(s: State, p: int)
    requires ReadyInv(s) && Enabled(s, IdleBlocks)
    ensures Fifo(s, IdleBlocks, AfterIdleBlocks(s), p)
  {
    BlockBand(s, p);
  }

  lemma BlockFifo(s: State, a: Action, s': State, p: int)
    requires a.Queue? || a.GoToSleep? || a.IdleBlocks?
    requires Inv(s) && Enabled(s, a) && Apply(s, a) == Done(s')
    ensures Fifo(s, a, s', p)
  {
    hide Core, ReadyInv, Enabled, Fifo, AfterQueue, AfterGoToSleep;
    match a
    case Queue => QueueFifo(s, p);
    case GoToSleep => GoToSleepFifo(s, p);
    case IdleBlocks => IdleFifo(s, p);
  }

  lemma YieldFifo(s: State, a: Action, s': State, p: int)
    requires a.Preempt? || a.WakeUp? || a.SetPriority? || a.Create?
    requires Inv(s) && Enabled(s, a) && Apply(s, a) == Done(s')
    ensures Fifo(s, a, s', p)
  {
    hide Core, ReadyInv, Enabled, Fifo, AfterSetPriority, AfterPreempt, AfterWakeUp, AfterCreate;
    match a
    case SetPriority(q) => SetPriorityFifo(s, q, p);
    case Preempt => PreemptFifo(s, p);
    case WakeUp(t) => WakeUpFifo(s, t, p);
    case Create(t, q) => CreateFifo(s, t, q, p);
  }

  /** Every step but a donation to a ready thread treats the ready threads of each priority as a
      queue. */
  lemma StepFifo(s: State, a: Action, s': State, p: int)
    requires Inv(s) && Enabled(s, a) && Apply(s, a) == Done(s') && Moved(s, a) == None
    ensures Fifo(s, a, s', p)
  {
    if a.Queue? || a.GoToSleep? || a.IdleBlocks? {
      BlockFifo(s, a, s', p);
    } else if a.Preempt? || a.WakeUp? || a.SetPriority? || a.Create? {
      YieldFifo(s, a, s', p);
    } else if a.Up? {
      UpFifo(s, p);
    } else if a.Give? {
      CoreRefs(s);
      GiveFifo(s, s.locks[Cur(s).pc.at].holder.value, p);
    } else {
      if Walks(a) { WalkLeavesList(s, a, s'); } else { RestLeavesList(s, a, s'); }
      SameList(s, a, s', p);
    }
  }

  ghost predicate LeavesList(s: State, s': State) {
    s'.ready == s.ready && forall t :: t in s.ready ==> Rank(s.threads)(t) == Rank(s'.threads)(t)
  }

  lemma RunnerLeavesList(s: State, s': State)
    requires ReadyInv(s) && s'.ready == s.ready && s.current in s'.threads
    requires s'.threads == s.threads[s.current := s'.threads[s.current]]
    ensures LeavesList(s, s')
  {
  }

  lemma WalkLeavesList(s: State, a: Action, s': State)
    requires Inv(s) && Enabled(s, a) && Apply(s, a) == Done(s') && Walks(a) && !a.Give?
    ensures LeavesList(s, s')
  {
    match a
    case Look(l) => RunnerLeavesList(s, LookState(s, l));
    case Note => RunnerLeavesList(s, NoteState(s));
    case Test => RunnerLeavesList(s, TestState(s));
    case Write => RunnerLeavesList(s, WriteState(s));
    case Follow => CoreRefs(s); RunnerLeavesList(s, FollowState(s, s.locks[Cur(s).pc.at].holder.value));
  }

  lemma RestLeavesList(s: State, a: Action, s': State)
    requires Inv(s) && Enabled(s, a) && Apply(s, a) == Done(s') && (a.Pass? || a.Take? || a.Drop? || a.Clear?)
    ensures LeavesList(s, s')
  {
    match a
    case Pass => RunnerLeavesList(s, PassState(s));
    case Take => RunnerLeavesList(s, TakeState(s));
    case Drop(l) => RunnerLeavesList(s, DropState(s, l));
    case Clear => RunnerLeavesList(s, ClearState(s));
  }

  // ---- the order in which threads have joined

  /** The place of the last `t` in the list of those who joined, counted from one; 0 if there is none. */
  ghost function LastJoined(log: seq<Tid>, t: Tid): nat {
    if log == [] then 0 else if log[|log| - 1] == t then |log| else LastJoined(log[..|log| - 1], t)
  }

  /** The threads of `band` have joined, the front one first, each for the last time. */
  ghost predicate InJoinOrder(band: seq<Tid>, log: seq<Tid>) {
    && (forall t :: t in band ==> t in log)
    && (forall i, j :: 0 <= i < j < |band| ==> LastJoined(log, band[i]) < LastJoined(log, band[j]))
  }

  lemma {:induction false} LastJoinedBound(log: seq<Tid>, t: Tid)
    ensures LastJoined(log, t) <= |log|
  {
    if log != [] { LastJoinedBound(log[..|log| - 1], t); }
  }

  lemma JoinedLast(log: seq<Tid>, t: Tid, u: Tid)
    ensures LastJoined(log + [t], u) == if u == t then |log| + 1 else LastJoined(log, u)
  {
    assert (log + [t])[..|log|] == log;
  }

  /** A thread joins at the back, or joins another queue. */
  lemma JoinsOrder(band: seq<Tid>, log: seq<Tid>, t: Tid, here: bool)
    requires InJoinOrder(band, log) && t !in band
    ensures InJoinOrder(if here then band + [t] else band, log + [t])
  {
    var log' := log + [t];
    forall u
      ensures LastJoined(log', u) == (if u == t then |log| + 1 else LastJoined(log, u)) && LastJoined(log, u) <= |log|
    {
      JoinedLast(log, t, u);
      LastJoinedBound(log, u);
    }
    assert forall u :: u in log ==> u in log';
  }

  lemma DistinctFront(x: seq<Tid>)
    requires x != [] && Distinct(x)
    ensures Distinct(x[..|x| - 1]) && x[|x| - 1] !in x[..|x| - 1]
    ensures forall t :: t in x <==> t in x[..|x| - 1] || t == x[|x| - 1]
  {
    assert x == x[..|x| - 1] + [x[|x| - 1]];
  }

  lemma {:induction false} AllJoinOrder(band: seq<Tid>, log: seq<Tid>, x: seq<Tid>, T: map<Tid, Thread>, p: int)
    requires InJoinOrder(band, log) && Distinct(x) && forall t :: t in x ==> t !in band
    ensures InJoinOrder(band + Of(x, T, p), log + x)
  {
    if x == [] {
      assert band + [] == band && log + [] == log;
    } else {
      hide InJoinOrder, Of, Distinct;
      var n := |x| - 1;
      DistinctFront(x);
      AllJoinOrder(band, log, x[..n], T, p);
      OfMembers(x[..n], T, p);
      OneJoinOrder(band, log, x[..n], x[n], T, p);
      assert x == x[..n] + [x[n]];
    }
  }

  lemma OneJoinOrder(band: seq<Tid>, log: seq<Tid>, y: seq<Tid>, t: Tid, T: map<Tid, Thread>, p: int)
    requires InJoinOrder(band + Of(y, T, p), log + y) && t !in band && t !in Of(y, T, p)
    ensures InJoinOrder(band + Of(y + [t], T, p), log + (y + [t]))
  {
    hide InJoinOrder, Of;
    OfConcat(y, [t], T, p);
    OfOne(t, T, p);
    var here := Of([t], T, p) == [t];
    JoinsOrder(band + Of(y, T, p), log + y, t, here);
    assert band + Of(y + [t], T, p) == if here then band + Of(y, T, p) + [t] else band + Of(y, T, p);
    assert log + (y + [t]) == log + y + [t];
  }

  lemma {:induction false} OfMembers(list: seq<Tid>, T: map<Tid, Thread>, p: int)
    ensures forall t :: t in Of(list, T, p) ==> t in list
  {
    if list != [] {
      var n := |list| - 1;
      OfMembers(list[..n], T, p);
      assert list == list[..n] + [list[n]];
      OfConcat(list[..n], [list[n]], T, p);
    }
  }

  lemma BackJoinOrder(v: seq<Tid>, b: seq<Tid>, log: seq<Tid>)
    requires InJoinOrder(v + b, log)
    ensures InJoinOrder(b, log)
  {
    assert forall i :: 0 <= i < |b| ==> (v + b)[|v| + i] == b[i];
    forall t | t in b
      ensures t in log
    {
      assert t in v + b;
    }
  }

  lemma {:induction false} WithoutJoinOrder(band: seq<Tid>, log: seq<Tid>, h: Tid)
    requires InJoinOrder(band, log)
    ensures InJoinOrder(Without(band, h), log)
  {
    if band != [] {
      var rest := band[1..];
      assert band == [band[0]] + rest;
      BackJoinOrder([band[0]], rest, log);
      WithoutJoinOrder(rest, log, h);
      if band[0] != h {
        var w := Without(rest, h);
        forall j | 0 <= j < |w|
          ensures LastJoined(log, band[0]) < LastJoined(log, w[j])
        {
          assert w[j] in w;
          var k :| 0 <= k < |rest| && rest[k] == w[j];
          assert band[k + 1] == w[j];
        }
      }
    }
  }

  lemma OfOne(x: Tid, T: map<Tid, Thread>, p: int)
    ensures Of([x], T, p) == [x] || Of([x], T, p) == []
  {
    assert Ties([x][..0], p, Rank(T), Greater) == [];
    assert [x][|[x]| - 1] == x;
  }

  lemma {:induction false} OfWithout(list: seq<Tid>, T: map<Tid, Thread>, p: int, h: Tid)
    ensures Of(Without(list, h), T, p) == Without(Of(list, T, p), h)
  {
    if list != [] {
      var x, rest := list[0], list[1..];
      assert list == [x] + rest;
      OfConcat([x], rest, T, p);
      OfWithout(rest, T, p, h);
      OfConcat([x], Without(rest, h), T, p);
      OfOne(x, T, p);
      if Of([x], T, p) == [] {
        assert Of(list, T, p) == Of(rest, T, p);
      } else {
        assert Of(list, T, p) == [x] + Of(rest, T, p);
        assert ([x] + Of(rest, T, p))[1..] == Of(rest, T, p);
      }
    }
  }

  // ---- whole runs

  /** Those who join a queue in this step, in order. */
  ghost function Joins(s: State, a: Action): seq<Tid>
    requires Enabled(s, a)
  {
    match Moved(s, a) case Some(h) => [h] case None => Enqueued(s, a)
  }

  /** Those who have joined, in order, from the list at the beginning on. */
  ghost function Log(s: State, actions: seq<Action>): seq<Tid>
    requires Inv(s) && Run(s, actions).Some?
  {
    if actions == [] then s.ready
    else
      var n := |actions| - 1;
      Log(s, actions[..n]) + Joins(Run(s, actions[..n]).value, actions[n])
  }

  /** The thread of priority `p` that gets the processor in the last step of a run. */
  ghost function Winner(s: State, actions: seq<Action>, p: int): seq<Tid>
    requires Inv(s) && Run(s, actions).Some?
  {
    if actions == [] then []
    else
      var n := |actions| - 1;
      Served(Run(s, actions[..n]).value, actions[n], Run(s, actions).value, p)
  }

  lemma FrontAsleep(s: State, l: Lid)
    requires QueueInv(s) && l in s.locks
    ensures forall t :: t in Front(StableSort(s.locks[l].waiters, Rank(s.threads), Greater)) ==> Asleep(s, t, l)
  {
    SortedWaiters(s.locks[l].waiters, s.threads);
  }

  lemma EnqueuedNew(s: State, a: Action)
    requires Inv(s) && Enabled(s, a)
    ensures Distinct(Enqueued(s, a)) && forall t :: t in Enqueued(s, a) ==> t !in s.ready
  {
    hide StableSort, ThreadInv, QueueInv, AllCovered, HolderHolds, OwnerInv;
    if a.Up? {
      var f := Front(StableSort(s.locks[Cur(s).pc.lock].waiters, Rank(s.threads), Greater));
      FrontAsleep(s, Cur(s).pc.lock);
      assert f != [] ==> f[0] in f;
      assert forall t :: t in f + Self(s) <==> t in f || t in Self(s);
    }
  }

  lemma StepJoinOrder(s: State, a: Action, s': State, p: int, log: seq<Tid>)
    requires Inv(s) && Enabled(s, a) && Apply(s, a) == Done(s') && Moved(s, a) == None
    requires InJoinOrder(Band(s, p), log)
    ensures InJoinOrder(Served(s, a, s', p) + Band(s', p), log + Enqueued(s, a))
  {
    hide Inv, Enabled, Apply, Of, InJoinOrder, Enqueued, Served;
    StepFifo(s, a, s', p);
    EnqueuedNew(s, a);
    OfMembers(s.ready, s.threads, p);
    AllJoinOrder(Band(s, p), log, Enqueued(s, a), s'.threads, p);
  }

  lemma NextJoinOrder(s: State, a: Action, s': State, p: int, log: seq<Tid>)
    requires Inv(s) && Enabled(s, a) && Apply(s, a) == Done(s') && InJoinOrder(Band(s, p), log)
    ensures InJoinOrder(Served(s, a, s', p) + Band(s', p), log + Joins(s, a))
  {
    hide Inv, Apply, Of, Band, InJoinOrder, Enqueued;
    match Moved(s, a)
    case None => StepJoinOrder(s, a, s', p, log);
    case Some(h) =>
      MoveJoinOrder(s, h, s', p, log);
      assert [] + Band(s', p) == Band(s', p);
  }

  lemma MoveBand(s: State, h: Tid, p: int)
    requires ReadyInv(s) && Enabled(s, Give) && Moved(s, Give) == Some(h) && h != s.idle
    ensures Band(GiveState(s, h), p) == Without(Band(s, p), h) + Of([h], GiveState(s, h).threads, p)
  {
    hide Of, Without, Updated, ReadyList;
    var d := DonateTo(s, h);
    DonateBand(s, h, p);
    OfWithout(s.ready, s.threads, p, h);
    WalkedBand(d, Following(Cur(s).pc.lock, Cur(s).pc.at), Cur(s).waits, [h], p);
  }

  lemma WalkedBand(d: State, pc: Pc, waits: Option<Lid>, x: seq<Tid>, p: int)
    requires d.current in d.threads
    ensures Band(Walked(d, pc, waits), p) == Band(d, p) && Of(x, Walked(d, pc, waits).threads, p) == Of(x, d.threads, p)
  {
    OfAgain(d.ready, d.threads, Walked(d, pc, waits).threads, p);
    OfAgain(x, d.threads, Walked(d, pc, waits).threads, p);
  }

  lemma MovedGives(s: State, h: Tid, s': State)
    requires Inv(s) && Enabled(s, Give) && Apply(s, Give) == Done(s') && Moved(s, Give) == Some(h)
    ensures h in s.threads && s' == GiveState(s, h) && h != s.idle && ReadyInv(s)
  {
    CoreRefs(s);
  }

  lemma MoveJoinOrder(s: State, h: Tid, s': State, p: int, log: seq<Tid>)
    requires Inv(s) && Enabled(s, Give) && Apply(s, Give) == Done(s') && Moved(s, Give) == Some(h)
    requires InJoinOrder(Band(s, p), log)
    ensures InJoinOrder(Band(s', p), log + [h])
  {
    hide Inv, Apply, ReadyInv, Of, InJoinOrder, Band, GiveState, Without;
    MovedGives(s, h, s');
    MoveBand(s, h, p);
    WithoutJoinOrder(Band(s, p), log, h);
    AllJoinOrder(Without(Band(s, p), h), log, [h], s'.threads, p);
  }

  lemma StartJoinOrder(s: State, p: int)
    requires Inv(s)
    ensures InJoinOrder([] + Band(s, p), s.ready)
  {
    assert InJoinOrder([], []);
    hide Core, Of, InJoinOrder;
    AllJoinOrder([], [], s.ready, s.threads, p);
    assert [] + s.ready == s.ready;
  }

  /** First in, first out over every run: the ready threads of each priority stand in the order in
      which they last joined, by becoming ready or by a donation that moved them, and whoever gets
      the processor has joined before all its equals that are still ready. */
  lemma {:induction false} RunFifo(s: State, actions: seq<Action>, p: int)
    requires Inv(s) && Run(s, actions).Some?
    ensures InJoinOrder(Winner(s, actions, p) + Band(Run(s, actions).value, p), Log(s, actions))
  {
    hide Inv, Enabled, Apply, Band, InJoinOrder, Joins, Served;
    if actions == [] {
      StartJoinOrder(s, p);
    } else {
      var n := |actions| - 1;
      var a, m, r, log := actions[n], Run(s, actions[..n]).value, Run(s, actions).value, Log(s, actions[..n]);
      RunFifo(s, actions[..n], p);
      BackJoinOrder(Winner(s, actions[..n], p), Band(m, p), log);
      NextJoinOrder(m, a, r, p, log);
    }
  }

  // ---- the highest priority runs

  /** No ready thread outranks the running one, and the idle thread runs only when none is ready. */
  ghost predicate TopRuns(s: State) {
    && (forall t :: t in s.ready ==> Rank(s.threads)(t) <= Rank(s.threads)(s.current))
    && (s.current == s.idle ==> s.ready == [])
  }

  lemma ScheduleTop(s: State)
    requires s.idle in s.threads && ReadyList(s.threads, s.ready, s.idle)
    ensures s.ready != [] ==> s.ready[0] in s.threads
    ensures TopRuns(Schedule(s))
  {
    if s.ready != [] { DispatchKeepsList(s.threads, s.ready, s.idle); assert s.ready[0] in s.ready; }
  }

  lemma YieldTop(s: State)
    requires ReadyInv(s)
    ensures TopRuns(Yield(s))
  {
    YieldingList(s);
    ScheduleTop(Yielding(s));
    assert Yield(s) == Schedule(Yielding(s));
  }

  lemma BlockTop(s: State)
    requires ReadyInv(s)
    ensures s.ready != [] ==> s.ready[0] in s.threads
    ensures TopRuns(Block(s))
  {
    StatusKeepsList(s.threads, s.ready, s.idle, s.current, Blocked);
    ScheduleTop(Stopped(s));
  }

  lemma QueueTop(s: State)
    requires ReadyInv(s) && Enabled(s, Queue)
    ensures TopRuns(AfterQueue(s))
  {
    ReadyFrame(s, QueueState(s));
    BlockTop(QueueState(s));
  }

  lemma GoToSleepTop(s: State)
    requires ReadyInv(s) && Enabled(s, GoToSleep)
    ensures TopRuns(AfterGoToSleep(s))
  {
    ReadyFrame(s, Drowsy(s));
    BlockTop(Drowsy(s));
  }

  lemma UpTop(s: State)
    requires Inv(s) && Enabled(s, Up)
    ensures TopRuns(AfterUp(s))
  {
    UpKeeps(s);
    YieldTop(UpState(s));
  }

  lemma SetPriorityTop(s: State, p: int)
    requires ReadyInv(s) && Enabled(s, SetPriority(p)) && Dispatches(s, SetPriority(p))
    ensures TopRuns(AfterSetPriority(s, p))
  {
    SetPriorityReady(s, p);
    YieldTop(WithPriority(s, p));
  }

  lemma CreateTop(s: State, t: Tid, p: int)
    requires ReadyInv(s) && Enabled(s, Create(t, p)) && Dispatches(s, Create(t, p))
    ensures TopRuns(AfterCreate(s, t, p))
  {
    BornReady(s, t, p);
    YieldTop(Unblock(Born(s, t, p), t));
  }

  lemma StepTop(s: State, a: Action, s': State)
    requires Inv(s) && Enabled(s, a) && Apply(s, a) == Done(s') && Dispatches(s, a)
    ensures TopRuns(s')
  {
    hide Core, ReadyInv, TopRuns, Enabled, AfterQueue, AfterGoToSleep, AfterUp, AfterSetPriority, AfterCreate;
    match a
    case Queue => QueueTop(s);
    case GoToSleep => GoToSleepTop(s);
    case IdleBlocks => BlockTop(s);
    case Preempt => YieldTop(s);
    case Up => UpTop(s);
    case SetPriority(p) => SetPriorityTop(s, p);
    case Create(t, p) => CreateTop(s, t, p);
  }

  /** Whenever a run has just rescheduled, the processor is with a thread that no ready thread
      outranks, or idle for want of a ready thread. */
  lemma RunTop(s: State, actions: seq<Action>)
    requires Inv(s) && Run(s, actions).Some? && actions != []
    requires Dispatches(Run(s, actions[..|actions| - 1]).value, actions[|actions| - 1])
    ensures TopRuns(Run(s, actions).value)
  {
    StepTop(Run(s, actions[..|actions| - 1]).value, actions[|actions| - 1], Run(s, actions).value);
  }
}
