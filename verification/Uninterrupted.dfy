/** The donation loop of `lock_acquire` when nothing preempts it any more: its steps, one after the
    other, do what `Donation.Donate` does in one go, from wherever the thread is in its turn. */
module Uninterrupted {
  import opened Wrappers
  import opened Order
  import opened Kernel
  import opened Donation
  import opened Locks
  import opened LockRuns

  /** What a thread in its loop does next. */
  function Next(pc: Pc): Action
    requires InLoop(pc)
  {
    match pc
    case Testing(_, _) => Test
    case Writing(_, _) => Write
    case Giving(_, _) => Give
    case Following(_, _) => Follow
  }

  lemma NextEnabled(s: State)
    requires Inv(s) && InLoop(Cur(s).pc)
    ensures Enabled(s, Next(Cur(s).pc))
  {
    assert ThreadOk(Cur(s), s.locks, s.current == s.idle);
  }

  /** One enabled step. */
  ghost function After(s: State, a: Action): (r: Outcome)
    requires Inv(s) && Enabled(s, a)
    ensures r == Apply(s, a) && (r.Done? ==> Inv(r.state))
  {
    match Apply(s, a)
    case Fault => Fault
    case Done(s') => StepKeeps(s, a, s'); Done(s')
  }

  /** The running thread takes up to `n` steps of its loop. */
  ghost function Continue(s: State, n: nat): Outcome
    requires Inv(s)
    decreases n
  {
    if n == 0 || !InLoop(Cur(s).pc) then Done(s)
    else
      NextEnabled(s);
      var r := After(s, Next(Cur(s).pc));
      if r.Fault? then Fault else Continue(r.state, n - 1)
  }

  // ---- the program counter of the donor does not matter to the donation

  function WithPc(s: State, t: Tid, pc: Pc): State
    requires t in s.threads
  {
    s.(threads := s.threads[t := s.threads[t].(pc := pc)])
  }

  function EndWith(o: Outcome, t: Tid, pc: Pc): Outcome {
    if o.Done? && t in o.state.threads then Done(WithPc(o.state, t, pc)) else o
  }

  lemma UpdatedPc(th: Thread, L: map<Lid, Lock>, pc: Pc)
    ensures Updated(th.(pc := pc), L) == Updated(th, L).(pc := pc)
  {
  }

  lemma GivePcThreads(s: State, t: Tid, h: Tid, pc: Pc)
    requires t in s.threads && h in s.threads
    ensures DonateTo(WithPc(s, t, pc), h).threads == WithPc(DonateTo(s, h), t, pc).threads
  {
    hide Updated, Without, InsertOrdered;
    UpdatedPc(s.threads[h], s.locks, pc);
  }

  lemma GivePc(s: State, t: Tid, h: Tid, pc: Pc)
    requires t in s.threads && h in s.threads
    ensures DonateTo(WithPc(s, t, pc), h) == WithPc(DonateTo(s, h), t, pc)
  {
    hide Updated, Without, InsertPos;
    var a := DonateTo(WithPc(s, t, pc), h);
    GivePcThreads(s, t, h, pc);
    InsertSamePos(Without(s.ready, h), h, Rank(a.threads), Rank(DonateTo(s, h).threads), Greater);
  }

  lemma LiftPc(s: State, t: Tid, l: Lid, p: int, pc: Pc)
    requires t in s.threads && l in s.locks
    ensures Lifted(WithPc(s, t, pc), l, p) == WithPc(Lifted(s, l, p), t, pc)
  {
  }

  lemma RaisePc(s: State, t: Tid, l: Lid, pc: Pc)
    requires t in s.threads && l in s.locks && s.locks[l].holder.Some? && s.locks[l].holder.value in s.threads
    ensures Raise(WithPc(s, t, pc), t, l) == WithPc(Raise(s, t, l), t, pc)
  {
    GivePc(Lifted(s, l, s.threads[t].priority), t, s.locks[l].holder.value, pc);
  }

  lemma PcHolders(s: State, t: Tid, pc: Pc)
    requires HolderHolds(s) && t in s.threads && !s.threads[t].pc.Dropping? && !pc.Dropping?
    ensures HolderHolds(WithPc(s, t, pc))
  {
    assert forall u, l :: Holds(s, u, l) <==> Holds(WithPc(s, t, pc), u, l);
  }

  lemma PcReady(s: State, t: Tid, pc: Pc)
    requires ReadyInv(s) && t in s.threads
    ensures ReadyInv(WithPc(s, t, pc))
  {
    SortedAgain(s.ready, Rank(s.threads), Rank(WithPc(s, t, pc).threads));
  }

  lemma PcDonating(s: State, t: Tid, pc: Pc)
    requires Donating(s, t) && !pc.Dropping?
    ensures Donating(WithPc(s, t, pc), t)
  {
    PcHolders(s, t, pc);
    PcReady(s, t, pc);
  }

  lemma {:induction false} DonatePc(s: State, t: Tid, next: Option<Lid>, pc: Pc)
    requires Donating(s, t) && Donating(WithPc(s, t, pc), t) && !pc.Dropping?
    requires next.Some? ==> next.value in s.locks
    ensures Donate(WithPc(s, t, pc), t, next) == EndWith(Donate(s, t, next), t, pc)
    decreases Unsettled(s, t), Below(s, t)
  {
    if next.Some? && s.threads[t].priority > s.locks[next.value].maxPriority && s.locks[next.value].holder.Some? {
      var l := next.value;
      var h, s', z := s.locks[l].holder.value, Raise(s, t, l), WithPc(s, t, pc);
      RaiseTurn(s, t, l);
      DonateUnfold(s, t, l, h, s');
      RaisePc(s, t, l, pc);
      PcDonating(s', t, pc);
      DonateUnfold(z, t, l, h, WithPc(s', t, pc));
      DonatePc(s', t, s'.threads[h].waits, pc);
    }
  }

  // ---- what is left of the loop, as a whole

  /** What the loop needs, for a thread that is at lock `at`. */
  ghost predicate DonatingAt(s: State, t: Tid, at: Lid) { Donating(s, t) && at in s.locks }

  /** Go on to the lock that the holder of lock `at` waits for. */
  function FollowOn(s: State, t: Tid, at: Lid): Outcome
    requires Refs(s) && t in s.threads && at in s.locks
  {
    match s.locks[at].holder
    case None => Fault
    case Some(h) => Donate(s, t, s.threads[h].waits)
  }

  /** Donate to the holder of lock `at` and go on. */
  function GiveOn(s: State, t: Tid, at: Lid): Outcome
    requires Refs(s) && t in s.threads && at in s.locks
  {
    match s.locks[at].holder
    case None => Fault
    case Some(h) => GiveRefs(s, h); FollowOn(DonateTo(s, h), t, at)
  }

  lemma GiveRefs(s: State, h: Tid)
    requires Refs(s) && h in s.threads
    ensures Refs(DonateTo(s, h)) && DonateTo(s, h).threads.Keys == s.threads.Keys && DonateTo(s, h).locks == s.locks
  {
    hide DonateTo;
    GiveGives(s, h);
    GivenRefs(s, h, DonateTo(s, h));
  }

  lemma GivenRefs(s: State, h: Tid, s': State)
    requires Refs(s) && Given(s, h, s')
    ensures Refs(s') && s'.threads.Keys == s.threads.Keys && s'.locks == s.locks
  {
    hide IsEffective;
  }

  /** The running thread is in its loop, and the state is as the loop needs it. */
  ghost predicate InTurn(s: State) {
    s.current in s.threads && InLoop(Cur(s).pc) && DonatingAt(s, s.current, Cur(s).pc.at)
  }

  /** What the running thread has yet to do in its loop, from where it is in its turn. */
  function Rest(s: State): Outcome
    requires InTurn(s)
  {
    match Cur(s).pc
    case Testing(_, at) => Donate(s, s.current, Some(at))
    case Writing(_, at) => GiveOn(Lifted(s, at, Cur(s).priority), s.current, at)
    case Giving(_, at) => GiveOn(s, s.current, at)
    case Following(_, at) => FollowOn(s, s.current, at)
  }

  lemma GiveDonates(s: State, t: Tid, h: Tid)
    requires Donating(s, t) && h in s.threads && h != s.idle
    ensures Donating(DonateTo(s, h), t)
  {
    GiveRefs(s, h);
    GiveKeepsReady(s, h);
    GiveGives(s, h);
    GivenHolders(s, h, DonateTo(s, h));
  }

  lemma GivenHolders(s: State, h: Tid, s': State)
    requires HolderHolds(s) && Given(s, h, s')
    ensures HolderHolds(s')
  {
    assert forall t: Tid, l: Lid :: Holds(s, t, l) <==> Holds(s', t, l);
  }

  lemma LiftDonates(s: State, t: Tid, l: Lid, p: int)
    requires DonatingAt(s, t, l)
    ensures DonatingAt(Lifted(s, l, p), t, l)
  {
    hide HolderHolds, ReadyList;
    LiftHolders(s, l, p);
  }

  lemma LiftHolders(s: State, l: Lid, p: int)
    requires HolderHolds(s) && l in s.locks
    ensures HolderHolds(Lifted(s, l, p))
  {
    assert forall u, k :: Holds(s, u, k) <==> Holds(Lifted(s, l, p), u, k);
  }

  lemma FollowOnPc(s: State, t: Tid, at: Lid, pc: Pc)
    requires DonatingAt(s, t, at) && !pc.Dropping?
    ensures DonatingAt(WithPc(s, t, pc), t, at)
    ensures FollowOn(WithPc(s, t, pc), t, at) == EndWith(FollowOn(s, t, at), t, pc)
  {
    hide Donate, HolderHolds, ReadyInv;
    PcDonating(s, t, pc);
    if s.locks[at].holder.Some? {
      DonatePc(s, t, s.threads[s.locks[at].holder.value].waits, pc);
    }
  }

  lemma GiveOnPc(s: State, t: Tid, at: Lid, pc: Pc)
    requires DonatingAt(s, t, at) && !pc.Dropping?
    ensures DonatingAt(WithPc(s, t, pc), t, at)
    ensures GiveOn(WithPc(s, t, pc), t, at) == EndWith(GiveOn(s, t, at), t, pc)
  {
    hide FollowOn, HolderHolds, ReadyInv, DonateTo;
    PcDonating(s, t, pc);
    if s.locks[at].holder.Some? {
      var h := s.locks[at].holder.value;
      GiveRefs(s, h);
      GivePc(s, t, h, pc);
      GiveDonates(s, t, h);
      FollowOnPc(DonateTo(s, h), t, at, pc);
    }
  }

  lemma EndTwice(o: Outcome, t: Tid, pc: Pc, pc': Pc)
    ensures EndWith(EndWith(o, t, pc), t, pc') == EndWith(o, t, pc')
  {
  }

  // ---- how far it is to the end

  /** The locks that the running thread can still raise, without one that it is about to. */
  ghost function Ahead(s: State): set<Lid>
    requires s.current in s.threads
  {
    if Cur(s).pc.Writing? then Below(s, s.current) - {Cur(s).pc.at} else Below(s, s.current)
  }

  function Left(pc: Pc): nat {
    if pc.Writing? then 3 else if pc.Giving? then 2 else if pc.Following? then 1 else 0
  }

  /** A step has brought the end nearer. */
  ghost predicate Closer(s: State, s': State)
    requires s.current in s.threads && s'.current in s'.threads
  {
    || Unsettled(s', s'.current) < Unsettled(s, s.current)
    || (Unsettled(s', s'.current) == Unsettled(s, s.current) &&
        (Ahead(s') < Ahead(s) || (Ahead(s') == Ahead(s) && Left(Cur(s').pc) < Left(Cur(s).pc))))
  }

  /** One step of the loop: what is left after it is what was left before, and the end is nearer. */
  ghost predicate Simulates(s: State, s': State)
    requires InTurn(s)
  {
    && s'.current == s.current && s'.current in s'.threads
    && if InLoop(Cur(s').pc) then
         && InTurn(s') && Cur(s').pc.lock == Cur(s).pc.lock && Closer(s, s')
         && EndWith(Rest(s'), s.current, Wanting(Cur(s).pc.lock)) == EndWith(Rest(s), s.current, Wanting(Cur(s).pc.lock))
       else Done(s') == EndWith(Rest(s), s.current, Wanting(Cur(s).pc.lock))
  }

  lemma TestSimulates(s: State)
    requires Enabled(s, Test) && InTurn(s)
    ensures Simulates(s, TestState(s))
  {
    hide HolderHolds, ReadyInv, GiveOn;
    if Cur(s).priority > s.locks[Cur(s).pc.at].maxPriority {
      TestPasses(s);
    } else {
      assert TestState(s) == WithPc(s, s.current, Wanting(Cur(s).pc.lock));
    }
  }

  lemma TestPasses(s: State)
    requires Enabled(s, Test) && InTurn(s) && Cur(s).priority > s.locks[Cur(s).pc.at].maxPriority
    ensures Simulates(s, TestState(s))
  {
    hide HolderHolds, ReadyInv, GiveOn, Refs, Donate;
    var t, l, at, p := s.current, Cur(s).pc.lock, Cur(s).pc.at, Cur(s).priority;
    var pc, d := Writing(l, at), Lifted(s, at, p);
    assert TestState(s) == WithPc(s, t, pc);
    LiftDonates(s, t, at, p);
    DonateIsGive(s, t, at);
    PcDonating(s, t, pc);
    LiftPc(s, t, at, p, pc);
    GiveOnPc(d, t, at, pc);
    EndTwice(GiveOn(d, t, at), t, pc, Wanting(l));
    TestCloser(s);
  }

  lemma DonateIsGive(s: State, t: Tid, at: Lid)
    requires DonatingAt(s, t, at) && s.threads[t].priority > s.locks[at].maxPriority
    ensures Donate(s, t, Some(at)) == GiveOn(Lifted(s, at, s.threads[t].priority), t, at)
  {
  }

  lemma TestCloser(s: State)
    requires Enabled(s, Test) && Cur(s).priority > s.locks[Cur(s).pc.at].maxPriority
    ensures Closer(s, TestState(s))
  {
    var s' := TestState(s);
    assert Cur(s).pc.at in Ahead(s) && Ahead(s') == Ahead(s) - {Cur(s).pc.at};
  }

  lemma WriteSimulates(s: State)
    requires Enabled(s, Write) && InTurn(s)
    ensures Simulates(s, WriteState(s))
  {
    hide HolderHolds, ReadyInv, GiveOn;
    var t, l, at := s.current, Cur(s).pc.lock, Cur(s).pc.at;
    var pc, d := Giving(l, at), Lifted(s, at, Cur(s).priority);
    assert WriteState(s) == WithPc(d, t, pc);
    LiftDonates(s, t, at, Cur(s).priority);
    GiveOnPc(d, t, at, pc);
    EndTwice(GiveOn(d, t, at), t, pc, Wanting(l));
    WriteCloser(s);
  }

  lemma WriteCloser(s: State)
    requires Enabled(s, Write)
    ensures Closer(s, WriteState(s))
  {
    var s' := WriteState(s);
    assert Ahead(s') == Ahead(s);
    assert Covers(s, s.current) ==> Covers(s', s.current);
  }

  lemma GiveSimulates(s: State, h: Tid)
    requires Enabled(s, Give) && InTurn(s) && s.locks[Cur(s).pc.at].holder == Some(h)
    ensures Simulates(s, GiveState(s, h))
  {
    hide HolderHolds, ReadyInv, GiveState, Simulates, FollowOn, DonateTo;
    GiveDonates(s, s.current, h);
    GiveGoesOn(s, h);
  }

  lemma GiveGoesOn(s: State, h: Tid)
    requires Enabled(s, Give) && InTurn(s) && s.locks[Cur(s).pc.at].holder == Some(h) && h in s.threads
    requires Donating(DonateTo(s, h), s.current)
    ensures Simulates(s, GiveState(s, h))
  {
    hide InTurn, Donating, DonateTo, Closer, GiveState, Simulates, Rest, FollowOn;
    GiveLeaves(s, h);
    GiveWalked(s, h);
    GiveFar(s, h);
    GoesOn(s, DonateTo(s, h), GiveState(s, h), Cur(s).pc.lock, Cur(s).pc.at);
  }

  lemma GiveFar(s: State, h: Tid)
    requires Enabled(s, Give) && InTurn(s) && h in s.threads
    ensures GiveState(s, h).current in GiveState(s, h).threads && Closer(s, GiveState(s, h))
  {
    hide HolderHolds, ReadyInv, GiveState, Closer, Refs;
    GiveCloser(s, h);
  }

  lemma TurnRefs(s: State)
    requires InTurn(s)
    ensures Refs(s) && Cur(s).pc.at in s.locks && Donating(s, s.current)
  {
    hide Refs, HolderHolds, ReadyInv;
  }

  lemma RestGiving(s: State)
    requires InTurn(s) && Refs(s) && Cur(s).pc.Giving? && Cur(s).pc.at in s.locks
    ensures Rest(s) == GiveOn(s, s.current, Cur(s).pc.at)
  {
    hide InTurn, Refs, GiveOn;
  }

  lemma GiveOnIs(s: State, t: Tid, at: Lid, h: Tid)
    requires Refs(s) && t in s.threads && at in s.locks && s.locks[at].holder == Some(h) && h in s.threads
    requires Refs(DonateTo(s, h)) && t in DonateTo(s, h).threads && at in DonateTo(s, h).locks
    ensures GiveOn(s, t, at) == FollowOn(DonateTo(s, h), t, at)
  {
    hide Refs, DonateTo, FollowOn;
  }

  lemma GiveLeaves(s: State, h: Tid)
    requires Enabled(s, Give) && InTurn(s) && s.locks[Cur(s).pc.at].holder == Some(h) && h in s.threads
    ensures Refs(DonateTo(s, h)) && s.current in DonateTo(s, h).threads && DonateTo(s, h).locks == s.locks
    ensures Rest(s) == FollowOn(DonateTo(s, h), s.current, Cur(s).pc.at)
  {
    hide InTurn, Refs, DonateTo, FollowOn, GiveOn, Rest;
    TurnRefs(s);
    GiveRefs(s, h);
    RestGiving(s);
    GiveOnIs(s, s.current, Cur(s).pc.at, h);
  }

  lemma GoesOn(s: State, d: State, s': State, l: Lid, at: Lid)
    requires InTurn(s) && Cur(s).pc == Giving(l, at) && Donating(d, s.current) && d.current == s.current && at in d.locks
    requires s' == WithPc(d, s.current, Following(l, at)) && Rest(s) == FollowOn(d, s.current, at)
    requires s'.current in s'.threads && Closer(s, s')
    ensures Simulates(s, s')
  {
    var t, pc := s.current, Following(l, at);
    FollowOnPc(d, t, at, pc);
    EndTwice(FollowOn(d, t, at), t, pc, Wanting(l));
    hide HolderHolds, ReadyInv, FollowOn, Closer, Refs;
    assert Rest(s') == FollowOn(s', t, at);
  }

  lemma GiveWalked(s: State, h: Tid)
    requires Enabled(s, Give) && h in s.threads
    ensures DonateTo(s, h).current == s.current && s.current in DonateTo(s, h).threads
    ensures GiveState(s, h) == WithPc(DonateTo(s, h), s.current, Following(Cur(s).pc.lock, Cur(s).pc.at))
  {
    hide Updated;
    GiveGives(s, h);
  }

  lemma GiveCloser(s: State, h: Tid)
    requires Enabled(s, Give) && Refs(s) && h in s.threads
    ensures GiveState(s, h).current in GiveState(s, h).threads && Closer(s, GiveState(s, h))
  {
    hide DonateTo, Covers;
    GiveWalked(s, h);
    GiveGives(s, h);
    GivenCloser(s, h, DonateTo(s, h), GiveState(s, h));
  }

  lemma GivenCloser(s: State, h: Tid, d: State, s': State)
    requires Refs(s) && Given(s, h, d) && Cur(s).pc.Giving?
    requires d.current == s.current && s.current in d.threads && s' == WithPc(d, s.current, Following(Cur(s).pc.lock, Cur(s).pc.at))
    ensures Closer(s, s')
  {
    hide IsEffective;
    var t := s.current;
    if h == t { GivenSelf(s, t, d); } else { assert Covers(d, t) == Covers(s, t); }
    assert Covers(s', t) == Covers(d, t);
    assert Covers(s', t) == Covers(s, t) ==> Ahead(s') <= Ahead(s);
  }

  /** A donor that donates to itself is covered; if it was before, it does not rise. */
  lemma GivenSelf(s: State, t: Tid, s': State)
    requires Refs(s) && Given(s, t, s')
    ensures Covers(s', t) && (Covers(s, t) ==> s'.threads[t].priority <= s.threads[t].priority)
  {
    assert forall k :: k in s.threads[t].held ==> LockRank(s'.locks)(k) == s'.locks[k].maxPriority;
  }

  lemma FollowSimulates(s: State, h: Tid)
    requires Enabled(s, Follow) && InTurn(s) && s.locks[Cur(s).pc.at].holder == Some(h)
    ensures Simulates(s, FollowState(s, h))
  {
    hide HolderHolds, ReadyInv, Donate, Simulates;
    if s.threads[h].waits.Some? { FollowsOn(s, h, s.threads[h].waits.value); } else { FollowEnds(s, h); }
  }

  lemma FollowsOn(s: State, h: Tid, next: Lid)
    requires Enabled(s, Follow) && InTurn(s) && s.locks[Cur(s).pc.at].holder == Some(h)
    requires h in s.threads && s.threads[h].waits == Some(next) && next in s.locks
    ensures Simulates(s, FollowState(s, h))
  {
    hide Refs, HolderHolds, ReadyInv, Donate, Closer;
    var t, l, pc := s.current, Cur(s).pc.lock, Testing(Cur(s).pc.lock, next);
    assert FollowState(s, h) == WithPc(s, t, pc);
    PcDonating(s, t, pc);
    DonatePc(s, t, Some(next), pc);
    EndTwice(Donate(s, t, Some(next)), t, pc, Wanting(l));
    FollowCloser(s, h);
  }

  lemma RestFollowing(s: State, h: Tid)
    requires InTurn(s) && Refs(s) && Cur(s).pc.Following? && Cur(s).pc.at in s.locks
    requires s.locks[Cur(s).pc.at].holder == Some(h) && h in s.threads && s.threads[h].waits == None
    ensures Rest(s) == Donate(s, s.current, None)
  {
    hide InTurn, Refs, Donate;
  }

  lemma FollowEnds(s: State, h: Tid)
    requires Enabled(s, Follow) && InTurn(s) && s.locks[Cur(s).pc.at].holder == Some(h)
    requires h in s.threads && s.threads[h].waits == None
    ensures Simulates(s, FollowState(s, h))
  {
    hide InTurn, Refs, Donating, Donate, Rest;
    TurnRefs(s);
    RestFollowing(s, h);
    assert FollowState(s, h) == WithPc(s, s.current, Wanting(Cur(s).pc.lock));
    DonateNowhere(s, s.current);
  }

  lemma DonateNowhere(s: State, t: Tid)
    requires Donating(s, t)
    ensures Donate(s, t, None) == Done(s)
  {
  }

  lemma FollowCloser(s: State, h: Tid)
    requires Enabled(s, Follow) && h in s.threads && s.threads[h].waits.Some?
    ensures Closer(s, FollowState(s, h))
  {
    assert Ahead(FollowState(s, h)) == Ahead(s);
  }

  /** Every step of the loop does its part of the whole. */
  lemma StepSimulates(s: State)
    requires Inv(s) && InTurn(s) && Enabled(s, Next(Cur(s).pc))
    ensures match Apply(s, Next(Cur(s).pc))
      case Fault => Rest(s) == Fault
      case Done(s') => Simulates(s, s')
  {
    hide HolderHolds, ReadyInv, ThreadInv, OwnerInv, QueueInv, AllCovered, Simulates, Donate, DonateTo;
    match Cur(s).pc
    case Testing(_, _) => TestSimulates(s);
    case Writing(_, _) => WriteSimulates(s);
    case Giving(_, at) => if s.locks[at].holder.Some? { GiveSimulates(s, s.locks[at].holder.value); }
    case Following(_, at) => if s.locks[at].holder.Some? { FollowSimulates(s, s.locks[at].holder.value); }
  }

  // ---- the loop step by step

  lemma ContinueStep(s: State, n: nat, s': State)
    requires Inv(s) && InLoop(Cur(s).pc) && Enabled(s, Next(Cur(s).pc)) && Apply(s, Next(Cur(s).pc)) == Done(s')
    ensures Inv(s') && Continue(s, n + 1) == Continue(s', n)
  {
    StepKeeps(s, Next(Cur(s).pc), s');
  }

  /** The loop is over. */
  predicate Settled(o: Outcome) {
    o.Fault? || (o.state.current in o.state.threads && !InLoop(Cur(o.state).pc))
  }

  /** The loop of the running thread, left alone, has outcome `o`. */
  ghost predicate Ends(s: State, o: Outcome)
    requires Inv(s)
  {
    Settled(o) && exists n: nat :: Continue(s, n) == o
  }

  lemma InvCurrent(s: State)
    requires Inv(s)
    ensures s.current in s.threads
  {
  }

  lemma {:induction false} ContinueSettles(s: State, n: nat, m: nat)
    requires Inv(s) && n <= m && Settled(Continue(s, n))
    ensures Continue(s, m) == Continue(s, n)
    decreases n
  {
    hide Inv, Enabled, Apply;
    InvCurrent(s);
    if n > 0 && InLoop(Cur(s).pc) {
      NextEnabled(s);
      var r := After(s, Next(Cur(s).pc));
      if r.Done? { ContinueSettles(r.state, n - 1, m - 1); }
    }
  }

  /** It has one outcome only. */
  lemma EndsOnce(s: State, o: Outcome, o': Outcome)
    requires Inv(s) && Ends(s, o) && Ends(s, o')
    ensures o == o'
  {
    var n: nat :| Continue(s, n) == o;
    var m: nat :| Continue(s, m) == o';
    if n <= m { ContinueSettles(s, n, m); } else { ContinueSettles(s, m, n); }
  }

  lemma EndsNow(s: State)
    requires Inv(s) && !InLoop(Cur(s).pc)
    ensures Ends(s, Done(s))
  {
    assert Continue(s, 0) == Done(s);
  }

  lemma EndsFaulting(s: State)
    requires Inv(s) && InLoop(Cur(s).pc) && Enabled(s, Next(Cur(s).pc)) && Apply(s, Next(Cur(s).pc)) == Fault
    ensures Ends(s, Fault)
  {
    assert Continue(s, 1) == Fault;
  }

  lemma EndsLater(s: State, s': State, o: Outcome)
    requires Inv(s) && InLoop(Cur(s).pc) && Enabled(s, Next(Cur(s).pc)) && Apply(s, Next(Cur(s).pc)) == Done(s')
    requires Inv(s') && Ends(s', o)
    ensures Ends(s, o)
  {
    var n: nat :| Continue(s', n) == o;
    ContinueStep(s, n, s');
  }

  /** In every run a thread in its loop meets what `Donate` asks for. */
  lemma InvDonates(s: State)
    requires Inv(s) && InLoop(Cur(s).pc)
    ensures InTurn(s)
  {
    CoreRefs(s);
    assert ThreadOk(Cur(s), s.locks, s.current == s.idle);
  }

  /** A thread that is not preempted any more comes to the end of its loop, or to the fault, in the
      state that the rest of the loop as a whole gives, wherever it is in its turn, and wherever
      other threads are in theirs. */
  lemma {:induction false} LoopAlone(s: State)
    requires Inv(s) && InLoop(Cur(s).pc)
    ensures InTurn(s) && Ends(s, EndWith(Rest(s), s.current, Wanting(Cur(s).pc.lock)))
    decreases Unsettled(s, s.current), Ahead(s), Left(Cur(s).pc)
  {
    hide Inv, Apply, Enabled, Rest, EndWith, Ends, InTurn, Settled;
    InvCurrent(s);
    InvDonates(s);
    NextEnabled(s);
    StepSimulates(s);
    var r := After(s, Next(Cur(s).pc));
    match r
    case Fault => EndsFaulting(s); FaultEnds(s);
    case Done(s') =>
      if InLoop(Cur(s').pc) { LoopAlone(s'); } else { EndsNow(s'); }
      EndsLater(s, s', EndWith(Rest(s), s.current, Wanting(Cur(s).pc.lock)));
  }

  lemma FaultEnds(s: State)
    requires InTurn(s) && Rest(s) == Fault
    ensures EndWith(Rest(s), s.current, Wanting(Cur(s).pc.lock)) == Fault
  {
  }

  // ---- when it faults

  /** Lock `at` has no holder, or the chain from there on comes to one without, for a donor `t` that
      goes on with priority `p`. */
  ghost predicate FreeBeyond(s: State, t: Tid, at: Lid, p: int)
    requires t in s.threads && at in s.locks
  {
    match s.locks[at].holder
    case None => true
    case Some(h) => h in s.threads && ComesFree(s, t, p, s.threads[h].waits)
  }

  /** The priority that the running thread has after it has donated to the holder of lock `at`, whose
      priority is `p`: its own, unless it is the holder itself. */
  function GoesOnAt(s: State, at: Lid, p: int): int
    requires s.current in s.threads && at in s.locks
  {
    if s.locks[at].holder == Some(s.current) then Updated(Cur(s), Lifted(s, at, p).locks).priority else Cur(s).priority
  }

  /** The chain, as it stands, leads from where the running thread is in its turn through locks below
      its priority to one without holder.  Past the test, the lock it is at does not need to be below. */
  ghost predicate MeetsFree(s: State)
    requires InTurn(s)
  {
    match Cur(s).pc
    case Testing(_, at) => ComesFree(s, s.current, Cur(s).priority, Some(at))
    case Writing(_, at) => FreeBeyond(s, s.current, at, GoesOnAt(s, at, Cur(s).priority))
    case Giving(_, at) => FreeBeyond(s, s.current, at, GoesOnAt(s, at, s.locks[at].maxPriority))
    case Following(_, at) => FreeBeyond(s, s.current, at, Cur(s).priority)
  }

  lemma LiftSame(s: State, l: Lid)
    requires l in s.locks
    ensures Lifted(s, l, s.locks[l].maxPriority) == s
  {
  }

  lemma GiftGoesOn(s: State, at: Lid, p: int, h: Tid)
    requires s.current in s.threads && at in s.locks && s.locks[at].holder == Some(h) && h in s.threads
    ensures var d := DonateTo(Lifted(s, at, p), h);
      s.current in d.threads && d.threads[s.current].priority == GoesOnAt(s, at, p) && h in d.threads && d.threads[h].waits == s.threads[h].waits
  {
    hide Updated;
    GiveGives(Lifted(s, at, p), h);
  }

  /** Storing any priority, donating and going on faults exactly when the chain before it says so. */
  lemma GiveOnFaults(s: State, at: Lid, p: int)
    requires DonatingAt(s, s.current, at)
    ensures DonatingAt(Lifted(s, at, p), s.current, at)
    ensures GiveOn(Lifted(s, at, p), s.current, at).Fault? <==> FreeBeyond(s, s.current, at, GoesOnAt(s, at, p))
  {
    hide Donate, DonateTo, ComesFree, GoesOnAt, SameChain;
    LiftDonates(s, s.current, at, p);
    if s.locks[at].holder.Some? {
      var h := s.locks[at].holder.value;
      var z, d := Lifted(s, at, p), DonateTo(Lifted(s, at, p), h);
      GiveRefs(z, h);
      GiveDonates(z, s.current, h);
      GiveGives(z, h);
      GiftGoesOn(s, at, p, h);
      GivenChain(s, s.current, at, p, h, d);
      ComesFreePast(s, d, at, h, s.current, GoesOnAt(s, at, p));
      DonateFaults(d, s.current, s.threads[h].waits);
    }
  }

  lemma RestFaults(s: State)
    requires InTurn(s)
    ensures Rest(s).Fault? <==> MeetsFree(s)
  {
    hide Donate, DonateTo, ComesFree, GoesOnAt, GiveOn, HolderHolds, ReadyInv;
    match Cur(s).pc
    case Testing(_, at) => DonateFaults(s, s.current, Some(at));
    case Writing(_, at) => GiveOnFaults(s, at, Cur(s).priority);
    case Giving(_, at) => LiftSame(s, at); GiveOnFaults(s, at, s.locks[at].maxPriority);
    case Following(_, at) =>
      if s.locks[at].holder.Some? { DonateFaults(s, s.current, s.threads[s.locks[at].holder.value].waits); }
  }

  /** In every run, the loop of a thread that is not preempted from now on faults exactly when the
      chain leads from where it is to a lock without holder. */
  lemma RunFaults(s: State, actions: seq<Action>)
    requires Inv(s) && Run(s, actions).Some? && InLoop(Cur(Run(s, actions).value).pc)
    ensures var r := Run(s, actions).value;
      InTurn(r) && (Ends(r, Fault) <==> MeetsFree(r))
  {
    hide Rest, MeetsFree;
    var r := Run(s, actions).value;
    LoopAlone(r);
    RestFaults(r);
    if Ends(r, Fault) {
      EndsOnce(r, Fault, EndWith(Rest(r), r.current, Wanting(Cur(r).pc.lock)));
    }
  }
}
