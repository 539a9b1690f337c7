/** The writer-preferring readers-writers lock of `threads/synch.c`, with its guard lock and its
    two condition variables, under every interleaving of its callers.

    A thread touches the counters only while it holds the guard.  `cond_wait` queues the caller
    and gives the guard up; a signalled thread is woken and has to take the guard again before it
    looks at the counters (Mesa semantics). */
module RwLock {
  import opened Wrappers
  import opened Order

  type Tid = nat

  datatype Mode = Reader | Writer

  datatype Pc =
    | Idle
    | Entering(mode: Mode)     // rw_lock_acquire, in front of the guard
    | Checking(mode: Mode)     // has the guard, at the head of the while loop
    | Queued(mode: Mode)       // in cond_wait, in the queue
    | Woken(mode: Mode)        // in cond_wait, signalled, in front of the guard
    | Back(mode: Mode)         // back from cond_wait with the guard
    | Admitted(mode: Mode)     // counted as active, still has the guard
    | Active(mode: Mode)       // has the readers-writers lock
    | Leaving(mode: Mode)      // rw_lock_release, in front of the guard
    | Exiting(mode: Mode)      // rw_lock_release, has the guard
    | Exited                   // rw_lock_release done but for the guard

  datatype State = State(pc: map<Tid, Pc>, guard: Option<Tid>,
                         AR: int, WR: int, AW: int, WW: int, readQ: seq<Tid>, writeQ: seq<Tid>)

  datatype Action =
    | Acquire(mode: Mode)      // call rw_lock_acquire
    | TakeGuard
    | Check                    // evaluate the loop condition: wait or be admitted
    | Return                   // count down after cond_wait
    | Release                  // call rw_lock_release
    | Exit(pick: nat)          // count down and wake; `pick` is the writer that a signal chooses
    | DropGuard

  predicate HasGuard(pc: Pc) { pc.Checking? || pc.Back? || pc.Admitted? || pc.Exiting? || pc.Exited? }

  predicate WantsGuard(pc: Pc) { pc.Entering? || pc.Woken? || pc.Leaving? }

  /** Threads counted by AR and AW. */
  predicate CountedActive(pc: Pc, m: Mode) { pc == Admitted(m) || pc == Active(m) || pc == Leaving(m) || pc == Exiting(m) }

  /** Threads counted by WR and WW. */
  predicate CountedWaiting(pc: Pc, m: Mode) { pc == Queued(m) || pc == Woken(m) || pc == Back(m) }

  predicate Enabled(s: State, t: Tid, a: Action) {
    && t in s.pc
    && match a
       case Acquire(_) => s.pc[t].Idle?
       case TakeGuard => WantsGuard(s.pc[t]) && s.guard == None
       case Check => s.pc[t].Checking?
       case Return => s.pc[t].Back?
       case Release => s.pc[t].Active?
       case Exit(pick) => s.pc[t].Exiting? && (s.writeQ != [] ==> pick < |s.writeQ|)
       case DropGuard => s.pc[t].Admitted? || s.pc[t].Exited?
  }

  function Guarded(pc: Pc): Pc
    requires WantsGuard(pc)
  {
    match pc
    case Entering(m) => Checking(m)
    case Woken(m) => Back(m)
    case Leaving(m) => Exiting(m)
  }

  /** The loop of `rw_lock_acquire`: wait, or count in. */
  function Checked(s: State, t: Tid): State
    requires t in s.pc && s.pc[t].Checking?
  {
    if s.pc[t].mode.Reader? then
      if s.AW + s.WW > 0 then
        s.(WR := s.WR + 1, readQ := s.readQ + [t], pc := s.pc[t := Queued(Reader)], guard := None)
      else
        s.(AR := s.AR + 1, pc := s.pc[t := Admitted(Reader)])
    else
      if s.AR + s.AW > 0 then
        s.(WW := s.WW + 1, writeQ := s.writeQ + [t], pc := s.pc[t := Queued(Writer)], guard := None)
      else
        s.(AW := s.AW + 1, pc := s.pc[t := Admitted(Writer)])
  }

  function Returned(s: State, t: Tid): State
    requires t in s.pc && s.pc[t].Back?
  {
    var m := s.pc[t].mode;
    s.(WR := if m.Reader? then s.WR - 1 else s.WR, WW := if m.Writer? then s.WW - 1 else s.WW, pc := s.pc[t := Checking(m)])
  }

  /** `cond_signal` on the writers' queue. */
  function SignalWriter(s: State, pick: nat): State
    requires s.writeQ != [] ==> pick < |s.writeQ| && s.writeQ[pick] in s.pc
  {
    if s.writeQ == [] then s
    else s.(writeQ := s.writeQ[..pick] + s.writeQ[pick + 1..], pc := s.pc[s.writeQ[pick] := Woken(Writer)])
  }

  /** `cond_broadcast` on the readers' queue. */
  function BroadcastReaders(s: State): State {
    s.(readQ := [], pc := map t | t in s.pc :: if t in s.readQ then Woken(Reader) else s.pc[t])
  }

  /** The guard holder has counted itself out and has yet to wake somebody. */
  function CountedOut(s: State, t: Tid): State
    requires t in s.pc && s.pc[t].Exiting?
  {
    var m := s.pc[t].mode;
    s.(pc := s.pc[t := Exited], AR := if m.Reader? then s.AR - 1 else s.AR, AW := if m.Writer? then s.AW - 1 else s.AW)
  }

  /** `rw_lock_release` with the guard held. */
  function ExitedState(s: State, t: Tid, pick: nat): State
    requires t in s.pc && s.pc[t].Exiting?
    requires s.writeQ != [] ==> pick < |s.writeQ| && s.writeQ[pick] in s.pc
  {
    var s1 := CountedOut(s, t);
    if s.pc[t].mode.Reader? then
      if s1.AR == 0 && s1.WW > 0 then SignalWriter(s1, pick) else s1
    else
      if s1.WW > 0 then SignalWriter(s1, pick)
      else if s1.WR > 0 then BroadcastReaders(s1)
      else s1
  }

  function Apply(s: State, t: Tid, a: Action): State
    requires QueueInv(s) && Enabled(s, t, a)
  {
    match a
    case Acquire(m) => s.(pc := s.pc[t := Entering(m)])
    case TakeGuard => s.(guard := Some(t), pc := s.pc[t := Guarded(s.pc[t])])
    case Check => Checked(s, t)
    case Return => Returned(s, t)
    case Release => s.(pc := s.pc[t := Leaving(s.pc[t].mode)])
    case Exit(pick) =>
      assert s.writeQ != [] ==> s.writeQ[pick] in s.writeQ;
      ExitedState(s, t, pick)
    case DropGuard => s.(guard := None, pc := s.pc[t := if s.pc[t].Admitted? then Active(s.pc[t].mode) else Idle])
  }

  // ---- the invariant

  ghost function ActiveSet(s: State, m: Mode): set<Tid> { set t | t in s.pc && CountedActive(s.pc[t], m) }

  ghost function WaitingSet(s: State, m: Mode): set<Tid> { set t | t in s.pc && CountedWaiting(s.pc[t], m) }

  /** The counters count. */
  ghost predicate CountInv(s: State) {
    && s.AR == |ActiveSet(s, Reader)| && s.AW == |ActiveSet(s, Writer)|
    && s.WR == |WaitingSet(s, Reader)| && s.WW == |WaitingSet(s, Writer)|
  }

  ghost predicate QueueInv(s: State) {
    && Distinct(s.readQ) && (forall t :: t in s.readQ <==> t in s.pc && s.pc[t] == Queued(Reader))
    && Distinct(s.writeQ) && (forall t :: t in s.writeQ <==> t in s.pc && s.pc[t] == Queued(Writer))
  }

  ghost predicate GuardInv(s: State) {
    forall t :: t in s.pc ==> (HasGuard(s.pc[t]) <==> s.guard == Some(t))
  }

  /** At most one writer, and no reader beside it. */
  ghost predicate ExclusionInv(s: State) {
    s.AW <= 1 && (s.AW > 0 ==> s.AR == 0)
  }

  ghost predicate OnItsWay(s: State, t: Tid) {
    t in s.pc && (s.pc[t] == Woken(Writer) || s.pc[t] == Back(Writer) || s.pc[t] == Checking(Writer))
  }

  /** No wake-up is lost.  A queued reader is kept by a writer that is active, waiting or just
      looking; a queued writer by an active thread or a writer on its way to the counters. */
  ghost predicate WakeInv(s: State) {
    && (s.AW + s.WW == 0 && s.readQ != [] ==> exists t :: t in s.pc && s.pc[t] == Checking(Writer))
    && (s.AR + s.AW == 0 && s.writeQ != [] ==> exists t :: OnItsWay(s, t))
  }

  ghost predicate Inv(s: State) {
    CountInv(s) && QueueInv(s) && GuardInv(s) && ExclusionInv(s) && WakeInv(s)
  }

  // ---- counting

  lemma MoveActive(s: State, s': State, t: Tid, m: Mode)
    requires t in s.pc && t in s'.pc && s'.pc == s.pc[t := s'.pc[t]]
    ensures |ActiveSet(s', m)| ==
      |ActiveSet(s, m)| - (if CountedActive(s.pc[t], m) then 1 else 0) + (if CountedActive(s'.pc[t], m) then 1 else 0)
  {
    hide CountedActive;
    var rest := ActiveSet(s, m) - {t};
    assert ActiveSet(s, m) == if CountedActive(s.pc[t], m) then rest + {t} else rest;
    assert ActiveSet(s', m) == if CountedActive(s'.pc[t], m) then rest + {t} else rest;
  }

  lemma MoveWaiting(s: State, s': State, t: Tid, m: Mode)
    requires t in s.pc && t in s'.pc && s'.pc == s.pc[t := s'.pc[t]]
    ensures |WaitingSet(s', m)| ==
      |WaitingSet(s, m)| - (if CountedWaiting(s.pc[t], m) then 1 else 0) + (if CountedWaiting(s'.pc[t], m) then 1 else 0)
  {
    var rest := WaitingSet(s, m) - {t};
    assert WaitingSet(s, m) == if CountedWaiting(s.pc[t], m) then rest + {t} else rest;
    assert WaitingSet(s', m) == if CountedWaiting(s'.pc[t], m) then rest + {t} else rest;
  }

  ghost predicate Moved(s: State, s': State, t: Tid, m: Mode)
    requires t in s.pc && t in s'.pc
  {
    && |ActiveSet(s', m)| == |ActiveSet(s, m)| - (if CountedActive(s.pc[t], m) then 1 else 0) + (if CountedActive(s'.pc[t], m) then 1 else 0)
    && |WaitingSet(s', m)| == |WaitingSet(s, m)| - (if CountedWaiting(s.pc[t], m) then 1 else 0) + (if CountedWaiting(s'.pc[t], m) then 1 else 0)
  }

  lemma Move(s: State, s': State, t: Tid)
    requires t in s.pc && t in s'.pc && s'.pc == s.pc[t := s'.pc[t]]
    ensures Moved(s, s', t, Reader) && Moved(s, s', t, Writer)
  {
    MoveActive(s, s', t, Reader);
    MoveActive(s, s', t, Writer);
    MoveWaiting(s, s', t, Reader);
    MoveWaiting(s, s', t, Writer);
  }

  // ---- every step keeps the invariant

  lemma GuardKept(s: State, s': State, t: Tid)
    requires GuardInv(s) && t in s.pc && t in s'.pc && s'.pc == s.pc[t := s'.pc[t]]
    requires HasGuard(s'.pc[t]) <==> s'.guard == Some(t)
    requires s'.guard == s.guard || ((s.guard == None || s.guard == Some(t)) && (s'.guard == None || s'.guard == Some(t)))
    ensures GuardInv(s')
  {
  }

  lemma QueuesKept(s: State, s': State, t: Tid)
    requires QueueInv(s) && t in s.pc && t in s'.pc && s'.pc == s.pc[t := s'.pc[t]]
    requires s'.readQ == s.readQ && s'.writeQ == s.writeQ && !s.pc[t].Queued? && !s'.pc[t].Queued?
    ensures QueueInv(s')
  {
  }

  ghost predicate Uncounted(a: Action) { a.Acquire? || a.Release? || a.TakeGuard? || a.DropGuard? }

  lemma UncountedWake(s: State, t: Tid, a: Action)
    requires QueueInv(s) && WakeInv(s) && Enabled(s, t, a) && Uncounted(a)
    ensures WakeInv(Apply(s, t, a))
  {
    var s' := Apply(s, t, a);
    if s'.AR + s'.AW == 0 && s'.writeQ != [] {
      var w :| OnItsWay(s, w);
      assert OnItsWay(s', w);
    }
    if s'.AW + s'.WW == 0 && s'.readQ != [] {
      var w :| w in s.pc && s.pc[w] == Checking(Writer);
      assert w in s'.pc && s'.pc[w] == Checking(Writer);
    }
  }

  lemma UncountedKeeps(s: State, t: Tid, a: Action)
    requires Inv(s) && Enabled(s, t, a) && Uncounted(a)
    ensures Inv(Apply(s, t, a))
  {
    UncountedWake(s, t, a);
    UncountedRest(s, Apply(s, t, a), t, a);
    UncountedCounts(s, Apply(s, t, a), t, a);
  }

  lemma UncountedRest(s: State, s': State, t: Tid, a: Action)
    requires QueueInv(s) && GuardInv(s) && Enabled(s, t, a) && Uncounted(a) && s' == Apply(s, t, a)
    ensures QueueInv(s') && GuardInv(s')
  {
    GuardKept(s, s', t);
    QueuesKept(s, s', t);
  }

  /** The caller is counted as before. */
  lemma UncountedPc(s: State, s': State, t: Tid, a: Action)
    requires QueueInv(s) && Enabled(s, t, a) && Uncounted(a) && s' == Apply(s, t, a)
    ensures s'.pc == s.pc[t := s'.pc[t]] && s'.AR == s.AR && s'.WR == s.WR && s'.AW == s.AW && s'.WW == s.WW
    ensures forall m :: CountedActive(s'.pc[t], m) <==> CountedActive(s.pc[t], m)
    ensures forall m :: CountedWaiting(s'.pc[t], m) <==> CountedWaiting(s.pc[t], m)
  {
  }

  lemma UncountedCounts(s: State, s': State, t: Tid, a: Action)
    requires CountInv(s) && QueueInv(s) && Enabled(s, t, a) && Uncounted(a) && s' == Apply(s, t, a)
    ensures CountInv(s')
  {
    hide CountedActive, CountedWaiting, Apply, QueueInv;
    UncountedPc(s, s', t, a);
    Move(s, s', t);
  }

  lemma ReturnWake(s: State, t: Tid)
    requires WakeInv(s) && QueueInv(s) && Enabled(s, t, Return)
    ensures WakeInv(Returned(s, t))
  {
    var s' := Returned(s, t);
    if s.pc[t].mode.Writer? {
      assert OnItsWay(s', t);
      assert s'.pc[t] == Checking(Writer);
    } else {
      if s'.AR + s'.AW == 0 && s'.writeQ != [] {
        var w :| OnItsWay(s, w);
        assert OnItsWay(s', w);
      }
      if s'.AW + s'.WW == 0 && s'.readQ != [] {
        var w :| w in s.pc && s.pc[w] == Checking(Writer);
        assert w in s'.pc && s'.pc[w] == Checking(Writer);
      }
    }
  }

  lemma ReturnKeeps(s: State, t: Tid)
    requires Inv(s) && Enabled(s, t, Return)
    ensures Inv(Returned(s, t))
  {
    ReturnWake(s, t);
    Move(s, Returned(s, t), t);
    GuardKept(s, Returned(s, t), t);
    QueuesKept(s, Returned(s, t), t);
  }

  lemma CheckQueues(s: State, t: Tid)
    requires QueueInv(s) && Enabled(s, t, Check)
    ensures QueueInv(Checked(s, t))
  {
    var s' := Checked(s, t);
    assert t !in s.readQ && t !in s.writeQ;
    forall u
      ensures u in s'.readQ <==> u in s'.pc && s'.pc[u] == Queued(Reader)
      ensures u in s'.writeQ <==> u in s'.pc && s'.pc[u] == Queued(Writer)
    {
    }
  }

  lemma CheckWake(s: State, t: Tid)
    requires WakeInv(s) && ExclusionInv(s) && GuardInv(s) && Enabled(s, t, Check)
    requires s.AR >= 0 && s.AW >= 0 && s.WW >= 0 && s.WW >= |s.writeQ|
    ensures WakeInv(Checked(s, t))
  {
    var s' := Checked(s, t);
    assert forall u :: u in s.pc && u != t ==> !s.pc[u].Checking?;
    if s'.AR + s'.AW == 0 && s'.writeQ != [] {
      var w :| OnItsWay(s, w);
      assert OnItsWay(s', w);
    }
  }

  lemma CheckCounts(s: State, t: Tid)
    requires CountInv(s) && ExclusionInv(s) && Enabled(s, t, Check)
    ensures CountInv(Checked(s, t)) && ExclusionInv(Checked(s, t))
  {
    Move(s, Checked(s, t), t);
  }

  lemma CheckKeeps(s: State, t: Tid)
    requires Inv(s) && Enabled(s, t, Check)
    ensures Inv(Checked(s, t))
  {
    CheckQueues(s, t);
    QueueCounted(s);
    CheckWake(s, t);
    CheckCounts(s, t);
    GuardKept(s, Checked(s, t), t);
  }

  /** A queued writer is counted, so the counter bounds the queue. */
  lemma QueueCounted(s: State)
    requires CountInv(s) && QueueInv(s)
    ensures s.WW >= |s.writeQ| && s.WR >= |s.readQ|
  {
    QueueBound(s.writeQ, WaitingSet(s, Writer));
    QueueBound(s.readQ, WaitingSet(s, Reader));
  }

  lemma {:induction false} QueueBound(q: seq<Tid>, ts: set<Tid>)
    requires Distinct(q) && forall t :: t in q ==> t in ts
    ensures |q| <= |ts|
  {
    if q != [] {
      assert q[0] !in q[1..];
      assert forall t :: t in q[1..] ==> t in q;
      QueueBound(q[1..], ts - {q[0]});
    }
  }

  lemma CountedOutKeeps(s: State, t: Tid)
    requires Inv(s) && t in s.pc && s.pc[t].Exiting?
    ensures var s' := CountedOut(s, t);
      CountInv(s') && QueueInv(s') && GuardInv(s') && ExclusionInv(s') && s'.AR >= 0 && s'.AW >= 0
  {
    var s' := CountedOut(s, t);
    Move(s, s', t);
    GuardKept(s, s', t);
    QueuesKept(s, s', t);
  }

  lemma SignalQueues(s: State, pick: nat)
    requires QueueInv(s) && s.writeQ != [] && pick < |s.writeQ| && s.writeQ[pick] in s.pc
    ensures QueueInv(SignalWriter(s, pick))
  {
    var s', w := SignalWriter(s, pick), s.writeQ[pick];
    forall u
      ensures u in s'.writeQ <==> u in s.writeQ && u != w
    {
      assert s.writeQ == s.writeQ[..pick] + [w] + s.writeQ[pick + 1..];
      if u in s'.writeQ {
        var i :| 0 <= i < |s'.writeQ| && s'.writeQ[i] == u;
        assert u == if i < pick then s.writeQ[i] else s.writeQ[i + 1];
      }
    }
    forall u
      ensures u in s'.writeQ <==> u in s'.pc && s'.pc[u] == Queued(Writer)
      ensures u in s'.readQ <==> u in s'.pc && s'.pc[u] == Queued(Reader)
    {
    }
  }

  lemma SignalKeeps(s: State, pick: nat)
    requires CountInv(s) && QueueInv(s) && GuardInv(s) && s.writeQ != [] && pick < |s.writeQ| && s.writeQ[pick] in s.pc
    ensures var s' := SignalWriter(s, pick); CountInv(s') && QueueInv(s') && GuardInv(s') && OnItsWay(s', s.writeQ[pick])
  {
    var s', w := SignalWriter(s, pick), s.writeQ[pick];
    assert w in s.writeQ;
    Move(s, s', w);
    SignalQueues(s, pick);
    GuardKept(s, s', w);
  }

  lemma BroadcastCounts(s: State)
    requires CountInv(s) && QueueInv(s)
    ensures CountInv(BroadcastReaders(s))
  {
    var s' := BroadcastReaders(s);
    assert ActiveSet(s', Reader) == ActiveSet(s, Reader) && ActiveSet(s', Writer) == ActiveSet(s, Writer);
    assert WaitingSet(s', Reader) == WaitingSet(s, Reader) && WaitingSet(s', Writer) == WaitingSet(s, Writer);
  }

  lemma BroadcastKeeps(s: State)
    requires CountInv(s) && QueueInv(s) && GuardInv(s)
    ensures var s' := BroadcastReaders(s); CountInv(s') && QueueInv(s') && GuardInv(s')
  {
    hide CountInv;
    BroadcastCounts(s);
  }

  /** Leaving wakes a writer if there is one to wake, and otherwise all readers. */
  lemma ExitKeeps(s: State, t: Tid, pick: nat)
    requires Inv(s) && Enabled(s, t, Exit(pick))
    ensures s.writeQ != [] ==> s.writeQ[pick] in s.pc
    ensures Inv(ExitedState(s, t, pick))
  {
    assert s.writeQ != [] ==> s.writeQ[pick] in s.writeQ;
    var s1 := CountedOut(s, t);
    CountedOutKeeps(s, t);
    QueueCounted(s1);
    if s1.WW > 0 && s1.writeQ != [] {
      SignalKeeps(s1, pick);
    }
    BroadcastKeeps(s1);
    ExitWake(s, t, pick);
  }

  lemma ExitWake(s: State, t: Tid, pick: nat)
    requires WakeInv(s) && GuardInv(s) && t in s.pc && s.pc[t].Exiting?
    requires s.writeQ != [] ==> pick < |s.writeQ| && s.writeQ[pick] in s.pc
    requires CountedOut(s, t).AR >= 0 && CountedOut(s, t).AW >= 0
    requires s.WW >= |s.writeQ| && s.WR >= |s.readQ|
    ensures WakeInv(ExitedState(s, t, pick))
  {
    var s' := ExitedState(s, t, pick);
    assert forall w :: w in s.pc && w != t ==> !HasGuard(s.pc[w]);
    if s'.AR + s'.AW == 0 && s'.writeQ != [] {
      assert OnItsWay(s', s.writeQ[pick]);
    }
  }

  /** Every step of every thread keeps the invariant. */
  lemma StepKeeps(s: State, t: Tid, a: Action)
    requires Inv(s) && Enabled(s, t, a)
    ensures Inv(Apply(s, t, a))
  {
    match a
    case Check => CheckKeeps(s, t);
    case Return => ReturnKeeps(s, t);
    case Exit(pick) => ExitKeeps(s, t, pick);
    case _ => UncountedKeeps(s, t, a);
  }

  // ---- runs

  /** `rw_lock_init`: nobody is in any of the routines. */
  ghost predicate Init(s: State) {
    && (forall t :: t in s.pc ==> s.pc[t] == Idle)
    && s.guard == None && s.AR == s.WR == s.AW == s.WW == 0 && s.readQ == s.writeQ == []
  }

  lemma InitInv(s: State)
    requires Init(s)
    ensures Inv(s)
  {
    assert ActiveSet(s, Reader) == {} && ActiveSet(s, Writer) == {};
    assert WaitingSet(s, Reader) == {} && WaitingSet(s, Writer) == {};
  }

  /** The state after the given steps, if each was enabled in its turn. */
  ghost function Run(s: State, steps: seq<(Tid, Action)>): (r: Option<State>)
    requires Inv(s)
    ensures r.Some? ==> Inv(r.value)
  {
    if steps == [] then Some(s)
    else
      var n := |steps| - 1;
      var (t, a) := steps[n];
      match Run(s, steps[..n])
      case None => None
      case Some(m) =>
        if !Enabled(m, t, a) then None else StepKeeps(m, t, a); Some(Apply(m, t, a))
  }

  /** A writer that has the lock has it alone. */
  lemma WriterAlone(s: State, t: Tid, u: Tid)
    requires Inv(s) && t in s.pc && u in s.pc && t != u && s.pc[t] == Active(Writer)
    ensures !s.pc[u].Active?
  {
    QueueBound([t], ActiveSet(s, Writer));
    if s.pc[u].Active? {
      match s.pc[u].mode
      case Reader => QueueBound([u], ActiveSet(s, Reader));
      case Writer => QueueBound([t, u], ActiveSet(s, Writer));
    }
  }

  /** Thread `t` is not idle and does not depend on being woken. */
  ghost predicate CanMove(s: State, t: Tid) {
    t in s.pc && (CountedActive(s.pc[t], Reader) || CountedActive(s.pc[t], Writer) || HasGuard(s.pc[t]) || WantsGuard(s.pc[t]))
  }

  lemma QueuedNotStuck(s: State, q: Tid)
    requires Inv(s) && q in s.pc && s.pc[q].Queued?
    ensures exists t :: CanMove(s, t)
  {
    if s.AR > 0 {
      var t :| t in ActiveSet(s, Reader);
      assert CanMove(s, t);
    } else if s.AW > 0 {
      var t :| t in ActiveSet(s, Writer);
      assert CanMove(s, t);
    } else if s.writeQ != [] {
      var t :| OnItsWay(s, t);
      assert CanMove(s, t);
    } else {
      QueuedReaderNotStuck(s, q);
    }
  }

  lemma QueuedReaderNotStuck(s: State, q: Tid)
    requires Inv(s) && q in s.pc && s.pc[q].Queued? && s.writeQ == [] && s.AW == 0
    ensures exists t :: CanMove(s, t)
  {
    assert s.pc[q] == Queued(Writer) <==> q in s.writeQ;
    match s.pc[q].mode
    case Reader =>
      assert q in s.readQ;
      if s.WW > 0 {
        var t :| t in WaitingSet(s, Writer);
        assert t !in s.writeQ;
        assert CanMove(s, t);
      } else {
        var t :| t in s.pc && s.pc[t] == Checking(Writer);
        assert CanMove(s, t);
      }
    case Writer =>
  }

  /** Every run of every number of threads: the counters count the readers and writers that are
      active and those that wait; a writer that has the lock has it alone; while a thread
      is queued, some thread can still move; and whenever the guard is free, no reader is queued
      without a writer to wait for, and no writer without an active thread or a woken writer. */
  lemma EveryRunIsSafe(s: State, steps: seq<(Tid, Action)>)
    requires Init(s) && Inv(s) && Run(s, steps).Some?
    ensures var r := Run(s, steps).value;
      && (forall t, u :: t in r.pc && u in r.pc && t != u && r.pc[t] == Active(Writer) ==> !r.pc[u].Active?)
      && (forall q :: q in r.pc && r.pc[q].Queued? ==> exists t :: CanMove(r, t))
      && CountInv(r) && r.AW <= 1 && (r.AW == 1 ==> r.AR == 0)
      && (r.guard == None && r.AW + r.WW == 0 ==> r.readQ == [])
      && (r.guard == None && r.AR + r.AW == 0 && r.writeQ != [] ==> exists t :: t in r.pc && r.pc[t] == Woken(Writer))
  {
    var r := Run(s, steps).value;
    if r.AR + r.AW == 0 && r.writeQ != [] {
      var t :| OnItsWay(r, t);
    }
    forall t, u | t in r.pc && u in r.pc && t != u && r.pc[t] == Active(Writer)
      ensures !r.pc[u].Active?
    {
      WriterAlone(r, t, u);
    }
    forall q | q in r.pc && r.pc[q].Queued?
      ensures exists t :: CanMove(r, t)
    {
      QueuedNotStuck(r, q);
    }
  }

  // ---- who is let in, and who is woken

  /** Some thread is in the way of one that enters in mode `m`: a writer that is active or waits, for
      a reader; anyone that is active, for a writer. */
  ghost predicate Barred(s: State, m: Mode) {
    exists u :: u in s.pc && Bars(s.pc[u], m)
  }

  predicate Bars(pc: Pc, m: Mode) {
    match m
    case Reader => CountedActive(pc, Writer) || CountedWaiting(pc, Writer)
    case Writer => CountedActive(pc, Writer) || CountedActive(pc, Reader)
  }

  lemma BarredCounts(s: State)
    requires CountInv(s)
    ensures s.AW + s.WW > 0 <==> Barred(s, Reader)
    ensures s.AR + s.AW > 0 <==> Barred(s, Writer)
  {
    hide CountedActive, CountedWaiting;
    var ar, aw, ww := ActiveSet(s, Reader), ActiveSet(s, Writer), WaitingSet(s, Writer);
    if s.AW > 0 {
      var u :| u in aw;
      assert Bars(s.pc[u], Reader) && Bars(s.pc[u], Writer);
    }
    if s.WW > 0 {
      var u :| u in ww;
      assert Bars(s.pc[u], Reader);
    }
    if s.AR > 0 {
      var u :| u in ar;
      assert Bars(s.pc[u], Writer);
    }
    if Barred(s, Reader) {
      var u :| u in s.pc && Bars(s.pc[u], Reader);
      assert u in aw || u in ww;
    }
    if Barred(s, Writer) {
      var u :| u in s.pc && Bars(s.pc[u], Writer);
      assert u in aw || u in ar;
    }
  }

  /** A thread that looks is let in exactly when nobody bars it, and otherwise queues. */
  lemma CheckExact(s: State, t: Tid)
    requires Inv(s) && Enabled(s, t, Check)
    ensures var m := s.pc[t].mode;
      Checked(s, t).pc == s.pc[t := if Barred(s, m) then Queued(m) else Admitted(m)]
  {
    hide QueueInv, GuardInv, ExclusionInv, WakeInv, CountInv, Barred;
    BarredCounts(s);
  }

  /** Thread `u` comes to `pc` by the step from `s` to `s'`. */
  ghost predicate Comes(s: State, s': State, u: Tid, pc: Pc) { u in s.pc && u in s'.pc && s.pc[u] != pc && s'.pc[u] == pc }

  lemma StepAdmits(s: State, t: Tid, a: Action, u: Tid, m: Mode)
    requires Inv(s) && Enabled(s, t, a)
    ensures Comes(s, Apply(s, t, a), u, Admitted(m)) ==> u == t && a == Check && s.pc[t] == Checking(m) && !Barred(s, m)
    ensures Comes(s, Apply(s, t, a), u, Queued(m)) ==> u == t && a == Check && s.pc[t] == Checking(m) && Barred(s, m)
  {
    hide CountInv, GuardInv, ExclusionInv, WakeInv, Barred;
    if a == Check { CheckExact(s, t); }
  }

  /** Writers go first, in every run: a reader is let in only where no writer is active or waits, and
      a writer only where nobody is active; a thread queues only where it is not let in. */
  lemma WritersFirst(s: State, steps: seq<(Tid, Action)>, t: Tid, a: Action, u: Tid, m: Mode)
    requires Init(s) && Inv(s) && Run(s, steps).Some? && Enabled(Run(s, steps).value, t, a)
    ensures var r := Run(s, steps).value;
      && (Comes(r, Apply(r, t, a), u, Admitted(m)) ==> !Barred(r, m))
      && (Comes(r, Apply(r, t, a), u, Queued(m)) ==> Barred(r, m))
  {
    hide Inv, Barred, Comes, Apply, Enabled;
    StepAdmits(Run(s, steps).value, t, a, u, m);
  }

  /** A writer that leaves wakes one writer if any waits, and otherwise all readers; a reader wakes one
      writer, if it is the last reader and a writer waits; nobody is woken otherwise. */
  ghost predicate Wakes(s: State, t: Tid, pick: nat, u: Tid)
    requires t in s.pc && u in s.pc
  {
    match s.pc[u]
    case Queued(Writer) =>
      && pick < |s.writeQ| && u == s.writeQ[pick]
      && (s.pc[t] == Exiting(Writer) || forall v :: v in s.pc && v != t ==> !CountedActive(s.pc[v], Reader))
    case Queued(Reader) => s.pc[t] == Exiting(Writer) && forall v :: v in s.pc ==> !CountedWaiting(s.pc[v], Writer)
    case _ => false
  }

  lemma OnlyReader(s: State, t: Tid)
    requires CountInv(s) && t in s.pc && s.pc[t] == Exiting(Reader)
    ensures s.AR == 1 <==> forall v :: v in s.pc && v != t ==> !CountedActive(s.pc[v], Reader)
  {
    var ar := ActiveSet(s, Reader);
    assert t in ar;
    if s.AR == 1 {
      forall v | v in s.pc && v != t
        ensures !CountedActive(s.pc[v], Reader)
      {
        if v in ar { assert {t, v} <= ar; SubsetSize({t, v}, ar); }
      }
    }
    if forall v :: v in s.pc && v != t ==> !CountedActive(s.pc[v], Reader) {
      assert ar == {t};
    }
  }

  lemma SubsetSize(a: set<Tid>, b: set<Tid>)
    requires a <= b
    ensures |a| <= |b|
  {
    assert b == a + (b - a);
  }

  lemma NoWriterWaits(s: State)
    requires CountInv(s)
    ensures s.WW == 0 <==> forall v :: v in s.pc ==> !CountedWaiting(s.pc[v], Writer)
  {
    var ww := WaitingSet(s, Writer);
    if s.WW == 0 {
      forall v | v in s.pc
        ensures !CountedWaiting(s.pc[v], Writer)
      {
        assert v !in ww;
      }
    } else {
      var v :| v in ww;
    }
  }

  lemma LeaveExact(s: State, t: Tid, pick: nat, u: Tid)
    requires Inv(s) && Enabled(s, t, Exit(pick)) && u in s.pc && u != t
    ensures var s' := Apply(s, t, Exit(pick));
      u in s'.pc && s'.pc[u] == if Wakes(s, t, pick, u) then Woken(s.pc[u].mode) else s.pc[u]
  {
    NoWriterWaits(s);
    QueueCounted(s);
    if s.pc[t] == Exiting(Reader) { OnlyReader(s, t); }
  }

  lemma LeaveWakes(s: State, t: Tid, pick: nat)
    requires Inv(s) && Enabled(s, t, Exit(pick))
    ensures forall u :: u in s.pc && u != t ==> var s' := Apply(s, t, Exit(pick));
      u in s'.pc && s'.pc[u] == if Wakes(s, t, pick, u) then Woken(s.pc[u].mode) else s.pc[u]
  {
    hide CountInv, QueueInv, GuardInv, ExclusionInv, WakeInv, ExitedState;
    forall u | u in s.pc && u != t
      ensures var s' := Apply(s, t, Exit(pick));
        u in s'.pc && s'.pc[u] == if Wakes(s, t, pick, u) then Woken(s.pc[u].mode) else s.pc[u]
    {
      LeaveExact(s, t, pick, u);
    }
  }

  // ---- the routines, updating the lock in place

  lemma SignalThenBroadcast(s: State)
    requires s.readQ != [] && s.readQ[0] in s.pc
    ensures BroadcastReaders(s.(pc := s.pc[s.readQ[0] := Woken(Reader)], readQ := s.readQ[1..])) == BroadcastReaders(s)
  {
    var s' := s.(pc := s.pc[s.readQ[0] := Woken(Reader)], readQ := s.readQ[1..]);
    assert s.readQ == [s.readQ[0]] + s.readQ[1..];
    assert BroadcastReaders(s').pc == BroadcastReaders(s).pc;
  }

  lemma QueuesKnown(s: State)
    requires Inv(s)
    ensures (forall t :: t in s.readQ ==> t in s.pc) && (forall t :: t in s.writeQ ==> t in s.pc)
  {
  }

  class Monitor {
    var pc: map<Tid, Pc>
    var guard: Option<Tid>
    var AR: int
    var WR: int
    var AW: int
    var WW: int
    var readQ: seq<Tid>
    var writeQ: seq<Tid>

    ghost function View(): State
      reads this
    {
      State(pc, guard, AR, WR, AW, WW, readQ, writeQ)
    }

    constructor (threads: set<Tid>)
      ensures Init(View()) && Inv(View()) && pc.Keys == threads
    {
      pc := map t | t in threads :: Idle;
      guard, AR, WR, AW, WW, readQ, writeQ := None, 0, 0, 0, 0, [], [];
      new;
      InitInv(View());
    }

    /** `rw_lock_acquire` from the loop condition to `cond_wait` or to the end of the loop. */
    method TryEnter(t: Tid)
      requires Enabled(View(), t, Check)
      modifies this
      ensures View() == Checked(old(View()), t) && (old(Inv(View())) ==> Inv(View()))
      ensures old(Inv(View())) ==> pc == old(pc[t := if Barred(View(), pc[t].mode) then Queued(pc[t].mode) else Admitted(pc[t].mode)])
    {
      if Inv(View()) {
        StepKeeps(View(), t, Check);
        CheckExact(View(), t);
      }
      var mode := pc[t].mode;
      if mode.Reader? {
        if AW + WW > 0 {
          WR := WR + 1;
          readQ, guard, pc := readQ + [t], None, pc[t := Queued(Reader)];
        } else {
          AR, pc := AR + 1, pc[t := Admitted(Reader)];
        }
      } else {
        if AR + AW > 0 {
          WW := WW + 1;
          writeQ, guard, pc := writeQ + [t], None, pc[t := Queued(Writer)];
        } else {
          AW, pc := AW + 1, pc[t := Admitted(Writer)];
        }
      }
    }

    method CondSignal(pick: nat)
      requires writeQ != [] ==> pick < |writeQ| && writeQ[pick] in pc
      modifies this`writeQ, this`pc
      ensures View() == SignalWriter(old(View()), pick)
    {
      if writeQ != [] {
        pc := pc[writeQ[pick] := Woken(Writer)];
        writeQ := writeQ[..pick] + writeQ[pick + 1..];
      }
    }

    /** `cond_broadcast`: signal until the queue is empty. */
    method CondBroadcast()
      requires forall t :: t in readQ ==> t in pc
      modifies this`readQ, this`pc
      ensures View() == BroadcastReaders(old(View()))
    {
      while readQ != []
        invariant forall t :: t in readQ ==> t in pc
        invariant BroadcastReaders(View()) == BroadcastReaders(old(View()))
        decreases |readQ|
      {
        SignalThenBroadcast(View());
        pc, readQ := pc[readQ[0] := Woken(Reader)], readQ[1..];
      }
      assert pc == BroadcastReaders(View()).pc;
    }

    /** `rw_lock_release` with the guard held. */
    method Leave(t: Tid, pick: nat)
      requires Inv(View()) && Enabled(View(), t, Exit(pick))
      modifies this
      ensures View() == Apply(old(View()), t, Exit(pick)) && Inv(View())
      ensures forall u :: u in old(pc) && u != t ==>
        u in pc && pc[u] == if old(Wakes(View(), t, pick, u)) then Woken(old(pc)[u].mode) else old(pc)[u]
    {
      LeaveWakes(View(), t, pick);
      StepKeeps(View(), t, Exit(pick));
      QueuesKnown(View());
      hide Inv, CountedOut, SignalWriter, BroadcastReaders;
      if pc[t].mode.Reader? {
        CountOut(t);
        if AR == 0 && WW > 0 {
          CondSignal(pick);
        }
      } else {
        CountOut(t);
        if WW > 0 {
          CondSignal(pick);
        } else if WR > 0 {
          CondBroadcast();
        }
      }
    }

    /** The caller is no longer counted as active. */
    method CountOut(t: Tid)
      requires t in pc && pc[t].Exiting?
      modifies this`pc, this`AR, this`AW
      ensures View() == CountedOut(old(View()), t)
    {
      if pc[t].mode.Reader? {
        AR := AR - 1;
      } else {
        AW := AW - 1;
      }
      pc := pc[t := Exited];
    }
  }
}
