/** Counting semaphores of `threads/synch.c`, with any initial value and any number of threads. */
module Semaphore {
  import opened Wrappers
  import opened Order

  type Tid = nat

  /** `woken` are the threads that `sema_up` has unblocked and that have not yet run again;
      `ups` and `downs` count the calls that have had their effect. */
  datatype Sema = Sema(value: nat, waiters: seq<Tid>, woken: set<Tid>, ups: nat, downs: nat)

  /** `rank` gives the priorities at the time of the step. */
  datatype Action =
    | Down(thread: Tid, rank: Tid -> int)      // the first look at the value in sema_down
    | Resume(thread: Tid, rank: Tid -> int)    // a woken thread looks again
    | TryDown
    | Up(rank: Tid -> int)

  predicate Enabled(s: Sema, a: Action) {
    match a
    case Down(t, _) => t !in s.waiters && t !in s.woken
    case Resume(t, _) => t in s.woken
    case TryDown => true
    case Up(_) => true
  }

  /** One turn of the loop of `sema_down`: take the value, or queue in order of priority. */
  function Look(s: Sema, t: Tid, rank: Tid -> int): Sema {
    if s.value > 0 then s.(value := s.value - 1, downs := s.downs + 1)
    else s.(waiters := InsertOrdered(s.waiters, t, rank, Greater))
  }

  /** `sema_up`, with the waiters sorted. */
  function Wake(s: Sema, q: seq<Tid>): Sema {
    if q == [] then s.(value := s.value + 1, ups := s.ups + 1)
    else s.(value := s.value + 1, ups := s.ups + 1, waiters := q[1..], woken := s.woken + {q[0]})
  }

  function Apply(s: Sema, a: Action): Sema
    requires Enabled(s, a)
  {
    match a
    case Down(t, rank) => Look(s, t, rank)
    case Resume(t, rank) => Look(s.(woken := s.woken - {t}), t, rank)
    case TryDown => if s.value > 0 then s.(value := s.value - 1, downs := s.downs + 1) else s
    case Up(rank) => Wake(s, StableSort(s.waiters, rank, Greater))
  }

  /** The value is what has been put in less what has been taken out, and no wake-up is lost:
      while threads are queued, every unit of the value has a woken thread on its way to it. */
  ghost predicate Inv(s: Sema, initial: nat) {
    && s.value == initial + s.ups - s.downs
    && Distinct(s.waiters) && (forall t :: t in s.waiters ==> t !in s.woken)
    && (s.waiters != [] ==> s.value <= |s.woken|)
  }

  lemma WakeKeeps(s: Sema, q: seq<Tid>, initial: nat)
    requires Inv(s, initial) && Distinct(q) && |q| == |s.waiters| && forall t :: t in q <==> t in s.waiters
    ensures Inv(Wake(s, q), initial)
  {
    if q != [] {
      assert q == [q[0]] + q[1..];
      assert q[0] in q && q[0] !in s.woken && q[0] !in q[1..];
      assert |s.woken + {q[0]}| == |s.woken| + 1;
    }
  }

  lemma StepKeeps(s: Sema, a: Action, initial: nat)
    requires Inv(s, initial) && Enabled(s, a)
    ensures Inv(Apply(s, a), initial)
  {
    match a
    case Down(t, rank) => InsertedMembers(s.waiters, t, rank);
    case Resume(t, rank) =>
      InsertedMembers(s.waiters, t, rank);
      assert |s.woken - {t}| == |s.woken| - 1;
    case TryDown =>
    case Up(rank) =>
      SortedMembers(s.waiters, rank);
      WakeKeeps(s, StableSort(s.waiters, rank, Greater), initial);
  }

  /** The semaphore after the given steps, if each was enabled in its turn. */
  ghost function Run(initial: nat, actions: seq<Action>): Option<Sema>
    decreases |actions|
  {
    if actions == [] then Some(Sema(initial, [], {}, 0, 0))
    else
      var n := |actions| - 1;
      match Run(initial, actions[..n])
      case None => None
      case Some(m) => if Enabled(m, actions[n]) then Some(Apply(m, actions[n])) else None
  }

  /** In every run from `sema_init`: the value is the initial one plus the ups less the downs that
      have completed, and if threads are queued, it is at most the number of woken threads that
      have yet to look, so each unit will be taken or its waiter woken. */
  lemma {:induction false} EveryRunConserves(initial: nat, actions: seq<Action>)
    ensures Run(initial, actions).Some? ==>
      var s := Run(initial, actions).value;
      s.value == initial + s.ups - s.downs && (s.waiters != [] ==> s.value <= |s.woken|)
  {
    RunInv(initial, actions);
  }

  lemma {:induction false} RunInv(initial: nat, actions: seq<Action>)
    ensures Run(initial, actions).Some? ==> Inv(Run(initial, actions).value, initial)
    decreases |actions|
  {
    if actions != [] && Run(initial, actions).Some? {
      var n := |actions| - 1;
      RunInv(initial, actions[..n]);
      StepKeeps(Run(initial, actions[..n]).value, actions[n], initial);
    }
  }
}
