/** Priority donation: `thread_update_priority`, `thread_donate_priority` and the loop of
    `lock_acquire` that walks the chain of lock holders. */
module Donation {
  import opened Wrappers
  import opened Order
  import opened Kernel

  /** `thread_update_priority`: sort the held locks and take the front one, if it beats the base. */
  function Updated(th: Thread, L: map<Lid, Lock>): Thread {
    var held := StableSort(th.held, LockRank(L), Greater);
    th.(held := held,
        priority := if held != [] && LockRank(L)(held[0]) > th.base then LockRank(L)(held[0]) else th.base)
  }

  /** `p` is the largest of the base priority and the donations to the held locks. */
  ghost predicate IsEffective(p: int, th: Thread, L: map<Lid, Lock>) {
    && p >= th.base
    && (forall l :: l in th.held ==> p >= LockRank(L)(l))
    && (p == th.base || exists l :: l in th.held && p == LockRank(L)(l))
  }

  lemma UpdatedIsEffective(th: Thread, L: map<Lid, Lock>)
    ensures IsEffective(Updated(th, L).priority, th, L)
    ensures forall l :: l in Updated(th, L).held <==> l in th.held
    ensures Distinct(th.held) ==> Distinct(Updated(th, L).held)
  {
    var held := StableSort(th.held, LockRank(L), Greater);
    PriorityOrder();
    SortSorts(th.held, LockRank(L), Greater);
    SameMembers(th.held, held);
    forall l | l in th.held
      ensures Updated(th, L).priority >= LockRank(L)(l)
    {
      var i :| 0 <= i < |held| && held[i] == l;
      assert i == 0 || !Greater(LockRank(L)(held[i]), LockRank(L)(held[0]));
    }
  }

  /** `thread_donate_priority`: a ready thread moves in the ready list to where it now belongs. */
  function DonateTo(s: State, h: Tid): State
    requires h in s.threads
  {
    var T := s.threads[h := Updated(s.threads[h], s.locks)];
    s.(threads := T,
       ready := if T[h].status == Ready then InsertOrdered(Without(s.ready, h), h, Rank(T), Greater) else s.ready)
  }

  datatype Outcome = Done(state: State) | Fault

  /** Everything the structures mention exists. */
  ghost predicate Refs(s: State) {
    && s.current in s.threads && s.idle in s.threads
    && (forall t :: t in s.ready ==> t in s.threads)
    && (forall t, l :: t in s.threads && l in s.threads[t].held ==> l in s.locks)
    && (forall t :: t in s.threads && s.threads[t].waits.Some? ==> s.threads[t].waits.value in s.locks)
    && (forall l :: l in s.locks && s.locks[l].holder.Some? ==> s.locks[l].holder.value in s.threads)
  }

  /** A priority covers the base priority and every donation to a held lock. */
  ghost predicate Covers(s: State, t: Tid)
    requires t in s.threads
  {
    && s.threads[t].priority >= s.threads[t].base
    && (forall l :: l in s.threads[t].held && l in s.locks ==> s.locks[l].maxPriority <= s.threads[t].priority)
  }

  /** The locks that a donation by `t` can still raise. */
  ghost function Below(s: State, t: Tid): set<Lid>
    requires t in s.threads
  {
    set l | l in s.locks && s.locks[l].maxPriority < s.threads[t].priority
  }

  /** The first half of a turn. */
  function Lifted(s: State, l: Lid, p: int): State
    requires l in s.locks
  {
    s.(locks := s.locks[l := s.locks[l].(maxPriority := p)])
  }

  /** One turn of the donation loop: raise the lock, then its holder. */
  function Raise(s: State, t: Tid, l: Lid): State
    requires t in s.threads && l in s.locks
    requires s.locks[l].holder.Some? && s.locks[l].holder.value in s.threads
  {
    DonateTo(Lifted(s, l, s.threads[t].priority), s.locks[l].holder.value)
  }

  /** What a donation to `h` may do: `h` gets the largest of its base priority and the donations
      to its locks, and no lock and no other thread changes. */
  ghost predicate Given(s: State, h: Tid, s': State) {
    && h in s.threads
    && s'.current == s.current && s'.idle == s.idle && s'.locks == s.locks
    && h in s'.threads && s'.threads == s.threads[h := s'.threads[h]]
    && s'.threads[h] == s.threads[h].(priority := s'.threads[h].priority, held := s'.threads[h].held)
    && IsEffective(s'.threads[h].priority, s.threads[h], s'.locks)
    && (forall k :: k in s'.threads[h].held <==> k in s.threads[h].held)
    && (Distinct(s.threads[h].held) ==> Distinct(s'.threads[h].held))
    && (forall u :: u in s'.ready ==> u in s.ready || u == h)
  }

  lemma GiveGives(s: State, h: Tid)
    requires h in s.threads
    ensures Given(s, h, DonateTo(s, h))
  {
    UpdatedIsEffective(s.threads[h], s.locks);
    InsertedMembers(Without(s.ready, h), h, Rank(DonateTo(s, h).threads));
  }

  /** What one turn may do: `l` gets the priority of `t`, and its holder `h` a donation. */
  ghost predicate Raised(s: State, t: Tid, l: Lid, h: Tid, s': State) {
    && t in s.threads && l in s.locks && s.locks[l].holder == Some(h)
    && Given(Lifted(s, l, s.threads[t].priority), h, s')
  }

  lemma RaiseRaises(s: State, t: Tid, l: Lid)
    requires t in s.threads && l in s.locks && s.locks[l].holder.Some? && s.locks[l].holder.value in s.threads
    ensures Raised(s, t, l, s.locks[l].holder.value, Raise(s, t, l))
  {
    GiveGives(Lifted(s, l, s.threads[t].priority), s.locks[l].holder.value);
  }

  lemma RaisedRefs(s: State, t: Tid, l: Lid, h: Tid, s': State)
    requires Refs(s) && Raised(s, t, l, h, s')
    ensures Refs(s')
  {
  }

  /** The donor still covers its own locks. */
  lemma RaisedDonor(s: State, t: Tid, l: Lid, h: Tid, s': State)
    requires Refs(s) && Raised(s, t, l, h, s') && Covers(s, t)
    ensures Covers(s', t) && s'.threads[t].priority <= s.threads[t].priority
  {
    assert forall k :: k in s.threads[t].held ==> k in s.locks;
    if t == h {
      assert forall k :: k in s.threads[h].held ==> LockRank(s'.locks)(k) == s'.locks[k].maxPriority;
    }
  }

  /** Whether the donor may yet be raised itself, when the chain of holders comes back to it. */
  ghost function Unsettled(s: State, t: Tid): nat
    requires t in s.threads
  {
    if Covers(s, t) then 0 else 1
  }

  /** Each turn leaves one lock fewer below the donor, except that it may raise the donor, once.
      This is what makes the loop end, also when the chain of holders runs in a circle. */
  lemma RaisedProgress(s: State, t: Tid, l: Lid, h: Tid, s': State)
    requires Refs(s) && Raised(s, t, l, h, s') && s.locks[l].maxPriority < s.threads[t].priority
    ensures Unsettled(s', t) < Unsettled(s, t) || (Unsettled(s', t) == Unsettled(s, t) && Below(s', t) < Below(s, t))
  {
    if Covers(s, t) {
      RaisedDonor(s, t, l, h, s');
    } else if h == t {
      RaisedSelf(s, t, l, s');
    }
    if s'.threads[t].priority <= s.threads[t].priority {
      assert l in Below(s, t) && l !in Below(s', t);
    }
  }

  lemma RaisedSelf(s: State, t: Tid, l: Lid, s': State)
    requires Refs(s) && Raised(s, t, l, t, s')
    ensures Covers(s', t)
  {
    assert forall k :: k in s.threads[t].held ==> LockRank(s'.locks)(k) == s'.locks[k].maxPriority;
  }

  /** The loop of `lock_acquire`: donate along the chain until there is no next lock or the next
      one is high enough.  It reads the holder of a lock without a check. */
  function Donate(s: State, t: Tid, next: Option<Lid>): Outcome
    requires Refs(s) && t in s.threads
    requires next.Some? ==> next.value in s.locks
    decreases Unsettled(s, t), Below(s, t)
  {
    if next == None || s.threads[t].priority <= s.locks[next.value].maxPriority then Done(s)
    else
      var l := next.value;
      match s.locks[l].holder
      case None => Fault
      case Some(h) =>
        RaiseRaises(s, t, l);
        RaisedRefs(s, t, l, h, Raise(s, t, l));
        RaisedProgress(s, t, l, h, Raise(s, t, l));
        Donate(Raise(s, t, l), t, Raise(s, t, l).threads[h].waits)
  }

  // ---- what donation keeps

  /** Thread `t` has lock `l` on its list, or has just taken it off in order to release it. */
  ghost predicate Holds(s: State, t: Tid, l: Lid) {
    t in s.threads && (l in s.threads[t].held || s.threads[t].pc == Dropping(l))
  }

  /** The holder field tells who holds a lock. */
  ghost predicate HolderHolds(s: State) {
    forall t: Tid, l: Lid :: Holds(s, t, l) <==> l in s.locks && s.locks[l].holder == Some(t)
  }

  ghost predicate AllCover(s: State) {
    forall t :: t in s.threads ==> Covers(s, t)
  }

  /** Thread `u` waits for lock `l`, which somebody holds. */
  ghost predicate WaitsOn(s: State, u: Tid, l: Lid) {
    && u in s.threads && l in s.locks
    && s.threads[u].waits == Some(l) && s.locks[l].holder.Some?
  }

  /** No inversion: a held lock carries at least the priority of every thread that waits for it. */
  ghost predicate NoInversion(s: State) {
    forall u, l :: WaitsOn(s, u, l) ==> s.threads[u].priority <= s.locks[l].maxPriority
  }

  /** The same, except that the waiters of `next` may be up to `p`. */
  ghost predicate NoInversionBut(s: State, next: Option<Lid>, p: int) {
    forall u, l :: WaitsOn(s, u, l) ==>
      s.threads[u].priority <= s.locks[l].maxPriority || (next == Some(l) && s.threads[u].priority <= p)
  }

  /** Only priorities have changed, and the order of what is ordered by them. */
  ghost predicate SameButPriorities(s: State, s': State) {
    && s'.threads.Keys == s.threads.Keys && s'.locks.Keys == s.locks.Keys
    && s'.current == s.current && s'.idle == s.idle
    && (forall t :: t in s.threads ==>
      && s'.threads[t].status == s.threads[t].status && s'.threads[t].base == s.threads[t].base
      && s'.threads[t].waits == s.threads[t].waits && s'.threads[t].pc == s.threads[t].pc
      && (forall l :: l in s'.threads[t].held <==> l in s.threads[t].held)
      && (Distinct(s.threads[t].held) ==> Distinct(s'.threads[t].held)))
    && (forall l :: l in s.locks ==> s'.locks[l] == s.locks[l].(maxPriority := s'.locks[l].maxPriority))
  }

  lemma RaisedSame(s: State, t: Tid, l: Lid, h: Tid, s': State)
    requires Raised(s, t, l, h, s')
    ensures SameButPriorities(s, s')
  {
  }

  lemma GiveKeepsReady(s: State, h: Tid)
    requires ReadyInv(s) && h in s.threads && h != s.idle
    ensures ReadyInv(DonateTo(s, h))
  {
    var s' := DonateTo(s, h);
    if s.threads[h].status == Ready {
      MoveKeepsList(s.threads, s.ready, s.idle, h, s'.threads[h]);
    } else {
      SortedAgain(s.ready, Rank(s.threads), Rank(s'.threads));
    }
  }

  lemma MoveKeepsList(T: map<Tid, Thread>, ready: seq<Tid>, idle: Tid, h: Tid, th: Thread)
    requires ReadyList(T, ready, idle) && h in T && h != idle
    requires T[h].status == th.status == Ready
    ensures ReadyList(T[h := th], InsertOrdered(Without(ready, h), h, Rank(T[h := th]), Greater), idle)
  {
    var r, T' := Without(ready, h), T[h := th];
    WithoutSorted(ready, h, Rank(T));
    SortedAgain(r, Rank(T), Rank(T'));
    InsertedMembers(r, h, Rank(T'));
    PriorityOrder();
    InsertKeepsSorted(r, h, Rank(T'), Greater);
  }

  lemma {:induction false} WithoutSorted(s: seq<nat>, x: nat, key: nat -> int)
    requires Distinct(s) && Sorted(s, key, Greater)
    ensures Distinct(Without(s, x)) && Sorted(Without(s, x), key, Greater)
  {
    if s != [] {
      var t, r := s[1..], Without(s[1..], x);
      assert Distinct(t) && Sorted(t, key, Greater);
      WithoutSorted(t, x, key);
      if s[0] != x {
        forall j | 0 <= j < |r|
          ensures r[j] != s[0] && !Greater(key(r[j]), key(s[0]))
        {
          assert r[j] in r;
          assert r[j] in t;
          var i :| 0 <= i < |t| && t[i] == r[j];
          assert s[i + 1] == r[j];
        }
      }
    }
  }

  lemma RaisedCovers(s: State, t: Tid, l: Lid, h: Tid, s': State)
    requires Refs(s) && HolderHolds(s) && AllCover(s) && Raised(s, t, l, h, s')
    ensures AllCover(s')
  {
    forall u | u in s'.threads
      ensures Covers(s', u)
    {
      assert Covers(s, u);
      if u == h {
        assert forall k :: k in s.threads[h].held ==> LockRank(s'.locks)(k) == s'.locks[k].maxPriority;
      } else {
        assert !Holds(s, u, l);
      }
    }
  }

  lemma SameHolders(s: State, s': State)
    requires HolderHolds(s) && SameButPriorities(s, s')
    ensures HolderHolds(s')
  {
    assert forall t: Tid, l: Lid :: Holds(s, t, l) <==> Holds(s', t, l);
  }

  /** The donor keeps its priority or, where a donation to it is still on the way, rises; a holder
      that is covered gets no more than it had or the donor has. */
  lemma RaisedPriority(s: State, t: Tid, l: Lid, h: Tid, s': State)
    requires Refs(s) && HolderHolds(s) && Raised(s, t, l, h, s')
    requires !s.threads[t].pc.Dropping?
    ensures s'.threads[t].priority >= s.threads[t].priority
    ensures h != t || Covers(s, t) ==> s'.threads[t].priority == s.threads[t].priority
    ensures Covers(s, h) ==> s'.threads[h].priority <= s.threads[h].priority || s'.threads[h].priority <= s.threads[t].priority
  {
    assert forall k :: k in s.threads[h].held ==> LockRank(s'.locks)(k) == s'.locks[k].maxPriority;
    assert Holds(s, h, l);
  }

  /** One turn moves the one possible inversion along the chain. */
  lemma RaisedInversion(s: State, t: Tid, l: Lid, h: Tid, s': State)
    requires Refs(s) && HolderHolds(s) && AllCover(s) && Raised(s, t, l, h, s')
    requires !s.threads[t].pc.Dropping?
    requires s.locks[l].maxPriority < s.threads[t].priority
    requires NoInversionBut(s, Some(l), s.threads[t].priority)
    ensures NoInversionBut(s', s'.threads[h].waits, s.threads[t].priority)
  {
    assert Covers(s, t) && Covers(s, h);
    RaisedPriority(s, t, l, h, s');
    forall u, k | WaitsOn(s', u, k)
      ensures s'.threads[u].priority <= s'.locks[k].maxPriority
        || (s'.threads[h].waits == Some(k) && s'.threads[u].priority <= s.threads[t].priority)
    {
      assert WaitsOn(s, u, k);
    }
  }

  lemma SameTransitive(a: State, b: State, c: State, p: int, q: int, r: int)
    requires SameButPriorities(a, b) && SameButPriorities(b, c)
    requires p <= q <= r && LocksRaised(a, b, p, q) && LocksRaised(b, c, q, r)
    ensures SameButPriorities(a, c) && LocksRaised(a, c, p, r)
  {
  }

  /** No donation is lost: a lock keeps its priority or has been raised to one from `p` to `q`. */
  ghost predicate LocksRaised(s: State, s': State, p: int, q: int) {
    && s'.locks.Keys == s.locks.Keys
    && forall l :: l in s.locks ==>
      || s'.locks[l].maxPriority == s.locks[l].maxPriority
      || (s.locks[l].maxPriority < s'.locks[l].maxPriority && p <= s'.locks[l].maxPriority <= q)
  }

  /** What a turn of the loop needs and keeps.  Other donors may be anywhere in their loops. */
  ghost predicate Donating(s: State, t: Tid) {
    && Refs(s) && HolderHolds(s) && ReadyInv(s)
    && t in s.threads && !s.threads[t].pc.Dropping?
    && (forall l :: l in s.locks ==> s.locks[l].holder != Some(s.idle))
  }

  /** The donor has risen from `s` to `s'`, or is as it was, which it is if it was covered. */
  ghost predicate Risen(s: State, s': State, t: Tid) {
    && t in s.threads && t in s'.threads && s'.threads[t].priority >= s.threads[t].priority
    && (Covers(s, t) ==> Covers(s', t) && s'.threads[t].priority == s.threads[t].priority)
  }

  /** A turn has made progress. */
  ghost predicate Nearer(s: State, s': State, t: Tid) {
    && t in s.threads && t in s'.threads
    && (Unsettled(s', t) < Unsettled(s, t) || (Unsettled(s', t) == Unsettled(s, t) && Below(s', t) < Below(s, t)))
  }

  lemma RaiseTurn(s: State, t: Tid, l: Lid)
    requires Donating(s, t)
    requires l in s.locks && s.locks[l].holder.Some? && s.locks[l].maxPriority < s.threads[t].priority
    ensures var s', h := Raise(s, t, l), s.locks[l].holder.value;
      && Donating(s', t) && Raised(s, t, l, h, s')
      && SameButPriorities(s, s') && LocksRaised(s, s', s.threads[t].priority, s'.threads[t].priority)
      && Risen(s, s', t) && Nearer(s, s', t)
  {
    var s', h := Raise(s, t, l), s.locks[l].holder.value;
    RaiseRaises(s, t, l);
    GiveKeepsReady(Lifted(s, l, s.threads[t].priority), h);
    RaisedTurn(s, t, l, h, s');
  }

  lemma RaisedTurn(s: State, t: Tid, l: Lid, h: Tid, s': State)
    requires Donating(s, t) && Raised(s, t, l, h, s') && ReadyInv(s')
    requires s.locks[l].maxPriority < s.threads[t].priority
    ensures Donating(s', t)
    ensures SameButPriorities(s, s') && LocksRaised(s, s', s.threads[t].priority, s'.threads[t].priority)
    ensures Risen(s, s', t) && Nearer(s, s', t)
  {
    RaisedRefs(s, t, l, h, s');
    if Covers(s, t) { RaisedDonor(s, t, l, h, s'); }
    RaisedProgress(s, t, l, h, s');
    RaisedPriority(s, t, l, h, s');
    RaisedSame(s, t, l, h, s');
    SameHolders(s, s');
  }

  lemma DonateUnfold(s: State, t: Tid, l: Lid, h: Tid, s': State)
    requires Donating(s, t) && Donating(s', t)
    requires l in s.locks && s.locks[l].holder == Some(h) && s.locks[l].maxPriority < s.threads[t].priority
    requires s' == Raise(s, t, l) && h in s'.threads
    ensures Donate(s, t, Some(l)) == Donate(s', t, s'.threads[h].waits)
  {
  }

  /** The loop changes priorities only, keeps the ready list in order and loses no donation,
      wherever other donors are in their loops.  If none is about to give, it removes the inversion
      that a new waiter brings, whatever the chain of holders. */
  lemma {:induction false} DonateRestores(s: State, t: Tid, next: Option<Lid>, d: State)
    requires Donating(s, t)
    requires next.Some? ==> next.value in s.locks
    requires Donate(s, t, next) == Done(d)
    ensures Donating(d, t) && SameButPriorities(s, d) && Risen(s, d, t)
    ensures LocksRaised(s, d, s.threads[t].priority, d.threads[t].priority)
    ensures AllCover(s) && NoInversionBut(s, next, s.threads[t].priority) ==> AllCover(d) && NoInversion(d)
    decreases Unsettled(s, t), Below(s, t)
  {
    if next.Some? && s.threads[t].priority > s.locks[next.value].maxPriority {
      var l := next.value;
      var h, s' := s.locks[l].holder.value, Raise(s, t, l);
      RaiseTurn(s, t, l);
      DonateUnfold(s, t, l, h, s');
      if AllCover(s) && NoInversionBut(s, next, s.threads[t].priority) {
        assert Covers(s, t);
        RaisedInversion(s, t, l, h, s');
        RaisedCovers(s, t, l, h, s');
      }
      DonateRestores(s', t, s'.threads[h].waits, d);
      SameTransitive(s, s', d, s.threads[t].priority, s'.threads[t].priority, d.threads[t].priority);
    }
  }

  // ---- the unchecked read of a holder

  /** The priority that donor `t` goes on with after it has donated `p` to itself: `p`, or that of a
      donation to it that is still on the way. */
  ghost function Regained(s: State, t: Tid, p: int): int
    requires t in s.threads
  {
    var q := Updated(s.threads[t], s.locks).priority;
    if q > p then q else p
  }

  /** The chain that starts with lock `next` and goes on with the lock each holder waits for comes
      after `n` held locks to one without holder, and all of them are below the priority that `t`
      has when it gets there, which is `p` at first. */
  ghost predicate FreeAhead(s: State, t: Tid, p: int, next: Option<Lid>, n: nat)
    requires t in s.threads
    decreases n
  {
    && next.Some? && next.value in s.locks && s.locks[next.value].maxPriority < p
    && match s.locks[next.value].holder
       case None => n == 0
       case Some(h) => n > 0 && h in s.threads && FreeAhead(s, t, if h == t then Regained(s, t, p) else p, s.threads[h].waits, n - 1)
  }

  /** It does so after some number of them. */
  ghost predicate ComesFree(s: State, t: Tid, p: int, next: Option<Lid>)
    requires t in s.threads
  {
    exists n: nat :: FreeAhead(s, t, p, next, n)
  }

  /** How long the chain is does not depend on the priorities. */
  lemma {:induction false} FreeAheadUnique(s: State, t: Tid, p: int, q: int, next: Option<Lid>, n: nat, m: nat)
    requires t in s.threads && FreeAhead(s, t, p, next, n) && FreeAhead(s, t, q, next, m)
    ensures n == m
    decreases n
  {
    if s.locks[next.value].holder.Some? {
      var h := s.locks[next.value].holder.value;
      FreeAheadUnique(s, t, if h == t then Regained(s, t, p) else p, if h == t then Regained(s, t, q) else q, s.threads[h].waits, n - 1, m - 1);
    }
  }

  /** The chain is the same in both states, except for the priority of lock `l`. */
  ghost predicate SameLinks(s: State, s': State, l: Lid) {
    && (forall u :: u in s.threads <==> u in s'.threads)
    && (forall u :: u in s.threads ==> s'.threads[u].waits == s.threads[u].waits)
    && (forall k :: k in s.locks <==> k in s'.locks)
    && (forall k :: k in s.locks ==> s'.locks[k].holder == s.locks[k].holder)
    && (forall k :: k in s.locks && k != l ==> s'.locks[k].maxPriority == s.locks[k].maxPriority)
  }

  /** Also, thread `h` holds that lock, and where it is not the donor, the donor regains the same. */
  ghost predicate SameChain(s: State, s': State, l: Lid, h: Tid, t: Tid) {
    && t in s.threads && t in s'.threads && h in s.threads && SameLinks(s, s', l)
    && l in s.locks && s.locks[l].holder == Some(h)
    && (h != t ==> Updated(s'.threads[t], s'.locks).priority == Updated(s.threads[t], s.locks).priority)
  }

  /** A chain that leads from `h` to a lock without holder does not come back to `h`, so what a
      turn changes there does not matter to it. */
  lemma {:induction false} FreeAheadPast(s: State, s': State, l: Lid, h: Tid, t: Tid, p0: int, all: nat, p: int, next: Option<Lid>, n: nat)
    requires SameChain(s, s', l, h, t)
    requires FreeAhead(s, t, p0, s.threads[h].waits, all) && FreeAhead(s, t, p, next, n) && n <= all
    ensures FreeAhead(s', t, p, next, n)
    decreases n
  {
    hide Updated;
    if n > 0 {
      var u := s.locks[next.value].holder.value;
      var q := if u == t then Regained(s, t, p) else p;
      if u == h {
        FreeAheadUnique(s, t, q, p0, s.threads[h].waits, n - 1, all);
      } else {
        FreeAheadPast(s, s', l, h, t, p0, all, q, s.threads[u].waits, n - 1);
      }
    }
  }

  lemma SameChainBack(s: State, s': State, l: Lid, h: Tid, t: Tid)
    requires SameChain(s, s', l, h, t)
    ensures SameChain(s', s, l, h, t) && s'.threads[h].waits == s.threads[h].waits
  {
  }

  lemma ComesFreePast(s: State, s': State, l: Lid, h: Tid, t: Tid, p: int)
    requires SameChain(s, s', l, h, t)
    ensures ComesFree(s, t, p, s.threads[h].waits) <==> ComesFree(s', t, p, s.threads[h].waits)
  {
    hide Updated, SameLinks, FreeAhead;
    SameChainBack(s, s', l, h, t);
    if ComesFree(s, t, p, s.threads[h].waits) {
      var n: nat :| FreeAhead(s, t, p, s.threads[h].waits, n);
      FreeAheadPast(s, s', l, h, t, p, n, p, s.threads[h].waits, n);
    }
    if ComesFree(s', t, p, s.threads[h].waits) {
      var n: nat :| FreeAhead(s', t, p, s.threads[h].waits, n);
      FreeAheadPast(s', s, l, h, t, p, n, p, s.threads[h].waits, n);
    }
  }

  lemma ComesFreeNext(s: State, t: Tid, p: int, l: Lid, h: Tid)
    requires t in s.threads && h in s.threads && l in s.locks && s.locks[l].holder == Some(h) && s.locks[l].maxPriority < p
    ensures ComesFree(s, t, p, Some(l)) <==> ComesFree(s, t, if h == t then Regained(s, t, p) else p, s.threads[h].waits)
  {
    hide Updated;
    var q, next := if h == t then Regained(s, t, p) else p, s.threads[h].waits;
    if ComesFree(s, t, p, Some(l)) {
      var n: nat :| FreeAhead(s, t, p, Some(l), n);
      assert FreeAhead(s, t, q, next, n - 1);
    }
    if ComesFree(s, t, q, next) {
      var n: nat :| FreeAhead(s, t, q, next, n);
      assert FreeAhead(s, t, p, Some(l), n + 1);
    }
  }

  lemma EffectiveUnique(p: int, q: int, th: Thread, L: map<Lid, Lock>)
    requires IsEffective(p, th, L) && IsEffective(q, th, L)
    ensures p == q
  {
  }

  /** Where a turn raises another thread, the donor would regain what it would have before. */
  lemma RegainedSame(s: State, t: Tid, l: Lid, p: int, h: Tid, s': State)
    requires Refs(s) && HolderHolds(s) && t in s.threads && h != t
    requires l in s.locks && s.locks[l].holder == Some(h) && Given(Lifted(s, l, p), h, s')
    ensures Updated(s'.threads[t], s'.locks).priority == Updated(s.threads[t], s.locks).priority
  {
    hide Updated;
    UpdatedIsEffective(s.threads[t], s.locks);
    UpdatedIsEffective(s'.threads[t], s'.locks);
    assert !Holds(s, t, l);
    assert forall k :: k in s.threads[t].held ==> LockRank(s'.locks)(k) == LockRank(s.locks)(k);
    EffectiveUnique(Updated(s.threads[t], s.locks).priority, Updated(s'.threads[t], s'.locks).priority, s.threads[t], s.locks);
  }

  /** With a held lock lifted to `p`, the largest is `p` or what it was. */
  lemma EffectiveLifted(e: int, th: Thread, L: map<Lid, Lock>, l: Lid, p: int)
    requires IsEffective(e, th, L) && l in th.held && l in L && L[l].maxPriority < p
    ensures IsEffective(if e > p then e else p, th, L[l := L[l].(maxPriority := p)])
  {
    var L' := L[l := L[l].(maxPriority := p)];
    assert LockRank(L')(l) == p && forall k :: k != l ==> LockRank(L')(k) == LockRank(L)(k);
  }

  /** Where it raises the donor, that has what it regains. */
  lemma RegainedSelf(s: State, t: Tid, l: Lid, s': State)
    requires Refs(s) && HolderHolds(s) && Raised(s, t, l, t, s') && !s.threads[t].pc.Dropping?
    requires s.locks[l].maxPriority < s.threads[t].priority
    ensures s'.threads[t].priority == Regained(s, t, s.threads[t].priority)
  {
    hide Updated;
    var e := Updated(s.threads[t], s.locks).priority;
    assert Holds(s, t, l);
    UpdatedIsEffective(s.threads[t], s.locks);
    EffectiveLifted(e, s.threads[t], s.locks, l, s.threads[t].priority);
    EffectiveUnique(s'.threads[t].priority, Regained(s, t, s.threads[t].priority), s.threads[t], s'.locks);
  }

  lemma GivenLinks(s: State, l: Lid, p: int, h: Tid, s': State)
    requires l in s.locks && Given(Lifted(s, l, p), h, s')
    ensures SameLinks(s, s', l)
  {
  }

  /** Storing any priority in a lock and donating to its holder leaves the chain behind it. */
  lemma GivenChain(s: State, t: Tid, l: Lid, p: int, h: Tid, s': State)
    requires Refs(s) && HolderHolds(s) && t in s.threads
    requires l in s.locks && s.locks[l].holder == Some(h) && Given(Lifted(s, l, p), h, s')
    ensures SameChain(s, s', l, h, t)
  {
    hide Updated, SameLinks;
    GivenLinks(s, l, p, h, s');
    if h != t { RegainedSame(s, t, l, p, h, s'); }
  }

  lemma ComesFreeTurn(s: State, t: Tid, l: Lid, h: Tid, s': State)
    requires Refs(s) && HolderHolds(s) && Raised(s, t, l, h, s') && !s.threads[t].pc.Dropping?
    requires s.locks[l].maxPriority < s.threads[t].priority
    ensures t in s'.threads
    ensures ComesFree(s, t, s.threads[t].priority, Some(l)) <==> ComesFree(s', t, s'.threads[t].priority, s.threads[h].waits)
  {
    hide Updated, Regained, ComesFree, SameChain;
    GivenChain(s, t, l, s.threads[t].priority, h, s');
    if h == t { RegainedSelf(s, t, l, s'); }
    ComesFreeNext(s, t, s.threads[t].priority, l, h);
    ComesFreePast(s, s', l, h, t, s'.threads[t].priority);
  }

  /** The loop reads the fields of a missing holder exactly when the chain, as it stands before the
      loop, leads through locks below the donor's priority to a lock without holder. */
  lemma {:induction false} DonateFaults(s: State, t: Tid, next: Option<Lid>)
    requires Donating(s, t)
    requires next.Some? ==> next.value in s.locks
    ensures Donate(s, t, next).Fault? <==> ComesFree(s, t, s.threads[t].priority, next)
    decreases Unsettled(s, t), Below(s, t)
  {
    if next.Some? && s.threads[t].priority > s.locks[next.value].maxPriority {
      if s.locks[next.value].holder == None {
        assert FreeAhead(s, t, s.threads[t].priority, next, 0);
      } else {
        DonateFaultsTurn(s, t, next.value);
        DonateFaults(Raise(s, t, next.value), t, s.threads[s.locks[next.value].holder.value].waits);
      }
    }
  }

  lemma DonateFaultsTurn(s: State, t: Tid, l: Lid)
    requires Donating(s, t)
    requires l in s.locks && s.locks[l].holder.Some? && s.locks[l].maxPriority < s.threads[t].priority
    ensures var s', w := Raise(s, t, l), s.threads[s.locks[l].holder.value].waits;
      && Donating(s', t) && Nearer(s, s', t) && (w.Some? ==> w.value in s'.locks)
      && Donate(s, t, Some(l)) == Donate(s', t, w)
      && (ComesFree(s, t, s.threads[t].priority, Some(l)) <==> ComesFree(s', t, s'.threads[t].priority, w))
  {
    var h, s' := s.locks[l].holder.value, Raise(s, t, l);
    RaiseTurn(s, t, l);
    DonateUnfold(s, t, l, h, s');
    ComesFreeTurn(s, t, l, h, s');
  }
}
