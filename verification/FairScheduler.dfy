/** The fair scheduler: 16.16 fixed-point arithmetic of `threads/fixed-point.h`, the updates of
    `threads/thread.c` and the timer interrupt that drives them. */
module FairScheduler {
  import opened Order

  const F: int := 0x1_0000
  const TIMER_FREQ: nat := 100
  const PRI_MIN: int := 0
  const PRI_MAX: int := 63
  const FIX_MAX_INT: int := 0xFFFF

  /** The values of a C `int`. */
  predicate Fits(x: int) { -0x8000_0000 <= x < 0x8000_0000 }

  /** C division truncates toward zero. */
  function TDiv(a: int, b: int): int
    requires b > 0
  {
    if a >= 0 then a / b else -((-a) / b)
  }

  // ---- fixed-point.h; a precondition is an assertion of the original or "no overflow"

  function FixInt(n: int): int
    requires -FIX_MAX_INT <= n <= FIX_MAX_INT && Fits(n * F)
  {
    n * F
  }

  function FixTrunc(x: int): int { TDiv(x, F) }

  function FixAdd(x: int, y: int): int
    requires Fits(x + y)
  {
    x + y
  }

  function FixSub(x: int, y: int): int
    requires Fits(x - y)
  {
    x - y
  }

  function FixAddMix(x: int, n: int): int
    requires Fits(n * F) && Fits(x + n * F)
  {
    x + n * F
  }

  function FixSubMix(x: int, n: int): int
    requires Fits(n * F) && Fits(x - n * F)
  {
    x - n * F
  }

  function FixMul(x: int, y: int): int
    requires Fits(TDiv(x * y, F))
  {
    TDiv(x * y, F)
  }

  function FixScale(x: int, n: int): int
    requires n >= 0 && Fits(x * n)
  {
    x * n
  }

  function FixDiv(x: int, y: int): int
    requires y > 0 && Fits(TDiv(x * F, y))
  {
    TDiv(x * F, y)
  }

  function FixUnscale(x: int, n: int): int
    requires n > 0
  {
    TDiv(x, n)
  }

  // ---- the recurrences, on the fixed-point numbers as integers

  /** The load average after a sample of `n` ready or running threads. */
  function LoadOf(load: nat, n: nat): nat { load * 59 / 60 + n * F / 60 }

  /** The factor by which recent CPU time decays: twice the load over twice the load plus one. */
  function DecayOf(load: nat): nat { (load * 2 * F) / (load * 2 + F) }

  function CpuOf(load: nat, cpu: nat): nat { (DecayOf(load) * cpu) / F }

  function Clamp(p: int): int { if p < PRI_MIN then PRI_MIN else if p > PRI_MAX then PRI_MAX else p }

  /** The nice values for which the priority cannot overflow, whatever the recent CPU time. */
  predicate NiceOk(nice: int) { -32704 <= nice <= 24639 }

  function NextPriority(cpu: int, nice: int, mls: bool): (p: int)
    requires 0 <= cpu && Fits(cpu) && NiceOk(nice)
    ensures PRI_MIN <= p <= PRI_MAX
  {
    var q := FixSub(FixInt(PRI_MAX), FixUnscale(cpu, 4));
    Clamp(FixTrunc(if mls then FixSubMix(q, nice) else q))
  }

  // ---- bounds

  /** A number of ready threads up to which nothing overflows. */
  const R_MAX: nat := 163

  /** The load average never exceeds the number of ready threads. */
  lemma LoadBound(load: nat, n: nat, r: nat)
    requires n <= r <= R_MAX && load <= r * F
    ensures LoadOf(load, n) <= r * F
  {
  }

  lemma DecayBound(load: nat, r: nat)
    requires load <= r * F
    ensures DecayOf(load) <= F && DecayOf(load) * (2 * r + 1) <= 2 * r * F
  {
    var x := load * 2;
    QuotientBound(x * F, x + F);
    DecayAt(DecayOf(load), x, r);
  }

  lemma QuotientBound(n: int, d: int)
    requires n >= 0 && d > 0
    ensures 0 <= n / d && (n / d) * d <= n
  {
    assert n == (n / d) * d + n % d;
  }

  /** `x / (x + F)` grows with `x`, so at most the value at `x = 2 * r * F`. */
  lemma DecayAt(a: int, x: int, r: nat)
    requires 0 <= x <= 2 * r * F && 0 <= a && a * (x + F) <= x * F
    ensures a <= F && a * (2 * r + 1) <= 2 * r * F
  {
    AtMostF(a, x);
    assert a * F <= x * (F - a) by { assert a * (x + F) == a * x + a * F; assert x * (F - a) == x * F - a * x; }
    Monotone(x, 2 * r * F, F - a);
    assert 2 * r * F * (F - a) == F * (2 * r * (F - a));
    assert a <= 2 * r * (F - a);
    assert 2 * r * (F - a) == 2 * r * F - 2 * r * a;
  }

  lemma AtMostF(a: int, x: int)
    requires 0 <= x && a * (x + F) <= x * F
    ensures a <= F
  {
    if a > F { Monotone(F, a, x + F); }
  }

  lemma Monotone(x: int, y: int, c: int)
    requires x <= y && c >= 0
    ensures x * c <= y * c
  {
  }

  /** A second of CPU time on top of the bound decays back to the bound. */
  lemma CpuBound(load: nat, cpu: nat, r: nat)
    requires load <= r * F && cpu <= (200 * r + 100) * F
    ensures CpuOf(load, cpu) <= 200 * r * F
  {
    DecayBound(load, r);
    CpuAt(DecayOf(load), cpu, r);
  }

  lemma CpuAt(a: int, cpu: int, r: nat)
    requires 0 <= a && a * (2 * r + 1) <= 2 * r * F && 0 <= cpu <= (200 * r + 100) * F
    ensures 0 <= a * cpu && (a * cpu) / F <= 200 * r * F
  {
    Monotone(cpu, (200 * r + 100) * F, a);
    assert (200 * r + 100) * F * a == 100 * F * (a * (2 * r + 1));
    assert a * cpu <= 100 * F * (2 * r * F);
  }

  // ---- the whole run

  type Tid = nat

  /** A thread that has run for the given number of ticks in each of the past seconds, while the
      given number of threads was ready or running when the second was sampled. */
  datatype Second = Second(ready: nat, ticks: nat)

  ghost predicate History(seconds: seq<Second>, r: nat) {
    forall i :: 0 <= i < |seconds| ==> seconds[i].ready <= r && seconds[i].ticks <= TIMER_FREQ
  }

  /** The load average and the recent CPU time of the thread after these seconds: the thread
      collects ticks, then the sample updates the load and decays its time. */
  ghost function After(seconds: seq<Second>): (nat, nat) {
    if seconds == [] then (0, 0)
    else
      var n := |seconds| - 1;
      var (load, cpu) := After(seconds[..n]);
      var load' := LoadOf(load, seconds[n].ready);
      (load', CpuOf(load', cpu + seconds[n].ticks * F))
  }

  /** With at most `r <= 163` threads ready at every sample, in every run: the load average stays
      within `r` and the recent CPU time within `200 * r + 100` at all times, so within an int. */
  lemma {:induction false} EveryRunIsBounded(seconds: seq<Second>, r: nat, ticks: nat)
    requires r <= R_MAX && History(seconds, r) && ticks <= TIMER_FREQ
    ensures After(seconds).0 <= r * F
    ensures After(seconds).1 <= 200 * r * F
    ensures After(seconds).1 + ticks * F <= (200 * r + 100) * F < 0x8000_0000
  {
    if seconds != [] {
      var n := |seconds| - 1;
      EveryRunIsBounded(seconds[..n], r, seconds[n].ticks);
      var load, cpu := After(seconds[..n]).0, After(seconds[..n]).1;
      LoadBound(load, seconds[n].ready, r);
      CpuBound(LoadOf(load, seconds[n].ready), cpu + seconds[n].ticks * F, r);
    }
  }

  lemma AfterNext(seconds: seq<Second>, next: Second)
    ensures var (load, cpu) := After(seconds); var load' := LoadOf(load, next.ready);
      After(seconds + [next]) == (load', CpuOf(load', cpu + next.ticks * F))
  {
    assert (seconds + [next])[..|seconds|] == seconds;
  }

  lemma HistoryNext(seconds: seq<Second>, next: Second, r: nat)
    requires History(seconds, r) && next.ready <= r && next.ticks <= TIMER_FREQ
    ensures History(seconds + [next], r)
  {
  }

  /** What a thread can have collected `k` ticks after a sample. */
  ghost function CpuLimit(r: nat, k: nat): int { (200 * r + k) * F }

  class Clock {
    var ticks: nat
    var loadAvg: int
    const all: seq<Tid>
    const idle: Tid
    const mls: bool
    var recentCpu: map<Tid, int>
    var nice: map<Tid, int>
    var priority: map<Tid, int>

    // The seconds that each thread has been through, and its ticks since the last sample.
    ghost var seconds: map<Tid, seq<Second>>
    ghost var since: map<Tid, nat>

    /** The load average and the recent CPU time of each thread are those of its history, with `k`
        ticks of a second gone. */
    ghost predicate Recorded(load: int, cpu: map<Tid, int>, k: nat, r: nat)
      reads this`seconds, this`since
    {
      forall t :: t in all && t != idle ==>
        && t in seconds && t in since && t in cpu && since[t] <= k && History(seconds[t], r)
        && load == After(seconds[t]).0 && cpu[t] == After(seconds[t]).1 + since[t] * F
    }

    /** This holds of the clock, so that `EveryRunIsBounded` is about it. */
    ghost predicate Tracks(r: nat)
      reads this
    {
      Recorded(loadAvg, recentCpu, ticks % TIMER_FREQ, r)
    }

    /** The state of the updates after `ticks` ticks with at most `r` ready threads a sample. */
    ghost predicate Valid(r: nat)
      reads this`ticks, this`loadAvg, this`recentCpu, this`nice
    {
      && r <= R_MAX && Distinct(all)
      && 0 <= loadAvg <= r * F
      && (forall t :: t in all ==> t in recentCpu && t in nice && NiceOk(nice[t]))
      && (forall t :: t in all && t != idle ==> 0 <= recentCpu[t] <= CpuLimit(r, ticks % TIMER_FREQ))
    }

    constructor (all: seq<Tid>, idle: Tid, mls: bool, nice: map<Tid, int>)
      requires Distinct(all) && forall t :: t in all ==> t in nice && NiceOk(nice[t])
      ensures Valid(0) && Tracks(0) && ticks == 0 && loadAvg == 0
    {
      this.all, this.idle, this.mls, this.nice := all, idle, mls, nice;
      ticks, loadAvg := 0, 0;
      recentCpu, priority := map t | t in all :: 0, map t | t in all :: PRI_MAX;
      seconds, since := map t | t in all :: [], map t | t in all :: 0;
    }

    /** Thread `t` has the priority that its recent CPU time and its nice value call for. */
    ghost predicate Fresh(t: Tid)
      reads this`recentCpu, this`nice, this`priority
    {
      && t in recentCpu && t in nice && t in priority
      && 0 <= recentCpu[t] && Fits(recentCpu[t]) && NiceOk(nice[t])
      && priority[t] == NextPriority(recentCpu[t], nice[t], mls)
    }

    method UpdatePriority(t: Tid)
      requires t in recentCpu && t in nice && NiceOk(nice[t]) && 0 <= recentCpu[t] && Fits(recentCpu[t])
      modifies this`priority
      ensures priority == if t == idle then old(priority) else old(priority)[t := NextPriority(recentCpu[t], nice[t], mls)]
    {
      if t == idle {
        return;
      }
      var q := FixSub(FixInt(PRI_MAX), FixUnscale(recentCpu[t], 4));
      var p := FixTrunc(if mls then FixSubMix(q, nice[t]) else q);
      priority := priority[t := p];
      if priority[t] < PRI_MIN {
        priority := priority[t := PRI_MIN];
      } else if priority[t] > PRI_MAX {
        priority := priority[t := PRI_MAX];
      }
    }

    /** One tick of CPU time for the running thread, unless it is the idle thread. */
    ghost function Charged(cpu: map<Tid, int>, current: Tid): map<Tid, int> {
      if current == idle || current !in cpu then cpu else cpu[current := cpu[current] + F]
    }

    method IncreaseRecentCpu(current: Tid)
      requires current in recentCpu && (current != idle ==> Fits(recentCpu[current] + F))
      modifies this`recentCpu
      ensures recentCpu == Charged(old(recentCpu), current)
    {
      if current == idle {
        return;
      }
      recentCpu := recentCpu[current := FixAddMix(recentCpu[current], 1)];
    }

    /** The part of the sample that concerns one thread. */
    method UpdateThread(t: Tid, ghost r: nat)
      requires r <= R_MAX && 0 <= loadAvg <= r * F
      requires t in recentCpu && t in nice && NiceOk(nice[t]) && 0 <= recentCpu[t] <= CpuLimit(r, 100)
      modifies this`recentCpu, this`priority
      ensures recentCpu == old(recentCpu)[t := CpuOf(loadAvg, old(recentCpu)[t])]
      ensures recentCpu[t] <= CpuLimit(r, 0) && Fits(recentCpu[t])
      ensures priority == if t == idle then old(priority) else old(priority)[t := NextPriority(recentCpu[t], nice[t], mls)]
    {
      var cpu := DecayedCpu(loadAvg, recentCpu[t], r);
      recentCpu := recentCpu[t := cpu];
      assert CpuLimit(r, 0) <= 32600 * F;
      UpdatePriority(t);
    }

    /** The sample of every second: the load first, then the time and the priority of every thread. */
    method UpdateLoadAvgAndRecentCpu(current: Tid, ready: nat, ghost r: nat)
      requires r <= R_MAX && Distinct(all) && 0 <= loadAvg <= r * F
      requires (if current == idle then ready else ready + 1) <= r
      requires forall t :: t in all ==> t in recentCpu && t in nice && NiceOk(nice[t])
      requires forall t :: t in all && t != idle ==> 0 <= recentCpu[t] <= CpuLimit(r, 100)
      modifies this`loadAvg, this`recentCpu, this`priority
      ensures loadAvg == LoadOf(old(loadAvg), if current == idle then ready else ready + 1) <= r * F
      ensures recentCpu.Keys == old(recentCpu).Keys
      ensures forall t :: t in all && t != idle ==>
        0 <= old(recentCpu)[t] && recentCpu[t] == CpuOf(loadAvg, old(recentCpu)[t]) <= CpuLimit(r, 0) && Fresh(t)
    {
      var readyNum := ready;
      if current != idle {
        readyNum := readyNum + 1;
      }
      LoadBound(loadAvg, readyNum, r);
      loadAvg := FixAdd(FixUnscale(FixScale(loadAvg, 59), 60), FixUnscale(FixInt(readyNum), 60));
      UpdateThreads(r);
    }

    /** The loop over the list of all threads. */
    method UpdateThreads(ghost r: nat)
      requires r <= R_MAX && Distinct(all) && 0 <= loadAvg <= r * F
      requires forall t :: t in all ==> t in recentCpu && t in nice && NiceOk(nice[t])
      requires forall t :: t in all && t != idle ==> 0 <= recentCpu[t] <= CpuLimit(r, 100)
      modifies this`recentCpu, this`priority
      ensures recentCpu.Keys == old(recentCpu).Keys
      ensures forall t :: t in all && t != idle ==>
        0 <= old(recentCpu)[t] && recentCpu[t] == CpuOf(loadAvg, old(recentCpu)[t]) <= CpuLimit(r, 0) && Fresh(t)
    {
      ghost var cpu := recentCpu;
      ghost var decayed := map t | t in all && t != idle :: CpuOf(loadAvg, cpu[t]);
      ghost var limit, top := CpuLimit(r, 0), CpuLimit(r, 100);
      for i := 0 to |all|
        invariant recentCpu.Keys == cpu.Keys
        invariant forall j :: 0 <= j < i && all[j] != idle ==> recentCpu[all[j]] == decayed[all[j]] <= limit && Fresh(all[j])
        invariant forall j :: i <= j < |all| ==> recentCpu[all[j]] == cpu[all[j]]
      {
        var t := all[i];
        if t != idle {
          UpdateThread(t, r);
        }
      }
    }

    /** Count the tick, and charge it to the running thread. */
    method CountTick(current: Tid, ghost r: nat)
      requires Valid(r) && current in all
      modifies this`ticks, this`recentCpu
      ensures ticks == old(ticks) + 1
      ensures recentCpu == Charged(old(recentCpu), current) && recentCpu.Keys == old(recentCpu).Keys
      ensures forall t :: t in all && t != idle ==> 0 <= recentCpu[t] <= CpuLimit(r, old(ticks) % TIMER_FREQ + 1)
    {
      LimitGrows(r, ticks % TIMER_FREQ);
      ticks := ticks + 1;
      IncreaseRecentCpu(current);
    }

    /** The tick that ends a second. */
    method SampleTick(current: Tid, ready: nat, ghost r: nat)
      requires Valid(r) && current in all && (ticks + 1) % TIMER_FREQ == 0
      requires (if current == idle then ready else ready + 1) <= r
      modifies this`ticks, this`loadAvg, this`recentCpu, this`priority
      ensures Valid(r) && ticks == old(ticks) + 1 && old(loadAvg) >= 0
      ensures loadAvg == LoadOf(old(loadAvg), if current == idle then ready else ready + 1)
      ensures forall t :: t in all && t != idle ==> Sampled(old(recentCpu), current, t) && Fresh(t)
    {
      LimitGrows(r, ticks % TIMER_FREQ);
      CountTick(current, r);
      UpdateLoadAvgAndRecentCpu(current, ready, r);
    }

    /** Any other tick. */
    method PlainTick(current: Tid, ghost r: nat)
      requires Valid(r) && current in all && (ticks + 1) % TIMER_FREQ != 0
      modifies this`ticks, this`recentCpu, this`priority
      ensures Valid(r) && ticks == old(ticks) + 1 && loadAvg == old(loadAvg)
      ensures recentCpu == Charged(old(recentCpu), current)
      ensures ticks % 4 == 0 && current != idle ==> Fresh(current)
    {
      NextTick(ticks);
      LimitGrows(r, ticks % TIMER_FREQ);
      CountTick(current, r);
      if ticks % 4 == 0 && current != idle {
        UpdatePriority(current);
      }
    }

    /** Nothing that holds for `r` ready threads a sample fails for more. */
    lemma BoundGrows(r: nat, r': nat)
      requires Valid(r) && Tracks(r) && r <= r' <= R_MAX
      ensures Valid(r') && Tracks(r')
    {
      assert CpuLimit(r, ticks % TIMER_FREQ) <= CpuLimit(r', ticks % TIMER_FREQ);
    }

    /** The ticks of the current second, with the one that is being counted. */
    ghost function Counted(since: map<Tid, nat>, current: Tid, t: Tid): nat
      requires t in since
    {
      if t == current then since[t] + 1 else since[t]
    }

    /** `timer_interrupt` under the fair policy: nothing overflows, the bounds hold again, and the
        numbers are those of the histories of the threads.  The bound may rise from `was` to `r`, as
        it does from 0 after boot. */
    method TimerInterrupt(current: Tid, ready: nat, ghost was: nat, ghost r: nat)
      requires Valid(was) && Tracks(was) && was <= r <= R_MAX && current in all
      requires (ticks + 1) % TIMER_FREQ == 0 ==> (if current == idle then ready else ready + 1) <= r
      modifies this
      ensures Valid(r) && Tracks(r) && ticks == old(ticks) + 1
      ensures loadAvg == if ticks % TIMER_FREQ == 0
        then LoadOf(old(loadAvg), if current == idle then ready else ready + 1) else old(loadAvg)
      ensures ticks % TIMER_FREQ != 0 ==> recentCpu == Charged(old(recentCpu), current)
      ensures ticks % TIMER_FREQ == 0 ==> forall t :: t in all && t != idle ==> Sampled(old(recentCpu), current, t) && Fresh(t)
      ensures ticks % 4 == 0 && current != idle ==> Fresh(current)
    {
      hide Recorded, Valid, Sampled, Fresh, Charged;
      BoundGrows(was, r);
      ghost var k, load, cpu := ticks % TIMER_FREQ, loadAvg, recentCpu;
      if (ticks + 1) % TIMER_FREQ == 0 {
        SampleTick(current, ready, r);
        RecordSample(current, if current == idle then ready else ready + 1, load, cpu, k, r);
      } else {
        NextTick(ticks);
        PlainTick(current, r);
        RecordTick(current, cpu, k, r);
      }
    }

    /** The sample has decayed the time of thread `t`, with the tick that ends the second. */
    ghost predicate Sampled(cpu: map<Tid, int>, current: Tid, t: Tid)
      reads this`loadAvg, this`recentCpu
    {
      && loadAvg >= 0 && t in recentCpu && t in Charged(cpu, current)
      && Charged(cpu, current)[t] >= 0 && recentCpu[t] == CpuOf(loadAvg, Charged(cpu, current)[t])
    }

    /** A tick is added to the second of the running thread. */
    ghost method RecordTick(current: Tid, cpu: map<Tid, int>, k: nat, r: nat)
      requires Recorded(loadAvg, cpu, k, r) && recentCpu == Charged(cpu, current) && ticks % TIMER_FREQ == k + 1
      modifies this`since
      ensures Tracks(r)
    {
      since := map t | t in all && t in since :: Counted(since, current, t);
    }

    /** The second is added to the history of every thread. */
    ghost method RecordSample(current: Tid, n: nat, load: int, cpu: map<Tid, int>, k: nat, r: nat)
      requires n <= r && ticks % TIMER_FREQ == 0 && k < TIMER_FREQ && load >= 0 && loadAvg == LoadOf(load, n)
      requires Recorded(load, cpu, k, r) && forall t :: t in all && t != idle ==> Sampled(cpu, current, t)
      modifies this`seconds, this`since
      ensures Tracks(r)
    {
      forall t | t in all && t != idle
        ensures var x := Second(n, Counted(since, current, t));
          History(seconds[t] + [x], r) && After(seconds[t] + [x]) == (loadAvg, recentCpu[t])
      {
        RecordThread(current, n, load, cpu, k, r, t);
      }
      seconds := map t | t in all && t != idle :: seconds[t] + [Second(n, Counted(since, current, t))];
      since := map t | t in all :: 0;
    }

    lemma RecordThread(current: Tid, n: nat, load: int, cpu: map<Tid, int>, k: nat, r: nat, t: Tid)
      requires n <= r && k < TIMER_FREQ && load >= 0 && loadAvg == LoadOf(load, n) && Recorded(load, cpu, k, r)
      requires t in all && t != idle && Sampled(cpu, current, t)
      ensures var x := Second(n, Counted(since, current, t));
        History(seconds[t] + [x], r) && After(seconds[t] + [x]) == (loadAvg, recentCpu[t])
    {
      AfterNext(seconds[t], Second(n, Counted(since, current, t)));
      HistoryNext(seconds[t], Second(n, Counted(since, current, t)), r);
    }
  }

  /** The decay in fixed-point operations, none of which overflows. */
  method DecayedCpu(load: nat, cpu: nat, ghost r: nat) returns (c: nat)
    requires r <= R_MAX && load <= r * F && cpu <= CpuLimit(r, 100)
    ensures c == CpuOf(load, cpu) <= CpuLimit(r, 0)
  {
    DecayBound(load, r);
    CpuBound(load, cpu, r);
    var twice := FixScale(load, 2);
    var decay := FixDiv(twice, FixAddMix(twice, 1));
    assert decay == DecayOf(load);
    c := FixMul(decay, cpu);
  }

  lemma NextTick(ticks: nat)
    requires (ticks + 1) % TIMER_FREQ != 0
    ensures (ticks + 1) % TIMER_FREQ == ticks % TIMER_FREQ + 1
  {
  }

  lemma LimitGrows(r: nat, k: nat)
    requires r <= R_MAX && k < TIMER_FREQ
    ensures CpuLimit(r, k) + F == CpuLimit(r, k + 1) <= CpuLimit(r, 100) <= 32700 * F
  {
  }
}
