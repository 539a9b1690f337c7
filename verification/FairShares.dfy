/** What the numbers of the fair scheduler mean: the load average and the recent CPU time follow the
    recurrences on real numbers that they stand for, within bounds that do not grow with time, and a
    thread that has run less does not get a lower priority. */
module FairShares {
  import opened FairScheduler
  import Numbers

  // ---- the load average

  /** One sample: 59 parts of the old load and one of the threads that are ready, rounded down. */
  lemma LoadExact(load: nat, n: nat)
    ensures 59 * load + n * F - 120 < 60 * LoadOf(load, n) <= 59 * load + n * F
  {
  }

  /** The load average as a real number. */
  ghost function IdealLoad(seconds: seq<Second>): real {
    if seconds == [] then 0.0
    else
      var n := |seconds| - 1;
      (59.0 * IdealLoad(seconds[..n]) + seconds[n].ready as real) / 60.0
  }

  /** Over every history the load average is within 120 units of the last place of the real one. */
  lemma {:induction false} LoadTracks(seconds: seq<Second>)
    ensures IdealLoad(seconds) * F as real - 120.0 <= After(seconds).0 as real <= IdealLoad(seconds) * F as real
  {
    if seconds != [] {
      var n := |seconds| - 1;
      LoadTracks(seconds[..n]);
      LoadStep(After(seconds[..n]).0, IdealLoad(seconds[..n]), seconds[n].ready);
    }
  }

  lemma LoadStep(load: nat, ideal: real, n: nat)
    requires ideal * F as real - 120.0 <= load as real <= ideal * F as real
    ensures var ideal' := (59.0 * ideal + n as real) / 60.0;
      ideal' * F as real - 120.0 <= LoadOf(load, n) as real <= ideal' * F as real
  {
    LoadExact(load, n);
    var load' := LoadOf(load, n);
    assert 60.0 * load' as real == (60 * load') as real;
    assert (59 * load + n * F) as real == 59.0 * load as real + n as real * F as real;
  }

  ghost function Power(x: real, k: nat): real { if k == 0 then 1.0 else x * Power(x, k - 1) }

  /** The same number of threads is ready at every sample. */
  predicate Constant(seconds: seq<Second>, n: nat) { forall i :: 0 <= i < |seconds| ==> seconds[i].ready == n }

  lemma {:induction false} IdealConstant(seconds: seq<Second>, n: nat)
    requires Constant(seconds, n)
    ensures IdealLoad(seconds) == n as real * (1.0 - Power(59.0 / 60.0, |seconds|))
  {
    if seconds != [] {
      IdealConstant(seconds[..|seconds| - 1], n);
    }
  }

  /** With `n` threads ready at each of `k` samples, it has come to `n * (1 - (59/60)^k)`. */
  lemma LoadConstant(seconds: seq<Second>, n: nat)
    requires Constant(seconds, n)
    ensures var target := n as real * (1.0 - Power(59.0 / 60.0, |seconds|)) * F as real;
      target - 120.0 <= After(seconds).0 as real <= target
  {
    hide After, IdealLoad, Power;
    IdealConstant(seconds, n);
    LoadTracks(seconds);
  }

  /** The load does not fall exactly when it is at most the multiple of 60 below `n`, and does not get
      past that. */
  lemma LoadGrows(load: nat, n: nat)
    ensures LoadOf(load, n) >= load <==> load <= 60 * (n * F / 60)
    ensures load <= 60 * (n * F / 60) ==> LoadOf(load, n) <= 60 * (n * F / 60)
    ensures load >= 60 * (n * F / 60) ==> LoadOf(load, n) >= 60 * (n * F / 60)
  {
  }

  /** So with `n` threads ready at every sample it never falls. */
  lemma {:induction false} LoadRises(seconds: seq<Second>, n: nat)
    requires seconds != [] && Constant(seconds, n)
    ensures After(seconds[..|seconds| - 1]).0 <= After(seconds).0 <= 60 * (n * F / 60) <= n * F
    decreases |seconds|
  {
    var rest := seconds[..|seconds| - 1];
    if rest != [] { LoadRises(rest, n); }
    LoadGrows(After(rest).0, n);
  }

  // ---- recent CPU time

  /** The factor is twice the load over twice the load plus one, rounded down. */
  lemma DecayExact(load: nat)
    ensures DecayOf(load) * (2 * load + F) <= 2 * load * F < (DecayOf(load) + 1) * (2 * load + F)
  {
    var n, d := load * 2 * F, load * 2 + F;
    assert n == (n / d) * d + n % d;
  }

  ghost function Factor(load: nat): real { 2.0 * load as real / (2.0 * load as real + F as real) }

  lemma FactorBounds(load: nat)
    ensures DecayOf(load) as real <= Factor(load) * F as real < DecayOf(load) as real + 1.0
  {
    DecayExact(load);
    var a, d := DecayOf(load), 2 * load + F;
    assert (a * d) as real == a as real * d as real;
    assert ((a + 1) * d) as real == (a as real + 1.0) * d as real;
    assert Factor(load) * F as real == (2 * load * F) as real / d as real;
    Quotient(a as real, (2 * load * F) as real, d as real);
    Quotient(a as real + 1.0, (2 * load * F) as real, d as real);
  }

  lemma Quotient(a: real, n: real, d: real)
    requires d > 0.0
    ensures a * d <= n <==> a <= n / d
  {
    assert n == (n / d) * d;
    if a <= n / d { Times(a, n / d, d); } else { StrictTimes(n / d, a, d); }
  }

  lemma Times(a: real, b: real, c: real)
    requires a <= b && c >= 0.0
    ensures a * c <= b * c
  {
  }

  lemma StrictTimes(a: real, b: real, c: real)
    requires a < b && c > 0.0
    ensures a * c < b * c
  {
  }

  lemma Cancel(a: real, b: real, c: real)
    requires a * c <= b * c && c > 0.0
    ensures a <= b
  {
    if a > b { StrictTimes(b, a, c); }
  }

  lemma DecayUpper(factor: real, a: real, x: real, c: real, f: real)
    requires a <= factor * f && x >= 0.0 && f > 0.0 && c * f <= a * x
    ensures c <= factor * x
  {
    Times(a, factor * f, x);
    assert factor * f * x == factor * x * f;
    Cancel(c, factor * x, f);
  }

  lemma DecayLower(factor: real, a: real, x: real, c: real, f: real)
    requires factor * f <= a + 1.0 && x >= 0.0 && f > 0.0 && a * x <= c * f + f
    ensures factor * x - x / f - 1.0 <= c
  {
    Times(factor * f, a + 1.0, x);
    assert (a + 1.0) * x == a * x + x;
    assert factor * f * x == factor * x * f;
    assert (c + 1.0 + x / f) * f == c * f + f + x;
    Cancel(factor * x, c + 1.0 + x / f, f);
  }

  lemma CpuQuotient(a: nat, cpu: nat)
    ensures var c := (a * cpu) / F;
      c as real * F as real <= a as real * cpu as real <= c as real * F as real + F as real
  {
    var n := a * cpu;
    var c := n / F;
    assert c * F <= n < c * F + F;
    assert (c * F) as real == c as real * F as real && n as real == a as real * cpu as real;
  }

  /** One decay: the real one, less at most one unit and the part of the time that the factor lost. */
  lemma CpuExact(load: nat, cpu: nat)
    ensures Factor(load) * cpu as real - cpu as real / F as real - 1.0 <= CpuOf(load, cpu) as real <= Factor(load) * cpu as real
  {
    hide Factor, DecayOf;
    FactorBounds(load);
    CpuQuotient(DecayOf(load), cpu);
    DecayUpper(Factor(load), DecayOf(load) as real, cpu as real, CpuOf(load, cpu) as real, F as real);
    DecayLower(Factor(load), DecayOf(load) as real, cpu as real, CpuOf(load, cpu) as real, F as real);
  }

  /** Recent CPU time as a real number of ticks, with the load average as it is kept. */
  ghost function IdealCpu(seconds: seq<Second>): real {
    if seconds == [] then 0.0
    else
      var n := |seconds| - 1;
      Factor(After(seconds).0) * (IdealCpu(seconds[..n]) + seconds[n].ticks as real)
  }

  /** What rounding may cost with at most `r` threads ready a sample, in units of the last place. */
  ghost function Lag(r: nat): real { (2.0 * r as real + 1.0) * (200.0 * r as real + 101.0) }

  lemma LagPositive(r: nat)
    ensures Lag(r) >= 0.0
  {
  }

  lemma CpuUnfold(seconds: seq<Second>)
    requires seconds != []
    ensures var n := |seconds| - 1;
      && After(seconds).1 == CpuOf(After(seconds).0, After(seconds[..n]).1 + seconds[n].ticks * F)
      && IdealCpu(seconds) == Factor(After(seconds).0) * (IdealCpu(seconds[..n]) + seconds[n].ticks as real)
  {
    hide Factor, CpuOf, LoadOf;
  }

  /** Over every history recent CPU time is at most the real one, and falls short by a bounded lag. */
  lemma {:induction false} CpuTracks(seconds: seq<Second>, r: nat)
    requires r <= R_MAX && History(seconds, r)
    ensures IdealCpu(seconds) * F as real - Lag(r) <= After(seconds).1 as real <= IdealCpu(seconds) * F as real
  {
    hide Factor, Lag, CpuOf, LoadOf;
    LagPositive(r);
    if seconds != [] {
      hide After, IdealCpu;
      CpuUnfold(seconds);
      var n := |seconds| - 1;
      CpuTracks(seconds[..n], r);
      EveryRunIsBounded(seconds[..n], r, seconds[n].ticks);
      EveryRunIsBounded(seconds, r, 0);
      CpuStep(After(seconds).0, After(seconds[..n]).1, IdealCpu(seconds[..n]), seconds[n].ticks, r, IdealCpu(seconds));
    }
  }

  lemma RatioMost(q: real, x: real, f: real, k: real)
    requires q * (x + f) == x && 0.0 <= x <= k * f && f > 0.0
    ensures q * (k + 1.0) <= k
  {
    assert q * (k + 1.0) * (x + f) == q * (x + f) * (k + 1.0);
    assert x * (k + 1.0) == k * x + x;
    assert k * (x + f) == k * x + k * f;
    Cancel(q * (k + 1.0), k, x + f);
  }

  lemma FactorMost(load: nat, r: nat)
    requires load <= r * F
    ensures 0.0 <= Factor(load) && Factor(load) * (2.0 * r as real + 1.0) <= 2.0 * r as real
  {
    var x, f, k := 2.0 * load as real, F as real, 2.0 * r as real;
    assert (r * F) as real == r as real * f;
    assert Factor(load) == x / (x + f) && Factor(load) * (x + f) == x;
    RatioMost(Factor(load), x, f, k);
  }

  lemma LagStep(factor: real, y: real, x: real, lag: real, loss: real, c: real)
    requires factor >= 0.0 && y - lag <= x <= y && factor * x - loss <= c <= factor * x && factor * lag + loss <= lag
    ensures factor * y - lag <= c <= factor * y
  {
    Times(x, y, factor);
    Times(y - lag, x, factor);
    assert factor * (y - lag) == factor * y - factor * lag;
  }

  lemma LagHolds(factor: real, k: real, w: real)
    requires factor * (k + 1.0) <= k && w >= 0.0
    ensures factor * ((k + 1.0) * w) + w <= (k + 1.0) * w
  {
    Times(factor * (k + 1.0), k, w);
    assert factor * ((k + 1.0) * w) == factor * (k + 1.0) * w;
  }

  lemma Loss(x: nat, r: nat)
    requires x <= (200 * r + 100) * F
    ensures x as real / F as real + 1.0 <= 200.0 * r as real + 101.0
  {
    assert ((200 * r + 100) * F) as real == (200.0 * r as real + 100.0) * F as real;
    Quotient(200.0 * r as real + 100.0, x as real, F as real);
  }

  lemma CpuStep(load: nat, cpu: nat, ideal: real, ticks: nat, r: nat, next: real)
    requires load <= r * F && cpu + ticks * F <= (200 * r + 100) * F
    requires ideal * F as real - Lag(r) <= cpu as real <= ideal * F as real
    requires next == Factor(load) * (ideal + ticks as real)
    ensures next * F as real - Lag(r) <= CpuOf(load, cpu + ticks * F) as real <= next * F as real
  {
    hide Factor, CpuOf;
    var x, y := cpu + ticks * F, (ideal + ticks as real) * F as real;
    assert x as real == cpu as real + ticks as real * F as real;
    CpuExact(load, x);
    FactorMost(load, r);
    Loss(x, r);
    LagHolds(Factor(load), 2.0 * r as real, 200.0 * r as real + 101.0);
    LagStep(Factor(load), y, x as real, Lag(r), 200.0 * r as real + 101.0, CpuOf(load, x) as real);
    assert Factor(load) * y == next * F as real;
  }

  // ---- priorities

  /** Four times the priority in fixed point, before it is cut to the range: the highest one, less a
      quarter of the recent CPU time and the nice value. */
  function Quadruple(cpu: int, nice: int, mls: bool): int { 4 * PRI_MAX * F - cpu - if mls then 4 * nice * F else 0 }

  /** The priority is that, rounded down, within the range. */
  lemma PriorityExact(cpu: int, nice: int, mls: bool)
    requires 0 <= cpu && Fits(cpu) && NiceOk(nice)
    ensures var p, x := NextPriority(cpu, nice, mls), Quadruple(cpu, nice, mls);
      && (p < PRI_MAX ==> x < 4 * F * (p + 1)) && (p > PRI_MIN ==> 4 * F * p < x + 4)
  {
  }

  lemma DivMonotone(a: nat, b: nat, c: nat)
    requires a <= b && c > 0
    ensures a / c <= b / c
  {
    Numbers.DivBounds(a, c);
    Numbers.DivBounds(b, c);
    if a / c > b / c { Monotone(b / c + 1, a / c, c); }
  }

  lemma TDivMonotone(a: int, b: int, c: int)
    requires a <= b && c > 0
    ensures TDiv(a, c) <= TDiv(b, c)
  {
    if a >= 0 {
      DivMonotone(a, b, c);
    } else if b < 0 {
      DivMonotone(-b, -a, c);
    } else {
      DivMonotone(0, b, c);
      DivMonotone(0, -a, c);
    }
  }

  /** Neither more CPU time nor a larger nice value raises the priority. */
  lemma PriorityFalls(cpu: int, cpu': int, nice: int, nice': int, mls: bool)
    requires 0 <= cpu <= cpu' && Fits(cpu') && NiceOk(nice) && NiceOk(nice') && nice <= nice'
    ensures NextPriority(cpu', nice', mls) <= NextPriority(cpu, nice, mls)
    ensures NextPriority(0, 0, mls) == PRI_MAX
  {
    TDivMonotone(cpu, cpu', 4);
    var x := PRI_MAX * F - TDiv(cpu, 4) - if mls then nice * F else 0;
    var x' := PRI_MAX * F - TDiv(cpu', 4) - if mls then nice' * F else 0;
    TDivMonotone(x', x, F);
  }

  /** Two threads over the same seconds, of which the first never ran for more ticks. */
  predicate RanLess(a: seq<Second>, b: seq<Second>) {
    |a| == |b| && forall i :: 0 <= i < |a| ==> a[i].ready == b[i].ready && a[i].ticks <= b[i].ticks
  }

  lemma CpuMonotone(load: nat, cpu: nat, cpu': nat)
    requires cpu <= cpu'
    ensures CpuOf(load, cpu) <= CpuOf(load, cpu')
  {
    Monotone(cpu, cpu', DecayOf(load));
    TDivMonotone(DecayOf(load) * cpu, DecayOf(load) * cpu', F);
  }

  lemma {:induction false} LessCpu(a: seq<Second>, b: seq<Second>)
    requires RanLess(a, b)
    ensures After(a).0 == After(b).0 && After(a).1 <= After(b).1
  {
    if a != [] {
      var n := |a| - 1;
      LessCpu(a[..n], b[..n]);
      CpuMonotone(After(a).0, After(a[..n]).1 + a[n].ticks * F, After(b[..n]).1 + b[n].ticks * F);
    }
  }

  /** In every run of the clock a thread that has run for no more ticks in any second, and is not
      nicer, gets no lower a priority at the sample. */
  lemma LessRunsFirst(a: seq<Second>, b: seq<Second>, r: nat, nice: int, nice': int, mls: bool)
    requires RanLess(a, b) && r <= R_MAX && History(b, r) && NiceOk(nice) && NiceOk(nice') && nice <= nice'
    ensures Fits(After(a).1) && Fits(After(b).1)
    ensures NextPriority(After(b).1, nice', mls) <= NextPriority(After(a).1, nice, mls)
  {
    LessCpu(a, b);
    EveryRunIsBounded(b, r, 0);
    PriorityFalls(After(a).1, After(b).1, nice, nice', mls);
  }
}
