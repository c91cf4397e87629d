/** GPU sampling (src/blackwell_lab/cloud/telemetry.py): the energy integral, the
    95th percentile and the sampler that brackets one repetition. Quantities are
    exact reals; the source rounds them when it reports. */
module Telemetry {
  import opened Common
  import opened RealAverages
  import opened Ordering

  const MIN_SAMPLING_COVERAGE := 0.8

  datatype Sample = Sample(at: real, utilization: real, memory: real, power: real, temperature: real)

  datatype Fault = TooFewSamples | EmptyWindow | NotIncreasing | LowCoverage | SamplingFailed | NeverBracketed

  datatype Summary = Summary(
    utilizationMean: real, utilizationP95: real, memoryPeak: real, powerMean: real, energy: real,
    energyPerTask: Option<real>, count: nat, window: real, covered: real, coverage: real,
    intervalMean: real, intervalMax: real, peakTemperature: real)

  // ---- means and extremes -------------------------------------------------

  function Mean(s: seq<real>): real
    requires s != []
  {
    Sum(s) / |s| as real
  }

  function Max(s: seq<real>): (m: real)
    requires s != []
    ensures m in s && forall x :: x in s ==> x <= m
  {
    var n := |s| - 1;
    assert s == s[..n] + [s[n]];
    if n == 0 then s[0]
    else
      var front := Max(s[..n]);
      if front < s[n] then s[n] else front
  }

  function Utilizations(s: seq<Sample>): (r: seq<real>)
    ensures |r| == |s|
  {
    seq(|s|, i requires 0 <= i < |s| => s[i].utilization)
  }

  function Memories(s: seq<Sample>): (r: seq<real>)
    ensures |r| == |s|
  {
    seq(|s|, i requires 0 <= i < |s| => s[i].memory)
  }

  function Temperatures(s: seq<Sample>): (r: seq<real>)
    ensures |r| == |s|
  {
    seq(|s|, i requires 0 <= i < |s| => s[i].temperature)
  }

  // A sum lies between |s| times a lower and |s| times an upper bound.
  lemma {:induction false} SumBounds(s: seq<real>, lo: real, hi: real)
    requires forall i :: 0 <= i < |s| ==> lo <= s[i] <= hi
    ensures Accumulates(lo, hi, |s| as real, Sum(s))
  {
    hide Accumulates;
    OneStep(lo, hi, if s == [] then 0.0 else s[|s| - 1]);
    if s != [] {
      var n := |s| - 1;
      SumBounds(s[..n], lo, hi);
      BoundsAdd(lo, hi, n as real, Sum(s[..n]), 1.0, s[n]);
    }
  }

  // ---- the trapezoidal integral -------------------------------------------

  predicate Increasing(s: seq<Sample>) {
    forall i :: 0 < i < |s| ==> s[i - 1].at < s[i].at
  }

  predicate PowerWithin(s: seq<Sample>, lo: real, hi: real) {
    forall i :: 0 <= i < |s| ==> lo <= s[i].power <= hi
  }

  function Trapezoid(a: Sample, b: Sample): real {
    (a.power + b.power) / 2.0 * (b.at - a.at)
  }

  function Intervals(s: seq<Sample>): seq<real> {
    if |s| < 2 then [] else Intervals(s[..|s| - 1]) + [s[|s| - 1].at - s[|s| - 2].at]
  }

  function Energy(s: seq<Sample>): real {
    if |s| < 2 then 0.0 else Energy(s[..|s| - 1]) + Trapezoid(s[|s| - 2], s[|s| - 1])
  }

  function Span(s: seq<Sample>): real {
    if s == [] then 0.0 else s[|s| - 1].at - s[0].at
  }

  // The intervals are positive and partition the sampled span.
  lemma {:induction false} IntervalsPartition(s: seq<Sample>)
    requires s != []
    ensures |Intervals(s)| == |s| - 1 && Sum(Intervals(s)) == Span(s)
    ensures Increasing(s) ==> forall d :: d in Intervals(s) ==> d > 0.0
  {
    if |s| >= 2 {
      var n := |s| - 1;
      IntervalsPartition(s[..n]);
      var last := s[n].at - s[n - 1].at;
      assert (Intervals(s[..n]) + [last])[..n - 1] == Intervals(s[..n]);
    }
  }

  lemma TrapezoidBounds(a: Sample, b: Sample, lo: real, hi: real)
    requires lo <= a.power <= hi && lo <= b.power <= hi && a.at <= b.at
    ensures Accumulates(lo, hi, b.at - a.at, Trapezoid(a, b))
  {
    ProductBounds(lo, (a.power + b.power) / 2.0, hi, b.at - a.at);
  }

  lemma EnergyStep(s: seq<Sample>)
    requires |s| >= 2
    ensures var n := |s| - 1;
            && Energy(s) == Energy(s[..n]) + Trapezoid(s[n - 1], s[n])
            && Span(s) == Span(s[..n]) + (s[n].at - s[n - 1].at)
  {
  }

  // The energy lies between the least and the greatest sampled power over the
  // covered span, so constant power integrates to power times time.
  lemma {:induction false} EnergyBounds(s: seq<Sample>, lo: real, hi: real)
    requires Increasing(s) && PowerWithin(s, lo, hi)
    ensures Accumulates(lo, hi, Span(s), Energy(s))
  {
    hide Accumulates, Trapezoid;
    OneStep(lo, hi, 0.0);
    if |s| >= 2 {
      var n := |s| - 1;
      var front := s[..n];
      EnergyBounds(front, lo, hi);
      var d := s[n].at - s[n - 1].at;
      TrapezoidBounds(s[n - 1], s[n], lo, hi);
      EnergyStep(s);
      BoundsAdd(lo, hi, Span(front), Energy(front), d, Trapezoid(s[n - 1], s[n]));
    }
  }

  // Splitting a series at a sample adds the energies.
  lemma {:induction false} EnergySplits(s: seq<Sample>, m: nat)
    requires m < |s|
    ensures Energy(s) == Energy(s[..m + 1]) + Energy(s[m..])
    decreases |s|
  {
    var n := |s| - 1;
    if m == n {
      assert s[..m + 1] == s;
    } else {
      EnergySplits(s[..n], m);
      assert s[..n][..m + 1] == s[..m + 1];
      assert s[m..][..n - m] == s[..n][m..];
      assert s[m..][n - m] == s[n] && s[m..][n - m - 1] == s[n - 1];
    }
  }

  // Power that changes at a constant rate.
  function Line(c: real, k: real, at: real): real {
    c + k * at
  }

  predicate Linear(s: seq<Sample>, c: real, k: real) {
    forall i :: 0 <= i < |s| ==> s[i].power == Line(c, k, s[i].at)
  }

  // The integral of that power from zero.
  function Ramp(c: real, k: real, at: real): real {
    c * at + k * (at * at) / 2.0
  }

  lemma RampStep(c: real, k: real, x: real, y: real)
    ensures Fills((Line(c, k, x) + Line(c, k, y)) / 2.0, y - x, Ramp(c, k, y) - Ramp(c, k, x))
  {
    var p, q := k * x, k * y;
    assert p * y == q * x;
    assert (p + q) * (y - x) == p * y - p * x + q * y - q * x;
    assert q * y == k * (y * y) && p * x == k * (x * x);
    assert (2.0 * c + p + q) / 2.0 * (y - x) == c * (y - x) + (p + q) * (y - x) / 2.0;
  }

  lemma TrapezoidFills(a: Sample, b: Sample)
    ensures Fills((a.power + b.power) / 2.0, b.at - a.at, Trapezoid(a, b))
  {
  }

  lemma LinearTrapezoid(a: Sample, b: Sample, c: real, k: real)
    requires a.power == Line(c, k, a.at) && b.power == Line(c, k, b.at)
    ensures Trapezoid(a, b) == Ramp(c, k, b.at) - Ramp(c, k, a.at)
  {
    hide Trapezoid, Ramp, Line, Fills;
    TrapezoidFills(a, b);
    RampStep(c, k, a.at, b.at);
    SameTotal((a.power + b.power) / 2.0, b.at - a.at, Trapezoid(a, b), Ramp(c, k, b.at) - Ramp(c, k, a.at));
  }

  lemma {:induction false} LinearEnergy(s: seq<Sample>, c: real, k: real)
    requires s != [] && Linear(s, c, k)
    ensures Energy(s) == Ramp(c, k, s[|s| - 1].at) - Ramp(c, k, s[0].at)
  {
    hide Ramp, Line, Trapezoid;
    if |s| >= 2 {
      var n := |s| - 1;
      LinearEnergy(s[..n], c, k);
      LinearTrapezoid(s[n - 1], s[n], c, k);
    }
  }

  lemma LinearMean(s: seq<Sample>, c: real, k: real)
    requires s != [] && Linear(s, c, k)
    ensures Fills((s[0].power + s[|s| - 1].power) / 2.0, Span(s), Energy(s))
  {
    hide Energy, Ramp, Line, Fills;
    LinearEnergy(s, c, k);
    RampStep(c, k, s[0].at, s[|s| - 1].at);
  }

  lemma MidPower(c: real, k: real, x: real, y: real)
    ensures (Line(c, k, x) + Line(c, k, y)) / 2.0 == Line(c, k, (x + y) / 2.0)
  {
  }

  // The integral is exact for power that changes at a constant rate: the power
  // at the middle of the covered span, over that span.
  lemma LinearPowerIsExact(s: seq<Sample>, c: real, k: real)
    requires s != [] && Linear(s, c, k)
    ensures Fills(Line(c, k, (s[0].at + s[|s| - 1].at) / 2.0), Span(s), Energy(s))
  {
    LinearMean(s, c, k);
    MidPower(c, k, s[0].at, s[|s| - 1].at);
    hide Energy, Span, Fills, Line;
  }

  // The same samples with time running backwards.
  function Backwards(s: seq<Sample>): (r: seq<Sample>)
    ensures |r| == |s|
    ensures forall i :: 0 <= i < |s| ==> r[i] == s[|s| - 1 - i].(at := -s[|s| - 1 - i].at)
  {
    seq(|s|, i requires 0 <= i < |s| => s[|s| - 1 - i].(at := -s[|s| - 1 - i].at))
  }

  // Energy does not depend on the direction of time.
  lemma {:induction false} EnergyIsReversible(s: seq<Sample>)
    ensures Energy(Backwards(s)) == Energy(s)
  {
    if |s| >= 2 {
      var n := |s| - 1;
      var b := Backwards(s);
      EnergyIsReversible(s[..n]);
      EnergySplits(b, 1);
      assert b[1..] == Backwards(s[..n]);
      var first := b[..2];
      assert first[..1] == [b[0]] && Energy([b[0]]) == 0.0;
      assert Energy(first) == Trapezoid(b[0], b[1]);
      ReversedTrapezoid(s[n - 1], s[n]);
    }
  }

  lemma ReversedTrapezoid(a: Sample, b: Sample)
    ensures Trapezoid(b.(at := -b.at), a.(at := -a.at)) == Trapezoid(a, b)
  {
  }

  // ---- the nearest-rank percentile ----------------------------------------

  predicate RealLeq(a: real, b: real) {
    a <= b
  }

  // max(1, -(-n * 95 // 100)) for a positive n.
  function P95Rank(n: nat): nat {
    var ceiling := -((-(n as int) * 95) / 100);
    if ceiling < 1 then 1 else ceiling
  }

  // The rank is the least one that covers 95 percent, and it is a position.
  lemma P95RankIsLeast(n: nat)
    requires n > 0
    ensures 1 <= P95Rank(n) <= n
    ensures forall r: nat :: 100 * r >= 95 * n <==> r >= P95Rank(n)
  {
    var q := (-(n as int) * 95) / 100;
    assert 100 * q <= -(n as int) * 95 < 100 * q + 100;
  }

  // max(1, ceil(q * n)), as the latency summaries take it.
  function NearestRank(n: nat, q: real): int {
    var up := -((-(q * n as real)).Floor);
    if up < 1 then 1 else up
  }

  // The sampler and the latency summaries take the same rank.
  lemma RanksAgree(n: nat)
    requires n > 0
    ensures NearestRank(n, 0.95) == P95Rank(n)
  {
    P95RankIsLeast(n);
    var up := -((-(0.95 * n as real)).Floor);
    assert 0.95 * n as real <= up as real < 0.95 * n as real + 1.0;
    assert 95.0 * n as real <= 100.0 * up as real < 95.0 * n as real + 100.0;
    assert 95 * n <= 100 * up < 95 * n + 100;
    assert up >= 1;
    var r: nat := up;
    assert 100 * r >= 95 * n;
    var below: nat := r - 1;
    assert 100 * below < 95 * n;
  }

  function Count(s: seq<real>, p: real -> bool): (c: nat)
    ensures c <= |s|
  {
    if s == [] then 0 else Count(s[1..], p) + (if p(s[0]) then 1 else 0)
  }

  // At least k when the first k satisfy p; at most k when the rest do not.
  lemma {:induction false} CountAround(s: seq<real>, k: nat, p: real -> bool)
    requires k <= |s|
    ensures (forall i :: 0 <= i < k ==> p(s[i])) ==> Count(s, p) >= k
    ensures (forall i :: k <= i < |s| ==> !p(s[i])) ==> Count(s, p) <= k
  {
    if s != [] {
      var tail := s[1..];
      CountAround(tail, if k > 0 then k - 1 else 0, p);
      assert forall i :: 0 <= i < |tail| ==> tail[i] == s[i + 1];
    }
  }

  lemma {:induction false} CountInsert(x: real, s: seq<real>, p: real -> bool)
    ensures Count(Insert(x, s, RealLeq), p) == Count([x] + s, p)
  {
    assert ([x] + s)[1..] == s;
    if s != [] && !RealLeq(x, s[0]) {
      CountInsert(x, s[1..], p);
      assert ([x] + s[1..])[1..] == s[1..];
      var r := Insert(x, s[1..], RealLeq);
      assert ([s[0]] + r)[1..] == r;
    }
  }

  lemma {:induction false} CountSort(s: seq<real>, p: real -> bool)
    ensures Count(Sort(s, RealLeq), p) == Count(s, p)
  {
    if s != [] {
      CountSort(s[1..], p);
      CountInsert(s[0], Sort(s[1..], RealLeq), p);
      var sorted := Sort(s[1..], RealLeq);
      assert ([s[0]] + sorted)[1..] == sorted;
    }
  }

  // v is an observation with at least 95 percent of the observations at or
  // below it and fewer than 95 percent strictly below it.
  predicate IsP95(v: real, s: seq<real>) {
    && v in s
    && 100 * Count(s, x => x <= v) >= 95 * |s|
    && 100 * Count(s, x => x < v) < 95 * |s|
  }

  function P95(s: seq<real>): real
    requires s != []
  {
    P95RankIsLeast(|s|);
    Sort(s, RealLeq)[P95Rank(|s|) - 1]
  }

  lemma RealLeqIsTotal()
    ensures TotalPreorder(RealLeq)
  {
  }

  lemma CountsAtRank(a: seq<real>, r: nat)
    requires Sorted(a, RealLeq) && 1 <= r <= |a|
    ensures Count(a, x => x <= a[r - 1]) >= r
    ensures Count(a, x => x < a[r - 1]) <= r - 1
  {
    var v := a[r - 1];
    forall i | 0 <= i < |a| ensures (i < r ==> a[i] <= v) && (r - 1 <= i ==> v <= a[i]) {
      assert i < r - 1 ==> RealLeq(a[i], a[r - 1]);
      assert r - 1 < i ==> RealLeq(a[r - 1], a[i]);
    }
    CountAround(a, r, x => x <= a[r - 1]);
    CountAround(a, r - 1, x => x < a[r - 1]);
  }

  // The reported value is the 95th percentile of the unsorted samples, and no
  // other observation is.
  lemma P95IsThePercentile(s: seq<real>, w: real)
    requires s != []
    ensures IsP95(P95(s), s)
    ensures IsP95(w, s) ==> w == P95(s)
  {
    var a, v, r := Sort(s, RealLeq), P95(s), P95Rank(|s|);
    P95RankIsLeast(|s|);
    RealLeqIsTotal();
    SortSorted(s, RealLeq);
    SortMembers(s, RealLeq);
    CountsAtRank(a, r);
    CountSort(s, x => x <= v);
    CountSort(s, x => x < v);
    if IsP95(w, s) {
      PercentilesAgree(s, v, w);
      PercentilesAgree(s, w, v);
    }
  }

  lemma {:induction false} CountMonotone(s: seq<real>, p: real -> bool, q: real -> bool)
    requires forall x :: p(x) ==> q(x)
    ensures Count(s, p) <= Count(s, q)
  {
    if s != [] {
      CountMonotone(s[1..], p, q);
    }
  }

  lemma PercentilesAgree(s: seq<real>, v: real, w: real)
    requires IsP95(v, s) && IsP95(w, s)
    ensures !(v < w)
  {
    if v < w {
      CountMonotone(s, x => x <= v, x => x < w);
      assert false;
    }
  }

  // ---- summarize_gpu_samples ----------------------------------------------

  function SummarizeGpuSamples(s: seq<Sample>, started: real, ended: real, successfulTasks: int, minCoverage: real)
    : Result<Summary, Fault>
  {
    if |s| < 2 then Err(TooFewSamples)
    else if ended <= started then Err(EmptyWindow)
    else if !Increasing(s) then Err(NotIncreasing)
    else
      var window := ended - started;
      var covered := Span(s);
      if covered / window < minCoverage then Err(LowCoverage)
      else
        IntervalsPartition(s);
        SpanPositive(s);
        var intervals := Intervals(s);
        var utilizations := Utilizations(s);
        Ok(Summary(
             Mean(utilizations), P95(utilizations), Max(Memories(s)), Energy(s) / covered,
             Energy(s), if successfulTasks > 0 then Some(Energy(s) / successfulTasks as real) else None,
             |s|, window, covered, covered / window,
             Mean(intervals), Max(intervals), Max(Temperatures(s))))
  }

  lemma {:induction false} SpanPositive(s: seq<Sample>)
    requires |s| >= 2 && Increasing(s)
    ensures Span(s) > 0.0
  {
    if |s| > 2 {
      SpanPositive(s[..|s| - 1]);
    }
  }

  predicate Inside(s: seq<Sample>, started: real, ended: real) {
    forall i :: 0 <= i < |s| ==> started <= s[i].at <= ended
  }

  // A summary exists exactly for an integrable series over a real window with
  // enough coverage.
  lemma SummaryExistsExactly(s: seq<Sample>, started: real, ended: real, tasks: int, minCoverage: real)
    ensures SummarizeGpuSamples(s, started, ended, tasks, minCoverage).Ok? <==>
            |s| >= 2 && started < ended && Increasing(s) && Span(s) / (ended - started) >= minCoverage
  {
    hide Sum, Energy, Intervals, P95;
  }

  // The energy and the mean power agree with the sampled powers.
  lemma SummaryEnergy(s: seq<Sample>, started: real, ended: real, tasks: int, minCoverage: real, lo: real, hi: real)
    requires PowerWithin(s, lo, hi)
    requires SummarizeGpuSamples(s, started, ended, tasks, minCoverage).Ok?
    ensures var r := SummarizeGpuSamples(s, started, ended, tasks, minCoverage).value;
            Accumulates(lo, hi, r.covered, r.energy) && lo <= r.powerMean <= hi
  {
    EnergyBounds(s, lo, hi);
    SpanPositive(s);
    DivisionBounds(lo, hi, Span(s), Energy(s));
    hide Sum, Energy, Intervals, P95, Span, Accumulates;
  }

  // For power that changes at a constant rate the reported energy is the exact
  // integral and the mean power the mean of the first and the last.
  lemma SummaryOfLinearPower(
      s: seq<Sample>, started: real, ended: real, tasks: int, minCoverage: real, c: real, k: real)
    requires Linear(s, c, k)
    requires SummarizeGpuSamples(s, started, ended, tasks, minCoverage).Ok?
    ensures var r := SummarizeGpuSamples(s, started, ended, tasks, minCoverage).value;
            && r.powerMean == (s[0].power + s[|s| - 1].power) / 2.0
            && Fills(r.powerMean, r.covered, r.energy)
  {
    hide SummarizeGpuSamples, Energy, Linear, Line, Span, Fills;
    ReportedEnergy(s, started, ended, tasks, minCoverage);
    LinearMean(s, c, k);
    var r := SummarizeGpuSamples(s, started, ended, tasks, minCoverage).value;
    SameMean(r.powerMean, (s[0].power + s[|s| - 1].power) / 2.0, Span(s), Energy(s));
  }

  lemma ReportedEnergy(s: seq<Sample>, started: real, ended: real, tasks: int, minCoverage: real)
    requires SummarizeGpuSamples(s, started, ended, tasks, minCoverage).Ok?
    ensures |s| >= 2 && Span(s) > 0.0
    ensures var r := SummarizeGpuSamples(s, started, ended, tasks, minCoverage).value;
            r.energy == Energy(s) && r.covered == Span(s) && Fills(r.powerMean, r.covered, r.energy)
  {
    SpanPositive(s);
    QuotientFills(Energy(s), Span(s));
    hide Sum, Energy, Intervals, P95, Span;
  }

  // Each remaining figure comes from its own column of the samples: the peaks
  // are the greatest memory and temperature, the mean utilization accounts for
  // all of the utilization, and the energy of a task is its equal share.
  lemma SummaryColumns(s: seq<Sample>, started: real, ended: real, tasks: int, minCoverage: real)
    requires SummarizeGpuSamples(s, started, ended, tasks, minCoverage).Ok?
    ensures var r := SummarizeGpuSamples(s, started, ended, tasks, minCoverage).value;
            && (exists i :: 0 <= i < |s| && s[i].memory == r.memoryPeak)
            && (forall i :: 0 <= i < |s| ==> s[i].memory <= r.memoryPeak)
            && (exists i :: 0 <= i < |s| && s[i].temperature == r.peakTemperature)
            && (forall i :: 0 <= i < |s| ==> s[i].temperature <= r.peakTemperature)
            && Averages(r.utilizationMean, |s|, Sum(Utilizations(s)))
            && (r.energyPerTask.Some? <==> tasks > 0)
            && (tasks > 0 ==> Averages(r.energyPerTask.value, tasks, r.energy))
            && r.count == |s| && r.window == ended - started && r.covered == s[|s| - 1].at - s[0].at
  {
    var r := SummarizeGpuSamples(s, started, ended, tasks, minCoverage).value;
    SpanPositive(s);
    var memories, temperatures := Memories(s), Temperatures(s);
    assert r.memoryPeak == Max(memories) && r.peakTemperature == Max(temperatures);
    var i :| 0 <= i < |memories| && memories[i] == Max(memories);
    assert s[i].memory == r.memoryPeak;
    var j :| 0 <= j < |temperatures| && temperatures[j] == Max(temperatures);
    assert s[j].temperature == r.peakTemperature;
    forall k | 0 <= k < |s| ensures s[k].memory <= r.memoryPeak && s[k].temperature <= r.peakTemperature {
      assert memories[k] in memories && temperatures[k] in temperatures;
    }
    MeanBelowMax(Utilizations(s));
    if tasks > 0 {
      ShareAverages(Energy(s), tasks);
    }
    hide Sum, Energy, Intervals, P95, Max, Averages;
  }

  lemma ShareAverages(x: real, n: nat)
    requires n > 0
    ensures Averages(x / n as real, n, x)
  {
  }

  // The mean interval times the number of intervals is the covered span, and no
  // interval is longer than the reported maximum.
  lemma SummaryIntervals(s: seq<Sample>, started: real, ended: real, tasks: int, minCoverage: real)
    requires SummarizeGpuSamples(s, started, ended, tasks, minCoverage).Ok?
    ensures var r := SummarizeGpuSamples(s, started, ended, tasks, minCoverage).value;
            && |Intervals(s)| == |s| - 1 && Averages(r.intervalMean, |Intervals(s)|, r.covered)
            && 0.0 < r.intervalMean <= r.intervalMax
  {
    ReportedIntervals(s, started, ended, tasks, minCoverage);
    hide SummarizeGpuSamples, Mean, Averages;
    IntervalsPartition(s);
    SpanPositive(s);
    MeanBelowMax(Intervals(s));
  }

  lemma ReportedIntervals(s: seq<Sample>, started: real, ended: real, tasks: int, minCoverage: real)
    requires SummarizeGpuSamples(s, started, ended, tasks, minCoverage).Ok?
    ensures var r := SummarizeGpuSamples(s, started, ended, tasks, minCoverage).value;
            && |s| >= 2 && Increasing(s) && Intervals(s) != [] && r.covered == Span(s)
            && r.intervalMean == Mean(Intervals(s)) && r.intervalMax == Max(Intervals(s))
  {
    hide Sum, Energy, P95, Span, Mean;
  }

  lemma MeanBelowMax(s: seq<real>)
    requires s != []
    ensures Mean(s) <= Max(s) && Averages(Mean(s), |s|, Sum(s))
    ensures Sum(s) > 0.0 ==> Mean(s) > 0.0
  {
    hide Accumulates, Mean, Averages;
    var lo := -Max(Negated(s));
    forall i | 0 <= i < |s| ensures lo <= s[i] <= Max(s) {
      assert Negated(s)[i] in Negated(s);
      assert s[i] in s;
    }
    SumBounds(s, lo, Max(s));
    MeanBounds(s, lo, Max(s));
  }

  lemma MeanBounds(s: seq<real>, lo: real, hi: real)
    requires s != [] && Accumulates(lo, hi, |s| as real, Sum(s))
    ensures lo <= Mean(s) <= hi && Averages(Mean(s), |s|, Sum(s))
    ensures Sum(s) > 0.0 ==> Mean(s) > 0.0
  {
    DivisionBounds(lo, hi, |s| as real, Sum(s));
    hide Accumulates, Sum;
    if Sum(s) > 0.0 {
      PositiveQuotient(Sum(s), |s| as real);
    }
  }

  function Negated(s: seq<real>): (r: seq<real>)
    ensures |r| == |s|
  {
    seq(|s|, i requires 0 <= i < |s| => -s[i])
  }

  // The reported utilization is the 95th percentile of the samples as taken,
  // and samples inside the window cover a positive fraction of it.
  lemma SummaryPercentile(s: seq<Sample>, started: real, ended: real, tasks: int, minCoverage: real)
    requires SummarizeGpuSamples(s, started, ended, tasks, minCoverage).Ok?
    ensures var r := SummarizeGpuSamples(s, started, ended, tasks, minCoverage).value;
            && IsP95(r.utilizationP95, Utilizations(s))
            && 0.0 < r.coverage
            && (r.coverage <= 1.0 <==> Span(s) <= ended - started)
            && (Inside(s, started, ended) ==> r.coverage <= 1.0)
  {
    P95IsThePercentile(Utilizations(s), 0.0);
    CoverageBounds(s, started, ended);
    hide Sum, Energy, Intervals, P95, IsP95, Span;
  }

  lemma CoverageBounds(s: seq<Sample>, started: real, ended: real)
    requires |s| >= 2 && Increasing(s) && started < ended
    ensures Span(s) / (ended - started) > 0.0
    ensures Span(s) / (ended - started) <= 1.0 <==> Span(s) <= ended - started
    ensures Inside(s, started, ended) ==> Span(s) / (ended - started) <= 1.0
  {
    SpanPositive(s);
    var window := ended - started;
    AtMostOne(Span(s), window);
    if Inside(s, started, ended) {
      assert s[0] in s && s[|s| - 1] in s;
      DivisionBounds(0.0, 1.0, window, Span(s));
    }
  }

  lemma AtMostOne(x: real, d: real)
    requires d > 0.0
    ensures x / d <= 1.0 <==> x <= d
  {
    assert x / d * d == x;
  }

  lemma {:induction false} FirstIsEarliest(s: seq<Sample>)
    requires Increasing(s)
    ensures forall i :: 0 <= i < |s| ==> s[0].at <= s[i].at
  {
    if s != [] {
      FirstIsEarliest(s[..|s| - 1]);
      assert |s| > 1 ==> s[..|s| - 1][|s| - 2] == s[|s| - 2];
    }
  }

  // ---- the sampler --------------------------------------------------------

  // Readings of a monotonic clock: never earlier than the previous one.
  class GpuSampler {
    var samples: seq<Sample>
    var failed: bool
    var started: Option<real>
    var ended: Option<real>
    var running: bool
    ghost var clock: real
    ghost var retained: nat  // samples kept from before the current start

    ghost predicate Valid()
      reads this
    {
      && retained <= |samples|
      && (running ==> started.Some?)
      && (samples != [] ==> started.Some?)
      && (started.Some? ==> started.value <= clock)
      && (ended.Some? ==> ended.value <= clock)
      && (forall i :: 0 <= i < |samples| ==> samples[i].at <= clock)
      && (forall i :: retained <= i < |samples| ==> started.value <= samples[i].at)
      && (!running && ended.Some? && started.Some? ==>
            started.value <= ended.value && forall i :: 0 <= i < |samples| ==> samples[i].at <= ended.value)
    }

    constructor (now: real)
      ensures Valid() && samples == [] && !failed && started.None? && ended.None? && !running && clock == now
    {
      samples, failed, started, ended, running := [], false, None, None, false;
      clock, retained := now, 0;
    }

    // A second start while a thread exists is refused.
    method Start(now: real) returns (ok: bool)
      requires Valid() && clock <= now
      modifies this
      ensures Valid() && ok == !old(running)
      ensures ok ==> started == Some(now) && running && retained == |old(samples)|
      ensures !ok ==> started == old(started) && running && retained == old(retained)
      ensures samples == old(samples) && failed == old(failed) && ended == old(ended) && clock == now
    {
      clock := now;
      if running {
        return false;
      }
      started, running, retained := Some(now), true, |samples|;
      return true;
    }

    // One turn of the sampling loop; the first failure ends it.
    method Sample(reading: Option<Sample>)
      requires Valid() && running && !failed
      requires reading.Some? ==> clock <= reading.value.at
      modifies this
      ensures Valid() && running && started == old(started) && ended == old(ended) && retained == old(retained)
      ensures reading.Some? ==> samples == old(samples) + [reading.value] && !failed && clock == reading.value.at
      ensures reading.None? ==> samples == old(samples) && failed && clock == old(clock)
    {
      if reading.None? {
        failed := true;
        return;
      }
      samples, clock := samples + [reading.value], reading.value.at;
    }

    method Stop(now: real)
      requires Valid() && clock <= now
      modifies this
      ensures Valid() && !running && ended == Some(now) && clock == now
      ensures samples == old(samples) && failed == old(failed) && started == old(started) && retained == old(retained)
    {
      running, ended, clock := false, Some(now), now;
    }

    // What it reports covers a positive part of the window. The samples lie in
    // the window exactly when the first one does not precede the last start, as
    // for a sampler started once, and the coverage is at most one exactly when
    // first and last sample are no further apart than start and stop.
    method Summary(successfulTasks: int) returns (r: Result<Summary, Fault>)
      requires Valid() && !running
      ensures r.Ok? ==> !failed && started.Some? && ended.Some? && 0.0 < r.value.coverage
      ensures r.Ok? && retained == 0 ==> Inside(samples, started.value, ended.value) && r.value.coverage <= 1.0
      ensures r.Ok? ==>
                && samples != []
                && (Inside(samples, started.value, ended.value) <==> retained == 0 || started.value <= samples[0].at)
                && (r.value.coverage <= 1.0 <==>
                    samples[|samples| - 1].at - samples[0].at <= ended.value - started.value)
      ensures failed ==> r == Err(SamplingFailed)
      ensures !failed && started.Some? && ended.Some? ==>
                r == SummarizeGpuSamples(samples, started.value, ended.value, successfulTasks, MIN_SAMPLING_COVERAGE)
    {
      hide Energy, Intervals, Sum, P95;
      if failed {
        return Err(SamplingFailed);
      }
      if started.None? || ended.None? {
        return Err(NeverBracketed);
      }
      r := SummarizeGpuSamples(samples, started.value, ended.value, successfulTasks, MIN_SAMPLING_COVERAGE);
      if r.Ok? {
        CoverageBounds(samples, started.value, ended.value);
        FirstIsEarliest(samples);
      }
    }
  }

  // Starting a stopped sampler again keeps its old samples, so the reported
  // coverage can exceed one.
  method RestartedSampler() returns (r: Result<Summary, Fault>)
    ensures r.Ok? && r.value.coverage > 1.0
  {
    hide Energy, Intervals, Sum, P95, Max;
    var early, late := Sample(1.0, 0.0, 0.0, 0.0, 0.0), Sample(11.0, 0.0, 0.0, 0.0, 0.0);
    var sampler := new GpuSampler(0.0);
    var _ := sampler.Start(0.0);
    sampler.Sample(Some(early));
    sampler.Stop(2.0);
    var _ := sampler.Start(10.0);
    sampler.Sample(Some(late));
    sampler.Stop(12.0);
    assert sampler.samples == [early, late];
    r := sampler.Summary(1);
  }
}
