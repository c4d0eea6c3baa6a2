/** The client-side simulator (`simulatePerformanceMetrics`) and the
    unguarded improvement calculator (`calculateImprovement`), with the
    scenario configuration tables and the per-solution factor table. */
module Performance {
  import opened Types
  import opened JsMath

  datatype NetworkConfig = NetworkConfig(download: real, upload: real, latency: real)

  datatype DeviceConfig = DeviceConfig(cpu: real, memory: real)

  /** `networkConfigs` */
  function NetworkConfigOf(n: Network): NetworkConfig {
    match n
    case Wifi => NetworkConfig(50000.0, 50000.0, 5.0)
    case FourG => NetworkConfig(10000.0, 5000.0, 50.0)
    case ThreeG => NetworkConfig(1500.0, 750.0, 200.0)
    case TwoG => NetworkConfig(250.0, 250.0, 1000.0)
  }

  /** `cpuThrottleConfigs` */
  function CpuMultiplierOf(c: CpuThrottle): real {
    match c
    case NoThrottle => 1.0
    case Throttle4x => 4.0
    case Throttle6x => 6.0
  }

  /** `deviceConfigs` */
  function DeviceConfigOf(d: Device): DeviceConfig {
    match d
    case HighEnd => DeviceConfig(1.0, 1.0)
    case MidRange => DeviceConfig(0.5, 0.5)
    case LowEnd => DeviceConfig(0.25, 0.25)
  }

  /** The multiplicative effect of one optimization solution on each metric group. */
  datatype Factors = Factors(lcp: real, fcp: real, fid: real, cls: real, size: real)

  /** The factors of a solution the table does not list. */
  const Neutral := Factors(1.0, 1.0, 1.0, 1.0, 1.0)

  /** The `solutionFactors` table of the simulator: twelve solutions, no "baseline" row. */
  const SolutionFactors: map<string, Factors> := map[
    "route-lazy-loading" := Factors(0.7, 0.6, 0.9, 1.0, 0.5),
    "component-lazy-loading" := Factors(0.8, 0.7, 0.9, 1.0, 0.6),
    "modern-image-format" := Factors(0.6, 0.5, 1.0, 1.0, 0.4),
    "responsive-image" := Factors(0.7, 0.6, 1.0, 1.0, 0.5),
    "image-lazy-loading" := Factors(0.5, 0.4, 1.0, 0.9, 0.3),
    "icon-optimization" := Factors(1.0, 0.9, 1.0, 1.0, 0.2),
    "virtual-list" := Factors(0.9, 0.8, 0.8, 0.9, 0.7),
    "ssg" := Factors(0.4, 0.3, 0.7, 1.0, 0.6),
    "ssr" := Factors(0.5, 0.4, 0.8, 1.0, 0.7),
    "dependency-pre-build" := Factors(0.9, 0.8, 0.9, 1.0, 0.8),
    "file-compression" := Factors(0.8, 0.7, 1.0, 1.0, 0.5),
    "http-cache" := Factors(0.3, 0.2, 1.0, 1.0, 0.3)
  ]

  /** `solutionFactors[solution] || { lcp: 1, fcp: 1, fid: 1, cls: 1, size: 1 }` */
  function FactorsFor(solution: string): Factors {
    if solution in SolutionFactors then SolutionFactors[solution] else Neutral
  }

  const BaseLCP := 2500.0
  const BaseFCP := 1800.0
  const BaseTTFB := 200.0
  const BaseFID := 100.0
  const BaseCLS := 0.1
  const BaseTTI := 3500.0
  const BaseSI := 3000.0
  const BaseINP := 200.0

  /** The four scenario factors, and the cache factor the three size fields use. */
  datatype ScenarioFactors = ScenarioFactors(network: real, cpu: real, device: real,
                                             cache: real, sizeCache: real)

  /** The scenario factors both simulator copies derive from a network latency,
      a CPU multiplier, a device CPU share and the cache state. */
  function ScenarioFactorsFrom(latency: real, cpuMultiplier: real, deviceCpu: real,
                               cached: bool, offline: bool): ScenarioFactors
    requires deviceCpu > 0.0
  {
    ScenarioFactors(
      network := latency / 50.0,
      cpu := cpuMultiplier,
      device := 1.0 / deviceCpu,
      cache := if cached then 0.3 else if offline then 0.1 else 1.0,
      sizeCache := if cached then 0.3 else 1.0)
  }

  /** `base * fs[0] * fs[1] * ...`, multiplied left to right as the source writes it. */
  function Scale(base: real, fs: seq<real>): real
    decreases |fs|
  {
    if fs == [] then base else Scale(base * fs[0], fs[1..])
  }

  /** The metric record both simulator copies build: each field is a base
      constant times scenario factors and solution factors, rounded. */
  function MetricsFrom(k: ScenarioFactors, f: Factors): Metrics {
    Metrics(
      lcp := Round(Scale(BaseLCP, [k.network, k.cpu, k.device, k.cache, f.lcp])) as real,
      fid := Round(Scale(BaseFID, [k.cpu, k.device, f.fid])) as real,
      cls := Round(Scale(BaseCLS, [f.cls, 100.0])) as real / 100.0,
      fcp := Round(Scale(BaseFCP, [k.network, k.cpu, k.device, k.cache, f.fcp])) as real,
      ttfb := Round(Scale(BaseTTFB, [k.network, k.cache])) as real,
      inp := Round(Scale(BaseINP, [k.cpu, k.device, f.fid])) as real,
      tti := Round(Scale(BaseTTI, [k.network, k.cpu, k.device, k.cache])) as real,
      si := Round(Scale(BaseSI, [k.network, k.cpu, k.device, k.cache])) as real,
      totalSize := Round(Scale(2000.0, [f.size, k.sizeCache])) as real,
      requestCount := Round(Scale(50.0, [f.size])) as real,
      jsSize := Round(Scale(800.0, [f.size, k.sizeCache])) as real,
      cssSize := Round(Scale(200.0, [f.size, k.sizeCache])) as real)
  }

  /** The scenario factors of a valid scenario, from the three configuration tables. */
  function FactorsOfScenario(s: Scenario): ScenarioFactors {
    ScenarioFactorsFrom(NetworkConfigOf(s.network).latency, CpuMultiplierOf(s.cpuThrottle),
                        DeviceConfigOf(s.deviceType).cpu,
                        s.cacheStatus == Cached, s.cacheStatus == Offline)
  }

  /** `simulatePerformanceMetrics(solution, network, cpuThrottle, deviceType, cacheStatus)` */
  function Simulate(solution: string, s: Scenario): Metrics {
    MetricsFrom(FactorsOfScenario(s), FactorsFor(solution))
  }

  /** `Math.round(((b - o) / b) * 100)` in JavaScript: a division by a zero
      baseline gives an infinity, or NaN when the difference is zero too. */
  function Percentage(b: real, o: real): (r: Percent)
    ensures b != 0.0 ==> r.Finite? && r.value as real - 0.5 <= (b - o) / b * 100.0 < r.value as real + 0.5
    ensures b == 0.0 ==> !r.Finite? && (r == NotANumber <==> o == 0.0) && (r == PosInfinity <==> o < 0.0)
  {
    if b != 0.0 then Finite(Round((b - o) / b * 100.0))
    else if b - o > 0.0 then PosInfinity
    else if b - o < 0.0 then NegInfinity
    else NotANumber
  }

  /** `calculateImprovement(baseline, optimized)`: the per-field percentage, unguarded. */
  function CalculateImprovement(baseline: Metrics, optimized: Metrics): (r: Improvement)
    ensures r.Keys == AllFields && forall f :: f in r
  {
    AllFieldsCompleteAll();
    map f | f in AllFields :: Percentage(baseline.Get(f), optimized.Get(f))
  }

  // ---------------------------------------------------------------------
  // The solution factor table

  /** Every solution factor lies in (0, 1], with the smallest value of each group named. */
  predicate FactorsInRange(f: Factors) {
    && 0.3 <= f.lcp <= 1.0 && 0.2 <= f.fcp <= 1.0 && 0.7 <= f.fid <= 1.0
    && (f.cls == 1.0 || f.cls == 0.9) && 0.2 <= f.size <= 1.0
  }

  lemma FactorsForInRange(solution: string)
    ensures FactorsInRange(FactorsFor(solution))
  {
    if solution in SolutionFactors {
      var f := SolutionFactors[solution];
      assert f in SolutionFactors.Values;
    }
  }

  /** A solution id the table does not list, "baseline" among them, gets the neutral factors. */
  lemma BaselineIsUnlisted()
    ensures "baseline" !in SolutionFactors
    ensures FactorsFor("baseline") == Neutral
  {
  }

  lemma UnlistedSolutionIsBaseline(solution: string, s: Scenario)
    requires solution !in SolutionFactors
    ensures Simulate(solution, s) == Simulate("baseline", s)
  {
    BaselineIsUnlisted();
  }

  // ---------------------------------------------------------------------
  // Monotonicity of the formula

  /** Each factor of `xs` is non-negative and at most the matching factor of `ys`. */
  predicate FactorwiseLe(xs: seq<real>, ys: seq<real>) {
    |xs| == |ys| && forall i :: 0 <= i < |xs| ==> 0.0 <= xs[i] <= ys[i]
  }

  lemma {:induction false} ScaleMonotone(b1: real, xs: seq<real>, b2: real, ys: seq<real>)
    requires 0.0 <= b1 <= b2 && FactorwiseLe(xs, ys)
    ensures 0.0 <= Scale(b1, xs) <= Scale(b2, ys)
    decreases |xs|
  {
    if xs != [] {
      MulMonotone(b1, b2, xs[0], ys[0]);
      assert FactorwiseLe(xs[1..], ys[1..]);
      ScaleMonotone(b1 * xs[0], xs[1..], b2 * ys[0], ys[1..]);
    }
  }

  /** A rounded scaled product is monotone in its factors. */
  lemma RoundScaleMonotone(base: real, xs: seq<real>, ys: seq<real>)
    requires 0.0 <= base && FactorwiseLe(xs, ys)
    ensures Round(Scale(base, xs)) <= Round(Scale(base, ys))
  {
    ScaleMonotone(base, xs, base, ys);
    RoundMonotone(Scale(base, xs), Scale(base, ys));
  }

  predicate ScenarioFactorsLe(k1: ScenarioFactors, k2: ScenarioFactors) {
    && 0.0 <= k1.network <= k2.network && 0.0 <= k1.cpu <= k2.cpu
    && 0.0 <= k1.device <= k2.device && 0.0 <= k1.cache <= k2.cache
    && 0.0 <= k1.sizeCache <= k2.sizeCache
  }

  predicate FactorsLe(f1: Factors, f2: Factors) {
    && 0.0 <= f1.lcp <= f2.lcp && 0.0 <= f1.fcp <= f2.fcp && 0.0 <= f1.fid <= f2.fid
    && 0.0 <= f1.cls <= f2.cls && 0.0 <= f1.size <= f2.size
  }

  /** Smaller scenario factors and smaller solution factors never give a larger metric. */
  lemma MetricsFromMonotone(k1: ScenarioFactors, f1: Factors,
                                               k2: ScenarioFactors, f2: Factors)
    requires ScenarioFactorsLe(k1, k2) && FactorsLe(f1, f2)
    ensures forall fld :: MetricsFrom(k1, f1).Get(fld) <= MetricsFrom(k2, f2).Get(fld)
  {
    RoundScaleMonotone(BaseLCP, [k1.network, k1.cpu, k1.device, k1.cache, f1.lcp],
                                [k2.network, k2.cpu, k2.device, k2.cache, f2.lcp]);
    RoundScaleMonotone(BaseFCP, [k1.network, k1.cpu, k1.device, k1.cache, f1.fcp],
                                [k2.network, k2.cpu, k2.device, k2.cache, f2.fcp]);
    RoundScaleMonotone(BaseFID, [k1.cpu, k1.device, f1.fid], [k2.cpu, k2.device, f2.fid]);
    RoundScaleMonotone(BaseCLS, [f1.cls, 100.0], [f2.cls, 100.0]);
    RoundScaleMonotone(BaseTTFB, [k1.network, k1.cache], [k2.network, k2.cache]);
    RoundScaleMonotone(BaseINP, [k1.cpu, k1.device, f1.fid], [k2.cpu, k2.device, f2.fid]);
    RoundScaleMonotone(BaseTTI, [k1.network, k1.cpu, k1.device, k1.cache],
                                [k2.network, k2.cpu, k2.device, k2.cache]);
    RoundScaleMonotone(BaseSI, [k1.network, k1.cpu, k1.device, k1.cache],
                               [k2.network, k2.cpu, k2.device, k2.cache]);
    RoundScaleMonotone(2000.0, [f1.size, k1.sizeCache], [f2.size, k2.sizeCache]);
    RoundScaleMonotone(50.0, [f1.size], [f2.size]);
    RoundScaleMonotone(800.0, [f1.size, k1.sizeCache], [f2.size, k2.sizeCache]);
    RoundScaleMonotone(200.0, [f1.size, k1.sizeCache], [f2.size, k2.sizeCache]);
  }

  // ---------------------------------------------------------------------
  // Bounds of the scenario factors and of the simulated metrics

  /** The range the three configuration tables and the cache rule give the scenario factors. */
  predicate ScenarioFactorsInRange(k: ScenarioFactors) {
    && 0.1 <= k.network <= 20.0 && 1.0 <= k.cpu <= 6.0 && 1.0 <= k.device <= 4.0
    && ((k.cache == 1.0 && k.sizeCache == 1.0) || (k.cache == 0.3 && k.sizeCache == 0.3)
        || (k.cache == 0.1 && k.sizeCache == 1.0))
  }

  lemma FactorsOfScenarioInRange(s: Scenario)
    ensures ScenarioFactorsInRange(FactorsOfScenario(s))
  {
    match s.deviceType
    case HighEnd =>
    case MidRange => assert 1.0 / 0.5 == 2.0;
    case LowEnd => assert 1.0 / 0.25 == 4.0;
  }

  /** The componentwise smallest scenario and solution factors. */
  const MinScenarioFactors := ScenarioFactors(0.1, 1.0, 1.0, 0.1, 0.3)
  const MinFactors := Factors(0.3, 0.2, 0.7, 0.9, 0.2)

  /** The metrics of the smallest factors: lcp 7.5 and fcp 3.6 round up to 8 and 4. */
  const LeastMetrics := Metrics(
    lcp := 8.0, fid := 70.0, cls := 0.09, fcp := 4.0, ttfb := 2.0, inp := 140.0,
    tti := 35.0, si := 30.0, totalSize := 120.0, requestCount := 10.0,
    jsSize := 48.0, cssSize := 12.0)

  lemma MinimumOfFormula()
    ensures MetricsFrom(MinScenarioFactors, MinFactors) == LeastMetrics
  {
  }

  /** Every field the simulator produces is at least the matching field of
      `LeastMetrics`, and so strictly positive. */
  lemma SimulatedLowerBounds(solution: string, s: Scenario)
    ensures forall fld :: 0.0 < LeastMetrics.Get(fld) <= Simulate(solution, s).Get(fld)
  {
    FactorsOfScenarioInRange(s);
    FactorsForInRange(solution);
    MinimumOfFormula();
    MetricsFromMonotone(MinScenarioFactors, MinFactors, FactorsOfScenario(s), FactorsFor(solution));
  }

  // ---------------------------------------------------------------------
  // How the metrics depend on the scenario and the solution

  /** A `'cached'` load is never slower nor larger than a `'first-load'` in the same conditions. */
  lemma CachedNoWorseThanFirstLoad(solution: string, n: Network, c: CpuThrottle, d: Device)
    ensures forall fld :: Simulate(solution, Scenario(n, c, d, Cached)).Get(fld)
                          <= Simulate(solution, Scenario(n, c, d, FirstLoad)).Get(fld)
  {
    var kc := FactorsOfScenario(Scenario(n, c, d, Cached));
    var kf := FactorsOfScenario(Scenario(n, c, d, FirstLoad));
    FactorsOfScenarioInRange(Scenario(n, c, d, FirstLoad));
    assert ScenarioFactorsLe(kc, kf);
    FactorsForInRange(solution);
    MetricsFromMonotone(kc, FactorsFor(solution), kf, FactorsFor(solution));
  }

  /** No solution is worse than the baseline on any metric in the same scenario. */
  lemma SolutionNoWorseThanBaseline(solution: string, s: Scenario)
    ensures forall fld :: Simulate(solution, s).Get(fld) <= Simulate("baseline", s).Get(fld)
  {
    var k := FactorsOfScenario(s);
    FactorsOfScenarioInRange(s);
    FactorsForInRange(solution);
    BaselineIsUnlisted();
    MetricsFromMonotone(k, FactorsFor(solution), k, Neutral);
  }

  /** A percentage of a positive baseline and a smaller positive value lies in [0, 100]. */
  lemma PercentageInRange(b: real, o: real)
    requires 0.0 < o <= b
    ensures Percentage(b, o).Finite? && 0 <= Percentage(b, o).value <= 100
  {
    var q := (b - o) / b * 100.0;
    assert 0.0 <= (b - o) / b < 1.0;
    assert 0.0 <= q < 100.0;
    RoundMonotone(0.0, q);
    RoundMonotone(q, 100.0);
    RoundOfInt(0);
    RoundOfInt(100);
  }

  /** The improvement of any solution over the baseline in the same scenario is finite and in [0, 100]. */
  lemma ImprovementOverBaselineInRange(solution: string, s: Scenario)
    ensures forall fld :: CalculateImprovement(Simulate("baseline", s), Simulate(solution, s))[fld].Finite?
    ensures forall fld :: 0 <= CalculateImprovement(Simulate("baseline", s), Simulate(solution, s))[fld].value <= 100
  {
    var b := Simulate("baseline", s);
    var o := Simulate(solution, s);
    SolutionNoWorseThanBaseline(solution, s);
    SimulatedLowerBounds(solution, s);
    forall fld ensures Percentage(b.Get(fld), o.Get(fld)).Finite? && 0 <= Percentage(b.Get(fld), o.Get(fld)).value <= 100 {
      PercentageInRange(b.Get(fld), o.Get(fld));
    }
  }

  /** Simulated baselines are never zero, so `calculateImprovement` of two simulated
      records never meets a division by zero. */
  lemma ImprovementOfSimulatedIsFinite(sol1: string, s1: Scenario, sol2: string, s2: Scenario)
    ensures forall fld :: CalculateImprovement(Simulate(sol1, s1), Simulate(sol2, s2))[fld].Finite?
  {
    SimulatedLowerBounds(sol1, s1);
  }

  /** `ttfb`, `tti` and `si` do not depend on the solution. */
  lemma TimingIgnoresSolution(sol1: string, sol2: string, s: Scenario)
    ensures Simulate(sol1, s).ttfb == Simulate(sol2, s).ttfb
    ensures Simulate(sol1, s).tti == Simulate(sol2, s).tti
    ensures Simulate(sol1, s).si == Simulate(sol2, s).si
  {
  }

  /** A record compared with itself improves by 0 on every non-zero field. */
  lemma SelfImprovementIsZero(m: Metrics, fld: Field)
    requires m.Get(fld) != 0.0
    ensures CalculateImprovement(m, m)[fld] == Finite(0)
  {
    RoundOfInt(0);
  }

  /** So the improvement over the baseline is 0 for `ttfb`, `tti` and `si`, whatever the solution. */
  lemma TimingImprovementIsZero(solution: string, s: Scenario)
    ensures CalculateImprovement(Simulate("baseline", s), Simulate(solution, s))[Ttfb] == Finite(0)
    ensures CalculateImprovement(Simulate("baseline", s), Simulate(solution, s))[Tti] == Finite(0)
    ensures CalculateImprovement(Simulate("baseline", s), Simulate(solution, s))[Si] == Finite(0)
  {
    var b := Simulate("baseline", s);
    TimingIgnoresSolution("baseline", solution, s);
    SimulatedLowerBounds("baseline", s);
    assert b.Get(Ttfb) != 0.0 && b.Get(Tti) != 0.0 && b.Get(Si) != 0.0;
    SelfImprovementIsZero(b, Ttfb);
    SelfImprovementIsZero(b, Tti);
    SelfImprovementIsZero(b, Si);
    assert Simulate(solution, s).Get(Ttfb) == b.Get(Ttfb);
    assert Simulate(solution, s).Get(Tti) == b.Get(Tti);
    assert Simulate(solution, s).Get(Si) == b.Get(Si);
  }

  /** `cls` depends only on the solution: 0.1, or 0.09 for a solution with cls factor 0.9. */
  lemma ClsDependsOnlyOnSolution(solution: string, s: Scenario)
    ensures FactorsFor(solution).cls == 1.0 ==> Simulate(solution, s).cls == 0.1
    ensures FactorsFor(solution).cls != 1.0 ==> Simulate(solution, s).cls == 0.09
  {
    var c := FactorsFor(solution).cls;
    FactorsForInRange(solution);
    assert [c, 100.0][1..] == [100.0] && [100.0][1..] == [];
    assert Scale(BaseCLS * c, [100.0]) == BaseCLS * c * 100.0;
    assert Scale(BaseCLS, [c, 100.0]) == BaseCLS * c * 100.0;
    if c == 1.0 {
      RoundOfInt(10);
    } else {
      RoundOfInt(9);
    }
  }

  /** `fid` and `inp` depend only on the CPU throttle, the device and the solution. */
  lemma InteractionIgnoresNetworkAndCache(solution: string, s1: Scenario, s2: Scenario)
    requires s1.cpuThrottle == s2.cpuThrottle && s1.deviceType == s2.deviceType
    ensures Simulate(solution, s1).fid == Simulate(solution, s2).fid
    ensures Simulate(solution, s1).inp == Simulate(solution, s2).inp
  {
  }

  /** `requestCount` never depends on the scenario; the three sizes depend on it only through
      whether the load is `'cached'`, so `'offline'` sizes equal `'first-load'` sizes. */
  lemma SizesIgnoreScenarioExceptCache(solution: string, s1: Scenario, s2: Scenario)
    ensures Simulate(solution, s1).requestCount == Simulate(solution, s2).requestCount
    ensures (s1.cacheStatus == Cached <==> s2.cacheStatus == Cached) ==>
              && Simulate(solution, s1).totalSize == Simulate(solution, s2).totalSize
              && Simulate(solution, s1).jsSize == Simulate(solution, s2).jsSize
              && Simulate(solution, s1).cssSize == Simulate(solution, s2).cssSize
  {
  }

  /** `http-cache` on 4g, no throttling, a mid-range device and a first load. */
  const ExampleScenario := Scenario(FourG, NoThrottle, MidRange, FirstLoad)

  lemma WorkedExample()
    ensures Simulate("http-cache", ExampleScenario).lcp == 1500.0
    ensures Simulate("baseline", ExampleScenario).lcp == 5000.0
    ensures CalculateImprovement(Simulate("baseline", ExampleScenario),
                                 Simulate("http-cache", ExampleScenario))[Lcp] == Finite(70)
  {
    var k := FactorsOfScenario(ExampleScenario);
    assert 1.0 / 0.5 == 2.0;
    assert k == ScenarioFactors(1.0, 1.0, 2.0, 1.0, 1.0);
    BaselineIsUnlisted();
    assert FactorsFor("http-cache") == Factors(0.3, 0.2, 1.0, 1.0, 0.3);
    RoundOfInt(1500);
    RoundOfInt(5000);
    RoundOfInt(70);
  }
}
