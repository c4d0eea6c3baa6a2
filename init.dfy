/** The `/api/init` handler: the server's own copy of the simulator
    (`generateMetrics`, taking free-form strings with fallbacks) and the
    nested loop that seeds one metrics document per solution and scenario. */
module Init {
  import opened Types
  import opened Performance
  import opened Store

  // ---------------------------------------------------------------------
  // generateMetrics

  /** The lookup tables of `generateMetrics`, keyed by the wire names. */
  const SeedLatency: map<string, real> :=
    map["wifi" := 5.0, "4g" := 50.0, "3g" := 200.0, "2g" := 1000.0]

  const SeedCpuMultiplier: map<string, real> :=
    map["none" := 1.0, "4x" := 4.0, "6x" := 6.0]

  const SeedDeviceCpu: map<string, real> :=
    map["high-end" := 1.0, "mid-range" := 0.5, "low-end" := 0.25]

  /** The server's factor table: the simulator's twelve rows plus an explicit "baseline" row. */
  const SeedFactors: map<string, Factors> := map[
    "baseline" := Factors(1.0, 1.0, 1.0, 1.0, 1.0),
    "route-lazy-loading" := Factors(0.7, 0.6, 0.9, 1.0, 0.5),
    "component-lazy-loading" := Factors(0.8, 0.7, 0.9, 1.0, 0.6),
    "modern-image-format" := Factors(0.6, 0.5, 1.0, 1.0, 0.4),
    "responsive-image" := Factors(0.7, 0.6, 1.0, 1.0, 0.5),
    "image-lazy-loading" := Factors(0.5, 0.4, 1.0, 0.9, 0.3),
    "icon-optimization" := Factors(1.0, 0.9, 1.0, 1.0, 0.2),
    "virtual-list" := Factors(0.9, 0.8, 0.8, 0.9, 0.7),
    "ssg" := Factors(0.4, 0.3, 0.7, 1.0, 0.6),
    "ssr" := Factors(0.5, 0.4, 0.8, 1.0, 0.7),
    "dependency-pre-build" := Factors(0.9, 0.8, 0.9, 1.0, 0.8),
    "file-compression" := Factors(0.8, 0.7, 1.0, 1.0, 0.5),
    "http-cache" := Factors(0.3, 0.2, 1.0, 1.0, 0.3)
  ]

  /** The scenario factors `generateMetrics` derives: an unknown network counts
      as "4g", an unknown CPU throttle as multiplier 1, an unknown device as
      "mid-range", and any cache status other than "cached" and "offline" as a first load. */
  function SeedScenarioFactors(network: string, cpuThrottle: string, deviceType: string,
                               cacheStatus: string): ScenarioFactors
  {
    var latency := if network in SeedLatency then SeedLatency[network] else SeedLatency["4g"];
    var cpu := if cpuThrottle in SeedCpuMultiplier then SeedCpuMultiplier[cpuThrottle] else 1.0;
    var deviceCpu := if deviceType in SeedDeviceCpu then SeedDeviceCpu[deviceType]
                     else SeedDeviceCpu["mid-range"];
    ScenarioFactorsFrom(latency, cpu, deviceCpu, cacheStatus == "cached", cacheStatus == "offline")
  }

  /** `solutionFactors[solutionId] || { lcp: 1, fcp: 1, fid: 1, cls: 1, size: 1 }` */
  function SeedFactorsFor(solutionId: string): Factors {
    if solutionId in SeedFactors then SeedFactors[solutionId] else Neutral
  }

  /** `generateMetrics(solutionId, network, cpuThrottle, deviceType, cacheStatus)` */
  function Generate(solutionId: string, network: string, cpuThrottle: string,
                    deviceType: string, cacheStatus: string): Metrics
  {
    MetricsFrom(SeedScenarioFactors(network, cpuThrottle, deviceType, cacheStatus),
                SeedFactorsFor(solutionId))
  }

  /** The server's table is the simulator's table with the neutral factors added under "baseline". */
  lemma SeedFactorsExtendSimulatorTable()
    ensures SeedFactors == SolutionFactors["baseline" := Neutral]
  {
  }

  /** Both copies give every solution id the same factors. */
  lemma SeedFactorsAgree(solutionId: string)
    ensures SeedFactorsFor(solutionId) == FactorsFor(solutionId)
  {
    SeedFactorsExtendSimulatorTable();
    BaselineIsUnlisted();
  }

  /** Both copies give every valid scenario the same scenario factors. */
  lemma SeedScenarioFactorsAgree(s: Scenario)
    ensures SeedScenarioFactors(NetworkName(s.network), CpuName(s.cpuThrottle),
                                DeviceName(s.deviceType), CacheName(s.cacheStatus))
            == FactorsOfScenario(s)
  {
    match s.cacheStatus
    case FirstLoad => assert CacheName(s.cacheStatus) != "cached";
    case Cached =>
    case Offline => assert CacheName(s.cacheStatus) != "cached";
  }

  /** `generateMetrics` agrees with `simulatePerformanceMetrics` on every
      solution id and every valid scenario. */
  lemma GenerateAgreesWithSimulate(solutionId: string, s: Scenario)
    ensures Generate(solutionId, NetworkName(s.network), CpuName(s.cpuThrottle),
                     DeviceName(s.deviceType), CacheName(s.cacheStatus))
            == Simulate(solutionId, s)
  {
    SeedFactorsAgree(solutionId);
    SeedScenarioFactorsAgree(s);
  }

  /** An id absent from the server's table yields the metrics of "baseline". */
  lemma UnknownSolutionIsBaseline(solutionId: string, network: string, cpuThrottle: string,
                                  deviceType: string, cacheStatus: string)
    requires solutionId !in SeedFactors
    ensures Generate(solutionId, network, cpuThrottle, deviceType, cacheStatus)
            == Generate("baseline", network, cpuThrottle, deviceType, cacheStatus)
  {
  }

  /** Unknown enum strings fall back to "4g", "none", "mid-range" and "first-load". */
  lemma GenerateFallbacks(solutionId: string, network: string, cpuThrottle: string,
                          deviceType: string, cacheStatus: string)
    ensures network !in SeedLatency ==>
              Generate(solutionId, network, cpuThrottle, deviceType, cacheStatus)
              == Generate(solutionId, "4g", cpuThrottle, deviceType, cacheStatus)
    ensures cpuThrottle !in SeedCpuMultiplier ==>
              Generate(solutionId, network, cpuThrottle, deviceType, cacheStatus)
              == Generate(solutionId, network, "none", deviceType, cacheStatus)
    ensures deviceType !in SeedDeviceCpu ==>
              Generate(solutionId, network, cpuThrottle, deviceType, cacheStatus)
              == Generate(solutionId, network, cpuThrottle, "mid-range", cacheStatus)
    ensures cacheStatus != "cached" && cacheStatus != "offline" ==>
              Generate(solutionId, network, cpuThrottle, deviceType, cacheStatus)
              == Generate(solutionId, network, cpuThrottle, deviceType, "first-load")
  {
  }

  // ---------------------------------------------------------------------
  // The seeding loop

  /** The enumerations the handler iterates, in its order. */
  const NetworkNames: seq<string> := ["wifi", "4g", "3g", "2g"]
  const CpuNames: seq<string> := ["none", "4x", "6x"]
  const DeviceNames: seq<string> := ["high-end", "mid-range", "low-end"]
  const CacheNames: seq<string> := ["first-load", "cached", "offline"]

  /** The ids of `solutionsData`, in catalogue order. */
  const CatalogueIds: seq<string> := [
    "route-lazy-loading", "component-lazy-loading", "modern-image-format",
    "responsive-image", "image-lazy-loading", "icon-optimization", "virtual-list",
    "ssg", "ssr", "dependency-pre-build", "file-compression", "http-cache"]

  /** The number of scenarios: 4 networks, 3 throttles, 3 devices, 3 cache states. */
  const ScenarioCount := 108

  /** The document the loop pushes for one tuple. */
  function MakeRow(q: Query): (row: Row)
    ensures QueryOf(row) == q
  {
    Row(q.solutionId, q.network, q.cpuThrottle, q.deviceType, q.cacheStatus,
        ToDoc(Generate(q.solutionId, q.network, q.cpuThrottle, q.deviceType, q.cacheStatus)))
  }

  /** The tuple at position `t` of the seeded sequence: solution outermost, then
      network, CPU throttle and device, cache status innermost. */
  function QueryAt(ids: seq<string>, t: nat): Query
    requires t < |ids| * ScenarioCount
  {
    var q1 := t / 3;
    var q2 := q1 / 3;
    var q3 := q2 / 3;
    Query(ids[q3 / 4], NetworkNames[q3 % 4], CpuNames[q2 % 3], DeviceNames[q1 % 3], CacheNames[t % 3])
  }

  function RowAt(ids: seq<string>, t: nat): Row
    requires t < |ids| * ScenarioCount
  {
    MakeRow(QueryAt(ids, t))
  }

  /** The first `n` documents the seeding loop pushes. */
  function SeededPrefix(ids: seq<string>, n: nat): (rows: seq<Row>)
    requires n <= |ids| * ScenarioCount
    ensures |rows| == n
    ensures forall t :: 0 <= t < n ==> rows[t] == RowAt(ids, t)
  {
    seq(n, t requires 0 <= t < n => RowAt(ids, t))
  }

  /** Every document the seeding loop produces, in push order. */
  function Seeded(ids: seq<string>): (rows: seq<Row>)
    ensures |rows| == |ids| * ScenarioCount
    ensures forall t :: 0 <= t < |rows| ==> rows[t] == RowAt(ids, t)
  {
    SeededPrefix(ids, |ids| * ScenarioCount)
  }

  lemma SeededPrefixStep(ids: seq<string>, n: nat)
    requires n < |ids| * ScenarioCount
    ensures SeededPrefix(ids, n + 1) == SeededPrefix(ids, n) + [RowAt(ids, n)]
  {
    var longer, shorter := SeededPrefix(ids, n + 1), SeededPrefix(ids, n) + [RowAt(ids, n)];
    forall t | 0 <= t < n + 1 ensures longer[t] == shorter[t] {
    }
  }

  /** The position of the tuple (i, a, b, c, d) in the seeded sequence. */
  function Position(i: nat, a: nat, b: nat, c: nat, d: nat): nat {
    (((i * 4 + a) * 3 + b) * 3 + c) * 3 + d
  }

  lemma RowAtPosition(ids: seq<string>, i: nat, a: nat, b: nat, c: nat, d: nat)
    requires i < |ids| && a < 4 && b < 3 && c < 3 && d < 3
    ensures Position(i, a, b, c, d) < |ids| * ScenarioCount
    ensures QueryAt(ids, Position(i, a, b, c, d))
            == Query(ids[i], NetworkNames[a], CpuNames[b], DeviceNames[c], CacheNames[d])
  {
    var t := Position(i, a, b, c, d);
    assert t / 3 == ((i * 4 + a) * 3 + b) * 3 + c && t % 3 == d;
    assert t / 3 / 3 == (i * 4 + a) * 3 + b && t / 3 % 3 == c;
    assert t / 3 / 3 / 3 == i * 4 + a && t / 3 / 3 % 3 == b;
    assert t / 3 / 3 / 3 / 4 == i && t / 3 / 3 / 3 % 4 == a;
  }

  /** The handler's response. */
  datatype InitResponse = InitResponse(success: bool, solutionsCount: int, metricsCount: int)

  /** The status code the handler answers with when any database call fails. */
  const InitFailureStatus := 500

  /** The five nested loops of the handler: one document per solution id
      and scenario, pushed in loop order. */
  method GenerateMetricsData(solutionIds: seq<string>) returns (metricsData: seq<Row>)
    ensures metricsData == Seeded(solutionIds)
  {
    metricsData := [];
    for i := 0 to |solutionIds|
      invariant metricsData == SeededPrefix(solutionIds, Position(i, 0, 0, 0, 0))
    {
      for a := 0 to |NetworkNames|
        invariant metricsData == SeededPrefix(solutionIds, Position(i, a, 0, 0, 0))
      {
        for b := 0 to |CpuNames|
          invariant metricsData == SeededPrefix(solutionIds, Position(i, a, b, 0, 0))
        {
          for c := 0 to |DeviceNames|
            invariant metricsData == SeededPrefix(solutionIds, Position(i, a, b, c, 0))
          {
            for d := 0 to |CacheNames|
              invariant metricsData == SeededPrefix(solutionIds, Position(i, a, b, c, d))
            {
              var metrics := Generate(solutionIds[i], NetworkNames[a], CpuNames[b],
                                      DeviceNames[c], CacheNames[d]);
              RowAtPosition(solutionIds, i, a, b, c, d);
              SeededPrefixStep(solutionIds, Position(i, a, b, c, d));
              metricsData := metricsData + [Row(solutionIds[i], NetworkNames[a], CpuNames[b],
                                                DeviceNames[c], CacheNames[d], ToDoc(metrics))];
            }
          }
        }
      }
    }
  }

  /** `GET /api/init`: replaces both collections with the catalogue and one
      generated metrics document per solution ("baseline" first) and scenario.
      A failed connection is `connected == false`. */
  method InitDatabase(db: Database, catalogue: seq<string>, connected: bool)
    returns (r: Result<InitResponse, int>)
    modifies db
    ensures !connected ==> r == Err(InitFailureStatus) && unchanged(db)
    ensures connected ==> r == Ok(InitResponse(true, |catalogue|, (1 + |catalogue|) * ScenarioCount))
    ensures connected ==> db.solutions == catalogue
    ensures connected ==> db.performanceMetrics == Seeded(["baseline"] + catalogue)
  {
    if !connected {
      return Err(InitFailureStatus);
    }
    db.solutions := catalogue;
    db.performanceMetrics := [];
    var solutionIds := ["baseline"] + catalogue;
    var metricsData := GenerateMetricsData(solutionIds);
    if |metricsData| > 0 {
      db.performanceMetrics := db.performanceMetrics + metricsData;
    }
    return Ok(InitResponse(true, |catalogue|, |metricsData|));
  }

  // ---------------------------------------------------------------------
  // What the seeded collection holds

  /** With the twelve catalogue ids the handler seeds 13 * 108 = 1404 documents. */
  lemma SeedCount()
    ensures |Seeded(["baseline"] + CatalogueIds)| == 1404
  {
  }

  /** Every seeded document's metrics are `generateMetrics` of the document's own tuple. */
  lemma SeededRowsAreGenerated(ids: seq<string>)
    ensures forall row :: row in Seeded(ids) ==>
              row.metrics == ToDoc(Generate(row.solutionId, row.network, row.cpuThrottle,
                                            row.deviceType, row.cacheStatus))
  {
  }

  /** The index of each enumeration value in the loop order. */
  function NetworkIndex(n: Network): (i: nat)
    ensures i < |NetworkNames| && NetworkNames[i] == NetworkName(n)
  {
    match n
    case Wifi => 0
    case FourG => 1
    case ThreeG => 2
    case TwoG => 3
  }

  function CpuIndex(c: CpuThrottle): (i: nat)
    ensures i < |CpuNames| && CpuNames[i] == CpuName(c)
  {
    match c
    case NoThrottle => 0
    case Throttle4x => 1
    case Throttle6x => 2
  }

  function DeviceIndex(d: Device): (i: nat)
    ensures i < |DeviceNames| && DeviceNames[i] == DeviceName(d)
  {
    match d
    case HighEnd => 0
    case MidRange => 1
    case LowEnd => 2
  }

  function CacheIndex(k: CacheStatus): (i: nat)
    ensures i < |CacheNames| && CacheNames[i] == CacheName(k)
  {
    match k
    case FirstLoad => 0
    case Cached => 1
    case Offline => 2
  }

  /** The position of solution `i` in scenario `s` within the seeded sequence. */
  function ScenarioPosition(i: nat, s: Scenario): nat {
    Position(i, NetworkIndex(s.network), CpuIndex(s.cpuThrottle),
             DeviceIndex(s.deviceType), CacheIndex(s.cacheStatus))
  }

  /** The query the comparison handler sends for a solution id and a valid scenario. */
  function ScenarioQuery(solutionId: string, s: Scenario): Query {
    Query(solutionId, NetworkName(s.network), CpuName(s.cpuThrottle),
          DeviceName(s.deviceType), CacheName(s.cacheStatus))
  }

  /** The seeded document of solution `i` in scenario `s` holds exactly the
      simulator's metrics for that solution and scenario. */
  lemma SeededRowOfScenario(ids: seq<string>, i: nat, s: Scenario)
    requires i < |ids|
    ensures ScenarioPosition(i, s) < |Seeded(ids)|
    ensures QueryOf(Seeded(ids)[ScenarioPosition(i, s)]) == ScenarioQuery(ids[i], s)
    ensures Seeded(ids)[ScenarioPosition(i, s)].metrics == ToDoc(Simulate(ids[i], s))
  {
    RowAtPosition(ids, i, NetworkIndex(s.network), CpuIndex(s.cpuThrottle),
                  DeviceIndex(s.deviceType), CacheIndex(s.cacheStatus));
    GenerateAgreesWithSimulate(ids[i], s);
  }

  /** No id occurs twice. */
  predicate Distinct(ids: seq<string>) {
    forall i, j :: 0 <= i < j < |ids| ==> ids[i] != ids[j]
  }

  lemma NamesDistinct()
    ensures Distinct(NetworkNames) && Distinct(CpuNames) && Distinct(DeviceNames)
            && Distinct(CacheNames)
  {
  }

  /** A document's position is determined by its tuple: with distinct ids each
      (solution, scenario) tuple is seeded exactly once. */
  lemma SeededQueriesUnique(ids: seq<string>, t1: nat, t2: nat)
    requires Distinct(ids) && t1 < |ids| * ScenarioCount && t2 < |ids| * ScenarioCount
    requires QueryAt(ids, t1) == QueryAt(ids, t2)
    ensures t1 == t2
  {
    NamesDistinct();
    assert t1 / 3 / 3 / 3 / 4 == t2 / 3 / 3 / 3 / 4 && t1 / 3 / 3 / 3 % 4 == t2 / 3 / 3 / 3 % 4;
    assert t1 / 3 / 3 / 3 == t2 / 3 / 3 / 3;
    assert t1 / 3 / 3 % 3 == t2 / 3 / 3 % 3;
    assert t1 / 3 / 3 == t2 / 3 / 3;
    assert t1 / 3 % 3 == t2 / 3 % 3;
    assert t1 / 3 == t2 / 3;
    assert t1 % 3 == t2 % 3;
  }

  /** `findOne` on the seeded collection finds, for every seeded id and valid
      scenario, the document holding the simulator's metrics. */
  lemma FindSeeded(ids: seq<string>, i: nat, s: Scenario)
    requires Distinct(ids) && i < |ids|
    ensures FindOne(Seeded(ids), ScenarioQuery(ids[i], s)).Some?
    ensures FindOne(Seeded(ids), ScenarioQuery(ids[i], s)).value.metrics == ToDoc(Simulate(ids[i], s))
  {
    var rows := Seeded(ids);
    var t := ScenarioPosition(i, s);
    SeededRowOfScenario(ids, i, s);
    forall u | 0 <= u < |rows| && u != t
      ensures QueryOf(rows[u]) != ScenarioQuery(ids[i], s)
    {
      if QueryOf(rows[u]) == ScenarioQuery(ids[i], s) {
        SeededQueriesUnique(ids, u, t);
      }
    }
    FindOneOfUniqueMatch(rows, t, ScenarioQuery(ids[i], s));
  }

  /** A query whose solution id was not seeded finds nothing. */
  lemma FindUnseededSolution(ids: seq<string>, q: Query)
    requires q.solutionId !in ids
    ensures FindOne(Seeded(ids), q) == None
  {
    var rows := Seeded(ids);
    forall t | 0 <= t < |rows| ensures QueryOf(rows[t]) != q {
      assert QueryOf(rows[t]) == QueryAt(ids, t);
      assert QueryAt(ids, t).solutionId in ids;
    }
  }
}
