/** The `usePerformance` composable: the selected scenario, a loading flag
    and the last optimized metrics, with the two fetch operations that fall
    back to the client-side simulator when the request fails. The request is
    a function parameter: it maps the request body to the response or to a
    failure. */
module UsePerformance {
  import opened Types
  import opened Performance
  import opened Store
  import opened Comparison
  import opened Init

  /** `Partial<ScenarioConfig>`: the fields a caller supplies. */
  datatype ScenarioPatch = ScenarioPatch(network: Option<Network>, cpuThrottle: Option<CpuThrottle>,
                                         deviceType: Option<Device>, cacheStatus: Option<CacheStatus>)

  /** `{ ...scenario, ...config }` */
  function ApplyPatch(s: Scenario, p: ScenarioPatch): Scenario {
    Scenario(if p.network.Some? then p.network.value else s.network,
             if p.cpuThrottle.Some? then p.cpuThrottle.value else s.cpuThrottle,
             if p.deviceType.Some? then p.deviceType.value else s.deviceType,
             if p.cacheStatus.Some? then p.cacheStatus.value else s.cacheStatus)
  }

  /** A supplied field replaces the old one, every other field is kept, and
      applying the same patch twice changes nothing more. */
  lemma ApplyPatchOverwritesOnlySupplied(s: Scenario, p: ScenarioPatch)
    ensures p.network.Some? ==> ApplyPatch(s, p).network == p.network.value
    ensures p.network.None? ==> ApplyPatch(s, p).network == s.network
    ensures p.cpuThrottle.Some? ==> ApplyPatch(s, p).cpuThrottle == p.cpuThrottle.value
    ensures p.cpuThrottle.None? ==> ApplyPatch(s, p).cpuThrottle == s.cpuThrottle
    ensures p.deviceType.Some? ==> ApplyPatch(s, p).deviceType == p.deviceType.value
    ensures p.deviceType.None? ==> ApplyPatch(s, p).deviceType == s.deviceType
    ensures p.cacheStatus.Some? ==> ApplyPatch(s, p).cacheStatus == p.cacheStatus.value
    ensures p.cacheStatus.None? ==> ApplyPatch(s, p).cacheStatus == s.cacheStatus
    ensures ApplyPatch(ApplyPatch(s, p), p) == ApplyPatch(s, p)
  {
  }

  /** The initial scenario: 4g, no throttling, a mid-range device, a first load. */
  const InitialScenario := Scenario(FourG, NoThrottle, MidRange, FirstLoad)

  /** The comparison the client computes itself when the request fails. */
  function Fallback(solutionId: string, s: Scenario): ComparisonData {
    var optimized := Simulate(solutionId, s);
    var baseline := Simulate("baseline", s);
    ComparisonData(ToDoc(baseline), ToDoc(optimized), CalculateImprovement(baseline, optimized))
  }

  /** What `getMetrics` returns for a response: the response data itself, or the fallback. */
  function MetricsOutcome(response: Result<ComparisonData, int>, solutionId: string, s: Scenario): ComparisonData {
    if response.Ok? then response.value else Fallback(solutionId, s)
  }

  /** `ComparisonData` of the client: the solution with its three records. */
  datatype ComparisonView = ComparisonView(solution: Solution, baseline: Doc, optimized: Doc,
                                           improvement: Improvement)

  /** The state of one `usePerformance()` instance. */
  class PerformanceState {
    var scenario: Scenario
    var loading: bool
    var metrics: Option<Doc>

    constructor ()
      ensures scenario == InitialScenario && !loading && metrics == None
    {
      scenario := InitialScenario;
      loading := false;
      metrics := None;
    }

    /** `updateScenario(config)` */
    method UpdateScenario(config: ScenarioPatch)
      modifies this
      ensures scenario == ApplyPatch(old(scenario), config)
      ensures loading == old(loading) && metrics == old(metrics)
    {
      scenario := ApplyPatch(scenario, config);
    }

    /** `getMetrics(solutionId)`: posts the solution and the current scenario;
        on success keeps `data.optimized` and returns `data`, on failure
        simulates both records locally. */
    method GetMetrics(solutionId: string, fetch: Query -> Result<ComparisonData, int>)
      returns (data: ComparisonData)
      modifies this
      ensures data == MetricsOutcome(fetch(ScenarioQuery(solutionId, old(scenario))), solutionId, old(scenario))
      ensures metrics == Some(data.optimized)
      ensures !loading && scenario == old(scenario)
    {
      loading := true;
      var response := fetch(ScenarioQuery(solutionId, scenario));
      if response.Ok? {
        data := response.value;
        metrics := Some(data.optimized);
      } else {
        var optimized := Simulate(solutionId, scenario);
        var baseline := Simulate("baseline", scenario);
        metrics := Some(ToDoc(optimized));
        data := ComparisonData(ToDoc(baseline), ToDoc(optimized), CalculateImprovement(baseline, optimized));
      }
      loading := false;
    }

    /** `getComparison(solution)`: like `getMetrics`, but returns the solution
        with the records and leaves `metrics` alone. */
    method GetComparison(solution: Solution, fetch: Query -> Result<ComparisonData, int>)
      returns (view: ComparisonView)
      modifies this
      ensures var data := MetricsOutcome(fetch(ScenarioQuery(solution.id, old(scenario))), solution.id, old(scenario));
              view == ComparisonView(solution, data.baseline, data.optimized, data.improvement)
      ensures !loading && scenario == old(scenario) && metrics == old(metrics)
    {
      loading := true;
      var response := fetch(ScenarioQuery(solution.id, scenario));
      if response.Ok? {
        var data := response.value;
        view := ComparisonView(solution, data.baseline, data.optimized, data.improvement);
      } else {
        var optimized := Simulate(solution.id, scenario);
        var baseline := Simulate("baseline", scenario);
        view := ComparisonView(solution, ToDoc(baseline), ToDoc(optimized),
                               CalculateImprovement(baseline, optimized));
      }
      loading := false;
    }
  }

  // ---------------------------------------------------------------------
  // The fallback stands in for the seeded server

  lemma SeedIdsDistinct()
    ensures Distinct(["baseline"] + CatalogueIds)
  {
  }

  /** For every solution id the database was seeded with and every valid
      scenario, the server's comparison equals the client's fallback: same
      baseline, same optimized record, same improvement. */
  lemma SeededServerAgreesWithFallback(catalogue: seq<string>, solutionId: string, s: Scenario)
    requires Distinct(["baseline"] + catalogue) && solutionId in ["baseline"] + catalogue
    ensures ComparisonResult(ScenarioQuery(solutionId, s), Seeded(["baseline"] + catalogue))
            == Ok(Fallback(solutionId, s))
  {
    var ids := ["baseline"] + catalogue;
    var i :| 0 <= i < |ids| && ids[i] == solutionId;
    FindSeeded(ids, i, s);
    FindSeeded(ids, 0, s);
    assert BaselineQuery(ScenarioQuery(solutionId, s)) == ScenarioQuery(ids[0], s);
    SimulatedLowerBounds("baseline", s);
    ComparisonOfFoundRecords(ScenarioQuery(solutionId, s), Seeded(ids),
                             Simulate("baseline", s), Simulate(solutionId, s));
  }

  /** So on the shipped catalogue `getMetrics` returns the same data whether
      the request reaches the seeded server or fails. */
  lemma GetMetricsIndependentOfServer(solutionId: string, s: Scenario)
    requires solutionId in ["baseline"] + CatalogueIds
    ensures MetricsOutcome(ComparisonResult(ScenarioQuery(solutionId, s), Seeded(["baseline"] + CatalogueIds)),
                           solutionId, s)
            == MetricsOutcome(Err(500), solutionId, s)
  {
    SeedIdsDistinct();
    SeededServerAgreesWithFallback(CatalogueIds, solutionId, s);
  }
}
