# PerfCompare core in Dafny

PerfCompare is a Nuxt application that compares front-end optimisation
techniques by their web-performance metrics. Its core is a deterministic
metric simulator. The simulator maps a solution id and a scenario (network,
CPU throttle, device tier, cache status) to a twelve-field metric record,
and the logic around it is modelled here:

- `Performance` (utils/performance.ts): the configuration tables,
  `simulatePerformanceMetrics` and the unguarded `calculateImprovement`.
- `Init` (server/api/init.get.ts): the server's copy of the simulator,
  `generateMetrics`, with its fallbacks for unknown strings, and the five
  nested loops that seed one metrics document per solution and scenario.
- `Store`: the two collections as sequences of documents, and `findOne` as
  "first document whose tuple matches".
- `Comparison` (server/api/performance/comparison.post.ts): the lookup of
  the optimized and baseline documents, the 404, the guarded per-metric
  improvement loop and the status-code handling of the catch block.
- `UsePerformance` (composables/usePerformance.ts): the composable as a
  class with the fields `scenario`, `loading` and `metrics`. The request is
  a function parameter that yields the response or a failure.
- `CsrFallback` (server/plugins/csr-fallback.ts): the page-request
  classifier, the CSR shell builder (filter, dedupe, join), the minimal
  shell, and the `beforeResponse` rewrite.
- `Types` and `JsMath`: the enumerations and records of types/index.ts, and
  `Math.round` on exact reals.

The headline results are these:

- The two simulator copies agree on every solution id and every valid
  scenario (`Init.GenerateAgreesWithSimulate`).
- The seeded collection answers every comparison query for a seeded id with
  exactly what the client's fallback computes
  (`UsePerformance.SeededServerAgreesWithFallback`).
- Every simulated metric is positive and no solution is worse than the
  baseline, so improvements over the baseline lie in [0, 100]
  (`Performance.ImprovementOverBaselineInRange`).

JavaScript numbers are modelled as exact reals, and `Math.round(x)` as
`Floor(x + 1/2)`.

## Model

| member | source | states |
|---|---|---|
| JsMath.Round | utils/performance.ts:72 | `Math.round` gives the integer within one half below and strictly less than one half above its argument |
| Performance.Percentage | utils/performance.ts:90-101 | one percentage of `calculateImprovement`: for a non-zero baseline, the rounded relative change; for a zero baseline, never finite, and NaN exactly when the optimized value is 0 too, +Infinity exactly when it is negative |
| Performance.CalculateImprovement | utils/performance.ts:88-103 | the improvement record has exactly the twelve metric keys |
| Types.ToDoc | types/index.ts:14-32 | a stored or sent metrics object has exactly the twelve fields, each holding the record's value |
| Performance.FactorsFor | utils/performance.ts:54-69 | `solutionFactors[solution] || {1, 1, 1, 1, 1}`; its range is stated by `FactorsForInRange` and `BaselineIsUnlisted` |
| Performance.ScenarioFactorsFrom | utils/performance.ts:48-51 | network factor latency / 50, CPU factor the multiplier, device factor 1 / cpu, cache factor 0.3, 0.1 or 1; bounds in `FactorsOfScenarioInRange` |
| Performance.FactorsOfScenario | utils/performance.ts:33-51 | the scenario factors read from the three configuration tables; bounds in `FactorsOfScenarioInRange` |
| Performance.Scale | utils/performance.ts:72-83 | a base multiplied left to right by a list of factors; monotone by `ScaleMonotone` |
| Performance.MetricsFrom | utils/performance.ts:71-84 | the twelve rounded formulas; monotone by `MetricsFromMonotone`, evaluated at the least factors by `MinimumOfFormula` |
| Performance.Simulate | utils/performance.ts:26-85 | `simulatePerformanceMetrics`; its positivity, monotonicity and independence properties are the lemmas below |
| Performance.FactorsForInRange | utils/performance.ts:54-69 | every solution's factors lie in (0, 1]; the smallest are lcp 0.3, fcp 0.2, fid 0.7, cls 0.9, size 0.2 |
| Performance.BaselineIsUnlisted | utils/performance.ts:54-69 | `'baseline'` is not in the factor table, so it gets the neutral factors |
| Performance.UnlistedSolutionIsBaseline | utils/performance.ts:69 | any id missing from the table simulates exactly like `'baseline'` |
| Performance.ScaleMonotone | utils/performance.ts:72-83 | a left-to-right product of non-negative factors grows when its base and each factor grow |
| Performance.RoundScaleMonotone | utils/performance.ts:72-83 | a rounded product is monotone in its factors |
| Performance.MetricsFromMonotone | utils/performance.ts:72-83 | smaller scenario and solution factors never give a larger value in any of the twelve fields |
| Performance.FactorsOfScenarioInRange | utils/performance.ts:4-51 | the network, CPU, device and cache factors the tables give every valid scenario, with their bounds |
| Performance.MinimumOfFormula | utils/performance.ts:72-84 | at the smallest factors the formula gives lcp 8 (7.5 rounded up), fcp 4, ttfb 2, fid 70, cls 0.09 and so on |
| Performance.SimulatedLowerBounds | utils/performance.ts:72-84 | every simulated field is at least that least record, so it is strictly positive |
| Performance.CachedNoWorseThanFirstLoad | utils/performance.ts:51-83 | a `'cached'` load is no larger than a `'first-load'` in any field, under the same network, CPU and device |
| Performance.SolutionNoWorseThanBaseline | utils/performance.ts:54-83 | in the same scenario, no solution is worse than the baseline in any field |
| Performance.PercentageInRange | utils/performance.ts:90-101 | with 0 < optimized <= baseline, the percentage is finite and in [0, 100] |
| Performance.ImprovementOverBaselineInRange | utils/performance.ts:88-103 | the improvement of any solution over the baseline in the same scenario is finite and in [0, 100] in every field |
| Performance.ImprovementOfSimulatedIsFinite | utils/performance.ts:88-103 | `calculateImprovement` of two simulated records never divides by zero |
| Performance.TimingIgnoresSolution | utils/performance.ts:74-78 | `ttfb`, `tti` and `si` are equal for any two solutions in the same scenario |
| Performance.SelfImprovementIsZero | utils/performance.ts:90-101 | a record compared with itself improves by 0 on every non-zero field |
| Performance.TimingImprovementIsZero | utils/performance.ts:94-97 | the improvement over the baseline is 0 for `ttfb`, `tti` and `si`, whatever the solution |
| Performance.ClsDependsOnlyOnSolution | utils/performance.ts:76 | `cls` is 0.1 for a solution with cls factor 1 and 0.09 otherwise, in every scenario |
| Performance.InteractionIgnoresNetworkAndCache | utils/performance.ts:75-79 | `fid` and `inp` depend only on the CPU throttle, the device and the solution |
| Performance.SizesIgnoreScenarioExceptCache | utils/performance.ts:80-83 | `requestCount` never depends on the scenario; the three sizes depend on it only through "is it `'cached'`", so `'offline'` sizes equal `'first-load'` sizes |
| Performance.WorkedExample | utils/performance.ts:48-90 | http-cache on 4g, no throttling, mid-range, first load: lcp 1500 against 5000, improvement 70 |
| Init.SeedScenarioFactors | server/api/init.get.ts:95-111 | the scenario factors from wire names with the fallbacks; stated by `GenerateFallbacks` and `SeedScenarioFactorsAgree` |
| Init.SeedFactorsFor | server/api/init.get.ts:129 | the server's factor lookup with the neutral default; stated by `SeedFactorsAgree` |
| Init.Generate | server/api/init.get.ts:68-145 | `generateMetrics`; equal to the simulator by `GenerateAgreesWithSimulate` |
| Init.SeedFactorsExtendSimulatorTable | server/api/init.get.ts:113-127 | the server's factor table is the simulator's table plus the neutral `'baseline'` row |
| Init.SeedFactorsAgree | server/api/init.get.ts:113-129 | both copies give every solution id the same factors, listed or not |
| Init.SeedScenarioFactorsAgree | server/api/init.get.ts:76-111 | for the wire names of a valid scenario, the server derives the same scenario factors as the simulator |
| Init.GenerateAgreesWithSimulate | server/api/init.get.ts:68-145 | `generateMetrics` equals `simulatePerformanceMetrics` for every solution id and every valid scenario |
| Init.UnknownSolutionIsBaseline | server/api/init.get.ts:114-129 | an id missing from the server's table yields the `'baseline'` metrics |
| Init.GenerateFallbacks | server/api/init.get.ts:95-111 | an unknown network behaves as `'4g'`, an unknown throttle as `'none'`, an unknown device as `'mid-range'`, and any cache status other than `'cached'` and `'offline'` as `'first-load'` |
| Init.MakeRow | server/api/init.get.ts:32-41 | the pushed document carries the tuple it was generated for |
| Init.QueryAt | server/api/init.get.ts:26-30 | the tuple of the t-th loop iteration; decoded by `RowAtPosition`, injective by `SeededQueriesUnique` |
| Init.RowAt | server/api/init.get.ts:26-41 | the document of the t-th loop iteration |
| Init.ScenarioQuery | composables/usePerformance.ts:31-34 | the request body `{ solutionId, ...scenario }` as a lookup filter; found by `FindSeeded` |
| Init.SeededPrefix | server/api/init.get.ts:24-46 | the first n documents of the loop: n of them, the t-th being the document of the t-th tuple in loop order |
| Init.Seeded | server/api/init.get.ts:26-46 | the loop yields (number of ids) × 108 documents, the t-th being the document of the t-th tuple in nested loop order |
| Init.SeededPrefixStep | server/api/init.get.ts:33-41 | one push extends the prefix by the next tuple's document |
| Init.RowAtPosition | server/api/init.get.ts:26-30 | the tuple at position (((i·4+a)·3+b)·3+c)·3+d is (ids[i], network a, throttle b, device c, cache d): solution outermost, cache status innermost |
| Init.GenerateMetricsData | server/api/init.get.ts:24-46 | the five nested loops build exactly the seeded sequence |
| Init.InitDatabase | server/api/init.get.ts:4-65 | a failed connection answers 500 and changes nothing; otherwise the solutions collection holds the catalogue, the metrics collection holds the seeded documents for `'baseline'` plus the catalogue, and the counts are the catalogue length and (1 + catalogue length) × 108 |
| Init.SeedCount | server/api/init.get.ts:18-55 | with the twelve catalogue ids the handler seeds 1404 documents |
| Init.SeededRowsAreGenerated | server/api/init.get.ts:32-39 | every seeded document's metrics are `generateMetrics` of its own tuple |
| Init.NetworkIndex | server/api/init.get.ts:18 | the loop position of each network name |
| Init.CpuIndex | server/api/init.get.ts:19 | the loop position of each CPU throttle name |
| Init.DeviceIndex | server/api/init.get.ts:20 | the loop position of each device name |
| Init.CacheIndex | server/api/init.get.ts:21 | the loop position of each cache status name |
| Init.SeededRowOfScenario | server/api/init.get.ts:26-39 | the document of solution i in scenario s has that tuple and holds the simulator's metrics |
| Init.NamesDistinct | server/api/init.get.ts:18-21 | the four enumerations the loop iterates have no repeated names |
| Init.SeededQueriesUnique | server/api/init.get.ts:22-30 | with distinct ids, each (solution, scenario) tuple is seeded exactly once |
| Init.FindSeeded | server/api/init.get.ts:26-46 | looking up a seeded id and a valid scenario finds the document with the simulator's metrics |
| Init.FindUnseededSolution | server/api/init.get.ts:22-46 | looking up an id that was not seeded finds nothing |
| Store.FindOne | server/api/performance/comparison.post.ts:11-17 | a found document is in the collection and matches the filter; nothing is found exactly when no document matches |
| Store.FindOneOfUniqueMatch | server/api/performance/comparison.post.ts:11-26 | when exactly one document matches, that document is found |
| Comparison.FieldOrZero | server/api/performance/comparison.post.ts:40-41 | a missing field reads as 0, a present one as its value |
| Comparison.MetricImprovement | server/api/performance/comparison.post.ts:39-47 | the guarded percentage of one metric name; stated by `NonPositiveBaselineGivesZero` and `MissingOptimizedGivesHundred` |
| Comparison.BaselineQuery | server/api/performance/comparison.post.ts:20-26 | the same filter with solution id `'baseline'` |
| Comparison.ComparisonResult | server/api/performance/comparison.post.ts:11-53 | the lookups, the 404 and the response; stated by `ComparisonOutcome` |
| Comparison.GuardedPercent | server/api/performance/comparison.post.ts:42-46 | 0 for a baseline at most 0; otherwise the same percentage as the unguarded calculator |
| Comparison.GuardedImprovement | server/api/performance/comparison.post.ts:36-47 | the improvement record has exactly the twelve metric keys |
| Comparison.ComputeImprovement | server/api/performance/comparison.post.ts:36-47 | the loop over the metric names fills exactly the guarded improvement record |
| Comparison.CaughtStatus | server/api/performance/comparison.post.ts:54-62 | an error's status code propagates unchanged; an error without one becomes 500 |
| Comparison.HandleComparison | server/api/performance/comparison.post.ts:3-63 | a failure to read the body or to connect propagates its status code, or 500 without one; otherwise the answer is the lookup result |
| Comparison.GuardedImprovementIsFinite | server/api/performance/comparison.post.ts:39-47 | no NaN or infinity ever reaches the response |
| Comparison.NonPositiveBaselineGivesZero | server/api/performance/comparison.post.ts:40-46 | a missing, zero or negative baseline field gives improvement 0 |
| Comparison.MissingOptimizedGivesHundred | server/api/performance/comparison.post.ts:41-43 | a missing optimized field against a positive baseline gives 100 |
| Comparison.GuardedAgreesWithCalculateImprovement | server/api/performance/comparison.post.ts:36-47 | on complete records with positive baselines, the guarded record equals `calculateImprovement` (utils/performance.ts:88-103) |
| Comparison.ComparisonOfFoundRecords | server/api/performance/comparison.post.ts:11-53 | when both documents are found with complete records and a positive baseline, the answer is those records with `calculateImprovement` of them |
| Comparison.ComparisonOutcome | server/api/performance/comparison.post.ts:11-53 | 404 exactly when the optimized document or the same-scenario baseline document is missing; otherwise the returned records are the stored metrics of matching documents, unchanged |
| UsePerformance.ApplyPatch | composables/usePerformance.ts:17-19 | `{ ...scenario, ...config }`; stated by `ApplyPatchOverwritesOnlySupplied` |
| UsePerformance.Fallback | composables/usePerformance.ts:40-65 | the locally simulated baseline, optimized record and improvement; equal to the seeded server's answer by `SeededServerAgreesWithFallback` |
| UsePerformance.MetricsOutcome | composables/usePerformance.ts:22-69 | the response data, or the fallback on failure; stated by `GetMetricsIndependentOfServer` |
| UsePerformance.ApplyPatchOverwritesOnlySupplied | composables/usePerformance.ts:17-19 | each supplied field replaces the old one, every other field is kept, and applying the patch twice changes nothing more |
| UsePerformance.PerformanceState.constructor | composables/usePerformance.ts:6-14 | initial state: 4g, no throttling, mid-range, first load; not loading; no metrics |
| UsePerformance.PerformanceState.UpdateScenario | composables/usePerformance.ts:17-19 | the scenario becomes the patched scenario; `loading` and `metrics` are unchanged |
| UsePerformance.PerformanceState.GetMetrics | composables/usePerformance.ts:22-69 | on success returns the response and keeps its optimized record; on failure returns the simulated baseline, optimized record and `calculateImprovement` and keeps the simulated optimized record; the scenario is unchanged and `loading` ends false |
| UsePerformance.PerformanceState.GetComparison | composables/usePerformance.ts:72-121 | returns the given solution with the response's or the simulated records; `metrics` and `scenario` are unchanged and `loading` ends false |
| UsePerformance.SeedIdsDistinct | server/api/init.get.ts:22 | the seeded ids, `'baseline'` then the catalogue, are distinct |
| UsePerformance.SeededServerAgreesWithFallback | composables/usePerformance.ts:40-65 | for every seeded id and valid scenario, the server's comparison over the seeded collection equals the client's fallback |
| UsePerformance.GetMetricsIndependentOfServer | composables/usePerformance.ts:22-69 | on the shipped catalogue, `getMetrics` returns the same data whether the request reaches the seeded server or fails |
| CsrFallback.SkipPath | server/plugins/csr-fallback.ts:7 | `SKIP_PATHS.test(path)`; characterised by `IsDocumentRequestMeans` |
| CsrFallback.AssetSuffixFrom | server/plugins/csr-fallback.ts:7 | the matcher of the asset alternative; characterised by `AssetSuffixFromMeans` |
| CsrFallback.IsDocumentRequest | server/plugins/csr-fallback.ts:9-13 | `isDocumentRequest`; characterised by `IsDocumentRequestMeans` |
| CsrFallback.AssetSuffixFromFindsDot | server/plugins/csr-fallback.ts:7 | when the `.*\.(ext)(\?.*)?$` alternative matches, there is a dot after a run without line terminators, followed by an asset extension and an optional query |
| CsrFallback.AssetDotIsFound | server/plugins/csr-fallback.ts:7 | conversely, such a dot makes the alternative match |
| CsrFallback.AssetSuffixFromMeans | server/plugins/csr-fallback.ts:7 | the alternative matches exactly when such a dot exists |
| CsrFallback.IsDocumentRequestMeans | server/plugins/csr-fallback.ts:9-13 | a page request is exactly a path that matches none of the `SKIP_PATHS` alternatives, with an Accept header containing `text/html` in any case |
| CsrFallback.SkippedPrefixIsNotDocument | server/plugins/csr-fallback.ts:7-10 | paths under `/api`, `/_nuxt`, `/__nuxt` and `/favicon.ico`, in any case, are not page requests |
| CsrFallback.AssetPathIsNotDocument | server/plugins/csr-fallback.ts:7-10 | a path ending in a dot, an asset extension and an optional query is not a page request |
| CsrFallback.AcceptWithoutHtmlIsNotDocument | server/plugins/csr-fallback.ts:6-11 | without `text/html` in the Accept header, in any case, nothing is a page request |
| CsrFallback.KeepScript | server/plugins/csr-fallback.ts:24 | the script filter; simplified by `KeepScriptMeansNuxt` |
| CsrFallback.KeepLink | server/plugins/csr-fallback.ts:29 | the stylesheet filter; stated by `LinkTagsAreNuxtOrCss` |
| CsrFallback.ScriptTags | server/plugins/csr-fallback.ts:22-26 | the tags the script loop pushes; stated by `ScriptTagsAreNuxt` |
| CsrFallback.LinkTags | server/plugins/csr-fallback.ts:27-30 | the tags the stylesheet loop pushes; stated by `LinkTagsAreNuxtOrCss` |
| CsrFallback.Dedupe | server/plugins/csr-fallback.ts:31 | `[...new Set(a)]`; stated by `DedupeProperties` |
| CsrFallback.Join | server/plugins/csr-fallback.ts:32-33 | `a.join(sep)` |
| CsrFallback.FallbackPage | server/plugins/csr-fallback.ts:34-46 | the shell page template around the joined tags |
| CsrFallback.FallbackHtml | server/plugins/csr-fallback.ts:16-47 | the page `buildCsrFallbackHtml` returns; stated by `FallbackHasNuxtRoot` |
| CsrFallback.BuildCsrFallbackHtml | server/plugins/csr-fallback.ts:16-47 | the two loops, the dedupe and the join build exactly the shell page of the filtered tags |
| CsrFallback.KeepScriptMeansNuxt | server/plugins/csr-fallback.ts:24 | the script filter "mentions `_nuxt` or `__nuxt`" is the same as "mentions `_nuxt`" |
| CsrFallback.ScriptTagsAreNuxt | server/plugins/csr-fallback.ts:22-26 | every emitted script tag loads a captured URL mentioning `_nuxt`, and every such URL is emitted |
| CsrFallback.LinkTagsAreNuxtOrCss | server/plugins/csr-fallback.ts:27-30 | every emitted stylesheet tag links a captured URL mentioning `_nuxt` or ending in `.css`, and every such URL is emitted |
| CsrFallback.SubsequenceOfLonger | server/plugins/csr-fallback.ts:31-33 | a subsequence stays a subsequence when the longer sequence grows |
| CsrFallback.SubsequenceDropLast | server/plugins/csr-fallback.ts:31-33 | dropping the last element of a subsequence keeps it a subsequence |
| CsrFallback.DedupeProperties | server/plugins/csr-fallback.ts:31-33 | dedupe keeps exactly the input's values, each once, as a subsequence of the input (first-occurrence order) |
| CsrFallback.DedupeInOrder | server/plugins/csr-fallback.ts:31 | dedupe lists the values in order of first occurrence: a value listed before another occurs in the input before every occurrence of that other |
| CsrFallback.FallbackHasNuxtRoot | server/plugins/csr-fallback.ts:34-47 | the shell page always contains `id="__nuxt"`, so it mentions `_nuxt` and the hook's last guard (line 91) always passes |
| CsrFallback.EntryPath | server/plugins/csr-fallback.ts:55 | the development or production entry |
| CsrFallback.MinimalPage | server/plugins/csr-fallback.ts:56-75 | the minimal page template around an entry |
| CsrFallback.BuildMinimalCsrHtml | server/plugins/csr-fallback.ts:54-76 | `buildMinimalCsrHtml`; stated by `MinimalPageContents` |
| CsrFallback.MinimalPageContents | server/plugins/csr-fallback.ts:54-76 | the minimal page carries the root element and loads `/_nuxt/entry.mjs` in development and `/_nuxt/entry.js` otherwise |
| CsrFallback.BodyText | server/plugins/csr-fallback.ts:87 | the body as a string: itself, the decoded buffer, or "" |
| CsrFallback.HasNuxtRoot | server/plugins/csr-fallback.ts:88 | the body mentions `id="__nuxt"` or `id='__nuxt'` |
| CsrFallback.RewriteApplies | server/plugins/csr-fallback.ts:84-88 | the hook's three early exits, negated |
| CsrFallback.Response.BeforeResponse | server/plugins/csr-fallback.ts:81-99 | status 200, `X-Render-Mode: csr-fallback` and the shell body exactly when the request is a page request, the status is 500 and the body is non-empty and contains `id="__nuxt"` or `id='__nuxt'`; otherwise nothing changes |

## Left out

- IEEE-754 doubles: all arithmetic is on exact reals. Results are not claimed bit-equal to JavaScript where double rounding matters. One example is an exact .5 such as lcp 7.5 (wifi, no throttling, high-end, offline, http-cache); the model rounds it up to 8.
- MongoDB: `connectToDatabase`, `deleteMany`, `insertMany` and `findOne` are modelled as sequences of documents held by a `Database` object. server/utils/db.ts is not part of this model.
- Init.InitDatabase: any failure is modelled as a failed connection before anything is written. A failure after `deleteMany` would leave the collections partly cleared, and the model does not capture that. `createdAt` timestamps, the `message` text and console logging are left out.
- Comparison.HandleComparison: `readBody` and the destructuring of the body are an input (the five filter strings, or the status code of a failure). Fields missing from the body are not modelled. A thrown error is modelled by its status code, with 0 standing for "no status code".
- Comparison.FieldOrZero: a stored field that is present but 0, NaN or another falsy value also reads as 0 in JavaScript; the model's documents hold only reals, and a 0 reads as 0 either way.
- `SolutionFactors[solution] || ...` on keys inherited from `Object.prototype` (such as `"constructor"`) is not modelled: every id missing from the table gets the neutral factors.
- Init.GenerateFallbacks: the lookups `networkConfigs[network] || ...`, `cpuThrottleConfigs[cpuThrottle] || 1` and `deviceConfigs[deviceType] || ...` (server/api/init.get.ts:95-97) find inherited `Object.prototype` members for names such as `"constructor"` or `"toString"`, so the fallback does not fire and the metrics become NaN. The model sends every unlisted name to the fallback, and the lemma is stated for that model; `Init.SeedScenarioFactors` and `Init.SeedFactorsFor` share this gap.
- UsePerformance: Vue refs, `$fetch`, and console logging are left out. The request is a function parameter returning the response or a failure. `loading` is true only while the request is in flight, which a sequential model cannot observe; the model states that it is false afterwards.
- UsePerformance.PerformanceState.GetMetrics: each call runs to completion before the next, and the scenario is read once. The source re-reads `scenario.value` after `await $fetch` (composables/usePerformance.ts:43-57), so an `updateScenario` while the request is pending makes the fallback simulate the new scenario; that interleaving is not modelled. Overlapping calls, where the first `finally` clears `loading` while the second is still pending, are not modelled either.
- UsePerformance.PerformanceState.GetComparison: the same as for `GetMetrics` (composables/usePerformance.ts:96-110): interleaved calls during the await, and the scenario re-read after it, are not modelled.
- UsePerformance.PerformanceState.UpdateScenario: a key supplied as explicitly `undefined` overwrites the field in JavaScript; the patch models only supplied and absent fields.
- CsrFallback: the two regular-expression scans of the failed page are an input (the captured `src` and `href` values in document order). The `try`/`catch` around the rebuild is left out because the model's builder cannot fail. A `Buffer` body is given by the text `String(buffer)` yields; decoding is not modelled.
- CsrFallback.Response.BeforeResponse: the path is given (the `event.path` or URL fallback is not modelled), and an absent Accept header is the empty string, as the hook itself does.
- CsrFallback.BuildMinimalCsrHtml: modelled, but nothing in the plugin calls it.
- server/routes/_nuxt/entry.js.get.ts (a dynamic import and a redirect), nuxt.config.ts, server/api/solutions/index.get.ts and server/api/solutions/[id].get.ts are not part of this model.
- server/utils/seedData.ts contributes only its twelve ids, in order (`Init.CatalogueIds`). The descriptive text and placeholder metrics are left out.
