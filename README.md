# Latency topology simulation — a Dafny model

This project models the simulation core of a latency visualizer for
cryptocurrency exchanges. The visualizer builds a synthetic network. Each
exchange server gets one link to its nearest cloud region, preferring regions
of its own provider. On every tick the simulation moves each link's latency by
a random jitter, floors it at 1 ms and appends a timestamped sample to a
history capped at 500 samples. The user interface then asks questions of this
state: which links the globe draws as arcs, the dashboard's count, average and
maximum over the filtered links, and the min/avg/max over a time window of the
selected link's history. The filter panel's toggles change the filters those
questions use.

Modules, one per source file, plus `Seqs` for the shared array operations:

- `Types` (`types.dfy`): the records of `src/types/index.ts` as datatypes.
- `Seqs` (`seqs.dfy`): the array operations the code relies on. `Filter` and
  `Find` model JavaScript's `filter` and `find`. `Sum`, `MinOf`, `MaxOf` and
  `Round` model `reduce`, `Math.min`, `Math.max` and `Math.round`. The module
  also defines subsequence ("same elements, same order") and proves the
  filtering lemmas.
- `Simulation` (`simulation.dfy`): `src/context/SimulationContext.tsx`. It
  holds the catalog, the latency estimate and the nearest-region scan. The
  scan is a method with a loop (`ScanNearest`, called by `FindNearestRegion`),
  proved equal to the function `NearestRegion`.
  It also holds link seeding, the tick, and the class `SimulationState`: the
  provider's state (`links`, `isRunning`, `filters`, `timeRange`,
  `selectedLinkId`) with one method per setter.
- `WorldMap` (`worldmap.dfy`): the globe's `isVisible` predicate and its arcs.
- `Dashboard` (`dashboard.dfy`): `filteredLinks`, `activeCount`, `avgLatency`
  and `maxLatency`.
- `LatencyChart` (`latencychart.dfy`): `RANGE_MS`, the selected-link lookup,
  the time window and its statistics.
- `FilterPanel` (`filterpanel.dfy`): the toggle, slider and clear handlers.

The model takes randomness, the clock and the distance function as
parameters. A jitter is the value `(Math.random() - 0.5) * 10`. `now` is
`Date.now()` in milliseconds. The great-circle distance `haversineKm` is an
arbitrary function of type `(real, real, real, real) -> real`. Every
nearest-region property holds for any such function. Latencies and timestamps
are integers, because every stored latency comes out of `Math.round`.
`Math.round(x)` is `(x + 0.5).Floor`. Coordinates are reals.

Points where the code behaves in a way one might not expect:

- One might expect the seed latency to be floored at 1 like the tick's. The
  code only rounds it (src/context/SimulationContext.tsx:233).
  `LinkInvariant` therefore does not promise a positive current latency.
  `SeedLatencyAtLeastFive` shows the seed is still at least 5 ms whenever the
  distance is nonnegative and the jitter is at least -5.
- The dashboard's filter does not check that the region exists, and it ignores
  the "show servers" toggle. The globe's predicate checks both
  (src/components/ui/DashboardOverlay.tsx:24-42 against
  src/components/globe/WorldMap.tsx:65-93). `GlobeWithinDashboard` proves that
  every arc is counted. `HiddenLinkStillCounted` gives a link that is counted
  but not drawn. `DashboardMatchesGlobeWhenResolved` proves the two agree when
  every target region exists and servers are shown. The store's `Valid()`
  guarantees that every target region exists.
- `findNearestRegion` with no regions returns `undefined`, and `initLinks` then
  fails on `region.lat`. The model returns `None` in both places.

## Model

| member | source | states |
|---|---|---|
| Simulation.BaseLatencyMs | src/context/SimulationContext.tsx:195-199 | the estimate is exactly 10 ms at distance 0 and at least 10 ms for any nonnegative distance |
| Simulation.FindServer | src/components/globe/WorldMap.tsx:66 | `servers.find` by id: none exactly when no server has the id; otherwise a server of the list with that id, and no earlier server has it |
| Simulation.FindRegion | src/components/globe/WorldMap.tsx:67 | `regions.find` by id: none exactly when no region has the id; otherwise a region of the list with that id, and no earlier region has it |
| Simulation.BaseLatencyMonotone | src/context/SimulationContext.tsx:195-199 | the estimate never decreases as the distance grows |
| Simulation.Candidates | src/context/SimulationContext.tsx:205-208 | if some region has the server's provider, the candidates are exactly those regions; otherwise they are all regions; either way they keep the order of the region list |
| Simulation.CandidatesCounts | src/context/SimulationContext.tsx:205-208 | when some region has the server's provider, each such region is a candidate as often as it occurs in the catalog, and no other region is |
| Simulation.NearestIndex | src/context/SimulationContext.tsx:210-219 | the index the loop ends on is at minimal distance over the scanned prefix, and every earlier index is strictly farther (strict `<` keeps the first minimum) |
| Simulation.NearestRegion | src/context/SimulationContext.tsx:201-222 | none exactly when there are no regions; otherwise a region of the list, of the server's provider when one exists, no farther than any candidate |
| Simulation.NearestRegionIsFirstMinimum | src/context/SimulationContext.tsx:210-221 | the result is the earliest candidate achieving the minimum distance |
| Simulation.ScanNearest | src/context/SimulationContext.tsx:210-221 | the loop with `best` starting at the first candidate and `bestDist` at Infinity, replacing only on a strictly smaller distance, ends on the first nearest candidate (none for no candidates) |
| Simulation.FindNearestRegion | src/context/SimulationContext.tsx:201-222 | choosing the candidates and scanning them returns exactly `NearestRegion` |
| Simulation.SeedLatencyAtLeastFive | src/context/SimulationContext.tsx:230-233 | the seed latency is unfloored, yet at least 5 ms for a nonnegative distance and a jitter of at least -5 |
| Simulation.SeedLatency | src/context/SimulationContext.tsx:230-233 | the seed latency is the integer nearest to the distance estimate plus the jitter (within half a millisecond), with no floor |
| Simulation.InitLink | src/context/SimulationContext.tsx:229-242 | the seeded link satisfies the link invariant, runs from the server to its nearest region, carries the seed latency, and has the one-sample history `(now, latency)` |
| Simulation.InitLinks | src/context/SimulationContext.tsx:224-243 | fails exactly when there are servers but no regions; otherwise one link per server in server order, with the server as source, its nearest region as target, id `source__target`, the seed latency for that server, region and jitter, and a one-sample history at `now` equal to the current latency |
| Simulation.InitLinksResolved | src/context/SimulationContext.tsx:229-241 | every seeded link's target is a region of the catalog |
| Simulation.NextLatency | src/context/SimulationContext.tsx:274-280 | the new latency is the integer nearest to current + jitter floored at 1 (within half a millisecond), so at least 1; a jitter in [-5, 5) moves a latency of at least 1 by at most 5 |
| Simulation.Keep | src/context/SimulationContext.tsx:287-291 | the kept history is a suffix of the input, of length min(input length, 500) |
| Simulation.KeepAppend | src/context/SimulationContext.tsx:282-291 | trimming before appending more samples keeps the same last 500 as trimming once at the end |
| Simulation.TickLink | src/context/SimulationContext.tsx:273-297 | id, source and target unchanged; latency at least 1; history grows by one up to 500, is a suffix of old history plus the new sample, and ends with the sample `(now, latency)` |
| Simulation.TickLinkKeepsInvariant | src/context/SimulationContext.tsx:273-297 | a tick keeps the history non-empty and at most 500 long, with the current latency equal to the last sample |
| Simulation.TickLinks | src/context/SimulationContext.tsx:271-298 | a tick keeps the number and order of links and advances each link independently |
| Simulation.TickLinksKeepsStructure | src/context/SimulationContext.tsx:273-297 | a tick keeps each link's invariant, its source and the existence of its target region |
| Simulation.TickLinkRepeatedlyKeepsInvariant | src/context/SimulationContext.tsx:270-299 | any number of ticks keeps the invariant and the link's ends; after at least one tick the latency is at least 1 |
| Simulation.TickLinkRepeatedlyTimestamps | src/context/SimulationContext.tsx:282-291 | after n ticks the history's timestamps are the last 500 of the old timestamps followed by the n tick instants |
| Simulation.TickLinkRepeatedlyLength | src/context/SimulationContext.tsx:282-291 | after n ticks the history length is min(old length + n, 500) |
| Simulation.FiveHundredOneTicks | src/context/SimulationContext.tsx:282-291 | 501 ticks on a one-sample seed leave 500 samples: the seed and the first tick are evicted, and the newest sample is last |
| Simulation.SimulationState.constructor | src/context/SimulationContext.tsx:247-264 | initial state: the catalog, the seeded links, running, providers AWS/GCP/Azure, no exchanges, range [0, 300], window 1h, nothing selected |
| Simulation.SimulationState.Tick | src/context/SimulationContext.tsx:266-303 | when running, the links become the ticked links; when paused, nothing changes; nothing but the links is touched |
| Simulation.SimulationState.ToggleSimulation | src/context/SimulationContext.tsx:305-308 | `isRunning` is negated and nothing else changes |
| Simulation.SimulationState.SetProviders | src/context/SimulationContext.tsx:310-312 | only `filters.providers` is replaced |
| Simulation.SimulationState.SetExchangesFilter | src/context/SimulationContext.tsx:314-316 | only `filters.exchanges` is replaced |
| Simulation.SimulationState.SetLatencyRange | src/context/SimulationContext.tsx:318-320 | only the two latency bounds are replaced |
| Simulation.SimulationState.SetTimeRange | src/context/SimulationContext.tsx:263 | only the time range is replaced |
| Simulation.SimulationState.SetSelectedLinkId | src/context/SimulationContext.tsx:264 | only the selected link id is replaced |
| Simulation.PausedTicksChangeNothing | src/context/SimulationContext.tsx:267-268 | after pausing, any number of interval firings leave the links exactly as they were |
| WorldMap.VisibleMeans | src/components/globe/WorldMap.tsx:65-93 | a visible link has its server and region in the catalog, a provider in the filter, its server in a non-empty exchange list, a latency within the inclusive bounds, and servers shown |
| WorldMap.IsVisible | src/components/globe/WorldMap.tsx:65-93 | visible exactly when the first server with the link's source id and the first region with its target id exist, the server's provider is selected, the source is in a non-empty exchange list, the latency is within the inclusive bounds, and servers are shown |
| WorldMap.VisibleLinks | src/components/globe/WorldMap.tsx:95-96 | a link is kept exactly when it is in the list and visible, and every occurrence of a visible link is kept (same multiplicity); the kept links are in their original order; nothing is kept when servers are hidden |
| WorldMap.MissingEndNotVisible | src/components/globe/WorldMap.tsx:66-68 | a link with a missing server or region is not visible, and this is not an error |
| WorldMap.ArcsOf | src/components/globe/WorldMap.tsx:97-108 | one arc per link, in order; each starts at the coordinates of the first server with the link's source id and ends at those of the first region with its target id |
| WorldMap.Arcs | src/components/globe/WorldMap.tsx:63-109 | no arcs when servers are hidden, and never more arcs than links |
| WorldMap.ArcsAreVisibleLinks | src/components/globe/WorldMap.tsx:95-108 | the arcs' links are exactly the visible links, in their original order, and each arc starts at the first matching server's coordinates and ends at the first matching region's |
| WorldMap.VisibleUnderWider | src/components/globe/WorldMap.tsx:65-93 | a link visible under some filters stays visible under wider filters |
| WorldMap.ArcsMonotone | src/components/globe/WorldMap.tsx:63-109 | widening the filters (more providers, a cleared or larger exchange list, a wider range) never removes an arc |
| Dashboard.FilteredLinks | src/components/ui/DashboardOverlay.tsx:24-42 | a link is kept exactly when it is in the list, its server exists, and it passes the provider, exchange and inclusive latency checks; every occurrence of a passing link is kept and no occurrence of a failing one |
| Dashboard.PassesFilters | src/components/ui/DashboardOverlay.tsx:24-42 | passes exactly when the first server with the link's source id exists, its provider is selected, the source is in a non-empty exchange list, and the latency is within the inclusive bounds; regions and the show-servers toggle play no part |
| Dashboard.FilteredLinksInOrder | src/components/ui/DashboardOverlay.tsx:24-42 | the filtered links keep their original order |
| Dashboard.ActiveCount | src/components/ui/DashboardOverlay.tsx:44 | the count is the number of filtered links, counting repeated links each time; at most the number of links, and zero exactly when no link passes |
| Dashboard.AvgLatency | src/components/ui/DashboardOverlay.tsx:45-51 | null exactly when the count is 0; otherwise the sum over the count rounded to the nearest integer, between the smallest and largest filtered latency |
| Dashboard.MaxLatency | src/components/ui/DashboardOverlay.tsx:53-56 | null exactly when the count is 0; otherwise the latency of some filtered link and at least every filtered latency |
| Dashboard.GlobeWithinDashboard | src/components/ui/DashboardOverlay.tsx:24-42 | the globe's visible links are a subsequence of the dashboard's filtered links, so every arc is counted |
| Dashboard.DashboardMatchesGlobeWhenResolved | src/components/globe/WorldMap.tsx:65-93 | with every target region present and servers shown, the globe and the dashboard select the same links |
| Dashboard.HiddenLinkStillCounted | src/components/ui/DashboardOverlay.tsx:24-42 | a link with a missing region is counted by the dashboard but not drawn |
| Dashboard.DefaultFiltersAdmit | src/context/SimulationContext.tsx:256-261 | the initial filters pass exactly the links whose server exists and whose latency is in [0, 300]; on the globe they also need the region and servers shown |
| LatencyChart.WindowMs | src/components/ui/LatencyChart.tsx:46 | the window of a time range is its entry in the table, which every range has; every window is at least one hour |
| LatencyChart.WindowsIncreasing | src/components/ui/LatencyChart.tsx:15-20 | the four ranges are 3,600,000, 86,400,000, 604,800,000 and 2,592,000,000 ms, strictly increasing from 1h to 30d |
| LatencyChart.SelectedLink | src/components/ui/LatencyChart.tsx:32 | the first link whose id equals the selected id; none when nothing is selected or no id matches |
| LatencyChart.WindowSamples | src/components/ui/LatencyChart.tsx:48-50 | a sample is kept exactly when it is in the history and `now - timestamp <= windowMs`, and each kept sample as often as it occurs in the history |
| LatencyChart.WindowInOrder | src/components/ui/LatencyChart.tsx:48-50 | the window keeps the history's order |
| LatencyChart.WindowMonotone | src/components/ui/LatencyChart.tsx:48-50 | a longer window keeps every sample that a shorter one keeps |
| LatencyChart.RangesNested | src/components/ui/LatencyChart.tsx:15-20 | the 1h window is inside the 24h window, 24h inside 7d, and 7d inside 30d |
| LatencyChart.Chart | src/components/ui/LatencyChart.tsx:34-93 | no selection gives empty data and null statistics. Otherwise the data is the selected link's samples inside the chosen time range's window. An empty window gives null min, max and avg. Otherwise min and max are latencies of kept samples bounding them all, avg is sum over count, min <= avg <= max, and the label is the link's label |
| LatencyChart.LinkLabel | src/components/ui/LatencyChart.tsx:76-84 | the link's id when its server or its region is missing; otherwise `server name → region name` for the first server and first region with the link's ids, which are in the catalog |
| FilterPanel.Toggle | src/components/ui/FilterPanel.tsx:35-51 | the toggled item's membership flips, other items' membership is unchanged, and an absent item is appended at the end |
| FilterPanel.TogglePresentRemovesAll | src/components/ui/FilterPanel.tsx:37-38 | toggling a present item removes all its occurrences and keeps every other element, with the same multiplicity and order |
| FilterPanel.ToggleTwiceRestores | src/components/ui/FilterPanel.tsx:35-51 | toggling an absent item twice gives back the original list |
| FilterPanel.ToggleKeepsNoDuplicates | src/components/ui/FilterPanel.tsx:35-51 | a list without duplicates stays without duplicates |
| FilterPanel.ToggleProvider | src/components/ui/FilterPanel.tsx:35-42 | the providers become the toggled list; the rest of the state is untouched |
| FilterPanel.ToggleExchange | src/components/ui/FilterPanel.tsx:44-51 | the exchanges become the toggled list; the rest of the state is untouched |
| FilterPanel.HandleMaxLatencyChange | src/components/ui/FilterPanel.tsx:53-56 | the range becomes exactly [0, value] |
| FilterPanel.ClearExchanges | src/components/ui/FilterPanel.tsx:146-151 | the exchange list becomes empty |
| FilterPanel.ProviderOnKeepsArcs | src/components/ui/FilterPanel.tsx:35-42 | switching a provider on never removes an arc |
| FilterPanel.ClearKeepsArcs | src/components/ui/FilterPanel.tsx:148 | clearing the exchange list never removes an arc |
| FilterPanel.RaiseMaxKeepsArcs | src/components/ui/FilterPanel.tsx:53-56 | raising the slider from a range with a nonnegative minimum never removes an arc |

## Left out

- `haversineKm` (src/context/SimulationContext.tsx:176-193) is trigonometric floating-point code. The model takes the distance as a parameter and makes no claim about symmetry, about d(a, a) = 0, or about which concrete region the catalog assigns to each server.
- Floating-point behaviour (NaN, Infinity, rounding error) is not modelled. Distances, jitters and the chart's mean are exact reals. Latencies, timestamps and filter bounds are exact integers.
- `Math.random` and `Date.now` are parameters of the operations that call them.
- The `setInterval`/`useEffect`/`clearInterval` timing is not modelled. One interval firing is the explicit method `Tick`. The 5-second cadence and the replacement of the interval on a toggle are not modelled.
- React context plumbing and the `useSimulation` throw (src/context/SimulationContext.tsx:345-353) are framework glue.
- The chart's use of `Date.now()` inside `useMemo` is not modelled, so the model does not capture a chart computed at a stale `now`. `Chart` takes `now` as a parameter.
- The chart's point formatting (`toLocaleTimeString`) and the display formatting with `toFixed` are not modelled. `ChartView.data` holds the window's samples.
- `Number(e.target.value)` is not modelled: `HandleMaxLatencyChange` receives the slider's value as an integer.
- src/hooks/useLatency.ts is not part of this model. It covers WebSocket probing, promises and a timeout: network I/O and concurrency.
- Rendering has no algorithmic content and is not part of this model: src/components/GlobeViz.tsx, the globe's points, camera and arc colours (src/components/globe/WorldMap.tsx:28-61, src/components/globe/WorldMap.tsx:111-187), and the JSX layout.
- src/data/exchanges.ts, src/data/cloudRegions.ts and src/app/page.tsx are not part of this model. The catalog the provider actually uses is the mock data of src/context/SimulationContext.tsx:52-172, which is `MockServers` and `MockRegions`.
- A fixed-capacity ring buffer is not modelled. The history is a `seq` trimmed by `Keep`, like the code's `slice`.
- WorldMap.VisibleMeans: states only the consequences of visibility, over the catalog. Both directions, in terms of the first matching server and region, are the contract of `WorldMap.IsVisible`.
- LatencyChart.WindowMs: the `?? RANGE_MS["1h"]` fallback (src/components/ui/LatencyChart.tsx:46) is left out. The time range is a `TimeRange`, whose four keys are all in the table, so the fallback cannot be reached. A lookup of an arbitrary string on a JavaScript object, including inherited keys such as `"constructor"`, is not modelled.
- `DefaultFilters` and `RangeMs` are constants. Their values are stated by `Simulation.SimulationState.constructor`, `Dashboard.DefaultFiltersAdmit`, `LatencyChart.WindowMs` and `LatencyChart.WindowsIncreasing`.
