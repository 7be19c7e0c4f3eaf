/**
 * The latency simulation: the static catalog of exchange servers and cloud
 * regions, the nearest-region assignment, the seeding of one link per server,
 * the periodic tick that walks every link's latency and appends a sample to its
 * bounded history, and the store that owns this state and the user's filters.
 *
 * Randomness, the clock and the great-circle distance are parameters: a jitter
 * is the value `(Math.random() - 0.5) * 10`, a `now` is `Date.now()` in
 * milliseconds, and `DistanceKm(lat1, lng1, lat2, lng2)` stands for `haversineKm`.
 */
module Simulation {
  import opened Types
  import opened Seqs

  type DistanceKm = (real, real, real, real) -> real

  /** Number of samples a link keeps; older ones are dropped first. */
  const MaxHistory: nat := 500

  // ---------------------------------------------------------------- catalog

  const MockServers: seq<ExchangeServer> := [
    ExchangeServer("binance-tokyo", "Binance (Asia)", AWS, 35.6895, 139.6917, "Asia"),
    ExchangeServer("coinbase-sf", "Coinbase (US)", GCP, 37.7749, -122.4194, "North America"),
    ExchangeServer("kraken-eu", "Kraken (EU)", Azure, 53.3498, -6.2603, "Europe"),
    ExchangeServer("bybit-dubai", "Bybit (MENA)", AWS, 25.2048, 55.2708, "Middle East"),
    ExchangeServer("okx-hk", "OKX (HK)", GCP, 22.3193, 114.1694, "Asia"),
    ExchangeServer("deribit-amsterdam", "Deribit (EU)", Azure, 52.3676, 4.9041, "Europe")
  ]

  const MockRegions: seq<CloudRegion> := [
    CloudRegion("aws-us-east-1", AWS, "AWS US East (N. Virginia)", 38.88, -77.03),
    CloudRegion("aws-eu-west-1", AWS, "AWS EU (Ireland)", 53.34, -6.26),
    CloudRegion("aws-ap-northeast-1", AWS, "AWS AP (Tokyo)", 35.68, 139.69),
    CloudRegion("gcp-us-central1", GCP, "GCP US Central (Iowa)", 41.87, -93.6),
    CloudRegion("gcp-europe-west1", GCP, "GCP Europe West (Belgium)", 50.45, 3.82),
    CloudRegion("gcp-asia-east1", GCP, "GCP Asia East (Taiwan)", 25.03, 121.56),
    CloudRegion("azure-eastus", Azure, "Azure East US", 37.37, -79.85),
    CloudRegion("azure-westeurope", Azure, "Azure West Europe", 52.36, 4.9),
    CloudRegion("azure-japaneast", Azure, "Azure Japan East", 35.68, 139.69)
  ]

  /** `servers.find((s) => s.id === id)` */
  function FindServer(servers: seq<ExchangeServer>, id: string): (r: Option<ExchangeServer>)
    ensures r.None? <==> forall s :: s in servers ==> s.id != id
    ensures r.Some? ==> r.value in servers && r.value.id == id
    ensures r.Some? ==> exists k :: 0 <= k < |servers| && servers[k] == r.value &&
                         forall j :: 0 <= j < k ==> servers[j].id != id
  {
    Find(servers, (s: ExchangeServer) => s.id == id)
  }

  /** `regions.find((r) => r.id === id)` */
  function FindRegion(regions: seq<CloudRegion>, id: string): (r: Option<CloudRegion>)
    ensures r.None? <==> forall g :: g in regions ==> g.id != id
    ensures r.Some? ==> r.value in regions && r.value.id == id
    ensures r.Some? ==> exists k :: 0 <= k < |regions| && regions[k] == r.value &&
                         forall j :: 0 <= j < k ==> regions[j].id != id
  {
    Find(regions, (r: CloudRegion) => r.id == id)
  }

  // ------------------------------------------------------- latency estimate

  /** Estimated latency for a distance: 2.5 ms per 200 km plus a 10 ms overhead. */
  function BaseLatencyMs(distanceKm: real): (ms: real)
    ensures distanceKm == 0.0 ==> ms == 10.0
    ensures distanceKm >= 0.0 ==> ms >= 10.0
  {
    var theoretical := distanceKm / 200.0;
    theoretical * 2.5 + 10.0
  }

  lemma BaseLatencyMonotone(d1: real, d2: real)
    requires d1 <= d2
    ensures BaseLatencyMs(d1) <= BaseLatencyMs(d2)
  {
  }

  // ------------------------------------------------------- nearest region

  function RegionDistance(server: ExchangeServer, r: CloudRegion, dist: DistanceKm): real
  {
    dist(server.lat, server.lng, r.lat, r.lng)
  }

  function SameProviderTest(server: ExchangeServer): CloudRegion -> bool
  {
    (r: CloudRegion) => r.provider == server.provider
  }

  /** The regions of the server's provider, or every region if its provider has none. */
  function Candidates(server: ExchangeServer, regions: seq<CloudRegion>): (c: seq<CloudRegion>)
    ensures (exists r :: r in regions && r.provider == server.provider) ==>
              c != [] &&
              (forall r :: r in c ==> r in regions && r.provider == server.provider) &&
              (forall r :: r in regions && r.provider == server.provider ==> r in c)
    ensures (forall r :: r in regions ==> r.provider != server.provider) ==> c == regions
    ensures IsSubsequence(c, regions)
  {
    var sameProvider := Filter(regions, SameProviderTest(server));
    FilterIsSubsequence(regions, SameProviderTest(server));
    SubsequenceReflexive(regions);
    assert |sameProvider| > 0 ==> sameProvider[0] in sameProvider;
    if |sameProvider| > 0 then sameProvider else regions
  }

  /** With a region of the server's provider present, the candidates keep each such region as often as the catalog lists it. */
  lemma CandidatesCounts(server: ExchangeServer, regions: seq<CloudRegion>)
    requires exists q :: q in regions && q.provider == server.provider
    ensures forall r :: multiset(Candidates(server, regions))[r] ==
              if r.provider == server.provider then multiset(regions)[r] else 0
  {
    FilterCounts(regions, SameProviderTest(server));
  }

  /**
   * Index of the region of `c[..n]` nearest to `server`, the earliest one on a tie:
   * the value `best` holds after the loop over `c[..n]` with its strict `<`.
   */
  function NearestIndex(server: ExchangeServer, c: seq<CloudRegion>, dist: DistanceKm, n: nat): (k: nat)
    requires 0 < n <= |c|
    ensures k < n
    ensures forall j :: 0 <= j < n ==> RegionDistance(server, c[k], dist) <= RegionDistance(server, c[j], dist)
    ensures forall j :: 0 <= j < k ==> RegionDistance(server, c[k], dist) < RegionDistance(server, c[j], dist)
  {
    if n == 1 then 0
    else
      var k := NearestIndex(server, c, dist, n - 1);
      if RegionDistance(server, c[n - 1], dist) < RegionDistance(server, c[k], dist) then n - 1 else k
  }

  /** The region `findNearestRegion` returns; None where it returns `undefined`. */
  function NearestRegion(server: ExchangeServer, regions: seq<CloudRegion>, dist: DistanceKm): (r: Option<CloudRegion>)
    ensures r.None? <==> regions == []
    ensures r.Some? ==> r.value in regions
    ensures r.Some? && (exists q :: q in regions && q.provider == server.provider) ==>
              r.value.provider == server.provider
    ensures r.Some? ==> forall j :: 0 <= j < |Candidates(server, regions)| ==>
              RegionDistance(server, r.value, dist) <= RegionDistance(server, Candidates(server, regions)[j], dist)
  {
    var c := Candidates(server, regions);
    if c == [] then None
    else
      var k := NearestIndex(server, c, dist, |c|);
      assert c[k] in c;
      Some(c[k])
  }

  /** The result of `NearestRegion` is the earliest candidate at minimal distance. */
  lemma {:induction false} NearestRegionIsFirstMinimum(server: ExchangeServer, regions: seq<CloudRegion>, dist: DistanceKm)
    requires regions != []
    ensures exists k :: 0 <= k < |Candidates(server, regions)| && IsFirstNearest(server, Candidates(server, regions), dist, k)
                        && Candidates(server, regions)[k] == NearestRegion(server, regions, dist).value
  {
    var c := Candidates(server, regions);
    var k := NearestIndex(server, c, dist, |c|);
    assert IsFirstNearest(server, c, dist, k);
  }

  /** `c[k]` is at minimal distance among `c`, and every earlier candidate is strictly farther. */
  ghost predicate IsFirstNearest(server: ExchangeServer, c: seq<CloudRegion>, dist: DistanceKm, k: nat)
    requires k < |c|
  {
    && (forall j :: 0 <= j < |c| ==> RegionDistance(server, c[k], dist) <= RegionDistance(server, c[j], dist))
    && (forall j :: 0 <= j < k ==> RegionDistance(server, c[k], dist) < RegionDistance(server, c[j], dist))
  }

  /** `Infinity` and the finite distances `bestDist` takes. */
  datatype ExtReal = Finite(value: real) | Infinity

  predicate Below(d: real, e: ExtReal)
  {
    e.Infinity? || d < e.value
  }

  /**
   * The loop of `findNearestRegion`: `best` starts at `candidates[0]` (undefined
   * for no candidates) and `bestDist` at `Infinity`, and a region replaces `best`
   * only when it is strictly nearer.
   */
  method ScanNearest(server: ExchangeServer, candidates: seq<CloudRegion>, dist: DistanceKm)
    returns (best: Option<CloudRegion>)
    ensures candidates == [] ==> best == None
    ensures candidates != [] ==> best == Some(candidates[NearestIndex(server, candidates, dist, |candidates|)])
  {
    best := if |candidates| > 0 then Some(candidates[0]) else None;
    var bestDist := Infinity;
    for i := 0 to |candidates|
      invariant i == 0 ==> bestDist == Infinity && best == (if |candidates| > 0 then Some(candidates[0]) else None)
      invariant i > 0 ==> best == Some(candidates[NearestIndex(server, candidates, dist, i)])
      invariant i > 0 ==> bestDist == Finite(RegionDistance(server, best.value, dist))
    {
      var r := candidates[i];
      var d := RegionDistance(server, r, dist);
      if Below(d, bestDist) {
        bestDist := Finite(d);
        best := Some(r);
      }
    }
  }

  /** `findNearestRegion`: the scan over the same-provider regions, or over all regions when there are none. */
  method FindNearestRegion(server: ExchangeServer, regions: seq<CloudRegion>, dist: DistanceKm)
    returns (best: Option<CloudRegion>)
    ensures best == NearestRegion(server, regions, dist)
  {
    var candidates := Candidates(server, regions);
    best := ScanNearest(server, candidates, dist);
  }

  // ------------------------------------------------------------ links

  /** A link as the store keeps it: a seeded, bounded history ending in the current latency. */
  ghost predicate LinkInvariant(l: LatencyLink)
  {
    && 1 <= |l.history| <= MaxHistory
    && l.currentLatencyMs == l.history[|l.history| - 1].latencyMs
    && l.id == l.sourceId + "__" + l.targetId
  }

  /** The seed latency: the estimate for the distance plus one jitter, rounded and NOT floored. */
  function SeedLatency(server: ExchangeServer, region: CloudRegion, jitter: real, dist: DistanceKm): (ms: int)
    ensures var exact := BaseLatencyMs(RegionDistance(server, region, dist)) + jitter;
            ms as real - 0.5 <= exact < ms as real + 0.5
  {
    Round(BaseLatencyMs(RegionDistance(server, region, dist)) + jitter)
  }

  /** For a nonnegative distance and a jitter of at least -5 ms the unfloored seed is still at least 5 ms. */
  lemma SeedLatencyAtLeastFive(server: ExchangeServer, region: CloudRegion, jitter: real, dist: DistanceKm)
    requires RegionDistance(server, region, dist) >= 0.0
    requires jitter >= -5.0
    ensures SeedLatency(server, region, jitter, dist) >= 5
  {
    RoundBetween(BaseLatencyMs(RegionDistance(server, region, dist)) + jitter, 5,
                 Round(BaseLatencyMs(RegionDistance(server, region, dist)) + jitter) + 5);
  }

  function InitLink(server: ExchangeServer, regions: seq<CloudRegion>, now: int, jitter: real, dist: DistanceKm): (l: LatencyLink)
    requires regions != []
    ensures LinkInvariant(l)
    ensures l.sourceId == server.id
    ensures l.targetId == NearestRegion(server, regions, dist).value.id
    ensures l.currentLatencyMs == SeedLatency(server, NearestRegion(server, regions, dist).value, jitter, dist)
    ensures l.history == [LatencySample(now, l.currentLatencyMs)]
  {
    var region := NearestRegion(server, regions, dist).value;
    var latency := SeedLatency(server, region, jitter, dist);
    LatencyLink(server.id + "__" + region.id, server.id, region.id, latency, [LatencySample(now, latency)])
  }

  /**
   * `initLinks`: one link per server, in server order, to its nearest region.
   * None where the JavaScript throws: some server and no region at all.
   */
  function InitLinks(servers: seq<ExchangeServer>, regions: seq<CloudRegion>, now: int,
                     jitters: seq<real>, dist: DistanceKm): (r: Option<seq<LatencyLink>>)
    requires |jitters| == |servers|
    ensures r.None? <==> servers != [] && regions == []
    ensures r.Some? ==> |r.value| == |servers|
    ensures r.Some? ==> forall i :: 0 <= i < |servers| ==>
              && LinkInvariant(r.value[i])
              && r.value[i].sourceId == servers[i].id
              && r.value[i].targetId == NearestRegion(servers[i], regions, dist).value.id
              && r.value[i].currentLatencyMs == SeedLatency(servers[i], NearestRegion(servers[i], regions, dist).value, jitters[i], dist)
              && r.value[i].history == [LatencySample(now, r.value[i].currentLatencyMs)]
  {
    if servers != [] && regions == [] then None
    else Some(seq(|servers|, i requires 0 <= i < |servers| => InitLink(servers[i], regions, now, jitters[i], dist)))
  }

  // ------------------------------------------------------------ tick

  /** One step of the random walk: add the jitter, floor at 1, round. */
  function NextLatency(current: int, jitter: real): (latency: int)
    ensures latency >= 1
    ensures var next := current as real + jitter;
            var floored := if next < 1.0 then 1.0 else next;
            latency as real - 0.5 <= floored < latency as real + 0.5
    ensures current >= 1 && -5.0 <= jitter < 5.0 ==> current - 5 <= latency <= current + 5
  {
    var next := current as real + jitter;
    var floored := if next < 1.0 then 1.0 else next;
    Round(floored)
  }

  /** The last `MaxHistory` elements of `s`: `s.slice(s.length - 500)` when longer. */
  function Keep<T>(s: seq<T>): (r: seq<T>)
    ensures |r| == if |s| > MaxHistory then MaxHistory else |s|
    ensures r == s[|s| - |r|..]
  {
    if |s| > MaxHistory then s[|s| - MaxHistory..] else s
  }

  /** Keeping the tail of a long enough suffix of `u` is keeping the tail of `u`. */
  lemma KeepOfSuffix<T>(t: seq<T>, u: seq<T>)
    requires |t| <= |u| && t == u[|u| - |t|..]
    requires |t| >= MaxHistory || |t| == |u|
    ensures Keep(t) == Keep(u)
  {
    if |t| > MaxHistory {
      assert Keep(t) == u[|u| - MaxHistory..];
    }
  }

  lemma {:induction false} KeepAppend<T>(s: seq<T>, tail: seq<T>)
    ensures Keep(Keep(s) + tail) == Keep(s + tail)
  {
    var k := Keep(s);
    assert (s + tail)[|s + tail| - |k + tail|..] == k + tail;
    KeepOfSuffix(k + tail, s + tail);
  }

  /** One tick of one link. */
  function TickLink(link: LatencyLink, now: int, jitter: real): (r: LatencyLink)
    ensures r.id == link.id && r.sourceId == link.sourceId && r.targetId == link.targetId
    ensures r.currentLatencyMs >= 1
    ensures r.currentLatencyMs == NextLatency(link.currentLatencyMs, jitter)
    ensures |r.history| == if |link.history| + 1 > MaxHistory then MaxHistory else |link.history| + 1
    ensures r.history[|r.history| - 1] == LatencySample(now, r.currentLatencyMs)
    ensures r.history == (link.history + [LatencySample(now, r.currentLatencyMs)])[|link.history| + 1 - |r.history|..]
  {
    var latency := NextLatency(link.currentLatencyMs, jitter);
    var newHistory := link.history + [LatencySample(now, latency)];
    link.(currentLatencyMs := latency, history := Keep(newHistory))
  }

  lemma TickLinkKeepsInvariant(link: LatencyLink, now: int, jitter: real)
    requires LinkInvariant(link)
    ensures LinkInvariant(TickLink(link, now, jitter))
  {
  }

  /** One tick of the whole link list: every link advanced independently, in place. */
  function TickLinks(links: seq<LatencyLink>, now: int, jitters: seq<real>): (r: seq<LatencyLink>)
    requires |jitters| == |links|
    ensures |r| == |links|
    ensures forall i :: 0 <= i < |links| ==> r[i] == TickLink(links[i], now, jitters[i])
  {
    seq(|links|, i requires 0 <= i < |links| => TickLink(links[i], now, jitters[i]))
  }

  /** Successive ticks of one link at the instants `nows` with the jitters `jitters`. */
  function TickLinkRepeatedly(link: LatencyLink, nows: seq<int>, jitters: seq<real>): LatencyLink
    requires |nows| == |jitters|
    decreases |nows|
  {
    if nows == [] then link
    else TickLinkRepeatedly(TickLink(link, nows[0], jitters[0]), nows[1..], jitters[1..])
  }

  function Timestamps(h: seq<LatencySample>): (t: seq<int>)
    ensures |t| == |h| && forall i :: 0 <= i < |h| ==> t[i] == h[i].timestamp
  {
    seq(|h|, i requires 0 <= i < |h| => h[i].timestamp)
  }

  lemma TimestampsKeep(h: seq<LatencySample>, s: LatencySample)
    ensures Timestamps(Keep(h + [s])) == Keep(Timestamps(h) + [s.timestamp])
  {
    var l, r := Timestamps(Keep(h + [s])), Keep(Timestamps(h) + [s.timestamp]);
    assert |l| == |r|;
    forall i | 0 <= i < |l| ensures l[i] == r[i] {
      var off := |h| + 1 - |l|;
      assert l[i] == (h + [s])[off + i].timestamp;
      assert r[i] == (Timestamps(h) + [s.timestamp])[off + i];
    }
  }

  /** Any number of ticks keeps the link's invariant and its ends; once one ran, the latency is at least 1. */
  lemma {:induction false} TickLinkRepeatedlyKeepsInvariant(link: LatencyLink, nows: seq<int>, jitters: seq<real>)
    requires |nows| == |jitters|
    requires LinkInvariant(link)
    ensures var r := TickLinkRepeatedly(link, nows, jitters);
            && LinkInvariant(r)
            && r.id == link.id && r.sourceId == link.sourceId && r.targetId == link.targetId
            && (nows != [] ==> r.currentLatencyMs >= 1)
    decreases |nows|
  {
    if nows != [] {
      var next := TickLink(link, nows[0], jitters[0]);
      TickLinkKeepsInvariant(link, nows[0], jitters[0]);
      TickLinkRepeatedlyKeepsInvariant(next, nows[1..], jitters[1..]);
    }
  }

  /**
   * After any number of ticks the history holds exactly the timestamps of the
   * last `MaxHistory` of: the old samples followed by one sample per tick.
   */
  lemma {:induction false} TickLinkRepeatedlyTimestamps(link: LatencyLink, nows: seq<int>, jitters: seq<real>)
    requires |nows| == |jitters|
    requires |link.history| <= MaxHistory
    ensures Timestamps(TickLinkRepeatedly(link, nows, jitters).history) == Keep(Timestamps(link.history) + nows)
    decreases |nows|
  {
    var ts := Timestamps(link.history);
    if nows == [] {
      assert ts + nows == ts;
    } else {
      var next := TickLink(link, nows[0], jitters[0]);
      TickLinkRepeatedlyTimestamps(next, nows[1..], jitters[1..]);
      TickLinkTimestamps(link, nows[0], jitters[0]);
      KeepStep(ts, nows);
      assert TickLinkRepeatedly(link, nows, jitters) == TickLinkRepeatedly(next, nows[1..], jitters[1..]);
    }
  }

  lemma KeepStep<T>(s: seq<T>, xs: seq<T>)
    requires xs != []
    ensures Keep(Keep(s + [xs[0]]) + xs[1..]) == Keep(s + xs)
  {
    KeepAppend(s + [xs[0]], xs[1..]);
    assert s + [xs[0]] + xs[1..] == s + xs;
  }

  lemma TickLinkTimestamps(link: LatencyLink, now: int, jitter: real)
    ensures |TickLink(link, now, jitter).history| <= MaxHistory
    ensures Timestamps(TickLink(link, now, jitter).history) == Keep(Timestamps(link.history) + [now])
  {
    var next := TickLink(link, now, jitter);
    var sample := LatencySample(now, next.currentLatencyMs);
    assert next.history == Keep(link.history + [sample]);
    TimestampsKeep(link.history, sample);
  }

  /** After `n` ticks a history of at most 500 samples has grown by `n`, up to 500. */
  lemma TickLinkRepeatedlyLength(link: LatencyLink, nows: seq<int>, jitters: seq<real>)
    requires |nows| == |jitters|
    requires |link.history| <= MaxHistory
    ensures |TickLinkRepeatedly(link, nows, jitters).history| ==
            (if |link.history| + |nows| > MaxHistory then MaxHistory else |link.history| + |nows|)
  {
    TickLinkRepeatedlyTimestamps(link, nows, jitters);
  }

  /** 501 ticks on a freshly seeded link leave 500 samples: those of ticks 2 to 501. */
  lemma FiveHundredOneTicks(link: LatencyLink, nows: seq<int>, jitters: seq<real>)
    requires LinkInvariant(link) && |link.history| == 1
    requires |nows| == 501 && |jitters| == 501
    ensures var r := TickLinkRepeatedly(link, nows, jitters);
            && |r.history| == MaxHistory
            && Timestamps(r.history) == nows[1..]
            && r.history[MaxHistory - 1].timestamp == nows[500]
  {
    TickLinkRepeatedlyTimestamps(link, nows, jitters);
    var ts := Timestamps(link.history) + nows;
    assert ts[|ts| - MaxHistory..] == nows[1..];
  }

  // ------------------------------------------------------------ store

  datatype Filters = Filters(
    providers: seq<CloudProvider>,
    exchanges: seq<string>,  // exchange ids; empty admits every exchange
    minLatency: int,
    maxLatency: int)

  const DefaultFilters: Filters := Filters([AWS, GCP, Azure], [], 0, 300)

  datatype TimeRange = Last1h | Last24h | Last7d | Last30d

  /** The key a time range has in the chart's table of window lengths. */
  function TimeRangeKey(t: TimeRange): string
  {
    match t
    case Last1h => "1h"
    case Last24h => "24h"
    case Last7d => "7d"
    case Last30d => "30d"
  }

  /** Every link's target region is in the catalog. */
  ghost predicate TargetsResolved(links: seq<LatencyLink>, regions: seq<CloudRegion>)
  {
    forall l :: l in links ==> exists r :: r in regions && r.id == l.targetId
  }

  lemma InitLinksResolved(servers: seq<ExchangeServer>, regions: seq<CloudRegion>, now: int,
                          jitters: seq<real>, dist: DistanceKm)
    requires |jitters| == |servers|
    requires InitLinks(servers, regions, now, jitters, dist).Some?
    ensures TargetsResolved(InitLinks(servers, regions, now, jitters, dist).value, regions)
  {
    var links := InitLinks(servers, regions, now, jitters, dist).value;
    forall l | l in links ensures exists r :: r in regions && r.id == l.targetId {
      var i :| 0 <= i < |links| && links[i] == l;
      assert NearestRegion(servers[i], regions, dist).value in regions;
    }
  }

  /** A tick keeps every link's invariant, its ends, and so the resolution of its target. */
  lemma TickLinksKeepsStructure(links: seq<LatencyLink>, regions: seq<CloudRegion>, now: int, jitters: seq<real>)
    requires |jitters| == |links|
    requires forall i :: 0 <= i < |links| ==> LinkInvariant(links[i])
    requires TargetsResolved(links, regions)
    ensures var r := TickLinks(links, now, jitters);
            && (forall i :: 0 <= i < |r| ==> LinkInvariant(r[i]) && r[i].sourceId == links[i].sourceId)
            && TargetsResolved(r, regions)
  {
    var r := TickLinks(links, now, jitters);
    forall i | 0 <= i < |r| ensures LinkInvariant(r[i]) {
      TickLinkKeepsInvariant(links[i], now, jitters[i]);
    }
    forall l | l in r ensures exists g :: g in regions && g.id == l.targetId {
      var i :| 0 <= i < |r| && r[i] == l;
      assert links[i] in links;
    }
  }

  /** The state the simulation provider holds. */
  class SimulationState {
    const servers: seq<ExchangeServer>
    const regions: seq<CloudRegion>
    var links: seq<LatencyLink>
    var isRunning: bool
    var filters: Filters
    var timeRange: TimeRange
    var selectedLinkId: Option<string>

    /** One well-formed link per server, to a region of the catalog. */
    ghost predicate Valid()
      reads this
    {
      && |links| == |servers|
      && (forall i :: 0 <= i < |links| ==> links[i].sourceId == servers[i].id && LinkInvariant(links[i]))
      && TargetsResolved(links, regions)
    }

    /** The initial state: the catalog, its seeded links, running, default filters, 1h window, nothing selected. */
    constructor (now: int, seedJitters: seq<real>, dist: DistanceKm)
      requires |seedJitters| == |MockServers|
      ensures Valid()
      ensures servers == MockServers && regions == MockRegions
      ensures InitLinks(MockServers, MockRegions, now, seedJitters, dist).Some?
      ensures links == InitLinks(MockServers, MockRegions, now, seedJitters, dist).value
      ensures isRunning && filters == DefaultFilters && timeRange == Last1h && selectedLinkId == None
    {
      servers := MockServers;
      regions := MockRegions;
      links := InitLinks(MockServers, MockRegions, now, seedJitters, dist).value;
      isRunning := true;
      filters := DefaultFilters;
      timeRange := Last1h;
      selectedLinkId := None;
      InitLinksResolved(MockServers, MockRegions, now, seedJitters, dist);
    }

    /** One firing of the 5-second interval; while paused no interval is scheduled. */
    method Tick(now: int, jitters: seq<real>)
      requires Valid() && |jitters| == |links|
      modifies this`links
      ensures Valid()
      ensures links == if isRunning then TickLinks(old(links), now, jitters) else old(links)
    {
      if isRunning {
        TickLinksKeepsStructure(links, regions, now, jitters);
        links := TickLinks(links, now, jitters);
      }
    }

    method ToggleSimulation()
      requires Valid()
      modifies this`isRunning
      ensures Valid() && isRunning == !old(isRunning)
    {
      isRunning := !isRunning;
    }

    method SetProviders(providers: seq<CloudProvider>)
      requires Valid()
      modifies this`filters
      ensures Valid() && filters == old(filters).(providers := providers)
    {
      filters := filters.(providers := providers);
    }

    method SetExchangesFilter(exchangeIds: seq<string>)
      requires Valid()
      modifies this`filters
      ensures Valid() && filters == old(filters).(exchanges := exchangeIds)
    {
      filters := filters.(exchanges := exchangeIds);
    }

    method SetLatencyRange(min: int, max: int)
      requires Valid()
      modifies this`filters
      ensures Valid() && filters == old(filters).(minLatency := min, maxLatency := max)
    {
      filters := filters.(minLatency := min, maxLatency := max);
    }

    method SetTimeRange(range: TimeRange)
      requires Valid()
      modifies this`timeRange
      ensures Valid() && timeRange == range
    {
      timeRange := range;
    }

    method SetSelectedLinkId(id: Option<string>)
      requires Valid()
      modifies this`selectedLinkId
      ensures Valid() && selectedLinkId == id
    {
      selectedLinkId := id;
    }
  }

  /** Pausing and then letting the clock run: no tick changes the links. */
  method PausedTicksChangeNothing(sim: SimulationState, nows: seq<int>, jitters: seq<seq<real>>)
    requires sim.Valid() && sim.isRunning
    requires |nows| == |jitters| && forall k :: 0 <= k < |jitters| ==> |jitters[k]| == |sim.links|
    modifies sim
    ensures sim.Valid() && !sim.isRunning && sim.links == old(sim.links)
  {
    sim.ToggleSimulation();
    for k := 0 to |nows|
      invariant sim.Valid() && !sim.isRunning && sim.links == old(sim.links)
    {
      sim.Tick(nows[k], jitters[k]);
    }
  }
}
