/**
 * The dashboard's figures: the links passing the user's filters, how many
 * there are, and their rounded average and maximum latency, with None
 * (JavaScript `null`) when no link passes.
 */
module Dashboard {
  import opened Types
  import opened Seqs
  import opened Simulation
  import opened WorldMap

  /** The dashboard's filter callback: the server exists, and the provider, exchange and latency checks pass. */
  predicate PassesFilters(link: LatencyLink, servers: seq<ExchangeServer>, filters: Filters)
    ensures PassesFilters(link, servers, filters) <==>
              && FindServer(servers, link.sourceId).Some?
              && FindServer(servers, link.sourceId).value.provider in filters.providers
              && (filters.exchanges != [] ==> link.sourceId in filters.exchanges)
              && filters.minLatency <= link.currentLatencyMs <= filters.maxLatency
  {
    match FindServer(servers, link.sourceId)
    case None => false
    case Some(server) =>
      && server.provider in filters.providers
      && (|filters.exchanges| == 0 || server.id in filters.exchanges)
      && !(link.currentLatencyMs < filters.minLatency || link.currentLatencyMs > filters.maxLatency)
  }

  function FilterTest(servers: seq<ExchangeServer>, filters: Filters): LatencyLink -> bool
  {
    (l: LatencyLink) => PassesFilters(l, servers, filters)
  }

  /** `filteredLinks` */
  function FilteredLinks(links: seq<LatencyLink>, servers: seq<ExchangeServer>, filters: Filters): (r: seq<LatencyLink>)
    ensures forall l :: l in r ==> l in links && PassesFilters(l, servers, filters)
    ensures forall l :: l in links && PassesFilters(l, servers, filters) ==> l in r
    ensures forall l :: multiset(r)[l] == if PassesFilters(l, servers, filters) then multiset(links)[l] else 0
  {
    FilterCounts(links, FilterTest(servers, filters));
    Filter(links, FilterTest(servers, filters))
  }

  /** `filteredLinks` keeps the order of `links`. */
  lemma FilteredLinksInOrder(links: seq<LatencyLink>, servers: seq<ExchangeServer>, filters: Filters)
    ensures IsSubsequence(FilteredLinks(links, servers, filters), links)
  {
    FilterIsSubsequence(links, FilterTest(servers, filters));
  }

  function LinkLatencies(links: seq<LatencyLink>): (r: seq<int>)
    ensures |r| == |links| && forall i :: 0 <= i < |links| ==> r[i] == links[i].currentLatencyMs
  {
    seq(|links|, i requires 0 <= i < |links| => links[i].currentLatencyMs)
  }

  /** `activeCount` */
  function ActiveCount(links: seq<LatencyLink>, servers: seq<ExchangeServer>, filters: Filters): (n: nat)
    ensures n <= |links|
    ensures n == |FilteredLinks(links, servers, filters)|
    ensures n == 0 <==> forall l :: l in links ==> !PassesFilters(l, servers, filters)
  {
    var filtered := FilteredLinks(links, servers, filters);
    assert filtered != [] ==> filtered[0] in filtered;
    |filtered|
  }

  /** `avgLatency`: the rounded mean of the filtered latencies, between their minimum and maximum. */
  function AvgLatency(links: seq<LatencyLink>, servers: seq<ExchangeServer>, filters: Filters): (avg: Option<int>)
    ensures avg.None? <==> ActiveCount(links, servers, filters) == 0
    ensures avg.Some? ==>
              var lat := LinkLatencies(FilteredLinks(links, servers, filters));
              lat != [] && MinOf(lat) <= avg.value <= MaxOf(lat) &&
              avg.value as real - 0.5 <= Sum(lat) as real / |lat| as real < avg.value as real + 0.5
  {
    var filtered := FilteredLinks(links, servers, filters);
    var activeCount := |filtered|;
    if activeCount > 0 then
      var lat := LinkLatencies(filtered);
      MeanBetween(lat);
      RoundBetween(Mean(lat), MinOf(lat), MaxOf(lat));
      Some(Round(Sum(lat) as real / activeCount as real))
    else None
  }

  /** `maxLatency`: the largest filtered latency. */
  function MaxLatency(links: seq<LatencyLink>, servers: seq<ExchangeServer>, filters: Filters): (max: Option<int>)
    ensures max.None? <==> ActiveCount(links, servers, filters) == 0
    ensures max.Some? ==>
              && (exists l :: l in FilteredLinks(links, servers, filters) && l.currentLatencyMs == max.value)
              && (forall l :: l in FilteredLinks(links, servers, filters) ==> l.currentLatencyMs <= max.value)
  {
    var filtered := FilteredLinks(links, servers, filters);
    if |filtered| > 0 then
      var lat := LinkLatencies(filtered);
      var m := MaxOf(lat);
      assert forall l :: l in filtered ==> l.currentLatencyMs in lat by {
        forall l | l in filtered ensures l.currentLatencyMs in lat {
          var i :| 0 <= i < |filtered| && filtered[i] == l;
          assert lat[i] == l.currentLatencyMs;
        }
      }
      assert exists i :: 0 <= i < |lat| && lat[i] == m;
      Some(m)
    else None
  }

  /** Every link the globe shows is counted by the dashboard, in the same relative order. */
  lemma GlobeWithinDashboard(links: seq<LatencyLink>, servers: seq<ExchangeServer>, regions: seq<CloudRegion>,
                             filters: Filters, showServers: bool)
    ensures IsSubsequence(VisibleLinks(links, servers, regions, filters, showServers), FilteredLinks(links, servers, filters))
    ensures forall a :: a in Arcs(links, servers, regions, filters, showServers) ==> a.link in FilteredLinks(links, servers, filters)
  {
    var p, q := VisibleTest(servers, regions, filters, showServers), FilterTest(servers, filters);
    forall l | l in links && p(l) ensures q(l) {
    }
    FilterMonotone(links, p, q);
    var visible := VisibleLinks(links, servers, regions, filters, showServers);
    SubsequenceMembers(visible, FilteredLinks(links, servers, filters));
    ArcsAreVisibleLinks(links, servers, regions, filters, showServers);
    var arcs := Arcs(links, servers, regions, filters, showServers);
    forall a | a in arcs ensures a.link in FilteredLinks(links, servers, filters) {
      var i :| 0 <= i < |arcs| && arcs[i] == a;
      assert visible[i] in visible;
    }
  }

  /**
   * The two predicates differ only in the region lookup and the display toggle:
   * when every target region exists and servers are shown, they select the same links.
   */
  lemma DashboardMatchesGlobeWhenResolved(links: seq<LatencyLink>, servers: seq<ExchangeServer>,
                                          regions: seq<CloudRegion>, filters: Filters)
    requires TargetsResolved(links, regions)
    ensures VisibleLinks(links, servers, regions, filters, true) == FilteredLinks(links, servers, filters)
  {
    var p, q := VisibleTest(servers, regions, filters, true), FilterTest(servers, filters);
    forall l | l in links ensures p(l) == q(l) {
      var r :| r in regions && r.id == l.targetId;
      assert FindRegion(regions, l.targetId).Some?;
    }
    FilterCongruent(links, p, q);
  }

  /** A link whose target region is missing is counted by the dashboard although the globe hides it. */
  lemma HiddenLinkStillCounted(link: LatencyLink, servers: seq<ExchangeServer>, regions: seq<CloudRegion>,
                               filters: Filters, showServers: bool)
    requires PassesFilters(link, servers, filters)
    requires forall r :: r in regions ==> r.id != link.targetId
    ensures FilteredLinks([link], servers, filters) == [link]
    ensures VisibleLinks([link], servers, regions, filters, showServers) == []
  {
    MissingEndNotVisible(link, servers, regions, filters, showServers);
    var v := VisibleLinks([link], servers, regions, filters, showServers);
    assert forall l :: l in v ==> l == link;
    var f := FilteredLinks([link], servers, filters);
    assert |f| <= 1 && link in f;
    assert f[0] in f;
  }

  /**
   * The initial filters (every provider, no exchange restriction, 0 to 300 ms)
   * admit exactly the links whose ends exist and whose latency is in [0, 300].
   */
  lemma DefaultFiltersAdmit(link: LatencyLink, servers: seq<ExchangeServer>, regions: seq<CloudRegion>, showServers: bool)
    ensures PassesFilters(link, servers, DefaultFilters) <==>
              FindServer(servers, link.sourceId).Some? && 0 <= link.currentLatencyMs <= 300
    ensures IsVisible(link, servers, regions, DefaultFilters, showServers) <==>
              && FindServer(servers, link.sourceId).Some? && FindRegion(regions, link.targetId).Some?
              && 0 <= link.currentLatencyMs <= 300 && showServers
  {
    var p := if FindServer(servers, link.sourceId).Some? then FindServer(servers, link.sourceId).value.provider else AWS;
    assert p in DefaultFilters.providers by {
      match p
      case AWS => assert DefaultFilters.providers[0] == AWS;
      case GCP => assert DefaultFilters.providers[1] == GCP;
      case Azure => assert DefaultFilters.providers[2] == Azure;
    }
  }
}
