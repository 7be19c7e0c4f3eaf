/**
 * The arcs the globe draws: the links that pass the visibility predicate, in
 * link order, each with the coordinates of its server and its region.
 */
module WorldMap {
  import opened Types
  import opened Seqs
  import opened Simulation

  /** `isVisible`: both ends exist, and the provider, exchange, latency and display checks pass. */
  predicate IsVisible(link: LatencyLink, servers: seq<ExchangeServer>, regions: seq<CloudRegion>,
                      filters: Filters, showServers: bool)
    ensures IsVisible(link, servers, regions, filters, showServers) <==>
              && FindServer(servers, link.sourceId).Some?
              && FindRegion(regions, link.targetId).Some?
              && FindServer(servers, link.sourceId).value.provider in filters.providers
              && (filters.exchanges != [] ==> link.sourceId in filters.exchanges)
              && filters.minLatency <= link.currentLatencyMs <= filters.maxLatency
              && showServers
  {
    match (FindServer(servers, link.sourceId), FindRegion(regions, link.targetId))
    case (Some(server), Some(_)) =>
      && server.provider in filters.providers
      && (|filters.exchanges| == 0 || server.id in filters.exchanges)
      && !(link.currentLatencyMs < filters.minLatency || link.currentLatencyMs > filters.maxLatency)
      && showServers
    case _ => false
  }

  function VisibleTest(servers: seq<ExchangeServer>, regions: seq<CloudRegion>, filters: Filters,
                       showServers: bool): LatencyLink -> bool
  {
    (l: LatencyLink) => IsVisible(l, servers, regions, filters, showServers)
  }

  /** `links.filter(isVisible)` */
  function VisibleLinks(links: seq<LatencyLink>, servers: seq<ExchangeServer>, regions: seq<CloudRegion>,
                        filters: Filters, showServers: bool): (visible: seq<LatencyLink>)
    ensures forall l :: l in visible ==> l in links && IsVisible(l, servers, regions, filters, showServers)
    ensures forall l :: l in links && IsVisible(l, servers, regions, filters, showServers) ==> l in visible
    ensures forall l :: multiset(visible)[l] ==
              if IsVisible(l, servers, regions, filters, showServers) then multiset(links)[l] else 0
    ensures IsSubsequence(visible, links)
    ensures !showServers ==> visible == []
  {
    FilterIsSubsequence(links, VisibleTest(servers, regions, filters, showServers));
    FilterCounts(links, VisibleTest(servers, regions, filters, showServers));
    var visible := Filter(links, VisibleTest(servers, regions, filters, showServers));
    assert visible != [] ==> visible[0] in visible;
    visible
  }

  /** What each visibility check demands of a visible link, stated over the catalog. */
  lemma VisibleMeans(link: LatencyLink, servers: seq<ExchangeServer>, regions: seq<CloudRegion>,
                     filters: Filters, showServers: bool)
    requires IsVisible(link, servers, regions, filters, showServers)
    ensures exists s :: s in servers && s.id == link.sourceId && s.provider in filters.providers
    ensures exists r :: r in regions && r.id == link.targetId
    ensures |filters.exchanges| > 0 ==> link.sourceId in filters.exchanges
    ensures filters.minLatency <= link.currentLatencyMs <= filters.maxLatency
    ensures showServers
  {
    var s := FindServer(servers, link.sourceId).value;
    assert s in servers && s.id == link.sourceId;
    var r := FindRegion(regions, link.targetId).value;
    assert r in regions && r.id == link.targetId;
  }

  /** A link whose server or region is missing is simply not visible. */
  lemma MissingEndNotVisible(link: LatencyLink, servers: seq<ExchangeServer>, regions: seq<CloudRegion>,
                             filters: Filters, showServers: bool)
    requires (forall s :: s in servers ==> s.id != link.sourceId) || (forall r :: r in regions ==> r.id != link.targetId)
    ensures !IsVisible(link, servers, regions, filters, showServers)
  {
  }

  datatype Arc = Arc(link: LatencyLink, startLat: real, startLng: real, endLat: real, endLng: real)

  predicate EndsFound(l: LatencyLink, servers: seq<ExchangeServer>, regions: seq<CloudRegion>)
  {
    FindServer(servers, l.sourceId).Some? && FindRegion(regions, l.targetId).Some?
  }

  /** `.map(link => ({...link, startLat, startLng, endLat, endLng}))` over links whose ends exist. */
  function ArcsOf(visible: seq<LatencyLink>, servers: seq<ExchangeServer>, regions: seq<CloudRegion>): (arcs: seq<Arc>)
    requires forall l :: l in visible ==> EndsFound(l, servers, regions)
    ensures |arcs| == |visible|
    ensures forall i :: 0 <= i < |arcs| ==>
              && arcs[i].link == visible[i]
              && EndsFound(visible[i], servers, regions)
              && arcs[i].startLat == FindServer(servers, visible[i].sourceId).value.lat
              && arcs[i].startLng == FindServer(servers, visible[i].sourceId).value.lng
              && arcs[i].endLat == FindRegion(regions, visible[i].targetId).value.lat
              && arcs[i].endLng == FindRegion(regions, visible[i].targetId).value.lng
  {
    if visible == [] then []
    else
      var link := visible[0];
      assert link in visible && EndsFound(link, servers, regions);
      var server := FindServer(servers, link.sourceId).value;
      var region := FindRegion(regions, link.targetId).value;
      [Arc(link, server.lat, server.lng, region.lat, region.lng)] + ArcsOf(visible[1..], servers, regions)
  }

  /** The `arcs` memo of the globe. */
  function Arcs(links: seq<LatencyLink>, servers: seq<ExchangeServer>, regions: seq<CloudRegion>,
                filters: Filters, showServers: bool): (arcs: seq<Arc>)
    ensures !showServers ==> arcs == []
    ensures |arcs| <= |links|
  {
    var visible := VisibleLinks(links, servers, regions, filters, showServers);
    assert forall l :: l in visible ==> EndsFound(l, servers, regions);
    assert visible != [] ==> visible[0] in visible;
    ArcsOf(visible, servers, regions)
  }

  /** The arcs are exactly the visible links, in link order. */
  lemma ArcsAreVisibleLinks(links: seq<LatencyLink>, servers: seq<ExchangeServer>, regions: seq<CloudRegion>,
                            filters: Filters, showServers: bool)
    ensures var arcs := Arcs(links, servers, regions, filters, showServers);
            var visible := VisibleLinks(links, servers, regions, filters, showServers);
            && |arcs| == |visible|
            && (forall i :: 0 <= i < |arcs| ==>
                  && arcs[i].link == visible[i]
                  && EndsFound(visible[i], servers, regions)
                  && arcs[i].startLat == FindServer(servers, visible[i].sourceId).value.lat
                  && arcs[i].startLng == FindServer(servers, visible[i].sourceId).value.lng
                  && arcs[i].endLat == FindRegion(regions, visible[i].targetId).value.lat
                  && arcs[i].endLng == FindRegion(regions, visible[i].targetId).value.lng)
            && IsSubsequence(visible, links)
            && (forall l :: l in links ==> (l in visible <==> IsVisible(l, servers, regions, filters, showServers)))
  {
    FilterIsSubsequence(links, VisibleTest(servers, regions, filters, showServers));
  }

  lemma {:induction false} ArcsOfSubsequence(a: seq<LatencyLink>, b: seq<LatencyLink>,
                                             servers: seq<ExchangeServer>, regions: seq<CloudRegion>)
    requires forall l :: l in b ==> EndsFound(l, servers, regions)
    requires IsSubsequence(a, b)
    ensures forall l :: l in a ==> EndsFound(l, servers, regions)
    ensures IsSubsequence(ArcsOf(a, servers, regions), ArcsOf(b, servers, regions))
    decreases |b|
  {
    SubsequenceMembers(a, b);
    if a != [] {
      var arcsA, arcsB := ArcsOf(a, servers, regions), ArcsOf(b, servers, regions);
      assert arcsA[1..] == ArcsOf(a[1..], servers, regions);
      assert arcsB[1..] == ArcsOf(b[1..], servers, regions);
      if a[0] == b[0] && IsSubsequence(a[1..], b[1..]) {
        ArcsOfSubsequence(a[1..], b[1..], servers, regions);
        assert arcsA[0] == arcsB[0];
      } else {
        ArcsOfSubsequence(a, b[1..], servers, regions);
      }
    }
  }

  /** `f2` admits at least what `f1` admits: more providers, a cleared or larger exchange list, a wider range. */
  ghost predicate Wider(f1: Filters, f2: Filters)
  {
    && (forall p :: p in f1.providers ==> p in f2.providers)
    && (f2.exchanges == [] || (f1.exchanges != [] && forall x :: x in f1.exchanges ==> x in f2.exchanges))
    && f2.minLatency <= f1.minLatency
    && f1.maxLatency <= f2.maxLatency
  }

  lemma VisibleUnderWider(l: LatencyLink, servers: seq<ExchangeServer>, regions: seq<CloudRegion>,
                          f1: Filters, f2: Filters, showServers: bool)
    requires Wider(f1, f2)
    requires IsVisible(l, servers, regions, f1, showServers)
    ensures IsVisible(l, servers, regions, f2, showServers)
  {
  }

  /** Widening the filters never removes an arc, and keeps the surviving arcs in order. */
  lemma ArcsMonotone(links: seq<LatencyLink>, servers: seq<ExchangeServer>, regions: seq<CloudRegion>,
                     f1: Filters, f2: Filters, showServers: bool)
    requires Wider(f1, f2)
    ensures IsSubsequence(Arcs(links, servers, regions, f1, showServers), Arcs(links, servers, regions, f2, showServers))
  {
    var p, q := VisibleTest(servers, regions, f1, showServers), VisibleTest(servers, regions, f2, showServers);
    forall l | l in links && p(l) ensures q(l) {
      VisibleUnderWider(l, servers, regions, f1, f2, showServers);
    }
    FilterMonotone(links, p, q);
    var v1, v2 := Filter(links, p), Filter(links, q);
    assert forall l :: l in v2 ==> EndsFound(l, servers, regions);
    ArcsOfSubsequence(v1, v2, servers, regions);
  }
}
