/**
 * The history chart of the selected link: the samples inside the chosen time
 * window, their minimum, maximum and mean latency (None when the window is
 * empty or no link is selected), and the link's label.
 */
module LatencyChart {
  import opened Types
  import opened Seqs
  import opened Simulation

  /** `RANGE_MS`: window lengths in milliseconds. */
  const RangeMs: map<string, int> := map[
    "1h" := 60 * 60 * 1000,
    "24h" := 24 * 60 * 60 * 1000,
    "7d" := 7 * 24 * 60 * 60 * 1000,
    "30d" := 30 * 24 * 60 * 60 * 1000
  ]

  /**
   * `RANGE_MS[timeRange] ?? RANGE_MS["1h"]`: the key of every range is in the
   * table, so the `?? RANGE_MS["1h"]` fallback is never taken and is left out.
   */
  function WindowMs(range: TimeRange): (w: int)
    ensures TimeRangeKey(range) in RangeMs && w == RangeMs[TimeRangeKey(range)]
    ensures w >= 3600000
  {
    RangeMs[TimeRangeKey(range)]
  }

  /** The four ranges are strictly increasing and each selects its own table entry. */
  lemma WindowsIncreasing()
    ensures WindowMs(Last1h) == 3600000
    ensures WindowMs(Last24h) == 86400000
    ensures WindowMs(Last7d) == 604800000
    ensures WindowMs(Last30d) == 2592000000
    ensures WindowMs(Last1h) < WindowMs(Last24h) < WindowMs(Last7d) < WindowMs(Last30d)
  {
  }

  /** `links.find((l) => l.id === selectedLinkId) || null` */
  function SelectedLink(links: seq<LatencyLink>, selectedLinkId: Option<string>): (r: Option<LatencyLink>)
    ensures r.None? <==> selectedLinkId.None? || forall l :: l in links ==> l.id != selectedLinkId.value
    ensures r.Some? ==> exists k :: 0 <= k < |links| && links[k] == r.value && selectedLinkId == Some(r.value.id) &&
                                    forall j :: 0 <= j < k ==> links[j].id != r.value.id
  {
    var test := (l: LatencyLink) => Some(l.id) == selectedLinkId;
    var k := FindIndex(links, test);
    assert k < |links| ==> links[k] in links;
    Find(links, test)
  }

  function WindowTest(now: int, windowMs: int): LatencySample -> bool
  {
    (h: LatencySample) => now - h.timestamp <= windowMs
  }

  /** `history.filter((h) => now - h.timestamp <= windowMs)` */
  function WindowSamples(history: seq<LatencySample>, now: int, windowMs: int): (r: seq<LatencySample>)
    ensures forall h :: h in r ==> h in history && now - h.timestamp <= windowMs
    ensures forall h :: h in history && now - h.timestamp <= windowMs ==> h in r
    ensures forall h :: multiset(r)[h] == if now - h.timestamp <= windowMs then multiset(history)[h] else 0
  {
    FilterCounts(history, WindowTest(now, windowMs));
    Filter(history, WindowTest(now, windowMs))
  }

  lemma WindowInOrder(history: seq<LatencySample>, now: int, windowMs: int)
    ensures IsSubsequence(WindowSamples(history, now, windowMs), history)
  {
    FilterIsSubsequence(history, WindowTest(now, windowMs));
  }

  /** A longer window keeps every sample a shorter one keeps, in the same order. */
  lemma WindowMonotone(history: seq<LatencySample>, now: int, w1: int, w2: int)
    requires w1 <= w2
    ensures IsSubsequence(WindowSamples(history, now, w1), WindowSamples(history, now, w2))
  {
    FilterMonotone(history, WindowTest(now, w1), WindowTest(now, w2));
  }

  /** 1h, 24h, 7d, 30d: each range keeps a superset of the samples of the one before. */
  lemma RangesNested(history: seq<LatencySample>, now: int)
    ensures IsSubsequence(WindowSamples(history, now, WindowMs(Last1h)), WindowSamples(history, now, WindowMs(Last24h)))
    ensures IsSubsequence(WindowSamples(history, now, WindowMs(Last24h)), WindowSamples(history, now, WindowMs(Last7d)))
    ensures IsSubsequence(WindowSamples(history, now, WindowMs(Last7d)), WindowSamples(history, now, WindowMs(Last30d)))
  {
    WindowMonotone(history, now, WindowMs(Last1h), WindowMs(Last24h));
    WindowMonotone(history, now, WindowMs(Last24h), WindowMs(Last7d));
    WindowMonotone(history, now, WindowMs(Last7d), WindowMs(Last30d));
  }

  function SampleLatencies(samples: seq<LatencySample>): (r: seq<int>)
    ensures |r| == |samples| && forall i :: 0 <= i < |samples| ==> r[i] == samples[i].latencyMs
  {
    seq(|samples|, i requires 0 <= i < |samples| => samples[i].latencyMs)
  }

  /** `server.name → region.name` when both ends exist, the link's id otherwise. */
  function LinkLabel(link: LatencyLink, servers: seq<ExchangeServer>, regions: seq<CloudRegion>): (text: string)
    ensures (forall s :: s in servers ==> s.id != link.sourceId) ==> text == link.id
    ensures (forall g :: g in regions ==> g.id != link.targetId) ==> text == link.id
    ensures text == link.id ||
            exists s, g :: s in servers && s.id == link.sourceId && g in regions && g.id == link.targetId &&
                           text == s.name + " → " + g.name
    ensures FindServer(servers, link.sourceId).Some? && FindRegion(regions, link.targetId).Some? ==>
              text == FindServer(servers, link.sourceId).value.name + " → " + FindRegion(regions, link.targetId).value.name
  {
    match (FindServer(servers, link.sourceId), FindRegion(regions, link.targetId))
    case (Some(server), Some(region)) => server.name + " → " + region.name
    case _ => link.id
  }

  /** What the chart shows; `data` stands for the plotted points (their time labels are not modelled). */
  datatype ChartView = ChartView(
    data: seq<LatencySample>,
    min: Option<int>,
    max: Option<int>,
    avg: Option<real>,
    linkLabel: string)

  /** The chart's memo for the selected link, the chosen range and the instant `now`. */
  function Chart(links: seq<LatencyLink>, servers: seq<ExchangeServer>, regions: seq<CloudRegion>,
                 selectedLinkId: Option<string>, timeRange: TimeRange, now: int): (v: ChartView)
    ensures v.min.None? <==> v.max.None?
    ensures v.min.None? <==> v.avg.None?
    ensures v.min.None? <==> v.data == []
    ensures SelectedLink(links, selectedLinkId).None? ==> v.data == [] && v.linkLabel == ""
    ensures SelectedLink(links, selectedLinkId).Some? ==>
              v.data == WindowSamples(SelectedLink(links, selectedLinkId).value.history, now, WindowMs(timeRange))
    ensures v.min.None? ==> v.linkLabel == ""
    ensures v.min.Some? ==> v.linkLabel == LinkLabel(SelectedLink(links, selectedLinkId).value, servers, regions)
    ensures v.min.Some? ==>
              && v.min.value in SampleLatencies(v.data)
              && v.max.value in SampleLatencies(v.data)
              && (forall h :: h in v.data ==> v.min.value <= h.latencyMs <= v.max.value)
              && v.min.value as real <= v.avg.value <= v.max.value as real
              && v.avg.value == Sum(SampleLatencies(v.data)) as real / |v.data| as real
  {
    match SelectedLink(links, selectedLinkId)
    case None => ChartView([], None, None, None, "")
    case Some(link) =>
      var windowMs := WindowMs(timeRange);
      var filtered := WindowSamples(link.history, now, windowMs);
      if |filtered| == 0 then ChartView(filtered, None, None, None, "")
      else
        var latencies := SampleLatencies(filtered);
        MeanBetween(latencies);
        assert forall h :: h in filtered ==> h.latencyMs in latencies by {
          forall h | h in filtered ensures h.latencyMs in latencies {
            var i :| 0 <= i < |filtered| && filtered[i] == h;
            assert latencies[i] == h.latencyMs;
          }
        }
        ChartView(filtered, Some(MinOf(latencies)), Some(MaxOf(latencies)), Some(Mean(latencies)),
                  LinkLabel(link, servers, regions))
  }
}
