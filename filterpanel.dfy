/**
 * The filter panel's handlers: toggling a provider or an exchange in or out of
 * its list, setting the latency range from the slider, and clearing the
 * exchange list. Each builds a new value and hands it to a store setter.
 */
module FilterPanel {
  import opened Types
  import opened Seqs
  import opened Simulation
  import opened WorldMap

  function OtherThan<T(==)>(item: T): T -> bool
  {
    (x: T) => x != item
  }

  /** The shared body of `toggleProvider` and `toggleExchange`. */
  function Toggle<T(==)>(current: seq<T>, item: T): (r: seq<T>)
    ensures item in r <==> item !in current
    ensures forall x :: x in r && x != item ==> x in current
    ensures forall x :: x in current && x != item ==> x in r
    ensures item !in current ==> r == current + [item]
  {
    if item in current then Filter(current, OtherThan(item)) else current + [item]
  }

  /** Toggling a present item removes every occurrence of it and keeps the rest, in order. */
  lemma TogglePresentRemovesAll<T>(current: seq<T>, item: T)
    requires item in current
    ensures IsSubsequence(Toggle(current, item), current)
    ensures multiset(Toggle(current, item))[item] == 0
    ensures forall x :: x != item ==> multiset(Toggle(current, item))[x] == multiset(current)[x]
  {
    FilterIsSubsequence(current, OtherThan(item));
    FilterMultiset(current, OtherThan(item), item);
    forall x | x != item ensures multiset(Toggle(current, item))[x] == multiset(current)[x] {
      FilterMultiset(current, OtherThan(item), x);
    }
  }

  /** Toggling an absent item in and out again gives back the original list. */
  lemma ToggleTwiceRestores<T>(current: seq<T>, item: T)
    requires item !in current
    ensures Toggle(Toggle(current, item), item) == current
  {
    var test := OtherThan(item);
    FilterConcat(current, [item], test);
    FilterAllPass(current, test);
    assert Filter([item], test) == [];
  }

  /** A list without duplicates stays without duplicates. */
  lemma ToggleKeepsNoDuplicates<T>(current: seq<T>, item: T)
    requires NoDuplicates(current)
    ensures NoDuplicates(Toggle(current, item))
  {
    if item in current {
      FilterNoDuplicates(current, OtherThan(item));
    } else {
      var r := current + [item];
      forall i, j | 0 <= i < j < |r| ensures r[i] != r[j] {
        if j == |current| {
          assert r[i] == current[i];
        }
      }
    }
  }

  /** `toggleProvider` */
  method ToggleProvider(sim: SimulationState, provider: CloudProvider)
    requires sim.Valid()
    modifies sim`filters
    ensures sim.Valid()
    ensures sim.filters == old(sim.filters).(providers := Toggle(old(sim.filters.providers), provider))
  {
    sim.SetProviders(Toggle(sim.filters.providers, provider));
  }

  /** `toggleExchange` */
  method ToggleExchange(sim: SimulationState, id: string)
    requires sim.Valid()
    modifies sim`filters
    ensures sim.Valid()
    ensures sim.filters == old(sim.filters).(exchanges := Toggle(old(sim.filters.exchanges), id))
  {
    sim.SetExchangesFilter(Toggle(sim.filters.exchanges, id));
  }

  /** `handleMaxLatencyChange`: the slider sets the range to [0, value]. */
  method HandleMaxLatencyChange(sim: SimulationState, value: int)
    requires sim.Valid()
    modifies sim`filters
    ensures sim.Valid()
    ensures sim.filters == old(sim.filters).(minLatency := 0, maxLatency := value)
  {
    sim.SetLatencyRange(0, value);
  }

  /** The "Clear exchange filter" button. */
  method ClearExchanges(sim: SimulationState)
    requires sim.Valid()
    modifies sim`filters
    ensures sim.Valid()
    ensures sim.filters == old(sim.filters).(exchanges := [])
  {
    sim.SetExchangesFilter([]);
  }

  /** Switching a provider on never removes an arc from the globe. */
  lemma ProviderOnKeepsArcs(links: seq<LatencyLink>, servers: seq<ExchangeServer>, regions: seq<CloudRegion>,
                            f: Filters, provider: CloudProvider, showServers: bool)
    requires provider !in f.providers
    ensures IsSubsequence(Arcs(links, servers, regions, f, showServers),
                          Arcs(links, servers, regions, f.(providers := Toggle(f.providers, provider)), showServers))
  {
    ArcsMonotone(links, servers, regions, f, f.(providers := Toggle(f.providers, provider)), showServers);
  }

  /** Clearing the exchange list never removes an arc from the globe. */
  lemma ClearKeepsArcs(links: seq<LatencyLink>, servers: seq<ExchangeServer>, regions: seq<CloudRegion>,
                       f: Filters, showServers: bool)
    ensures IsSubsequence(Arcs(links, servers, regions, f, showServers),
                          Arcs(links, servers, regions, f.(exchanges := []), showServers))
  {
    ArcsMonotone(links, servers, regions, f, f.(exchanges := []), showServers);
  }

  /** Moving the slider up from a range starting at 0 or above never removes an arc. */
  lemma RaiseMaxKeepsArcs(links: seq<LatencyLink>, servers: seq<ExchangeServer>, regions: seq<CloudRegion>,
                          f: Filters, value: int, showServers: bool)
    requires 0 <= f.minLatency && f.maxLatency <= value
    ensures IsSubsequence(Arcs(links, servers, regions, f, showServers),
                          Arcs(links, servers, regions, f.(minLatency := 0, maxLatency := value), showServers))
  {
    ArcsMonotone(links, servers, regions, f, f.(minLatency := 0, maxLatency := value), showServers);
  }
}
