/**
 * The entities of the latency topology: exchange servers, cloud regions,
 * latency samples and the simulated links between a server and a region.
 * Coordinates are reals; latencies and timestamps (milliseconds) are integers,
 * since every stored latency is the result of a rounding.
 */
module Types {

  datatype Option<+T> = None | Some(value: T)

  datatype CloudProvider = AWS | GCP | Azure

  datatype ExchangeServer = ExchangeServer(
    id: string,
    name: string,
    provider: CloudProvider,
    lat: real,
    lng: real,
    region: string)

  datatype CloudRegion = CloudRegion(
    id: string,
    provider: CloudProvider,
    name: string,
    lat: real,
    lng: real)

  datatype LatencySample = LatencySample(timestamp: int, latencyMs: int)

  datatype LatencyLink = LatencyLink(
    id: string,
    sourceId: string,
    targetId: string,
    currentLatencyMs: int,
    history: seq<LatencySample>)
}
