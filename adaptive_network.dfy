/**
 * DCPNetworkManager (network-layer draft): keeps every probe's metrics and
 * derives a fetching mode from the latest one alone.
 */
module AdaptiveNetwork {
  import opened Wrappers

  datatype NetworkMode = OnlineAggressive | OnlineConservative | Offline

  /** INetworkMetrics; the numbers are only compared with thresholds, so reals stand for JavaScript numbers. */
  datatype NetworkMetrics = NetworkMetrics(latencyMs: real, bandwidthMbps: real, packetLossRate: real, timestamp: int)

  datatype ProbeFailure = ProbeFailure

  /**
   * The mode for one measurement: aggressive above 10 Mbps with latency
   * under 100 ms, offline without bandwidth, conservative in between.
   */
  function ModeFor(m: NetworkMetrics): (mode: NetworkMode)
    ensures mode == OnlineAggressive <==> m.bandwidthMbps > 10.0 && m.latencyMs < 100.0
    ensures mode == Offline <==> m.bandwidthMbps <= 0.0
  {
    if m.bandwidthMbps > 10.0 && m.latencyMs < 100.0 then OnlineAggressive
    else if m.bandwidthMbps > 0.0 then OnlineConservative
    else Offline
  }

  /** The thresholds are strict: exactly 10 Mbps or exactly 100 ms is conservative. */
  lemma BoundaryIsConservative(m: NetworkMetrics)
    requires m.bandwidthMbps > 0.0 && (m.bandwidthMbps == 10.0 || m.latencyMs == 100.0)
    ensures ModeFor(m) == OnlineConservative
  {
  }

  /** How much fetching a mode allows. */
  function Rank(mode: NetworkMode): nat {
    match mode
    case Offline => 0
    case OnlineConservative => 1
    case OnlineAggressive => 2
  }

  /** More bandwidth and less latency never give a more restrictive mode. */
  lemma ModeIsMonotone(a: NetworkMetrics, b: NetworkMetrics)
    requires b.bandwidthMbps >= a.bandwidthMbps && b.latencyMs <= a.latencyMs
    ensures Rank(ModeFor(a)) <= Rank(ModeFor(b))
  {
  }

  class DCPNetworkManager {
    var currentMode: NetworkMode
    var metrics: seq<NetworkMetrics>

    constructor()
      ensures currentMode == Offline && metrics == []
    {
      currentMode := Offline;
      metrics := [];
    }

    /**
     * `updateState()` given what the probe produced: a probe that rejects
     * ends the call with nothing changed; otherwise the metrics are appended
     * and the mode is recomputed from them alone.
     */
    method UpdateState(probed: Result<NetworkMetrics, ProbeFailure>) returns (r: Result<(), ProbeFailure>)
      modifies this
      ensures probed.Err? ==> r == Err(probed.error) && metrics == old(metrics) && currentMode == old(currentMode)
      ensures probed.Ok? ==> r == Ok(()) && metrics == old(metrics) + [probed.value]
      ensures probed.Ok? ==> currentMode == ModeFor(probed.value)
    {
      if probed.Err? {
        return Err(probed.error);
      }
      var latest := probed.value;
      metrics := metrics + [latest];
      if latest.bandwidthMbps > 10.0 && latest.latencyMs < 100.0 {
        currentMode := OnlineAggressive;
      } else if latest.bandwidthMbps > 0.0 {
        currentMode := OnlineConservative;
      } else {
        currentMode := Offline;
      }
      return Ok(());
    }

    function GetMode(): NetworkMode
      reads this
    {
      currentMode
    }
  }
}
