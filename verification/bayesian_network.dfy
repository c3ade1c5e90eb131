/** A simplified Bayesian network over network-traffic evidence: the
    conditional probability of an alert given each piece of evidence is
    looked up in its table, and the three are combined as a weighted
    average. */
module BayesianNetwork {
  import opened Wrappers
  import DataStorage

  /** A conditional probability row: the probability of an alert and of no
      alert. */
  datatype Row = Row(alert: real, noAlert: real)

  predicate IsDistribution(r: Row) {
    0.0 <= r.alert && 0.0 <= r.noAlert && r.alert + r.noAlert == 1.0
  }

  /** The prior of an attack (present, absent); the combination does not use it. */
  const AttackPrior: Row := Row(0.02, 0.98)

  /** The row of a traffic volume, if the volume is one the table knows. */
  function VolumeRow(volume: string): Option<Row> {
    if volume == "high" then Some(Row(0.7, 0.3))
    else if volume == "low" then Some(Row(0.2, 0.8))
    else None
  }

  /** The row of a protocol, if the protocol is one the table knows. */
  function ProtocolRow(protocol: string): Option<Row> {
    if protocol == "TCP" then Some(Row(0.3, 0.7))
    else if protocol == "UDP" then Some(Row(0.4, 0.6))
    else if protocol == "HTTP" then Some(Row(0.2, 0.8))
    else None
  }

  /** The row of a source, internal or external. */
  function SourceRow(internal: bool): Row {
    if internal then Row(0.1, 0.9) else Row(0.6, 0.4)
  }

  /** Every row of every table is a probability distribution. */
  lemma TablesAreDistributions(volume: string, protocol: string, internal: bool)
    ensures IsDistribution(AttackPrior)
    ensures VolumeRow(volume).Some? ==> IsDistribution(VolumeRow(volume).value)
    ensures ProtocolRow(protocol).Some? ==> IsDistribution(ProtocolRow(protocol).value)
    ensures IsDistribution(SourceRow(internal))
  {
  }

  /** The combination of the three alert probabilities: weights 0.4, 0.3
      and 0.3, which sum to 1. */
  function Combine(pv: real, pp: real, ps: real): real {
    0.4 * pv + 0.3 * pp + 0.3 * ps
  }

  function Min3(a: real, b: real, c: real): real {
    if a <= b && a <= c then a else if b <= c then b else c
  }

  function Max3(a: real, b: real, c: real): real {
    if a >= b && a >= c then a else if b >= c then b else c
  }

  /** A weighted average lies between the least and the greatest of what it
      averages, and so stays a probability when they are. */
  lemma CombineIsAverage(pv: real, pp: real, ps: real)
    ensures Min3(pv, pp, ps) <= Combine(pv, pp, ps) <= Max3(pv, pp, ps)
    ensures 0.0 <= pv <= 1.0 && 0.0 <= pp <= 1.0 && 0.0 <= ps <= 1.0 ==> 0.0 <= Combine(pv, pp, ps) <= 1.0
  {
  }

  /** Raising any one of the three alert probabilities never lowers the
      combination. */
  lemma CombineMonotone(pv: real, pp: real, ps: real, qv: real, qp: real, qs: real)
    requires pv <= qv && pp <= qp && ps <= qs
    ensures Combine(pv, pp, ps) <= Combine(qv, qp, qs)
  {
  }

  /** The evidence about some traffic, each piece possibly absent. */
  datatype Evidence = Evidence(trafficVolume: Option<string>, protocol: Option<string>, internalSource: Option<bool>)

  /** Evidence naming a volume or protocol the tables do not know. */
  datatype Error = UnknownVolume(volume: string) | UnknownProtocol(protocol: string)

  /** What the network analyser logs for each analysis. */
  datatype TrafficRecord = TrafficRecord(trafficVolume: string, protocol: string, internalSource: bool, riskProbability: real)

  const NetworkCategory: string := "network_analysis"

  /** The evidence with the defaults filled in: low volume, TCP, internal. */
  function Volume(ev: Evidence): string {
    ev.trafficVolume.GetOr("low")
  }

  function Protocol(ev: Evidence): string {
    ev.protocol.GetOr("TCP")
  }

  function Internal(ev: Evidence): bool {
    ev.internalSource.GetOr(true)
  }

  /** `analyze_network_traffic`: the combined probability of malicious
      traffic and the store with it logged. An unknown volume is reported
      before an unknown protocol, and nothing is logged on an error. */
  function AnalyzeNetworkTraffic(store: DataStorage.Storage<TrafficRecord>, ev: Evidence)
    : (r: Result<(real, DataStorage.Storage<TrafficRecord>), Error>)
    ensures VolumeRow(Volume(ev)).None? ==> r == Failure(UnknownVolume(Volume(ev)))
    ensures VolumeRow(Volume(ev)).Some? && ProtocolRow(Protocol(ev)).None? ==>
      r == Failure(UnknownProtocol(Protocol(ev)))
    ensures r.Success? <==> VolumeRow(Volume(ev)).Some? && ProtocolRow(Protocol(ev)).Some?
    ensures r.Success? ==>
      var pv := VolumeRow(Volume(ev)).value.alert;
      var pp := ProtocolRow(Protocol(ev)).value.alert;
      var ps := SourceRow(Internal(ev)).alert;
      && r.value.0 == Combine(pv, pp, ps)
      && 0.17 <= r.value.0 <= 0.58
      && DataStorage.Records(r.value.1, NetworkCategory) ==
           DataStorage.Records(store, NetworkCategory) +
           [TrafficRecord(Volume(ev), Protocol(ev), Internal(ev), r.value.0)]
      && forall c | c != NetworkCategory :: DataStorage.Records(r.value.1, c) == DataStorage.Records(store, c)
  {
    var volume := Volume(ev);
    var protocol := Protocol(ev);
    var internal := Internal(ev);
    match VolumeRow(volume)
    case None => Failure(UnknownVolume(volume))
    case Some(vr) =>
      match ProtocolRow(protocol)
      case None => Failure(UnknownProtocol(protocol))
      case Some(pr) =>
        var p := Combine(vr.alert, pr.alert, SourceRow(internal).alert);
        Success((p, DataStorage.Store(store, NetworkCategory, TrafficRecord(volume, protocol, internal, p))))
  }

  /** High volume is at least as risky as low volume, and an external source
      at least as risky as an internal one, everything else being equal. */
  lemma RiskierEvidenceScoresHigher(store: DataStorage.Storage<TrafficRecord>, ev: Evidence)
    requires ProtocolRow(Protocol(ev)).Some?
    ensures var low := AnalyzeNetworkTraffic(store, ev.(trafficVolume := Some("low")));
            var high := AnalyzeNetworkTraffic(store, ev.(trafficVolume := Some("high")));
            low.Success? && high.Success? && low.value.0 <= high.value.0
    ensures VolumeRow(Volume(ev)).Some? ==>
            var inside := AnalyzeNetworkTraffic(store, ev.(internalSource := Some(true)));
            var outside := AnalyzeNetworkTraffic(store, ev.(internalSource := Some(false)));
            inside.Success? && outside.Success? && inside.value.0 <= outside.value.0
  {
  }
}
