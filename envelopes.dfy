/** The decoded telemetry envelope that both ingestion paths (the firehose stream and the
    archive replay) hand to the envelope processor, and the job and origin names it is
    matched against. */
module Envelopes {

  /** Job names the stream path keeps instance state for (main.go:34-45). */
  const TrafficControllerJob: string := "loggregator_trafficcontroller"
  const DopplerJob: string := "doppler"
  const SyslogAdapterJob: string := "syslog_adapter"
  const SyslogSchedulerJob: string := "syslog_scheduler"

  /** Origins the envelope processor dispatches on. */
  const MetronOrigin: string := "loggregator.metron"
  const DopplerOrigin: string := "loggregator.doppler"
  const BoshOrigin: string := "bosh-system-metrics-forwarder"
  const SchedulerOrigin: string := "cf-syslog-drain.scheduler"
  const AdapterOrigin: string := "cf-syslog-drain.adapter"

  /** The dropsonde event kinds the envelope processor does not handle. */
  datatype OtherKind = HttpStartStop | LogMessage | Error | ContainerMetric

  /** The sample an envelope carries. Counter deltas and totals are uint64 values. */
  datatype Event =
    | ValueMetric(name: string, value: real, unit: string)
    | CounterEvent(name: string, delta: nat, total: nat)
    | OtherEvent(kind: OtherKind)

  /** timestamp is in nanoseconds on the live stream. */
  datatype Envelope = Envelope(timestamp: int, origin: string, job: string, index: string, event: Event)

  /** The name the protobuf enum prints for the event type (`%s` of GetEventType()). */
  function EventTypeName(ev: Event): (r: string)
    ensures ev.ValueMetric? <==> r == "ValueMetric"
    ensures ev.CounterEvent? ==> r == "CounterEvent"
  {
    match ev
    case ValueMetric(_, _, _) => "ValueMetric"
    case CounterEvent(_, _, _) => "CounterEvent"
    case OtherEvent(HttpStartStop) => "HttpStartStop"
    case OtherEvent(LogMessage) => "LogMessage"
    case OtherEvent(Error) => "Error"
    case OtherEvent(ContainerMetric) => "ContainerMetric"
  }

  /** undefinedJob (collector.go:194-199) negated: the four jobs the stream path tracks. */
  predicate KnownJob(job: string)
  {
    job == DopplerJob || job == TrafficControllerJob || job == SyslogSchedulerJob || job == SyslogAdapterJob
  }
}
