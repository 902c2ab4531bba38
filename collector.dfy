/** The stream-path envelope processor (collector.go): a state of three growable lists
    (instances, doppler envelope statistics, metron agents) and two drain gauges, updated
    in place by parseEnvelope one envelope at a time.

    The pure functions below say what one call does to a StreamState value; the class
    StreamMetrics holds the same state in mutable fields and its methods are proved to
    do exactly what those functions say. */
module Collector {
  import opened Envelopes

  /** CPU and memory gauges of one instance (collector.go:18-25). */
  datatype Instance = Instance(job: string, index: string, cpuUser: real, cpuWait: real, cpuSys: real, memory: real)

  /** Doppler subscriptions and counter deltas (collector.go:28-35); counters are uint64. */
  datatype EnvelopeStat = EnvelopeStat(job: string, index: string, subscriptions: real, sinksDropped: nat, ingress: nat, dropped: nat)

  /** Metron agent counter deltas (collector.go:38-43). */
  datatype Metron = Metron(job: string, index: string, ingress: nat, dropped: nat)

  /** The stream-side Metrics record (collector.go:9-15). */
  datatype StreamState = StreamState(
    instances: seq<Instance>,
    adapterDrainBindings: real,
    schedulerDrains: real,
    envelopeStats: seq<EnvelopeStat>,
    metrons: seq<Metron>)

  const EmptyState: StreamState := StreamState([], 0.0, 0.0, [], [])

  /** What a process* call reports: true, false, or a Go runtime panic from indexing a
      list at position -1 (the envelope's index has no entry in that list). */
  datatype Outcome = Handled | Unmatched | Panic

  datatype Step = Step(state: StreamState, outcome: Outcome)

  function InstanceIndex(i: Instance): string { i.index }
  function StatIndex(s: EnvelopeStat): string { s.index }
  function MetronIndex(m: Metron): string { m.index }

  /** The linear searches of collector.go: the first position whose key is idx, or -1. */
  function Position<T>(s: seq<T>, key: T -> string, idx: string): (k: int)
    ensures -1 <= k < |s|
    ensures k >= 0 ==> key(s[k]) == idx && forall j :: 0 <= j < k ==> key(s[j]) != idx
    ensures k == -1 <==> forall j :: 0 <= j < |s| ==> key(s[j]) != idx
  {
    if |s| == 0 then -1
    else if key(s[0]) == idx then 0
    else
      var k := Position(s[1..], key, idx);
      if k == -1 then -1 else k + 1
  }

  /** No two entries of s share a key. */
  predicate Unique<T>(s: seq<T>, key: T -> string)
  {
    forall i, j :: 0 <= i < j < |s| ==> key(s[i]) != key(s[j])
  }

  predicate HasIndex<T>(s: seq<T>, key: T -> string, idx: string)
  {
    exists j :: 0 <= j < |s| && key(s[j]) == idx
  }

  /** The invariant parseEnvelope keeps: each list holds an index at most once, and every
      doppler statistic belongs to an instance with the same index. */
  predicate Valid(st: StreamState)
  {
    && Unique(st.instances, InstanceIndex)
    && Unique(st.envelopeStats, StatIndex)
    && Unique(st.metrons, MetronIndex)
    && forall j :: 0 <= j < |st.envelopeStats| ==> HasIndex(st.instances, InstanceIndex, st.envelopeStats[j].index)
  }

  /** processValueMetric (collector.go:56-106). */
  function ValueMetricStep(st: StreamState, origin: string, index: string, name: string, value: real): Step
  {
    var i := Position(st.instances, InstanceIndex, index);
    var d := Position(st.envelopeStats, StatIndex, index);
    if origin == BoshOrigin && name in {"system.cpu.wait", "system.cpu.user", "system.cpu.sys", "system.mem.percent"} then
      if i == -1 then Step(st, Panic)
      else
        var old_ := st.instances[i];
        var new_ :=
          if name == "system.cpu.wait" then old_.(cpuWait := value)
          else if name == "system.cpu.user" then old_.(cpuUser := value)
          else if name == "system.cpu.sys" then old_.(cpuSys := value)
          else old_.(memory := value);
        Step(st.(instances := st.instances[i := new_]), Handled)
    else if name == "drains" && origin == SchedulerOrigin then
      Step(st.(schedulerDrains := value), Handled)
    else if name == "drain_bindings" && origin == AdapterOrigin then
      Step(st.(adapterDrainBindings := value), Handled)
    else if name == "subscriptions" && origin == DopplerOrigin then
      if d == -1 then Step(st, Panic)
      else Step(st.(envelopeStats := st.envelopeStats[d := st.envelopeStats[d].(subscriptions := value)]), Handled)
    else Step(st, Unmatched)
  }

  /** processCounterEvent (collector.go:108-147): the field takes the delta, it does not
      accumulate. */
  function CounterEventStep(st: StreamState, origin: string, index: string, name: string, delta: nat): Step
  {
    var d := Position(st.envelopeStats, StatIndex, index);
    var m := Position(st.metrons, MetronIndex, index);
    if origin == DopplerOrigin && name in {"ingress", "dropped", "sinks.dropped"} then
      if d == -1 then Step(st, Panic)
      else
        var old_ := st.envelopeStats[d];
        var new_ :=
          if name == "ingress" then old_.(ingress := delta)
          else if name == "dropped" then old_.(dropped := delta)
          else old_.(sinksDropped := delta);
        Step(st.(envelopeStats := st.envelopeStats[d := new_]), Handled)
    else if origin == MetronOrigin && name in {"ingress", "dropped"} then
      if m == -1 then Step(st, Panic)
      else
        var new_ := if name == "ingress" then st.metrons[m].(ingress := delta) else st.metrons[m].(dropped := delta);
        Step(st.(metrons := st.metrons[m := new_]), Handled)
    else Step(st, Unmatched)
  }

  /** The metron entry parseEnvelope creates for any metron-origin counter envelope, before
      the job allowlist is consulted (collector.go:151-163). */
  function AddMetron(st: StreamState, e: Envelope): StreamState
  {
    if e.origin == MetronOrigin && e.event.CounterEvent? && Position(st.metrons, MetronIndex, e.index) == -1 then
      st.(metrons := st.metrons + [Metron(e.job, e.index, 0, 0)])
    else st
  }

  /** The instance (and, for doppler, the statistic) created the first time an index of an
      allowlisted job is seen (collector.go:168-180). */
  function AddInstance(st: StreamState, e: Envelope): StreamState
  {
    if Position(st.instances, InstanceIndex, e.index) == -1 then
      var st1 := st.(instances := st.instances + [Instance(e.job, e.index, 0.0, 0.0, 0.0, 0.0)]);
      if e.job == DopplerJob then st1.(envelopeStats := st.envelopeStats + [EnvelopeStat(e.job, e.index, 0.0, 0, 0, 0)])
      else st1
    else st
  }

  /** Everything parseEnvelope does before dispatching on the event type. */
  function CreateEntries(st: StreamState, e: Envelope): StreamState
  {
    var st1 := AddMetron(st, e);
    if KnownJob(e.job) then AddInstance(st1, e) else st1
  }

  /** parseEnvelope (collector.go:149-192). Outcome Handled is what triggers archiving. */
  function ParseEnvelopeStep(st: StreamState, e: Envelope): Step
  {
    var st1 := CreateEntries(st, e);
    if !KnownJob(e.job) then Step(st1, Unmatched)
    else match e.event
      case ValueMetric(name, value, _) => ValueMetricStep(st1, e.origin, e.index, name, value)
      case CounterEvent(name, delta, _) => CounterEventStep(st1, e.origin, e.index, name, delta)
      case OtherEvent(_) => Step(st1, Unmatched)
  }

  /** A run of parseEnvelope over envelopes in order; `crashed` once one of them panicked,
      after which the process is gone and nothing further is ingested. */
  datatype Run = Run(state: StreamState, crashed: bool)

  /** Feeding envelopes to parseEnvelope one at a time, in order (main.go:171-178). */
  function IngestAll(st: StreamState, es: seq<Envelope>): Run
  {
    if |es| == 0 then Run(st, false)
    else
      var r := IngestAll(st, es[..|es| - 1]);
      if r.crashed then r
      else
        var s := ParseEnvelopeStep(r.state, es[|es| - 1]);
        Run(s.state, s.outcome == Panic)
  }

  /** The live Metrics record with its lists updated in place. */
  class StreamMetrics {
    var instances: seq<Instance>
    var adapterDrainBindings: real
    var schedulerDrains: real
    var envelopeStats: seq<EnvelopeStat>
    var metrons: seq<Metron>

    function State(): StreamState
      reads this
    {
      StreamState(instances, adapterDrainBindings, schedulerDrains, envelopeStats, metrons)
    }

    /** `mc = Metrics{}` (main.go:150). */
    constructor ()
      ensures State() == EmptyState
    {
      instances, adapterDrainBindings, schedulerDrains, envelopeStats, metrons := [], 0.0, 0.0, [], [];
    }

    method FindInstance(index: string) returns (k: int)
      ensures k == Position(instances, InstanceIndex, index)
    {
      k := -1;
      var i := 0;
      while i < |instances|
        invariant 0 <= i <= |instances|
        invariant forall j :: 0 <= j < i ==> instances[j].index != index
      {
        if instances[i].index == index {
          k := i;
          break;
        }
        i := i + 1;
      }
    }

    method FindEnvelopeStat(index: string) returns (k: int)
      ensures k == Position(envelopeStats, StatIndex, index)
    {
      k := -1;
      var i := 0;
      while i < |envelopeStats|
        invariant 0 <= i <= |envelopeStats|
        invariant forall j :: 0 <= j < i ==> envelopeStats[j].index != index
      {
        if envelopeStats[i].index == index {
          k := i;
          break;
        }
        i := i + 1;
      }
    }

    method FindMetron(index: string) returns (k: int)
      ensures k == Position(metrons, MetronIndex, index)
    {
      k := -1;
      var i := 0;
      while i < |metrons|
        invariant 0 <= i <= |metrons|
        invariant forall j :: 0 <= j < i ==> metrons[j].index != index
      {
        if metrons[i].index == index {
          k := i;
          break;
        }
        i := i + 1;
      }
    }

    method ProcessValueMetric(origin: string, index: string, name: string, value: real) returns (out: Outcome)
      modifies this
      ensures Step(State(), out) == ValueMetricStep(old(State()), origin, index, name, value)
    {
      var i := FindInstance(index);
      var isBosh := origin == BoshOrigin;
      if isBosh && name in {"system.cpu.wait", "system.cpu.user", "system.cpu.sys", "system.mem.percent"} {
        if i == -1 {
          return Panic;
        }
        if name == "system.cpu.wait" {
          instances := instances[i := instances[i].(cpuWait := value)];
        } else if name == "system.cpu.user" {
          instances := instances[i := instances[i].(cpuUser := value)];
        } else if name == "system.cpu.sys" {
          instances := instances[i := instances[i].(cpuSys := value)];
        } else {
          instances := instances[i := instances[i].(memory := value)];
        }
        return Handled;
      }
      if name == "drains" && origin == SchedulerOrigin {
        schedulerDrains := value;
        return Handled;
      }
      if name == "drain_bindings" && origin == AdapterOrigin {
        adapterDrainBindings := value;
        return Handled;
      }
      var d := FindEnvelopeStat(index);
      if name == "subscriptions" && origin == DopplerOrigin {
        if d == -1 {
          return Panic;
        }
        envelopeStats := envelopeStats[d := envelopeStats[d].(subscriptions := value)];
        return Handled;
      }
      return Unmatched;
    }

    method ProcessCounterEvent(origin: string, index: string, name: string, delta: nat) returns (out: Outcome)
      modifies this
      ensures Step(State(), out) == CounterEventStep(old(State()), origin, index, name, delta)
    {
      var d := FindEnvelopeStat(index);
      var m := FindMetron(index);
      if origin == DopplerOrigin && name in {"ingress", "dropped", "sinks.dropped"} {
        if d == -1 {
          return Panic;
        }
        if name == "ingress" {
          envelopeStats := envelopeStats[d := envelopeStats[d].(ingress := delta)];
        } else if name == "dropped" {
          envelopeStats := envelopeStats[d := envelopeStats[d].(dropped := delta)];
        } else {
          envelopeStats := envelopeStats[d := envelopeStats[d].(sinksDropped := delta)];
        }
        return Handled;
      }
      if origin == MetronOrigin && name in {"ingress", "dropped"} {
        if m == -1 {
          return Panic;
        }
        if name == "ingress" {
          metrons := metrons[m := metrons[m].(ingress := delta)];
        } else {
          metrons := metrons[m := metrons[m].(dropped := delta)];
        }
        return Handled;
      }
      return Unmatched;
    }

    /** parseEnvelope; `archive` is whether the envelope is handed to the archive writer. */
    method ParseEnvelope(e: Envelope, archiveEnabled: bool) returns (out: Outcome, archive: bool)
      modifies this
      ensures Step(State(), out) == ParseEnvelopeStep(old(State()), e)
      ensures archive <==> out == Handled && archiveEnabled
    {
      if e.origin == MetronOrigin && e.event.CounterEvent? {
        var m := FindMetron(e.index);
        if m == -1 {
          metrons := metrons + [Metron(e.job, e.index, 0, 0)];
        }
      }
      if !KnownJob(e.job) {
        return Unmatched, false;
      }
      var i := FindInstance(e.index);
      if i == -1 {
        instances := instances + [Instance(e.job, e.index, 0.0, 0.0, 0.0, 0.0)];
        if e.job == DopplerJob {
          envelopeStats := envelopeStats + [EnvelopeStat(e.job, e.index, 0.0, 0, 0, 0)];
        }
      }
      match e.event {
        case ValueMetric(name, value, _) =>
          out := ProcessValueMetric(e.origin, e.index, name, value);
        case CounterEvent(name, delta, _) =>
          out := ProcessCounterEvent(e.origin, e.index, name, delta);
        case OtherEvent(_) =>
          out := Unmatched;
      }
      archive := out == Handled && archiveEnabled;
    }
  }
}
