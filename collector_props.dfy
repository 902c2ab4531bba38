/** Properties of the stream-path envelope processor: what one parseEnvelope call may
    create, which single field it overwrites, when it panics, and the invariants it keeps
    over any sequence of envelopes. */
module CollectorProps {
  import opened Envelopes
  import opened Collector

  function InstanceId(i: Instance): (string, string) { (i.job, i.index) }
  function StatId(s: EnvelopeStat): (string, string) { (s.job, s.index) }
  function MetronId(m: Metron): (string, string) { (m.job, m.index) }

  /** b is a with at most one entry appended; the (job, index) of every old entry is kept. */
  predicate GrowsByAtMostOne<T>(a: seq<T>, b: seq<T>, id: T -> (string, string))
  {
    && |a| <= |b| <= |a| + 1
    && forall j :: 0 <= j < |a| ==> id(b[j]) == id(a[j])
  }

  predicate Grows(st: StreamState, st': StreamState)
  {
    && GrowsByAtMostOne(st.instances, st'.instances, InstanceId)
    && GrowsByAtMostOne(st.envelopeStats, st'.envelopeStats, StatId)
    && GrowsByAtMostOne(st.metrons, st'.metrons, MetronId)
  }

  /** The gauge of an instance that a bosh-system-metrics-forwarder metric name selects. */
  function Gauge(i: Instance, name: string): real
  {
    if name == "system.cpu.wait" then i.cpuWait
    else if name == "system.cpu.user" then i.cpuUser
    else if name == "system.cpu.sys" then i.cpuSys
    else i.memory
  }

  predicate IsGaugeName(name: string)
  {
    name in {"system.cpu.wait", "system.cpu.user", "system.cpu.sys", "system.mem.percent"}
  }

  // ---------------------------------------------------------------------------------
  // Position after the list operations parseEnvelope performs

  lemma PositionAppend<T>(s: seq<T>, x: T, key: T -> string, idx: string)
    ensures Position(s + [x], key, idx) ==
      if Position(s, key, idx) != -1 then Position(s, key, idx)
      else if key(x) == idx then |s| else -1
  {
    var p := Position(s + [x], key, idx);
    var q := Position(s, key, idx);
    assert forall j :: 0 <= j < |s| ==> (s + [x])[j] == s[j];
    if q != -1 {
      assert key((s + [x])[q]) == idx;
      assert p != -1 && p <= q;
    } else if key(x) == idx {
      assert key((s + [x])[|s|]) == idx;
    }
  }

  lemma PositionUpdate<T>(s: seq<T>, i: nat, x: T, key: T -> string, idx: string)
    requires i < |s| && key(x) == key(s[i])
    ensures Position(s[i := x], key, idx) == Position(s, key, idx)
  {
    var p := Position(s[i := x], key, idx);
    var q := Position(s, key, idx);
    assert forall j :: 0 <= j < |s| ==> key(s[i := x][j]) == key(s[j]);
    if p != -1 { assert q != -1 && q <= p; }
    if q != -1 { assert p != -1 && p <= q; }
  }

  lemma PositionFound<T>(s: seq<T>, key: T -> string, idx: string)
    ensures Position(s, key, idx) != -1 <==> HasIndex(s, key, idx)
  {
    if HasIndex(s, key, idx) {
      var j :| 0 <= j < |s| && key(s[j]) == idx;
      assert Position(s, key, idx) != -1;
    }
  }

  /** In a list with unique keys, the entry with a given key is the one Position finds. */
  lemma PositionUnique<T>(s: seq<T>, key: T -> string, j: nat)
    requires Unique(s, key) && j < |s|
    ensures Position(s, key, key(s[j])) == j
  {
  }

  // ---------------------------------------------------------------------------------
  // The dispatch steps change field values only, never which entries exist

  predicate SameIds(st: StreamState, st': StreamState)
  {
    && |st'.instances| == |st.instances| && |st'.envelopeStats| == |st.envelopeStats| && |st'.metrons| == |st.metrons|
    && (forall j :: 0 <= j < |st.instances| ==> InstanceId(st'.instances[j]) == InstanceId(st.instances[j]))
    && (forall j :: 0 <= j < |st.envelopeStats| ==> StatId(st'.envelopeStats[j]) == StatId(st.envelopeStats[j]))
    && (forall j :: 0 <= j < |st.metrons| ==> MetronId(st'.metrons[j]) == MetronId(st.metrons[j]))
  }

  lemma ValueStepKeepsIds(st: StreamState, origin: string, index: string, name: string, value: real)
    ensures SameIds(st, ValueMetricStep(st, origin, index, name, value).state)
  {
  }

  lemma CounterStepKeepsIds(st: StreamState, origin: string, index: string, name: string, delta: nat)
    ensures SameIds(st, CounterEventStep(st, origin, index, name, delta).state)
  {
  }

  lemma DispatchKeepsIds(st: StreamState, e: Envelope)
    ensures e.event.ValueMetric? ==> SameIds(st, ValueMetricStep(st, e.origin, e.index, e.event.name, e.event.value).state)
    ensures e.event.CounterEvent? ==> SameIds(st, CounterEventStep(st, e.origin, e.index, e.event.name, e.event.delta).state)
  {
    match e.event
    case ValueMetric(name, value, _) => ValueStepKeepsIds(st, e.origin, e.index, name, value);
    case CounterEvent(name, delta, _) => CounterStepKeepsIds(st, e.origin, e.index, name, delta);
    case OtherEvent(_) =>
  }

  /** A value metric changes at most the instance its index selects. */
  lemma ValueStepOtherInstance(st: StreamState, origin: string, index: string, name: string, value: real, p: nat)
    requires p < |st.instances| && st.instances[p].index != index
    ensures var st' := ValueMetricStep(st, origin, index, name, value).state;
      |st'.instances| == |st.instances| && st'.instances[p] == st.instances[p]
  {
  }

  /** A counter event changes no instance. */
  lemma CounterStepKeepsInstances(st: StreamState, origin: string, index: string, name: string, delta: nat)
    ensures CounterEventStep(st, origin, index, name, delta).state.instances == st.instances
  {
  }

  lemma SameIdsKeepValid(st: StreamState, st': StreamState)
    requires Valid(st) && SameIds(st, st')
    ensures Valid(st')
  {
    forall j | 0 <= j < |st'.envelopeStats|
      ensures HasIndex(st'.instances, InstanceIndex, st'.envelopeStats[j].index)
    {
      assert HasIndex(st.instances, InstanceIndex, st.envelopeStats[j].index);
      var k :| 0 <= k < |st.instances| && st.instances[k].index == st.envelopeStats[j].index;
      assert st'.instances[k].index == st'.envelopeStats[j].index;
    }
  }

  /** Every doppler statistic's index is an instance's index. */
  lemma StatHasInstance(st: StreamState, idx: string)
    requires Valid(st) && HasIndex(st.envelopeStats, StatIndex, idx)
    ensures HasIndex(st.instances, InstanceIndex, idx)
  {
    var j :| 0 <= j < |st.envelopeStats| && st.envelopeStats[j].index == idx;
    assert HasIndex(st.instances, InstanceIndex, st.envelopeStats[j].index);
  }

  lemma AddMetronKeepsValid(st: StreamState, e: Envelope)
    requires Valid(st)
    ensures Valid(AddMetron(st, e)) && Grows(st, AddMetron(st, e))
  {
    var st1 := AddMetron(st, e);
    assert st1.instances == st.instances && st1.envelopeStats == st.envelopeStats;
    assert Unique(st1.metrons, MetronIndex);
  }

  lemma AddInstanceKeepsValid(st: StreamState, e: Envelope)
    requires Valid(st)
    ensures Valid(AddInstance(st, e)) && Grows(st, AddInstance(st, e))
  {
    var st2 := AddInstance(st, e);
    if Position(st.instances, InstanceIndex, e.index) == -1 {
      var n := |st.instances|;
      assert st2.instances[n].index == e.index;
      assert HasIndex(st2.instances, InstanceIndex, e.index);
      assert Unique(st2.instances, InstanceIndex);
      if HasIndex(st.envelopeStats, StatIndex, e.index) {
        StatHasInstance(st, e.index);
        PositionFound(st.instances, InstanceIndex, e.index);
      }
      assert forall j :: 0 <= j < |st.envelopeStats| ==> st.envelopeStats[j].index != e.index;
      assert Unique(st2.envelopeStats, StatIndex);
      forall j | 0 <= j < |st2.envelopeStats|
        ensures HasIndex(st2.instances, InstanceIndex, st2.envelopeStats[j].index)
      {
        if j < |st.envelopeStats| {
          assert st2.envelopeStats[j] == st.envelopeStats[j];
          assert HasIndex(st.instances, InstanceIndex, st.envelopeStats[j].index);
          var k :| 0 <= k < n && st.instances[k].index == st.envelopeStats[j].index;
          assert st2.instances[k] == st.instances[k];
        }
      }
    }
  }

  lemma CreateEntriesKeepsValid(st: StreamState, e: Envelope)
    requires Valid(st)
    ensures Valid(CreateEntries(st, e))
    ensures Grows(st, CreateEntries(st, e))
  {
    AddMetronKeepsValid(st, e);
    var st1 := AddMetron(st, e);
    if KnownJob(e.job) {
      AddInstanceKeepsValid(st1, e);
    }
  }

  /** parseEnvelope keeps every index unique in its list and every doppler statistic tied
      to an instance, and only ever appends: no entry is removed or re-keyed, and each list
      gains at most one entry per envelope. */
  lemma {:induction false} ParseEnvelopeKeepsValid(st: StreamState, e: Envelope)
    requires Valid(st)
    ensures Valid(ParseEnvelopeStep(st, e).state)
    ensures Grows(st, ParseEnvelopeStep(st, e).state)
  {
    var st1 := CreateEntries(st, e);
    CreateEntriesKeepsValid(st, e);
    var st2 := ParseEnvelopeStep(st, e).state;
    DispatchKeepsIds(st1, e);
    if KnownJob(e.job) && !e.event.OtherEvent? {
      SameIdsKeepValid(st1, st2);
    }
  }

  // ---------------------------------------------------------------------------------
  // Entry creation

  /** A metron-origin counter envelope leaves a metron with its index in the list, appending
      Metron{Job, Index} exactly when none had it, whatever its job. */
  lemma MetronEntryCreated(st: StreamState, e: Envelope)
    requires e.origin == MetronOrigin && e.event.CounterEvent?
    ensures var st' := CreateEntries(st, e);
      && HasIndex(st'.metrons, MetronIndex, e.index)
      && (HasIndex(st.metrons, MetronIndex, e.index) ==> st'.metrons == st.metrons)
      && (!HasIndex(st.metrons, MetronIndex, e.index) ==> st'.metrons == st.metrons + [Metron(e.job, e.index, 0, 0)])
  {
    PositionFound(st.metrons, MetronIndex, e.index);
    var st' := CreateEntries(st, e);
    if !HasIndex(st.metrons, MetronIndex, e.index) {
      assert st'.metrons[|st.metrons|].index == e.index;
    }
  }

  /** An envelope from a job outside the allowlist changes nothing but the metron entry it
      may create, and is never archived; such a metron keeps zero ingress and dropped. */
  lemma UnknownJobIgnored(st: StreamState, e: Envelope)
    requires !KnownJob(e.job)
    ensures var r := ParseEnvelopeStep(st, e);
      && r.outcome == Unmatched
      && r.state.instances == st.instances
      && r.state.envelopeStats == st.envelopeStats
      && r.state.adapterDrainBindings == st.adapterDrainBindings
      && r.state.schedulerDrains == st.schedulerDrains
      && (r.state.metrons == st.metrons || r.state.metrons == st.metrons + [Metron(e.job, e.index, 0, 0)])
  {
  }

  /** For an allowlisted job an unseen index appends exactly one instance, plus one doppler
      statistic when the job is doppler; a seen index appends nothing. */
  lemma KnownJobCreatesInstance(st: StreamState, e: Envelope)
    requires Valid(st) && KnownJob(e.job)
    ensures var st' := ParseEnvelopeStep(st, e).state;
      && HasIndex(st'.instances, InstanceIndex, e.index)
      && |st'.instances| == |st.instances| + (if HasIndex(st.instances, InstanceIndex, e.index) then 0 else 1)
      && |st'.envelopeStats| == |st.envelopeStats| +
           (if !HasIndex(st.instances, InstanceIndex, e.index) && e.job == DopplerJob then 1 else 0)
  {
    var st1 := CreateEntries(st, e);
    PositionFound(st.instances, InstanceIndex, e.index);
    assert st1.instances[..|st.instances|] == st.instances;
    if HasIndex(st.instances, InstanceIndex, e.index) {
      var k :| 0 <= k < |st.instances| && st.instances[k].index == e.index;
      assert st1.instances[k].index == e.index;
    } else {
      assert st1.instances[|st.instances|].index == e.index;
    }
    assert HasIndex(st1.instances, InstanceIndex, e.index);
    var st2 := ParseEnvelopeStep(st, e).state;
    DispatchKeepsIds(st1, e);
    var k :| 0 <= k < |st1.instances| && st1.instances[k].index == e.index;
    assert st2.instances[k].index == e.index;
  }

  // ---------------------------------------------------------------------------------
  // Which field is written

  /** A bosh gauge from an allowlisted job overwrites that one gauge of the first instance
      with the envelope's index and nothing else. */
  lemma GaugeOverwritesOneField(st: StreamState, e: Envelope)
    requires KnownJob(e.job) && e.origin == BoshOrigin && e.event.ValueMetric? && IsGaugeName(e.event.name)
    ensures var st1 := CreateEntries(st, e);
      var r := ParseEnvelopeStep(st, e);
      var p := Position(st1.instances, InstanceIndex, e.index);
      && r.outcome == Handled && p >= 0
      && |r.state.instances| == |st1.instances|
      && Gauge(r.state.instances[p], e.event.name) == e.event.value
      && InstanceId(r.state.instances[p]) == InstanceId(st1.instances[p])
      && (forall n :: IsGaugeName(n) && n != e.event.name ==> Gauge(r.state.instances[p], n) == Gauge(st1.instances[p], n))
      && (forall j :: 0 <= j < |st1.instances| && j != p ==> r.state.instances[j] == st1.instances[j])
      && r.state.(instances := st1.instances) == st1
  {
    var st0 := AddMetron(st, e);
    PositionAppend(st0.instances, Instance(e.job, e.index, 0.0, 0.0, 0.0, 0.0), InstanceIndex, e.index);
  }

  /** Scheduler `drains` and adapter `drain_bindings` overwrite their scalar and nothing else. */
  lemma DrainGaugesOverwrite(st: StreamState, e: Envelope)
    requires KnownJob(e.job) && e.event.ValueMetric?
    requires (e.event.name == "drains" && e.origin == SchedulerOrigin) || (e.event.name == "drain_bindings" && e.origin == AdapterOrigin)
    ensures var st1 := CreateEntries(st, e);
      var r := ParseEnvelopeStep(st, e);
      && r.outcome == Handled
      && (e.origin == SchedulerOrigin ==> r.state == st1.(schedulerDrains := e.event.value))
      && (e.origin == AdapterOrigin ==> r.state == st1.(adapterDrainBindings := e.event.value))
  {
  }

  /** The counter field a doppler or metron counter selects. */
  function DopplerCounter(s: EnvelopeStat, name: string): nat
  {
    if name == "ingress" then s.ingress else if name == "dropped" then s.dropped else s.sinksDropped
  }

  function MetronCounter(m: Metron, name: string): nat
  {
    if name == "ingress" then m.ingress else m.dropped
  }

  /** Doppler-origin ingress/dropped/sinks.dropped set the statistic's field to the delta
      (no accumulation) when the index has a statistic, and panic when it has none. */
  lemma DopplerCounterOverwrites(st: StreamState, e: Envelope)
    requires KnownJob(e.job) && e.origin == DopplerOrigin && e.event.CounterEvent?
    requires e.event.name in {"ingress", "dropped", "sinks.dropped"}
    ensures var st1 := CreateEntries(st, e);
      var r := ParseEnvelopeStep(st, e);
      var d := Position(st1.envelopeStats, StatIndex, e.index);
      && (d == -1 <==> r.outcome == Panic)
      && (d >= 0 ==>
            && r.outcome == Handled
            && DopplerCounter(r.state.envelopeStats[d], e.event.name) == e.event.delta
            && (forall j :: 0 <= j < |st1.envelopeStats| && j != d ==> r.state.envelopeStats[j] == st1.envelopeStats[j])
            && r.state.(envelopeStats := st1.envelopeStats) == st1)
  {
  }

  /** Metron-origin ingress/dropped from an allowlisted job set the metron's field to the
      delta; the metron entry always exists by then, so this never panics. */
  lemma MetronCounterOverwrites(st: StreamState, e: Envelope)
    requires KnownJob(e.job) && e.origin == MetronOrigin && e.event.CounterEvent?
    requires e.event.name in {"ingress", "dropped"}
    ensures var st1 := CreateEntries(st, e);
      var r := ParseEnvelopeStep(st, e);
      var m := Position(st1.metrons, MetronIndex, e.index);
      && r.outcome == Handled && m >= 0
      && MetronCounter(r.state.metrons[m], e.event.name) == e.event.delta
      && (forall j :: 0 <= j < |st1.metrons| && j != m ==> r.state.metrons[j] == st1.metrons[j])
      && r.state.(metrons := st1.metrons) == st1
  {
    MetronEntryCreated(st, e);
    PositionFound(CreateEntries(st, e).metrons, MetronIndex, e.index);
  }

  /** An unmatched (name, origin) pair, or a panic, leaves the state as entry creation left
      it; only a handled envelope is archived. */
  lemma UnhandledChangesNothing(st: StreamState, e: Envelope)
    ensures var r := ParseEnvelopeStep(st, e);
      r.outcome != Handled ==> r.state == CreateEntries(st, e)
  {
  }

  /** When parseEnvelope panics, given the invariant: exactly for a doppler-origin envelope
      of an allowlisted job whose dispatch needs a doppler statistic that its index lacks,
      i.e. the index was already seen without one, or is new and the job is not doppler. */
  lemma PanicExactly(st: StreamState, e: Envelope)
    requires Valid(st)
    ensures ParseEnvelopeStep(st, e).outcome == Panic <==>
      && KnownJob(e.job)
      && e.origin == DopplerOrigin
      && ((e.event.ValueMetric? && e.event.name == "subscriptions")
          || (e.event.CounterEvent? && e.event.name in {"ingress", "dropped", "sinks.dropped"}))
      && !HasIndex(st.envelopeStats, StatIndex, e.index)
      && (HasIndex(st.instances, InstanceIndex, e.index) || e.job != DopplerJob)
  {
    if KnownJob(e.job) {
      var st1 := CreateEntries(st, e);
      EntriesForKnownJob(st, e);
      match e.event
      case ValueMetric(name, value, _) =>
        ValueStepPanics(st1, e.origin, e.index, name, value);
      case CounterEvent(name, delta, _) =>
        CounterStepPanics(st1, e.origin, e.index, name, delta);
        if e.origin == MetronOrigin { MetronEntryCreated(st, e); }
      case OtherEvent(_) =>
    }
  }

  /** After entry creation for an allowlisted job, the index has an instance, and it has a
      doppler statistic exactly when it had one or is new and the job is doppler. */
  lemma EntriesForKnownJob(st: StreamState, e: Envelope)
    requires Valid(st) && KnownJob(e.job)
    ensures var st1 := CreateEntries(st, e);
      && HasIndex(st1.instances, InstanceIndex, e.index)
      && (HasIndex(st1.envelopeStats, StatIndex, e.index) <==>
            HasIndex(st.envelopeStats, StatIndex, e.index)
            || (!HasIndex(st.instances, InstanceIndex, e.index) && e.job == DopplerJob))
  {
    var st0 := AddMetron(st, e);
    assert st0.envelopeStats == st.envelopeStats && st0.instances == st.instances;
    var st1 := CreateEntries(st, e);
    PositionFound(st.instances, InstanceIndex, e.index);
    PositionFound(st.envelopeStats, StatIndex, e.index);
    if !HasIndex(st.instances, InstanceIndex, e.index) {
      assert st1.instances[|st.instances|].index == e.index;
      assert !HasIndex(st.envelopeStats, StatIndex, e.index) by {
        if HasIndex(st.envelopeStats, StatIndex, e.index) { StatHasInstance(st, e.index); }
      }
      if e.job == DopplerJob {
        assert st1.envelopeStats[|st.envelopeStats|].index == e.index;
      } else {
        assert st1.envelopeStats == st.envelopeStats;
      }
    } else {
      assert st1 == st0;
    }
  }

  /** A value metric panics exactly when its (origin, name) pair needs an entry its index
      lacks: an instance for a bosh gauge, a doppler statistic for subscriptions. */
  lemma ValueStepPanics(st: StreamState, origin: string, index: string, name: string, value: real)
    ensures ValueMetricStep(st, origin, index, name, value).outcome == Panic <==>
      || (origin == BoshOrigin && IsGaugeName(name) && !HasIndex(st.instances, InstanceIndex, index))
      || (origin == DopplerOrigin && name == "subscriptions" && !HasIndex(st.envelopeStats, StatIndex, index))
  {
    PositionFound(st.instances, InstanceIndex, index);
    PositionFound(st.envelopeStats, StatIndex, index);
  }

  /** A counter event panics exactly when its (origin, name) pair needs an entry its index
      lacks: a doppler statistic for doppler counters, a metron for metron counters. */
  lemma CounterStepPanics(st: StreamState, origin: string, index: string, name: string, delta: nat)
    ensures CounterEventStep(st, origin, index, name, delta).outcome == Panic <==>
      || (origin == DopplerOrigin && name in {"ingress", "dropped", "sinks.dropped"}
          && !HasIndex(st.envelopeStats, StatIndex, index))
      || (origin == MetronOrigin && name in {"ingress", "dropped"} && !HasIndex(st.metrons, MetronIndex, index))
  {
    PositionFound(st.envelopeStats, StatIndex, index);
    PositionFound(st.metrons, MetronIndex, index);
  }


  // ---------------------------------------------------------------------------------
  // Sequences of envelopes

  /** Ingesting a + b is ingesting a, then b from where a left off. */
  lemma {:induction false} IngestAllAppend(st: StreamState, a: seq<Envelope>, b: seq<Envelope>)
    ensures IngestAll(st, a + b) ==
      if IngestAll(st, a).crashed then IngestAll(st, a) else IngestAll(IngestAll(st, a).state, b)
  {
    if |b| == 0 {
      assert a + b == a;
    } else {
      assert (a + b)[..|a + b| - 1] == a + b[..|b| - 1];
      IngestAllAppend(st, a, b[..|b| - 1]);
    }
  }

  /** The invariant holds after any envelope sequence, and no list ever shrinks. */
  lemma {:induction false} IngestAllKeepsValid(st: StreamState, es: seq<Envelope>)
    requires Valid(st)
    ensures Valid(IngestAll(st, es).state)
    ensures |IngestAll(st, es).state.instances| >= |st.instances|
    ensures |IngestAll(st, es).state.envelopeStats| >= |st.envelopeStats|
    ensures |IngestAll(st, es).state.metrons| >= |st.metrons|
  {
    if |es| > 0 {
      IngestAllKeepsValid(st, es[..|es| - 1]);
      var r := IngestAll(st, es[..|es| - 1]);
      if !r.crashed {
        ParseEnvelopeKeepsValid(r.state, es[|es| - 1]);
      }
    }
  }

  /** An envelope for another index leaves the instance at position p untouched. */
  lemma OtherIndexFrame(st: StreamState, e: Envelope, p: nat)
    requires Valid(st) && p < |st.instances| && st.instances[p].index != e.index
    ensures var st' := ParseEnvelopeStep(st, e).state;
      p < |st'.instances| && st'.instances[p] == st.instances[p]
  {
    var st1 := CreateEntries(st, e);
    CreateEntriesKeepsValid(st, e);
    assert st1.instances[p] == st.instances[p];
    if KnownJob(e.job) {
      match e.event
      case ValueMetric(name, value, _) => ValueStepOtherInstance(st1, e.origin, e.index, name, value, p);
      case CounterEvent(name, delta, _) => CounterStepKeepsInstances(st1, e.origin, e.index, name, delta);
      case OtherEvent(_) =>
    }
  }


  /** Envelopes for other indexes, in any number, leave the instance at position p untouched. */
  lemma {:induction false} OtherIndexesFrame(st: StreamState, es: seq<Envelope>, p: nat)
    requires Valid(st) && p < |st.instances|
    requires forall k :: 0 <= k < |es| ==> es[k].index != st.instances[p].index
    ensures p < |IngestAll(st, es).state.instances|
    ensures IngestAll(st, es).state.instances[p] == st.instances[p]
  {
    if |es| > 0 {
      var front := es[..|es| - 1];
      OtherIndexesFrame(st, front, p);
      IngestAllKeepsValid(st, front);
      var r := IngestAll(st, front);
      if !r.crashed {
        OtherIndexFrame(r.state, es[|es| - 1], p);
      }
    }
  }

  /** Last write wins: after a gauge envelope for an index, any number of envelopes for
      other indexes leave that gauge at the value it was set to. */
  lemma {:induction false} GaugeLastWriteWins(st: StreamState, e: Envelope, rest: seq<Envelope>)
    requires Valid(st)
    requires KnownJob(e.job) && e.origin == BoshOrigin && e.event.ValueMetric? && IsGaugeName(e.event.name)
    requires forall k :: 0 <= k < |rest| ==> rest[k].index != e.index
    ensures var r := IngestAll(st, [e] + rest);
      var p := Position(r.state.instances, InstanceIndex, e.index);
      p >= 0 && Gauge(r.state.instances[p], e.event.name) == e.event.value
  {
    GaugeOverwritesOneField(st, e);
    assert [e][..0] == [];
    var r1 := IngestAll(st, [e]);
    ParseEnvelopeKeepsValid(st, e);
    var p := Position(r1.state.instances, InstanceIndex, e.index);
    IngestAllAppend(st, [e], rest);
    OtherIndexesFrame(r1.state, rest, p);
    var r := IngestAll(r1.state, rest);
    IngestAllKeepsValid(r1.state, rest);
    PositionUnique(r.state.instances, InstanceIndex, p);
  }
}
