/** The derived metrics the dashboard shows (term-output.go): per-job instance counts and
    CPU/memory averages, the doppler ingress and sinks-dropped sums, the message-rate
    capacity, the per-doppler loss ratio, the unhealthy-metron report and the replay
    progress bar. Go's float division by zero yields NaN or an infinity; here such a
    result is None ("undefined"). Terminal colours and layout are not modelled. */
module TermOutput {
  import opened Text
  import opened Envelopes
  import opened Collector

  // ---------------------------------------------------------------------------------
  // computeInstance

  function CountJob(insts: seq<Instance>, job: string): nat
  {
    if |insts| == 0 then 0
    else CountJob(insts[..|insts| - 1], job) + (if insts[|insts| - 1].job == job then 1 else 0)
  }

  /** The sum of one gauge over the instances of a job. */
  function SumJob(insts: seq<Instance>, job: string, gauge: Instance -> real): real
  {
    if |insts| == 0 then 0.0
    else SumJob(insts[..|insts| - 1], job, gauge) + (if insts[|insts| - 1].job == job then gauge(insts[|insts| - 1]) else 0.0)
  }

  /** sum / float64(count), with the NaN of count = 0 as None. */
  function Mean(sum: real, count: nat): (r: Option<real>)
    ensures r.Some? <==> count > 0
  {
    if count == 0 then None else Some(sum / count as real)
  }

  function CpuUser(i: Instance): real { i.cpuUser }
  function CpuSys(i: Instance): real { i.cpuSys }
  function CpuWait(i: Instance): real { i.cpuWait }
  function MemoryOf(i: Instance): real { i.memory }

  datatype JobSummary = JobSummary(count: nat, user: Option<real>, sys: Option<real>, wait: Option<real>, mem: Option<real>)

  /** What computeInstance(job) returns for a list of instances. */
  function Summary(insts: seq<Instance>, job: string): JobSummary
  {
    var n := CountJob(insts, job);
    JobSummary(n, Mean(SumJob(insts, job, CpuUser), n), Mean(SumJob(insts, job, CpuSys), n),
               Mean(SumJob(insts, job, CpuWait), n), Mean(SumJob(insts, job, MemoryOf), n))
  }

  /** computeInstance (term-output.go:105-120). */
  method ComputeInstance(insts: seq<Instance>, job: string) returns (s: JobSummary)
    ensures s == Summary(insts, job)
  {
    var count: nat := 0;
    var user, sys, wait, mem := 0.0, 0.0, 0.0, 0.0;
    var i := 0;
    while i < |insts|
      invariant 0 <= i <= |insts|
      invariant count == CountJob(insts[..i], job)
      invariant user == SumJob(insts[..i], job, CpuUser) && sys == SumJob(insts[..i], job, CpuSys)
      invariant wait == SumJob(insts[..i], job, CpuWait) && mem == SumJob(insts[..i], job, MemoryOf)
    {
      assert insts[..i + 1][..i] == insts[..i];
      if insts[i].job == job {
        count := count + 1;
        user := user + insts[i].cpuUser;
        sys := sys + insts[i].cpuSys;
        wait := wait + insts[i].cpuWait;
        mem := mem + insts[i].memory;
      }
      i := i + 1;
    }
    assert insts[..i] == insts;
    s := JobSummary(count, Mean(user, count), Mean(sys, count), Mean(wait, count), Mean(mem, count));
  }

  /** The count is zero exactly when no instance has the job, so averages are undefined
      exactly then. */
  lemma {:induction false} CountJobZero(insts: seq<Instance>, job: string)
    ensures CountJob(insts, job) == 0 <==> forall j :: 0 <= j < |insts| ==> insts[j].job != job
  {
    if |insts| > 0 {
      var front := insts[..|insts| - 1];
      CountJobZero(front, job);
      assert forall j :: 0 <= j < |front| ==> front[j] == insts[j];
    }
  }

  /** The count never exceeds the number of instances. */
  lemma {:induction false} CountJobBounded(insts: seq<Instance>, job: string)
    ensures CountJob(insts, job) <= |insts|
  {
    if |insts| > 0 { CountJobBounded(insts[..|insts| - 1], job); }
  }

  /** Each gauge's sum lies between count * lo and count * hi when every matching instance's
      gauge does. */
  lemma {:induction false} SumJobBounds(insts: seq<Instance>, job: string, gauge: Instance -> real, lo: real, hi: real)
    requires forall j :: 0 <= j < |insts| && insts[j].job == job ==> lo <= gauge(insts[j]) <= hi
    ensures CountJob(insts, job) as real * lo <= SumJob(insts, job, gauge) <= CountJob(insts, job) as real * hi
  {
    if |insts| > 0 {
      var front := insts[..|insts| - 1];
      assert forall j :: 0 <= j < |front| ==> front[j] == insts[j];
      SumJobBounds(front, job, gauge, lo, hi);
    }
  }

  /** An average is a true mean: it lies within the range of the matching instances' gauges. */
  lemma MeanWithinRange(insts: seq<Instance>, job: string, gauge: Instance -> real, lo: real, hi: real)
    requires forall j :: 0 <= j < |insts| && insts[j].job == job ==> lo <= gauge(insts[j]) <= hi
    requires CountJob(insts, job) > 0
    ensures var m := Mean(SumJob(insts, job, gauge), CountJob(insts, job));
      m.Some? && lo <= m.value <= hi
  {
    SumJobBounds(insts, job, gauge, lo, hi);
    DivBetween(SumJob(insts, job, gauge), CountJob(insts, job) as real, lo, hi);
  }

  lemma DivBetween(s: real, n: real, lo: real, hi: real)
    requires n > 0.0 && n * lo <= s <= n * hi
    ensures lo <= s / n <= hi
  {
    assert s / n - lo == (s - n * lo) / n;
    assert hi - s / n == (n * hi - s) / n;
  }

  lemma DivMonotone(a: real, b: real, n: real)
    requires n > 0.0 && a <= b
    ensures a / n <= b / n
  {
    assert b / n - a / n == (b - a) / n;
  }

  /** A job never observed has count 0 and undefined averages, never a number. */
  lemma UnobservedJobUndefined(insts: seq<Instance>, job: string)
    requires forall j :: 0 <= j < |insts| ==> insts[j].job != job
    ensures Summary(insts, job) == JobSummary(0, None, None, None, None)
  {
    CountJobZero(insts, job);
  }

  /** Ingesting one cpu.wait gauge of 12.5 for a traffic-controller instance into an empty
      state gives that job a count of 1 and an average wait of 12.5. */
  lemma SingleGaugeScenario()
    ensures var e := Envelope(0, BoshOrigin, TrafficControllerJob, "a", ValueMetric("system.cpu.wait", 12.5, "Percent"));
      var st := ParseEnvelopeStep(EmptyState, e).state;
      Summary(st.instances, TrafficControllerJob).count == 1
      && Summary(st.instances, TrafficControllerJob).wait == Some(12.5)
  {
    var e := Envelope(0, BoshOrigin, TrafficControllerJob, "a", ValueMetric("system.cpu.wait", 12.5, "Percent"));
    var inst := Instance(TrafficControllerJob, "a", 0.0, 0.0, 0.0, 0.0);
    var st1 := CreateEntries(EmptyState, e);
    assert st1.instances == [inst];
    assert Position(st1.instances, InstanceIndex, "a") == 0;
    var st := ParseEnvelopeStep(EmptyState, e).state;
    assert st.instances == [inst.(cpuWait := 12.5)];
    assert st.instances[..0] == [];
    assert CountJob(st.instances, TrafficControllerJob) == 1;
    assert SumJob(st.instances, TrafficControllerJob, CpuWait) == 12.5;
  }

  // ---------------------------------------------------------------------------------
  // The doppler table, sums and capacity

  /** Go's uint64 += wraps modulo 2^64. */
  function SumIngress(stats: seq<EnvelopeStat>): nat
  {
    if |stats| == 0 then 0 else SumIngress(stats[..|stats| - 1]) + stats[|stats| - 1].ingress
  }

  function SumSinksDropped(stats: seq<EnvelopeStat>): nat
  {
    if |stats| == 0 then 0 else SumSinksDropped(stats[..|stats| - 1]) + stats[|stats| - 1].sinksDropped
  }

  /** float64(Dropped) / float64(Ingress): undefined (NaN or +Inf in Go) when ingress is 0. */
  function Loss(s: EnvelopeStat): (r: Option<real>)
    ensures r.Some? <==> s.ingress > 0
  {
    if s.ingress == 0 then None else Some(s.dropped as real / s.ingress as real)
  }

  datatype DopplerRow = DopplerRow(job: string, index: string, subscriptions: real, ingress: nat, dropped: nat, loss: Option<real>)

  function RowOf(s: EnvelopeStat): DopplerRow
  {
    DopplerRow(s.job, s.index, s.subscriptions, s.ingress, s.dropped, Loss(s))
  }

  datatype DopplerTable = DopplerTable(totalDopplers: nat, ingressSum: nat, sinksDroppedSum: nat, capacity: Option<real>, rows: seq<DopplerRow>)

  /** float64(dMessSum) / float64(totalDopplers), undefined when there is no doppler. */
  function Capacity(ingressSum: nat, totalDopplers: nat): (r: Option<real>)
    ensures r.Some? <==> totalDopplers > 0
  {
    if totalDopplers == 0 then None else Some(ingressSum as real / totalDopplers as real)
  }

  /** Adding to a wrapped sum wraps the true sum. */
  lemma WrapAdd(a: nat, x: nat)
    ensures (a % Uint64Modulus + x) % Uint64Modulus == (a + x) % Uint64Modulus
  {
    var q := a / Uint64Modulus;
    assert a + x == (a % Uint64Modulus + x) + q * Uint64Modulus;
  }

  /** The EnvelopeStats loop of updateTerm (term-output.go:48-64). */
  method DopplerSummary(stats: seq<EnvelopeStat>) returns (t: DopplerTable)
    ensures t.totalDopplers == |stats|
    ensures t.ingressSum == SumIngress(stats) % Uint64Modulus
    ensures t.sinksDroppedSum == SumSinksDropped(stats) % Uint64Modulus
    ensures t.capacity == Capacity(t.ingressSum, t.totalDopplers)
    ensures |t.rows| == |stats| && forall k :: 0 <= k < |stats| ==> t.rows[k] == RowOf(stats[k])
  {
    var dMessSum: nat := 0;
    var sinksDroppedSum: nat := 0;
    var totalDopplers: nat := 0;
    var rows: seq<DopplerRow> := [];
    var i := 0;
    while i < |stats|
      invariant 0 <= i <= |stats|
      invariant totalDopplers == i
      invariant dMessSum == SumIngress(stats[..i]) % Uint64Modulus
      invariant sinksDroppedSum == SumSinksDropped(stats[..i]) % Uint64Modulus
      invariant |rows| == i && forall k :: 0 <= k < i ==> rows[k] == RowOf(stats[k])
    {
      assert stats[..i + 1][..i] == stats[..i];
      WrapAdd(SumIngress(stats[..i]), stats[i].ingress);
      WrapAdd(SumSinksDropped(stats[..i]), stats[i].sinksDropped);
      dMessSum := (dMessSum + stats[i].ingress) % Uint64Modulus;
      totalDopplers := totalDopplers + 1;
      sinksDroppedSum := (sinksDroppedSum + stats[i].sinksDropped) % Uint64Modulus;
      rows := rows + [RowOf(stats[i])];
      i := i + 1;
    }
    assert stats[..i] == stats;
    t := DopplerTable(totalDopplers, dMessSum, sinksDroppedSum, Capacity(dMessSum, totalDopplers), rows);
  }

  /** With every doppler's ingress at most hi (and no wrap-around), the capacity is at most hi:
      it is the mean ingress per doppler. */
  lemma {:induction false} SumIngressBounded(stats: seq<EnvelopeStat>, hi: nat)
    requires forall k :: 0 <= k < |stats| ==> stats[k].ingress <= hi
    ensures SumIngress(stats) <= |stats| * hi
  {
    if |stats| > 0 {
      var front := stats[..|stats| - 1];
      assert forall k :: 0 <= k < |front| ==> front[k] == stats[k];
      SumIngressBounded(front, hi);
    }
  }

  lemma CapacityIsMeanIngress(stats: seq<EnvelopeStat>, hi: nat)
    requires |stats| > 0
    requires forall k :: 0 <= k < |stats| ==> stats[k].ingress <= hi
    requires SumIngress(stats) < Uint64Modulus
    ensures var c := Capacity(SumIngress(stats) % Uint64Modulus, |stats|);
      c.Some? && 0.0 <= c.value <= hi as real
  {
    var sum := SumIngress(stats);
    assert sum % Uint64Modulus == sum;
    SumIngressBounded(stats, hi);
    MeanBound(sum, |stats|, hi);
  }

  /** A total of at most n * hi over n parts has a mean of at most hi. */
  lemma MeanBound(sum: nat, n: nat, hi: nat)
    requires n > 0 && sum <= n * hi
    ensures 0.0 <= sum as real / n as real <= hi as real
  {
    var r := n as real;
    assert sum as real <= r * hi as real;
    DivMonotone(sum as real, r * hi as real, r);
    assert (r * hi as real) / r == hi as real;
  }

  /** The loss ratio is a fraction of traffic when no more was dropped than received, and
      undefined rather than a number when nothing was received. */
  lemma LossIsFraction(s: EnvelopeStat)
    ensures s.ingress == 0 ==> Loss(s) == None
    ensures s.ingress > 0 && s.dropped <= s.ingress ==> Loss(s).Some? && 0.0 <= Loss(s).value <= 1.0
  {
    if s.ingress > 0 && s.dropped <= s.ingress {
      DivMonotone(s.dropped as real, s.ingress as real, s.ingress as real);
    }
  }

  lemma LossExamples()
    ensures Loss(EnvelopeStat(DopplerJob, "0", 0.0, 0, 100, 5)) == Some(0.05)
    ensures Loss(EnvelopeStat(DopplerJob, "0", 0.0, 0, 0, 0)) == None
  {
  }

  // ---------------------------------------------------------------------------------
  // The metron health report

  const NoUnhealthyText: string := "No unhealthy Metron Agents to report :-)"

  /** The metrons that dropped envelopes, in list order. */
  function Unhealthy(ms: seq<Metron>): seq<Metron>
  {
    if |ms| == 0 then []
    else Unhealthy(ms[..|ms| - 1]) + (if ms[|ms| - 1].dropped > 0 then [ms[|ms| - 1]] else [])
  }

  function MetronLine(m: Metron): string
  {
    m.job + "/" + m.index + " received " + Decimal(m.ingress) + " and dropped " + Decimal(m.dropped) + "\n"
  }

  function Lines(ms: seq<Metron>): string
  {
    if |ms| == 0 then "" else Lines(ms[..|ms| - 1]) + MetronLine(ms[|ms| - 1])
  }

  lemma LinesSnoc(u: seq<Metron>, m: Metron)
    ensures Lines(u + [m]) == Lines(u) + MetronLine(m)
  {
    assert (u + [m])[..|u|] == u;
  }

  /** What the metron loop appends for one metron. */
  function Listed(m: Metron): string
  {
    if m.dropped > 0 then MetronLine(m) else ""
  }

  lemma Assoc(a: string, b: string, c: string)
    ensures (a + b) + c == a + (b + c)
  {
  }

  /** The text the metron loop has built after the metrons ms, starting from header. */
  function Report(header: string, ms: seq<Metron>): string
  {
    if |ms| == 0 then header else Report(header, ms[..|ms| - 1]) + Listed(ms[|ms| - 1])
  }

  /** The loop's text is the header followed by a line per metron that dropped envelopes,
      in list order. */
  lemma {:induction false} ReportLists(header: string, ms: seq<Metron>)
    ensures Report(header, ms) == header + Lines(Unhealthy(ms))
  {
    if |ms| > 0 {
      var front, m := ms[..|ms| - 1], ms[|ms| - 1];
      ReportLists(header, front);
      var u := Unhealthy(front);
      if m.dropped > 0 {
        var line := MetronLine(m);
        assert Unhealthy(ms) == u + [m];
        LinesSnoc(u, m);
        Assoc(header, Lines(u), line);
      } else {
        assert Unhealthy(ms) == u + [] == u;
        assert Report(header, ms) == Report(header, front) + [];
      }
    }
  }

  /** The metron loop of updateTerm (term-output.go:66-71), without the terminal colours. */
  method MetronReport(ms: seq<Metron>) returns (report: string)
    ensures report == NoUnhealthyText + Lines(Unhealthy(ms))
  {
    report := NoUnhealthyText;
    for i := 0 to |ms|
      invariant report == Report(NoUnhealthyText, ms[..i])
    {
      assert ms[..i + 1][..i] == ms[..i];
      if ms[i].dropped > 0 {
        report := report + MetronLine(ms[i]);
      }
    }
    assert ms[..|ms|] == ms;
    ReportLists(NoUnhealthyText, ms);
  }

  /** The report lists exactly the metrons that dropped envelopes: each listed one dropped
      some and is in the list, and each one that dropped some is listed. */
  lemma {:induction false} UnhealthyExactly(ms: seq<Metron>)
    ensures forall m :: m in Unhealthy(ms) ==> m.dropped > 0 && m in ms
    ensures forall j :: 0 <= j < |ms| && ms[j].dropped > 0 ==> ms[j] in Unhealthy(ms)
  {
    if |ms| > 0 {
      var front := ms[..|ms| - 1];
      UnhealthyExactly(front);
      assert forall j :: 0 <= j < |front| ==> front[j] == ms[j];
    }
  }

  /** The order of the list is kept: the report for a + b is a's followed by b's. */
  lemma {:induction false} UnhealthyAppend(a: seq<Metron>, b: seq<Metron>)
    ensures Unhealthy(a + b) == Unhealthy(a) + Unhealthy(b)
  {
    if |b| > 0 {
      assert (a + b)[..|a + b| - 1] == a + b[..|b| - 1];
      UnhealthyAppend(a, b[..|b| - 1]);
    } else {
      assert a + b == a;
    }
  }

  /** When no metron dropped anything the report is the green text alone. */
  lemma {:induction false} AllHealthyReport(ms: seq<Metron>)
    requires forall j :: 0 <= j < |ms| ==> ms[j].dropped == 0
    ensures NoUnhealthyText + Lines(Unhealthy(ms)) == NoUnhealthyText
  {
    if |ms| > 0 {
      AllHealthyReport(ms[..|ms| - 1]);
    }
  }

  // ---------------------------------------------------------------------------------
  // The dashboard as a whole

  datatype Dashboard = Dashboard(
    trafficController: JobSummary,
    doppler: JobSummary,
    syslogAdapter: JobSummary,
    syslogScheduler: JobSummary,
    adapterDrainBindings: real,
    schedulerDrains: real,
    dopplers: DopplerTable,
    metronReport: string,
    progressBar: string)

  /** The aggregation part of updateTerm (term-output.go:39-96): it only reads the state
      (no modifies clause), so rendering never changes what it renders. */
  method UpdateTerm(mc: StreamMetrics, progressBar: string) returns (d: Dashboard)
    ensures d.trafficController == Summary(mc.instances, TrafficControllerJob)
    ensures d.doppler == Summary(mc.instances, DopplerJob)
    ensures d.syslogAdapter == Summary(mc.instances, SyslogAdapterJob)
    ensures d.syslogScheduler == Summary(mc.instances, SyslogSchedulerJob)
    ensures d.adapterDrainBindings == mc.adapterDrainBindings && d.schedulerDrains == mc.schedulerDrains
    ensures d.dopplers.totalDopplers == |mc.envelopeStats|
    ensures d.dopplers.ingressSum == SumIngress(mc.envelopeStats) % Uint64Modulus
    ensures d.dopplers.sinksDroppedSum == SumSinksDropped(mc.envelopeStats) % Uint64Modulus
    ensures d.dopplers.capacity == Capacity(d.dopplers.ingressSum, |mc.envelopeStats|)
    ensures |d.dopplers.rows| == |mc.envelopeStats|
    ensures forall k :: 0 <= k < |mc.envelopeStats| ==> d.dopplers.rows[k] == RowOf(mc.envelopeStats[k])
    ensures d.metronReport == NoUnhealthyText + Lines(Unhealthy(mc.metrons))
    ensures d.progressBar == progressBar
  {
    var tc := ComputeInstance(mc.instances, TrafficControllerJob);
    var dp := ComputeInstance(mc.instances, DopplerJob);
    var sa := ComputeInstance(mc.instances, SyslogAdapterJob);
    var ss := ComputeInstance(mc.instances, SyslogSchedulerJob);
    var table := DopplerSummary(mc.envelopeStats);
    var report := MetronReport(mc.metrons);
    d := Dashboard(tc, dp, sa, ss, mc.adapterDrainBindings, mc.schedulerDrains, table, report, progressBar);
  }

  // ---------------------------------------------------------------------------------
  // The replay progress bar

  const BarLength: nat := 80

  /** int(float64(length) * percent): truncation, which is the floor for percent >= 0. */
  function Fill(percent: real): (fill: nat)
    requires 0.0 <= percent <= 1.0
    ensures fill <= BarLength
  {
    var f := (BarLength as real * percent).Floor;
    assert f <= BarLength by {
      assert BarLength as real * percent <= BarLength as real;
    }
    f as nat
  }

  function Percent(percent: real): (p: nat)
    requires 0.0 <= percent <= 1.0
    ensures p <= 100
  {
    var f := (percent * 100.0).Floor;
    assert f <= 100 by { assert percent * 100.0 <= 100.0; }
    f as nat
  }

  /** updateProgressBar (term-output.go:123-127). A percent above 1 would make Go's
      strings.Repeat panic on a negative count; replay never passes one. */
  function ProgressBar(percent: real): string
    requires 0.0 <= percent <= 1.0
  {
    "|" + Repeat('#', Fill(percent)) + Repeat('-', BarLength - Fill(percent)) + "|" + Pad3(Percent(percent)) + "%"
  }

  lemma Pad3Length(n: nat)
    requires n <= 100
    ensures |Pad3(n)| == 3
  {
    DecimalShort(n);
  }

  /** The bar is 80 cells between two bars: the first floor(80 * percent) are '#', the rest
      '-'; then a 3-wide percentage and '%'. */
  lemma ProgressBarShape(percent: real)
    requires 0.0 <= percent <= 1.0
    ensures var r := ProgressBar(percent);
      && |r| == 86
      && r[0] == '|' && r[81] == '|' && r[85] == '%'
      && (forall i :: 1 <= i <= 80 ==> (r[i] == '#' <==> i <= Fill(percent)))
      && (forall i :: 1 <= i <= 80 ==> (r[i] == '-' <==> i > Fill(percent)))
  {
    Pad3Length(Percent(percent));
    var f := Fill(percent);
    var r := ProgressBar(percent);
    var hashes := Repeat('#', f);
    var dashes := Repeat('-', BarLength - f);
    assert r == "|" + hashes + dashes + "|" + Pad3(Percent(percent)) + "%";
    forall i | 1 <= i <= 80
      ensures r[i] == (if i <= f then '#' else '-')
    {
      if i <= f { assert r[i] == hashes[i - 1]; } else { assert r[i] == dashes[i - 1 - f]; }
    }
  }

  /** A larger fraction never fills fewer cells, and the final call with 1 fills all 80. */
  lemma FillMonotone(p: real, q: real)
    requires 0.0 <= p <= q <= 1.0
    ensures Fill(p) <= Fill(q)
    ensures Fill(1.0) == BarLength && Percent(1.0) == 100
  {
    assert BarLength as real * p <= BarLength as real * q;
  }
}
