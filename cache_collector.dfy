/** The poll path (cache-collector.go): a log-cache client that keeps an access token fresh,
    sends PromQL queries, keeps only the samples of one job, and writes averages, sums and
    instance counts into the poll-side Metrics record in a fixed order.

    The log-cache server, the JWT library and the cf CLI are foreign: a Backend value stands
    for them (the answer to each query text under each Authorization header, what the JWT
    parser makes of a token, and what `cf oauth-token` prints). Go's logger.Fatalln and its
    run-time panics end the process; here they are the Halt outcomes Fatal and Panic. */
module CacheCollector {
  import opened Text
  import opened PromQL
  import TermOutput

  /** The job names, source ids and metric names cache-collector.go refers to but does not
      declare; they are configuration here. */
  datatype Names = Names(
    tcJob: string, dopplerJob: string, syslogAdapterJob: string, syslogSchedulerJob: string,
    metronJob: string,
    dopplerSID: string, metronSID: string, trafficControllerSID: string,
    syslogDrainAdapterSID: string, syslogDrainScheduleSID: string, boshSystemMetricsSID: string,
    cpuUserGauge: string, cpuWaitGauge: string, cpuSYSGauge: string, memoryPercentGauge: string,
    appStreamsGauge: string, slowConsumerCounter: string, drainBindingsGauge: string,
    drainsGauge: string, droppedCounter: string, ingressCounter: string, egressCounter: string,
    subscriptionsGauge: string)

  /** One sample of an instant vector: its label map and its value. */
  datatype Sample = Sample(labels: map<string, string>, value: real)

  /** What a PromQL call gives back: an error, or the samples of the result's vector (none
      when the result is not a vector). */
  datatype Response = Failed(reason: string) | Result(samples: seq<Sample>)

  /** What jwt.Parse makes of a token: an error other than "key is of invalid type", or the
      token's claims with the "exp" claim if it has one. */
  datatype Jwt = Rejected | Claims(exp: Option<int>)

  datatype Backend = Backend(
    query: (Option<string>, string) -> Response,   // Authorization header, query text
    jwt: string -> Jwt,
    cliOutput: Option<string>)                     // `cf oauth-token`, None if any cf step fails

  /** The backend, the Authorization header the HTTP client was built with, and the clock. */
  datatype Env = Env(backend: Backend, header: Option<string>, now: int)

  function Ask(env: Env, query: string): Response
  {
    env.backend.query(env.header, query)
  }

  datatype Halt = Fatal | Panic

  // ---------------------------------------------------------------------------------------
  // Tokens

  /** The -token flag (the global *accessToken) and the client's own token. */
  datatype Tokens = Tokens(flag: string, access: string)

  /** fetchToken and checkToken: the tokens afterwards and what was returned. */
  datatype Status = Succeeded | Errored | Panicked
  datatype TokenStep = TokenStep(tokens: Tokens, status: Status)

  /** fetchToken (cache-collector.go:271-301): a non-empty -token flag is taken as it is;
      otherwise the output of `cf oauth-token` without its last character (which panics
      when the output is empty). */
  function AfterFetch(cli: Option<string>, t: Tokens): (r: TokenStep)
    ensures r.tokens.flag == t.flag
    ensures t.flag != "" ==> r == TokenStep(Tokens(t.flag, t.flag), Succeeded)
    ensures !r.status.Succeeded? ==> r.tokens == t
    ensures t.flag == "" && r.status.Succeeded? ==>
      cli.Some? && |cli.value| >= 1 && cli.value == r.tokens.access + [cli.value[|cli.value| - 1]]
  {
    if t.flag != "" then TokenStep(Tokens(t.flag, t.flag), Succeeded)
    else match cli
      case None => TokenStep(t, Errored)
      case Some(out) =>
        if |out| == 0 then TokenStep(t, Panicked)
        else TokenStep(t.(access := out[..|out| - 1]), Succeeded)
  }

  /** jwt-go's MapClaims.VerifyExpiresAt(cmp, true): a zero "exp" fails, otherwise cmp must
      not be after exp. */
  predicate VerifyExpiresAt(exp: int, cmp: int)
  {
    exp != 0 && cmp <= exp
  }

  /** The comparison checkToken makes (cache-collector.go:257): it passes exp - 60, not the
      current time, as the moment to compare against. */
  predicate TokenFreshAsWritten(exp: int)
  {
    VerifyExpiresAt(exp, exp - 60)
  }

  /** The comparison the comment at cache-collector.go:258 describes: the token is kept only
      while it has at least 60 more seconds to live. */
  predicate TokenFresh(exp: int, now: int)
  {
    VerifyExpiresAt(exp, now + 60)
  }

  /** As written, the clock plays no part: every token with a non-zero "exp" is kept. */
  lemma AsWrittenIgnoresClock(exp: int, now: int)
    requires exp != 0 && now >= exp
    ensures TokenFreshAsWritten(exp) && !TokenFresh(exp, now)
  {
  }

  /** A token 30 seconds from expiry is kept as written, and replaced as intended. */
  lemma AsWrittenKeepsExpiringToken()
    ensures TokenFreshAsWritten(1030) && !TokenFresh(1030, 1000)
  {
  }

  /** The intended test keeps exactly the tokens with 60 seconds or more left. */
  lemma FreshMeansMargin(exp: int, now: int)
    requires exp != 0
    ensures TokenFresh(exp, now) <==> exp - now >= 60
  {
  }

  /** Both tokens are cleared and fetched again, so the -token flag is never used twice. */
  function Refetch(b: Backend): (r: TokenStep)
    ensures r.tokens.flag == ""
  {
    AfterFetch(b.cliOutput, Tokens("", ""))
  }

  /** checkToken (cache-collector.go:237-269) with the intended freshness test: an empty
      token is invalid; the JWT is read from the seventh character on (a shorter token
      panics); an unreadable token, or one within 60 seconds of expiry, is fetched again;
      a token without "exp" panics. */
  function AfterCheck(b: Backend, t: Tokens, now: int): (r: TokenStep)
    ensures t.access == "" ==> r == TokenStep(t, Errored)
    ensures r.tokens != t ==> r.tokens.flag == ""
    ensures r.status.Errored? ==> t.access == "" || r.tokens == Tokens("", "")
  {
    if t.access == "" then TokenStep(t, Errored)
    else if |t.access| < 7 then TokenStep(t, Panicked)
    else match b.jwt(t.access[7..])
      case Rejected => Refetch(b)
      case Claims(exp) =>
        if exp.None? then TokenStep(t, Panicked)
        else if TokenFresh(exp.value, now) then TokenStep(t, Succeeded)
        else Refetch(b)
  }

  /** A token with a minute or more to live is kept as it is and accepted. */
  lemma FreshTokenKept(b: Backend, t: Tokens, now: int, exp: int)
    requires |t.access| >= 7 && b.jwt(t.access[7..]) == Claims(Some(exp))
    requires exp != 0 && exp - now >= 60
    ensures AfterCheck(b, t, now) == TokenStep(t, Succeeded)
  {
    FreshMeansMargin(exp, now);
  }

  /** A token with less than a minute to live is replaced by the cf CLI's, even when it came
      from the -token flag; if the CLI fails, both tokens stay empty. */
  lemma ExpiringTokenReplaced(b: Backend, t: Tokens, now: int, exp: int)
    requires |t.access| >= 7 && b.jwt(t.access[7..]) == Claims(Some(exp))
    requires exp - now < 60
    ensures AfterCheck(b, t, now) == AfterFetch(b.cliOutput, Tokens("", ""))
    ensures b.cliOutput.None? ==> AfterCheck(b, t, now) == TokenStep(Tokens("", ""), Errored)
  {
    assert !TokenFresh(exp, now);
  }

  /** tokenHTTPClient.Do (cache-collector.go:142-149): the Authorization header is set only
      for a non-empty token. */
  function AuthorizationHeader(token: string): (r: Option<string>)
    ensures r.Some? <==> token != ""
    ensures r.Some? ==> r.value == token
  {
    if |token| > 0 then Some(token) else None
  }

  // ---------------------------------------------------------------------------------------
  // Queries

  const TokenInvalid: string := "access token invalid"

  datatype Answer = Answered(response: Response) | GetPanicked
  datatype Got = Got(tokens: Tokens, answer: Answer)

  /** GetMetric, GetRateMetric and GetAVGMetric (cache-collector.go:304-338): checkToken
      first; when it fails, "access token invalid" and no query; otherwise the backend's
      answer to the query text. */
  function AfterGet(env: Env, t: Tokens, query: string): (r: Got)
    ensures r.tokens == AfterCheck(env.backend, t, env.now).tokens
    ensures r.answer.Answered? && r.answer.response.Result? ==> r.answer.response == Ask(env, query)
    ensures r.answer.Answered? && r.answer.response != Ask(env, query) ==>
      r.answer.response == Failed(TokenInvalid)
  {
    var c := AfterCheck(env.backend, t, env.now);
    match c.status
      case Panicked => Got(c.tokens, GetPanicked)
      case Errored => Got(c.tokens, Answered(Failed(TokenInvalid)))
      case Succeeded => Got(c.tokens, Answered(Ask(env, query)))
  }

  /** Without a valid token nothing is asked: any other server gives the same outcome. */
  lemma NoQueryWithoutToken(env: Env, t: Tokens, query: string,
                            other: (Option<string>, string) -> Response)
    requires AfterCheck(env.backend, t, env.now).status.Errored?
    ensures AfterGet(env, t, query).answer == Answered(Failed(TokenInvalid))
    ensures AfterGet(env.(backend := env.backend.(query := other)), t, query) == AfterGet(env, t, query)
  {
    var env' := env.(backend := env.backend.(query := other));
    assert AfterCheck(env'.backend, t, env'.now) == AfterCheck(env.backend, t, env.now);
  }

  // ---------------------------------------------------------------------------------------
  // Samples of one job

  /** labels["job"], which reads as "" when the label is missing. */
  function JobLabel(s: Sample): string
  {
    if "job" in s.labels then s.labels["job"] else ""
  }

  /** The sum avgResult and sumResult accumulate (cache-collector.go:389-396, 407-414). */
  function JobSum(ss: seq<Sample>, job: string): real
  {
    if ss == [] then 0.0
    else JobSum(ss[..|ss| - 1], job) + (if JobLabel(ss[|ss| - 1]) == job then ss[|ss| - 1].value else 0.0)
  }

  /** The count they accumulate and return. */
  function JobCount(ss: seq<Sample>, job: string): (r: nat)
    ensures r <= |ss|
  {
    if ss == [] then 0
    else JobCount(ss[..|ss| - 1], job) + (if JobLabel(ss[|ss| - 1]) == job then 1 else 0)
  }

  /** The values of exactly the samples labelled with the job, in order. */
  function Matching(ss: seq<Sample>, job: string): (r: seq<real>)
    ensures |r| <= |ss|
  {
    if ss == [] then []
    else (if JobLabel(ss[0]) == job then [ss[0].value] else []) + Matching(ss[1..], job)
  }

  function Total(xs: seq<real>): real
  {
    if xs == [] then 0.0 else xs[0] + Total(xs[1..])
  }

  lemma {:induction false} MatchingAppend(a: seq<Sample>, b: seq<Sample>, job: string)
    ensures Matching(a + b, job) == Matching(a, job) + Matching(b, job)
  {
    if a != [] {
      assert (a + b)[1..] == a[1..] + b;
      MatchingAppend(a[1..], b, job);
    } else {
      assert a + b == b;
    }
  }

  lemma {:induction false} TotalAppend(xs: seq<real>, ys: seq<real>)
    ensures Total(xs + ys) == Total(xs) + Total(ys)
  {
    if xs != [] {
      assert (xs + ys)[1..] == xs[1..] + ys;
      TotalAppend(xs[1..], ys);
    } else {
      assert xs + ys == ys;
    }
  }

  /** The count is the number of samples labelled with the job and the sum is their total:
      samples of other jobs contribute nothing. */
  lemma {:induction false} JobTotalsAreMatching(ss: seq<Sample>, job: string)
    ensures JobCount(ss, job) == |Matching(ss, job)|
    ensures JobSum(ss, job) == Total(Matching(ss, job))
  {
    if ss != [] {
      var init, last := ss[..|ss| - 1], ss[|ss| - 1];
      assert ss == init + [last];
      JobTotalsAreMatching(init, job);
      MatchingAppend(init, [last], job);
      var m := if JobLabel(last) == job then [last.value] else [];
      assert Matching([last], job) == m by {
        assert [last][1..] == [];
      }
      TotalAppend(Matching(init, job), m);
      assert Total(m) == if JobLabel(last) == job then last.value else 0.0 by {
        if m != [] { assert m[1..] == []; }
      }
    }
  }

  /** Samples of other jobs, wherever they are appended, change neither sum nor count. */
  lemma {:induction false} OtherJobsIgnored(ss: seq<Sample>, extra: seq<Sample>, job: string)
    requires forall i :: 0 <= i < |extra| ==> JobLabel(extra[i]) != job
    ensures JobSum(ss + extra, job) == JobSum(ss, job)
    ensures JobCount(ss + extra, job) == JobCount(ss, job)
  {
    if extra != [] {
      var init := extra[..|extra| - 1];
      assert (ss + extra)[..|ss + extra| - 1] == ss + init;
      OtherJobsIgnored(ss, init, job);
    } else {
      assert ss + extra == ss;
    }
  }

  /** The accumulating loop of avgResult and sumResult. */
  method AccumulateJob(samples: seq<Sample>, job: string) returns (sum: real, count: nat)
    ensures sum == JobSum(samples, job) && count == JobCount(samples, job)
  {
    sum, count := 0.0, 0;
    for i := 0 to |samples|
      invariant sum == JobSum(samples[..i], job)
      invariant count == JobCount(samples[..i], job)
    {
      assert samples[..i + 1][..i] == samples[..i];
      if JobLabel(samples[i]) == job {
        sum := sum + samples[i].value;
        count := count + 1;
      }
    }
    assert samples[..|samples|] == samples;
  }

  /** Go's conversion int64(x) of a float64: truncation toward zero. */
  function TruncReal(x: real): (r: int)
    ensures x >= 0.0 ==> r >= 0 && r as real <= x < r as real + 1.0
    ensures x < 0.0 ==> r <= 0 && r as real - 1.0 < x <= r as real
  {
    if x >= 0.0 then x.Floor else -((-x).Floor)
  }

  // ---------------------------------------------------------------------------------------
  // The poll-side Metrics record (cache-collector.go:151-214); a float64 that can be NaN or
  // infinite after a division by zero is an Option, None for that case.

  datatype InstanceMetrics = InstanceMetrics(
    cpuUser: Option<real>, cpuSys: Option<real>, cpuWait: Option<real>, memory: Option<real>,
    count: nat, name: string)
  datatype TrafficControllerMetrics = TrafficControllerMetrics(
    system: InstanceMetrics, slowConsumers: int, appStreams: int, egress: int, ingress: int,
    containerLatency: Option<real>)
  datatype MetronMetrics = MetronMetrics(
    system: InstanceMetrics, ingress: int, egress: int, dropped: int, avgEnvelope: Option<real>,
    name: string)
  datatype DopplerMetrics = DopplerMetrics(
    system: InstanceMetrics, messageRateCapacity: Option<real>, subscriptions: int, egress: int,
    ingress: int, dropped: int, name: string)
  /** SyslogAdapterMetrics and SyslogSchedulerMetrics, which have the same single field. */
  datatype SyslogMetrics = SyslogMetrics(system: InstanceMetrics)
  datatype DrainMetrics = DrainMetrics(drainBindings: int, scheduledDrains: int, sinksDropped: int)
  datatype PollMetrics = PollMetrics(
    system: seq<InstanceMetrics>, doppler: DopplerMetrics, tc: TrafficControllerMetrics,
    metron: MetronMetrics, drain: DrainMetrics, dopplerInstance: DopplerMetrics,
    metronInstance: MetronMetrics, syslogAdapter: SyslogMetrics, syslogScheduler: SyslogMetrics)

  const NoInstance: InstanceMetrics := InstanceMetrics(Some(0.0), Some(0.0), Some(0.0), Some(0.0), 0, "")
  const NoDoppler: DopplerMetrics := DopplerMetrics(NoInstance, Some(0.0), 0, 0, 0, 0, "")
  const NoMetron: MetronMetrics := MetronMetrics(NoInstance, 0, 0, 0, Some(0.0), "")

  /** Metrics{}: every field zero. */
  const ZeroMetrics: PollMetrics := PollMetrics(
    [], NoDoppler, TrafficControllerMetrics(NoInstance, 0, 0, 0, 0, Some(0.0)), NoMetron,
    DrainMetrics(0, 0, 0), NoDoppler, NoMetron, SyslogMetrics(NoInstance), SyslogMetrics(NoInstance))

  /** The InstanceMetrics fields Collect reaches through `&...System`. */
  datatype Group = TcGroup | DopplerGroup | AdapterGroup | SchedulerGroup | MetronGroup

  function SystemOf(m: PollMetrics, g: Group): InstanceMetrics
  {
    match g
    case TcGroup => m.tc.system
    case DopplerGroup => m.doppler.system
    case AdapterGroup => m.syslogAdapter.system
    case SchedulerGroup => m.syslogScheduler.system
    case MetronGroup => m.metron.system
  }

  /** The int64 fields sumResult writes through its pointer argument. */
  datatype Counter =
    | AppStreams | SlowConsumers | DrainBindings | ScheduledDrains
    | DopplerIngress | DopplerEgress | DopplerDropped | Subscriptions
    | MetronIngress | MetronEgress | MetronDropped

  function Counted(m: PollMetrics, c: Counter): int
  {
    match c
    case AppStreams => m.tc.appStreams
    case SlowConsumers => m.tc.slowConsumers
    case DrainBindings => m.drain.drainBindings
    case ScheduledDrains => m.drain.scheduledDrains
    case DopplerIngress => m.doppler.ingress
    case DopplerEgress => m.doppler.egress
    case DopplerDropped => m.doppler.dropped
    case Subscriptions => m.doppler.subscriptions
    case MetronIngress => m.metron.ingress
    case MetronEgress => m.metron.egress
    case MetronDropped => m.metron.dropped
  }

  /** The float64 fields of an InstanceMetrics that avgResult writes. */
  datatype Gauge = CpuUser | CpuWait | CpuSys | Memory

  function GaugeOf(s: InstanceMetrics, k: Gauge): Option<real>
  {
    match k
    case CpuUser => s.cpuUser
    case CpuWait => s.cpuWait
    case CpuSys => s.cpuSys
    case Memory => s.memory
  }

  function WithGauge(s: InstanceMetrics, k: Gauge, v: Option<real>): (r: InstanceMetrics)
    ensures GaugeOf(r, k) == v
    ensures forall j :: j != k ==> GaugeOf(r, j) == GaugeOf(s, j)
    ensures r.count == s.count && r.name == s.name
  {
    match k
    case CpuUser => s.(cpuUser := v)
    case CpuWait => s.(cpuWait := v)
    case CpuSys => s.(cpuSys := v)
    case Memory => s.(memory := v)
  }

  predicate SameGauges(a: InstanceMetrics, b: InstanceMetrics)
  {
    a.cpuUser == b.cpuUser && a.cpuSys == b.cpuSys && a.cpuWait == b.cpuWait && a.memory == b.memory
  }

  /** Every field Collect never writes is the same in m and m'. */
  predicate Untouched(m: PollMetrics, m': PollMetrics)
  {
    && m'.system == m.system && m'.dopplerInstance == m.dopplerInstance
    && m'.metronInstance == m.metronInstance
    && m'.tc.egress == m.tc.egress && m'.tc.ingress == m.tc.ingress
    && m'.tc.containerLatency == m.tc.containerLatency
    && m'.metron.avgEnvelope == m.metron.avgEnvelope && m'.metron.name == m.metron.name
    && m'.doppler.name == m.doppler.name && m'.drain.sinksDropped == m.drain.sinksDropped
    && m'.tc.system.name == m.tc.system.name && m'.doppler.system.name == m.doppler.system.name
    && m'.syslogAdapter.system.name == m.syslogAdapter.system.name
    && m'.syslogScheduler.system.name == m.syslogScheduler.system.name
    && m'.metron.system.name == m.metron.system.name
  }

  function WithSystem(m: PollMetrics, g: Group, s: InstanceMetrics): (r: PollMetrics)
    ensures SystemOf(r, g) == s
  {
    match g
    case TcGroup => m.(tc := m.tc.(system := s))
    case DopplerGroup => m.(doppler := m.doppler.(system := s))
    case AdapterGroup => m.(syslogAdapter := m.syslogAdapter.(system := s))
    case SchedulerGroup => m.(syslogScheduler := m.syslogScheduler.(system := s))
    case MetronGroup => m.(metron := m.metron.(system := s))
  }

  function WithCounted(m: PollMetrics, c: Counter, v: int): (r: PollMetrics)
    ensures Counted(r, c) == v
  {
    match c
    case AppStreams => m.(tc := m.tc.(appStreams := v))
    case SlowConsumers => m.(tc := m.tc.(slowConsumers := v))
    case DrainBindings => m.(drain := m.drain.(drainBindings := v))
    case ScheduledDrains => m.(drain := m.drain.(scheduledDrains := v))
    case DopplerIngress => m.(doppler := m.doppler.(ingress := v))
    case DopplerEgress => m.(doppler := m.doppler.(egress := v))
    case DopplerDropped => m.(doppler := m.doppler.(dropped := v))
    case Subscriptions => m.(doppler := m.doppler.(subscriptions := v))
    case MetronIngress => m.(metron := m.metron.(ingress := v))
    case MetronEgress => m.(metron := m.metron.(egress := v))
    case MetronDropped => m.(metron := m.metron.(dropped := v))
  }

  // ---------------------------------------------------------------------------------------
  // The helpers and Collect, step by step

  datatype PollState = PollState(tokens: Tokens, metrics: PollMetrics)

  /** Where a poll stands: running, with the count the last helper returned, or stopped by
      logger.Fatalln or a panic. */
  datatype Outcome = Running(state: PollState, count: nat) | Stopped(state: PollState, why: Halt)

  function HaltOf(o: Outcome): Option<Halt>
  {
    if o.Stopped? then Some(o.why) else None
  }

  /** The server answers GetMetric(metric, source) with samples. */
  predicate Answers(env: Env, metric: string, source: string)
  {
    Ask(env, MetricQuery(metric, source)).Result?
  }

  /** The samples of that answer, if it has any. */
  function Samples(env: Env, metric: string, source: string): seq<Sample>
  {
    var a := Ask(env, MetricQuery(metric, source));
    if a.Result? then a.samples else []
  }

  /** sum / float64(count) over the job's samples; no value when there are none. */
  function JobMean(ss: seq<Sample>, job: string): (r: Option<real>)
    ensures r.Some? <==> JobCount(ss, job) > 0
  {
    TermOutput.Mean(JobSum(ss, job), JobCount(ss, job))
  }

  /** What sumResult stores: the job's sum truncated to an integer. */
  function StoredSum(env: Env, metric: string, source: string, job: string): int
  {
    TruncReal(JobSum(Samples(env, metric, source), job))
  }

  /** avgResult (cache-collector.go:383-399) writing through &SystemOf(g).k: a failed query
      is fatal; otherwise gauge k of group g, and nothing else, becomes the mean of the
      job's samples, and the count of those samples is returned. */
  function AvgResultSpec(env: Env, st: PollState, metric: string, source: string, job: string,
                         g: Group, k: Gauge): (r: Outcome)
    ensures r.state.tokens == AfterGet(env, st.tokens, MetricQuery(metric, source)).tokens
    ensures r.Stopped? ==> r.state.metrics == st.metrics
    ensures r.Running? ==>
      && Answers(env, metric, source)
      && r.count == JobCount(Samples(env, metric, source), job)
      && r.state.metrics == WithSystem(st.metrics, g,
           WithGauge(SystemOf(st.metrics, g), k, JobMean(Samples(env, metric, source), job)))
  {
    var got := AfterGet(env, st.tokens, MetricQuery(metric, source));
    var st' := st.(tokens := got.tokens);
    match got.answer
    case GetPanicked => Stopped(st', Panic)
    case Answered(Failed(_)) => Stopped(st', Fatal)
    case Answered(Result(ss)) =>
      var m := WithSystem(st.metrics, g, WithGauge(SystemOf(st.metrics, g), k, JobMean(ss, job)));
      Running(st'.(metrics := m), JobCount(ss, job))
  }

  /** sumResult (cache-collector.go:401-417) writing through &Counted(c): a failed query is
      fatal; otherwise counter c, and nothing else, becomes the job's sum truncated toward
      zero, and the count of the job's samples is returned. */
  function SumResultSpec(env: Env, st: PollState, metric: string, source: string, job: string,
                         c: Counter): (r: Outcome)
    ensures r.state.tokens == AfterGet(env, st.tokens, MetricQuery(metric, source)).tokens
    ensures r.Stopped? ==> r.state.metrics == st.metrics
    ensures r.Running? ==>
      && Answers(env, metric, source)
      && r.count == JobCount(Samples(env, metric, source), job)
      && r.state.metrics == WithCounted(st.metrics, c, StoredSum(env, metric, source, job))
  {
    var got := AfterGet(env, st.tokens, MetricQuery(metric, source));
    var st' := st.(tokens := got.tokens);
    match got.answer
    case GetPanicked => Stopped(st', Panic)
    case Answered(Failed(_)) => Stopped(st', Fatal)
    case Answered(Result(ss)) =>
      Running(st'.(metrics := WithCounted(st.metrics, c, TruncReal(JobSum(ss, job)))), JobCount(ss, job))
  }

  function ThenAvg(env: Env, o: Outcome, metric: string, source: string, job: string,
                   g: Group, k: Gauge): Outcome
  {
    if o.Stopped? then o else AvgResultSpec(env, o.state, metric, source, job, g, k)
  }

  function ThenSum(env: Env, o: Outcome, metric: string, source: string, job: string,
                   c: Counter): Outcome
  {
    if o.Stopped? then o else SumResultSpec(env, o.state, metric, source, job, c)
  }

  /** `X.System.Count = <the count just returned>` */
  function ThenCount(o: Outcome, g: Group): Outcome
  {
    if o.Stopped? then o
    else
      var m := o.state.metrics;
      Running(o.state.(metrics := WithSystem(m, g, SystemOf(m, g).(count := o.count))), o.count)
  }

  /** getAvgSystemMetrics (cache-collector.go:376-381): four averages of the bosh system
      metrics for one job, the instance count taken from the first. */
  function AvgSystemSpec(env: Env, n: Names, o: Outcome, g: Group, job: string): Outcome
  {
    var sid := n.boshSystemMetricsSID;
    var o1 := ThenAvg(env, o, n.cpuUserGauge, sid, job, g, CpuUser);
    var o2 := ThenCount(o1, g);
    var o3 := ThenAvg(env, o2, n.cpuWaitGauge, sid, job, g, CpuWait);
    var o4 := ThenAvg(env, o3, n.cpuSYSGauge, sid, job, g, CpuSys);
    ThenAvg(env, o4, n.memoryPercentGauge, sid, job, g, Memory)
  }

  /** The capacity Collect computes last: float64(Doppler.Ingress) / float64(Doppler.System.Count). */
  function Capacity(m: PollMetrics): Option<real>
  {
    TermOutput.Mean(m.doppler.ingress as real, m.doppler.system.count)
  }

  /** The four instance groups (cache-collector.go:344-347). */
  function SystemsSpec(env: Env, n: Names, st: PollState): Outcome
  {
    var o1 := AvgSystemSpec(env, n, Running(st, 0), TcGroup, n.tcJob);
    var o2 := AvgSystemSpec(env, n, o1, DopplerGroup, n.dopplerJob);
    var o3 := AvgSystemSpec(env, n, o2, AdapterGroup, n.syslogAdapterJob);
    AvgSystemSpec(env, n, o3, SchedulerGroup, n.syslogSchedulerJob)
  }

  /** The traffic controller's app streams and slow consumers (cache-collector.go:349-350). */
  function TrafficSpec(env: Env, n: Names, o: Outcome): Outcome
  {
    var o1 := ThenSum(env, o, n.appStreamsGauge, n.trafficControllerSID, n.tcJob, AppStreams);
    ThenSum(env, o1, n.slowConsumerCounter, n.trafficControllerSID, n.tcJob, SlowConsumers)
  }

  /** The drain figures (cache-collector.go:352-354); ScheduledDrains is written twice. */
  function DrainSpec(env: Env, n: Names, o: Outcome): Outcome
  {
    var o1 := ThenSum(env, o, n.drainBindingsGauge, n.syslogDrainAdapterSID, n.syslogAdapterJob, DrainBindings);
    var o2 := ThenSum(env, o1, n.drainsGauge, n.syslogDrainScheduleSID, n.syslogSchedulerJob, ScheduledDrains);
    ThenSum(env, o2, n.droppedCounter, n.syslogDrainAdapterSID, n.syslogAdapterJob, ScheduledDrains)
  }

  /** The doppler totals (cache-collector.go:356-359). */
  function DopplerSpec(env: Env, n: Names, o: Outcome): Outcome
  {
    var o1 := ThenSum(env, o, n.ingressCounter, n.dopplerSID, n.dopplerJob, DopplerIngress);
    var o2 := ThenSum(env, o1, n.egressCounter, n.dopplerSID, n.dopplerJob, DopplerEgress);
    var o3 := ThenSum(env, o2, n.droppedCounter, n.dopplerSID, n.dopplerJob, DopplerDropped);
    ThenSum(env, o3, n.subscriptionsGauge, n.dopplerSID, n.dopplerJob, Subscriptions)
  }

  /** The metron totals (cache-collector.go:361-363), the metron count taken from the first. */
  function MetronSpec(env: Env, n: Names, o: Outcome): Outcome
  {
    var o1 := ThenSum(env, o, n.ingressCounter, n.metronSID, n.metronJob, MetronIngress);
    var o2 := ThenCount(o1, MetronGroup);
    var o3 := ThenSum(env, o2, n.egressCounter, n.metronSID, n.metronJob, MetronEgress);
    ThenSum(env, o3, n.droppedCounter, n.metronSID, n.metronJob, MetronDropped)
  }

  /** The message-rate capacity (cache-collector.go:365), from the fields just written. */
  function CapacitySpec(o: Outcome): Outcome
  {
    if o.Stopped? then o
    else
      var m := o.state.metrics;
      Running(o.state.(metrics := m.(doppler := m.doppler.(messageRateCapacity := Capacity(m)))), o.count)
  }

  /** Collect (cache-collector.go:341-372): the segments above in order, each skipped once
      the process has stopped. */
  function CollectSpec(env: Env, n: Names, st: PollState): Outcome
  {
    TotalsSpec(env, n, SystemsSpec(env, n, st))
  }

  /** Collect after the four instance groups. */
  function TotalsSpec(env: Env, n: Names, o: Outcome): Outcome
  {
    CapacitySpec(MetronSpec(env, n, DopplerSpec(env, n, DrainSpec(env, n, TrafficSpec(env, n, o)))))
  }

  /** The instance group's record holds what getAvgSystemMetrics reads for the job: the
      number of CPU-user samples of the job and the mean of each of the four gauges. */
  predicate SystemPolled(env: Env, n: Names, job: string, s: InstanceMetrics)
  {
    var sid := n.boshSystemMetricsSID;
    && Answers(env, n.cpuUserGauge, sid) && Answers(env, n.cpuWaitGauge, sid)
    && Answers(env, n.cpuSYSGauge, sid) && Answers(env, n.memoryPercentGauge, sid)
    && s.count == JobCount(Samples(env, n.cpuUserGauge, sid), job)
    && s.cpuUser == JobMean(Samples(env, n.cpuUserGauge, sid), job)
    && s.cpuWait == JobMean(Samples(env, n.cpuWaitGauge, sid), job)
    && s.cpuSys == JobMean(Samples(env, n.cpuSYSGauge, sid), job)
    && s.memory == JobMean(Samples(env, n.memoryPercentGauge, sid), job)
  }

  /** The first four steps, when they run to the end, write the four instance groups'
      records and nothing else, each with the averages and count of its own job. */
  lemma SystemsEffect(env: Env, n: Names, st: PollState)
    requires SystemsSpec(env, n, st).Running?
    ensures var m, m' := st.metrics, SystemsSpec(env, n, st).state.metrics;
      && m' == m.(tc := m.tc.(system := m'.tc.system), doppler := m.doppler.(system := m'.doppler.system),
                  syslogAdapter := m'.syslogAdapter, syslogScheduler := m'.syslogScheduler)
      && SystemPolled(env, n, n.tcJob, m'.tc.system)
      && SystemPolled(env, n, n.dopplerJob, m'.doppler.system)
      && SystemPolled(env, n, n.syslogAdapterJob, m'.syslogAdapter.system)
      && SystemPolled(env, n, n.syslogSchedulerJob, m'.syslogScheduler.system)
      && m'.tc.system.name == m.tc.system.name && m'.doppler.system.name == m.doppler.system.name
      && m'.syslogAdapter.system.name == m.syslogAdapter.system.name
      && m'.syslogScheduler.system.name == m.syslogScheduler.system.name
  {
    var o1 := AvgSystemSpec(env, n, Running(st, 0), TcGroup, n.tcJob);
    var o2 := AvgSystemSpec(env, n, o1, DopplerGroup, n.dopplerJob);
    var o3 := AvgSystemSpec(env, n, o2, AdapterGroup, n.syslogAdapterJob);
    var o4 := AvgSystemSpec(env, n, o3, SchedulerGroup, n.syslogSchedulerJob);
    assert SystemsSpec(env, n, st) == o4;
    SystemEffect(env, n, o3, SchedulerGroup, n.syslogSchedulerJob);
    SystemEffect(env, n, o2, AdapterGroup, n.syslogAdapterJob);
    SystemEffect(env, n, o1, DopplerGroup, n.dopplerJob);
    SystemEffect(env, n, Running(st, 0), TcGroup, n.tcJob);
    SystemsWrites(st.metrics, o1.state.metrics, o2.state.metrics, o3.state.metrics, o4.state.metrics);
  }

  /** Four group writes in a row change those four records and nothing else. */
  lemma SystemsWrites(m: PollMetrics, m1: PollMetrics, m2: PollMetrics, m3: PollMetrics, m4: PollMetrics)
    requires m1 == WithSystem(m, TcGroup, SystemOf(m1, TcGroup))
    requires m2 == WithSystem(m1, DopplerGroup, SystemOf(m2, DopplerGroup))
    requires m3 == WithSystem(m2, AdapterGroup, SystemOf(m3, AdapterGroup))
    requires m4 == WithSystem(m3, SchedulerGroup, SystemOf(m4, SchedulerGroup))
    ensures m4 == m.(tc := m.tc.(system := m4.tc.system), doppler := m.doppler.(system := m4.doppler.system),
                     syslogAdapter := m4.syslogAdapter, syslogScheduler := m4.syslogScheduler)
    ensures m4.tc.system == m1.tc.system && m4.doppler.system == m2.doppler.system
    ensures m4.syslogAdapter.system == m3.syslogAdapter.system
  {
  }

  /** getAvgSystemMetrics, when it runs to the end, writes one group's record and nothing
      else. */
  lemma SystemEffect(env: Env, n: Names, o: Outcome, g: Group, job: string)
    requires AvgSystemSpec(env, n, o, g, job).Running?
    ensures o.Running?
    ensures var m, m' := o.state.metrics, AvgSystemSpec(env, n, o, g, job).state.metrics;
      && m' == WithSystem(m, g, SystemOf(m', g))
      && SystemPolled(env, n, job, SystemOf(m', g))
      && SystemOf(m', g).name == SystemOf(m, g).name
  {
  }

  /** Each later segment, when it runs to the end, writes exactly its own fields. */
  lemma TrafficEffect(env: Env, n: Names, o: Outcome)
    requires TrafficSpec(env, n, o).Running?
    ensures o.Running?
    ensures var m := o.state.metrics;
      TrafficSpec(env, n, o).state.metrics == m.(tc := m.tc.(
        appStreams := StoredSum(env, n.appStreamsGauge, n.trafficControllerSID, n.tcJob),
        slowConsumers := StoredSum(env, n.slowConsumerCounter, n.trafficControllerSID, n.tcJob)))
  {
  }

  lemma DrainEffect(env: Env, n: Names, o: Outcome)
    requires DrainSpec(env, n, o).Running?
    ensures o.Running? && Answers(env, n.drainsGauge, n.syslogDrainScheduleSID)
    ensures var m := o.state.metrics;
      DrainSpec(env, n, o).state.metrics == m.(drain := m.drain.(
        drainBindings := StoredSum(env, n.drainBindingsGauge, n.syslogDrainAdapterSID, n.syslogAdapterJob),
        scheduledDrains := StoredSum(env, n.droppedCounter, n.syslogDrainAdapterSID, n.syslogAdapterJob)))
  {
  }

  lemma DopplerEffect(env: Env, n: Names, o: Outcome)
    requires DopplerSpec(env, n, o).Running?
    ensures o.Running?
    ensures var m := o.state.metrics;
      DopplerSpec(env, n, o).state.metrics == m.(doppler := m.doppler.(
        ingress := StoredSum(env, n.ingressCounter, n.dopplerSID, n.dopplerJob),
        egress := StoredSum(env, n.egressCounter, n.dopplerSID, n.dopplerJob),
        dropped := StoredSum(env, n.droppedCounter, n.dopplerSID, n.dopplerJob),
        subscriptions := StoredSum(env, n.subscriptionsGauge, n.dopplerSID, n.dopplerJob)))
  {
  }

  lemma MetronEffect(env: Env, n: Names, o: Outcome)
    requires MetronSpec(env, n, o).Running?
    ensures o.Running?
    ensures var m1 := WithCounted(o.state.metrics, MetronIngress, StoredSum(env, n.ingressCounter, n.metronSID, n.metronJob));
      var count := JobCount(Samples(env, n.ingressCounter, n.metronSID), n.metronJob);
      MetronSpec(env, n, o).state.metrics ==
        WithCounted(WithCounted(WithSystem(m1, MetronGroup, SystemOf(m1, MetronGroup).(count := count)),
          MetronEgress, StoredSum(env, n.egressCounter, n.metronSID, n.metronJob)),
          MetronDropped, StoredSum(env, n.droppedCounter, n.metronSID, n.metronJob))
  {
  }

  /** When Collect runs to the end: the four instance groups hold the averages and counts of
      their jobs; every counter holds the truncated job sum of the last query written into
      it, so ScheduledDrains ends as the syslog adapter's dropped sum and the scheduler's
      drains gauge, asked for and written first, is lost; the metron count is the number of
      metron ingress samples; the capacity is the doppler ingress sum over the number of
      doppler CPU-user samples; and no other field has changed. */
  lemma CollectStores(env: Env, n: Names, st: PollState)
    requires CollectSpec(env, n, st).Running?
    ensures var m, m' := st.metrics, CollectSpec(env, n, st).state.metrics;
      && SystemPolled(env, n, n.tcJob, m'.tc.system)
      && SystemPolled(env, n, n.dopplerJob, m'.doppler.system)
      && SystemPolled(env, n, n.syslogAdapterJob, m'.syslogAdapter.system)
      && SystemPolled(env, n, n.syslogSchedulerJob, m'.syslogScheduler.system)
      && Answers(env, n.drainsGauge, n.syslogDrainScheduleSID)
      && m'.tc.appStreams == StoredSum(env, n.appStreamsGauge, n.trafficControllerSID, n.tcJob)
      && m'.tc.slowConsumers == StoredSum(env, n.slowConsumerCounter, n.trafficControllerSID, n.tcJob)
      && m'.drain.drainBindings == StoredSum(env, n.drainBindingsGauge, n.syslogDrainAdapterSID, n.syslogAdapterJob)
      && m'.drain.scheduledDrains == StoredSum(env, n.droppedCounter, n.syslogDrainAdapterSID, n.syslogAdapterJob)
      && m'.doppler.ingress == StoredSum(env, n.ingressCounter, n.dopplerSID, n.dopplerJob)
      && m'.doppler.egress == StoredSum(env, n.egressCounter, n.dopplerSID, n.dopplerJob)
      && m'.doppler.dropped == StoredSum(env, n.droppedCounter, n.dopplerSID, n.dopplerJob)
      && m'.doppler.subscriptions == StoredSum(env, n.subscriptionsGauge, n.dopplerSID, n.dopplerJob)
      && m'.metron.ingress == StoredSum(env, n.ingressCounter, n.metronSID, n.metronJob)
      && m'.metron.egress == StoredSum(env, n.egressCounter, n.metronSID, n.metronJob)
      && m'.metron.dropped == StoredSum(env, n.droppedCounter, n.metronSID, n.metronJob)
      && m'.metron.system == m.metron.system.(count := JobCount(Samples(env, n.ingressCounter, n.metronSID), n.metronJob))
      && m'.doppler.messageRateCapacity == TermOutput.Mean(
           StoredSum(env, n.ingressCounter, n.dopplerSID, n.dopplerJob) as real,
           JobCount(Samples(env, n.cpuUserGauge, n.boshSystemMetricsSID), n.dopplerJob))
      && Untouched(m, m')
  {
    var o1 := SystemsSpec(env, n, st);
    var o2 := TrafficSpec(env, n, o1);
    var o3 := DrainSpec(env, n, o2);
    var o4 := DopplerSpec(env, n, o3);
    var o5 := MetronSpec(env, n, o4);
    assert CollectSpec(env, n, st) == CapacitySpec(o5);
    MetronEffect(env, n, o4);
    DopplerEffect(env, n, o3);
    DrainEffect(env, n, o2);
    TrafficEffect(env, n, o1);
    SystemsEffect(env, n, st);
    var m4 := o4.state.metrics;
    MetronWrites(m4, StoredSum(env, n.ingressCounter, n.metronSID, n.metronJob),
      JobCount(Samples(env, n.ingressCounter, n.metronSID), n.metronJob),
      StoredSum(env, n.egressCounter, n.metronSID, n.metronJob),
      StoredSum(env, n.droppedCounter, n.metronSID, n.metronJob));
    Composed(env, n, st.metrics, o1.state.metrics, o2.state.metrics, o3.state.metrics,
      o4.state.metrics, o5.state.metrics, CollectSpec(env, n, st).state.metrics);
  }

  /** The metron block's four writes, as one update of the metron record. */
  lemma MetronWrites(m: PollMetrics, ingress: int, count: nat, egress: int, dropped: int)
    ensures var m1 := WithCounted(m, MetronIngress, ingress);
      WithCounted(WithCounted(WithSystem(m1, MetronGroup, SystemOf(m1, MetronGroup).(count := count)),
        MetronEgress, egress), MetronDropped, dropped)
      == m.(metron := m.metron.(ingress := ingress, egress := egress, dropped := dropped,
                                system := m.metron.system.(count := count)))
  {
  }

  /** The fields at the end of the segment chain, from the segments' writes alone. */
  lemma Composed(env: Env, n: Names, m: PollMetrics, m1: PollMetrics, m2: PollMetrics,
                 m3: PollMetrics, m4: PollMetrics, m5: PollMetrics, m': PollMetrics)
    requires m1 == m.(tc := m.tc.(system := m1.tc.system), doppler := m.doppler.(system := m1.doppler.system),
                      syslogAdapter := m1.syslogAdapter, syslogScheduler := m1.syslogScheduler)
    requires m1.tc.system.name == m.tc.system.name && m1.doppler.system.name == m.doppler.system.name
    requires m1.syslogAdapter.system.name == m.syslogAdapter.system.name
    requires m1.syslogScheduler.system.name == m.syslogScheduler.system.name
    requires m2 == m1.(tc := m1.tc.(
        appStreams := StoredSum(env, n.appStreamsGauge, n.trafficControllerSID, n.tcJob),
        slowConsumers := StoredSum(env, n.slowConsumerCounter, n.trafficControllerSID, n.tcJob)))
    requires m3 == m2.(drain := m2.drain.(
        drainBindings := StoredSum(env, n.drainBindingsGauge, n.syslogDrainAdapterSID, n.syslogAdapterJob),
        scheduledDrains := StoredSum(env, n.droppedCounter, n.syslogDrainAdapterSID, n.syslogAdapterJob)))
    requires m4 == m3.(doppler := m3.doppler.(
        ingress := StoredSum(env, n.ingressCounter, n.dopplerSID, n.dopplerJob),
        egress := StoredSum(env, n.egressCounter, n.dopplerSID, n.dopplerJob),
        dropped := StoredSum(env, n.droppedCounter, n.dopplerSID, n.dopplerJob),
        subscriptions := StoredSum(env, n.subscriptionsGauge, n.dopplerSID, n.dopplerJob)))
    requires m5 == m4.(metron := m4.metron.(
        ingress := StoredSum(env, n.ingressCounter, n.metronSID, n.metronJob),
        egress := StoredSum(env, n.egressCounter, n.metronSID, n.metronJob),
        dropped := StoredSum(env, n.droppedCounter, n.metronSID, n.metronJob),
        system := m4.metron.system.(count := JobCount(Samples(env, n.ingressCounter, n.metronSID), n.metronJob))))
    requires m' == m5.(doppler := m5.doppler.(messageRateCapacity := Capacity(m5)))
    ensures m'.tc.system == m1.tc.system && m'.doppler.system == m1.doppler.system
    ensures m'.syslogAdapter == m1.syslogAdapter && m'.syslogScheduler == m1.syslogScheduler
    ensures m'.tc.appStreams == m2.tc.appStreams && m'.tc.slowConsumers == m2.tc.slowConsumers
    ensures m'.drain.drainBindings == m3.drain.drainBindings && m'.drain.scheduledDrains == m3.drain.scheduledDrains
    ensures m'.doppler.ingress == m4.doppler.ingress && m'.doppler.egress == m4.doppler.egress
    ensures m'.doppler.dropped == m4.doppler.dropped && m'.doppler.subscriptions == m4.doppler.subscriptions
    ensures m'.metron.ingress == StoredSum(env, n.ingressCounter, n.metronSID, n.metronJob)
    ensures m'.metron.egress == StoredSum(env, n.egressCounter, n.metronSID, n.metronJob)
    ensures m'.metron.dropped == StoredSum(env, n.droppedCounter, n.metronSID, n.metronJob)
    ensures m'.metron.system == m.metron.system.(count := JobCount(Samples(env, n.ingressCounter, n.metronSID), n.metronJob))
    ensures m'.doppler.messageRateCapacity == TermOutput.Mean(m4.doppler.ingress as real, m1.doppler.system.count)
    ensures Untouched(m, m')
  {
  }

  // ---------------------------------------------------------------------------------------
  // The client object

  /** LCC (cache-collector.go:216-222): its token and Metrics record change in place; the
      -token flag it reads and clears is the global *accessToken. The HTTP client keeps the
      token it was built with (httpToken), so a token fetched later never reaches the
      Authorization header. The mutex is left out. */
  class LogCacheClient {
    var flagToken: string
    var accessToken: string
    var metric: PollMetrics
    const httpToken: string
    const backend: Backend
    const names: Names

    function Credentials(): Tokens
      reads this
    {
      Tokens(flagToken, accessToken)
    }

    function State(): PollState
      reads this
    {
      PollState(Credentials(), metric)
    }

    /** What the server, the JWT parser and the CLI look like at time now through this
        client's HTTP client. */
    function EnvAt(now: int): Env
    {
      Env(backend, AuthorizationHeader(httpToken), now)
    }

    constructor (backend: Backend, names: Names, flag: string, access: string, httpToken: string)
      ensures Credentials() == Tokens(flag, access) && metric == ZeroMetrics
      ensures this.httpToken == httpToken && this.backend == backend && this.names == names
    {
      this.flagToken := flag;
      this.accessToken := access;
      this.metric := ZeroMetrics;
      this.httpToken := httpToken;
      this.backend := backend;
      this.names := names;
    }

    /** NewLogCacheClient (cache-collector.go:225-235): a zero Metrics record, a first
        fetchToken, and an HTTP client carrying the token fetched; a failed fetch returns
        the client without an HTTP client (here: without a token to send). */
    static method New(backend: Backend, names: Names, flag: string) returns (lc: LogCacheClient, status: Status)
      ensures fresh(lc)
      ensures TokenStep(lc.Credentials(), status) == AfterFetch(backend.cliOutput, Tokens(flag, ""))
      ensures lc.metric == ZeroMetrics && lc.backend == backend && lc.names == names
      ensures lc.httpToken == if status.Succeeded? then lc.accessToken else ""
    {
      var step := AfterFetch(backend.cliOutput, Tokens(flag, ""));
      status := step.status;
      var http := if status.Succeeded? then step.tokens.access else "";
      lc := new LogCacheClient(backend, names, step.tokens.flag, step.tokens.access, http);
    }

    /** fetchToken (cache-collector.go:271-301). */
    method FetchToken() returns (status: Status)
      modifies this
      ensures TokenStep(Credentials(), status) == AfterFetch(backend.cliOutput, old(Credentials()))
      ensures metric == old(metric)
    {
      if flagToken != "" {
        accessToken := flagToken;
        return Succeeded;
      }
      match backend.cliOutput
      case None =>
        status := Errored;
      case Some(out) =>
        if |out| == 0 {
          status := Panicked;
        } else {
          accessToken := out[..|out| - 1];
          status := Succeeded;
        }
    }

    /** checkToken (cache-collector.go:237-269), with the freshness test the comment there
        describes. */
    method CheckToken(now: int) returns (status: Status)
      modifies this
      ensures TokenStep(Credentials(), status) == AfterCheck(backend, old(Credentials()), now)
      ensures metric == old(metric)
    {
      if accessToken == "" {
        return Errored;
      }
      if |accessToken| < 7 {
        return Panicked;
      }
      match backend.jwt(accessToken[7..])
      case Rejected =>
        flagToken := "";
        accessToken := "";
        status := FetchToken();
      case Claims(exp) =>
        if exp.None? {
          return Panicked;
        }
        if TokenFresh(exp.value, now) {
          return Succeeded;
        }
        accessToken := "";
        flagToken := "";
        status := FetchToken();
    }

    /** The common part of the three query methods: checkToken, then the query. */
    method Send(now: int, query: string) returns (answer: Answer)
      modifies this
      ensures Got(Credentials(), answer) == AfterGet(EnvAt(now), old(Credentials()), query)
      ensures metric == old(metric)
    {
      var status := CheckToken(now);
      match status
      case Panicked => answer := GetPanicked;
      case Errored => answer := Answered(Failed(TokenInvalid));
      case Succeeded => answer := Answered(Ask(EnvAt(now), query));
    }

    /** GetMetric (cache-collector.go:304-311). */
    method GetMetric(now: int, name: string, sourceId: string) returns (answer: Answer)
      modifies this
      ensures Got(Credentials(), answer) == AfterGet(EnvAt(now), old(Credentials()), MetricQuery(name, sourceId))
      ensures metric == old(metric)
    {
      answer := Send(now, MetricQuery(name, sourceId));
    }

    /** GetRateMetric (cache-collector.go:314-325); start and stop are unused. */
    method GetRateMetric(now: int, name: string, sourceId: string, job: string, offset: string, duration: int)
      returns (answer: Answer)
      modifies this
      ensures Got(Credentials(), answer) ==
        AfterGet(EnvAt(now), old(Credentials()), RateQuery(name, sourceId, job, offset, duration))
      ensures metric == old(metric)
    {
      answer := Send(now, RateQuery(name, sourceId, job, offset, duration));
    }

    /** GetAVGMetric (cache-collector.go:328-338); start and stop are unused. */
    method GetAvgMetric(now: int, name: string, sourceId: string, job: string, offset: string)
      returns (answer: Answer)
      modifies this
      ensures Got(Credentials(), answer) == AfterGet(EnvAt(now), old(Credentials()), AvgQuery(name, sourceId, job, offset))
      ensures metric == old(metric)
    {
      answer := Send(now, AvgQuery(name, sourceId, job, offset));
    }

    /** avgResult (cache-collector.go:383-399), writing gauge k of group g. */
    method AvgResult(now: int, name: string, source: string, job: string, g: Group, k: Gauge)
      returns (count: nat, halt: Option<Halt>)
      modifies this
      ensures var o := AvgResultSpec(EnvAt(now), old(State()), name, source, job, g, k);
        State() == o.state && halt == HaltOf(o) && (o.Running? ==> count == o.count)
    {
      var answer := GetMetric(now, name, source);
      match answer
      case GetPanicked =>
        return 0, Some(Panic);
      case Answered(Failed(_)) =>
        return 0, Some(Fatal);
      case Answered(Result(ss)) =>
        var sum, n := AccumulateJob(ss, job);
        metric := WithSystem(metric, g, WithGauge(SystemOf(metric, g), k, TermOutput.Mean(sum, n)));
        return n, None;
    }

    /** sumResult (cache-collector.go:401-417), writing counter c. */
    method SumResult(now: int, name: string, source: string, job: string, c: Counter)
      returns (count: nat, halt: Option<Halt>)
      modifies this
      ensures var o := SumResultSpec(EnvAt(now), old(State()), name, source, job, c);
        State() == o.state && halt == HaltOf(o) && (o.Running? ==> count == o.count)
    {
      var answer := GetMetric(now, name, source);
      match answer
      case GetPanicked =>
        return 0, Some(Panic);
      case Answered(Failed(_)) =>
        return 0, Some(Fatal);
      case Answered(Result(ss)) =>
        var sum, n := AccumulateJob(ss, job);
        metric := WithCounted(metric, c, TruncReal(sum));
        return n, None;
    }

    /** getAvgSystemMetrics (cache-collector.go:376-381) on the record of group g. */
    method GetAvgSystemMetrics(now: int, g: Group, job: string) returns (halt: Option<Halt>)
      modifies this
      ensures var o := AvgSystemSpec(EnvAt(now), names, Running(old(State()), 0), g, job);
        State() == o.state && halt == HaltOf(o)
    {
      var sid := names.boshSystemMetricsSID;
      ghost var env := EnvAt(now);
      ghost var o := Running(State(), 0);
      var count;
      count, halt := AvgResult(now, names.cpuUserGauge, sid, job, g, CpuUser);
      o := ThenAvg(env, o, names.cpuUserGauge, sid, job, g, CpuUser);
      if halt.Some? { return; }
      metric := WithSystem(metric, g, SystemOf(metric, g).(count := count));
      o := ThenCount(o, g);
      count, halt := AvgResult(now, names.cpuWaitGauge, sid, job, g, CpuWait);
      o := ThenAvg(env, o, names.cpuWaitGauge, sid, job, g, CpuWait);
      if halt.Some? { return; }
      count, halt := AvgResult(now, names.cpuSYSGauge, sid, job, g, CpuSys);
      o := ThenAvg(env, o, names.cpuSYSGauge, sid, job, g, CpuSys);
      if halt.Some? { return; }
      count, halt := AvgResult(now, names.memoryPercentGauge, sid, job, g, Memory);
    }

    /** Collect (cache-collector.go:341-372): its blocks in order; a fatal error or a panic
        ends it, and the process, where it happens. */
    method Collect(now: int) returns (halt: Option<Halt>)
      modifies this
      ensures var o := CollectSpec(EnvAt(now), names, old(State()));
        State() == o.state && halt == HaltOf(o)
    {
      halt := PollSystems(now);
      ghost var o := SystemsSpec(EnvAt(now), names, old(State()));
      if halt.Some? { return; }
      halt := PollTotals(now, o);
    }

    /** Collect after the instance groups: the counter blocks, then the capacity. */
    method PollTotals(now: int, ghost o: Outcome) returns (halt: Option<Halt>)
      requires o.Running? && o.state == State()
      modifies this
      ensures var o' := TotalsSpec(EnvAt(now), names, o);
        State() == o'.state && halt == HaltOf(o')
    {
      ghost var env := EnvAt(now);
      halt := PollTraffic(now, o);
      ghost var o' := TrafficSpec(env, names, o);
      if halt.Some? { return; }
      halt := PollDrains(now, o');
      o' := DrainSpec(env, names, o');
      if halt.Some? { return; }
      halt := PollDoppler(now, o');
      o' := DopplerSpec(env, names, o');
      if halt.Some? { return; }
      halt := PollMetron(now, o');
      o' := MetronSpec(env, names, o');
      if halt.Some? { return; }
      metric := metric.(doppler := metric.doppler.(messageRateCapacity := Capacity(metric)));
    }

    /** Collect's first block (cache-collector.go:344-347). */
    method PollSystems(now: int) returns (halt: Option<Halt>)
      modifies this
      ensures var o := SystemsSpec(EnvAt(now), names, old(State()));
        State() == o.state && halt == HaltOf(o)
    {
      ghost var env := EnvAt(now);
      ghost var o := Running(State(), 0);
      halt := GetAvgSystemMetrics(now, TcGroup, names.tcJob);
      o := AvgSystemSpec(env, names, o, TcGroup, names.tcJob);
      if halt.Some? { return; }
      halt := GetAvgSystemMetrics(now, DopplerGroup, names.dopplerJob);
      o := AvgSystemSpec(env, names, o, DopplerGroup, names.dopplerJob);
      if halt.Some? { return; }
      halt := GetAvgSystemMetrics(now, AdapterGroup, names.syslogAdapterJob);
      o := AvgSystemSpec(env, names, o, AdapterGroup, names.syslogAdapterJob);
      if halt.Some? { return; }
      halt := GetAvgSystemMetrics(now, SchedulerGroup, names.syslogSchedulerJob);
    }

    /** Collect's traffic controller block (cache-collector.go:349-350). */
    method PollTraffic(now: int, ghost o: Outcome) returns (halt: Option<Halt>)
      requires o.Running? && o.state == State()
      modifies this
      ensures var o' := TrafficSpec(EnvAt(now), names, o);
        State() == o'.state && halt == HaltOf(o')
    {
      var n := names;
      var count;
      count, halt := SumResult(now, n.appStreamsGauge, n.trafficControllerSID, n.tcJob, AppStreams);
      if halt.Some? { return; }
      count, halt := SumResult(now, n.slowConsumerCounter, n.trafficControllerSID, n.tcJob, SlowConsumers);
    }

    /** Collect's drain block (cache-collector.go:352-354). */
    method PollDrains(now: int, ghost o: Outcome) returns (halt: Option<Halt>)
      requires o.Running? && o.state == State()
      modifies this
      ensures var o' := DrainSpec(EnvAt(now), names, o);
        State() == o'.state && halt == HaltOf(o')
    {
      var n := names;
      var count;
      count, halt := SumResult(now, n.drainBindingsGauge, n.syslogDrainAdapterSID, n.syslogAdapterJob, DrainBindings);
      if halt.Some? { return; }
      count, halt := SumResult(now, n.drainsGauge, n.syslogDrainScheduleSID, n.syslogSchedulerJob, ScheduledDrains);
      if halt.Some? { return; }
      count, halt := SumResult(now, n.droppedCounter, n.syslogDrainAdapterSID, n.syslogAdapterJob, ScheduledDrains);
    }

    /** Collect's doppler block (cache-collector.go:356-359). */
    method PollDoppler(now: int, ghost o: Outcome) returns (halt: Option<Halt>)
      requires o.Running? && o.state == State()
      modifies this
      ensures var o' := DopplerSpec(EnvAt(now), names, o);
        State() == o'.state && halt == HaltOf(o')
    {
      var n := names;
      var count;
      count, halt := SumResult(now, n.ingressCounter, n.dopplerSID, n.dopplerJob, DopplerIngress);
      if halt.Some? { return; }
      count, halt := SumResult(now, n.egressCounter, n.dopplerSID, n.dopplerJob, DopplerEgress);
      if halt.Some? { return; }
      count, halt := SumResult(now, n.droppedCounter, n.dopplerSID, n.dopplerJob, DopplerDropped);
      if halt.Some? { return; }
      count, halt := SumResult(now, n.subscriptionsGauge, n.dopplerSID, n.dopplerJob, Subscriptions);
    }

    /** Collect's metron block (cache-collector.go:361-363). */
    method PollMetron(now: int, ghost o: Outcome) returns (halt: Option<Halt>)
      requires o.Running? && o.state == State()
      modifies this
      ensures var o' := MetronSpec(EnvAt(now), names, o);
        State() == o'.state && halt == HaltOf(o')
    {
      var n := names;
      var count;
      count, halt := SumResult(now, n.ingressCounter, n.metronSID, n.metronJob, MetronIngress);
      if halt.Some? { return; }
      metric := WithSystem(metric, MetronGroup, SystemOf(metric, MetronGroup).(count := count));
      count, halt := SumResult(now, n.egressCounter, n.metronSID, n.metronJob, MetronEgress);
      if halt.Some? { return; }
      count, halt := SumResult(now, n.droppedCounter, n.metronSID, n.metronJob, MetronDropped);
    }
  }
}
