# firehose-analyzer in Dafny

A model of the core of firehose-analyzer, a Cloud Foundry loggregator health dashboard
written in Go, with proofs about it. The model has two ingestion paths that feed a set of
counters and gauges, plus the views derived from them.

- **Stream path** (`collector.dfy`, `collector_props.dfy`)
  - `parseEnvelope` takes one decoded firehose envelope at a time.
  - It appends an entry the first time an instance, doppler or metron index is seen.
  - It then dispatches on origin and metric name, and overwrites exactly one gauge or
    counter field.
  - An index with no entry in the list the dispatch needs is a Go run-time panic. The model
    keeps it as an explicit `Panic` outcome.
  - `StreamMetrics` is a class whose list fields are updated in place. Its methods are
    proved equal to the pure step functions. The properties are stated about those
    functions:
    - the uniqueness invariant;
    - which single field is written;
    - exactly when a panic happens;
    - last-write-wins over whole envelope sequences.
  - In this revision the whole of `collector.go` sits inside a block comment
    (collector.go:3-200). `main.go`, `replay.go` and `term-output.go` are written against
    it, and the model follows it as written.
- **Dashboard figures** (`term_output.dfy`)
  - `computeInstance`, as a loop proved against a specification function.
  - The doppler table loop, with uint64 wrap-around.
  - The message-rate capacity.
  - The metron health report.
  - The replay progress bar.
- **Archive writer** (`archiver.dfy`)
  - The comma-separated row written for every handled envelope.
  - The code writes seven columns, with the origin second. The comment at archiver.go:10
    lists six, and so does the header row at main.go:162.
- **Replay** (`replay.dfy`)
  - Line decoding and the read loop.
  - The archive file is the header line and then one row per archived envelope, each ended
    by a newline. Replay reads it back with `bufio.Scanner`'s default line splitting
    (`Text.ScanLines`).
  - The main result is that replaying an archive file gives back the archived envelopes, and
    so reaches the state that ingesting those envelopes reaches. This holds when every row
    is one line: no field holds a newline and the unit does not end in a carriage return
    (`Archiver.OneLineRow`). The predicate `Replay.Archivable` collects these hypotheses.
  - A live run archives only the envelopes parseEnvelope handled (collector.go:183-190).
    An envelope it did not handle can still have created an instance or a statistic, and
    replay does not recreate that entry. So replay reproduces ingesting the archived
    envelopes, not the live run itself (`Replay.UnhandledEntriesNotReplayed`).
  - The timestamp comes back in seconds rather than nanoseconds. This is harmless, because
    ingestion never reads it.
- **Poll path** (`cache_collector.dfy`, `promql.dfy`)
  - The log-cache client `LogCacheClient` keeps its access token and its Metrics record in
    fields.
  - It builds PromQL query texts. A small selector reader proves that each text carries
    exactly its metric and labels.
  - `avgResult` and `sumResult` keep the samples of one job.
  - `Collect` is modelled block by block, against a chain of specification functions.
    `CollectStores` states what each field holds at the end.
  - The HTTP client keeps the token it was built with (cache-collector.go:232). The model
    keeps that copy as the `httpToken` field: a refreshed token never reaches the queries.

Foreign parts become parameters:

- the log-cache server, the JWT parser and the cf CLI are a `Backend` value;
- the clock is a `now` argument;
- the float and wall-clock text formats are a `Codec`.
  - `ValidCodec` states the wall-clock facts for instants whose year has four digits:
    the text is 19 characters long, holds no comma and reads back. Every int64 nanosecond
    timestamp falls in that range.
  - `FloatPrints` states the float facts for one value.
  - `Archiver.SampleCodec` is a concrete codec proved to satisfy both, so the round-trip
    hypotheses can be met.

A float64 that a division by zero would make NaN or infinite is `None`. `logger.Fatalln`
and run-time panics are `Halt` outcomes.

## Model

| member | source | states |
|---|---|---|
| Text.Repeat | term-output.go:126 | strings.Repeat gives exactly n copies of the character |
| Text.TruncDiv | archiver.go:13 | Go's int64 division truncates toward zero: the Euclidean quotient for a non-negative numerator, the negated quotient of the negation otherwise |
| Text.DecimalValue | archiver.go:18 | the `%v` text of an unsigned value reads back, digit by digit, as that value |
| Text.Atoi | replay.go:88-97 | strconv.Atoi succeeds only on a non-empty, optionally signed run of digits, with a value inside the int64 range, and the value is the digits' value with the sign applied |
| Text.AtoiDecimal | replay.go:88 | Atoi reads back the decimal text of every value up to the int64 maximum |
| Text.ToUint64 | replay.go:98-99 | uint64(v) wraps modulo 2^64 and leaves values already in range unchanged |
| Text.Split | replay.go:41 | strings.Split gives at least one piece, and no piece holds the separator |
| Text.SplitJoin | replay.go:41 | splitting a joined row gives back its fields when no field holds the separator |
| Text.JoinSplit | replay.go:60 | joining the pieces of a split gives back the original string |
| Text.JoinNoSepInside | replay.go:60 | joining adds no character except the separator |
| Text.JoinSnoc | archiver.go:12 | joining one more field appends the separator and that field |
| Text.JoinTerminatedSnoc | archiver.go:12 | one more newline-terminated line appends that line and its newline to the text |
| Text.JoinIsOneLine | archiver.go:12 | fields without newlines, joined by a separator other than '\n' and '\r', make one line, ending in '\r' only if the last field does |
| Text.DropCRsOfLines | replay.go:39 | ScanLines' removal of a trailing '\r' leaves lines that do not end in one unchanged |
| Text.ScanLinesJoin | replay.go:38-39 | newline-terminated lines that hold no '\n' and do not end in '\r' are read back by ScanLines exactly, in order, with no extra line after the final newline |
| Envelopes.EventTypeName | archiver.go:19 | the event-type column is "ValueMetric" exactly for value metrics, and "CounterEvent" for counters |
| Collector.Position | collector.go:58-64 | the linear index search gives the first position holding the index, or -1 exactly when none does |
| Collector.StreamMetrics.constructor | main.go:150 | the record starts with empty lists and zero drain gauges |
| Collector.StreamMetrics.FindInstance | collector.go:58-64 | the instance search loop returns Position over the instances |
| Collector.StreamMetrics.FindEnvelopeStat | collector.go:94-100 | the doppler search loop returns Position over the envelope statistics |
| Collector.StreamMetrics.FindMetron | collector.go:117-123 | the metron search loop returns Position over the metrons |
| Collector.StreamMetrics.ProcessValueMetric | collector.go:56-106 | the new state and the outcome are what ValueMetricStep gives for the old state |
| Collector.StreamMetrics.ProcessCounterEvent | collector.go:108-147 | the new state and the outcome are what CounterEventStep gives for the old state |
| Collector.StreamMetrics.ParseEnvelope | collector.go:149-192 | the new state is ParseEnvelopeStep of the old one; the envelope is archived exactly when it was handled and archiving is on |
| CollectorProps.ValueStepKeepsIds | collector.go:56-106 | a value metric never adds, removes or re-keys an entry |
| CollectorProps.CounterStepKeepsIds | collector.go:108-147 | a counter event never adds, removes or re-keys an entry |
| CollectorProps.DispatchKeepsIds | collector.go:182-191 | the dispatch on the event type keeps every entry's job and index |
| CollectorProps.ValueStepOtherInstance | collector.go:66-81 | a value metric leaves every instance with another index as it was |
| CollectorProps.CounterStepKeepsInstances | collector.go:108-147 | a counter event never touches the instance list |
| CollectorProps.StatHasInstance | collector.go:175-180 | under the invariant, every doppler statistic's index also has an instance |
| CollectorProps.AddMetronKeepsValid | collector.go:151-163 | creating a metron entry keeps indexes unique, and grows each list by at most one while keeping old ids |
| CollectorProps.AddInstanceKeepsValid | collector.go:168-180 | creating an instance (and doppler statistic) keeps the invariant, and grows each list by at most one |
| CollectorProps.CreateEntriesKeepsValid | collector.go:151-180 | entry creation as a whole keeps the invariant and only appends |
| CollectorProps.ParseEnvelopeKeepsValid | collector.go:149-192 | parseEnvelope keeps indexes unique in all three lists, and every statistic tied to an instance; lists only grow |
| CollectorProps.MetronEntryCreated | collector.go:151-163 | a metron-origin counter gets a metron entry: appended with zero counters if its index is new, otherwise the list is unchanged |
| CollectorProps.UnknownJobIgnored | collector.go:151-167 | an envelope of a job outside the allowlist is unmatched and changes nothing but a possible new metron entry |
| CollectorProps.KnownJobCreatesInstance | collector.go:168-180 | an allowlisted job's unseen index appends one instance, plus one statistic for doppler; a seen index appends nothing |
| CollectorProps.GaugeOverwritesOneField | collector.go:66-81 | a bosh gauge overwrites that one gauge of the first instance with the index; every other field and entry is kept |
| CollectorProps.DrainGaugesOverwrite | collector.go:83-91 | the drain gauges are overwritten by the value, not accumulated, and nothing else changes |
| CollectorProps.DopplerCounterOverwrites | collector.go:125-136 | a doppler counter's field takes the delta (it does not accumulate), and no other field changes |
| CollectorProps.MetronCounterOverwrites | collector.go:138-145 | a metron counter's field takes the delta, and no other field changes |
| CollectorProps.UnhandledChangesNothing | collector.go:149-192 | an unmatched or panicking envelope leaves the state as entry creation left it |
| CollectorProps.PanicExactly | collector.go:149-192 | parseEnvelope panics if and only if the envelope is a doppler subscriptions or counter metric of an allowlisted job whose index has no doppler statistic |
| CollectorProps.EntriesForKnownJob | collector.go:168-180 | after entry creation the index has an instance, and it has a statistic if and only if it had one or is new under the doppler job |
| CollectorProps.ValueStepPanics | collector.go:66-104 | a value metric panics if and only if its bosh or subscriptions branch finds no entry |
| CollectorProps.CounterStepPanics | collector.go:125-145 | a counter panics if and only if its doppler or metron branch finds no entry |
| CollectorProps.IngestAllAppend | main.go:171-178 | ingesting a + b is ingesting b after a, unless a crashed |
| CollectorProps.IngestAllKeepsValid | main.go:171-178 | any envelope sequence keeps the invariant, and no list ever shrinks |
| CollectorProps.OtherIndexFrame | collector.go:149-192 | an envelope never changes an instance with a different index |
| CollectorProps.OtherIndexesFrame | main.go:171-178 | a sequence of envelopes for other indexes leaves an instance unchanged |
| CollectorProps.GaugeLastWriteWins | collector.go:66-81 | a bosh gauge's value survives any later envelopes for other indexes |
| TermOutput.Mean | term-output.go:115-118 | a mean is defined exactly when the count is positive |
| TermOutput.ComputeInstance | term-output.go:105-120 | the loop returns the job's instance count and the four gauge averages of Summary |
| TermOutput.CountJobZero | term-output.go:105-114 | the count is zero if and only if no instance has the job |
| TermOutput.CountJobBounded | term-output.go:106-108 | the count never exceeds the number of instances |
| TermOutput.SumJobBounds | term-output.go:106-113 | a gauge sum lies between count * lo and count * hi when every matching gauge lies in [lo, hi] |
| TermOutput.MeanWithinRange | term-output.go:115-118 | an average lies within the range of the matching instances' gauges |
| TermOutput.UnobservedJobUndefined | term-output.go:115-118 | a job never seen has count 0, and all four averages undefined |
| TermOutput.SingleGaugeScenario | term-output.go:105-120 | one cpu.wait gauge of 12.5 for a new traffic-controller instance gives that job a count of 1 and a wait average of 12.5 |
| TermOutput.Loss | term-output.go:62 | the loss ratio is defined exactly when the ingress is positive |
| TermOutput.Capacity | term-output.go:64 | the capacity is defined exactly when there is a doppler |
| TermOutput.WrapAdd | term-output.go:54 | adding to a wrapped uint64 sum wraps the true sum |
| TermOutput.DopplerSummary | term-output.go:48-64 | the loop counts the dopplers, sums ingress and sinks-dropped modulo 2^64, derives the capacity from them, and gives one row per doppler with its loss |
| TermOutput.SumIngressBounded | term-output.go:54 | the ingress sum is at most n * hi when every ingress is at most hi |
| TermOutput.CapacityIsMeanIngress | term-output.go:64 | with no wrap-around the capacity is the mean ingress, between 0 and the largest bound |
| TermOutput.LossIsFraction | term-output.go:62 | the loss is undefined for zero ingress, and lies in [0, 1] when no more was dropped than received |
| TermOutput.LossExamples | term-output.go:62 | 5 dropped of 100 is a loss of 0.05; zero ingress has no loss |
| TermOutput.ReportLists | term-output.go:66-71 | the loop's text is the header followed by one line per metron that dropped envelopes |
| TermOutput.MetronReport | term-output.go:66-71 | the metron loop's text is the green header followed by one line per unhealthy metron, in list order |
| TermOutput.UnhealthyExactly | term-output.go:67-70 | the report lists exactly the metrons with dropped > 0 |
| TermOutput.UnhealthyAppend | term-output.go:67-70 | the report keeps the order of the metron list |
| TermOutput.AllHealthyReport | term-output.go:66 | when no metron dropped anything, the report is the green text alone |
| TermOutput.UpdateTerm | term-output.go:39-96 | the dashboard shows Summary for each of the four jobs, both drain gauges, the doppler count, sums and capacity, one loss row per doppler statistic in list order, the metron report and the current progress bar |
| TermOutput.Fill | term-output.go:125 | the filled length never exceeds the bar's 80 cells |
| TermOutput.Percent | term-output.go:126 | the percent shown is at most 100 |
| TermOutput.Pad3Length | term-output.go:126 | `%3d` of a percent is exactly three characters |
| TermOutput.ProgressBarShape | term-output.go:123-127 | the bar is '\|', 80 cells of which the first Fill are '#' and the rest '-', '\|', the padded percent and '%' |
| TermOutput.FillMonotone | term-output.go:125 | a larger fraction never fills fewer cells, and 1 fills all 80 at 100% |
| Archiver.ZoneSuffix | archiver.go:13 | the RFC 3339 zone text holds no comma |
| Archiver.FormatRfc3339 | archiver.go:13 | for a four-digit-year instant, the timestamp column is 19 wall-clock characters followed by the zone text, and holds no comma |
| Archiver.SecondsInRange | archiver.go:13 | every int64 nanosecond timestamp, in any zone, falls on a four-digit-year instant |
| Archiver.SampleCodecValid | archiver.go:13-18 | a concrete codec meets ValidCodec, and prints whole non-negative floats so that they read back |
| Archiver.Columns | archiver.go:12-21 | the row has seven columns in the source's order: timestamp in seconds, origin, job "/" index, metric, value, event type, unit |
| Archiver.RowSplits | archiver.go:12-21 | a row whose fields hold no comma splits back into exactly its seven columns |
| Archiver.ZoneSuffixOneLine | archiver.go:13 | the RFC 3339 zone text holds no newline |
| Archiver.RowIsOneLine | archiver.go:12-21 | a row whose string columns and codec text hold no newline, and whose last column does not end in a carriage return, is one line |
| Archiver.ArchivedLineIsOneLine | archiver.go:12-21 | the row of an archived envelope is one line when its fields and its codec text hold no newline and its unit does not end in a carriage return |
| Archiver.FileTextGrows | main.go:162 | the archive file starts as the header and its newline, and each archived row appends itself and a newline (archiver.go:12) |
| Archiver.SampleCodecOneLine | archiver.go:13-18 | the sample codec's wall-clock and float text hold no newline, so rows can be one line |
| Archiver.ArchivedColumns | archiver.go:12-21 | an archived row has seven columns: the timestamp truncated to seconds, origin, job/index, name, value, event type, and unit (or counter total) |
| Replay.NumericZone | replay.go:51 | a parsed zone offset was six characters of the form ±hh:mm |
| Replay.Zone | replay.go:51 | the "-07:00" layout reads only numeric offsets; the RFC 3339 layout also reads "Z" as UTC |
| Replay.ParseTimestamp | replay.go:51-56 | a parsed timestamp column is at least 20 characters |
| Replay.DecodeLineUsing | replay.go:40-113 | a line is rejected for its field count if and only if it does not split into 7; an accepted envelope is a value or counter whose ids hold no ',' or '/' and whose counters fit in uint64 |
| Replay.HeaderSkipped | replay.go:42-49 | the six-column header row is skipped as bad data, before the header check is ever reached |
| Replay.ZoneRoundTrip | replay.go:51 | the zone text the archive writes reads back as its offset, except UTC under the layout as written |
| Replay.NumericZoneSuffix | replay.go:51 | a non-UTC offset reads back from its ±hh:mm text |
| Replay.ParseWallThenZone | replay.go:51 | a timestamp column is read as 19 wall-clock characters followed by the zone |
| Replay.TimestampRoundTrip | replay.go:51-56 | a formatted timestamp reads back as its Unix seconds; under the layout as written, none in UTC does |
| Replay.DecodeArchivedColumns | replay.go:40-113 | an archived row decodes to the archived envelope, with its timestamp in seconds |
| Replay.RoundTrip | replay.go:40-113 | the corrected reader accepts every archived row whose counters fit int64 and whose value text reads back, as the envelope that was archived |
| Replay.SampleRoundTrip | replay.go:40-113 | with the concrete sample codec, every such archived row with a whole value reads back |
| Replay.UtcRejectedAsWritten | replay.go:51-55 | as written, a row archived in UTC is skipped as a bad timestamp, while other zones round-trip |
| Replay.CorrectionOnlyAddsUtc | replay.go:51 | every line the reader as written accepts, the corrected reader accepts as the same envelope |
| Replay.TimestampIgnored | replay.go:56 | replay's seconds-for-nanoseconds timestamp makes no difference to parseEnvelope |
| Replay.DecodeAll | replay.go:39-41 | every line is decoded in file order, by the corrected reader |
| Replay.HeaderOnly | replay.go:47-49 | an archive holding only its header replays nothing |
| Replay.ArchivedKeyColumns | replay.go:51-60 | the timestamp column of an archived row parses back to its whole seconds, and the job/index column splits back into job and index |
| Replay.ReplayReadsLines | replay.go:39-113 | decoding the header line and then the archived rows yields exactly the archived envelopes, in order |
| Replay.ArchivedLinesAreLines | archiver.go:12-21 | every archived row of a run is one line when each envelope's fields allow it |
| Replay.HeaderIsOneLine | main.go:162 | the header row holds no newline and does not end in a carriage return |
| Replay.FileTextLines | replay.go:38-39 | bufio.Scanner reads a file written as the header and then one-line rows back as exactly those lines, in order |
| Replay.ArchiveFileLines | replay.go:38-39 | bufio.Scanner reads the archive file of a run back as its header line and then its archived rows, in order |
| Replay.ReplayReadsArchive | replay.go:38-113 | replaying the archive file, as bufio.Scanner splits it into lines, yields exactly the archived envelopes, in order, when every row is one line |
| Replay.RebuiltIngestsAlike | replay.go:115 | ingesting the rebuilt envelopes reaches the same run as ingesting the originals |
| Replay.ReplayMatchesLive | replay.go:38-121 | replaying the archive file of an envelope sequence, read line by line by bufio.Scanner, reaches the same state (and crash) as ingesting that sequence |
| Replay.ReplayOfLiveRun | collector.go:183-190 | replaying the archive file a live run wrote reaches the state of ingesting only the envelopes it handled |
| Replay.UnhandledEntriesNotReplayed | collector.go:168-190 | an unmatched doppler value metric creates an instance and a statistic live but is not archived, so replay does not recreate them |
| Replay.ReplayIngestsAccepted | replay.go:39-121 | the read loop ingests exactly the accepted envelopes, in order |
| Replay.PercentsSnoc | replay.go:114 | each line adds one progress fraction, line/total, only if it was accepted before any panic |
| Replay.ProgressIncreases | replay.go:114 | the progress fractions lie in (0, 1] and strictly increase |
| Replay.ProgressPerAccepted | replay.go:114 | without a panic, there is one progress fraction per accepted line |
| Replay.ReplayCrashStays | replay.go:115 | once parseEnvelope has panicked, no later line has any effect |
| Replay.ReplayStep | replay.go:39-121 | the loop's next pass in terms of the passes before it |
| Replay.RunReplay | replay.go:13-123 | (corrected reader) the method reaches the state and crash of ReplayResults over the decoded lines; it reports their fractions and then 1, and ends at a full bar |
| PromQL.SelectorRoundTrip | cache-collector.go:310 | a selector reads back as the metric and label matchers it was built from, whatever follows it |
| PromQL.ParseLabelsText | cache-collector.go:320 | the matcher list reads back as its labels, whatever follows it |
| PromQL.MetricQueryReads | cache-collector.go:310 | GetMetric's query selects exactly the metric, filtered by source_id alone |
| PromQL.JobSelectorReads | cache-collector.go:334 | the source_id and job selector reads back as the metric and its two matchers |
| PromQL.RateQueryReads | cache-collector.go:320-324 | GetRateMetric's query selects the metric by source_id and job, then carries the range and the offset |
| PromQL.AvgQueryReads | cache-collector.go:334-337 | GetAVGMetric's query selects the metric by source_id and job, then carries the offset |
| CacheCollector.AfterFetch | cache-collector.go:271-301 | fetchToken: a set -token flag is taken as it is; otherwise the CLI output minus its last character; a failure changes no token |
| CacheCollector.AsWrittenIgnoresClock | cache-collector.go:258 | as written, a token is kept even after it has expired |
| CacheCollector.AsWrittenKeepsExpiringToken | cache-collector.go:258 | as written, a token 30 seconds from expiry is kept; the intended test replaces it |
| CacheCollector.FreshMeansMargin | cache-collector.go:258-259 | the corrected test keeps a token if and only if it has at least 60 seconds left |
| CacheCollector.AfterCheck | cache-collector.go:237-269 | (corrected 60-second test) checkToken: an empty token is invalid with no other effect; any replaced token clears the -token flag; failing after a refetch leaves both tokens empty |
| CacheCollector.FreshTokenKept | cache-collector.go:257-268 | a token with a minute or more to live is kept and accepted |
| CacheCollector.ExpiringTokenReplaced | cache-collector.go:258-266 | a token with less than a minute left is replaced by the CLI's; if that fails, both tokens are empty |
| CacheCollector.AuthorizationHeader | cache-collector.go:142-149 | the Authorization header is set, to the token, if and only if the token is non-empty |
| CacheCollector.AfterGet | cache-collector.go:304-338 | a query runs checkToken first: its token is what remains; a result comes from the server, and otherwise the answer is "access token invalid" |
| CacheCollector.NoQueryWithoutToken | cache-collector.go:305-307 | without a valid token, the answer is "access token invalid" whatever the server would say |
| CacheCollector.JobCount | cache-collector.go:389-396 | the count is at most the number of samples |
| CacheCollector.JobTotalsAreMatching | cache-collector.go:389-396 | the count is the number of samples labelled with the job, and the sum is their total |
| CacheCollector.OtherJobsIgnored | cache-collector.go:391-395 | samples of other jobs change neither the sum nor the count |
| CacheCollector.AccumulateJob | cache-collector.go:388-396 | the loop returns the job's sum and count |
| CacheCollector.TruncReal | cache-collector.go:415 | int64(x) truncates toward zero |
| CacheCollector.JobMean | cache-collector.go:397 | the average is defined if and only if some sample has the job |
| CacheCollector.AvgResultSpec | cache-collector.go:383-399 | avgResult: a failed query stops the poll with the metrics unchanged; otherwise only the one gauge becomes the job mean, and the count is returned |
| CacheCollector.SumResultSpec | cache-collector.go:401-417 | sumResult: a failed query stops the poll with the metrics unchanged; otherwise only the one counter becomes the truncated job sum, and the count is returned |
| CacheCollector.SystemEffect | cache-collector.go:376-381 | getAvgSystemMetrics, run to the end, writes one group's record with the job's averages and CPU-user count, and nothing else |
| CacheCollector.SystemsEffect | cache-collector.go:344-347 | the four group calls write the four group records, each with its own job's figures, and nothing else |
| CacheCollector.TrafficEffect | cache-collector.go:349-350 | the traffic-controller block writes app streams and slow consumers only |
| CacheCollector.DrainEffect | cache-collector.go:352-354 | the drain block writes drain bindings, then ScheduledDrains twice |
| CacheCollector.DopplerEffect | cache-collector.go:356-359 | the doppler block writes ingress, egress, dropped and subscriptions only |
| CacheCollector.MetronEffect | cache-collector.go:361-363 | the metron block writes ingress, then the metron count from that call, then egress and dropped |
| CacheCollector.CollectStores | cache-collector.go:341-372 | a completed Collect leaves each group, counter, the metron count and the capacity as listed (ScheduledDrains ends as the adapter's dropped sum), and every other field unchanged |
| CacheCollector.Composed | cache-collector.go:341-372 | the blocks' writes compose without disturbing each other |
| CacheCollector.LogCacheClient.constructor | cache-collector.go:226 | a client starts with the given tokens and a zero Metrics record |
| CacheCollector.LogCacheClient.New | cache-collector.go:225-235 | NewLogCacheClient fetches a first token; the HTTP client carries it only if that succeeded |
| CacheCollector.LogCacheClient.FetchToken | cache-collector.go:271-301 | the tokens and status are those of AfterFetch, and the metrics are unchanged |
| CacheCollector.LogCacheClient.CheckToken | cache-collector.go:237-269 | (corrected 60-second test) the tokens and status are those of AfterCheck, and the metrics are unchanged |
| CacheCollector.LogCacheClient.GetMetric | cache-collector.go:304-311 | the answer and tokens are AfterGet of the source_id query |
| CacheCollector.LogCacheClient.GetRateMetric | cache-collector.go:314-325 | the answer and tokens are AfterGet of the range query |
| CacheCollector.LogCacheClient.GetAvgMetric | cache-collector.go:328-338 | the answer and tokens are AfterGet of the offset query |
| CacheCollector.LogCacheClient.AvgResult | cache-collector.go:383-399 | the state, halt and count are those of AvgResultSpec |
| CacheCollector.LogCacheClient.SumResult | cache-collector.go:401-417 | the state, halt and count are those of SumResultSpec |
| CacheCollector.LogCacheClient.GetAvgSystemMetrics | cache-collector.go:376-381 | the state and halt are those of AvgSystemSpec |
| CacheCollector.LogCacheClient.Collect | cache-collector.go:341-372 | the state and halt are those of CollectSpec |
| CacheCollector.LogCacheClient.PollSystems | cache-collector.go:344-347 | the four group calls, as SystemsSpec |
| CacheCollector.LogCacheClient.PollTotals | cache-collector.go:349-365 | the counter blocks and the capacity, as TotalsSpec |
| CacheCollector.LogCacheClient.PollTraffic | cache-collector.go:349-350 | the traffic-controller block, as TrafficSpec |
| CacheCollector.LogCacheClient.PollDrains | cache-collector.go:352-354 | the drain block, as DrainSpec |
| CacheCollector.LogCacheClient.PollDoppler | cache-collector.go:356-359 | the doppler block, as DopplerSpec |
| CacheCollector.LogCacheClient.PollMetron | cache-collector.go:361-363 | the metron block, as MetronSpec |

## Left out

- **Stream I/O.** The websocket connection, the dropsonde unmarshaller, and the channels and
  goroutines that carry envelopes (main.go:144-189) are not modelled. Envelopes arrive as a
  sequence, handled one at a time in order.
- **Concurrency.**
  - The data race between the collector goroutine and the dashboard goroutine is not modelled.
  - The archive rows are written by `go archiveMetric`, so real rows may land out of order.
    The replay theorems assume rows in envelope order.
  - The mutex of the log-cache client (cache-collector.go:342-343, 419-425) is not modelled.
- **Terminal output.**
  - The screen template, colours, cursor moves and the five-second refresh loop
    (term-output.go:11-35, 40-41, 72-103) are not modelled.
  - `TermOutput.UpdateTerm` returns the values the template is filled with, not the text
    it prints.
  - `TermOutput.MetronReport` builds the metron lines without the colour escapes.
- **Wall-clock time.** `time.Now` is a `now` argument. One Collect uses one `now` for all of
  its queries.
- **Sleeps.** Replay's speed throttle (replay.go:116-118) is not modelled.
- **Archive write errors.** The `logger.Fatalln` on a failed archive write (archiver.go:23-25)
  is not modelled. The row text is.
- **Archive file handling in replay** (replay.go:14-38): opening and rewinding the file are
  not modelled. `bufio.Scanner`'s line splitting is modelled (`Text.ScanLines`); its read
  errors are not. The read loop receives the file's lines, and the first pass's line count
  is their number.
- Replay.ReplayReadsArchive, Replay.ReplayMatchesLive, Replay.ReplayOfLiveRun: they do not
  model `bufio.Scanner`'s 64 KiB token limit. A row longer than that ends the scan loop
  early, and the theorems assume every row fits. The limit counts bytes, and the model
  works on characters.
- **Floating point.**
  - Values are real numbers, not IEEE-754 doubles.
  - A NaN or infinite result of a division by zero is `None`.
- `Archiver.FormatRfc3339`: the `%v` text of a float64, `strconv.ParseFloat` and the
  wall-clock text are abstracted by a `Codec`.
  - For instants whose year has four digits, it assumes the wall-clock text is 19
    characters, holds no comma and reads back. Years outside 0001-9999 cannot come from an
    int64 nanosecond timestamp, so that text is not modelled.
  - For floats, it assumes only that the text of each archived value holds no comma and
    reads back (`FloatPrints`). Go promises this for every finite float64.
- **Time zones.**
  - Offsets are whole minutes, less than a day either way.
  - Fractional seconds, leap seconds and zone-range checks are not modelled.
- **Replay.ParseTimestamp** always splits the column after its 19th character. Go's
  layout reads the hour with one or two digits, so it also accepts an unpadded hour such
  as "2019-01-01T5:04:05+01:00", which the model rejects. Archive rows always pad the
  hour, so the round trip is unaffected.
- **Replay.RoundTrip** requires counter values that fit int64. Larger uint64 values are
  archived, but Atoi rejects them on replay; the model states that as a precondition rather
  than proving that such lines are skipped. It also requires each value's `%v` text to
  read back (`FloatPrints`), which no IEEE-754 model here can prove.
- **Replay.RunReplay** calls parseEnvelope with archiving off. `runReplay` is not called
  from main.go, so whether a replay also archives is not determined by the source.
- **CacheCollector.TruncReal** does not model int64 overflow of `int64(sum)` for sums beyond
  the int64 range. The count is a `nat`, not an int64.
- **The foreign services** are stood in for by a `Backend` value:
  - the log-cache server and the 10-second request timeout;
  - the JWT library's parsing;
  - the four cf CLI commands of fetchToken.

  The JWT parsing beyond "rejected / claims with an optional exp" is not modelled. A result
  that is not an instant vector reads as no samples.
- **The unused parameters.** GetRateMetric and GetAVGMetric's `start` and `stop`
  (cache-collector.go:314, 328) are never used, so the model drops them.
- **checkAPI** (cache-collector.go:115-130) is not part of this model: nothing in the
  modelled core calls it.
- **Collect's blocks.** `CacheCollector.LogCacheClient.Collect` is split into the helper
  methods PollSystems, PollTotals, PollTraffic, PollDrains, PollDoppler and PollMetron,
  one per block of the Go function. The order of the writes is kept.

## Findings

| source | as written | input that shows it | evidently intended | confidence | as-written member | corrected member |
|---|---|---|---|---|---|---|
| cache-collector.go:258 | `VerifyExpiresAt(exp - 60, true)` compares the token's own expiry minus 60 s with its expiry, so every token with a non-zero exp is kept, whatever the clock says | a token with exp = 1030 checked at now = 1000 (30 s left), or at any now after 1030, is kept | refresh the token once fewer than 60 s are left (now + 60 > exp), as the comment on the next line says | high; not executed | CacheCollector.AsWrittenKeepsExpiringToken | CacheCollector.FreshMeansMargin |
| replay.go:51 | timestamps are parsed with the layout "2006-01-02T15:04:05-07:00", whose zone accepts only ±hh:mm, while archiver.go:13 writes RFC 3339, which writes "Z" for UTC | any envelope archived on a host whose local zone is UTC: its timestamp column ends in "Z", and replay skips the line as a bad timestamp | parse with the RFC 3339 layout, so that an archive written in UTC replays | high; not executed | Replay.UtcRejectedAsWritten | Replay.RoundTrip |

The rest of the model uses the corrected behaviour:

- `CacheCollector.AfterCheck` uses `TokenFresh`.
- The replay loop uses `Replay.DecodeLine`.
