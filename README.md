# vMonitor exporter, basic-stats processor and SQL receiver helpers, in Dafny

This project models the core of three OpenTelemetry Collector components
from the vngcloud collector distribution. It proves properties of each
model.

- **The vMonitor exporter** (`exporter/vmonitorexporter`):
  - the delivery engine's back-off and quota state machine (`WriteBatch`,
    `write`, `handleResponse`, `checkQuota`, `doubleCheckTime`,
    `CheckConfig`);
  - the bounded record buffer, as its tests use it;
  - the drain loop `writeBatch`, which is the same in both exporters;
  - the metrics serializer, which turns pdata metrics into vMonitor records;
  - the name and value sanitizers of `metric.go`;
  - the logs exporter, which turns log attributes into "diff" metrics
    through the `BasicStats2` cache;
  - the exporter configuration's `Validate`.
- **The basic-stats processor** (`processor/basicstatsprocessor`):
  - the per-(metric, attribute key) statistics cache (`AddToCache`,
    Welford mean and M2, min/max/sum, diff, rate, interval);
  - `PushValue` and its validity rules;
  - `Push`, which rewrites the points of a copied batch in place;
  - `processMetrics`;
  - the configuration filter.
- **The SQL query receiver** (`receiver/sqlqueryreceiver`):
  - the configuration validators;
  - the bounded FIFO digest cache `AddDigest`;
  - the query classifier `refactorQuery`;
  - `refactorExplainResult`;
  - the output shape of `hashTo16Bytes`.

## How the model is built

The model follows the Go code's own form:

- State the Go code updates in place is a Dafny `class` with the same
  fields. Its methods carry `modifies` clauses. Examples:
  - `VNGCloudvMonitor`'s `dropCount`, `dropTime` and `checkQuotaFirst`;
  - the `BasicStats` and `BasicStats2` caches;
  - the buffer;
  - both configurations;
  - the digest tracker.
- Each method is proved equal to a pure specification function of the old
  state and the inputs, e.g. `DoubleCheckTimeStep`, `CheckQuotaStep`,
  `WriteBatchStep`, `AddToCacheStep`, `DrainSpec` and `ConvertAll`. The
  lemmas state what the source promises about those functions.
- Loops stay loops, each with its invariants:
  - the drain loop;
  - the nested resource/scope/metric/point loops of `AddMetric`, `Push`,
    the serializer and `pushLogsData`;
  - the `i--` removal walk of `PushGaugeMetric`;
  - the key-sanitizing loop of `Validate`;
  - the key collection, sorting and rendering of `mapToString`.
- Everything outside the process is a parameter:
  - the network is an oracle datatype that says what each HTTP exchange
    answers;
  - the clock is integer nanoseconds: each `time.Now()` of a `WriteBatch` call is its own reading in the oracle, and elsewhere the clock is a `now` or `t` parameter;
  - the client re-initialisation is a boolean of that oracle;
  - `math.Sqrt`, `strconv.ParseFloat`, `%v` formatting, SHA-256, `url.Parse`
    and the unshown `Sanitize*` helpers are function-valued parameters.
- `float64` values are reals.

Modules, one per component:

| module | models |
|---|---|
| `Common` | `Option`, Go's dynamic `interface{}` values, `convert`/`convert2` (identical) |
| `Delivery` | the state machine of `output.go` |
| `MetricBuffer` | the `Buffer` as `buffer_test.go` uses it |
| `Drain` | `writeBatch` of both exporters |
| `Metric` | `metric.go` |
| `Serializer` | `metrics_serializer.go` |
| `MetricsExporter` | `pushMetricsData` |
| `DiffCache` | `basicstats2.go` |
| `LogsExporter` | `logs_exporter.go` |
| `ExporterConfig` | the exporter's `config.go` and `CheckConfig` |
| `CanonicalKey` | `mapToString` and `mapToString2` (identical) |
| `BasicStats` | the processor's statistics entry |
| `BasicStatsProcessor` | the processor object |
| `ProcessorConfig` | the processor's `config.go` |
| `Pdata` | the part of pdata these components read |
| `SqlConfig` | the receiver's `config.go` |
| `DigestCache` | `AddDigest` |
| `SqlHelpers` | `refactorQuery`, `refactorExplainResult`, `hashTo16Bytes` |

## Model

| member | source | states |
|---|---|---|
| Common.Convert | processor/basicstatsprocessor/basicstats.go:347-358 | `convert` (and its copy `convert2`) accepts exactly float64, int64 and uint64, giving the numeric value; anything else is refused |
| Common.Lookup | exporter/vmonitorexporter/logs_exporter.go:126 | indexing a Go map with a missing key yields nil |
| Common.TruncDiv | exporter/vmonitorexporter/metrics_serializer.go:111 | Go's integer `/` truncates toward zero, for divisors of either sign: the quotient times the divisor is within one divisor's magnitude of the dividend, from below for non-negative and from above for negative dividends |
| Delivery.Pow2 | exporter/vmonitorexporter/output.go:451-456 | every 2^k is a positive power of two |
| Delivery.EscalationSequence | exporter/vmonitorexporter/output.go:37 | starting from 1, k escalations give 2^k for k ≤ 7 and then stay at `retryTime` = 128 |
| Delivery.DoubleCheckTimeValid | exporter/vmonitorexporter/output.go:451-456 | `doubleCheckTime` doubles a multiplier below 128, keeps 128, keeps it a power of two in [1, 128], and sets `dropTime` = the current clock reading + dropCount × 30 s |
| Delivery.CheckQuotaValid | exporter/vmonitorexporter/output.go:400-449 | every outcome of `checkQuota` keeps the multiplier a power of two in [1, 128] |
| Delivery.WriteBatchValid | exporter/vmonitorexporter/output.go:277-298 | every outcome of `WriteBatch` keeps the multiplier a power of two in [1, 128] |
| Delivery.ReachableStatesValid | exporter/vmonitorexporter/output.go:277-298 | after any sequence of `WriteBatch` calls from a valid state the multiplier is still a power of two in [1, 128] |
| Delivery.InitialValid | exporter/vmonitorexporter/metrics_exporter.go:62-63 | the state both exporters construct (dropCount 1, dropTime now) satisfies the invariant |
| Delivery.BackoffGateDrops | exporter/vmonitorexporter/output.go:278-281 | with dropCount > 1 and now before dropTime, `WriteBatch` returns nil, sends nothing and changes no state |
| Delivery.HandleResponseClassification | exporter/vmonitorexporter/output.go:380-398 | the status-code classification of `handleResponse`: 201 gives (false, nil) with no change; 401/403 give a drop with an error and no change; 409 escalates and gives (true, CONFLICT); any other code except 428 gives (false, "status Code") with no change |
| Delivery.PreconditionRequired | exporter/vmonitorexporter/output.go:389-392 | the classification of a 428: the state is that of `checkQuota`, run at the clock reading after the quota exchange; a failed check returns its drop flag with the wrapped error; a successful one falls out of the switch and still gives (false, "status Code: 428"), after resetting the back-off to that reading |
| Delivery.CheckQuotaContract | exporter/vmonitorexporter/output.go:400-449 | the classification of `checkQuota`'s outcomes: it raises `checkQuotaFirst`; exactly a 200 clears it, returns nil and resets dropCount = 1, dropTime = the clock reading after the exchange; exactly 401/403/409 are drops; 409 also escalates; everything else, including transport and read failures, is a plain error leaving the flag set |
| Delivery.DropsReachCallerAsNil | exporter/vmonitorexporter/output.go:284-288 | an error classified as a drop, by the pre-send quota check or by `handleResponse`, reaches the caller of `WriteBatch` as nil; the drop-only errors IAM Unauthorized, IAM Forbidden and CONFLICT never reach it |
| Delivery.TransportFailure | exporter/vmonitorexporter/output.go:353-359 | when the POST fails, a failed client re-initialisation drops the batch (nil) and a successful one returns "IAM request fail"; the state is unchanged and one POST was sent |
| Delivery.CreatedKeepsBackoff | exporter/vmonitorexporter/output.go:383-384 | a 201 returns nil and leaves the back-off state untouched |
| Delivery.ThreeConflicts | exporter/vmonitorexporter/output.go:393-395 | three conflicts from the constructed state run the multiplier 2, 4, 8 and push the window end strictly later each time |
| Delivery.ConflictExtendsWindow | exporter/vmonitorexporter/output.go:451-456 | a conflict no earlier than the start of the current window never shortens it, and lengthens it while the multiplier is below 128 |
| Delivery.VMonitorOutput.constructor | exporter/vmonitorexporter/metrics_exporter.go:56-63 | the output starts with dropCount 1, dropTime now, no pending quota check, and satisfies the invariant |
| Delivery.VMonitorOutput.DoubleCheckTime | exporter/vmonitorexporter/output.go:451-456 | the fields after the call are `DoubleCheckTimeStep` of the old fields |
| Delivery.VMonitorOutput.CheckQuota | exporter/vmonitorexporter/output.go:400-449 | the fields and the (isDrop, err) result are `CheckQuotaStep` of the old fields and the exchange; one request is sent unless building it failed |
| Delivery.VMonitorOutput.HandleResponse | exporter/vmonitorexporter/output.go:380-398 | the fields and result are `HandleResponseStep`; only a 428 issues a (quota) request |
| Delivery.VMonitorOutput.Write | exporter/vmonitorexporter/output.go:332-378 | the fields, the error and the requests sent are `WriteStep` of the old fields |
| Delivery.VMonitorOutput.WriteBatch | exporter/vmonitorexporter/output.go:277-298 | the fields, the error and the requests sent are `WriteBatchStep` of the old fields |
| ExporterConfig.CheckConfig | exporter/vmonitorexporter/output.go:225-232 | the URL is accepted exactly when it parses with a non-empty scheme and host; otherwise the error names the URL |
| MetricBuffer.KeepNewest | exporter/vmonitorexporter/buffer_test.go:37-41 | an overfilled buffer keeps min(len, capacity) records, the newest ones, in order |
| MetricBuffer.MetricsArr | exporter/vmonitorexporter/buffer_test.go:12-18 | the tests' helper yields exactly n records |
| MetricBuffer.Buffer.constructor | exporter/vmonitorexporter/buffer_test.go:21 | `NewBuffer(capacity)` is empty |
| MetricBuffer.Buffer.Len | exporter/vmonitorexporter/buffer_test.go:20-23 | `Len` is the number of buffered records |
| MetricBuffer.Buffer.Add | exporter/vmonitorexporter/buffer_test.go:25-41 | `Add` appends in order and keeps the newest `capacity` records; the buffer never exceeds its capacity |
| MetricBuffer.Buffer.Batch | exporter/vmonitorexporter/buffer_test.go:43-81 | `Batch(n)` returns the oldest min(n, Len) records, none when n is not positive, and changes nothing |
| MetricBuffer.Buffer.Accept | exporter/vmonitorexporter/buffer_test.go:83-91 | accepting a batch returned by `Batch` removes exactly that prefix |
| MetricBuffer.LenEmpty | exporter/vmonitorexporter/buffer_test.go:20-23 | Example check, not a general property: a new buffer has Len 0 |
| MetricBuffer.LenAfterAdd | exporter/vmonitorexporter/buffer_test.go:25-41 | Example check, not a general property: adding k records to an empty buffer of capacity 5 gives Len min(k, 5) (the LenOne, LenFull and LenOverfill cases) |
| MetricBuffer.BatchLen | exporter/vmonitorexporter/buffer_test.go:43-81 | Example check, not a general property: with k records buffered, `Batch(m)` has min(m, k, 5) records; zero for m = 0 or an empty buffer |
| MetricBuffer.BatchWrap | exporter/vmonitorexporter/buffer_test.go:83-91 | Example check, not a general property: fill 5, accept 2, add 2: a batch of 5 is full again |
| Drain.BatchesMonotone | exporter/vmonitorexporter/metrics_exporter.go:100-101 | the number of writes a drain may need (len/batchSize + 1 for a positive batch size, none otherwise) never grows when the buffer shrinks |
| Drain.SpanIsProduct | exporter/vmonitorexporter/metrics_exporter.go:101 | k full batches hold k × batchSize records |
| Drain.DrainRoundsPrefix | exporter/vmonitorexporter/metrics_exporter.go:103-119 | the loop only ever removes a prefix of the buffer and attempts at most one batch per round |
| Drain.DrainRoundsError | exporter/vmonitorexporter/metrics_exporter.go:113-117 | on an error the failing batch is rejected, not accepted, and the loop stops: everything accepted before it came in full batches, and the buffer is not empty |
| Drain.DrainRoundsEmpties | exporter/vmonitorexporter/metrics_exporter.go:99-121 | when every write succeeds and the rounds cover more than the buffer, the buffer ends empty with every record accepted |
| Drain.DrainRoundsValid | exporter/vmonitorexporter/metrics_exporter.go:103-119 | the drain keeps the delivery invariant whenever each write does |
| Drain.DrainContract | exporter/vmonitorexporter/metrics_exporter.go:99-121 | `writeBatch` removes only a prefix of the buffer; a batch size of 0 is exactly the case that panics in `nBuffer/batchSize`, with nothing written or removed; a negative batch size writes and removes nothing and returns nil; for a positive one it attempts at most len/batchSize + 1 batches, on nil the buffer is empty and all records were accepted, and on an error (always a `WriteBatch` error) exactly (attempts − 1) × batchSize records left the buffer, fewer than it held; the multiplier stays a power of two in [1, 128] |
| Drain.DroppedBatchesAreAccepted | exporter/vmonitorexporter/logs_exporter.go:175-180 | inside the back-off window `WriteBatch` returns nil, so the first batch is accepted and its records leave the buffer |
| Drain.DrainBuffer | exporter/vmonitorexporter/metrics_exporter.go:99-121 | for any batch size, the division (a panic for 0, Go's truncation otherwise) and the loop over the buffer end in the state, buffer contents and error that `DrainSpec` gives for the old state and contents |
| MetricsExporter.VMonitorMetricsExporter.PushMetricsData | exporter/vmonitorexporter/metrics_exporter.go:88-97 | the serialized records of the batch are added to the buffer (oldest dropped beyond capacity), the buffer is drained, and the drain's error is returned |
| DiffCache.FirstObservation | exporter/vmonitorexporter/basicstats2.go:50-73 | the first value of a (name, key) stores count 1, diff 0, LAST = value and is never emitted |
| DiffCache.LaterObservation | exporter/vmonitorexporter/basicstats2.go:99-135 | a later value adds 1 to count, sets diff = value − previous LAST and then LAST = value |
| DiffCache.AnswerRules | exporter/vmonitorexporter/basicstats2.go:150-184 | "diff" answers the stored diff, valid exactly when count > 1 and diff ≥ 0 (a decrease still becomes LAST); every other field gives (0, false) after the update |
| DiffCache.OtherEntriesUnchanged | exporter/vmonitorexporter/basicstats2.go:48-138 | `ProcessValue` on one (name, key) leaves every other entry as it was and removes none |
| DiffCache.OtherNamesUnchanged | exporter/vmonitorexporter/basicstats2.go:48-138 | storing a value replaces only its own metric name's aggregate |
| DiffCache.ProcessValueValid | exporter/vmonitorexporter/basicstats2.go:48-138 | every cached entry keeps count ≥ 1 |
| DiffCache.EmittedNonNegative | exporter/vmonitorexporter/basicstats2.go:172-173 | an emitted diff is never negative |
| DiffCache.ResetForgets | exporter/vmonitorexporter/basicstats2.go:187-189 | after `Reset` any key behaves as a first observation and emits nothing |
| DiffCache.FeedCounts | exporter/vmonitorexporter/basicstats2.go:99-135 | after n values of a new key the entry has count n, LAST the latest value and diff the change between the last two |
| DiffCache.FeedMore | exporter/vmonitorexporter/basicstats2.go:99-135 | feeding more values to a cached key adds their number to count and tracks LAST and diff |
| DiffCache.CounterExamples | exporter/vmonitorexporter/basicstats2.go:125-137 | Example check, not a general property: a counter seen at 10 then 7 (a reset) emits nothing; at 10 then 13 it emits 3 |
| DiffCache.BasicStats2.constructor | exporter/vmonitorexporter/basicstats2.go:18-27 | `NewBasicStats2Processor`: empty cache, stats ["diff"], originals dropped |
| DiffCache.BasicStats2.ProcessValue | exporter/vmonitorexporter/basicstats2.go:48-138 | the cache and the answer after the call are `ProcessValueStep` of the old cache |
| DiffCache.BasicStats2.Reset | exporter/vmonitorexporter/basicstats2.go:187-189 | `Reset` empties the cache |
| CanonicalKey.LessIrreflexive | exporter/vmonitorexporter/basicstats2.go:209 | Go's string order is irreflexive |
| CanonicalKey.LessTransitive | exporter/vmonitorexporter/basicstats2.go:209 | Go's string order is transitive |
| CanonicalKey.LessTotal | exporter/vmonitorexporter/basicstats2.go:209 | any two different strings are ordered one way or the other |
| CanonicalKey.LessAsymmetric | exporter/vmonitorexporter/basicstats2.go:209 | no two strings are each below the other |
| CanonicalKey.Insert | processor/basicstatsprocessor/basicstats.go:365 | inserting adds exactly one copy of the element |
| CanonicalKey.Sort | processor/basicstatsprocessor/basicstats.go:365 | `sort.Strings` returns a permutation of its input |
| CanonicalKey.InsertSorted | processor/basicstatsprocessor/basicstats.go:365 | inserting a new key into a sorted list keeps it sorted |
| CanonicalKey.SortSorted | processor/basicstatsprocessor/basicstats.go:365 | sorting distinct keys yields a strictly increasing list |
| CanonicalKey.SortedUnique | processor/basicstatsprocessor/basicstats.go:361-365 | two sorted listings of the same keys are equal, so the sorted keys do not depend on map iteration order |
| CanonicalKey.Enumerate | processor/basicstatsprocessor/basicstats.go:361-364 | ranging over a map lists each key exactly once |
| CanonicalKey.CanonicalKeysCharacterized | processor/basicstatsprocessor/basicstats.go:361-365 | the canonical key listing is sorted and lists exactly the map's keys, and it is the only such listing |
| CanonicalKey.Join | processor/basicstatsprocessor/basicstats.go:375 | `strings.Join` of no parts is "" and of one part is that part |
| CanonicalKey.Parts | processor/basicstatsprocessor/basicstats.go:366-373 | one "key:value" part per key, in key order |
| CanonicalKey.CanonicalEmpty | exporter/vmonitorexporter/basicstats2.go:204-220 | an empty map has the key "" |
| CanonicalKey.CanonicalSingleton | exporter/vmonitorexporter/basicstats2.go:204-220 | a one-entry map has the key "k:v" |
| CanonicalKey.CollectKeys | processor/basicstatsprocessor/basicstats.go:361-364 | the range loop collects every key of the map exactly once, in some order |
| CanonicalKey.RenderParts | processor/basicstatsprocessor/basicstats.go:366-373 | the rendering loop yields one "key:value" part per key, in the order given |
| CanonicalKey.MapToString | processor/basicstatsprocessor/basicstats.go:360-376 | `mapToString` (and `mapToString2`) returns the canonical key: the parts in ascending key order joined by "&", whatever order the map yields its keys in |
| BasicStats.WelfordM2Grows | processor/basicstatsprocessor/basicstats.go:222-228 | Welford's M2 update adds a non-negative amount, d² · n · (n + 1) |
| BasicStats.WelfordSums | processor/basicstatsprocessor/basicstats.go:219-228 | Welford's mean and M2 updates keep mean × count = Σx and M2 + mean·Σx = Σx² |
| BasicStats.ObserveMoments | processor/basicstatsprocessor/basicstats.go:212-236 | one update keeps mean × count = sum and M2 + mean·sum = Σx², adds x to sum and 1 to count, and keeps M2 ≥ 0 |
| BasicStats.ObserveBounds | processor/basicstatsprocessor/basicstats.go:229-234 | after an update min and max bound every value seen and are among them, and LAST is the new value |
| BasicStats.ObserveSummarises | processor/basicstatsprocessor/basicstats.go:212-248 | an entry that summarises xs summarises xs + [x] after one update |
| BasicStats.Quotients | processor/basicstatsprocessor/basicstats.go:219-228 | mean × n = s and M2 + mean·s = q give mean = s / n and M2 = q − s²/n |
| BasicStats.SummaryAsQuotients | processor/basicstatsprocessor/basicstats.go:212-248 | a summarising entry has mean = Σx / n and M2 = Σx² − (Σx)²/n |
| BasicStats.FirstSummarises | processor/basicstatsprocessor/basicstats.go:177-188 | the entry stored for a first value summarises that one value |
| BasicStats.FromSamples | processor/basicstatsprocessor/basicstats.go:168-251 | the entry built from a series of values has count ≥ 1 |
| BasicStats.FromSamplesSummarises | processor/basicstatsprocessor/basicstats.go:168-251 | for any values, the incrementally built entry holds their exact count, sum and mean, their sum of squared deviations (never negative), their min and max, and the latest value |
| BasicStats.VarianceExample | processor/basicstatsprocessor/basicstats.go:55-76 | Example check, not a general property: for 2, 4, 4, 4, 5, 5, 7, 9: mean 5, s2 = 32/7, stdev = √(32/7), min 2, max 9 |
| BasicStats.DiffIntervalRate | processor/basicstatsprocessor/basicstats.go:237-246 | each update sets diff = value − LAST and interval = t − TIME; the rate times the interval in seconds is the diff when the time moved, and the old rate is kept otherwise |
| BasicStats.PushValueValidity | processor/basicstatsprocessor/basicstats.go:55-90 | count, min, max, mean and sum are always valid; s2, stdev, diff, rate and interval exactly when count > 1; the non-negative two also need diff ≥ 0; unknown names give (0, false) |
| BasicStats.S2IsSampleVariance | processor/basicstatsprocessor/basicstats.go:67-71 | s2 is the sample variance (Σx² − (Σx)²/n)/(n − 1) of the values seen, and never negative |
| BasicStats.AddFirst | processor/basicstatsprocessor/basicstats.go:170-209 | the first value of a key stores count 1, min = max = mean = sum = value, diff = rate = M2 = 0, LAST = value, TIME = t |
| BasicStats.AddLater | processor/basicstatsprocessor/basicstats.go:212-248 | a later value adds 1 to count and the value to sum, and widens min/max to include it |
| BasicStats.AddUnconvertible | processor/basicstatsprocessor/basicstats.go:170-193 | a value `convert` refuses changes no entry and creates none, though a new name still gets its empty aggregate |
| BasicStats.AddFrame | processor/basicstatsprocessor/basicstats.go:168-251 | `AddToCache` changes only the entry of its own (name, key) |
| BasicStats.AddKeepsEntries | processor/basicstatsprocessor/basicstats.go:168-251 | no entry disappears, and a convertible value always leaves an entry under its name and key |
| BasicStats.ObserveValid | processor/basicstatsprocessor/basicstats.go:212-248 | an update keeps count ≥ 1, M2 ≥ 0 and min ≤ max |
| BasicStats.AddToCacheValid | processor/basicstatsprocessor/basicstats.go:168-251 | `AddToCache` keeps every entry valid |
| BasicStatsProcessor.AddPoint | processor/basicstatsprocessor/basicstats.go:143-151 | adding a point keeps the cache valid |
| BasicStatsProcessor.AddAllAppend | processor/basicstatsprocessor/basicstats.go:111-138 | adding two runs of metrics one after the other is adding their concatenation |
| BasicStatsProcessor.AddPointsKeeps | processor/basicstatsprocessor/basicstats.go:140-167 | no entry leaves the cache while points are added |
| BasicStatsProcessor.AddPointsCovers | processor/basicstatsprocessor/basicstats.go:140-167 | after a metric is added, every point with a value has an entry under the metric's name and its own key |
| BasicStatsProcessor.Kept | processor/basicstatsprocessor/basicstats.go:316-341 | a point contributes at most itself to the pushed metric |
| BasicStatsProcessor.PushPointOutcome | processor/basicstatsprocessor/basicstats.go:316-341 | a point without an entry is left as it is; a point with one carries the statistic when it is valid and is removed otherwise; attributes and timestamp are kept |
| BasicStatsProcessor.PushPointsShape | processor/basicstatsprocessor/basicstats.go:316-341 | `Push` adds no point: every output point is the outcome of an input point |
| BasicStatsProcessor.AlwaysValidDropsNothing | processor/basicstatsprocessor/basicstats.go:57-66 | count, min, max, mean and sum drop no point |
| BasicStatsProcessor.UnknownStatKeepsOnlyUncached | processor/basicstatsprocessor/basicstats.go:87-88 | an unknown statistic removes every point that has an entry and keeps the others as they are |
| BasicStatsProcessor.ProcessLength | processor/basicstatsprocessor/basicstats.go:92-109 | `processMetrics` emits one copy of the batch per configured statistic, then the originals last unless `dropOriginal` |
| BasicStatsProcessor.Processor.constructor | processor/basicstatsprocessor/basicstats.go:28-33 | a new processor has an empty cache and the given statistics and drop flag |
| BasicStatsProcessor.Processor.AddToCache | processor/basicstatsprocessor/basicstats.go:168-251 | the cache after the call is `AddToCacheStep` of the old cache, and stays valid |
| BasicStatsProcessor.Processor.Accumulate | processor/basicstatsprocessor/basicstats.go:140-167 | `accumulateGauge`/`accumulateSum` add every point of the metric, in order, under `mapToString` of its attributes |
| BasicStatsProcessor.Processor.AddMetrics | processor/basicstatsprocessor/basicstats.go:118-135 | the metrics of one scope are added in order; types other than gauge and sum are skipped |
| BasicStatsProcessor.Processor.AddScopes | processor/basicstatsprocessor/basicstats.go:115-136 | the scopes of one resource are added in order |
| BasicStatsProcessor.Processor.AddMetric | processor/basicstatsprocessor/basicstats.go:111-138 | every gauge and sum metric of the batch is added, in resource/scope/metric order |
| BasicStatsProcessor.Processor.PushMetricPoints | processor/basicstatsprocessor/basicstats.go:316-341 | the in-place walk with `i--` after a removal yields exactly the pushed points, skipping none |
| BasicStatsProcessor.Processor.PushMetrics | processor/basicstatsprocessor/basicstats.go:264-283 | each metric of a scope is renamed name + "_" + stat and its points pushed when it is a gauge or a sum |
| BasicStatsProcessor.Processor.PushScopes | processor/basicstatsprocessor/basicstats.go:261-284 | each scope of a resource is pushed |
| BasicStatsProcessor.Processor.Push | processor/basicstatsprocessor/basicstats.go:253-287 | `Push` returns the copy of the batch with every metric renamed and every gauge and sum pushed |
| BasicStatsProcessor.Processor.ProcessMetrics | processor/basicstatsprocessor/basicstats.go:92-109 | the batch is added to the cache, then one pushed copy per configured statistic in order, then the originals unless dropped |
| BasicStatsProcessor.Processor.Reset | processor/basicstatsprocessor/basicstats.go:343-345 | `Reset` empties the cache |
| BasicStatsProcessor.NewProcessor | processor/basicstatsprocessor/basicstats.go:24-34 | an invalid configuration gives an error and no processor; a valid one gives a fresh processor with an empty cache and the filtered statistics |
| ProcessorConfig.KeepAllowed | processor/basicstatsprocessor/config.go:21-29 | the filter keeps only allowed names and never lengthens the list |
| ProcessorConfig.KeepAllowedIdempotent | processor/basicstatsprocessor/config.go:20-35 | filtering twice is filtering once |
| ProcessorConfig.AllAllowedKept | processor/basicstatsprocessor/config.go:23-29 | a list of allowed names passes unchanged |
| ProcessorConfig.KeepAllowedCounts | processor/basicstatsprocessor/config.go:23-29 | each allowed name is kept as often as it occurs, in order, and the others never |
| ProcessorConfig.Config.Validate | processor/basicstatsprocessor/config.go:20-35 | with no allowed name left it reports "no stats config" and leaves `Stats` unchanged; otherwise `Stats` becomes the filtered list and it returns nil |
| ProcessorConfig.ValidateTwice | processor/basicstatsprocessor/config.go:20-35 | after a successful `Validate`, `Stats` is non-empty and all allowed, and a second `Validate` succeeds and keeps it |
| ExporterConfig.SanitizeAll | exporter/vmonitorexporter/config.go:62-64 | each dimension key is sanitized in place, keeping length and order |
| ExporterConfig.OrDefault | exporter/vmonitorexporter/config.go:53-60 | an empty value takes the default; any other is kept |
| ExporterConfig.SanitizeAllIdempotent | exporter/vmonitorexporter/config.go:62-64 | with an idempotent sanitizer, sanitizing the keys twice is sanitizing them once |
| ExporterConfig.Config.Validate | exporter/vmonitorexporter/config.go:48-66 | empty credentials give an error before any field changes; otherwise the endpoint and IAM URL take their defaults when empty, the dimension keys are sanitized in place, the value keys are untouched and it returns nil |
| ExporterConfig.ValidateEmptyCredentials | exporter/vmonitorexporter/config.go:49-51 | a configuration with empty credentials is refused |
| ExporterConfig.ValidateTwice | exporter/vmonitorexporter/config.go:48-66 | two `Validate` calls agree; after a successful one the endpoints are non-empty and the keys are sanitized once |
| SqlConfig.ValidateLogsCfg | receiver/sqlqueryreceiver/config.go:68-74 | `LogsCfg.Validate` fails exactly when `BodyColumn` is empty |
| SqlConfig.LogsErrorsSpec | receiver/sqlqueryreceiver/config.go:56-60 | the log configurations report no error exactly when each names its body column, and report nothing but missing body columns |
| SqlConfig.QueryValidIff | receiver/sqlqueryreceiver/config.go:48-62 | `Query.Validate` fails exactly when `SQL` is empty, `Logs` is empty, or some log configuration is invalid |
| SqlConfig.QueryErrorsOrder | receiver/sqlqueryreceiver/config.go:48-62 | a query's errors come in order: missing SQL first, then missing logs, then the log configurations' own |
| SqlConfig.LogsErrorsBound | receiver/sqlqueryreceiver/config.go:56-60 | at most one error per log configuration |
| SqlConfig.FirstErrorsSpec | receiver/sqlqueryreceiver/config.go:35-40 | the loop over the queries reports nothing exactly when no query fails, and otherwise the errors of the first failing query |
| SqlConfig.ConfigValidOrder | receiver/sqlqueryreceiver/config.go:25-41 | `Config.Validate` checks the driver, then the data source, then the presence of queries, then each query; it returns nil exactly when all pass |
| SqlConfig.ValidateQuery | receiver/sqlqueryreceiver/config.go:48-62 | the loop collects exactly the query's errors, in order |
| SqlConfig.ValidateConfig | receiver/sqlqueryreceiver/config.go:25-41 | the checks return exactly the configuration's first error, or none |
| DigestCache.DistinctCard | receiver/sqlqueryreceiver/logs_receiver.go:568-582 | a list without repeats has as many distinct keys as entries |
| DigestCache.SizeIsOrderLength | receiver/sqlqueryreceiver/logs_receiver.go:568-582 | in a consistent cache the order list is as long as the map |
| DigestCache.AddDigestStores | receiver/sqlqueryreceiver/logs_receiver.go:568-582 | after `AddDigest(k, v)` the map holds v at k and k is the newest in `order`; a full cache first evicts the front key of `order` |
| DigestCache.AddDigestConsistent | receiver/sqlqueryreceiver/logs_receiver.go:568-582 | adding a digest that is not cached keeps `order` listing exactly the map's keys, each once, and the size at most `maxSize` |
| DigestCache.EvictConsistent | receiver/sqlqueryreceiver/logs_receiver.go:569-577 | evicting the oldest key of a full cache leaves a consistent cache with room for one more |
| DigestCache.AppendConsistent | receiver/sqlqueryreceiver/logs_receiver.go:579-581 | adding a new key to a cache with room keeps it consistent |
| DigestCache.ReAddOverflows | receiver/sqlqueryreceiver/logs_receiver.go:568-582 | re-adding a cached key lists it twice in `order`, and the later eviction of that stale entry lets the map grow past `maxSize` |
| DigestCache.DigestTracker.constructor | receiver/sqlqueryreceiver/logs_receiver.go:376 | the tracker starts empty with room for 100 digests, and consistent |
| DigestCache.DigestTracker.AddDigest | receiver/sqlqueryreceiver/logs_receiver.go:568-582 | the map and order list after the call are `AddDigestStep` of the old ones; a key that was not cached keeps the cache consistent |
| DigestCache.DigestTracker.Lookup | receiver/sqlqueryreceiver/logs_receiver.go:439-441 | the lookup finds exactly the cached digests, with their stored value |
| Serializer.PointValueOf | exporter/vmonitorexporter/metrics_serializer.go:113-118 | a double point carries its value, an int point its value as a number, and a point with no value keeps the record's default 0 |
| Serializer.Millis | exporter/vmonitorexporter/metrics_serializer.go:111 | for a non-negative time the result is the whole number of milliseconds in it, rounded down |
| Serializer.TargetsAppend | exporter/vmonitorexporter/metrics_serializer.go:40-59 | the records of two metric lists in a row are those of the first followed by those of the second |
| Serializer.TargetsCount | exporter/vmonitorexporter/metrics_serializer.go:75-92 | there is one record per data point of each named gauge or sum, and none for unnamed metrics or other types |
| Serializer.SerializesAppend | exporter/vmonitorexporter/metrics_serializer.go:56-58 | records that match two point lists, appended, match the appended point lists |
| Serializer.SerializesExtend | exporter/vmonitorexporter/metrics_serializer.go:52-59 | appending one metric's records to the records of the metrics before it gives the records of the longer list |
| Serializer.DimensionKeys | exporter/vmonitorexporter/metrics_serializer.go:102-108 | the dimension names built from the attributes are exactly their sanitized names |
| Serializer.DimensionsDeterministic | exporter/vmonitorexporter/metrics_serializer.go:102-108 | when no two attribute names sanitize to the same name, every visiting order of the attribute map gives the same dimensions |
| Serializer.HostOverrides | exporter/vmonitorexporter/metrics_serializer.go:109 | "host" is always the serializer's host name, even when an attribute sanitizes to "host", and the other dimensions all come from attributes |
| Serializer.MetricsSerializer.constructor | exporter/vmonitorexporter/metrics_serializer.go:19-24 | the serializer keeps the host name it is given |
| Serializer.MetricsSerializer.Dimensions | exporter/vmonitorexporter/metrics_serializer.go:102-108 | every attribute contributes its sanitized name, and each dimension holds the sanitized value of some attribute with that name |
| Serializer.MetricsSerializer.Accumulate | exporter/vmonitorexporter/metrics_serializer.go:95-153 | one record per point, in order: the given name, the point's value, its time in milliseconds, no value metadata, its attributes as dimensions and "host" set to the host name |
| Serializer.MetricsSerializer.AddMetric | exporter/vmonitorexporter/metrics_serializer.go:66-93 | an unnamed metric is an error with no records; otherwise there is no error, and a gauge or sum gives its points' records under the sanitized name while any other type gives none |
| Serializer.MetricsSerializer.SerializeMetrics | exporter/vmonitorexporter/metrics_serializer.go:52-59 | the records of one scope's metrics, in order |
| Serializer.MetricsSerializer.SerializeScopes | exporter/vmonitorexporter/metrics_serializer.go:48-60 | the records of one resource's scopes, in order |
| Serializer.MetricsSerializer.Serialize | exporter/vmonitorexporter/metrics_serializer.go:26-64 | the records of every point of every named gauge or sum, in resource, scope, metric and point order, with per-metric errors dropped |
| Metric.NewMetric | exporter/vmonitorexporter/metric.go:37-41 | a new record has an empty name, empty dimensions and value metadata, and zero value and timestamp |
| Metric.SkipRun | exporter/vmonitorexporter/metric.go:22 | skipping a run of blacklisted characters never lengthens the string |
| Metric.SkipRunSuffix | exporter/vmonitorexporter/metric.go:22 | what a maximal blacklisted run leaves is a suffix that starts, if at all, with a whitelisted character, and everything skipped was blacklisted |
| Metric.CollapseShape | exporter/vmonitorexporter/metric.go:79 | replacing the blacklisted runs never lengthens the string, leaves only whitelisted characters, leaves a non-empty string non-empty and keeps a whitelisted first character |
| Metric.CollapseClean | exporter/vmonitorexporter/metric.go:79 | a string of whitelisted characters is left unchanged |
| Metric.CollapseIdempotent | exporter/vmonitorexporter/metric.go:79 | replacing the blacklisted runs twice is the same as doing it once |
| Metric.CollapseCleanPrefix | exporter/vmonitorexporter/metric.go:79 | whitelisted characters in front are copied unchanged |
| Metric.CollapseRunPrefix | exporter/vmonitorexporter/metric.go:22 | a whole blacklisted run in front becomes a single "_" (the `+` of the blacklist regex) |
| Metric.CollapseTrailingRun | exporter/vmonitorexporter/metric.go:22 | a blacklisted run after whitelisted characters becomes a single trailing "_" |
| Metric.CollapseExamples | exporter/vmonitorexporter/metric.go:18-22 | Example check, not a general property: two blacklisted characters in a row give one "_"; '/' is whitelisted for metric names and not for dimension names |
| Metric.CollapseSelectExample | exporter/vmonitorexporter/metric_test.go:26 | Example check, not a general property: the runs " * " and " " of "select * from db" each become one "_" |
| Metric.Truncate | exporter/vmonitorexporter/metric.go:70-72 | the result is the first `min(len, n)` bytes of the string |
| Metric.ValidBounds | exporter/vmonitorexporter/metric.go:66-80 | `valid` refuses exactly the strings shorter than the minimum and returns them unchanged; every accepted result is non-empty and no longer than the maximum |
| Metric.ValidKeepsMatching | exporter/vmonitorexporter/metric.go:73-75 | a string that matches the pattern after truncation is returned truncated and accepted |
| Metric.ValidForMatches | exporter/vmonitorexporter/metric.go:66-80 | with the blacklist taken from the pattern, every accepted result matches the pattern |
| Metric.ValidMetricName | exporter/vmonitorexporter/metric.go:18-22 | for metric names the blacklist is the pattern's own, so every accepted metric name matches `IsMetricName` |
| Metric.DimensionNameSlashSurvives | exporter/vmonitorexporter/metric.go:17-22 | `valid("a/b", IsDimensionName)` accepts "a/b" unchanged although it does not match `IsDimensionName`; the corrected version gives "a_b" |
| Metric.ValidRewrites | exporter/vmonitorexporter/metric.go:76-79 | a string within the bounds that does not match gets "_" for a refused first character and its blacklisted runs collapsed |
| Metric.ValidTrailingRun | exporter/vmonitorexporter/metric.go:76-79 | a name followed by one blacklisted run comes back with the run replaced by one "_" |
| Metric.ValidTrailingExamples | exporter/vmonitorexporter/metric_test.go:18-20 | Example check, not a general property: "cpu<" and "cpu<<" give "cpu_", and "cpu<a<" gives "cpu_a_", all accepted |
| Metric.ValidRewritesLead | exporter/vmonitorexporter/metric.go:76-79 | a string with a letter in front and a refused character later is collapsed as it is |
| Metric.ValidLeadingExamples | exporter/vmonitorexporter/metric_test.go:21-25 | Example check, not a general property: "<cpu<" gives "_cpu_", and "0cpu", "5cpu", "-cpu" and ".cpu" give "_cpu", all accepted |
| Metric.ValidSelectExample | exporter/vmonitorexporter/metric_test.go:26 | Example check, not a general property: "select * from db" gives "select_from_db", accepted |
| Metric.ValidDimensionValueProperties | exporter/vmonitorexporter/metric.go:82-87 | a sanitized value is no longer than the maximum, holds only whitelisted characters, is non-empty for a non-empty input, and sanitizing it again changes nothing |
| Metric.ValidDimensionValueExample | exporter/vmonitorexporter/metric.go:82-87 | Example check, not a general property: a value may start with a digit ("0cpu" is kept), and a blacklisted run still becomes one "_" |
| LogsExporter.AnyToFloat64 | exporter/vmonitorexporter/logs_exporter.go:192-218 | Go ints and floats convert to their value and a bool to 1 or 0, a string to its parsed value; a string that does not parse is an error with -2, and every other type an error with -1 |
| LogsExporter.AnyToFloat64Examples | exporter/vmonitorexporter/logs_exporter_test.go:21-31 | Example check, not a general property: the conversion test's non-string cases: 1, 2, 3, 4.5, 5 and true convert, and nil gives -1 with an error (uint64 too) |
| LogsExporter.DimensionValue | exporter/vmonitorexporter/logs_exporter.go:139-142 | a dimension value is never empty: an empty sanitized value becomes "N/A" |
| LogsExporter.DimensionsOfKeys | exporter/vmonitorexporter/logs_exporter.go:138-144 | the dimensions hold exactly the configured dimension keys, each with its sanitized value or "N/A", and none is empty |
| LogsExporter.OneKeyOutcome | exporter/vmonitorexporter/logs_exporter.go:125-155 | a value key whose value does not convert emits nothing and leaves the cache alone; one that converts emits at most one metric "annd2_<key>_diff" with a non-negative diff, every dimension key, the host, the time in milliseconds and no value metadata |
| LogsExporter.OneKeyFrame | exporter/vmonitorexporter/logs_exporter.go:145 | one value key changes only the cache entries under its own name |
| LogsExporter.Log2MetricShape | exporter/vmonitorexporter/logs_exporter.go:122-158 | `log2metric` emits at most one metric per value key, each with a non-negative value, the host, and a name made from one of the value keys |
| LogsExporter.Log2MetricFrame | exporter/vmonitorexporter/logs_exporter.go:122-158 | only the cache entries under the processed value keys change |
| LogsExporter.FirstLogEmitsNothing | exporter/vmonitorexporter/logs_exporter.go:145-151 | the first log seen by a fresh exporter emits nothing when its value keys are distinct, since every (value key, dimensions) pair is new |
| LogsExporter.FirstKeyEmitsNothing | exporter/vmonitorexporter/logs_exporter.go:145-151 | a value key not yet in the cache emits nothing |
| LogsExporter.RepeatedKeyEmitsZero | exporter/vmonitorexporter/logs_exporter.go:125-155 | a value key listed twice is fed twice for one log, and the second time it emits a diff of 0 |
| LogsExporter.Log2MetricPair | exporter/vmonitorexporter/logs_exporter.go:125 | over two value keys, the second sees the cache the first left, and their metrics come in order |
| LogsExporter.SameValueEmitsZero | exporter/vmonitorexporter/logs_exporter.go:145-155 | a value equal to the entry's last one emits a diff of 0 |
| LogsExporter.ConvertAllAppend | exporter/vmonitorexporter/logs_exporter.go:96-113 | converting two runs of log records is converting the first, then the second from the cache and buffer the first left |
| LogsExporter.ConvertAllBounded | exporter/vmonitorexporter/logs_exporter.go:116-120 | the buffer never holds more than its capacity |
| LogsExporter.VMonitorLogsExporter.constructor | exporter/vmonitorexporter/logs_exporter.go:78-86 | the exporter keeps its output, buffer, batch size (any integer, unchecked as in the source), diff cache and settings, with the buffer valid and the objects distinct |
| LogsExporter.VMonitorLogsExporter.Dimensions | exporter/vmonitorexporter/logs_exporter.go:138-144 | the dimension loop builds the dimensions of the configured keys, in order |
| LogsExporter.VMonitorLogsExporter.Log2Metric | exporter/vmonitorexporter/logs_exporter.go:122-158 | the new diff cache and the emitted metrics are those of `Log2MetricSpec`, one value key at a time |
| LogsExporter.VMonitorLogsExporter.WriteToBuffer | exporter/vmonitorexporter/logs_exporter.go:116-120 | the buffer holds the newest records, up to its capacity, of the old records followed by the new metrics |
| LogsExporter.VMonitorLogsExporter.ConvertRecords | exporter/vmonitorexporter/logs_exporter.go:104-110 | one scope's log records go through `log2metric` and into the buffer in order |
| LogsExporter.VMonitorLogsExporter.ConvertScopes | exporter/vmonitorexporter/logs_exporter.go:101-111 | one resource's scopes go through `log2metric` and into the buffer in order |
| LogsExporter.VMonitorLogsExporter.ConvertLogs | exporter/vmonitorexporter/logs_exporter.go:97-112 | every log record of the batch goes through `log2metric` and into the buffer in order |
| LogsExporter.VMonitorLogsExporter.PushLogsData | exporter/vmonitorexporter/logs_exporter.go:96-114 | after converting every log record, the buffer is drained: the delivery state, the buffer and the error are those of `DrainSpec` on the converted buffer |
| SqlHelpers.ReplaceQuotes | receiver/sqlqueryreceiver/logs_receiver.go:544 | each single quote becomes a double quote and every other character stays where it was |
| SqlHelpers.CommentEnd | receiver/sqlqueryreceiver/logs_receiver.go:35 | a comment close that is found is a star-slash at or after the start (the lazy `.*?` stops at the first one) |
| SqlHelpers.TrimLeft | receiver/sqlqueryreceiver/logs_receiver.go:548 | what is left is a suffix that does not start with white space, and everything removed was white space |
| SqlHelpers.TrimRight | receiver/sqlqueryreceiver/logs_receiver.go:548 | what is left is a prefix that does not end with white space, and everything removed was white space |
| SqlHelpers.StripCommentsSubsequence | receiver/sqlqueryreceiver/logs_receiver.go:546 | removing comments never lengthens the query and adds no character |
| SqlHelpers.NoSlashUnchanged | receiver/sqlqueryreceiver/logs_receiver.go:35 | text without a '/' has no comment to remove |
| SqlHelpers.CommentRemoved | receiver/sqlqueryreceiver/logs_receiver.go:35 | a comment closed on its own line is removed whole, and the scan goes on after it |
| SqlHelpers.CommentEndAt | receiver/sqlqueryreceiver/logs_receiver.go:35 | the close found is the first star-slash after the opening, when no newline comes before it |
| SqlHelpers.CommentOverNewlineKept | receiver/sqlqueryreceiver/logs_receiver.go:35 | a comment that runs over a newline is no match (`.` does not match a newline): its opening stays and the scan goes on at the next character |
| SqlHelpers.NoCloseBeforeNewline | receiver/sqlqueryreceiver/logs_receiver.go:35 | with a newline before any close, no close is found |
| SqlHelpers.QuotesReplaced | receiver/sqlqueryreceiver/logs_receiver.go:542-561 | the cleaned query has no single quote |
| SqlHelpers.TrimKeepsOnly | receiver/sqlqueryreceiver/logs_receiver.go:548 | trimming adds no character |
| SqlHelpers.Trimmed | receiver/sqlqueryreceiver/logs_receiver.go:542-561 | the cleaned query neither starts nor ends with white space |
| SqlHelpers.RefusedIff | receiver/sqlqueryreceiver/logs_receiver.go:550-560 | a query is refused exactly when its cleaned text starts, ignoring letter case, with one of set, use, call, show, drop, begin, create or commit |
| SqlHelpers.RefusedHasKeyword | receiver/sqlqueryreceiver/logs_receiver.go:550-557 | a refused query starts with one of the eight keywords |
| SqlHelpers.KeywordRefused | receiver/sqlqueryreceiver/logs_receiver.go:550-557 | a query that starts with one of the eight keywords is refused |
| SqlHelpers.CleanKeepsHead | receiver/sqlqueryreceiver/logs_receiver.go:542-548 | the head of a query up to its first slash or quote survives cleaning when it starts and ends with a character other than white space |
| SqlHelpers.SetRefused | receiver/sqlqueryreceiver/logs_receiver.go:550 | a statement that opens with "SET " is refused whatever follows |
| SqlHelpers.AlreadyClean | receiver/sqlqueryreceiver/logs_receiver.go:542-548 | a query without quotes, slashes or surrounding white space is already clean |
| SqlHelpers.SelectAccepted | receiver/sqlqueryreceiver/logs_receiver.go:542-561 | Example check, not a general property: "select 1" comes back unchanged and may be explained |
| SqlHelpers.SelectNotRefused | receiver/sqlqueryreceiver/logs_receiver.go:550-557 | Example check, not a general property: "select 1" starts with none of the eight keywords |
| SqlHelpers.LeadingCommentIgnored | receiver/sqlqueryreceiver/logs_receiver.go:542-561 | a leading comment closed on its own line changes nothing: the query behind it is cleaned and judged as if it stood alone |
| SqlHelpers.QuoteEnd | receiver/sqlqueryreceiver/logs_receiver.go:36 | a closing quote that is found is a '"' at or after the start of the value |
| SqlHelpers.ValueBlanked | receiver/sqlqueryreceiver/logs_receiver.go:563-566 | a value on one line is blanked and the scan goes on after it |
| SqlHelpers.ConditionBlanked | receiver/sqlqueryreceiver/logs_receiver.go:563-566 | `refactorExplainResult` blanks a one-line attached condition and goes on after it |
| SqlHelpers.NoMatchInside | receiver/sqlqueryreceiver/logs_receiver.go:36 | when the fixed part has no closing quote on its line, no match starts inside that line |
| SqlHelpers.BlankValuesIdempotent | receiver/sqlqueryreceiver/logs_receiver.go:36 | for a fixed part shaped like the source's, blanking twice is blanking once |
| SqlHelpers.RefactorExplainResultIdempotent | receiver/sqlqueryreceiver/logs_receiver.go:563-566 | `refactorExplainResult` applied twice is the same as applied once |
| SqlHelpers.HexEncode | receiver/sqlqueryreceiver/logs_receiver.go:594 | two lower-case hex digits per byte, high nibble first |
| SqlHelpers.HashShape | receiver/sqlqueryreceiver/logs_receiver.go:584-601 | the digest text is always 16 lower-case hex digits: the hex of the first eight bytes of the hash |
| MetricsExporter.VMonitorMetricsExporter.constructor | exporter/vmonitorexporter/metrics_exporter.go:74-80 | the exporter keeps its output, buffer, batch size (any integer, unchecked as in the source) and serializer, with the buffer valid and apart from the output |
| ExporterConfig.Config.constructor | exporter/vmonitorexporter/config.go:18-38 | the configuration holds the endpoint, credentials, IAM URL and the logs-to-metrics dimension and value keys it is given |
| ProcessorConfig.Config.constructor | processor/basicstatsprocessor/config.go:13-16 | the configuration holds the drop-original flag and the stats list it is given |

## Left out

- The network side of `output.go`: the OAuth2 client-credentials token fetch, building and sending the HTTP request, gzip compression of the body (a goroutine over a pipe), JSON encoding of batches and decoding of quota bodies, `getIP` and `getHostInfo`. What each exchange answers, and whether re-initialising the client works, is an oracle input.
- The clock: `time.Now` is an integer in nanoseconds. In a `WriteBatch` call the oracle carries one reading per `time.Now()`: `now` for the back-off gate, and `preQuotaAt`, `postAt` and `retryQuotaAt` for the instants the pre-send quota check, the POST and the 428 quota check are answered; readings are not required to be increasing. The sleep of `flushInterval` seconds between drained batches is not modelled; time passing shows only in the clocks the oracles carry.
- Logging (`logrus`, `fmt.Println`) changes nothing observable and is not modelled.
- `aggMutex` and all other locking: every operation here runs sequentially.
- `float64` arithmetic: statistics are reals, so rounding, overflow to infinity and NaN are not modelled. `math.Sqrt`, `strconv.ParseFloat` and `%v` formatting are function parameters whose results are taken as given.
- The `Buffer` implementation is not part of this model. Its contract comes from `buffer_test.go` and the call sites.
- MetricBuffer.Buffer.Batch: a batch size that is not positive is taken to give an empty batch; the tests pin only `Batch(0)`, and what the buffer does with a negative size is not visible. A negative `MetricBatchSize` reaches `Batch` only when the buffer holds fewer records than its magnitude. When the buffer overflows, the oldest records are dropped (`KeepNewest`); the tests pin only the lengths, not which records go.
- `SanitizeMetricName`, `SanitizeDimensionName` and `SanitizeDimensionValue` are not part of this model. Each is a function parameter, and the error result they return (ignored at every call site) is dropped.
- `MinCharMetricName` and `MaxCharMetricName` are not part of this model. They are the parameters `minChars` and `maxChars` (at least 1) of `ValidName`.
- `Metric.Sanitize`: it deletes and inserts map keys while ranging over the same map, so its result depends on Go's iteration order, and its only call is commented out. `valid` and `validDimensionValue`, which it calls, are modelled.
- Serializer.MetricsSerializer.AddMetric: the sanitized name is not written back into the input metric (`SetName`); the model returns the records only, since nothing downstream reads the renamed input.
- The bytes of a string: `metric.go`'s regexes and lengths are modelled one character per byte, and `refactorQuery`'s `strings.TrimSpace` on characters. UTF-8 decoding is not modelled.
- `strings.EqualFold` is modelled as ASCII case folding. This loses nothing: the query is cut by bytes before the comparison, so a prefix holding a non-ASCII character has fewer characters than the keyword and never matches.
- The regular expressions are modelled as left-to-right scans that take the leftmost, shortest match, which is what Go's `ReplaceAllString` does for these lazy patterns.
- SHA-256 in `hashTo16Bytes` is the parameter `sha256`; only the shape of the result is modelled.
- `any` values: the EXPLAIN results in the digest cache are strings; the attribute values of logs and points are the `GoValue` datatype, covering the Go types the conversions distinguish.
- BasicStats2.ProcessValue's `(-1, false)` branch after `convert2` is not modelled: the argument is a `float64`, so `convert2` always succeeds there.
- The database and polling code of the SQL receiver (`Start`, `collect`, `checkRequirement`, `sqlRowsToStringMap`, the ticker and shutdown), the SQL obfuscator, `rowToLog`, `db_wrappers.go` and `receiver.go` do I/O or run concurrently.
- The HTTP and SOCKS5 proxy wrappers, both `factory.go` files, the component registry and the benchmark, setup, sql-lexer and notify scripts are plumbing or standalone programs outside the pipeline.

## Findings

| source | as written | input that shows it | evidently intended | confidence | as-written member | corrected member |
|---|---|---|---|---|---|---|
| exporter/vmonitorexporter/metric.go:66-80 | `valid` rewrites a non-matching string with the metric-name blacklist `IsBlackListChar` whatever the pattern, so '/' is kept even for dimension names | `valid("a/b", IsDimensionName)` returns ("a/b", true), which does not match `IsDimensionName` | an accepted result matches the pattern it was validated against, so "a/b" becomes "a_b" | medium, not executed | Metric.DimensionNameSlashSurvives | Metric.ValidForMatches |
