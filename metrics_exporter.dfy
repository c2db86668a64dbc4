/** exporter/vmonitorexporter/metrics_exporter.go: every incoming metric
    batch is serialized into records, added to the buffer (oldest records
    dropped beyond its capacity) and the buffer is drained through the
    delivery engine. */
module MetricsExporter {
  import opened Common
  import opened Metric
  import opened Pdata
  import opened MetricBuffer
  import opened Delivery
  import opened Drain
  import opened Serializer

  class VMonitorMetricsExporter {
    const output: VMonitorOutput
    const buf: Buffer
    const batchSize: int
    const serializer: MetricsSerializer

    ghost predicate Inv()
      reads this, buf
    {
      buf.Valid() && output as object != buf
    }

    constructor (output: VMonitorOutput, buf: Buffer, batchSize: int, serializer: MetricsSerializer)
      requires buf.Valid() && output as object != buf
      ensures this.output == output && this.buf == buf && this.batchSize == batchSize
      ensures this.serializer == serializer && Inv()
    {
      this.output := output;
      this.buf := buf;
      this.batchSize := batchSize;
      this.serializer := serializer;
    }

    /** `pushMetricsData`: the records of `md` (as `Serialize` relates them
        to its data points, returned in `serialized`) are added to the
        buffer, which is then drained; `os` answers the writes of the drain. */
    method PushMetricsData(md: Metrics, os: seq<Oracle>) returns (err: Option<DrainError>, ghost serialized: seq<Record>)
      requires Inv() && |os| >= Batches(buf.capacity, batchSize)
      modifies buf, output
      ensures Inv()
      ensures Serializes(serialized, Targets(AllMetrics(md), serializer.san), serializer.hostname,
                         serializer.san, serializer.show)
      ensures var buffered := KeepNewest(old(buf.records) + serialized, buf.capacity);
              |os| >= Batches(|buffered|, batchSize)
              && var r := DrainSpec(old(output.State()), buffered, batchSize, os);
                 output.State() == r.state && buf.records == r.records && err == r.err
    {
      var metrics := serializer.Serialize(md);
      serialized := metrics;
      buf.Add(metrics);
      BatchesMonotone(|buf.records|, buf.capacity, batchSize);
      err := DrainBuffer(buf, output, batchSize, os);
    }
  }
}
