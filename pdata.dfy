/** The part of the collector's `pmetric` data model that the processor and
    the serializer read: resources hold scopes, scopes hold metrics, a
    metric has a name, a type and number data points. Resource and scope
    attributes, histograms and summaries carry nothing these components
    use. Timestamps are Unix nanoseconds. */
module Pdata {
  import opened Common

  /** `NumberDataPoint.ValueType()`: int, double, or empty. */
  datatype PointValue = IntValue(i: int) | DoubleValue(d: real) | Empty

  datatype DataPoint = DataPoint(attributes: map<string, GoValue>, value: PointValue, time: int)

  /** `Metric.Type()`: the two kinds handled here and every other kind. */
  datatype MetricKind = Gauge | Sum | OtherKind

  datatype MetricData = MetricData(name: string, kind: MetricKind, points: seq<DataPoint>)

  datatype ScopeMetrics = ScopeMetrics(metrics: seq<MetricData>)

  datatype ResourceMetrics = ResourceMetrics(scopes: seq<ScopeMetrics>)

  /** `pmetric.Metrics`: its resource metrics in order. */
  type Metrics = seq<ResourceMetrics>

  /** All metrics of `md`, in resource/scope/metric order. */
  function AllMetrics(md: Metrics): seq<MetricData>
  {
    if md == [] then [] else AllMetrics(md[..|md| - 1]) + ScopeMetricsOf(md[|md| - 1].scopes)
  }

  function ScopeMetricsOf(scopes: seq<ScopeMetrics>): seq<MetricData>
  {
    if scopes == [] then [] else ScopeMetricsOf(scopes[..|scopes| - 1]) + scopes[|scopes| - 1].metrics
  }
}
