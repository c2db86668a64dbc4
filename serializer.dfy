/** exporter/vmonitorexporter/metrics_serializer.go: one `Metric` record per
    gauge or sum data point, in resource/scope/metric/point order. The
    metric name goes through `SanitizeMetricName`, each attribute through
    `SanitizeDimensionName` / `SanitizeDimensionValue` of its `%v` text,
    "host" is then set to the serializer's host name, and the timestamp is
    in milliseconds.

    The attributes are visited in Go's map order, which is not fixed: when
    two attribute names sanitize to the same dimension name, which value
    survives depends on that order. The records are therefore specified by
    a relation that every visiting order satisfies, and it pins the record
    down when the sanitized names are distinct. */
module Serializer {
  import opened Common
  import opened Pdata
  import opened Metric

  /** The value a point carries: an empty point keeps `NewMetric`'s 0. */
  function PointValueOf(v: PointValue): (r: real)
    ensures v.DoubleValue? ==> r == v.d
    ensures v.IntValue? ==> r == v.i as real
    ensures v.Empty? ==> r == 0.0
  {
    match v
    case DoubleValue(d) => d
    case IntValue(i) => i as real
    case Empty => 0.0
  }

  /** Nanoseconds to milliseconds, truncating as Go's int64 division does. */
  function Millis(ns: int): (ms: int)
    ensures ns >= 0 ==> ms * 1_000_000 <= ns < ms * 1_000_000 + 1_000_000
  {
    TruncDiv(ns, 1_000_000)
  }

  /** The dimensions built from the attributes, before "host": every
      attribute name contributes its sanitized name, and every dimension
      holds the sanitized value of some attribute with that sanitized name. */
  ghost predicate DimensionsFrom(attrs: map<string, GoValue>, dims: map<string, string>,
                                 san: Sanitizers, show: GoValue -> string)
  {
    (forall k | k in attrs :: san.dimensionName(k) in dims)
    && (forall d | d in dims :: exists k | k in attrs ::
          san.dimensionName(k) == d && dims[d] == san.dimensionValue(show(attrs[k])))
  }

  /** The record of one point of the metric whose sanitized name is `name`. */
  ghost predicate RecordOf(r: Record, name: string, p: DataPoint, host: string,
                           san: Sanitizers, show: GoValue -> string)
  {
    r.name == name
    && r.value == PointValueOf(p.value)
    && r.timestamp == Millis(p.time)
    && r.valueMeta == map[]
    && "host" in r.dimensions && r.dimensions["host"] == host
    && exists dims :: DimensionsFrom(p.attributes, dims, san, show) && r.dimensions == dims["host" := host]
  }

  /** A metric the serializer turns into records: named, gauge or sum. */
  predicate Serialized(m: MetricData)
  {
    m.name != [] && !m.kind.OtherKind?
  }

  /** The (sanitized name, point) pairs that become records, in order. */
  function Targets(ms: seq<MetricData>, san: Sanitizers): seq<(string, DataPoint)>
  {
    if ms == [] then []
    else
      var m := ms[|ms| - 1];
      Targets(ms[..|ms| - 1], san)
      + (if Serialized(m) then seq(|m.points|, i requires 0 <= i < |m.points| => (san.metricName(m.name), m.points[i])) else [])
  }

  ghost predicate Serializes(recs: seq<Record>, targets: seq<(string, DataPoint)>, host: string,
                             san: Sanitizers, show: GoValue -> string)
  {
    |recs| == |targets|
    && forall i | 0 <= i < |recs| :: RecordOf(recs[i], targets[i].0, targets[i].1, host, san, show)
  }

  // ---------------------------------------------------------------------
  // Properties

  lemma {:induction false} TargetsAppend(a: seq<MetricData>, b: seq<MetricData>, san: Sanitizers)
    ensures Targets(a + b, san) == Targets(a, san) + Targets(b, san)
    decreases |b|
  {
    if b == [] {
      assert a + b == a;
    } else {
      assert (a + b)[..|a + b| - 1] == a + b[..|b| - 1];
      TargetsAppend(a, b[..|b| - 1], san);
    }
  }

  /** One record per data point of each named gauge or sum; unnamed metrics
      and other types give none. */
  lemma {:induction false} TargetsCount(ms: seq<MetricData>, san: Sanitizers)
    ensures |Targets(ms, san)| == SerializedPoints(ms)
  {
    if ms != [] {
      TargetsCount(ms[..|ms| - 1], san);
    }
  }

  function SerializedPoints(ms: seq<MetricData>): nat
  {
    if ms == [] then 0
    else SerializedPoints(ms[..|ms| - 1]) + (if Serialized(ms[|ms| - 1]) then |ms[|ms| - 1].points| else 0)
  }

  lemma SerializesAppend(a: seq<Record>, t: seq<(string, DataPoint)>, b: seq<Record>, u: seq<(string, DataPoint)>,
                         host: string, san: Sanitizers, show: GoValue -> string)
    requires Serializes(a, t, host, san, show) && Serializes(b, u, host, san, show)
    ensures Serializes(a + b, t + u, host, san, show)
  {
    forall i | 0 <= i < |a + b|
      ensures RecordOf((a + b)[i], (t + u)[i].0, (t + u)[i].1, host, san, show)
    {
      if i >= |a| {
        assert (a + b)[i] == b[i - |a|] && (t + u)[i] == u[i - |a|];
      }
    }
  }

  /** The records of the metrics `b` appended to those of the metrics `a`. */
  lemma SerializesExtend(recs: seq<Record>, part: seq<Record>, a: seq<MetricData>, b: seq<MetricData>,
                         host: string, san: Sanitizers, show: GoValue -> string)
    requires Serializes(recs, Targets(a, san), host, san, show)
    requires Serializes(part, Targets(b, san), host, san, show)
    ensures Serializes(recs + part, Targets(a + b, san), host, san, show)
  {
    TargetsAppend(a, b, san);
    SerializesAppend(recs, Targets(a, san), part, Targets(b, san), host, san, show);
  }

  /** The dimension names are exactly the sanitized attribute names. */
  lemma DimensionKeys(attrs: map<string, GoValue>, dims: map<string, string>, san: Sanitizers, show: GoValue -> string)
    requires DimensionsFrom(attrs, dims, san, show)
    ensures dims.Keys == set k | k in attrs :: san.dimensionName(k)
  {
    var names := set k | k in attrs :: san.dimensionName(k);
    forall d | d in dims
      ensures d in names
    {
      var k :| k in attrs && san.dimensionName(k) == d && dims[d] == san.dimensionValue(show(attrs[k]));
    }
    forall d | d in names
      ensures d in dims
    {
      var k :| k in attrs && san.dimensionName(k) == d;
    }
  }

  /** Whatever the visiting order, the dimensions are the same when no two
      attribute names sanitize to the same name. */
  lemma DimensionsDeterministic(attrs: map<string, GoValue>, d1: map<string, string>, d2: map<string, string>,
                                san: Sanitizers, show: GoValue -> string)
    requires forall k, k' | k in attrs && k' in attrs && k != k' :: san.dimensionName(k) != san.dimensionName(k')
    requires DimensionsFrom(attrs, d1, san, show) && DimensionsFrom(attrs, d2, san, show)
    ensures d1 == d2
  {
    assert d1.Keys == d2.Keys by {
      DimensionKeys(attrs, d1, san, show);
      DimensionKeys(attrs, d2, san, show);
    }
    forall d | d in d1
      ensures d1[d] == d2[d]
    {
      var k :| k in attrs && san.dimensionName(k) == d && d1[d] == san.dimensionValue(show(attrs[k]));
      var k' :| k' in attrs && san.dimensionName(k') == d && d2[d] == san.dimensionValue(show(attrs[k']));
      assert k == k';
    }
  }

  /** "host" is the serializer's host name even when an attribute sanitizes
      to "host", and every other dimension comes from an attribute. */
  lemma HostOverrides(r: Record, name: string, p: DataPoint, host: string, san: Sanitizers, show: GoValue -> string)
    requires RecordOf(r, name, p, host, san, show)
    ensures r.dimensions["host"] == host
    ensures r.dimensions.Keys == {"host"} + set k | k in p.attributes :: san.dimensionName(k)
  {
    var dims :| DimensionsFrom(p.attributes, dims, san, show) && r.dimensions == dims["host" := host];
    var names := set k | k in p.attributes :: san.dimensionName(k);
    assert dims.Keys == names by {
      DimensionKeys(p.attributes, dims, san, show);
    }
    assert r.dimensions.Keys == {"host"} + dims.Keys by {
      UpdateKeys(dims, "host", host);
    }
  }

  lemma UpdateKeys<K, V>(m: map<K, V>, k: K, v: V)
    ensures m[k := v].Keys == {k} + m.Keys
  {
  }

  // ---------------------------------------------------------------------
  // The serializer

  class MetricsSerializer {
    const hostname: string
    const san: Sanitizers
    const show: GoValue -> string

    /** `NewSerializer(hostname)`. */
    constructor (hostname: string, san: Sanitizers, show: GoValue -> string)
      ensures this.hostname == hostname && this.san == san && this.show == show
    {
      this.hostname := hostname;
      this.san := san;
      this.show := show;
    }

    /** The attribute loop of `accumulateGauge` / `accumulateSum`, one
        attribute at a time in whatever order the map yields. */
    method Dimensions(attrs: map<string, GoValue>) returns (dims: map<string, string>)
      ensures DimensionsFrom(attrs, dims, san, show)
    {
      dims := map[];
      var rest := attrs.Keys;
      while rest != {}
        invariant rest <= attrs.Keys
        invariant forall k | k in attrs && k !in rest :: san.dimensionName(k) in dims
        invariant forall d | d in dims :: exists k | k in attrs ::
                    san.dimensionName(k) == d && dims[d] == san.dimensionValue(show(attrs[k]))
        decreases rest
      {
        var k :| k in rest;
        var name := san.dimensionName(k);
        var valueTag := san.dimensionValue(show(attrs[k]));
        dims := dims[name := valueTag];
        rest := rest - {k};
      }
    }

    /** `accumulateGauge` / `accumulateSum`: one record per point, in order. */
    method Accumulate(name: string, pts: seq<DataPoint>) returns (recs: seq<Record>)
      ensures Serializes(recs, seq(|pts|, i requires 0 <= i < |pts| => (name, pts[i])), hostname, san, show)
    {
      recs := [];
      var i := 0;
      while i < |pts|
        invariant 0 <= i <= |pts| && |recs| == i
        invariant forall j | 0 <= j < i :: RecordOf(recs[j], name, pts[j], hostname, san, show)
      {
        var ip := pts[i];
        var m := NewMetric();
        var dims := Dimensions(ip.attributes);
        m := m.(dimensions := dims["host" := hostname]);
        m := m.(name := name);
        m := m.(timestamp := Millis(ip.time));
        m := m.(valueMeta := map[]);
        match ip.value {
          case DoubleValue(d) => m := m.(value := d);
          case IntValue(n) => m := m.(value := n as real);
          case Empty =>
        }
        recs := recs + [m];
        i := i + 1;
      }
    }

    /** `addMetric`: an unnamed metric is an error with no records; the name
        is sanitized; gauges and sums give their points' records and every
        other type nothing. */
    method AddMetric(metric: MetricData) returns (recs: seq<Record>, err: Option<string>)
      ensures metric.name == [] ==> recs == [] && err.Some?
      ensures metric.name != [] ==> err.None?
      ensures Serializes(recs, Targets([metric], san), hostname, san, show)
    {
      assert [metric][..0] == [];
      if metric.name == [] {
        return [], Some("metric name is empty");
      }
      var metricNamePrefix := san.metricName(metric.name);
      err := None;
      if metric.kind.OtherKind? {
        recs := [];
      } else {
        recs := Accumulate(metricNamePrefix, metric.points);
      }
    }

    /** The innermost loop of `Serialize`: the metrics of one scope. */
    method SerializeMetrics(ms: seq<MetricData>) returns (recs: seq<Record>)
      ensures Serializes(recs, Targets(ms, san), hostname, san, show)
    {
      recs := [];
      var j := 0;
      while j < |ms|
        invariant 0 <= j <= |ms|
        invariant Serializes(recs, Targets(ms[..j], san), hostname, san, show)
      {
        var obj, _ := AddMetric(ms[j]);
        SerializesExtend(recs, obj, ms[..j], [ms[j]], hostname, san, show);
        assert ms[..j] + [ms[j]] == ms[..j + 1];
        recs := recs + obj;
        j := j + 1;
      }
      assert ms[..j] == ms;
    }

    /** The middle loop of `Serialize`: the scopes of one resource. */
    method SerializeScopes(sms: seq<ScopeMetrics>) returns (recs: seq<Record>)
      ensures Serializes(recs, Targets(ScopeMetricsOf(sms), san), hostname, san, show)
    {
      recs := [];
      var i := 0;
      while i < |sms|
        invariant 0 <= i <= |sms|
        invariant Serializes(recs, Targets(ScopeMetricsOf(sms[..i]), san), hostname, san, show)
      {
        assert sms[..i + 1][..i] == sms[..i];
        var part := SerializeMetrics(sms[i].metrics);
        SerializesExtend(recs, part, ScopeMetricsOf(sms[..i]), sms[i].metrics, hostname, san, show);
        recs := recs + part;
        i := i + 1;
      }
      assert sms[..i] == sms;
    }

    /** `Serialize` / `createObject`: the records of every metric, in
        order; errors are dropped. */
    method Serialize(md: Metrics) returns (metricss: seq<Record>)
      ensures Serializes(metricss, Targets(AllMetrics(md), san), hostname, san, show)
    {
      metricss := [];
      var i := 0;
      while i < |md|
        invariant 0 <= i <= |md|
        invariant Serializes(metricss, Targets(AllMetrics(md[..i]), san), hostname, san, show)
      {
        assert md[..i + 1][..i] == md[..i];
        var part := SerializeScopes(md[i].scopes);
        SerializesExtend(metricss, part, AllMetrics(md[..i]), ScopeMetricsOf(md[i].scopes), hostname, san, show);
        metricss := metricss + part;
        i := i + 1;
      }
      assert md[..i] == md;
    }
  }
}
