/** processor/basicstatsprocessor/basicstats.go, the processor: `AddMetric`
    feeds every gauge and sum data point into the cache under (metric name,
    attribute key), `Push` copies the batch with every point set to one
    statistic (dropping points whose statistic is not valid) and the metric
    renamed, and `processMetrics` emits one such copy per configured
    statistic, then the originals unless they are dropped.

    `%v` formatting of an attribute value is the parameter `show`, and
    `math.Sqrt` the parameter `sqrt`. */
module BasicStatsProcessor {
  import opened Common
  import opened Pdata
  import opened BasicStats
  import CanonicalKey
  import ProcessorConfig

  /** The cache key of a data point: `mapToString` of its attributes. */
  ghost function Key(p: DataPoint, show: GoValue -> string): string
  {
    CanonicalKey.Canonical(p.attributes, show)
  }

  // ---------------------------------------------------------------------
  // AddMetric, as a fold

  /** The value `accumulateGauge` / `accumulateSum` hand to `AddToCache`:
      double and int values as float64. */
  function AsFloat64(v: PointValue): GoValue
    requires !v.Empty?
  {
    match v
    case DoubleValue(d) => GoFloat64(d)
    case IntValue(i) => GoFloat64(i as real)
  }

  /** One point: added under its key unless its value is empty. */
  ghost function AddPoint(c: Cache, name: string, p: DataPoint, show: GoValue -> string): (c': Cache)
    requires Valid(c)
    ensures Valid(c')
  {
    if p.value.Empty? then c
    else
      AddToCacheValid(c, name, Key(p, show), AsFloat64(p.value), p.time);
      AddToCacheStep(c, name, Key(p, show), AsFloat64(p.value), p.time)
  }

  ghost function AddPoints(c: Cache, name: string, pts: seq<DataPoint>, show: GoValue -> string): (c': Cache)
    requires Valid(c)
    ensures Valid(c')
  {
    if pts == [] then c else AddPoint(AddPoints(c, name, pts[..|pts| - 1], show), name, pts[|pts| - 1], show)
  }

  /** One metric: gauges and sums are accumulated, other types ignored. */
  ghost function AddMetricData(c: Cache, m: MetricData, show: GoValue -> string): (c': Cache)
    requires Valid(c)
    ensures Valid(c')
  {
    if m.kind.OtherKind? then c else AddPoints(c, m.name, m.points, show)
  }

  ghost function AddAll(c: Cache, ms: seq<MetricData>, show: GoValue -> string): (c': Cache)
    requires Valid(c)
    ensures Valid(c')
  {
    if ms == [] then c else AddMetricData(AddAll(c, ms[..|ms| - 1], show), ms[|ms| - 1], show)
  }

  lemma {:induction false} AddAllAppend(c: Cache, a: seq<MetricData>, b: seq<MetricData>, show: GoValue -> string)
    requires Valid(c)
    ensures AddAll(c, a + b, show) == AddAll(AddAll(c, a, show), b, show)
    decreases |b|
  {
    if b == [] {
      assert a + b == a;
    } else {
      assert (a + b)[..|a + b| - 1] == a + b[..|b| - 1];
      AddAllAppend(c, a, b[..|b| - 1], show);
    }
  }

  lemma AddPointsNext(c: Cache, name: string, pts: seq<DataPoint>, i: nat, show: GoValue -> string)
    requires Valid(c) && i < |pts|
    ensures AddPoints(c, name, pts[..i + 1], show) == AddPoint(AddPoints(c, name, pts[..i], show), name, pts[i], show)
  {
    assert pts[..i + 1][..i] == pts[..i];
  }

  /** No entry ever leaves the cache while metrics are added. */
  lemma {:induction false} AddPointsKeeps(c: Cache, name: string, pts: seq<DataPoint>, show: GoValue -> string,
                                          n: string, k: string)
    requires Valid(c) && Has(c, n, k)
    ensures Has(AddPoints(c, name, pts, show), n, k)
  {
    if pts != [] {
      var init := AddPoints(c, name, pts[..|pts| - 1], show);
      AddPointsKeeps(c, name, pts[..|pts| - 1], show, n, k);
      var p := pts[|pts| - 1];
      if !p.value.Empty? {
        AddKeepsEntries(init, name, Key(p, show), AsFloat64(p.value), p.time);
      }
    }
  }

  /** After its metric is added, every gauge or sum point with a value has
      an entry under its metric's name and its own key. */
  lemma {:induction false} AddPointsCovers(c: Cache, name: string, pts: seq<DataPoint>, show: GoValue -> string, i: nat)
    requires Valid(c) && i < |pts| && !pts[i].value.Empty?
    ensures Has(AddPoints(c, name, pts, show), name, Key(pts[i], show))
  {
    var init := pts[..|pts| - 1];
    var c1 := AddPoints(c, name, init, show);
    var p := pts[|pts| - 1];
    if i == |pts| - 1 {
      AddKeepsEntries(c1, name, Key(p, show), AsFloat64(p.value), p.time);
    } else {
      AddPointsCovers(c, name, init, show, i);
      if !p.value.Empty? {
        AddKeepsEntries(c1, name, Key(p, show), AsFloat64(p.value), p.time);
      }
    }
  }

  // ---------------------------------------------------------------------
  // Push, as a function

  /** What `PushGaugeMetric` / `PushSumMetric` do with one point of the
      metric `id`: a point with an entry gets the statistic as a double
      value, or is removed when the statistic is not valid; a point without
      an entry is left untouched. */
  ghost function PushPoint(c: Cache, id: string, stat: string, p: DataPoint,
                           sqrt: real -> real, show: GoValue -> string): Option<DataPoint>
  {
    var key := Key(p, show);
    if Has(c, id, key) then
      var (v, ok) := PushValue(c[id].fields[key], stat, sqrt);
      if ok then Some(p.(value := DoubleValue(v))) else None
    else Some(p)
  }

  /** A point's contribution to the pushed metric: itself, changed, or
      nothing. */
  function Kept(o: Option<DataPoint>): (r: seq<DataPoint>)
    ensures |r| <= 1
  {
    match o
    case Some(q) => [q]
    case None => []
  }

  ghost function PushPoints(c: Cache, id: string, stat: string, pts: seq<DataPoint>,
                            sqrt: real -> real, show: GoValue -> string): seq<DataPoint>
  {
    if pts == [] then []
    else PushPoints(c, id, stat, pts[..|pts| - 1], sqrt, show) + Kept(PushPoint(c, id, stat, pts[|pts| - 1], sqrt, show))
  }

  /** One metric of the copy: points pushed (gauges and sums only), name
      suffixed with "_" + stat whatever the type. */
  ghost function PushMetric(c: Cache, stat: string, m: MetricData,
                            sqrt: real -> real, show: GoValue -> string): MetricData
  {
    MetricData(m.name + "_" + stat, m.kind,
               if m.kind.OtherKind? then m.points else PushPoints(c, m.name, stat, m.points, sqrt, show))
  }

  ghost function PushScope(c: Cache, stat: string, sm: ScopeMetrics,
                           sqrt: real -> real, show: GoValue -> string): ScopeMetrics
  {
    ScopeMetrics(seq(|sm.metrics|, j requires 0 <= j < |sm.metrics| => PushMetric(c, stat, sm.metrics[j], sqrt, show)))
  }

  ghost function PushResource(c: Cache, stat: string, rm: ResourceMetrics,
                              sqrt: real -> real, show: GoValue -> string): ResourceMetrics
  {
    ResourceMetrics(seq(|rm.scopes|, i requires 0 <= i < |rm.scopes| => PushScope(c, stat, rm.scopes[i], sqrt, show)))
  }

  /** `Push(stat, md)`: the renamed copy with the points pushed. */
  ghost function Pushed(c: Cache, stat: string, md: Metrics, sqrt: real -> real, show: GoValue -> string): Metrics
  {
    seq(|md|, i requires 0 <= i < |md| => PushResource(c, stat, md[i], sqrt, show))
  }

  /** The copies for `stats`, in order. */
  ghost function PushAll(c: Cache, stats: seq<string>, md: Metrics, sqrt: real -> real, show: GoValue -> string): Metrics
  {
    if stats == [] then []
    else PushAll(c, stats[..|stats| - 1], md, sqrt, show) + Pushed(c, stats[|stats| - 1], md, sqrt, show)
  }

  /** `processMetrics` after `AddMetric`: one copy per statistic, then the
      originals unless `dropOriginal`. */
  ghost function Process(c: Cache, stats: seq<string>, dropOriginal: bool, md: Metrics,
                         sqrt: real -> real, show: GoValue -> string): Metrics
  {
    PushAll(c, stats, md, sqrt, show) + (if dropOriginal then [] else md)
  }

  // ---------------------------------------------------------------------
  // Properties of Push

  lemma PushPointsNext(c: Cache, id: string, stat: string, pts: seq<DataPoint>, k: nat,
                       sqrt: real -> real, show: GoValue -> string)
    requires k < |pts|
    ensures PushPoints(c, id, stat, pts[..k + 1], sqrt, show)
            == PushPoints(c, id, stat, pts[..k], sqrt, show) + Kept(PushPoint(c, id, stat, pts[k], sqrt, show))
  {
    assert pts[..k + 1][..k] == pts[..k];
  }

  // Sequence facts for the in-place walk of `PushGaugeMetric`.

  lemma LoopStep<T>(out: seq<T>, i: nat, pts: seq<T>, k: nat)
    requires i < |out| && k <= |pts| && out[i..] == pts[k..]
    ensures k < |pts| && out[i] == pts[k] && out[i + 1..] == pts[k + 1..]
  {
    assert out[i..][0] == pts[k..][0];
    assert out[i..][1..] == pts[k..][1..];
  }

  /** Point k of `pts`, now at position i, is kept as q. */
  lemma KeepStep(c: Cache, id: string, stat: string, out: seq<DataPoint>, i: nat, pts: seq<DataPoint>, k: nat,
                 q: DataPoint, sqrt: real -> real, show: GoValue -> string)
    requires i < |out| && k < |pts| && out[i] == pts[k] && out[i + 1..] == pts[k + 1..]
    requires out[..i] == PushPoints(c, id, stat, pts[..k], sqrt, show)
    requires PushPoint(c, id, stat, out[i], sqrt, show) == Some(q)
    ensures out[i := q][..i + 1] == PushPoints(c, id, stat, pts[..k + 1], sqrt, show)
    ensures out[i := q][i + 1..] == pts[k + 1..]
  {
    PushPointsNext(c, id, stat, pts, k, sqrt, show);
    SetAt(out, i, q);
  }

  /** Point k of `pts`, now at position i, is removed. */
  lemma DropStep(c: Cache, id: string, stat: string, out: seq<DataPoint>, i: nat, pts: seq<DataPoint>, k: nat,
                 sqrt: real -> real, show: GoValue -> string)
    requires i < |out| && k < |pts| && out[i] == pts[k] && out[i + 1..] == pts[k + 1..]
    requires out[..i] == PushPoints(c, id, stat, pts[..k], sqrt, show)
    requires PushPoint(c, id, stat, out[i], sqrt, show) == None
    ensures (out[..i] + out[i + 1..])[..i] == PushPoints(c, id, stat, pts[..k + 1], sqrt, show)
    ensures (out[..i] + out[i + 1..])[i..] == pts[k + 1..]
  {
    PushPointsNext(c, id, stat, pts, k, sqrt, show);
    RemoveAt(out, i);
  }

  lemma SetAt<T>(s: seq<T>, i: nat, x: T)
    requires i < |s|
    ensures s[i := x][..i + 1] == s[..i] + [x] && s[i := x][i + 1..] == s[i + 1..]
  {
  }

  lemma RemoveAt<T>(s: seq<T>, i: nat)
    requires i < |s|
    ensures (s[..i] + s[i + 1..])[..i] == s[..i] && (s[..i] + s[i + 1..])[i..] == s[i + 1..]
  {
  }

  /** What becomes of one point: attributes and timestamp are kept; the
      point is unchanged unless it has an entry, and then it carries the
      statistic if that is valid and is removed otherwise. */
  lemma PushPointOutcome(c: Cache, id: string, stat: string, p: DataPoint,
                         sqrt: real -> real, show: GoValue -> string)
    ensures var o := PushPoint(c, id, stat, p, sqrt, show);
            (!Has(c, id, Key(p, show)) ==> o == Some(p))
            && (Has(c, id, Key(p, show)) ==>
                  var (v, ok) := PushValue(c[id].fields[Key(p, show)], stat, sqrt);
                  (ok <==> o.Some?)
                  && (ok ==> o.value.value == DoubleValue(v)))
            && (o.Some? ==> o.value.attributes == p.attributes && o.value.time == p.time)
  {
  }

  /** Points keep their order and none is added: the output is the
      outcomes of the input points, in order. */
  lemma {:induction false} PushPointsShape(c: Cache, id: string, stat: string, pts: seq<DataPoint>,
                                           sqrt: real -> real, show: GoValue -> string)
    ensures var out := PushPoints(c, id, stat, pts, sqrt, show);
            |out| <= |pts|
            && forall q | q in out :: exists p | p in pts :: PushPoint(c, id, stat, p, sqrt, show) == Some(q)
  {
    if pts != [] {
      var init := pts[..|pts| - 1];
      var last := pts[|pts| - 1];
      PushPointsShape(c, id, stat, init, sqrt, show);
      forall q | q in PushPoints(c, id, stat, pts, sqrt, show)
        ensures exists p | p in pts :: PushPoint(c, id, stat, p, sqrt, show) == Some(q)
      {
        if q in PushPoints(c, id, stat, init, sqrt, show) {
          var p :| p in init && PushPoint(c, id, stat, p, sqrt, show) == Some(q);
          assert p in pts;
        } else {
          assert PushPoint(c, id, stat, last, sqrt, show) == Some(q);
          assert last in pts;
        }
      }
    }
  }

  /** A statistic that is always valid (count, min, max, mean, sum) drops
      no point. */
  lemma {:induction false} AlwaysValidDropsNothing(c: Cache, id: string, stat: string, pts: seq<DataPoint>,
                                                   sqrt: real -> real, show: GoValue -> string)
    requires stat in ["count", "min", "max", "mean", "sum"]
    ensures |PushPoints(c, id, stat, pts, sqrt, show)| == |pts|
  {
    if pts != [] {
      var last := pts[|pts| - 1];
      AlwaysValidDropsNothing(c, id, stat, pts[..|pts| - 1], sqrt, show);
      if Has(c, id, Key(last, show)) {
        PushValueValidity(c[id].fields[Key(last, show)], stat, sqrt);
      }
    }
  }

  /** The points without an entry, in order. */
  ghost function UncachedPoints(c: Cache, id: string, pts: seq<DataPoint>, show: GoValue -> string): seq<DataPoint>
  {
    if pts == [] then []
    else
      UncachedPoints(c, id, pts[..|pts| - 1], show)
      + (if Has(c, id, Key(pts[|pts| - 1], show)) then [] else [pts[|pts| - 1]])
  }

  /** An unknown statistic drops every point that has an entry and leaves
      the others untouched. */
  lemma {:induction false} UnknownStatKeepsOnlyUncached(c: Cache, id: string, stat: string, pts: seq<DataPoint>,
                                                        sqrt: real -> real, show: GoValue -> string)
    requires stat !in ProcessorConfig.Allowed
    ensures PushPoints(c, id, stat, pts, sqrt, show) == UncachedPoints(c, id, pts, show)
  {
    if pts != [] {
      var last := pts[|pts| - 1];
      UnknownStatKeepsOnlyUncached(c, id, stat, pts[..|pts| - 1], sqrt, show);
      if Has(c, id, Key(last, show)) {
        PushValueValidity(c[id].fields[Key(last, show)], stat, sqrt);
      }
    }
  }

  /** `processMetrics` emits |stats| copies, then the originals unless they
      are dropped. */
  lemma {:induction false} ProcessLength(c: Cache, stats: seq<string>, dropOriginal: bool, md: Metrics,
                                         sqrt: real -> real, show: GoValue -> string)
    ensures |PushAll(c, stats, md, sqrt, show)| == |stats| * |md|
    ensures var out := Process(c, stats, dropOriginal, md, sqrt, show);
            |out| == |stats| * |md| + (if dropOriginal then 0 else |md|)
            && (!dropOriginal ==> out[|out| - |md|..] == md)
  {
    if stats != [] {
      var n := |stats| - 1;
      assert |PushAll(c, stats[..n], md, sqrt, show)| == n * |md| by {
        ProcessLength(c, stats[..n], dropOriginal, md, sqrt, show);
      }
      assert |stats| * |md| == n * |md| + |md|;
    }
  }

  // ---------------------------------------------------------------------
  // The processor object

  class Processor {
    var cache: Cache
    const stats: seq<string>
    const dropOriginal: bool
    const sqrt: real -> real
    const show: GoValue -> string

    ghost predicate Inv()
      reads this
    {
      Valid(cache)
    }

    /** `newBasicStatsProcessor` once the configuration is valid: an empty
        cache and the configured statistics. */
    constructor (stats: seq<string>, dropOriginal: bool, sqrt: real -> real, show: GoValue -> string)
      ensures Inv() && cache == map[] && this.stats == stats && this.dropOriginal == dropOriginal
      ensures this.sqrt == sqrt && this.show == show
    {
      cache := map[];
      this.stats := stats;
      this.dropOriginal := dropOriginal;
      this.sqrt := sqrt;
      this.show := show;
    }

    /** `AddToCache`. */
    method AddToCache(name: string, key: string, value: GoValue, t: int)
      requires Inv()
      modifies this
      ensures Inv() && cache == AddToCacheStep(old(cache), name, key, value, t)
    {
      AddToCacheValid(cache, name, key, value, t);
      var fv := Convert(value);
      if name !in cache {
        var a := Aggregate(name, map[]);
        if fv.Some? {
          a := a.(fields := a.fields[key := First(fv.value, t)]);
        }
        cache := cache[name := a];
      } else if fv.Some? {
        if key !in cache[name].fields {
          cache := cache[name := cache[name].(fields := cache[name].fields[key := First(fv.value, t)])];
          return;
        }
        var tmp := Observe(cache[name].fields[key], fv.value, t);
        cache := cache[name := cache[name].(fields := cache[name].fields[key := tmp])];
      }
    }

    /** `accumulateGauge` / `accumulateSum`: every point of one metric. */
    method Accumulate(m: MetricData)
      requires Inv() && !m.kind.OtherKind?
      modifies this
      ensures Inv() && cache == AddPoints(old(cache), m.name, m.points, show)
    {
      ghost var c0 := cache;
      var i := 0;
      while i < |m.points|
        invariant 0 <= i <= |m.points| && Inv()
        invariant cache == AddPoints(c0, m.name, m.points[..i], show)
      {
        AddPointsNext(c0, m.name, m.points, i, show);
        ghost var before := cache;
        var ip := m.points[i];
        var key := CanonicalKey.MapToString(ip.attributes, show);
        match ip.value {
          case DoubleValue(d) => AddToCache(m.name, key, GoFloat64(d), ip.time);
          case IntValue(n) => AddToCache(m.name, key, GoFloat64(n as real), ip.time);
          case Empty =>
        }
        assert cache == AddPoint(before, m.name, ip, show);
        i := i + 1;
      }
      assert m.points[..i] == m.points;
    }

    /** The innermost loop of `AddMetric`: the metrics of one scope; gauges
        and sums are accumulated, other types skipped. */
    method AddMetrics(ms: seq<MetricData>)
      requires Inv()
      modifies this
      ensures Inv() && cache == AddAll(old(cache), ms, show)
    {
      ghost var c0 := cache;
      var j := 0;
      while j < |ms|
        invariant 0 <= j <= |ms| && Inv()
        invariant cache == AddAll(c0, ms[..j], show)
      {
        assert ms[..j + 1][..j] == ms[..j];
        if !ms[j].kind.OtherKind? {
          Accumulate(ms[j]);
        }
        j := j + 1;
      }
      assert ms[..j] == ms;
    }

    /** The middle loop of `AddMetric`: the scopes of one resource. */
    method AddScopes(sms: seq<ScopeMetrics>)
      requires Inv()
      modifies this
      ensures Inv() && cache == AddAll(old(cache), ScopeMetricsOf(sms), show)
    {
      ghost var c0 := cache;
      var i := 0;
      while i < |sms|
        invariant 0 <= i <= |sms| && Inv()
        invariant cache == AddAll(c0, ScopeMetricsOf(sms[..i]), show)
      {
        assert sms[..i + 1][..i] == sms[..i];
        AddAllAppend(c0, ScopeMetricsOf(sms[..i]), sms[i].metrics, show);
        AddMetrics(sms[i].metrics);
        i := i + 1;
      }
      assert sms[..i] == sms;
    }

    /** `AddMetric`: every gauge and sum metric of the batch, in order. */
    method AddMetric(md: Metrics)
      requires Inv()
      modifies this
      ensures Inv() && cache == AddAll(old(cache), AllMetrics(md), show)
    {
      ghost var c0 := cache;
      var i := 0;
      while i < |md|
        invariant 0 <= i <= |md| && Inv()
        invariant cache == AddAll(c0, AllMetrics(md[..i]), show)
      {
        assert md[..i + 1][..i] == md[..i];
        AddAllAppend(c0, AllMetrics(md[..i]), ScopeMetricsOf(md[i].scopes), show);
        AddScopes(md[i].scopes);
        i := i + 1;
      }
      assert md[..i] == md;
    }

    /** `PushGaugeMetric` / `PushSumMetric`: walk the points, setting each
        cached point to the statistic or removing it; after a removal the
        index steps back so the next point is not skipped. */
    method PushMetricPoints(stat: string, id: string, pts: seq<DataPoint>) returns (out: seq<DataPoint>)
      ensures out == PushPoints(cache, id, stat, pts, sqrt, show)
    {
      out := pts;
      var i: int := 0;
      ghost var k := 0;
      while i < |out|
        invariant 0 <= i <= |out| && 0 <= k <= |pts|
        invariant out[..i] == PushPoints(cache, id, stat, pts[..k], sqrt, show)
        invariant out[i..] == pts[k..]
        decreases |out| - i
      {
        var ip := out[i];
        LoopStep(out, i, pts, k);
        var key := CanonicalKey.MapToString(ip.attributes, show);
        assert key == Key(ip, show);
        if id in cache && key in cache[id].fields {
          var r := PushValue(cache[id].fields[key], stat, sqrt);
          if r.1 {
            var q := ip.(value := DoubleValue(r.0));
            KeepStep(cache, id, stat, out, i, pts, k, q, sqrt, show);
            out := out[i := q];
          } else {
            DropStep(cache, id, stat, out, i, pts, k, sqrt, show);
            out := out[..i] + out[i + 1..];
            i := i - 1;
          }
        } else {
          KeepStep(cache, id, stat, out, i, pts, k, ip, sqrt, show);
        }
        i := i + 1;
        k := k + 1;
      }
      assert pts[..k] == pts;
    }

    /** The innermost loop of `Push`: each metric of one scope renamed, its
        points pushed when it is a gauge or a sum. */
    method PushMetrics(stat: string, ms0: seq<MetricData>) returns (ms: seq<MetricData>)
      ensures |ms| == |ms0| && forall k | 0 <= k < |ms| :: ms[k] == PushMetric(cache, stat, ms0[k], sqrt, show)
    {
      ms := ms0;
      var j := 0;
      while j < |ms|
        invariant 0 <= j <= |ms| == |ms0|
        invariant forall k | 0 <= k < j :: ms[k] == PushMetric(cache, stat, ms0[k], sqrt, show)
        invariant forall k | j <= k < |ms| :: ms[k] == ms0[k]
      {
        var m := ms[j];
        var pts := m.points;
        if !m.kind.OtherKind? {
          pts := PushMetricPoints(stat, m.name, m.points);
        }
        ms := ms[j := MetricData(m.name + "_" + stat, m.kind, pts)];
        j := j + 1;
      }
    }

    /** The middle loop of `Push`: the scopes of one resource. */
    method PushScopes(stat: string, sms0: seq<ScopeMetrics>) returns (sms: seq<ScopeMetrics>)
      ensures |sms| == |sms0| && forall k | 0 <= k < |sms| :: sms[k] == PushScope(cache, stat, sms0[k], sqrt, show)
    {
      sms := sms0;
      var i := 0;
      while i < |sms|
        invariant 0 <= i <= |sms| == |sms0|
        invariant forall k | 0 <= k < i :: sms[k] == PushScope(cache, stat, sms0[k], sqrt, show)
        invariant forall k | i <= k < |sms| :: sms[k] == sms0[k]
      {
        var ms := PushMetrics(stat, sms[i].metrics);
        assert ScopeMetrics(ms) == PushScope(cache, stat, sms0[i], sqrt, show);
        sms := sms[i := ScopeMetrics(ms)];
        i := i + 1;
      }
    }

    /** `Push(stat, md)`: a copy of the batch in which every gauge and sum
        has its points pushed and every metric is renamed. */
    method Push(stat: string, md: Metrics) returns (res: Metrics)
      ensures res == Pushed(cache, stat, md, sqrt, show)
    {
      res := md;
      var i := 0;
      while i < |res|
        invariant 0 <= i <= |res| == |md|
        invariant forall k | 0 <= k < i :: res[k] == PushResource(cache, stat, md[k], sqrt, show)
        invariant forall k | i <= k < |res| :: res[k] == md[k]
      {
        var sms := PushScopes(stat, res[i].scopes);
        assert ResourceMetrics(sms) == PushResource(cache, stat, md[i], sqrt, show);
        res := res[i := ResourceMetrics(sms)];
        i := i + 1;
      }
    }

    /** `processMetrics`: add the batch to the cache, then one copy per
        statistic, then the originals unless they are dropped. */
    method ProcessMetrics(md: Metrics) returns (result: Metrics)
      requires Inv()
      modifies this
      ensures Inv() && cache == AddAll(old(cache), AllMetrics(md), show)
      ensures result == Process(cache, stats, dropOriginal, md, sqrt, show)
    {
      AddMetric(md);
      result := [];
      var i := 0;
      while i < |stats|
        invariant 0 <= i <= |stats|
        invariant Inv() && cache == AddAll(old(cache), AllMetrics(md), show)
        invariant result == PushAll(cache, stats[..i], md, sqrt, show)
      {
        assert stats[..i + 1][..i] == stats[..i];
        var newMetrics := Push(stats[i], md);
        result := result + newMetrics;
        i := i + 1;
      }
      assert stats[..i] == stats;
      if !dropOriginal {
        result := result + md;
      }
    }

    /** `Reset`: forget every entry. */
    method Reset()
      requires Inv()
      modifies this
      ensures Inv() && cache == map[]
    {
      cache := map[];
    }
  }

  /** `newBasicStatsProcessor`: validate the configuration; on success the
      processor starts empty with the filtered statistics. */
  method NewProcessor(cfg: ProcessorConfig.Config, sqrt: real -> real, show: GoValue -> string)
    returns (p: Option<Processor>, err: Option<ProcessorConfig.ConfigError>)
    modifies cfg
    ensures ProcessorConfig.KeepAllowed(old(cfg.stats)) == [] ==> p.None? && err == Some(ProcessorConfig.NoStatsConfig)
    ensures ProcessorConfig.KeepAllowed(old(cfg.stats)) != [] ==>
              err.None? && p.Some? && fresh(p.value) && p.value.Inv() && p.value.cache == map[]
              && p.value.stats == ProcessorConfig.KeepAllowed(old(cfg.stats)) && p.value.dropOriginal == old(cfg.dropOriginal)
  {
    err := cfg.Validate();
    if err.Some? {
      return None, err;
    }
    var b := new Processor(cfg.stats, cfg.dropOriginal, sqrt, show);
    p := Some(b);
  }
}
