/** exporter/vmonitorexporter/logs_exporter.go: log records become "diff"
    metrics. For each configured value key whose value converts to a
    number, the configured dimensions are read from the log (sanitized, an
    empty value becoming "N/A"), the diff cache is fed under (value key,
    canonical key of those dimensions), and a metric
    "annd2_<valueKey>_diff" is emitted only when the cache answers ok, with
    the diff as its value and "host" added afterwards. The metrics go to the
    buffer, which is then drained.

    `strconv.ParseFloat` is the parameter `parseFloat`, `%v` formatting the
    parameter `show`, and `SanitizeDimensionValue` part of `san`. */
module LogsExporter {
  import opened Common
  import opened Metric
  import DiffCache
  import CanonicalKey
  import opened MetricBuffer
  import opened Delivery
  import opened Drain

  // ---------------------------------------------------------------------
  // anyToFloat64

  /** `anyToFloat64`: Go ints and floats give their value, a bool 1 or 0, a
      string its parsed value; a string that does not parse is an error with
      -2 and every other type (nil and uint64 among them) an error with -1.
      The boolean is "no error". */
  function AnyToFloat64(v: GoValue, parseFloat: string -> Option<real>): (r: (real, bool))
    ensures r.1 <==> (v.GoInt? || v.GoInt32? || v.GoInt64? || v.GoFloat32? || v.GoFloat64? || v.GoBool?
                      || (v.GoString? && parseFloat(v.s).Some?))
    ensures !r.1 ==> (r.0 == -2.0 <==> v.GoString?) && (r.0 == -1.0 <==> !v.GoString?)
    ensures (v.GoInt? || v.GoInt32? || v.GoInt64?) ==> r.0 == v.i as real
    ensures (v.GoFloat32? || v.GoFloat64?) ==> r.0 == v.r
    ensures v.GoBool? ==> r.0 == if v.b then 1.0 else 0.0
    ensures v.GoString? && parseFloat(v.s).Some? ==> r.0 == parseFloat(v.s).value
  {
    match v
    case GoInt(i) => (i as real, true)
    case GoInt32(i) => (i as real, true)
    case GoInt64(i) => (i as real, true)
    case GoFloat32(f) => (f, true)
    case GoFloat64(f) => (f, true)
    case GoBool(b) => (if b then 1.0 else 0.0, true)
    case GoString(s) =>
      (match parseFloat(s)
       case Some(f) => (f, true)
       case None => (-2.0, false))
    case _ => (-1.0, false)
  }

  /** The exporter's conversion test, its non-string cases. */
  lemma AnyToFloat64Examples(parseFloat: string -> Option<real>)
    ensures AnyToFloat64(GoInt(1), parseFloat) == (1.0, true)
    ensures AnyToFloat64(GoInt32(2), parseFloat) == (2.0, true)
    ensures AnyToFloat64(GoInt64(3), parseFloat) == (3.0, true)
    ensures AnyToFloat64(GoFloat32(4.5), parseFloat) == (4.5, true)
    ensures AnyToFloat64(GoFloat64(5.0), parseFloat) == (5.0, true)
    ensures AnyToFloat64(GoBool(true), parseFloat) == (1.0, true)
    ensures AnyToFloat64(GoNil, parseFloat) == (-1.0, false)
    ensures AnyToFloat64(GoUint64(7), parseFloat) == (-1.0, false)
  {
  }

  // ---------------------------------------------------------------------
  // log2metric, as a function

  /** A log record: its attributes and its timestamp in nanoseconds. */
  datatype LogRecord = LogRecord(attributes: map<string, GoValue>, time: int)
  datatype ScopeLogs = ScopeLogs(records: seq<LogRecord>)
  datatype ResourceLogs = ResourceLogs(scopes: seq<ScopeLogs>)

  /** All log records of a batch, in resource/scope/record order. */
  function AllLogs(ld: seq<ResourceLogs>): seq<LogRecord>
  {
    if ld == [] then [] else AllLogs(ld[..|ld| - 1]) + ScopeLogsOf(ld[|ld| - 1].scopes)
  }

  function ScopeLogsOf(scopes: seq<ScopeLogs>): seq<LogRecord>
  {
    if scopes == [] then [] else ScopeLogsOf(scopes[..|scopes| - 1]) + scopes[|scopes| - 1].records
  }

  /** What the exporter is configured with. */
  datatype Settings = Settings(
    hostname: string,
    dimensionKeys: seq<string>,
    valueKeys: seq<string>,
    san: Sanitizers,
    show: GoValue -> string,
    parseFloat: string -> Option<real>)

  /** The dimension value of one key: the sanitized `%v` of the log's value
      (nil when missing), "N/A" when that is empty. */
  function DimensionValue(logs: map<string, GoValue>, dk: string, cfg: Settings): (v: string)
    ensures v != []
  {
    var d := cfg.san.dimensionValue(cfg.show(Lookup(logs, dk)));
    if d == [] then "N/A" else d
  }

  /** The dimensions of the first `dks`, in order (a repeated key writes the
      same value again). */
  function DimensionsOf(logs: map<string, GoValue>, dks: seq<string>, cfg: Settings): map<string, string>
  {
    if dks == [] then map[]
    else DimensionsOf(logs, dks[..|dks| - 1], cfg)[dks[|dks| - 1] := DimensionValue(logs, dks[|dks| - 1], cfg)]
  }

  /** The metric name of a value key. */
  function DiffName(valueKey: string): string
  {
    "annd2_" + valueKey + "_diff"
  }

  /** `%v` of a string is the string. */
  function Verbatim(s: string): string
  {
    s
  }

  /** The metric emitted for `valueKey` with the diff `stat`: the
      dimensions, then "host" set over them. */
  function DiffRecord(valueKey: string, dims: map<string, string>, stat: real, tm: int, hostname: string): Record
  {
    Record(DiffName(valueKey), dims["host" := hostname], stat, TruncDiv(tm, 1_000_000), map[])
  }

  /** The cache key of a log: the canonical text of its dimensions. */
  ghost function KeyOf(logs: map<string, GoValue>, cfg: Settings): string
  {
    CanonicalKey.Canonical(DimensionsOf(logs, cfg.dimensionKeys, cfg), Verbatim)
  }

  /** One value key: the cache after it and the metrics it emits. */
  ghost function OneKey(c: DiffCache.Cache, logs: map<string, GoValue>, tm: int, valueKey: string, cfg: Settings)
    : (DiffCache.Cache, seq<Record>)
  {
    var conv := AnyToFloat64(Lookup(logs, valueKey), cfg.parseFloat);
    if !conv.1 then (c, [])
    else
      var dims := DimensionsOf(logs, cfg.dimensionKeys, cfg);
      var step := DiffCache.ProcessValueStep(c, valueKey, KeyOf(logs, cfg), "diff", conv.0);
      if !step.1.1 then (step.0, [])
      else (step.0, [DiffRecord(valueKey, dims, step.1.0, tm, cfg.hostname)])
  }

  /** `log2metric` over the value keys `vks`, in order. */
  ghost function Log2MetricSpec(c: DiffCache.Cache, logs: map<string, GoValue>, tm: int, vks: seq<string>, cfg: Settings)
    : (DiffCache.Cache, seq<Record>)
  {
    if vks == [] then (c, [])
    else
      var before := Log2MetricSpec(c, logs, tm, vks[..|vks| - 1], cfg);
      var one := OneKey(before.0, logs, tm, vks[|vks| - 1], cfg);
      (one.0, before.1 + one.1)
  }

  /** `writeToBuffer(log2metric(...))` over the log records `ls`. */
  ghost function ConvertAll(c: DiffCache.Cache, buffered: seq<Record>, capacity: nat, ls: seq<LogRecord>, cfg: Settings)
    : (DiffCache.Cache, seq<Record>)
  {
    if ls == [] then (c, buffered)
    else
      var before := ConvertAll(c, buffered, capacity, ls[..|ls| - 1], cfg);
      var l := ls[|ls| - 1];
      var one := Log2MetricSpec(before.0, l.attributes, l.time, cfg.valueKeys, cfg);
      (one.0, KeepNewest(before.1 + one.1, capacity))
  }

  // ---------------------------------------------------------------------
  // Properties

  /** Every configured dimension key is present, and none is empty. */
  lemma {:induction false} DimensionsOfKeys(logs: map<string, GoValue>, dks: seq<string>, cfg: Settings)
    ensures var dims := DimensionsOf(logs, dks, cfg);
            (forall dk :: dk in dims <==> dk in dks)
            && forall dk | dk in dims :: dims[dk] == DimensionValue(logs, dk, cfg) && dims[dk] != []
  {
    if dks != [] {
      DimensionsOfKeys(logs, dks[..|dks| - 1], cfg);
      assert dks == dks[..|dks| - 1] + [dks[|dks| - 1]];
    }
  }

  lemma DimensionsOfNext(logs: map<string, GoValue>, dks: seq<string>, j: nat, cfg: Settings)
    requires j < |dks|
    ensures DimensionsOf(logs, dks[..j + 1], cfg) == DimensionsOf(logs, dks[..j], cfg)[dks[j] := DimensionValue(logs, dks[j], cfg)]
  {
    assert dks[..j + 1][..j] == dks[..j];
  }

  /** A value key whose value does not convert emits nothing and leaves the
      cache alone; one that converts emits at most one metric, named after
      the key, valued with a diff that is not negative, carrying every
      dimension key and the host. */
  lemma OneKeyOutcome(c: DiffCache.Cache, logs: map<string, GoValue>, tm: int, valueKey: string, cfg: Settings)
    ensures var r := OneKey(c, logs, tm, valueKey, cfg);
            |r.1| <= 1
            && (!AnyToFloat64(Lookup(logs, valueKey), cfg.parseFloat).1 ==> r == (c, []))
            && forall m | m in r.1 ::
                 m.name == DiffName(valueKey) && m.value >= 0.0
                 && "host" in m.dimensions && m.dimensions["host"] == cfg.hostname
                 && (forall dk | dk in cfg.dimensionKeys :: dk in m.dimensions)
                 && m.timestamp == TruncDiv(tm, 1_000_000) && m.valueMeta == map[]
  {
    var conv := AnyToFloat64(Lookup(logs, valueKey), cfg.parseFloat);
    if conv.1 {
      var dims := DimensionsOf(logs, cfg.dimensionKeys, cfg);
      DimensionsOfKeys(logs, cfg.dimensionKeys, cfg);
      DiffCache.EmittedNonNegative(c, valueKey, KeyOf(logs, cfg), "diff", conv.0);
    }
  }

  /** One value key touches only the cache entries under its own name. */
  lemma OneKeyFrame(c: DiffCache.Cache, logs: map<string, GoValue>, tm: int, valueKey: string, cfg: Settings, n: string)
    requires n != valueKey
    ensures var c' := OneKey(c, logs, tm, valueKey, cfg).0;
            (n in c' <==> n in c) && (n in c ==> c'[n] == c[n])
  {
    var conv := AnyToFloat64(Lookup(logs, valueKey), cfg.parseFloat);
    if conv.1 {
      var key := KeyOf(logs, cfg);
      assert OneKey(c, logs, tm, valueKey, cfg).0 == DiffCache.Store(c, valueKey, key, conv.0);
      DiffCache.OtherNamesUnchanged(c, valueKey, key, conv.0);
    }
  }

  /** At most one metric per value key, each with a non-negative value, the
      host, and a name made from one of the value keys. */
  lemma {:induction false} Log2MetricShape(c: DiffCache.Cache, logs: map<string, GoValue>, tm: int,
                                           vks: seq<string>, cfg: Settings)
    ensures var ms := Log2MetricSpec(c, logs, tm, vks, cfg).1;
            |ms| <= |vks|
            && forall m | m in ms :: m.value >= 0.0 && "host" in m.dimensions && m.dimensions["host"] == cfg.hostname
                                     && exists k | k in vks :: m.name == DiffName(k)
  {
    if vks != [] {
      var init := vks[..|vks| - 1];
      var k := vks[|vks| - 1];
      Log2MetricShape(c, logs, tm, init, cfg);
      var before := Log2MetricSpec(c, logs, tm, init, cfg);
      OneKeyOutcome(before.0, logs, tm, k, cfg);
      var one := OneKey(before.0, logs, tm, k, cfg);
      assert Log2MetricSpec(c, logs, tm, vks, cfg).1 == before.1 + one.1;
      forall m | m in before.1 + one.1
        ensures m.value >= 0.0 && "host" in m.dimensions && m.dimensions["host"] == cfg.hostname
                && exists k' | k' in vks :: m.name == DiffName(k')
      {
        if m in before.1 {
          var k' :| k' in init && m.name == DiffName(k');
          assert k' in vks;
        } else {
          assert k in vks;
        }
      }
    }
  }

  /** Only the entries under the processed value keys change. */
  lemma {:induction false} Log2MetricFrame(c: DiffCache.Cache, logs: map<string, GoValue>, tm: int,
                                           vks: seq<string>, cfg: Settings)
    ensures var c' := Log2MetricSpec(c, logs, tm, vks, cfg).0;
            forall n | n !in vks :: (n in c' <==> n in c) && (n in c ==> c'[n] == c[n])
  {
    if vks != [] {
      var init := vks[..|vks| - 1];
      var k := vks[|vks| - 1];
      Log2MetricFrame(c, logs, tm, init, cfg);
      var c1 := Log2MetricSpec(c, logs, tm, init, cfg).0;
      assert Log2MetricSpec(c, logs, tm, vks, cfg).0 == OneKey(c1, logs, tm, k, cfg).0;
      forall n | n !in vks
        ensures var c' := OneKey(c1, logs, tm, k, cfg).0;
                (n in c' <==> n in c) && (n in c ==> c'[n] == c[n])
      {
        assert n !in init;
        OneKeyFrame(c1, logs, tm, k, cfg, n);
      }
    }
  }

  /** The first log seen by a fresh exporter emits nothing when its value
      keys are distinct: every (value key, dimensions) pair is new. */
  lemma {:induction false} FirstLogEmitsNothing(logs: map<string, GoValue>, tm: int, vks: seq<string>, cfg: Settings)
    requires forall i, j | 0 <= i < j < |vks| :: vks[i] != vks[j]
    ensures Log2MetricSpec(map[], logs, tm, vks, cfg).1 == []
  {
    if vks != [] {
      var init := vks[..|vks| - 1];
      var k := vks[|vks| - 1];
      FirstLogEmitsNothing(logs, tm, init, cfg);
      Log2MetricFrame(map[], logs, tm, init, cfg);
      var c1 := Log2MetricSpec(map[], logs, tm, init, cfg).0;
      assert k !in init;
      assert k !in c1;
      FirstKeyEmitsNothing(c1, logs, tm, k, cfg);
    }
  }

  /** One more value key: `log2metric` over a longer prefix. */
  lemma Log2MetricNext(c: DiffCache.Cache, logs: map<string, GoValue>, tm: int, vks: seq<string>, i: nat, cfg: Settings)
    requires i < |vks|
    ensures var before := Log2MetricSpec(c, logs, tm, vks[..i], cfg);
            var one := OneKey(before.0, logs, tm, vks[i], cfg);
            Log2MetricSpec(c, logs, tm, vks[..i + 1], cfg) == (one.0, before.1 + one.1)
  {
    assert vks[..i + 1][..i] == vks[..i];
  }

  /** A value key not yet in the cache emits nothing. */
  lemma FirstKeyEmitsNothing(c: DiffCache.Cache, logs: map<string, GoValue>, tm: int, k: string, cfg: Settings)
    requires k !in c
    ensures OneKey(c, logs, tm, k, cfg).1 == []
  {
    var conv := AnyToFloat64(Lookup(logs, k), cfg.parseFloat);
    if conv.1 {
      var key := KeyOf(logs, cfg);
      DiffCache.FirstObservation(c, k, key, "diff", conv.0);
    }
  }

  /** A repeated value key within one log is fed twice: the second time it
      sees its own value again and emits a diff of 0. */
  lemma RepeatedKeyEmitsZero(logs: map<string, GoValue>, tm: int, k: string, cfg: Settings)
    requires AnyToFloat64(Lookup(logs, k), cfg.parseFloat).1
    ensures var ms := Log2MetricSpec(map[], logs, tm, [k, k], cfg).1;
            |ms| == 1 && ms[0].value == 0.0 && ms[0].name == DiffName(k)
  {
    var v := AnyToFloat64(Lookup(logs, k), cfg.parseFloat).0;
    var c1 := DiffCache.Store(map[], k, KeyOf(logs, cfg), v);
    var one := OneKey(map[], logs, tm, k, cfg);
    assert one == (c1, []) by {
      DiffCache.ResetForgets(k, KeyOf(logs, cfg), "diff", v);
    }
    var two := OneKey(c1, logs, tm, k, cfg);
    assert two.1 == [DiffRecord(k, DimensionsOf(logs, cfg.dimensionKeys, cfg), 0.0, tm, cfg.hostname)] by {
      SameValueEmitsZero(c1, logs, tm, k, cfg);
    }
    assert Log2MetricSpec(map[], logs, tm, [k, k], cfg).1 == one.1 + two.1 by {
      Log2MetricPair(map[], logs, tm, k, k, cfg);
    }
    assert one.1 + two.1 == two.1;
  }

  /** `log2metric` over two value keys: the second sees the cache the
      first left, and their metrics come in order. */
  lemma Log2MetricPair(c: DiffCache.Cache, logs: map<string, GoValue>, tm: int, k1: string, k2: string, cfg: Settings)
    ensures var o1 := OneKey(c, logs, tm, k1, cfg);
            var o2 := OneKey(o1.0, logs, tm, k2, cfg);
            Log2MetricSpec(c, logs, tm, [k1, k2], cfg) == (o2.0, o1.1 + o2.1)
  {
    var none: seq<Record> := [];
    var o1 := OneKey(c, logs, tm, k1, cfg);
    assert none + o1.1 == o1.1;
    assert Log2MetricSpec(c, logs, tm, [], cfg) == (c, none);
    assert [k1, k2][..0] == [] && [k1, k2][..1] == [k1] && [k1, k2][..2] == [k1, k2];
    Log2MetricNext(c, logs, tm, [k1, k2], 0, cfg);
    Log2MetricNext(c, logs, tm, [k1, k2], 1, cfg);
  }

  /** A value equal to the entry's LAST emits a diff of 0. */
  lemma SameValueEmitsZero(c: DiffCache.Cache, logs: map<string, GoValue>, tm: int, k: string, cfg: Settings)
    requires AnyToFloat64(Lookup(logs, k), cfg.parseFloat).1
    requires DiffCache.Has(c, k, KeyOf(logs, cfg))
    requires c[k].fields[KeyOf(logs, cfg)].count >= 1.0
    requires c[k].fields[KeyOf(logs, cfg)].last == AnyToFloat64(Lookup(logs, k), cfg.parseFloat).0
    ensures OneKey(c, logs, tm, k, cfg).1
            == [DiffRecord(k, DimensionsOf(logs, cfg.dimensionKeys, cfg), 0.0, tm, cfg.hostname)]
  {
    var v := AnyToFloat64(Lookup(logs, k), cfg.parseFloat).0;
    var key := KeyOf(logs, cfg);
    DiffCache.LaterObservation(c, k, key, "diff", v);
    DiffCache.AnswerRules(c, k, key, "diff", v);
    var step := DiffCache.ProcessValueStep(c, k, key, "diff", v);
    assert step.0[k].fields[key].diff == 0.0;
    assert step.1 == (0.0, true);
  }

  /** One more log record. */
  lemma ConvertAllNext(c: DiffCache.Cache, buffered: seq<Record>, capacity: nat, rs: seq<LogRecord>, j: nat, cfg: Settings)
    requires j < |rs|
    ensures var before := ConvertAll(c, buffered, capacity, rs[..j], cfg);
            var one := Log2MetricSpec(before.0, rs[j].attributes, rs[j].time, cfg.valueKeys, cfg);
            ConvertAll(c, buffered, capacity, rs[..j + 1], cfg) == (one.0, KeepNewest(before.1 + one.1, capacity))
  {
    assert rs[..j + 1][..j] == rs[..j];
  }

  /** Converting `a + b` is converting `a`, then `b` from where `a` left
      the cache and the buffer. */
  lemma {:induction false} ConvertAllAppend(c: DiffCache.Cache, buffered: seq<Record>, capacity: nat,
                                            a: seq<LogRecord>, b: seq<LogRecord>, cfg: Settings)
    ensures var mid := ConvertAll(c, buffered, capacity, a, cfg);
            ConvertAll(c, buffered, capacity, a + b, cfg) == ConvertAll(mid.0, mid.1, capacity, b, cfg)
    decreases |b|
  {
    if b == [] {
      assert a + b == a;
    } else {
      assert (a + b)[..|a + b| - 1] == a + b[..|b| - 1];
      ConvertAllAppend(c, buffered, capacity, a, b[..|b| - 1], cfg);
    }
  }

  lemma AllLogsNext(ld: seq<ResourceLogs>, i: nat)
    requires i < |ld|
    ensures AllLogs(ld[..i + 1]) == AllLogs(ld[..i]) + ScopeLogsOf(ld[i].scopes)
  {
    assert ld[..i + 1][..i] == ld[..i];
  }

  lemma ScopeLogsNext(slss: seq<ScopeLogs>, i: nat)
    requires i < |slss|
    ensures ScopeLogsOf(slss[..i + 1]) == ScopeLogsOf(slss[..i]) + slss[i].records
  {
    assert slss[..i + 1][..i] == slss[..i];
  }

  /** The buffer never holds more than its capacity. */
  lemma {:induction false} ConvertAllBounded(c: DiffCache.Cache, buffered: seq<Record>, capacity: nat,
                                             ls: seq<LogRecord>, cfg: Settings)
    requires |buffered| <= capacity
    ensures |ConvertAll(c, buffered, capacity, ls, cfg).1| <= capacity
  {
    if ls != [] {
      ConvertAllBounded(c, buffered, capacity, ls[..|ls| - 1], cfg);
    }
  }

  // ---------------------------------------------------------------------
  // The exporter object

  class VMonitorLogsExporter {
    const output: VMonitorOutput
    const buf: Buffer
    const batchSize: int
    const basicstats: DiffCache.BasicStats2
    const cfg: Settings

    ghost predicate Inv()
      reads this, buf
    {
      buf.Valid()
      && output as object != buf && output as object != basicstats && buf as object != basicstats
    }

    constructor (output: VMonitorOutput, buf: Buffer, batchSize: int, basicstats: DiffCache.BasicStats2, cfg: Settings)
      requires buf.Valid()
      requires output as object != buf && output as object != basicstats && buf as object != basicstats
      ensures this.output == output && this.buf == buf && this.batchSize == batchSize
      ensures this.basicstats == basicstats && this.cfg == cfg && Inv()
    {
      this.output := output;
      this.buf := buf;
      this.batchSize := batchSize;
      this.basicstats := basicstats;
      this.cfg := cfg;
    }

    /** The dimension loop of `log2metric`. */
    method Dimensions(logs: map<string, GoValue>) returns (dims: map<string, string>)
      ensures dims == DimensionsOf(logs, cfg.dimensionKeys, cfg)
    {
      dims := map[];
      var j := 0;
      while j < |cfg.dimensionKeys|
        invariant 0 <= j <= |cfg.dimensionKeys|
        invariant dims == DimensionsOf(logs, cfg.dimensionKeys[..j], cfg)
      {
        DimensionsOfNext(logs, cfg.dimensionKeys, j, cfg);
        var dimensionKey := cfg.dimensionKeys[j];
        var dimensionV := cfg.san.dimensionValue(cfg.show(Lookup(logs, dimensionKey)));
        if dimensionV == "" {
          dimensionV := "N/A";
        }
        dims := dims[dimensionKey := dimensionV];
        j := j + 1;
      }
      assert cfg.dimensionKeys[..j] == cfg.dimensionKeys;
    }

    /** `log2metric`: feeds the diff cache and returns the emitted metrics. */
    method Log2Metric(logs: map<string, GoValue>, tm: int) returns (metrics: seq<Record>)
      modifies basicstats
      ensures (basicstats.cache, metrics) == Log2MetricSpec(old(basicstats.cache), logs, tm, cfg.valueKeys, cfg)
    {
      metrics := [];
      var i := 0;
      while i < |cfg.valueKeys|
        invariant 0 <= i <= |cfg.valueKeys|
        invariant (basicstats.cache, metrics) == Log2MetricSpec(old(basicstats.cache), logs, tm, cfg.valueKeys[..i], cfg)
      {
        Log2MetricNext(old(basicstats.cache), logs, tm, cfg.valueKeys, i, cfg);
        ghost var before := basicstats.cache;
        var valueKey := cfg.valueKeys[i];
        var r := AnyToFloat64(Lookup(logs, valueKey), cfg.parseFloat);
        if !r.1 {
          assert OneKey(before, logs, tm, valueKey, cfg) == (before, []);
          assert metrics + [] == metrics;
          i := i + 1;
          continue;
        }
        var dims := Dimensions(logs);
        var key := CanonicalKey.MapToString(dims, Verbatim);
        var stat, ok := basicstats.ProcessValue(valueKey, key, "diff", r.0);
        assert (basicstats.cache, (stat, ok)) == DiffCache.ProcessValueStep(before, valueKey, key, "diff", r.0);
        assert basicstats.cache == OneKey(before, logs, tm, valueKey, cfg).0;
        if !ok {
          assert OneKey(before, logs, tm, valueKey, cfg).1 == [];
          assert metrics + [] == metrics;
          i := i + 1;
          continue;
        }
        var metric := Record(DiffName(valueKey), dims, stat, TruncDiv(tm, 1_000_000), map[]);
        metric := metric.(dimensions := metric.dimensions["host" := cfg.hostname]);
        assert [metric] == OneKey(before, logs, tm, valueKey, cfg).1;
        metrics := metrics + [metric];
        i := i + 1;
      }
      assert cfg.valueKeys[..i] == cfg.valueKeys;
    }

    /** `writeToBuffer`. */
    method WriteToBuffer(ms: seq<Record>)
      requires Inv()
      modifies buf
      ensures Inv() && buf.records == KeepNewest(old(buf.records) + ms, buf.capacity)
    {
      buf.Add(ms);
    }

    /** The innermost loop of `pushLogsData`: the records of one scope, in
        order, through `log2metric` and `writeToBuffer`. */
    method ConvertRecords(rs: seq<LogRecord>)
      requires Inv()
      modifies buf, basicstats
      ensures Inv()
      ensures (basicstats.cache, buf.records)
              == ConvertAll(old(basicstats.cache), old(buf.records), buf.capacity, rs, cfg)
    {
      ghost var c0 := basicstats.cache;
      ghost var b0 := buf.records;
      var j := 0;
      while j < |rs|
        invariant 0 <= j <= |rs| && Inv()
        invariant (basicstats.cache, buf.records) == ConvertAll(c0, b0, buf.capacity, rs[..j], cfg)
      {
        ConvertAllNext(c0, b0, buf.capacity, rs, j, cfg);
        var l := rs[j];
        var m := Log2Metric(l.attributes, l.time);
        WriteToBuffer(m);
        j := j + 1;
      }
      assert rs[..j] == rs;
    }

    /** The middle loop of `pushLogsData`: the scopes of one resource. */
    method ConvertScopes(slss: seq<ScopeLogs>)
      requires Inv()
      modifies buf, basicstats
      ensures Inv()
      ensures (basicstats.cache, buf.records)
              == ConvertAll(old(basicstats.cache), old(buf.records), buf.capacity, ScopeLogsOf(slss), cfg)
    {
      ghost var c0 := basicstats.cache;
      ghost var b0 := buf.records;
      var i := 0;
      while i < |slss|
        invariant 0 <= i <= |slss| && Inv()
        invariant (basicstats.cache, buf.records) == ConvertAll(c0, b0, buf.capacity, ScopeLogsOf(slss[..i]), cfg)
      {
        ScopeLogsNext(slss, i);
        ConvertAllAppend(c0, b0, buf.capacity, ScopeLogsOf(slss[..i]), slss[i].records, cfg);
        ConvertRecords(slss[i].records);
        i := i + 1;
      }
      assert slss[..i] == slss;
    }

    /** The loops of `pushLogsData`: every log record, in order, through
        `log2metric` and `writeToBuffer`. */
    method ConvertLogs(ld: seq<ResourceLogs>)
      requires Inv()
      modifies buf, basicstats
      ensures Inv()
      ensures (basicstats.cache, buf.records)
              == ConvertAll(old(basicstats.cache), old(buf.records), buf.capacity, AllLogs(ld), cfg)
    {
      ghost var c0 := basicstats.cache;
      ghost var b0 := buf.records;
      var i := 0;
      while i < |ld|
        invariant 0 <= i <= |ld| && Inv()
        invariant (basicstats.cache, buf.records) == ConvertAll(c0, b0, buf.capacity, AllLogs(ld[..i]), cfg)
      {
        AllLogsNext(ld, i);
        ConvertAllAppend(c0, b0, buf.capacity, AllLogs(ld[..i]), ScopeLogsOf(ld[i].scopes), cfg);
        ConvertScopes(ld[i].scopes);
        i := i + 1;
      }
      assert ld[..i] == ld;
    }

    /** `pushLogsData`: convert every log record and buffer the metrics, then
        drain the buffer through the delivery engine. `os` answers the
        writes of the drain. */
    method PushLogsData(ld: seq<ResourceLogs>, os: seq<Oracle>) returns (err: Option<DrainError>)
      requires Inv() && |os| >= Batches(buf.capacity, batchSize)
      modifies buf, output, basicstats
      ensures Inv()
      ensures var converted := ConvertAll(old(basicstats.cache), old(buf.records), buf.capacity, AllLogs(ld), cfg);
              |os| >= Batches(|converted.1|, batchSize)
              && basicstats.cache == converted.0
              && var r := DrainSpec(old(output.State()), converted.1, batchSize, os);
                 output.State() == r.state && buf.records == r.records && err == r.err
    {
      ConvertLogs(ld);
      BatchesMonotone(|buf.records|, buf.capacity, batchSize);
      err := DrainBuffer(buf, output, batchSize, os);
    }
  }
}
