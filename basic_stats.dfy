/** processor/basicstatsprocessor/basicstats.go, the statistics: the
    per-(metric name, key) entry that `AddToCache` keeps and `PushValue`
    reads. Values are reals (float64 rounding is not modelled); times are
    integer nanoseconds; `math.Sqrt` is the parameter `sqrt`. */
module BasicStats {
  import opened Common
  import ProcessorConfig

  /** `basicstats`: interval is a `time.Duration` (nanoseconds), TIME the
      time of the last value. */
  datatype Stats = Stats(
    count: real, min: real, max: real, sum: real, mean: real,
    diff: real, rate: real, interval: int, m2: real, last: real, time: int)

  /** `aggregate`: one metric name's entries, by key. */
  datatype Aggregate = Aggregate(name: string, fields: map<string, Stats>)

  type Cache = map<string, Aggregate>

  /** `Duration.Seconds()`. */
  function Seconds(d: int): real
  {
    d as real / 1_000_000_000.0
  }

  /** The entry stored for the first value of a key. */
  function First(fv: real, t: int): Stats
  {
    Stats(1.0, fv, fv, fv, fv, 0.0, 0.0, 0, 0.0, fv, t)
  }

  /** One more value `x` at time `t`: Welford's update of mean and M2,
      min/max, sum, diff, interval, and the rate when the time moved. */
  function Observe(st: Stats, x: real, t: int): Stats
    requires st.count >= 1.0
  {
    var n := st.count + 1.0;
    var delta := x - st.mean;
    var mean := st.mean + delta / n;
    var m2 := st.m2 + delta * (x - mean);
    var (lo, hi) := if x < st.min then (x, st.max) else if x > st.max then (st.min, x) else (st.min, st.max);
    var diff := x - st.last;
    var interval := t - st.time;
    var rate := if t != st.time then diff / Seconds(interval) else st.rate;
    Stats(n, lo, hi, st.sum + x, mean, diff, rate, interval, m2, x, t)
  }

  /** `basicstats.PushValue`: the value of one statistic and whether it may
      be emitted. */
  function PushValue(st: Stats, field: string, sqrt: real -> real): (real, bool)
  {
    match field
    case "count" => (st.count, true)
    case "min" => (st.min, true)
    case "max" => (st.max, true)
    case "mean" => (st.mean, true)
    case "sum" => (st.sum, true)
    case "s2" => if st.count > 1.0 then (st.m2 / (st.count - 1.0), true) else (0.0, false)
    case "stdev" => if st.count > 1.0 then (sqrt(st.m2 / (st.count - 1.0)), true) else (0.0, false)
    case "diff" => (st.diff, st.count > 1.0)
    case "rate" => (st.rate, st.count > 1.0)
    case "non_negative_diff" => (st.diff, st.count > 1.0 && st.diff >= 0.0)
    case "non_negative_rate" => (st.rate, st.count > 1.0 && st.diff >= 0.0)
    case "interval" => (st.interval as real, st.count > 1.0)
    case _ => (0.0, false)
  }

  /** An entry that has seen at least one value. */
  ghost predicate ValidEntry(st: Stats)
  {
    st.count >= 1.0 && st.m2 >= 0.0 && st.min <= st.max
  }

  ghost predicate Valid(c: Cache)
  {
    forall n, k | n in c && k in c[n].fields :: ValidEntry(c[n].fields[k])
  }

  predicate Has(c: Cache, name: string, key: string)
  {
    name in c && key in c[name].fields
  }

  /** `AddToCache(name, key, value, t)`. A value `convert` refuses still
      creates the (empty) aggregate of a new name. */
  function AddToCacheStep(c: Cache, name: string, key: string, value: GoValue, t: int): Cache
    requires Valid(c)
  {
    var fv := Convert(value);
    if name !in c then
      c[name := Aggregate(name, if fv.Some? then map[key := First(fv.value, t)] else map[])]
    else if fv.None? then c
    else if key !in c[name].fields then
      c[name := c[name].(fields := c[name].fields[key := First(fv.value, t)])]
    else
      c[name := c[name].(fields := c[name].fields[key := Observe(c[name].fields[key], fv.value, t)])]
  }

  // ---------------------------------------------------------------------
  // Welford's update against the sums it stands for

  function Sum(xs: seq<real>): real
  {
    if xs == [] then 0.0 else Sum(xs[..|xs| - 1]) + xs[|xs| - 1]
  }

  function SumSq(xs: seq<real>): real
  {
    if xs == [] then 0.0 else SumSq(xs[..|xs| - 1]) + xs[|xs| - 1] * xs[|xs| - 1]
  }

  /** The entry summarises the values `xs`: count and sum, mean × count =
      sum, M2 = Σx² − mean·Σx (the sum of squared deviations, never
      negative), min and max bound every value and are among them, LAST is
      the latest. */
  ghost predicate Summarises(st: Stats, xs: seq<real>)
  {
    |xs| >= 1
    && st.count == |xs| as real && st.sum == Sum(xs)
    && st.mean * st.count == st.sum
    && st.m2 + st.mean * st.sum == SumSq(xs) && st.m2 >= 0.0
    && (forall i | 0 <= i < |xs| :: st.min <= xs[i] <= st.max)
    && st.min in xs && st.max in xs
    && st.last == xs[|xs| - 1]
  }

  lemma MulNonNegative(a: real, b: real)
    requires a >= 0.0 && b >= 0.0
    ensures a * b >= 0.0
  {
  }

  lemma DivNonNegative(a: real, b: real)
    requires a >= 0.0 && b > 0.0
    ensures a / b >= 0.0
  {
  }

  /** Welford's M2 grows by (x − mean)² · n/(n + 1), written with
      d = (x − mean)/(n + 1): by d² · n · (n + 1). */
  lemma WelfordM2Grows(m: real, n: real, m2: real, x: real)
    requires n > 0.0
    ensures var d := (x - m) / (n + 1.0);
            var m' := m + (x - m) / (n + 1.0);
            (m2 + (x - m) * (x - m')) - m2 == d * d * (n * (n + 1.0))
            && d * d * (n * (n + 1.0)) >= 0.0
  {
    var d := (x - m) / (n + 1.0);
    assert d * (n + 1.0) == x - m;
    assert x - (m + d) == d * n;
    assert (x - m) * (d * n) == d * (n + 1.0) * (d * n);
    MulNonNegative(d * d, n * (n + 1.0));
  }

  /** Welford's mean and M2 after one more value keep mean × count = Σx and
      M2 + mean·Σx = Σx². */
  lemma WelfordSums(m: real, n: real, s: real, q: real, m2: real, x: real)
    requires n > 0.0 && m * n == s && m2 + m * s == q
    ensures var m' := m + (x - m) / (n + 1.0);
            var m2' := m2 + (x - m) * (x - m');
            m' * (n + 1.0) == s + x && m2' + m' * (s + x) == q + x * x
  {
    var d := (x - m) / (n + 1.0);
    var m' := m + d;
    assert d * (n + 1.0) == x - m;
    assert m' * (n + 1.0) == m * n + m + d * (n + 1.0);
    assert x - m' == d * n;
    var m2' := m2 + (x - m) * (d * n);
    calc {
      m2' + m' * (s + x);
      m2 + (x - m) * d * n + (m + d) * (m * n + x);
      m2 + m * (m * n) + x * d * n - m * d * n + m * x + d * m * n + d * x;
      q + x * (d * n + m + d);
      { assert d * n + d == d * (n + 1.0); }
      q + x * x;
    }
  }

  lemma SumsAppend(xs: seq<real>, x: real)
    ensures Sum(xs + [x]) == Sum(xs) + x && SumSq(xs + [x]) == SumSq(xs) + x * x
  {
    assert (xs + [x])[..|xs|] == xs;
  }

  /** One `Observe` keeps mean × count = sum and M2 + mean·sum = `q` when
      `q` grows by x². */
  lemma ObserveMoments(st: Stats, q: real, x: real, t: int)
    requires st.count >= 1.0 && st.mean * st.count == st.sum && st.m2 + st.mean * st.sum == q && st.m2 >= 0.0
    ensures var s' := Observe(st, x, t);
            s'.mean * s'.count == s'.sum && s'.m2 + s'.mean * s'.sum == q + x * x
            && s'.m2 >= 0.0 && s'.sum == st.sum + x && s'.count == st.count + 1.0
  {
    WelfordSums(st.mean, st.count, st.sum, q, st.m2, x);
    WelfordM2Grows(st.mean, st.count, st.m2, x);
  }

  lemma ObserveBounds(st: Stats, xs: seq<real>, x: real, t: int)
    requires st.count >= 1.0 && |xs| >= 1
    requires forall i | 0 <= i < |xs| :: st.min <= xs[i] <= st.max
    requires st.min in xs && st.max in xs
    ensures var s' := Observe(st, x, t);
            var ys := xs + [x];
            (forall i | 0 <= i < |ys| :: s'.min <= ys[i] <= s'.max)
            && s'.min in ys && s'.max in ys && s'.last == ys[|ys| - 1]
  {
    var s' := Observe(st, x, t);
    var ys := xs + [x];
    forall i | 0 <= i < |ys|
      ensures s'.min <= ys[i] <= s'.max
    {
      if i < |xs| { assert ys[i] == xs[i]; }
    }
    assert st.min in ys && st.max in ys && x in ys;
  }

  /** One `Observe` extends the summary by one value. */
  lemma ObserveSummarises(st: Stats, xs: seq<real>, x: real, t: int)
    requires Summarises(st, xs)
    ensures Summarises(Observe(st, x, t), xs + [x])
  {
    ObserveMoments(st, SumSq(xs), x, t);
    ObserveBounds(st, xs, x, t);
    SumsAppend(xs, x);
  }

  lemma Quotients(m: real, n: real, s: real, q: real, m2: real)
    requires n > 0.0 && m * n == s && m2 + m * s == q
    ensures m == s / n && m2 == q - s * s / n
  {
    assert m == s / n;
    assert m * s == s * s / n by {
      assert (s * s / n) * n == s * s;
      assert (m * s) * n == s * s;
      assert (m * s - s * s / n) * n == 0.0;
    }
  }

  /** In the usual form: mean = Σx / n and M2 = Σx² − (Σx)²/n, for the
      sums `s` = Σx and `q` = Σx² of the summarised values. */
  lemma SummaryAsQuotients(st: Stats, xs: seq<real>, s: real, q: real)
    requires Summarises(st, xs) && s == Sum(xs) && q == SumSq(xs)
    ensures var n := |xs| as real;
            st.mean == s / n && st.m2 == q - s * s / n
  {
    Quotients(st.mean, st.count, st.sum, q, st.m2);
  }

  lemma FirstSummarises(x: real, t: int)
    ensures Summarises(First(x, t), [x])
  {
    assert [x][..0] == [];
  }

  /** The entry built from the values `xs` at the times `ts`. */
  function FromSamples(xs: seq<real>, ts: seq<int>): (st: Stats)
    requires |xs| == |ts| >= 1
    ensures st.count >= 1.0
  {
    if |xs| == 1 then First(xs[0], ts[0])
    else Observe(FromSamples(xs[..|xs| - 1], ts[..|ts| - 1]), xs[|xs| - 1], ts[|ts| - 1])
  }

  /** Whatever the values, the incremental entry holds their exact count,
      sum, mean, sum of squared deviations (never negative), bounds and
      latest value. */
  lemma {:induction false} FromSamplesSummarises(xs: seq<real>, ts: seq<int>)
    requires |xs| == |ts| >= 1
    ensures Summarises(FromSamples(xs, ts), xs)
  {
    if |xs| == 1 {
      FirstSummarises(xs[0], ts[0]);
      assert xs == [xs[0]];
    } else {
      var init := xs[..|xs| - 1];
      FromSamplesSummarises(init, ts[..|ts| - 1]);
      ObserveSummarises(FromSamples(init, ts[..|ts| - 1]), init, xs[|xs| - 1], ts[|ts| - 1]);
      assert init + [xs[|xs| - 1]] == xs;
    }
  }

  /** The sample variance and deviation of 2, 4, 4, 4, 5, 5, 7, 9: mean 5,
      s2 = 32/7. */
  lemma VarianceExample(ts: seq<int>, sqrt: real -> real)
    requires |ts| == 8
    ensures var st := FromSamples([2.0, 4.0, 4.0, 4.0, 5.0, 5.0, 7.0, 9.0], ts);
            st.mean == 5.0 && PushValue(st, "s2", sqrt) == (32.0 / 7.0, true)
            && PushValue(st, "stdev", sqrt) == (sqrt(32.0 / 7.0), true)
            && st.min == 2.0 && st.max == 9.0
  {
    var xs := [2.0, 4.0, 4.0, 4.0, 5.0, 5.0, 7.0, 9.0];
    FromSamplesSummarises(xs, ts);
    assert Sum(xs) == 40.0 && SumSq(xs) == 232.0 by {
      assert [2.0][..0] == [];
      assert Sum([2.0]) == 2.0 && SumSq([2.0]) == 4.0;
      assert [2.0, 4.0][..1] == [2.0];
      assert Sum([2.0, 4.0]) == 6.0 && SumSq([2.0, 4.0]) == 20.0;
      assert [2.0, 4.0, 4.0][..2] == [2.0, 4.0];
      assert Sum([2.0, 4.0, 4.0]) == 10.0 && SumSq([2.0, 4.0, 4.0]) == 36.0;
      assert [2.0, 4.0, 4.0, 4.0][..3] == [2.0, 4.0, 4.0];
      assert Sum([2.0, 4.0, 4.0, 4.0]) == 14.0 && SumSq([2.0, 4.0, 4.0, 4.0]) == 52.0;
      assert [2.0, 4.0, 4.0, 4.0, 5.0][..4] == [2.0, 4.0, 4.0, 4.0];
      assert Sum([2.0, 4.0, 4.0, 4.0, 5.0]) == 19.0 && SumSq([2.0, 4.0, 4.0, 4.0, 5.0]) == 77.0;
      assert [2.0, 4.0, 4.0, 4.0, 5.0, 5.0][..5] == [2.0, 4.0, 4.0, 4.0, 5.0];
      assert Sum([2.0, 4.0, 4.0, 4.0, 5.0, 5.0]) == 24.0 && SumSq([2.0, 4.0, 4.0, 4.0, 5.0, 5.0]) == 102.0;
      assert [2.0, 4.0, 4.0, 4.0, 5.0, 5.0, 7.0][..6] == [2.0, 4.0, 4.0, 4.0, 5.0, 5.0];
      assert Sum([2.0, 4.0, 4.0, 4.0, 5.0, 5.0, 7.0]) == 31.0 && SumSq([2.0, 4.0, 4.0, 4.0, 5.0, 5.0, 7.0]) == 151.0;
      assert [2.0, 4.0, 4.0, 4.0, 5.0, 5.0, 7.0, 9.0][..7] == [2.0, 4.0, 4.0, 4.0, 5.0, 5.0, 7.0];
      assert Sum([2.0, 4.0, 4.0, 4.0, 5.0, 5.0, 7.0, 9.0]) == 40.0 && SumSq([2.0, 4.0, 4.0, 4.0, 5.0, 5.0, 7.0, 9.0]) == 232.0;
    }
    var st := FromSamples(xs, ts);
    assert st.min in xs && st.max in xs;
    assert st.min <= xs[0] && st.max >= xs[7];
  }

  /** Each update sets diff to the change since LAST and interval to the
      time since TIME; the rate covers that interval when the time moved and
      is kept otherwise. */
  lemma DiffIntervalRate(st: Stats, x: real, t: int)
    requires st.count >= 1.0
    ensures var s' := Observe(st, x, t);
            s'.diff == x - st.last && s'.interval == t - st.time
            && (t != st.time ==> s'.rate * Seconds(s'.interval) == s'.diff)
            && (t == st.time ==> s'.rate == st.rate)
            && s'.last == x && s'.time == t
  {
  }

  /** Which statistics `PushValue` emits: count, min, max, mean and sum
      always; s2, stdev, diff, rate and interval from the second value on;
      the non-negative ones also need a diff that is not negative; nothing
      else. */
  lemma PushValueValidity(st: Stats, field: string, sqrt: real -> real)
    ensures var (v, ok) := PushValue(st, field, sqrt);
            (ok <==> (field in ["count", "min", "max", "mean", "sum"]
                      || (field in ["s2", "stdev", "diff", "rate", "interval"] && st.count > 1.0)
                      || (field in ["non_negative_diff", "non_negative_rate"] && st.count > 1.0 && st.diff >= 0.0)))
            && (ok ==> field in ProcessorConfig.Allowed)
            && (field !in ProcessorConfig.Allowed ==> (v, ok) == (0.0, false))
  {
  }

  /** An entry's s2 is the sample variance of the values it summarises, and
      so never negative. */
  lemma S2IsSampleVariance(st: Stats, xs: seq<real>, s: real, q: real, sqrt: real -> real)
    requires Summarises(st, xs) && |xs| >= 2 && s == Sum(xs) && q == SumSq(xs)
    ensures var n := |xs| as real;
            PushValue(st, "s2", sqrt) == ((q - s * s / n) / (n - 1.0), true)
            && PushValue(st, "s2", sqrt).0 >= 0.0
  {
    var n := |xs| as real;
    SummaryAsQuotients(st, xs, s, q);
    assert PushValue(st, "s2", sqrt) == (st.m2 / (st.count - 1.0), true);
    DivNonNegative(st.m2, n - 1.0);
  }

  // ---------------------------------------------------------------------
  // The cache

  /** The first value of a key stores count 1, min = max = mean = sum =
      value, diff = rate = M2 = 0, LAST = value and TIME = t. */
  lemma AddFirst(c: Cache, name: string, key: string, value: GoValue, t: int)
    requires Valid(c) && !Has(c, name, key) && Convert(value).Some?
    ensures var c' := AddToCacheStep(c, name, key, value, t);
            var fv := Convert(value).value;
            Has(c', name, key)
            && c'[name].fields[key] == Stats(1.0, fv, fv, fv, fv, 0.0, 0.0, 0, 0.0, fv, t)
  {
  }

  /** A later value is folded in by `Observe`: count + 1, sum + value, and
      min/max widened to include it. */
  lemma AddLater(c: Cache, name: string, key: string, value: GoValue, t: int)
    requires Valid(c) && Has(c, name, key) && Convert(value).Some?
    ensures var c' := AddToCacheStep(c, name, key, value, t);
            var st := c[name].fields[key];
            var fv := Convert(value).value;
            Has(c', name, key) && c'[name].fields[key] == Observe(st, fv, t)
            && c'[name].fields[key].count == st.count + 1.0
            && c'[name].fields[key].sum == st.sum + fv
            && c'[name].fields[key].min <= fv <= c'[name].fields[key].max
            && c'[name].fields[key].min <= st.min && st.max <= c'[name].fields[key].max
  {
  }

  /** A value `convert` refuses changes no entry. */
  lemma AddUnconvertible(c: Cache, name: string, key: string, value: GoValue, t: int)
    requires Valid(c) && Convert(value).None?
    ensures var c' := AddToCacheStep(c, name, key, value, t);
            c'.Keys == c.Keys + {name}
            && (forall n, k | Has(c, n, k) :: Has(c', n, k) && c'[n].fields[k] == c[n].fields[k])
            && (forall k :: !Has(c', name, k) || Has(c, name, k))
  {
  }

  /** Only the entry of (name, key) changes. */
  lemma AddFrame(c: Cache, name: string, key: string, value: GoValue, t: int, n: string, k: string)
    requires Valid(c) && Has(c, n, k) && (n, k) != (name, key)
    ensures var c' := AddToCacheStep(c, name, key, value, t);
            Has(c', n, k) && c'[n].fields[k] == c[n].fields[k]
  {
  }

  /** No entry disappears, and a convertible value always leaves an entry
      under its own name and key. */
  lemma AddKeepsEntries(c: Cache, name: string, key: string, value: GoValue, t: int)
    requires Valid(c)
    ensures var c' := AddToCacheStep(c, name, key, value, t);
            (forall n, k | Has(c, n, k) :: Has(c', n, k))
            && (Convert(value).Some? ==> Has(c', name, key))
  {
  }

  lemma ObserveValid(st: Stats, x: real, t: int)
    requires ValidEntry(st)
    ensures ValidEntry(Observe(st, x, t))
  {
    WelfordM2Grows(st.mean, st.count, st.m2, x);
  }

  lemma AddToCacheValid(c: Cache, name: string, key: string, value: GoValue, t: int)
    requires Valid(c)
    ensures Valid(AddToCacheStep(c, name, key, value, t))
  {
    if Has(c, name, key) && Convert(value).Some? {
      ObserveValid(c[name].fields[key], Convert(value).value, t);
    }
  }
}
