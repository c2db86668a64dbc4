/** exporter/vmonitorexporter/basicstats2.go: the per-(metric name, key)
    cache behind the logs exporter's "diff" metrics. Only count, diff and
    the last value are kept; `PushValue` answers only "diff", and only once
    a second value has arrived and the counter has not gone down.

    `ProcessValue` receives a float64, so its `convert2` call always
    succeeds; the `(-1, false)` branch after it cannot be reached and does
    not appear here. */
module DiffCache {

  /** `basicstats2`: count, diff and LAST. */
  datatype Stats = Stats(count: real, diff: real, last: real)

  /** `aggregate2`: one metric name's entries, by key. */
  datatype Aggregate = Aggregate(name: string, fields: map<string, Stats>)

  type Cache = map<string, Aggregate>

  /** The entry stored for the first value of a key. */
  function First(fv: real): Stats
  {
    Stats(1.0, 0.0, fv)
  }

  /** The entry after one more value. */
  function Next(st: Stats, fv: real): Stats
  {
    Stats(st.count + 1.0, fv - st.last, fv)
  }

  /** `basicstats2.PushValue`. */
  function PushValue(st: Stats, field: string): (real, bool)
  {
    if field == "diff" then (st.diff, st.count > 1.0 && st.diff >= 0.0)
    else (0.0, false)
  }

  predicate Has(c: Cache, name: string, key: string)
  {
    name in c && key in c[name].fields
  }

  /** The cache after `ProcessValue(name, key, _, value)`. */
  function Store(c: Cache, name: string, key: string, value: real): Cache
  {
    if name !in c then c[name := Aggregate(name, map[key := First(value)])]
    else if key !in c[name].fields then c[name := c[name].(fields := c[name].fields[key := First(value)])]
    else c[name := c[name].(fields := c[name].fields[key := Next(c[name].fields[key], value)])]
  }

  /** `ProcessValue`: the new cache and the answer for `field` from the
      updated entry. */
  function ProcessValueStep(c: Cache, name: string, key: string, field: string, value: real): (Cache, (real, bool))
  {
    var c' := Store(c, name, key, value);
    (c', PushValue(c'[name].fields[key], field))
  }

  /** Every entry has seen at least one value. */
  ghost predicate Valid(c: Cache)
  {
    forall n, k | n in c && k in c[n].fields :: c[n].fields[k].count >= 1.0
  }

  // ---------------------------------------------------------------------
  // Properties

  /** The first value of a key stores count 1, diff 0, LAST = value, and is
      never emitted. */
  lemma FirstObservation(c: Cache, name: string, key: string, field: string, value: real)
    requires !Has(c, name, key)
    ensures var (c', r) := ProcessValueStep(c, name, key, field, value);
            Has(c', name, key) && c'[name].fields[key] == Stats(1.0, 0.0, value) && !r.1
  {
  }

  /** A later value adds one to the count, sets diff to the change since
      the previous value and remembers the value. */
  lemma LaterObservation(c: Cache, name: string, key: string, field: string, value: real)
    requires Has(c, name, key)
    ensures var (c', _) := ProcessValueStep(c, name, key, field, value);
            var old_ := c[name].fields[key];
            Has(c', name, key)
            && c'[name].fields[key] == Stats(old_.count + 1.0, value - old_.last, value)
  {
  }

  /** "diff" is answered with the stored diff, valid exactly when a second
      value has arrived and the diff is not negative; a decrease is
      suppressed but still becomes the new LAST. Every other field is
      (0, false). */
  lemma AnswerRules(c: Cache, name: string, key: string, field: string, value: real)
    ensures var (c', r) := ProcessValueStep(c, name, key, field, value);
            var st := c'[name].fields[key];
            st.last == value
            && (field == "diff" ==> r.0 == st.diff && (r.1 <==> st.count > 1.0 && st.diff >= 0.0))
            && (field != "diff" ==> r == (0.0, false))
  {
  }

  /** Nothing but the entry of (name, key) changes, and no entry disappears. */
  lemma OtherEntriesUnchanged(c: Cache, name: string, key: string, field: string, value: real,
                              n: string, k: string)
    requires Has(c, n, k) && (n, k) != (name, key)
    ensures var (c', _) := ProcessValueStep(c, name, key, field, value);
            Has(c', n, k) && c'[n].fields[k] == c[n].fields[k]
  {
  }

  /** Storing a value replaces the entry of its metric name and nothing else. */
  lemma OtherNamesUnchanged(c: Cache, name: string, key: string, value: real)
    ensures var c' := Store(c, name, key, value);
            name in c' && c' == c[name := c'[name]]
  {
  }

  lemma ProcessValueValid(c: Cache, name: string, key: string, field: string, value: real)
    requires Valid(c)
    ensures Valid(ProcessValueStep(c, name, key, field, value).0)
  {
  }

  /** An emitted diff is never negative. */
  lemma EmittedNonNegative(c: Cache, name: string, key: string, field: string, value: real)
    ensures var (_, r) := ProcessValueStep(c, name, key, field, value);
            r.1 ==> r.0 >= 0.0
  {
  }

  /** After `Reset` the cache is empty, so every key behaves as new. */
  lemma ResetForgets(name: string, key: string, field: string, value: real)
    ensures var (c', r) := ProcessValueStep(map[], name, key, field, value);
            c'[name].fields[key] == First(value) && !r.1
  {
  }

  /** Feeding the values `vs` for one key, from scratch. */
  function Feed(c: Cache, name: string, key: string, vs: seq<real>): Cache
    decreases |vs|
  {
    if vs == [] then c else Feed(Store(c, name, key, vs[0]), name, key, vs[1..])
  }

  /** After n values the entry has count n and LAST the latest value, and
      diff is the change between the last two. */
  lemma {:induction false} FeedCounts(c: Cache, name: string, key: string, vs: seq<real>)
    requires !Has(c, name, key) && vs != []
    ensures var c' := Feed(c, name, key, vs);
            Has(c', name, key) && c'[name].fields[key].count == |vs| as real
            && c'[name].fields[key].last == vs[|vs| - 1]
            && (|vs| >= 2 ==> c'[name].fields[key].diff == vs[|vs| - 1] - vs[|vs| - 2])
  {
    var c1 := Store(c, name, key, vs[0]);
    FeedMore(c1, name, key, vs[1..]);
  }

  lemma {:induction false} FeedMore(c: Cache, name: string, key: string, vs: seq<real>)
    requires Has(c, name, key)
    ensures var c' := Feed(c, name, key, vs);
            var st := c[name].fields[key];
            Has(c', name, key) && c'[name].fields[key].count == st.count + |vs| as real
            && c'[name].fields[key].last == (if vs == [] then st.last else vs[|vs| - 1])
            && (vs != [] ==>
                  c'[name].fields[key].diff == vs[|vs| - 1] - (if |vs| == 1 then st.last else vs[|vs| - 2]))
    decreases |vs|
  {
    if vs != [] {
      var c1 := Store(c, name, key, vs[0]);
      FeedMore(c1, name, key, vs[1..]);
      if |vs| >= 2 {
        assert vs[1..][|vs[1..]| - 1] == vs[|vs| - 1];
      }
    }
  }

  /** A counter seen at 10 and then at 7 (a reset) emits nothing; seen at
      10 and then at 13 it emits 3. */
  lemma CounterExamples(name: string, key: string)
    ensures var (c1, r1) := ProcessValueStep(map[], name, key, "diff", 10.0);
            r1 == (0.0, false)
            && ProcessValueStep(c1, name, key, "diff", 7.0).1 == (-3.0, false)
            && ProcessValueStep(c1, name, key, "diff", 13.0).1 == (3.0, true)
  {
  }

  // ---------------------------------------------------------------------
  // The processor object

  /** `BasicStats2`, as `NewBasicStats2Processor` builds it: an empty cache,
      stats ["diff"], originals dropped. */
  class BasicStats2 {
    var cache: Cache
    const stats: seq<string>
    const dropOriginal: bool

    constructor ()
      ensures cache == map[] && stats == ["diff"] && dropOriginal
    {
      cache := map[];
      stats := ["diff"];
      dropOriginal := true;
    }

    /** `ProcessValue`: update the entry of (name, key) in place and answer
        `field` from it. */
    method ProcessValue(name: string, key: string, field: string, value: real)
      returns (stat: real, ok: bool)
      modifies this
      ensures (cache, (stat, ok)) == ProcessValueStep(old(cache), name, key, field, value)
    {
      if name !in cache {
        var a := Aggregate(name, map[]);
        a := a.(fields := a.fields[key := First(value)]);
        cache := cache[name := a];
        var r := PushValue(cache[name].fields[key], field);
        stat, ok := r.0, r.1;
        return;
      }
      if key !in cache[name].fields {
        cache := cache[name := cache[name].(fields := cache[name].fields[key := First(value)])];
        var r := PushValue(cache[name].fields[key], field);
        stat, ok := r.0, r.1;
        return;
      }
      var tmp := cache[name].fields[key];
      var n := tmp.count + 1.0;
      tmp := tmp.(count := n);
      tmp := tmp.(diff := value - tmp.last);
      tmp := tmp.(last := value);
      cache := cache[name := cache[name].(fields := cache[name].fields[key := tmp])];
      var r := PushValue(tmp, field);
      stat, ok := r.0, r.1;
    }

    /** `Reset`: forget every entry. */
    method Reset()
      modifies this
      ensures cache == map[]
    {
      cache := map[];
    }
  }
}
