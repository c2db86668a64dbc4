/** receiver/sqlqueryreceiver/logs_receiver.go `AddDigest`: the bounded,
    first-in-first-out cache of EXPLAIN results kept by each query
    receiver, keyed by query digest. The map holds the entries, the list
    `order` the keys oldest first; at `maxSize` entries the oldest key is
    evicted before a new one is added.

    The cached values are the EXPLAIN strings the receiver stores (typed
    `any` in the source). */
module DigestCache {
  import opened Common

  const MaxSize: nat := 100

  /** The map and the order list after `AddDigest(key, value)`. */
  function AddDigestStep<K(!new), V>(tracking: map<K, V>, order: seq<K>, maxSize: int, key: K, value: V)
    : (map<K, V>, seq<K>)
  {
    var evict := |tracking| >= maxSize && order != [];
    var tracking1 := if evict then tracking - {order[0]} else tracking;
    var order1 := if evict then order[1..] else order;
    (tracking1[key := value], order1 + [key])
  }

  /** The cache is consistent: `order` lists exactly the cached keys, each
      once, and there are at most `maxSize` of them. */
  ghost predicate Consistent<K(!new), V>(tracking: map<K, V>, order: seq<K>, maxSize: int)
  {
    maxSize >= 1
    && (forall i, j | 0 <= i < j < |order| :: order[i] != order[j])
    && (forall k :: k in tracking <==> k in order)
    && |tracking| <= maxSize
  }

  /** A list without repeats has as many distinct elements as entries. */
  lemma {:induction false} DistinctCard<K(!new)>(s: seq<K>)
    requires forall i, j | 0 <= i < j < |s| :: s[i] != s[j]
    ensures |set x | x in s| == |s|
  {
    if s != [] {
      var n := |s| - 1;
      DistinctCard(s[..n]);
      assert (set x | x in s) == (set x | x in s[..n]) + {s[n]};
      assert s[n] !in s[..n];
    }
  }

  /** In a consistent cache the order list is as long as the map. */
  lemma SizeIsOrderLength<K(!new), V>(tracking: map<K, V>, order: seq<K>, maxSize: int)
    requires Consistent(tracking, order, maxSize)
    ensures |tracking| == |order|
  {
    DistinctCard(order);
    assert tracking.Keys == set x | x in order;
  }

  /** After `AddDigest(key, value)` the key holds the value and is the
      newest in `order`; the oldest key went first if the map was full. */
  lemma AddDigestStores<K(!new), V>(tracking: map<K, V>, order: seq<K>, maxSize: int, key: K, value: V)
    ensures var (t, o) := AddDigestStep(tracking, order, maxSize, key, value);
            key in t && t[key] == value && o != [] && o[|o| - 1] == key
            && (|tracking| >= maxSize && order != [] ==>
                  o == order[1..] + [key] && (order[0] != key ==> order[0] !in t))
            && (|tracking| < maxSize || order == [] ==> o == order + [key] && t == tracking[key := value])
  {
  }

  /** Adding a digest that is not cached keeps the cache consistent: the
      map never grows beyond `maxSize` and `order` stays in step with it. */
  lemma AddDigestConsistent<K(!new), V>(tracking: map<K, V>, order: seq<K>, maxSize: int, key: K, value: V)
    requires Consistent(tracking, order, maxSize) && key !in tracking
    ensures var (t, o) := AddDigestStep(tracking, order, maxSize, key, value);
            Consistent(t, o, maxSize)
  {
    if |tracking| >= maxSize {
      EvictConsistent(tracking, order, maxSize);
      AppendConsistent(tracking - {order[0]}, order[1..], maxSize, key, value);
    } else {
      AppendConsistent(tracking, order, maxSize, key, value);
    }
  }

  /** Evicting the oldest key of a full cache leaves it consistent, with
      room for one more. */
  lemma EvictConsistent<K(!new), V>(tracking: map<K, V>, order: seq<K>, maxSize: int)
    requires Consistent(tracking, order, maxSize) && |tracking| >= maxSize
    ensures order != []
    ensures Consistent(tracking - {order[0]}, order[1..], maxSize)
    ensures |tracking - {order[0]}| < maxSize
  {
    SizeIsOrderLength(tracking, order, maxSize);
    var t1 := tracking - {order[0]};
    assert |t1| == |tracking| - 1;
    assert forall i | 0 <= i < |order[1..]| :: order[1..][i] == order[i + 1];
    assert forall k :: k in order <==> k == order[0] || k in order[1..];
  }

  /** Adding a new key to a cache with room keeps it consistent. */
  lemma AppendConsistent<K(!new), V>(tracking: map<K, V>, order: seq<K>, maxSize: int, key: K, value: V)
    requires Consistent(tracking, order, maxSize) && |tracking| < maxSize && key !in tracking
    ensures Consistent(tracking[key := value], order + [key], maxSize)
  {
    var o := order + [key];
    assert forall i | 0 <= i < |o| - 1 :: o[i] == order[i];
    assert forall k :: k in o <==> k in order || k == key;
  }

  /** Re-adding a cached digest breaks the bookkeeping: with room to spare
      the key is listed twice, and the later eviction of that stale entry
      lets the map grow past `maxSize` (here 3 entries with `maxSize` 2,
      after adding a, a, b, c, d). */
  lemma ReAddOverflows<K(!new), V>(a: K, b: K, c: K, d: K, v: V)
    requires a != b && a != c && a != d && b != c && b != d && c != d
    ensures var s1 := AddDigestStep(map[], [], 2, a, v);
            var s2 := AddDigestStep(s1.0, s1.1, 2, a, v);
            var s3 := AddDigestStep(s2.0, s2.1, 2, b, v);
            var s4 := AddDigestStep(s3.0, s3.1, 2, c, v);
            var s5 := AddDigestStep(s4.0, s4.1, 2, d, v);
            s2.1 == [a, a] && s5.0.Keys == {b, c, d} && |s5.0| == 3
  {
    ReAddTwice(a, v);
    ReAddThird(a, b, v);
    ReAddFourth(a, b, c, v);
    ReAddFifth(a, b, c, d, v);
  }

  lemma ReAddTwice<K(!new), V>(a: K, v: V)
    ensures var s1 := AddDigestStep(map[], [], 2, a, v);
            var s2 := AddDigestStep(s1.0, s1.1, 2, a, v);
            s2.0 == map[a := v] && s2.1 == [a, a]
  {
    var s1 := AddDigestStep(map[], [], 2, a, v);
    assert s1.0 == map[a := v] && s1.1 == [a];
    assert |s1.0| == 1;
    assert s1.0[a := v] == map[a := v];
  }

  lemma ReAddThird<K(!new), V>(a: K, b: K, v: V)
    requires a != b
    ensures var s := AddDigestStep(map[a := v], [a, a], 2, b, v);
            s.0 == map[a := v, b := v] && s.1 == [a, a, b]
  {
    assert |map[a := v]| == 1;
  }

  lemma ReAddFourth<K(!new), V>(a: K, b: K, c: K, v: V)
    requires a != b && a != c && b != c
    ensures var s := AddDigestStep(map[a := v, b := v], [a, a, b], 2, c, v);
            s.0 == map[b := v, c := v] && s.1 == [a, b, c]
  {
    var m := map[a := v, b := v];
    assert m.Keys == {a, b};
    assert |m| == 2;
    assert m - {a} == map[b := v];
    assert [a, a, b][1..] == [a, b];
  }

  lemma ReAddFifth<K(!new), V>(a: K, b: K, c: K, d: K, v: V)
    requires a != b && a != c && a != d && b != c && b != d && c != d
    ensures var s := AddDigestStep(map[b := v, c := v], [a, b, c], 2, d, v);
            s.0.Keys == {b, c, d} && |s.0| == 3
  {
    var m := map[b := v, c := v];
    assert m.Keys == {b, c};
    assert |m| == 2;
    assert m - {a} == m;
    var m5 := m[d := v];
    assert m5.Keys == {b, c, d};
    assert |{b, c, d}| == 3;
  }

  /** One query receiver's digest cache. */
  class DigestTracker {
    var trackingDigest: map<string, string>
    var order: seq<string>
    const maxSize: int

    ghost predicate Valid()
      reads this
    {
      Consistent(trackingDigest, order, maxSize)
    }

    /** As `newLogsQueryReceiver` sets it up: empty, with room for 100. */
    constructor ()
      ensures trackingDigest == map[] && order == [] && maxSize == MaxSize && Valid()
    {
      trackingDigest := map[];
      order := [];
      maxSize := MaxSize;
    }

    /** `AddDigest`. Callers add only digests that are not cached; under
        that condition the cache stays consistent. */
    method AddDigest(key: string, value: string)
      modifies this
      ensures (trackingDigest, order) == AddDigestStep(old(trackingDigest), old(order), maxSize, key, value)
      ensures old(Valid()) && key !in old(trackingDigest) ==> Valid()
    {
      if |trackingDigest| >= maxSize {
        if order != [] {
          var oldest := order[0];
          trackingDigest := trackingDigest - {oldest};
          order := order[1..];
        }
      }
      trackingDigest := trackingDigest[key := value];
      order := order + [key];
      if old(Valid()) && key !in old(trackingDigest) {
        AddDigestConsistent(old(trackingDigest), old(order), maxSize, key, value);
      }
    }

    /** The lookup the receiver does before running EXPLAIN. */
    function Lookup(key: string): (r: Option<string>)
      reads this
      ensures r.Some? <==> key in trackingDigest
      ensures r.Some? ==> r.value == trackingDigest[key]
    {
      if key in trackingDigest then Some(trackingDigest[key]) else None
    }
  }
}
