/** The exporter's bounded record buffer, as exporter/vmonitorexporter/buffer_test.go
    and the drain loops use it: `NewBuffer`, `Len`, `Add`, `Batch`, `Accept`,
    `Reject`. The buffer's own source is not part of this model; the contents
    are a sequence, oldest first. */
module MetricBuffer {
  import opened Common
  import opened Metric

  /** How many records `Batch(n)` hands out of `len` buffered ones. */
  function BatchCount(n: int, len: nat): nat
  {
    if n <= 0 then 0 else Min(n, len)
  }

  /** The newest `capacity` records of `rs` (all of them when they fit):
      an overfilled buffer evicts its oldest records. */
  function KeepNewest(rs: seq<Record>, capacity: nat): (r: seq<Record>)
    ensures |r| == Min(|rs|, capacity)
    ensures r == rs[|rs| - |r|..]
  {
    if |rs| <= capacity then rs else rs[|rs| - capacity..]
  }

  /** `n` fresh records, as the tests' `MetricsArr` builds them. */
  function MetricsArr(n: nat): (ms: seq<Record>)
    ensures |ms| == n
  {
    seq(n, _ => NewMetric())
  }

  class Buffer {
    const capacity: nat
    var records: seq<Record>

    ghost predicate Valid()
      reads this
    {
      |records| <= capacity
    }

    /** `NewBuffer(capacity)`: an empty buffer. */
    constructor (capacity: nat)
      ensures this.capacity == capacity && records == [] && Valid()
    {
      this.capacity := capacity;
      records := [];
    }

    method Len() returns (n: nat)
      ensures n == |records|
    {
      n := |records|;
    }

    /** `Add`: append in order, then evict the oldest beyond `capacity`. */
    method Add(ms: seq<Record>)
      requires Valid()
      modifies this
      ensures Valid()
      ensures records == KeepNewest(old(records) + ms, capacity)
    {
      records := KeepNewest(records + ms, capacity);
    }

    /** `Batch(n)`: the oldest min(n, Len) records, none for a size that is
        not positive; the buffer is unchanged. */
    method Batch(n: int) returns (batch: seq<Record>)
      ensures |batch| == BatchCount(n, |records|)
      ensures batch == records[..|batch|]
    {
      if n <= 0 {
        return [];
      }
      batch := records[..Min(n, |records|)];
    }

    /** `Accept(batch)`: remove a batch previously returned by `Batch`. */
    method Accept(batch: seq<Record>)
      requires Valid() && batch <= records
      modifies this
      ensures Valid()
      ensures records == old(records)[|batch|..]
    {
      records := records[|batch|..];
    }

    /** `Reject(batch)`: leaves the records in place for the next drain. */
    method Reject(batch: seq<Record>)
    {
    }
  }

  /** buffer_test.go, TestBuffer_LenEmpty. */
  method LenEmpty() returns (n: nat)
    ensures n == 0
  {
    var b := new Buffer(5);
    n := b.Len();
  }

  /** buffer_test.go, TestBuffer_LenOne, _LenFull and _LenOverfill: adding
      k records to an empty buffer of capacity 5 gives Len min(k, 5). */
  method LenAfterAdd(k: nat) returns (n: nat)
    ensures n == Min(k, 5)
  {
    var b := new Buffer(5);
    b.Add(MetricsArr(k));
    n := b.Len();
  }

  /** buffer_test.go, TestBuffer_BatchLen*: with k records buffered (capacity
      5), `Batch(m)` returns min(m, min(k, 5)) records; zero when m is zero or
      the buffer is empty. */
  method BatchLen(k: nat, m: nat) returns (n: nat)
    ensures n == Min(m, Min(k, 5))
    ensures m == 0 || k == 0 ==> n == 0
  {
    var b := new Buffer(5);
    b.Add(MetricsArr(k));
    var batch := b.Batch(m);
    n := |batch|;
  }

  /** buffer_test.go, TestBuffer_BatchWrap: fill, accept two, add two more,
      and a batch of five is full again. */
  method BatchWrap() returns (n: nat)
    ensures n == 5
  {
    var b := new Buffer(5);
    b.Add(MetricsArr(5));
    var batch := b.Batch(2);
    b.Accept(batch);
    b.Add(MetricsArr(2));
    batch := b.Batch(5);
    n := |batch|;
  }
}
