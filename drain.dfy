/** The drain loop `writeBatch`, identical in
    exporter/vmonitorexporter/metrics_exporter.go and logs_exporter.go: take
    at most len/batchSize + 1 batches, write each, accept it on nil, reject
    it and stop on an error. The sleep between batches is time passing, which
    the oracles' clocks carry. The batch size is the configuration's unchecked
    integer: zero makes `len/batchSize` panic, and a negative size gives at
    most one round, whose batch is empty. */
module Drain {
  import opened Common
  import opened Metric
  import opened Delivery
  import opened MetricBuffer

  /** How `writeBatch` fails: an error returned by `WriteBatch`, or the
      run-time panic of the integer division by a zero batch size. */
  datatype DrainError = WriteFailed(cause: DeliveryError) | DivideByZero

  datatype DrainResult = DrainResult(
    state: DeliveryState,       // the delivery state afterwards
    records: seq<Record>,       // the buffer afterwards
    err: Option<DrainError>,    // what `writeBatch` returns, or its panic
    accepted: nat,              // records accepted (removed)
    attempts: nat)              // batches handed to `WriteBatch`

  /** One `WriteBatch` call of the delivery engine. */
  type Step = (DeliveryState, seq<Record>, Oracle) -> Outcome

  /** At most `rounds` more iterations of the loop, each batch written by
      `step`; `os[j]` answers the j-th write. Only a positive batch size
      draws records, so only then are oracles needed. */
  function DrainRounds(step: Step, s: DeliveryState, records: seq<Record>, batchSize: int,
                       os: seq<Oracle>, rounds: int): DrainResult
    requires batchSize <= 0 || |os| >= rounds
    decreases rounds
  {
    if rounds <= 0 then DrainResult(s, records, None, 0, 0)
    else
      var batch := records[..BatchCount(batchSize, |records|)];
      if batch == [] then DrainResult(s, records, None, 0, 0)
      else
        var w := step(s, batch, os[0]);
        if w.err.Some? then DrainResult(w.state, records, Some(WriteFailed(w.err.value)), 0, 1)
        else
          var r := DrainRounds(step, w.state, records[|batch|..], batchSize, os[1..], rounds - 1);
          r.(accepted := r.accepted + |batch|, attempts := r.attempts + 1)
  }

  /** How many writes a drain of `n` records may perform, hence how many
      oracles it needs: none unless the batch size is positive. */
  function Batches(n: nat, batchSize: int): nat
  {
    if batchSize > 0 then n / batchSize + 1 else 0
  }

  lemma MulMonotone(x: int, y: int, b: nat)
    requires x <= y
    ensures x * b <= y * b
  {
    assert y * b - x * b == (y - x) * b;
  }

  /** A shorter buffer never needs more rounds. */
  lemma BatchesMonotone(n: nat, m: nat, batchSize: int)
    requires n <= m
    ensures Batches(n, batchSize) <= Batches(m, batchSize)
  {
    if batchSize <= 0 {
      return;
    }
    var a := n / batchSize;
    var q := m / batchSize;
    assert a * batchSize + n % batchSize == n;
    assert q * batchSize + m % batchSize == m;
    if a > q {
      MulMonotone(q + 1, a, batchSize);
      assert false;
    }
  }

  /** `writeBatch` over the buffer contents `records`: a zero batch size
      panics in the division, before the loop. */
  function DrainSpec(s: DeliveryState, records: seq<Record>, batchSize: int, os: seq<Oracle>): DrainResult
    requires |os| >= Batches(|records|, batchSize)
  {
    if batchSize == 0 then DrainResult(s, records, Some(DivideByZero), 0, 0)
    else DrainRounds(WriteBatchStep, s, records, batchSize, os, TruncDiv(|records|, batchSize) + 1)
  }

  /** `k` whole batches of `batchSize` records, counted without
      multiplication so that the drain lemmas stay linear. */
  function Span(k: nat, batchSize: nat): (n: nat)
  {
    if k == 0 then 0 else Span(k - 1, batchSize) + batchSize
  }

  lemma {:induction false} SpanIsProduct(k: nat, batchSize: nat)
    ensures Span(k, batchSize) == k * batchSize
  {
    if k > 0 {
      SpanIsProduct(k - 1, batchSize);
    }
  }

  /** The loop only ever removes a prefix of the buffer and attempts at
      most `rounds` batches. */
  lemma {:induction false} DrainRoundsPrefix(step: Step, s: DeliveryState, records: seq<Record>, batchSize: nat,
                                             os: seq<Oracle>, rounds: nat)
    requires batchSize > 0 && |os| >= rounds
    ensures var r := DrainRounds(step, s, records, batchSize, os, rounds);
            r.accepted <= |records| && r.records == records[r.accepted..] && r.attempts <= rounds
    decreases rounds
  {
    if rounds > 0 {
      var batch := records[..Min(batchSize, |records|)];
      if batch != [] {
        var w := step(s, batch, os[0]);
        if w.err.None? {
          var rest := records[|batch|..];
          var r := DrainRounds(step, w.state, rest, batchSize, os[1..], rounds - 1);
          assert DrainRounds(step, s, records, batchSize, os, rounds)
                 == r.(accepted := r.accepted + |batch|, attempts := r.attempts + 1);
          assert r.accepted <= |rest| && r.records == rest[r.accepted..] && r.attempts <= rounds - 1 by {
            DrainRoundsPrefix(step, w.state, rest, batchSize, os[1..], rounds - 1);
          }
          assert rest[r.accepted..] == records[|batch| + r.accepted..];
        }
      }
    }
  }

  /** A drain that failed did so on its first unaccepted batch of `n`
      records, after accepting only full batches. */
  ghost predicate FailedAfterFullBatches(r: DrainResult, n: nat, batchSize: nat)
  {
    r.err.Some? ==> r.err.value.WriteFailed? && r.attempts >= 1 && r.accepted == Span(r.attempts - 1, batchSize) && r.accepted < n
  }

  /** One accepted batch of `batchLen` records in front of a drain of the
      remaining `recLen - batchLen` records. */
  lemma ErrorStep(r: DrainResult, batchLen: nat, recLen: nat, batchSize: nat)
    requires batchLen == Min(batchSize, recLen) && FailedAfterFullBatches(r, recLen - batchLen, batchSize)
    ensures FailedAfterFullBatches(r.(accepted := r.accepted + batchLen, attempts := r.attempts + 1), recLen, batchSize)
  {
  }

  /** The loop stops at the first error without accepting that batch;
      every batch accepted before it was a full batch. */
  lemma {:induction false} DrainRoundsError(step: Step, s: DeliveryState, records: seq<Record>, batchSize: nat,
                                            os: seq<Oracle>, rounds: nat)
    requires batchSize > 0 && |os| >= rounds
    ensures FailedAfterFullBatches(DrainRounds(step, s, records, batchSize, os, rounds), |records|, batchSize)
    decreases rounds
  {
    if rounds > 0 {
      var batch := records[..Min(batchSize, |records|)];
      if batch != [] {
        var w := step(s, batch, os[0]);
        if w.err.None? {
          var rest := records[|batch|..];
          var r := DrainRounds(step, w.state, rest, batchSize, os[1..], rounds - 1);
          assert DrainRounds(step, s, records, batchSize, os, rounds)
                 == r.(accepted := r.accepted + |batch|, attempts := r.attempts + 1);
          DrainRoundsError(step, w.state, rest, batchSize, os[1..], rounds - 1);
          ErrorStep(r, |batch|, |records|, batchSize);
        }
      }
    }
  }

  /** When every write succeeds and the rounds cover the contents, the
      buffer ends empty. */
  lemma {:induction false} DrainRoundsEmpties(step: Step, s: DeliveryState, records: seq<Record>, batchSize: nat,
                                              os: seq<Oracle>, rounds: nat)
    requires batchSize > 0 && |os| >= rounds && Span(rounds, batchSize) > |records|
    ensures var r := DrainRounds(step, s, records, batchSize, os, rounds);
            r.err.None? ==> r.records == [] && r.accepted == |records|
    decreases rounds
  {
    var batch := records[..Min(batchSize, |records|)];
    if batch != [] {
      var w := step(s, batch, os[0]);
      if w.err.None? {
        var rest := records[|batch|..];
        if rest != [] {
          assert Span(rounds, batchSize) == Span(rounds - 1, batchSize) + batchSize;
          DrainRoundsEmpties(step, w.state, rest, batchSize, os[1..], rounds - 1);
        }
      }
    }
  }

  /** The drain keeps the delivery invariant. */
  lemma {:induction false} DrainRoundsValid(step: Step, s: DeliveryState, records: seq<Record>, batchSize: nat,
                                            os: seq<Oracle>, rounds: nat)
    requires batchSize > 0 && |os| >= rounds && Valid(s)
    requires forall s1: DeliveryState, b: seq<Record>, o: Oracle | Valid(s1) :: Valid(step(s1, b, o).state)
    ensures Valid(DrainRounds(step, s, records, batchSize, os, rounds).state)
    decreases rounds
  {
    if rounds > 0 {
      var batch := records[..Min(batchSize, |records|)];
      if batch != [] {
        var w := step(s, batch, os[0]);
        if w.err.None? {
          DrainRoundsValid(step, w.state, records[|batch|..], batchSize, os[1..], rounds - 1);
        }
      }
    }
  }

  /** The whole drain: on nil the buffer ends empty; on an error the buffer
      lost exactly the batches written before it, which are whole batches.
      A batch size of zero is the panic, with nothing written or removed; a
      negative one writes and removes nothing and returns nil. */
  lemma DrainContract(s: DeliveryState, records: seq<Record>, batchSize: int, os: seq<Oracle>)
    requires |os| >= Batches(|records|, batchSize)
    ensures var r := DrainSpec(s, records, batchSize, os);
            r.accepted <= |records| && r.records == records[r.accepted..]
            && (r.err == Some(DivideByZero) <==> batchSize == 0)
            && (batchSize <= 0 ==> r.state == s && r.records == records && r.attempts == 0)
            && (batchSize < 0 ==> r.err.None?)
            && (batchSize > 0 ==>
                  r.attempts <= |records| / batchSize + 1
                  && (r.err.None? ==> r.records == [] && r.accepted == |records|)
                  && (r.err.Some? ==> r.err.value.WriteFailed?
                                      && r.accepted == (r.attempts - 1) * batchSize && r.accepted < |records|))
    ensures Valid(s) ==> Valid(DrainSpec(s, records, batchSize, os).state)
  {
    if batchSize <= 0 {
      return;
    }
    var n: nat := Batches(|records|, batchSize);
    assert Span(n, batchSize) > |records| by {
      SpanIsProduct(n, batchSize);
      assert |records| == (|records| / batchSize) * batchSize + |records| % batchSize;
    }
    DrainRoundsPrefix(WriteBatchStep, s, records, batchSize, os, n);
    DrainRoundsError(WriteBatchStep, s, records, batchSize, os, n);
    DrainRoundsEmpties(WriteBatchStep, s, records, batchSize, os, n);
    if Valid(s) {
      forall s1: DeliveryState, b: seq<Record>, o: Oracle | Valid(s1)
        ensures Valid(WriteBatchStep(s1, b, o).state)
      {
        WriteBatchValid(s1, b, o);
      }
      DrainRoundsValid(WriteBatchStep, s, records, batchSize, os, n);
    }
    var r := DrainSpec(s, records, batchSize, os);
    if r.err.Some? {
      SpanIsProduct(r.attempts - 1, batchSize);
    }
  }

  /** A drop decided by the delivery engine (for instance inside the back-off
      window) is a nil result: the batch is accepted and leaves the buffer. */
  lemma DroppedBatchesAreAccepted(s: DeliveryState, records: seq<Record>, batchSize: nat, os: seq<Oracle>)
    requires batchSize > 0 && |os| >= Batches(|records|, batchSize) && records != []
    requires s.dropCount > 1 && os[0].now < s.dropTime
    ensures DrainSpec(s, records, batchSize, os).accepted >= Min(batchSize, |records|)
  {
  }

  /** One accepted batch: the rest of the drain continues from the new
      state on the rest of the buffer. */
  lemma DrainRoundsNext(step: Step, s: DeliveryState, records: seq<Record>, batchSize: int,
                        os: seq<Oracle>, rounds: int)
    requires batchSize > 0 && |os| >= rounds > 0
    requires var batch := records[..BatchCount(batchSize, |records|)];
             batch != [] && step(s, batch, os[0]).err.None?
    ensures var batch := records[..BatchCount(batchSize, |records|)];
            var r := DrainRounds(step, s, records, batchSize, os, rounds);
            var q := DrainRounds(step, step(s, batch, os[0]).state, records[|batch|..], batchSize, os[1..], rounds - 1);
            r.state == q.state && r.records == q.records && r.err == q.err
  {
  }

  /** `writeBatch` itself: the loop over the buffer. */
  method DrainBuffer(buf: Buffer, out: VMonitorOutput, batchSize: int, os: seq<Oracle>)
    returns (err: Option<DrainError>)
    requires buf.Valid()
    requires |os| >= Batches(|buf.records|, batchSize)
    modifies buf, out
    ensures buf.Valid()
    ensures var r := DrainSpec(old(out.State()), old(buf.records), batchSize, os);
            out.State() == r.state && buf.records == r.records && err == r.err
  {
    var nBuffer := buf.Len();
    if batchSize == 0 {
      return Some(DivideByZero);
    }
    var nBatches := TruncDiv(nBuffer, batchSize) + 1;
    ghost var goal := DrainSpec(out.State(), buf.records, batchSize, os);
    var i := 0;
    while i < nBatches
      invariant 0 <= i <= |os| && (i == 0 || i <= nBatches) && buf.Valid()
      invariant batchSize <= 0 || nBatches <= |os|
      invariant var r := DrainRounds(WriteBatchStep, out.State(), buf.records, batchSize, os[i..], nBatches - i);
                r.state == goal.state && r.records == goal.records && r.err == goal.err
    {
      var batch := buf.Batch(batchSize);
      if |batch| == 0 {
        break;
      }
      ghost var before := out.State();
      var e, _ := out.WriteBatch(batch, os[i]);
      if e.Some? {
        buf.Reject(batch);
        return Some(WriteFailed(e.value));
      }
      DrainRoundsNext(WriteBatchStep, before, buf.records, batchSize, os[i..], nBatches - i);
      buf.Accept(batch);
      assert os[i..][1..] == os[i + 1..];
      i := i + 1;
    }
    return None;
  }
}
