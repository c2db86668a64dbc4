/** exporter/vmonitorexporter/output.go: the delivery engine's back-off and
    quota state machine.

    The network is an oracle: every HTTP exchange the engine would perform is
    an `Exchange` value handed in by the caller, and each read of the clock
    (nanoseconds) is a parameter. The pure `...Step` functions are the specification; the class
    `VMonitorOutput` holds the three mutable fields and its methods are proved
    to perform exactly those steps. */
module Delivery {
  import opened Common
  import opened Metric

  /** `retryTime`: the ceiling of the back-off multiplier (2^7). */
  const RetryTime: int := 128
  /** `checkQuotaRetry`: 30 seconds, in nanoseconds. */
  const CheckQuotaRetry: int := 30_000_000_000

  /** What happened to one HTTP exchange. */
  datatype Exchange =
    | MarshalFailed                       // the JSON body could not be encoded
    | BuildFailed                         // http.NewRequest failed
    | SendFailed                          // clientIam.Do failed (transport)
    | ReadFailed                          // io.ReadAll of the body failed
    | Answered(status: int, body: string) // a response arrived

  /** A request handed to the HTTP client. */
  datatype Request = QuotaCheck | SeriesPost(records: seq<Record>)

  datatype DeliveryError =
    | IamUnauthorized
    | IamForbidden
    | Conflict
    | StatusCode(code: int, body: string)
    | CannotCheckQuota(cause: DeliveryError)
    | QuotaMarshalFailed
    | QuotaBuildFailed
    | QuotaSendFailed
    | QuotaReadFailed
    | QuotaFail(code: int, body: string)
    | BatchMarshalFailed
    | RequestBuildFailed
    | IamRequestFail
    | ResponseReadFailed

  /** The `(bool, error)` pair of `handleResponse` and `checkQuota`. */
  datatype Verdict = Verdict(isDrop: bool, err: Option<DeliveryError>)

  datatype DeliveryState = DeliveryState(dropCount: int, dropTime: int, checkQuotaFirst: bool)

  /** Everything the outside world decides during one `WriteBatch` call: the
      pre-send quota check, the series POST, whether re-initialising the IAM
      client succeeds, the quota check a 428 triggers, and the clock. The
      clock is read afresh at each point: `now` at the back-off gate, and for
      each exchange the instant its answer is handled (the 200 reset of
      `checkQuota`, `doubleCheckTime` after a 409). */
  datatype Oracle = Oracle(
    now: int,
    preQuota: Exchange,
    preQuotaAt: int,
    post: Exchange,
    postAt: int,
    reinitOk: bool,
    retryQuota: Exchange,
    retryQuotaAt: int)

  /** The result of one call: new state, returned error, requests issued. */
  datatype Outcome = Outcome(state: DeliveryState, err: Option<DeliveryError>, sent: seq<Request>)

  /** The state both exporters construct. */
  function Initial(now: int): DeliveryState
  {
    DeliveryState(1, now, false)
  }

  predicate IsPow2(n: int)
    decreases if n < 0 then 0 else n
  {
    n == 1 || (n > 1 && n % 2 == 0 && IsPow2(n / 2))
  }

  function Pow2(k: nat): (p: int)
    ensures p >= 1 && IsPow2(p)
  {
    if k == 0 then 1 else 2 * Pow2(k - 1)
  }

  /** The state invariant: the multiplier is a power of two in [1, 128]. */
  predicate Valid(s: DeliveryState)
  {
    1 <= s.dropCount <= RetryTime && IsPow2(s.dropCount)
  }

  /** The multiplier after one escalation: doubled while below the ceiling. */
  function Escalate(count: int): int
  {
    if count < RetryTime then count * 2 else count
  }

  /** `doubleCheckTime`. */
  function DoubleCheckTimeStep(s: DeliveryState, now: int): DeliveryState
  {
    var c := Escalate(s.dropCount);
    s.(dropCount := c, dropTime := now + c * CheckQuotaRetry)
  }

  /** The requests a quota check issues: one, unless the request could not be built. */
  function QuotaRequests(ex: Exchange): seq<Request>
  {
    if ex.MarshalFailed? || ex.BuildFailed? then [] else [QuotaCheck]
  }

  /** `checkQuota`: raises the flag, then classifies the exchange. */
  function CheckQuotaStep(s: DeliveryState, now: int, ex: Exchange): (DeliveryState, Verdict)
  {
    var raised := s.(checkQuotaFirst := true);
    match ex
    case MarshalFailed => (raised, Verdict(false, Some(QuotaMarshalFailed)))
    case BuildFailed => (raised, Verdict(false, Some(QuotaBuildFailed)))
    case SendFailed => (raised, Verdict(false, Some(QuotaSendFailed)))
    case ReadFailed => (raised, Verdict(false, Some(QuotaReadFailed)))
    case Answered(code, body) =>
      if code == 200 then
        (DeliveryState(1, now, false), Verdict(false, None))
      else if code == 401 || code == 403 then
        (raised, Verdict(true, Some(QuotaFail(code, body))))
      else if code == 409 then
        (DoubleCheckTimeStep(raised, now), Verdict(true, Some(QuotaFail(code, body))))
      else
        (raised, Verdict(false, Some(QuotaFail(code, body))))
  }

  /** `handleResponse`: the switch on the POST's status code. A 428 whose
      quota check succeeds falls out of the switch to the generic error.
      `now` is the clock after the POST, `quotaNow` the clock after the quota
      check a 428 triggers. */
  function HandleResponseStep(s: DeliveryState, now: int, code: int, body: string, quota: Exchange, quotaNow: int)
    : (DeliveryState, Verdict)
  {
    if code == 201 then (s, Verdict(false, None))
    else if code == 401 then (s, Verdict(true, Some(IamUnauthorized)))
    else if code == 403 then (s, Verdict(true, Some(IamForbidden)))
    else if code == 428 then
      var (s', v) := CheckQuotaStep(s, quotaNow, quota);
      if v.err.Some? then (s', Verdict(v.isDrop, Some(CannotCheckQuota(v.err.value))))
      else (s', Verdict(false, Some(StatusCode(code, body))))
    else if code == 409 then (DoubleCheckTimeStep(s, now), Verdict(true, Some(Conflict)))
    else (s, Verdict(false, Some(StatusCode(code, body))))
  }

  /** A classified error becomes nil when it is a drop. */
  function Fold(v: Verdict): Option<DeliveryError>
  {
    if v.isDrop then None else v.err
  }

  /** `write`: POST the encoded batch and handle the answer. */
  function WriteStep(s: DeliveryState, batch: seq<Record>, o: Oracle): Outcome
    requires !o.post.MarshalFailed?
  {
    match o.post
    case BuildFailed => Outcome(s, Some(RequestBuildFailed), [])
    case SendFailed =>
      Outcome(s, if o.reinitOk then Some(IamRequestFail) else None, [SeriesPost(batch)])
    case ReadFailed => Outcome(s, Some(ResponseReadFailed), [SeriesPost(batch)])
    case Answered(code, body) =>
      var (s', v) := HandleResponseStep(s, o.postAt, code, body, o.retryQuota, o.retryQuotaAt);
      var extra := if code == 428 then QuotaRequests(o.retryQuota) else [];
      Outcome(s', Fold(v), [SeriesPost(batch)] + extra)
  }

  /** `WriteBatch`: the back-off gate, the optional quota pre-check, encoding,
      then `write`. */
  function WriteBatchStep(s: DeliveryState, batch: seq<Record>, o: Oracle): Outcome
  {
    if s.dropCount > 1 && o.now < s.dropTime then
      Outcome(s, None, [])
    else
      var (s1, v) := if s.checkQuotaFirst then CheckQuotaStep(s, o.preQuotaAt, o.preQuota)
                     else (s, Verdict(false, None));
      var pre := if s.checkQuotaFirst then QuotaRequests(o.preQuota) else [];
      if v.err.Some? then Outcome(s1, Fold(v), pre)
      else if o.post.MarshalFailed? then Outcome(s1, Some(BatchMarshalFailed), pre)
      else
        var w := WriteStep(s1, batch, o);
        Outcome(w.state, w.err, pre + w.sent)
  }

  /** The state after a run of `WriteBatch` calls (the batches do not
      influence the state). */
  function Run(s: DeliveryState, os: seq<Oracle>): DeliveryState
    decreases |os|
  {
    if os == [] then s else Run(WriteBatchStep(s, [], os[0]).state, os[1..])
  }

  /** The multiplier after k escalations from 1. */
  function EscalateN(k: nat): int
  {
    if k == 0 then 1 else Escalate(EscalateN(k - 1))
  }

  // ---------------------------------------------------------------------
  // Properties of the state machine

  /** From 1 the multiplier runs 1, 2, 4, ..., 128 and then stays at 128. */
  lemma {:induction false} EscalationSequence(k: nat)
    ensures EscalateN(k) == if k <= 7 then Pow2(k) else RetryTime
  {
    if k > 0 {
      EscalationSequence(k - 1);
      if k <= 7 {
        assert Pow2(k) == 2 * Pow2(k - 1);
        assert k - 1 <= 6;
        Pow2Small(k - 1);
      }
    }
  }

  lemma {:induction false} Pow2Small(k: nat)
    requires k <= 6
    ensures Pow2(k) <= 64
    decreases 6 - k
  {
    if k < 6 { Pow2Small(k + 1); }
  }

  /** Powers of two below 2m are at most m, when m is a power of two. */
  lemma {:induction false} Pow2Gap(n: int, m: int)
    requires IsPow2(n) && IsPow2(m) && n < 2 * m
    ensures n <= m
    decreases if m < 0 then 0 else m
  {
    if m != 1 && n != 1 {
      Pow2Gap(n / 2, m / 2);
    }
  }

  /** Escalation keeps a valid multiplier valid and sets the window end. */
  lemma DoubleCheckTimeValid(s: DeliveryState, now: int)
    requires Valid(s)
    ensures Valid(DoubleCheckTimeStep(s, now))
    ensures DoubleCheckTimeStep(s, now).dropTime
            == now + DoubleCheckTimeStep(s, now).dropCount * CheckQuotaRetry
    ensures s.dropCount < RetryTime ==> DoubleCheckTimeStep(s, now).dropCount == 2 * s.dropCount
    ensures s.dropCount == RetryTime ==> DoubleCheckTimeStep(s, now).dropCount == RetryTime
  {
    var c := s.dropCount;
    if c < RetryTime {
      assert IsPow2(64);
      Pow2Gap(c, 64);
      assert IsPow2(2 * c) by {
        assert (2 * c) % 2 == 0 && (2 * c) / 2 == c;
      }
    }
  }

  /** Every quota check keeps the invariant. */
  lemma CheckQuotaValid(s: DeliveryState, now: int, ex: Exchange)
    requires Valid(s)
    ensures Valid(CheckQuotaStep(s, now, ex).0)
  {
    DoubleCheckTimeValid(s.(checkQuotaFirst := true), now);
  }

  /** Every `WriteBatch` keeps the invariant. */
  lemma WriteBatchValid(s: DeliveryState, batch: seq<Record>, o: Oracle)
    requires Valid(s)
    ensures Valid(WriteBatchStep(s, batch, o).state)
  {
    CheckQuotaValid(s, o.preQuotaAt, o.preQuota);
    var s1 := if s.checkQuotaFirst then CheckQuotaStep(s, o.preQuotaAt, o.preQuota).0 else s;
    CheckQuotaValid(s1, o.retryQuotaAt, o.retryQuota);
    DoubleCheckTimeValid(s1, o.postAt);
  }

  /** From the constructed state, the multiplier is a power of two in
      [1, 128] after any sequence of `WriteBatch` calls. */
  lemma {:induction false} ReachableStatesValid(s: DeliveryState, os: seq<Oracle>)
    requires Valid(s)
    ensures Valid(Run(s, os))
    decreases |os|
  {
    if os != [] {
      WriteBatchValid(s, [], os[0]);
      ReachableStatesValid(WriteBatchStep(s, [], os[0]).state, os[1..]);
    }
  }

  lemma InitialValid(now: int)
    ensures Valid(Initial(now))
  {
  }

  /** Inside the back-off window a batch is dropped: nil, no request, no
      state change. */
  lemma BackoffGateDrops(s: DeliveryState, batch: seq<Record>, o: Oracle)
    requires s.dropCount > 1 && o.now < s.dropTime
    ensures WriteBatchStep(s, batch, o) == Outcome(s, None, [])
  {
  }

  /** The status classification of `handleResponse`. */
  lemma HandleResponseClassification(s: DeliveryState, now: int, code: int, body: string, q: Exchange, qNow: int)
    ensures code == 201 ==> HandleResponseStep(s, now, code, body, q, qNow) == (s, Verdict(false, None))
    ensures code == 401 || code == 403 ==>
      HandleResponseStep(s, now, code, body, q, qNow).0 == s
      && HandleResponseStep(s, now, code, body, q, qNow).1.isDrop
      && HandleResponseStep(s, now, code, body, q, qNow).1.err.Some?
    ensures code == 409 ==>
      HandleResponseStep(s, now, code, body, q, qNow) == (DoubleCheckTimeStep(s, now), Verdict(true, Some(Conflict)))
    ensures code !in {201, 401, 403, 409, 428} ==>
      HandleResponseStep(s, now, code, body, q, qNow) == (s, Verdict(false, Some(StatusCode(code, body))))
  {
  }

  /** On 428 the quota check decides: its failure is returned with its drop
      flag; its success still yields the generic 428 error, not a drop. */
  lemma PreconditionRequired(s: DeliveryState, now: int, body: string, q: Exchange, qNow: int)
    ensures var (sq, vq) := CheckQuotaStep(s, qNow, q);
            var (sr, vr) := HandleResponseStep(s, now, 428, body, q, qNow);
            sr == sq
            && (vq.err.Some? ==> vr == Verdict(vq.isDrop, Some(CannotCheckQuota(vq.err.value))))
            && (vq.err.None? ==> vr == Verdict(false, Some(StatusCode(428, body))))
    ensures q.Answered? && q.status == 200 ==>
      HandleResponseStep(s, now, 428, body, q, qNow) == (Initial(qNow), Verdict(false, Some(StatusCode(428, body))))
  {
  }

  /** `checkQuota` raises the flag; only a 200 clears it, together with the
      back-off; 401/403/409 are drops, everything else a plain error. */
  lemma CheckQuotaContract(s: DeliveryState, now: int, ex: Exchange)
    ensures var (s', v) := CheckQuotaStep(s, now, ex);
            (!s'.checkQuotaFirst <==> ex.Answered? && ex.status == 200)
            && (v.err.None? <==> ex.Answered? && ex.status == 200)
            && (ex.Answered? && ex.status == 200 ==> s' == Initial(now))
            && (v.isDrop <==> ex.Answered? && ex.status in {401, 403, 409})
            && (ex.Answered? && ex.status in {401, 403} ==> s' == s.(checkQuotaFirst := true))
            && (ex.Answered? && ex.status == 409 ==>
                  s' == DoubleCheckTimeStep(s.(checkQuotaFirst := true), now))
            && (!(ex.Answered? && ex.status in {200, 409}) ==> s' == s.(checkQuotaFirst := true))
  {
  }

  /** Whatever `handleResponse` or `checkQuota` classifies as a drop reaches
      the caller of `WriteBatch` as success. */
  lemma DropsReachCallerAsNil(s: DeliveryState, batch: seq<Record>, o: Oracle)
    requires !(s.dropCount > 1 && o.now < s.dropTime)
    ensures s.checkQuotaFirst && CheckQuotaStep(s, o.preQuotaAt, o.preQuota).1.isDrop ==>
              WriteBatchStep(s, batch, o).err.None?
    ensures !s.checkQuotaFirst && o.post.Answered?
            && HandleResponseStep(s, o.postAt, o.post.status, o.post.body, o.retryQuota, o.retryQuotaAt).1.isDrop ==>
              WriteBatchStep(s, batch, o).err.None?
    ensures WriteBatchStep(s, batch, o).err.Some? ==>
              WriteBatchStep(s, batch, o).err.value !in {IamUnauthorized, IamForbidden, Conflict}
  {
  }

  /** A failed POST: a failed client re-initialisation drops the batch (nil);
      a successful one returns the retryable "IAM request fail". */
  lemma TransportFailure(s: DeliveryState, batch: seq<Record>, o: Oracle)
    requires !s.checkQuotaFirst && !(s.dropCount > 1 && o.now < s.dropTime)
    requires o.post.SendFailed?
    ensures WriteBatchStep(s, batch, o).state == s
    ensures WriteBatchStep(s, batch, o).sent == [SeriesPost(batch)]
    ensures WriteBatchStep(s, batch, o).err == if o.reinitOk then Some(IamRequestFail) else None
  {
  }

  /** A 201 leaves the back-off untouched: only a successful quota check resets it. */
  lemma CreatedKeepsBackoff(s: DeliveryState, batch: seq<Record>, o: Oracle)
    requires !s.checkQuotaFirst && !(s.dropCount > 1 && o.now < s.dropTime)
    requires o.post.Answered? && o.post.status == 201
    ensures WriteBatchStep(s, batch, o) == Outcome(s, None, [SeriesPost(batch)])
  {
  }

  /** Three consecutive conflicts from the initial state, at non-decreasing
      times: the multiplier runs 2, 4, 8 and the window end strictly grows. */
  lemma ThreeConflicts(t0: int, t1: int, t2: int, t3: int, b1: string, b2: string, b3: string)
    requires t0 <= t1 <= t2 <= t3
    ensures var s1 := HandleResponseStep(Initial(t0), t1, 409, b1, MarshalFailed, t1).0;
            var s2 := HandleResponseStep(s1, t2, 409, b2, MarshalFailed, t2).0;
            var s3 := HandleResponseStep(s2, t3, 409, b3, MarshalFailed, t3).0;
            s1.dropCount == 2 && s2.dropCount == 4 && s3.dropCount == 8
            && t0 < s1.dropTime < s2.dropTime < s3.dropTime
  {
  }

  /** After a conflict at or past the window end, the window end grows. */
  lemma ConflictExtendsWindow(s: DeliveryState, now: int, body: string, q: Exchange, qNow: int)
    requires Valid(s) && now >= s.dropTime - s.dropCount * CheckQuotaRetry
    ensures HandleResponseStep(s, now, 409, body, q, qNow).0.dropTime >= s.dropTime
    ensures s.dropCount < RetryTime ==> HandleResponseStep(s, now, 409, body, q, qNow).0.dropTime > s.dropTime
  {
  }

  /** The mutable part of `VNGCloudvMonitor`. */
  class VMonitorOutput {
    var dropCount: int
    var dropTime: int
    var checkQuotaFirst: bool

    function State(): DeliveryState
      reads this
    {
      DeliveryState(dropCount, dropTime, checkQuotaFirst)
    }

    /** Both exporters construct the output with `dropCount` 1, `dropTime`
        now and no pending quota check. */
    constructor (now: int)
      ensures State() == Initial(now) && Valid(State())
    {
      dropCount := 1;
      dropTime := now;
      checkQuotaFirst := false;
    }

    method DoubleCheckTime(now: int)
      modifies this
      ensures State() == DoubleCheckTimeStep(old(State()), now)
    {
      if dropCount < RetryTime {
        dropCount := dropCount * 2;
      }
      dropTime := now + dropCount * CheckQuotaRetry;
    }

    method CheckQuota(now: int, ex: Exchange) returns (isDrop: bool, err: Option<DeliveryError>, sent: seq<Request>)
      modifies this
      ensures (State(), Verdict(isDrop, err)) == CheckQuotaStep(old(State()), now, ex)
      ensures sent == QuotaRequests(ex)
    {
      checkQuotaFirst := true;
      match ex {
        case MarshalFailed =>
          return false, Some(QuotaMarshalFailed), [];
        case BuildFailed =>
          return false, Some(QuotaBuildFailed), [];
        case SendFailed =>
          return false, Some(QuotaSendFailed), [QuotaCheck];
        case ReadFailed =>
          return false, Some(QuotaReadFailed), [QuotaCheck];
        case Answered(code, body) =>
          sent := [QuotaCheck];
          isDrop := false;
          if code == 200 {
            dropCount := 1;
            dropTime := now;
            checkQuotaFirst := false;
            return false, None, sent;
          } else if code == 401 || code == 403 {
            isDrop := true;
          } else if code == 409 {
            isDrop := true;
            DoubleCheckTime(now);
          }
          err := Some(QuotaFail(code, body));
      }
    }

    method HandleResponse(now: int, code: int, body: string, quota: Exchange, quotaNow: int)
      returns (isDrop: bool, err: Option<DeliveryError>, sent: seq<Request>)
      modifies this
      ensures (State(), Verdict(isDrop, err)) == HandleResponseStep(old(State()), now, code, body, quota, quotaNow)
      ensures sent == if code == 428 then QuotaRequests(quota) else []
    {
      sent := [];
      if code == 201 {
        return false, None, sent;
      } else if code == 401 {
        return true, Some(IamUnauthorized), sent;
      } else if code == 403 {
        return true, Some(IamForbidden), sent;
      } else if code == 428 {
        var d, e;
        d, e, sent := CheckQuota(quotaNow, quota);
        if e.Some? {
          return d, Some(CannotCheckQuota(e.value)), sent;
        }
      } else if code == 409 {
        DoubleCheckTime(now);
        return true, Some(Conflict), sent;
      }
      return false, Some(StatusCode(code, body)), sent;
    }

    method Write(batch: seq<Record>, o: Oracle) returns (err: Option<DeliveryError>, sent: seq<Request>)
      requires !o.post.MarshalFailed?
      modifies this
      ensures Outcome(State(), err, sent) == WriteStep(old(State()), batch, o)
    {
      match o.post {
        case BuildFailed =>
          return Some(RequestBuildFailed), [];
        case SendFailed =>
          sent := [SeriesPost(batch)];
          if !o.reinitOk {
            return None, sent;
          }
          return Some(IamRequestFail), sent;
        case ReadFailed =>
          return Some(ResponseReadFailed), [SeriesPost(batch)];
        case Answered(code, body) =>
          var isDrop, e, extra := HandleResponse(o.postAt, code, body, o.retryQuota, o.retryQuotaAt);
          sent := [SeriesPost(batch)] + extra;
          if e.Some? {
            if isDrop {
              return None, sent;
            }
            return e, sent;
          }
          return None, sent;
      }
    }

    method WriteBatch(batch: seq<Record>, o: Oracle) returns (err: Option<DeliveryError>, sent: seq<Request>)
      modifies this
      ensures Outcome(State(), err, sent) == WriteBatchStep(old(State()), batch, o)
    {
      if dropCount > 1 && o.now < dropTime {
        return None, [];
      }
      sent := [];
      if checkQuotaFirst {
        var isDrop, e;
        isDrop, e, sent := CheckQuota(o.preQuotaAt, o.preQuota);
        if e.Some? {
          if isDrop {
            return None, sent;
          }
          return e, sent;
        }
      }
      if o.post.MarshalFailed? {
        return Some(BatchMarshalFailed), sent;
      }
      var w;
      err, w := Write(batch, o);
      sent := sent + w;
    }
  }
}
