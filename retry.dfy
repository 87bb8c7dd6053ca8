/**
 * The retry machinery of the REST client: the capped exponential backoff, the two
 * retry classifiers and the attempt loop of executeWithRetry. The HTTP round trip and
 * the context are an oracle that says, for each attempt, how it ended and whether the
 * caller's context was done.
 */
module Retry {
  import opened Wrappers
  import opened Text
  import opened Utf8
  import opened Http

  // ----- durations, in nanoseconds as time.Duration counts them -----

  const Second: int := 1_000_000_000
  const BaseDelay: int := Second
  const MaxDelay: int := 30 * Second

  function Pow2(n: nat): (r: nat)
    ensures r >= 1
  {
    if n == 0 then 1 else 2 * Pow2(n - 1)
  }

  lemma {:induction false} Pow2Add(a: nat, b: nat)
    ensures Pow2(a + b) == Pow2(a) * Pow2(b)
  {
    if a > 0 {
      Pow2Add(a - 1, b);
      assert Pow2(a + b) == 2 * Pow2(a - 1 + b);
    }
  }

  lemma {:induction false} Pow2Monotone(a: nat, b: nat)
    requires a <= b
    ensures Pow2(a) <= Pow2(b)
    decreases b - a
  {
    if a < b {
      Pow2Monotone(a, b - 1);
    }
  }

  /** calculateBackoff: one second doubled per attempt, never more than thirty seconds. */
  function CalculateBackoff(attempt: nat): (d: int)
    ensures BaseDelay <= d <= MaxDelay
    ensures attempt < 5 ==> d == BaseDelay * Pow2(attempt)
    ensures attempt >= 5 ==> d == MaxDelay
  {
    var delay := BaseDelay * Pow2(attempt);
    if attempt >= 5 then
      Pow2Monotone(5, attempt);
      assert Pow2(5) == 32;
      if delay > MaxDelay then MaxDelay else delay
    else
      assert Pow2(4) == 16;
      Pow2Monotone(attempt, 4);
      if delay > MaxDelay then MaxDelay else delay
  }

  /** The first delays are 1s, 2s, 4s, 8s and 16s; from the sixth attempt on the cap holds. */
  lemma BackoffTable()
    ensures CalculateBackoff(0) == Second && CalculateBackoff(1) == 2 * Second
    ensures CalculateBackoff(2) == 4 * Second && CalculateBackoff(3) == 8 * Second
    ensures CalculateBackoff(4) == 16 * Second && CalculateBackoff(5) == 30 * Second
  {
    assert Pow2(4) == 16;
  }

  /** A later attempt never waits less. */
  lemma BackoffMonotone(i: nat, j: nat)
    requires i <= j
    ensures CalculateBackoff(i) <= CalculateBackoff(j)
  {
    Pow2Monotone(i, j);
  }

  // ----- calculateBackoff as written, on Go's 64-bit time.Duration -----

  const TwoTo63: int := 0x8000_0000_0000_0000

  /** Two's-complement wrap-around of an int64 result. */
  function Int64Wrap(x: int): (r: int)
    ensures -TwoTo63 <= r < TwoTo63
    ensures -TwoTo63 <= x < TwoTo63 ==> r == x
    ensures (r - x) % (2 * TwoTo63) == 0
  {
    (x + TwoTo63) % (2 * TwoTo63) - TwoTo63
  }

  /** `time.Duration(seconds) * time.Second`, wrapping as int64 arithmetic does. */
  function SecondsToDuration(seconds: int): (d: int)
    ensures -9_223_372_036 <= seconds <= 9_223_372_036 ==> d == seconds * Second
  {
    Int64Wrap(seconds * Second)
  }

  /** `time.Duration(1 << uint(n))`: the constant 1 takes the type int64, so the bit falls off from 64 on. */
  function ShiftOne(n: nat): (r: int)
    ensures -TwoTo63 <= r < TwoTo63
  {
    if n >= 64 then 0 else Int64Wrap(Pow2(n))
  }

  /** calculateBackoff exactly as written: the product is an int64 product and may wrap. */
  function CalculateBackoffAsWritten(attempt: nat): (d: int)
    ensures d <= MaxDelay
  {
    var delay := Int64Wrap(BaseDelay * ShiftOne(attempt));
    if delay > MaxDelay then MaxDelay else delay
  }

  lemma Pow2Large()
    ensures Pow2(32) == 0x1_0000_0000
    ensures Pow2(33) == 0x2_0000_0000
    ensures Pow2(34) == 0x4_0000_0000
    ensures Pow2(63) == TwoTo63
  {
    assert Pow2(8) == 256;
    Pow2Add(8, 8);
    Pow2Add(16, 16);
    Pow2Add(32, 2);
    assert Pow2(2) == 4;
    Pow2Add(32, 31);
    Pow2Add(16, 15);
    Pow2Add(8, 7);
    assert Pow2(7) == 128;
  }

  /** Below attempt 34 nothing wraps and the code computes the intended delay. */
  lemma AsWrittenAgreesBelow34(attempt: nat)
    requires attempt < 34
    ensures CalculateBackoffAsWritten(attempt) == CalculateBackoff(attempt)
  {
    Pow2Monotone(attempt, 33);
    Pow2Large();
    assert Pow2(attempt) < TwoTo63;
    assert ShiftOne(attempt) == Pow2(attempt);
    assert BaseDelay * Pow2(attempt) <= BaseDelay * 0x2_0000_0000;
  }

  /** At attempt 34 the int64 product wraps to a negative delay, which time.After does not wait for. */
  lemma AsWrittenNegativeAt34()
    ensures CalculateBackoffAsWritten(34) == -1_266_874_889_709_551_616
  {
    Pow2Large();
    assert ShiftOne(34) == 0x4_0000_0000;
  }

  /** A multiple of 2^64 wraps to zero. */
  lemma WrapMultiple(m: int)
    ensures Int64Wrap(m * (2 * TwoTo63)) == 0
  {
    var M := 2 * TwoTo63;
    var x := m * M + TwoTo63;
    var q := x / M;
    assert x == q * M + x % M;
    var d := m - q;
    assert d * M == x % M - TwoTo63 by {
      assert m * M - q * M == d * M;
    }
  }

  /**
   * From attempt 55 on the delay as written is zero: one second is 2^9 * 1953125 ns, so the
   * product is a multiple of 2^64 (or the shifted bit has left the int64 from 64 on).
   */
  lemma AsWrittenZeroFrom55(attempt: nat)
    requires attempt >= 55
    ensures CalculateBackoffAsWritten(attempt) == 0
  {
    if attempt < 64 {
      Pow2Large();
      Pow2Add(55, attempt - 55);
      Pow2Add(55, 9);
      assert Pow2(9) == 512;
      var w := ShiftOne(attempt);
      var k := 1953125 * Pow2(attempt - 55);
      if attempt < 63 {
        Pow2Monotone(attempt, 62);
        Pow2Add(62, 1);
        assert w == Pow2(attempt);
        assert BaseDelay * w == k * (2 * TwoTo63) by {
          assert BaseDelay * Pow2(55) == 1953125 * (2 * TwoTo63);
        }
        WrapMultiple(k);
      } else {
        assert w == -TwoTo63;
        assert BaseDelay * w == -500_000_000 * (2 * TwoTo63);
        WrapMultiple(-500_000_000);
      }
    }
  }

  // ----- the classifiers -----

  /** The phrases IsRetryableError looks for, in the order it tries them. */
  const RetryablePhrases: seq<string> :=
    ["connection refused", "timeout", "temporary failure", "network is unreachable"]

  /** IsRetryableError on the message of an error; None is a nil error. */
  function IsRetryableError(err: Option<string>): (r: bool)
    ensures err.None? ==> !r
    ensures err.Some? ==> (r <==> exists k, i :: 0 <= k < |RetryablePhrases| && OccursAt(err.value, RetryablePhrases[k], i))
  {
    match err
    case None => false
    case Some(m) =>
      ContainsIffOccurs(m, RetryablePhrases[0]);
      ContainsIffOccurs(m, RetryablePhrases[1]);
      ContainsIffOccurs(m, RetryablePhrases[2]);
      ContainsIffOccurs(m, RetryablePhrases[3]);
      if Contains(m, "connection refused") then true
      else if Contains(m, "timeout") then true
      else if Contains(m, "temporary failure") then true
      else if Contains(m, "network is unreachable") then true
      else false
  }

  /** IsRetryableStatusCode: 429 (section 4 of RFC 6585) and 500, 502, 503, 504 (section 15.6 of RFC 9110). */
  function IsRetryableStatusCode(status: int): (r: bool)
    ensures r <==> status in {429, 500, 502, 503, 504}
  {
    match status
    case 429 => true
    case 500 => true
    case 502 => true
    case 503 => true
    case 504 => true
    case _ => false
  }

  /** The status codes a 2xx body-read failure is not retried on. */
  predicate IsSuccess(status: int) {
    200 <= status < 300
  }

  // ----- the attempt loop -----

  /** How the HTTP exchange of one attempt ended. */
  datatype AttemptResult =
    | TransportError(message: string)                            // httpClient.Do failed
    | BodyReadError(status: int, message: string)                // the response came, io.ReadAll failed
    | Received(status: int, body: Bytes, headers: map<string, seq<string>>)

  /**
   * One attempt as the loop sees it: its end, whether ctx.Err() is set right after it, and
   * whether ctx is done before the backoff delay that may follow it has elapsed.
   */
  datatype Attempt = Attempt(result: AttemptResult, cancelled: bool, cancelledDuringBackoff: bool)

  /** The transport: the request, the per-attempt timeout and the attempt index give the attempt. */
  type Transport = (Outgoing, int, nat) -> Attempt

  /** The cause kept in lastErr. */
  datatype Cause =
    | TransportCause(message: string)     // the error of httpClient.Do
    | BodyCause(message: string)          // "failed to read response body: ..."
    | StatusCause(status: int)            // "received retryable status code ..."

  datatype ExecError =
    | Cancelled                                    // ctx.Err()
    | BodyReadFailed(message: string)              // a 2xx response whose body could not be read
    | Exhausted(attempts: int, last: Option<Cause>) // "request failed after N attempts: ..."

  /** The Response of the client, with the request it answers. */
  datatype Response = Response(statusCode: int, body: Bytes, headers: map<string, seq<string>>, request: Outgoing)

  /** What a run of the loop does: its result, how many attempts it makes, the delays it waits for. */
  datatype Trace = Trace(result: Result<Response, ExecError>, calls: nat, waits: seq<int>)

  /** A failure the loop waits after, when attempts are left: an uncancelled transport error, an unreadable non-2xx body, a retryable status. */
  predicate Retried(a: Attempt) {
    match a.result
    case TransportError(_) => !a.cancelled
    case BodyReadError(status, _) => !IsSuccess(status)
    case Received(status, _, _) => IsRetryableStatusCode(status)
  }

  /** An attempt that leads on to the next one: not the last, not cancelled, and a failure worth retrying. */
  predicate Continues(a: Attempt, attempt: nat, retries: int) {
    attempt < retries - 1 && !a.cancelledDuringBackoff && Retried(a)
  }

  /** The attempt made one call and, after waiting `delay`, was followed by `next`. */
  function Then(delay: int, next: Trace): Trace {
    Trace(next.result, next.calls + 1, [delay] + next.waits)
  }

  /** The wait after a failed attempt that is not the last: cut short when ctx is done. */
  function Backoff(a: Attempt, attempt: nat, next: Trace): Trace {
    if a.cancelledDuringBackoff then Trace(Err(Cancelled), 1, [CalculateBackoff(attempt)])
    else Then(CalculateBackoff(attempt), next)
  }

  /** executeWithRetry from attempt `attempt` on, with `lastErr` the last failure so far. */
  function Run(send: Transport, req: Outgoing, retries: int, timeout: int, attempt: nat, lastErr: Option<Cause>): (t: Trace)
    ensures attempt >= retries ==> t == Trace(Err(Exhausted(retries, lastErr)), 0, [])
    ensures attempt < retries ==> t.calls >= 1
    ensures t.result.Ok? ==> t.result.value.request == req
    ensures t.result.Err? && t.result.error.Exhausted? ==> t.result.error.attempts == retries
    decreases retries - attempt
  {
    if attempt >= retries then Trace(Err(Exhausted(retries, lastErr)), 0, [])
    else
      var a := send(req, timeout, attempt);
      var more := attempt < retries - 1;
      match a.result
      case TransportError(m) =>
        if a.cancelled then Trace(Err(Cancelled), 1, [])
        else if more then Backoff(a, attempt, Run(send, req, retries, timeout, attempt + 1, Some(TransportCause(m))))
        else Trace(Err(Exhausted(retries, Some(TransportCause(m)))), 1, [])
      case BodyReadError(status, m) =>
        if IsSuccess(status) then Trace(Err(BodyReadFailed(m)), 1, [])
        else if more then Backoff(a, attempt, Run(send, req, retries, timeout, attempt + 1, Some(BodyCause(m))))
        else Trace(Err(Exhausted(retries, Some(BodyCause(m)))), 1, [])
      case Received(status, body, headers) =>
        if IsRetryableStatusCode(status) && more then
          Backoff(a, attempt, Run(send, req, retries, timeout, attempt + 1, Some(StatusCause(status))))
        else Trace(Ok(Response(status, body, headers, req)), 1, [])
  }

  /** `calls` attempts and the waits `waits` already made before `rest`. */
  function After(calls: nat, waits: seq<int>, rest: Trace): Trace {
    Trace(rest.result, calls + rest.calls, waits + rest.waits)
  }

  lemma AfterThen(calls: nat, waits: seq<int>, delay: int, next: Trace)
    ensures After(calls, waits, Then(delay, next)) == After(calls + 1, waits + [delay], next)
  {
    assert waits + ([delay] + next.waits) == (waits + [delay]) + next.waits;
  }

  /**
   * executeWithRetry: up to `retries` attempts; a transport error, an unreadable non-2xx
   * body or a retryable status is retried after the backoff delay unless it was the last
   * attempt; the context ends the loop.
   */
  method ExecuteWithRetry(send: Transport, req: Outgoing, retries: int, timeout: int)
    returns (result: Result<Response, ExecError>, calls: nat, waits: seq<int>)
    ensures Trace(result, calls, waits) == Run(send, req, retries, timeout, 0, None)
  {
    var lastErr: Option<Cause> := None;
    var attempt: nat := 0;
    calls, waits := 0, [];
    while attempt < retries
      invariant calls == attempt
      invariant Run(send, req, retries, timeout, 0, None)
             == After(calls, waits, Run(send, req, retries, timeout, attempt, lastErr))
      decreases retries - attempt
    {
      var a := send(req, timeout, attempt);
      calls := calls + 1;
      match a.result {
        case TransportError(m) =>
          lastErr := Some(TransportCause(m));
          if a.cancelled {
            return Err(Cancelled), calls, waits;
          }
        case BodyReadError(status, m) =>
          lastErr := Some(BodyCause(m));
          if IsSuccess(status) {
            return Err(BodyReadFailed(m)), calls, waits;
          }
        case Received(status, body, headers) =>
          if !(IsRetryableStatusCode(status) && attempt < retries - 1) {
            return Ok(Response(status, body, headers, req)), calls, waits;
          }
          lastErr := Some(StatusCause(status));
      }
      if attempt < retries - 1 {
        var delay := CalculateBackoff(attempt);
        AfterThen(calls - 1, waits, delay, Run(send, req, retries, timeout, attempt + 1, lastErr));
        waits := waits + [delay];
        if a.cancelledDuringBackoff {
          return Err(Cancelled), calls, waits;
        }
      }
      attempt := attempt + 1;
    }
    result := Err(Exhausted(retries, lastErr));
  }

  // ----- what a run does -----

  /** The failure an attempt leaves in lastErr. */
  function CauseOf(r: AttemptResult): Option<Cause> {
    match r
    case TransportError(m) => Some(TransportCause(m))
    case BodyReadError(_, m) => Some(BodyCause(m))
    case Received(status, _, _) => Some(StatusCause(status))
  }

  /** One attempt of a run: it goes on to the next after its delay, or it is the last and waits at most once. */
  lemma RunStep(send: Transport, req: Outgoing, retries: int, timeout: int, attempt: nat, lastErr: Option<Cause>)
    requires attempt < retries
    ensures var t := Run(send, req, retries, timeout, attempt, lastErr);
      var a := send(req, timeout, attempt);
      && (Continues(a, attempt, retries) ==>
            t == Then(CalculateBackoff(attempt), Run(send, req, retries, timeout, attempt + 1, CauseOf(a.result))))
      && (!Continues(a, attempt, retries) ==>
            t.calls == 1 && |t.waits| <= 1 && (|t.waits| == 1 ==> t.waits[0] == CalculateBackoff(attempt)))
  {
  }

  /** The run makes at least one and at most the remaining number of attempts, and waits the backoff delays in order. */
  lemma {:induction false} RunBounds(send: Transport, req: Outgoing, retries: int, timeout: int, attempt: nat, lastErr: Option<Cause>)
    ensures var t := Run(send, req, retries, timeout, attempt, lastErr);
      && (attempt >= retries ==> t.calls == 0)
      && (attempt < retries ==> 1 <= t.calls <= retries - attempt)
      && |t.waits| <= t.calls
      && forall j :: 0 <= j < |t.waits| ==> t.waits[j] == CalculateBackoff(attempt + j)
    decreases retries - attempt
  {
    if attempt < retries {
      RunStep(send, req, retries, timeout, attempt, lastErr);
      var a := send(req, timeout, attempt);
      if Continues(a, attempt, retries) {
        RunBounds(send, req, retries, timeout, attempt + 1, CauseOf(a.result));
      }
    }
  }

  /** Every attempt before the last one of a run went on to the next. */
  lemma {:induction false} RunContinues(send: Transport, req: Outgoing, retries: int, timeout: int, attempt: nat, lastErr: Option<Cause>)
    ensures var t := Run(send, req, retries, timeout, attempt, lastErr);
      forall j :: attempt <= j < attempt + t.calls - 1 ==> Continues(send(req, timeout, j), j, retries)
    decreases retries - attempt
  {
    if attempt < retries {
      RunStep(send, req, retries, timeout, attempt, lastErr);
      var a := send(req, timeout, attempt);
      if Continues(a, attempt, retries) {
        RunContinues(send, req, retries, timeout, attempt + 1, CauseOf(a.result));
      }
    }
  }

  /**
   * How the last attempt `a`, made as attempt `f`, decides the result of a run. A status that is
   * not retryable, or any status on the final attempt, is returned as the response; an unreadable
   * 2xx body stops the loop; a transport error seen with ctx done is the cancellation. Conversely,
   * a response answers such a status; cancellation comes from ctx after a transport error or
   * during the wait after a retried failure; running out of attempts keeps the failure of the
   * last attempt, which is never a status code.
   */
  predicate Decides(a: Attempt, f: nat, retries: int, req: Outgoing, result: Result<Response, ExecError>) {
    && (a.result.Received? && (!IsRetryableStatusCode(a.result.status) || f == retries - 1) ==>
          result == Ok(Response(a.result.status, a.result.body, a.result.headers, req)))
    && (a.result.BodyReadError? && IsSuccess(a.result.status) ==> result == Err(BodyReadFailed(a.result.message)))
    && (a.result.TransportError? && a.cancelled ==> result == Err(Cancelled))
    && (result.Ok? ==>
          && a.result == Received(result.value.statusCode, result.value.body, result.value.headers)
          && result.value.request == req
          && (!IsRetryableStatusCode(result.value.statusCode) || f == retries - 1))
    && (result.Err? && result.error.BodyReadFailed? ==>
          a.result.BodyReadError? && a.result.message == result.error.message && IsSuccess(a.result.status))
    && (result == Err(Cancelled) ==>
          (a.result.TransportError? && a.cancelled) || (f < retries - 1 && a.cancelledDuringBackoff && Retried(a)))
    && (result.Err? && result.error.Exhausted? ==>
          && result.error.attempts == retries
          && f == retries - 1
          && (match a.result
              case TransportError(m) => !a.cancelled && result.error.last == Some(TransportCause(m))
              case BodyReadError(status, m) => !IsSuccess(status) && result.error.last == Some(BodyCause(m))
              case Received(_, _, _) => false))
  }

  /** An attempt that does not go on decides the result of the run it starts. */
  lemma LastDecides(send: Transport, req: Outgoing, retries: int, timeout: int, attempt: nat, lastErr: Option<Cause>)
    requires attempt < retries && !Continues(send(req, timeout, attempt), attempt, retries)
    ensures Decides(send(req, timeout, attempt), attempt, retries, req, Run(send, req, retries, timeout, attempt, lastErr).result)
  {
  }

  /** The last attempt of a run is one that does not go on, and it decides the result. */
  lemma {:induction false} RunFinal(send: Transport, req: Outgoing, retries: int, timeout: int, attempt: nat, lastErr: Option<Cause>)
    requires attempt < retries
    ensures var t := Run(send, req, retries, timeout, attempt, lastErr);
      var f := attempt + t.calls - 1;
      && attempt <= f < retries
      && !Continues(send(req, timeout, f), f, retries)
      && Decides(send(req, timeout, f), f, retries, req, t.result)
    decreases retries - attempt
  {
    RunStep(send, req, retries, timeout, attempt, lastErr);
    var a := send(req, timeout, attempt);
    if Continues(a, attempt, retries) {
      RunFinal(send, req, retries, timeout, attempt + 1, CauseOf(a.result));
    } else {
      LastDecides(send, req, retries, timeout, attempt, lastErr);
    }
  }

  /** The run stops at the first attempt that does not go on: when attempt n is it, the run makes exactly n + 1 calls. */
  lemma {:induction false} RunStopsAtFirst(send: Transport, req: Outgoing, retries: int, timeout: int, attempt: nat, lastErr: Option<Cause>, n: nat)
    requires attempt <= n < retries
    requires forall j :: attempt <= j < n ==> Continues(send(req, timeout, j), j, retries)
    requires !Continues(send(req, timeout, n), n, retries)
    ensures Run(send, req, retries, timeout, attempt, lastErr).calls == n - attempt + 1
    decreases n - attempt
  {
    if attempt < n {
      var a := send(req, timeout, attempt);
      assert Continues(a, attempt, retries);
      var cause := CauseOf(a.result);
      RunStopsAtFirst(send, req, retries, timeout, attempt + 1, cause, n);
    }
  }

  /** A transport that answers attempt j with the status statuses[j] and an empty body. */
  function Scripted(statuses: seq<int>): Transport {
    (o: Outgoing, timeout: int, j: nat) =>
      Attempt(if j < |statuses| then Received(statuses[j], [], map[]) else TransportError("no answer"), false, false)
  }

  /** Two 500s and then a 200 with three attempts: the 200 comes back after three calls and waits of 1s and 2s. */
  lemma ThreeAttemptsExample(req: Outgoing, timeout: int)
    ensures Run(Scripted([500, 500, 200]), req, 3, timeout, 0, None)
         == Trace(Ok(Response(200, [], map[], req)), 3, [Second, 2 * Second])
  {
    var send := Scripted([500, 500, 200]);
    assert send(req, timeout, 0) == Attempt(Received(500, [], map[]), false, false);
    assert send(req, timeout, 1) == Attempt(Received(500, [], map[]), false, false);
    assert send(req, timeout, 2) == Attempt(Received(200, [], map[]), false, false);
    var t2 := Run(send, req, 3, timeout, 2, Some(StatusCause(500)));
    assert t2 == Trace(Ok(Response(200, [], map[], req)), 1, []);
    var t1 := Run(send, req, 3, timeout, 1, Some(StatusCause(500)));
    assert t1 == Then(CalculateBackoff(1), t2);
    assert Run(send, req, 3, timeout, 0, None) == Then(CalculateBackoff(0), t1);
    BackoffTable();
  }
}
