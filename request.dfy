/** The retrying request executor of src/request.rs.

    `do_request` calls a caller-supplied closure until it reports a terminal
    outcome. The closure is modelled as `exec: nat -> Attempt<T>`, where
    `exec(k)` is what the k-th call (counting from 0) returns; `thread::sleep`
    is modelled by recording every duration slept, in order. */
module Request {
  import opened Errors
  import opened Text

  const MAX_RETRIES: nat := 5
  /** Initial wait of src/request.rs, in seconds. */
  const WAIT_SECONDS: u8 := 2
  const WAIT_MULTIPLIER: nat := 2

  /** `http::StatusCode`: a three-digit code. */
  type StatusCode = x: int | 100 <= x < 1000 witness 200

  const OK: StatusCode := 200
  /** Accepted (section 15.3.3 of RFC 9110): the result is still being prepared. */
  const ACCEPTED: StatusCode := 202
  /** Too Many Requests (section 4 of RFC 6585): the client is rate limited. */
  const TOO_MANY_REQUESTS: StatusCode := 429

  const TOO_MANY_RETRIES: string := "Too many retries"

  datatype RequestResult<T> = Done(value: T) | NotDone(status: StatusCode)

  /** What one call of the closure returns. */
  type Attempt<T> = Result<RequestResult<T>>

  /** One run of the executor: its result, how often the closure was called,
      and the durations slept, in order. */
  datatype Execution<T> = Execution(result: Result<T>, calls: nat, sleeps: seq<nat>)

  // ---------------------------------------------------------------------
  // Status display
  // ---------------------------------------------------------------------

  /** The canonical reason phrase the `http` crate prints after a code. */
  function CanonicalReason(code: StatusCode): string
  {
    match code
    case 100 => "Continue"
    case 101 => "Switching Protocols"
    case 102 => "Processing"
    case 200 => "OK"
    case 201 => "Created"
    case 202 => "Accepted"
    case 203 => "Non Authoritative Information"
    case 204 => "No Content"
    case 205 => "Reset Content"
    case 206 => "Partial Content"
    case 207 => "Multi-Status"
    case 208 => "Already Reported"
    case 226 => "IM Used"
    case 300 => "Multiple Choices"
    case 301 => "Moved Permanently"
    case 302 => "Found"
    case 303 => "See Other"
    case 304 => "Not Modified"
    case 305 => "Use Proxy"
    case 307 => "Temporary Redirect"
    case 308 => "Permanent Redirect"
    case 400 => "Bad Request"
    case 401 => "Unauthorized"
    case 402 => "Payment Required"
    case 403 => "Forbidden"
    case 404 => "Not Found"
    case 405 => "Method Not Allowed"
    case 406 => "Not Acceptable"
    case 407 => "Proxy Authentication Required"
    case 408 => "Request Timeout"
    case 409 => "Conflict"
    case 410 => "Gone"
    case 411 => "Length Required"
    case 412 => "Precondition Failed"
    case 413 => "Payload Too Large"
    case 414 => "URI Too Long"
    case 415 => "Unsupported Media Type"
    case 416 => "Range Not Satisfiable"
    case 417 => "Expectation Failed"
    case 418 => "I'm a teapot"
    case 421 => "Misdirected Request"
    case 422 => "Unprocessable Entity"
    case 423 => "Locked"
    case 424 => "Failed Dependency"
    case 426 => "Upgrade Required"
    case 428 => "Precondition Required"
    case 429 => "Too Many Requests"
    case 431 => "Request Header Fields Too Large"
    case 451 => "Unavailable For Legal Reasons"
    case 500 => "Internal Server Error"
    case 501 => "Not Implemented"
    case 502 => "Bad Gateway"
    case 503 => "Service Unavailable"
    case 504 => "Gateway Timeout"
    case 505 => "HTTP Version Not Supported"
    case 506 => "Variant Also Negotiates"
    case 507 => "Insufficient Storage"
    case 508 => "Loop Detected"
    case 510 => "Not Extended"
    case 511 => "Network Authentication Required"
    case _ => "<unknown status code>"
  }

  /** The error text for a status code the executor does not retry:
      the code in decimal, a space and its reason phrase. */
  function UnexpectedStatus(code: StatusCode): string
  {
    "Unexpected status code " + NatToString(code) + " " + CanonicalReason(code)
  }

  // ---------------------------------------------------------------------
  // Reference definition
  // ---------------------------------------------------------------------

  /** A call outcome the executor answers by sleeping and calling again. */
  predicate IsRetry<T>(a: Attempt<T>)
  {
    a.Ok? && a.value.NotDone? && (a.value.status == TOO_MANY_REQUESTS || a.value.status == ACCEPTED)
  }

  /** A call outcome that also grows the wait. */
  predicate IsThrottled<T>(a: Attempt<T>)
  {
    a.Ok? && a.value.NotDone? && a.value.status == TOO_MANY_REQUESTS
  }

  /** How the executor finishes on an outcome that is not retried. */
  function Settle<T>(a: Attempt<T>): Result<T>
    requires !IsRetry(a)
  {
    match a
    case Err(e) => Err(e)
    case Ok(Done(t)) => Ok(t)
    case Ok(NotDone(s)) => Err(XmlApiError(UnexpectedStatus(s)))
  }

  /** The wait after `t` rate-limited outcomes: `initialWait` doubled `t` times. */
  function Backoff(initialWait: nat, t: nat): nat
  {
    if t == 0 then initialWait else WAIT_MULTIPLIER * Backoff(initialWait, t - 1)
  }

  function Pow2(k: nat): nat
  {
    if k == 0 then 1 else 2 * Pow2(k - 1)
  }

  /** The backoff is the initial wait times a power of two. */
  lemma {:induction false} BackoffIsScaledPower(initialWait: nat, t: nat)
    ensures Backoff(initialWait, t) == initialWait * Pow2(t)
  {
    if t > 0 {
      BackoffIsScaledPower(initialWait, t - 1);
    }
  }

  lemma {:induction false} BackoffMonotonic(initialWait: nat, j: nat, k: nat)
    requires j <= k
    ensures initialWait <= Backoff(initialWait, j) <= Backoff(initialWait, k)
  {
    if j < k {
      BackoffMonotonic(initialWait, j, k - 1);
    } else if j > 0 {
      BackoffMonotonic(initialWait, j - 1, j - 1);
    }
  }

  /** The number of rate-limited outcomes among the first `k` calls. */
  function Throttles<T>(exec: nat -> Attempt<T>, k: nat): (n: nat)
    ensures n <= k
  {
    if k == 0 then 0 else Throttles(exec, k - 1) + (if IsThrottled(exec(k - 1)) then 1 else 0)
  }

  /** The index of the first call, from `k` on, whose outcome is not
      retried, or `MAX_RETRIES + 1` when the calls up to the limit are all
      retried. */
  function FirstSettled<T>(exec: nat -> Attempt<T>, k: nat): (n: nat)
    requires k <= MAX_RETRIES + 1
    ensures k <= n <= MAX_RETRIES + 1
    ensures forall i :: k <= i < n ==> IsRetry(exec(i))
    ensures n <= MAX_RETRIES ==> !IsRetry(exec(n))
    decreases MAX_RETRIES + 1 - k
  {
    if k > MAX_RETRIES then k
    else if !IsRetry(exec(k)) then k
    else FirstSettled(exec, k + 1)
  }

  /** The sleep before the (i+1)-th call is the initial wait doubled once
      per rate-limited outcome so far. */
  function Waits<T>(exec: nat -> Attempt<T>, initialWait: nat, n: nat): (ws: seq<nat>)
    ensures |ws| == n
    ensures forall i {:trigger ws[i]} :: 0 <= i < n ==> ws[i] == Backoff(initialWait, Throttles(exec, i))
  {
    if n == 0 then [] else Waits(exec, initialWait, n - 1) + [Backoff(initialWait, Throttles(exec, n - 1))]
  }

  /** Each further call adds the wait slept before it. */
  lemma WaitsStep<T>(exec: nat -> Attempt<T>, initialWait: nat, n: nat)
    ensures Waits(exec, initialWait, n + 1) == Waits(exec, initialWait, n) + [Backoff(initialWait, Throttles(exec, n))]
  {
  }

  /** `FirstSettled` finds the first call that is not retried. */
  lemma SettledAt<T>(exec: nat -> Attempt<T>, k: nat)
    requires k <= MAX_RETRIES + 1
    requires forall i :: 0 <= i < k ==> IsRetry(exec(i))
    requires k <= MAX_RETRIES ==> !IsRetry(exec(k))
    ensures FirstSettled(exec, 0) == k
  {
  }

  /** What `do_request` does when started with `initialWait`: it calls until
      the first outcome that is not retried, sleeping before each further
      call, and gives up once `MAX_RETRIES` retries have been spent. */
  function Execute<T>(exec: nat -> Attempt<T>, initialWait: nat): Execution<T>
  {
    var n := FirstSettled(exec, 0);
    if n > MAX_RETRIES then Execution(Err(XmlApiError(TOO_MANY_RETRIES)), n, Waits(exec, initialWait, n))
    else Execution(Settle(exec(n)), n + 1, Waits(exec, initialWait, n))
  }

  /** A run whose first call not retried is call `k` (or none, when `k`
      is past the limit) ends as that call settles it, after `k` sleeps. */
  lemma ExecuteSettlesAt<T>(exec: nat -> Attempt<T>, initialWait: nat, k: nat)
    requires k <= MAX_RETRIES + 1
    requires forall i :: 0 <= i < k ==> IsRetry(exec(i))
    requires k <= MAX_RETRIES ==> !IsRetry(exec(k))
    ensures k <= MAX_RETRIES ==>
              Execute(exec, initialWait) == Execution(Settle(exec(k)), k + 1, Waits(exec, initialWait, k))
    ensures k > MAX_RETRIES ==>
              Execute(exec, initialWait) == Execution(Err(XmlApiError(TOO_MANY_RETRIES)), k, Waits(exec, initialWait, k))
  {
    SettledAt(exec, k);
  }

  // ---------------------------------------------------------------------
  // The loop
  // ---------------------------------------------------------------------

  /** The loop of `do_request`, with the initial wait as a parameter. The
      wait is a `u8` in the source; the requirement keeps six doublings
      within it. */
  method RunRequest<T>(exec: nat -> Attempt<T>, initialWait: u8) returns (r: Result<T>, calls: nat, sleeps: seq<nat>)
    requires Backoff(initialWait, MAX_RETRIES + 1) < 0x100
    ensures Execution(r, calls, sleeps) == Execute(exec, initialWait)
  {
    var retries: u8 := 0;
    var wait: u8 := initialWait;
    calls, sleeps := 0, [];
    while true
      invariant retries <= MAX_RETRIES + 1
      invariant forall i :: 0 <= i < retries ==> IsRetry(exec(i))
      invariant calls == retries
      invariant sleeps == Waits(exec, initialWait, retries)
      invariant wait == Backoff(initialWait, Throttles(exec, retries))
      decreases MAX_RETRIES + 1 - retries
    {
      if retries > MAX_RETRIES as u8 {
        r := Err(XmlApiError(TOO_MANY_RETRIES));
        ExecuteSettlesAt(exec, initialWait, retries);
        return;
      }
      var outcome := exec(retries);
      calls := calls + 1;
      WaitsStep(exec, initialWait, retries);
      match outcome
      case Err(e) =>
        r := Err(e);
        ExecuteSettlesAt(exec, initialWait, retries);
        return;
      case Ok(Done(t)) =>
        r := Ok(t);
        ExecuteSettlesAt(exec, initialWait, retries);
        return;
      case Ok(NotDone(status)) =>
        if status == TOO_MANY_REQUESTS {
          ghost var t := Throttles(exec, retries);
          assert Throttles(exec, retries + 1) == t + 1;
          BackoffMonotonic(initialWait, t + 1, MAX_RETRIES + 1);
          sleeps := sleeps + [wait];
          retries := retries + 1;
          wait := wait * WAIT_MULTIPLIER;
        } else if status == ACCEPTED {
          assert Throttles(exec, retries + 1) == Throttles(exec, retries);
          sleeps := sleeps + [wait];
          retries := retries + 1;
        } else {
          r := Err(XmlApiError(UnexpectedStatus(status)));
          ExecuteSettlesAt(exec, initialWait, retries);
          return;
        }
    }
  }

  /** `do_request` of src/request.rs: waits of 2, 4, 8, ... seconds. */
  method DoRequest<T>(exec: nat -> Attempt<T>) returns (r: Result<T>, calls: nat, sleeps: seq<nat>)
    ensures Execution(r, calls, sleeps) == Execute(exec, WAIT_SECONDS)
    ensures calls <= MAX_RETRIES + 1
    ensures forall i :: 0 <= i < |sleeps| ==> sleeps[i] == 2 * Pow2(Throttles(exec, i))
  {
    r, calls, sleeps := RunRequest(exec, WAIT_SECONDS);
    forall i | 0 <= i < |sleeps|
      ensures sleeps[i] == 2 * Pow2(Throttles(exec, i))
    {
      BackoffIsScaledPower(2, Throttles(exec, i));
    }
  }

  // ---------------------------------------------------------------------
  // Properties of the executor
  // ---------------------------------------------------------------------

  /** The closure is called at least once and at most `MAX_RETRIES + 1`
      times; there is one sleep per retried call. */
  lemma CallBounds<T>(exec: nat -> Attempt<T>, initialWait: nat)
    ensures var x := Execute(exec, initialWait);
      1 <= x.calls <= MAX_RETRIES + 1 && |x.sleeps| <= x.calls
      && (x.calls == MAX_RETRIES + 1 || |x.sleeps| == x.calls - 1)
  {
  }

  /** `Done(t)` at the first call returns `Ok(t)` at once, without sleeping. */
  lemma DoneReturnsAtOnce<T>(exec: nat -> Attempt<T>, initialWait: nat, t: T)
    requires exec(0) == Ok(Done(t))
    ensures Execute(exec, initialWait) == Execution(Ok(t), 1, [])
  {
  }

  /** An error from the closure is passed on at once, without retry or sleep. */
  lemma ClosureErrorPropagates<T>(exec: nat -> Attempt<T>, initialWait: nat, e: Error)
    requires exec(0) == Err(e)
    ensures Execute(exec, initialWait) == Execution(Err(e), 1, [])
  {
  }

  /** Any status other than 429 and 202, after some retries, ends the run
      with the "Unexpected status code" error and no further sleep. */
  lemma UnexpectedStatusIsFatal<T>(exec: nat -> Attempt<T>, initialWait: nat, k: nat, status: StatusCode)
    requires k <= MAX_RETRIES
    requires forall i :: 0 <= i < k ==> IsRetry(exec(i))
    requires exec(k) == Ok(NotDone(status)) && status != TOO_MANY_REQUESTS && status != ACCEPTED
    ensures Execute(exec, initialWait).result == Err(XmlApiError("Unexpected status code " + NatToString(status) + " " + CanonicalReason(status)))
    ensures Execute(exec, initialWait).calls == k + 1
    ensures |Execute(exec, initialWait).sleeps| == k
  {
    SettledAt(exec, k);
  }

  /** Six retried outcomes in a row end in "Too many retries" after six
      calls and six sleeps; no seventh call is made. */
  lemma TooManyRetries<T>(exec: nat -> Attempt<T>, initialWait: nat)
    requires forall i :: 0 <= i <= MAX_RETRIES ==> IsRetry(exec(i))
    ensures Execute(exec, initialWait).result == Err(XmlApiError("Too many retries"))
    ensures Execute(exec, initialWait).calls == MAX_RETRIES + 1
    ensures |Execute(exec, initialWait).sleeps| == MAX_RETRIES + 1
  {
    SettledAt(exec, MAX_RETRIES + 1);
  }

  /** A rate-limited outcome doubles the next wait. */
  lemma ThrottledDoublesWait<T>(exec: nat -> Attempt<T>, initialWait: nat, i: nat)
    requires i + 1 < |Execute(exec, initialWait).sleeps|
    requires IsThrottled(exec(i))
    ensures Execute(exec, initialWait).sleeps[i + 1] == WAIT_MULTIPLIER * Execute(exec, initialWait).sleeps[i]
  {
    var sleeps := Execute(exec, initialWait).sleeps;
    var t := Throttles(exec, i);
    assert Throttles(exec, i + 1) == t + 1;
    assert sleeps[i + 1] == Backoff(initialWait, t + 1);
  }

  /** An Accepted outcome keeps the wait: the next sleep lasts as long. */
  lemma AcceptedKeepsWait<T>(exec: nat -> Attempt<T>, initialWait: nat, i: nat)
    requires i + 1 < |Execute(exec, initialWait).sleeps|
    requires exec(i).Ok? && exec(i).value == NotDone(ACCEPTED)
    ensures Execute(exec, initialWait).sleeps[i + 1] == Execute(exec, initialWait).sleeps[i]
  {
  }

  /** Every sleep lasts between the initial wait and 32 times it, so the
      `u8` wait of the source never overflows. */
  lemma {:induction false} WaitsBounded<T>(exec: nat -> Attempt<T>, initialWait: nat, i: nat)
    requires i < |Execute(exec, initialWait).sleeps|
    ensures initialWait <= Execute(exec, initialWait).sleeps[i] <= Backoff(initialWait, MAX_RETRIES)
  {
    var sleeps := Execute(exec, initialWait).sleeps;
    var t := Throttles(exec, i);
    assert i < MAX_RETRIES + 1;
    BackoffMonotonic(initialWait, t, MAX_RETRIES);
    assert sleeps[i] == Backoff(initialWait, t);
  }
}
