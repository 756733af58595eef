/** The browser-side payments client (frontend/src/api/payment.js): payment
    creation with retries on rate limiting, payment details with
    exponential backoff, and the session cache of active integrations.

    Requests are replaced by their replies: `replies(k)` is the reply to the
    k-th request of one call. Waiting is not performed; the delays a call
    would wait are returned instead. The clock is a parameter. */
module PaymentApi {
  import opened Text

  const MaxRetries: nat := 3
  const BaseDelay: nat := 1000
  const CacheLifetime: int := 300000

  const RequestCancelled := "Request cancelled"
  const CreationFailed := "Payment creation failed"
  const DetailsFailed := "Failed to fetch payment details"
  const IntegrationsFailed := "Error fetching integrations"

  /** `x || fallback` on a message that may be missing or empty. */
  function OrDefault(message: Option<string>, fallback: string): (r: string)
    ensures Present(message) ==> r == message.value
    ensures !Present(message) ==> r == fallback
  {
    if Present(message) then message.value else fallback
  }

  /** The parts of a payment the client reads. */
  datatype PaymentBody = PaymentBody(reference: string, amount: int, status: string, paymentUrl: string, pollUrl: string)

  /** `parseInt` of the `retry-after` header: no header, not a number, or
      a number of seconds. */
  datatype RetryAfter = NoHeader | NotANumber | Seconds(n: int)

  /** The wait before retrying a 429, in milliseconds:
      `(parseInt(retry-after) || 5) * 1000`. */
  function RetryDelay(h: RetryAfter): (ms: int)
    ensures h.Seconds? && h.n != 0 ==> ms == h.n * 1000
    ensures !(h.Seconds? && h.n != 0) ==> ms == 5000
  {
    if h.Seconds? && h.n != 0 then h.n * 1000 else 5000
  }

  /** The reply to a create request: a 2xx response (its status and body),
      a cancellation, an error response, or no response at all. */
  datatype CreateReply =
    | Answered(status: int, success: bool, message: Option<string>, payment: Option<PaymentBody>)
    | Cancelled
    | ErrorResponse(status: int, retryAfter: RetryAfter, message: Option<string>)
    | NoResponse

  datatype CreateResult =
    | Created(serverMessage: Option<string>, payment: PaymentBody)
    | CreateFailed(message: string, statusCode: Option<int>)

  /** What a `createPayment` call returns, how many requests it made and the
      waits between them. */
  datatype CreateRun = CreateRun(result: CreateResult, requests: nat, waits: seq<int>)

  /** `createPayment(paymentData, retries)` from request `k` on. A 201 whose
      body claims success but carries no payment makes reading
      `payment.reference` throw, which the catch turns into the generic
      failure. */
  function CreatePaymentFrom(replies: nat -> CreateReply, retries: nat, k: nat): (run: CreateRun)
    ensures 1 <= run.requests <= retries + 1
    ensures run.requests == |run.waits| + 1
    decreases retries
  {
    match replies(k)
    case Answered(status, success, message, payment) =>
      if status == 201 && success && payment.Some? then CreateRun(Created(message, payment.value), 1, [])
      else if status == 201 && success then CreateRun(CreateFailed(CreationFailed, None), 1, [])
      else CreateRun(CreateFailed(OrDefault(message, CreationFailed), Some(status)), 1, [])
    case Cancelled => CreateRun(CreateFailed(RequestCancelled, None), 1, [])
    case ErrorResponse(status, retryAfter, message) =>
      if status == 429 && retries > 0 then
        var rest := CreatePaymentFrom(replies, retries - 1, k + 1);
        CreateRun(rest.result, rest.requests + 1, [RetryDelay(retryAfter)] + rest.waits)
      else CreateRun(CreateFailed(OrDefault(message, CreationFailed), Some(status)), 1, [])
    case NoResponse => CreateRun(CreateFailed(CreationFailed, None), 1, [])
  }

  /** `createPayment(paymentData)`: at most `MAX_RETRIES` + 1 = 4 requests. */
  function CreatePayment(replies: nat -> CreateReply): (run: CreateRun)
    ensures 1 <= run.requests <= 4
  {
    CreatePaymentFrom(replies, MaxRetries, 0)
  }

  predicate IsRateLimited(reply: CreateReply)
  {
    reply.ErrorResponse? && reply.status == 429
  }

  predicate IsCreated(reply: CreateReply)
  {
    reply.Answered? && reply.status == 201 && reply.success && reply.payment.Some?
  }

  /** The waits of a run starting at request `k`: the i-th follows a 429
      reply to request `k + i` and is that reply's retry delay. */
  predicate WaitsFollowRateLimits(replies: nat -> CreateReply, k: nat, waits: seq<int>)
    decreases |waits|
  {
    waits == [] ||
    (IsRateLimited(replies(k)) && waits[0] == RetryDelay(replies(k).retryAfter) &&
     WaitsFollowRateLimits(replies, k + 1, waits[1..]))
  }

  /** Every request but the last was answered 429 and was followed by its
      wait; the call succeeds exactly when the last reply is a 201 with
      `success` and a payment, and then returns that payment. A last reply
      that is a 429 means the retries ran out, and a failure reports the
      last reply's status and message. */
  lemma {:induction false} CreatePaymentFromShape(replies: nat -> CreateReply, retries: nat, k: nat)
    ensures WaitsFollowRateLimits(replies, k, CreatePaymentFrom(replies, retries, k).waits)
    ensures var run := CreatePaymentFrom(replies, retries, k);
      run.result.Created? <==> IsCreated(replies(k + run.requests - 1))
    ensures var run := CreatePaymentFrom(replies, retries, k);
      run.result.Created? ==> run.result.payment == replies(k + run.requests - 1).payment.value
    ensures var run := CreatePaymentFrom(replies, retries, k);
      IsRateLimited(replies(k + run.requests - 1)) ==> run.requests == retries + 1
    ensures var run := CreatePaymentFrom(replies, retries, k); var last := replies(k + run.requests - 1);
      last.ErrorResponse? ==> run.result == CreateFailed(OrDefault(last.message, CreationFailed), Some(last.status))
    ensures var run := CreatePaymentFrom(replies, retries, k); var last := replies(k + run.requests - 1);
      last.Answered? && !(last.status == 201 && last.success) ==>
        run.result == CreateFailed(OrDefault(last.message, CreationFailed), Some(last.status))
    ensures var run := CreatePaymentFrom(replies, retries, k); var last := replies(k + run.requests - 1);
      (last.Cancelled? ==> run.result == CreateFailed(RequestCancelled, None)) &&
      (last.NoResponse? ==> run.result == CreateFailed(CreationFailed, None))
    decreases retries
  {
    var reply := replies(k);
    if IsRateLimited(reply) && retries > 0 {
      CreatePaymentFromShape(replies, retries - 1, k + 1);
      var rest := CreatePaymentFrom(replies, retries - 1, k + 1);
      var run := CreatePaymentFrom(replies, retries, k);
      assert run.waits[1..] == rest.waits;
      assert k + run.requests - 1 == (k + 1) + rest.requests - 1;
    }
  }

  /** A 429 is retried only while retries remain: a call that ran out of
      retries on rate limiting reports the last 429. */
  lemma RateLimitedFourTimes(replies: nat -> CreateReply)
    requires IsRateLimited(replies(0)) && IsRateLimited(replies(1))
    requires IsRateLimited(replies(2)) && IsRateLimited(replies(3))
    ensures CreatePayment(replies).requests == 4
    ensures CreatePayment(replies).result == CreateFailed(OrDefault(replies(3).message, CreationFailed), Some(429))
    ensures CreatePayment(replies).waits ==
      [RetryDelay(replies(0).retryAfter), RetryDelay(replies(1).retryAfter), RetryDelay(replies(2).retryAfter)]
  {
  }

  /** A cancelled request is reported as such and never retried. */
  lemma CancelIsNotRetried(replies: nat -> CreateReply, retries: nat, k: nat)
    requires replies(k).Cancelled?
    ensures CreatePaymentFrom(replies, retries, k) == CreateRun(CreateFailed(RequestCancelled, None), 1, [])
  {
  }

  // ---------------------------------------------------------------------
  // Payment details

  datatype DetailsReply =
    | Fetched(payment: PaymentBody)
    | DetailsCancelled
    | DetailsError(status: Option<int>, message: Option<string>)

  datatype DetailsResult =
    | DetailsOk(payment: PaymentBody)
    | DetailsFailure(message: string, statusCode: Option<int>)

  datatype DetailsRun = DetailsRun(result: DetailsResult, requests: nat, delays: seq<int>)

  function Pow2(n: nat): nat
  {
    if n == 0 then 1 else 2 * Pow2(n - 1)
  }

  /** `BASE_DELAY * Math.pow(2, attempt - 1)`. */
  function BackoffDelay(attempt: nat): nat
    requires attempt >= 1
  {
    BaseDelay * Pow2(attempt - 1)
  }

  /** `getPaymentDetails(reference, attempt)`; attempt `a` sends request
      `a - 1` of the call. */
  function DetailsFrom(replies: nat -> DetailsReply, attempt: nat): (run: DetailsRun)
    requires attempt >= 1
    ensures 1 <= run.requests
    ensures attempt <= MaxRetries + 1 ==> run.requests <= MaxRetries + 2 - attempt
    ensures run.requests == |run.delays| + 1
    ensures replies(attempt - 1).DetailsError? && attempt <= MaxRetries ==> run.requests >= 2
    ensures !replies(attempt - 1).DetailsError? ==> run.requests == 1
    decreases MaxRetries + 1 - attempt
  {
    match replies(attempt - 1)
    case Fetched(payment) => DetailsRun(DetailsOk(payment), 1, [])
    case DetailsCancelled => DetailsRun(DetailsFailure(RequestCancelled, None), 1, [])
    case DetailsError(status, message) =>
      if attempt <= MaxRetries then
        var rest := DetailsFrom(replies, attempt + 1);
        DetailsRun(rest.result, rest.requests + 1, [BackoffDelay(attempt)] + rest.delays)
      else DetailsRun(DetailsFailure(OrDefault(message, DetailsFailed), status), 1, [])
  }

  /** `getPaymentDetails(reference)`. */
  function GetPaymentDetails(replies: nat -> DetailsReply): (run: DetailsRun)
    ensures 1 <= run.requests <= 4
  {
    DetailsFrom(replies, 1)
  }

  /** The backoff schedule: the i-th wait of a call is 1000·2^i ms, i.e. 1000,
      2000 and 4000, and each follows a failed request that was not a
      cancellation. */
  lemma {:induction false} DetailsBackoffSchedule(replies: nat -> DetailsReply, attempt: nat)
    requires attempt >= 1
    ensures var run := DetailsFrom(replies, attempt);
      forall i :: 0 <= i < |run.delays| ==>
        run.delays[i] == 1000 * Pow2(attempt - 1 + i) && replies(attempt - 1 + i).DetailsError?
    decreases MaxRetries + 1 - attempt
  {
    var run := DetailsFrom(replies, attempt);
    if replies(attempt - 1).DetailsError? && attempt <= MaxRetries {
      DetailsBackoffSchedule(replies, attempt + 1);
      var rest := DetailsFrom(replies, attempt + 1);
      forall i | 0 <= i < |run.delays|
        ensures run.delays[i] == 1000 * Pow2(attempt - 1 + i) && replies(attempt - 1 + i).DetailsError?
      {
        if i > 0 {
          assert run.delays[i] == rest.delays[i - 1];
          assert attempt - 1 + i == (attempt + 1) - 1 + (i - 1);
        }
      }
    }
  }

  lemma DetailsDelays(replies: nat -> DetailsReply)
    ensures var run := GetPaymentDetails(replies);
      run.delays <= [1000, 2000, 4000]
  {
    DetailsBackoffSchedule(replies, 1);
    var run := GetPaymentDetails(replies);
    assert Pow2(0) == 1 && Pow2(1) == 2 && Pow2(2) == 4;
    assert |run.delays| <= 3;
  }

  /** The call succeeds exactly when its last request was answered. A
      cancellation ends it at once with "Request cancelled". Any other error
      is retried until the attempts are used up, and the call then fails
      with the last error's message (or the default) and status. */
  lemma {:induction false} DetailsOutcome(replies: nat -> DetailsReply, attempt: nat)
    requires attempt >= 1
    ensures var run := DetailsFrom(replies, attempt);
      var last := replies(attempt - 1 + run.requests - 1);
      && (run.result.DetailsOk? <==> last.Fetched?)
      && (run.result.DetailsOk? ==> run.result.payment == last.payment)
      && (replies(attempt - 1).DetailsCancelled? ==> run == DetailsRun(DetailsFailure(RequestCancelled, None), 1, []))
      && (last.DetailsCancelled? ==> run.result == DetailsFailure(RequestCancelled, None))
      && (last.DetailsError? ==> run.result == DetailsFailure(OrDefault(last.message, DetailsFailed), last.status))
      && (last.DetailsError? && attempt <= MaxRetries + 1 ==> run.requests == MaxRetries + 2 - attempt)
    decreases MaxRetries + 1 - attempt
  {
    if replies(attempt - 1).DetailsError? && attempt <= MaxRetries {
      DetailsOutcome(replies, attempt + 1);
      var rest := DetailsFrom(replies, attempt + 1);
      assert attempt - 1 + (rest.requests + 1) - 1 == (attempt + 1) - 1 + rest.requests - 1;
    }
  }

  // ---------------------------------------------------------------------
  // Active integrations

  datatype ListReply = Listed(data: JsValue) | ListCancelled | ListError(status: Option<int>, message: Option<string>)

  datatype ListResult = ListOk(data: JsValue) | ListFailure(message: string, statusCode: Option<int>)

  /** The two `sessionStorage` entries: the cached data and its expiry. */
  datatype CacheState = CacheState(cached: Option<JsValue>, expires: Option<int>)

  predicate Fresh(s: CacheState, now: int)
  {
    s.cached.Some? && s.expires.Some? && now < s.expires.value
  }

  /** One `getActiveIntegrations` call at time `now`: its result, the cache
      afterwards, and whether a request was made. */
  function CacheStep(s: CacheState, now: int, reply: ListReply): (r: (ListResult, CacheState, bool))
    ensures r.2 <==> !Fresh(s, now)
    ensures Fresh(s, now) ==> r == (ListOk(s.cached.value), s, false)
    ensures r.1 != s ==>
      reply.Listed? && JsTruthy(reply.data) && r.1 == CacheState(Some(reply.data), Some(now + CacheLifetime))
    ensures r.0.ListFailure? ==> s.cached.None? || reply.ListCancelled?
    ensures !Fresh(s, now) && reply.Listed? ==> r.0 == ListOk(reply.data)
    ensures !Fresh(s, now) && reply.Listed? && JsTruthy(reply.data) ==>
      r.1 == CacheState(Some(reply.data), Some(now + CacheLifetime))
    ensures !Fresh(s, now) && reply.ListCancelled? ==> r.0 == ListFailure(RequestCancelled, None)
    ensures !Fresh(s, now) && reply.ListError? && s.cached.Some? ==> r.0 == ListOk(s.cached.value)
    ensures !Fresh(s, now) && reply.ListError? && s.cached.None? ==>
      r.0 == ListFailure(OrDefault(reply.message, IntegrationsFailed), reply.status)
  {
    if Fresh(s, now) then (ListOk(s.cached.value), s, false)
    else match reply
      case Listed(data) =>
        if JsTruthy(data) then (ListOk(data), CacheState(Some(data), Some(now + CacheLifetime)), true)
        else (ListOk(data), s, true)
      case ListCancelled => (ListFailure(RequestCancelled, None), s, true)
      case ListError(status, message) =>
        if s.cached.Some? then (ListOk(s.cached.value), s, true)
        else (ListFailure(OrDefault(message, IntegrationsFailed), status), s, true)
  }

  /** Data stored at `t` is served without a request until `t` + 5 minutes
      and not from then on. */
  lemma CacheServesForFiveMinutes(s: CacheState, t: int, data: JsValue, later: int, reply: ListReply)
    requires !Fresh(s, t) && JsTruthy(data)
    requires t <= later
    ensures var stored := CacheStep(s, t, Listed(data)).1;
      && (later < t + 300000 ==> CacheStep(stored, later, reply) == (ListOk(data), stored, false))
      && (later >= t + 300000 ==> CacheStep(stored, later, reply).2)
  {
  }

  /** When a request fails (other than by cancellation), cached data is
      returned whatever its age, and the cache is untouched. */
  lemma StaleFallback(s: CacheState, now: int, status: Option<int>, message: Option<string>)
    requires s.cached.Some?
    ensures CacheStep(s, now, ListError(status, message)) == (ListOk(s.cached.value), s, !Fresh(s, now))
  {
  }

  /** The cache is only ever written with truthy data and an expiry five
      minutes after the write. */
  lemma CacheWritesAreFresh(s: CacheState, now: int, reply: ListReply)
    ensures var after := CacheStep(s, now, reply).1;
      after != s ==>
        reply.Listed? && JsTruthy(reply.data) && after == CacheState(Some(reply.data), Some(now + CacheLifetime))
  {
  }

  /** The session cache. */
  class IntegrationsCache {
    var cached: Option<JsValue>
    var expires: Option<int>

    constructor ()
      ensures cached.None? && expires.None?
    {
      cached, expires := None, None;
    }

    function State(): CacheState
      reads this
    {
      CacheState(cached, expires)
    }

    /** `getActiveIntegrations` at time `now`. */
    method GetActiveIntegrations(now: int, reply: ListReply) returns (r: ListResult, requested: bool)
      modifies this
      ensures (r, State(), requested) == CacheStep(old(State()), now, reply)
    {
      if cached.Some? && expires.Some? && now < expires.value {
        return ListOk(cached.value), false;
      }
      requested := true;
      match reply {
        case Listed(data) =>
          if JsTruthy(data) {
            cached := Some(data);
            expires := Some(now + CacheLifetime);
          }
          r := ListOk(data);
        case ListCancelled =>
          r := ListFailure(RequestCancelled, None);
        case ListError(status, message) =>
          if cached.Some? {
            r := ListOk(cached.value);
          } else {
            r := ListFailure(OrDefault(message, IntegrationsFailed), status);
          }
      }
    }
  }
}
