/** The payment state the React context shares with the pages
    (frontend/src/context/PaymentContext.jsx): loading the active
    integrations, initiating a payment, fetching its details and polling its
    status.

    The calls into frontend/src/api/payment.js are the functions of
    `PaymentApi`, fed with the replies the server gives; timers are not run,
    the delays they would wait are returned. Toasts and logging are not
    modelled. */
module PaymentContext {
  import opened Text
  import PaymentModels
  import PaymentApi
  import PaymentSerializers

  /** `handleRateLimitError`'s default wait, in seconds. */
  const DefaultRetrySeconds: int := 30
  const LoadFailed := "Failed to load integrations"
  const MissingFields := "Missing required fields"
  const PollingTimeout := "Polling timeout"
  const DefaultMaxAttempts: int := 12

  /** The `TypeError`s the browser throws: `res.data.map` on data that is
      not an array, and `integration.is_active` on a null or undefined
      element. */
  const MapNotAFunction := "res.data.map is not a function"
  const NullHasNoFlag := "Cannot read properties of null (reading 'is_active')"
  const UndefinedHasNoFlag := "Cannot read properties of undefined (reading 'is_active')"

  /** `{...integration, is_active: Boolean(integration.is_active)}` on an
      object: every field kept, `is_active` made a boolean by truthiness. */
  function CoerceActive(record: map<string, JsValue>): (r: map<string, JsValue>)
    ensures r.Keys == record.Keys + {"is_active"}
    ensures r["is_active"] == JsBool(JsTruthy(Get(record, "is_active")))
    ensures forall k :: k in record && k != "is_active" ==> r[k] == record[k]
  {
    record["is_active" := JsBool(JsTruthy(Get(record, "is_active")))]
  }

  /** Coercing twice is coercing once: a boolean flag is left as it is. */
  lemma CoerceActiveIdempotent(record: map<string, JsValue>)
    ensures CoerceActive(CoerceActive(record)) == CoerceActive(record)
  {
  }

  /** The same mapping on one element of the list. Spreading a boolean or a
      number adds no field; `null` and `undefined` have no `is_active`. */
  function CoerceItem(v: JsValue): (r: Result<JsValue, string>)
    ensures v.JsObject? ==> r == Ok(JsObject(CoerceActive(v.fields)))
    ensures v.JsNull? ==> r == Err(NullHasNoFlag)
    ensures v.JsUndefined? ==> r == Err(UndefinedHasNoFlag)
    ensures r.Err? <==> v.JsNull? || v.JsUndefined?
    ensures r.Ok? ==> r.value.JsObject? && "is_active" in r.value.fields && r.value.fields["is_active"].JsBool?
  {
    match v
    case JsObject(fields) => Ok(JsObject(CoerceActive(fields)))
    case JsNull => Err(NullHasNoFlag)
    case JsUndefined => Err(UndefinedHasNoFlag)
    case _ => Ok(JsObject(map["is_active" := JsBool(false)]))
  }

  /** `res.data.map(...)`: the elements in order, or the error of the first
      element that throws. */
  function CoerceAll(items: seq<JsValue>): (r: Result<seq<JsValue>, string>)
    ensures r.Ok? ==> |r.value| == |items|
    ensures r.Ok? ==> forall i :: 0 <= i < |items| ==> CoerceItem(items[i]) == Ok(r.value[i])
    ensures r.Err? ==> exists i :: 0 <= i < |items| && CoerceItem(items[i]) == Err(r.error)
    ensures r.Ok? <==> forall i :: 0 <= i < |items| ==> CoerceItem(items[i]).Ok?
  {
    if items == [] then Ok([])
    else match CoerceItem(items[0])
      case Err(e) => Err(e)
      case Ok(first) =>
        match CoerceAll(items[1..])
        case Err(e) =>
          ghost var i :| 0 <= i < |items[1..]| && CoerceItem(items[1..][i]) == Err(e);
          assert items[i + 1] == items[1..][i];
          Err(e)
        case Ok(rest) =>
          assert forall i :: 0 < i < |items| ==> items[i] == items[1..][i - 1];
          Ok([first] + rest)
  }

  // ---------------------------------------------------------------------
  // fetchIntegrations

  /** What one `fetchIntegrations` run does with the result of
      `getActiveIntegrations`: show the list, schedule a retry after a 429,
      or report an error. */
  datatype FetchOutcome = Loaded(integrations: seq<JsValue>) | RetryLater(ms: int) | LoadError(message: string)

  function FetchOutcomeOf(res: PaymentApi.ListResult): (r: FetchOutcome)
    ensures r.RetryLater? <==> res.ListFailure? && res.statusCode == Some(429)
    ensures r.RetryLater? ==> r.ms == 30000
    ensures r.Loaded? ==> res.ListOk? && res.data.JsArray? && |r.integrations| == |res.data.items|
    ensures res.ListOk? && !JsTruthy(res.data) ==> r == LoadError(LoadFailed)
    ensures r.LoadError? ==> r.message != ""
  {
    match res
    case ListOk(data) =>
      if !JsTruthy(data) then LoadError(LoadFailed)
      else if !data.JsArray? then LoadError(MapNotAFunction)
      else (match CoerceAll(data.items)
        case Ok(items) => Loaded(items)
        case Err(e) => LoadError(e))
    case ListFailure(message, statusCode) =>
      if statusCode == Some(429) then RetryLater(DefaultRetrySeconds * 1000)
      else LoadError(if message != "" then message else LoadFailed)
  }

  /** Every integration shown has a boolean `is_active`, and its other
      fields are as the server sent them. */
  lemma LoadedIntegrationsAreFlagged(res: PaymentApi.ListResult)
    requires FetchOutcomeOf(res).Loaded?
    ensures res.ListOk? && res.data.JsArray?
    ensures var shown := FetchOutcomeOf(res).integrations;
      && |shown| == |res.data.items|
      && forall i :: 0 <= i < |shown| ==>
        shown[i].JsObject? && shown[i].fields["is_active"].JsBool? &&
        (res.data.items[i].JsObject? ==> shown[i] == JsObject(CoerceActive(res.data.items[i].fields)))
  {
  }

  /** A retry is only ever scheduled after a 429 that the session cache
      could not cover, and a cancelled request is shown as an error: the
      `axios.isCancel` test never sees a cancellation. */
  lemma FetchFailureCases(s: PaymentApi.CacheState, now: int, reply: PaymentApi.ListReply)
    ensures var res := PaymentApi.CacheStep(s, now, reply).0;
      FetchOutcomeOf(res).RetryLater? ==>
        s.cached.None? && reply == PaymentApi.ListError(Some(429), reply.message) &&
        FetchOutcomeOf(res).ms == 30000
    ensures var res := PaymentApi.CacheStep(s, now, reply).0;
      !PaymentApi.Fresh(s, now) && reply.ListCancelled? ==> FetchOutcomeOf(res) == LoadError(PaymentApi.RequestCancelled)
  {
  }

  /** The fallback "Failed to load integrations" replaces no failure
      message (every failure `getActiveIntegrations` returns carries one);
      it is shown for a successful reply exactly when its data is falsy. */
  lemma DefaultMessageOnlyForFalsyData(s: PaymentApi.CacheState, now: int, reply: PaymentApi.ListReply)
    ensures var res := PaymentApi.CacheStep(s, now, reply).0;
      res.ListFailure? && res.statusCode != Some(429) ==> FetchOutcomeOf(res) == LoadError(res.message)
    ensures var res := PaymentApi.CacheStep(s, now, reply).0;
      res.ListOk? ==> (FetchOutcomeOf(res) == LoadError(LoadFailed) <==> !JsTruthy(res.data))
  {
    var res := PaymentApi.CacheStep(s, now, reply).0;
    if res.ListOk? && JsTruthy(res.data) && res.data.JsArray? && CoerceAll(res.data.items).Err? {
      var e := CoerceAll(res.data.items).error;
      var i :| 0 <= i < |res.data.items| && CoerceItem(res.data.items[i]) == Err(e);
      assert e != LoadFailed;
    }
  }

  /** The list of integrations as the server renders it. */
  function RenderedList(rows: seq<PaymentSerializers.IntegrationRow>): (v: JsValue)
    ensures v.JsArray? && |v.items| == |rows|
    ensures forall i :: 0 <= i < |rows| ==> v.items[i] == JsObject(PaymentSerializers.SerializeIntegration(rows[i]))
  {
    JsArray(seq(|rows|, i requires 0 <= i < |rows| => JsObject(PaymentSerializers.SerializeIntegration(rows[i]))))
  }

  /** The same list with the integration serializer as written. */
  function RenderedListAsWritten(rows: seq<PaymentSerializers.IntegrationRow>): (v: JsValue)
    ensures v.JsArray? && |v.items| == |rows|
    ensures forall i :: 0 <= i < |rows| ==>
      v.items[i] == JsObject(PaymentSerializers.SerializeIntegrationAsWritten(rows[i]))
  {
    JsArray(seq(|rows|, i requires 0 <= i < |rows| => JsObject(PaymentSerializers.SerializeIntegrationAsWritten(rows[i]))))
  }

  /** One integration rendered as written is coerced to an inactive one. */
  lemma InactiveAsWrittenItem(row: PaymentSerializers.IntegrationRow)
    ensures var c := CoerceItem(JsObject(PaymentSerializers.SerializeIntegrationAsWritten(row)));
      c.Ok? && c.value.fields["is_active"] == JsBool(false)
  {
    var fields := PaymentSerializers.SerializeIntegrationAsWritten(row);
    assert Get(fields, "is_active") == JsUndefined;
  }

  /** As written, every integration the page shows is inactive, though the
      server lists only active ones: the rendered object has no `is_active`,
      and `Boolean(undefined)` is false. */
  lemma ListedIntegrationsShownInactiveAsWritten(rows: seq<PaymentSerializers.IntegrationRow>)
    ensures FetchOutcomeOf(PaymentApi.ListOk(RenderedListAsWritten(rows))).Loaded?
    ensures var shown := FetchOutcomeOf(PaymentApi.ListOk(RenderedListAsWritten(rows))).integrations;
      |shown| == |rows| &&
      forall i :: 0 <= i < |shown| ==> shown[i].fields["is_active"] == JsBool(false)
  {
    var list := RenderedListAsWritten(rows);
    var items := list.items;
    forall i | 0 <= i < |items|
      ensures CoerceItem(items[i]).Ok? && CoerceItem(items[i]).value.fields["is_active"] == JsBool(false)
    {
      InactiveAsWrittenItem(rows[i]);
    }
    var r := CoerceAll(items);
    assert r.Ok?;
    assert FetchOutcomeOf(PaymentApi.ListOk(list)) == Loaded(r.value);
  }

  /** A record whose `is_active` is already a boolean is left as it is. */
  lemma CoerceActiveKeepsFlag(record: map<string, JsValue>)
    requires "is_active" in record && record["is_active"].JsBool?
    ensures CoerceActive(record) == record
  {
  }

  /** When every element coerces to itself, so does the whole list. */
  lemma CoerceAllFixed(items: seq<JsValue>)
    requires forall i :: 0 <= i < |items| ==> CoerceItem(items[i]) == Ok(items[i])
    ensures CoerceAll(items) == Ok(items)
  {
    var r := CoerceAll(items);
    assert r.Ok?;
    assert r.value == items;
  }

  /** With `is_active` rendered, the page shows each integration exactly as
      the server rendered it, and its flag is the stored one. */
  lemma ListedIntegrationsShownAsStored(rows: seq<PaymentSerializers.IntegrationRow>)
    ensures FetchOutcomeOf(PaymentApi.ListOk(RenderedList(rows))) == Loaded(RenderedList(rows).items)
    ensures forall i :: 0 <= i < |rows| ==>
      RenderedList(rows).items[i].fields["is_active"] == JsBool(rows[i].integration.isActive)
  {
    var items := RenderedList(rows).items;
    forall i | 0 <= i < |items| ensures CoerceItem(items[i]) == Ok(items[i]) {
      CoerceActiveKeepsFlag(PaymentSerializers.SerializeIntegration(rows[i]));
    }
    CoerceAllFixed(items);
  }

  // ---------------------------------------------------------------------
  // Payment polling

  /** `['Paid', 'Cancelled', 'Failed'].includes(status)`. */
  predicate IsFinalStatus(status: string)
  {
    status == "Paid" || status == "Cancelled" || status == "Failed"
  }

  /** The statuses polling stops at are exactly the rendered names of the
      three final states of a payment. */
  lemma FinalStatusesAreFinalStates(s: PaymentModels.Status)
    ensures IsFinalStatus(PaymentModels.StatusName(s)) <==> s in {PaymentModels.Paid, PaymentModels.Cancelled, PaymentModels.Failed}
  {
  }

  predicate IsTerminal(res: PaymentApi.DetailsResult)
  {
    res.DetailsOk? && IsFinalStatus(res.payment.status)
  }

  datatype PollOutcome = Resolved(payment: PaymentApi.PaymentBody) | Rejected(message: string)

  /** `pollPaymentStatus` from the tick where `attempts` is `k`:
      `results(k)` is what the `getPaymentDetails` call of that tick
      returns. The outcome and the number of ticks that polled. */
  function PollFrom(results: nat -> PaymentApi.DetailsResult, maxAttempts: int, k: nat): (r: (PollOutcome, nat))
    ensures r.1 >= k + 1
    ensures r.0.Rejected? ==> r.0.message == PollingTimeout
    decreases maxAttempts - k
  {
    if IsTerminal(results(k)) then (Resolved(results(k).payment), k + 1)
    else if k + 1 >= maxAttempts then (Rejected(PollingTimeout), k + 1)
    else PollFrom(results, maxAttempts, k + 1)
  }

  function Max(a: int, b: int): int
  {
    if a < b then b else a
  }

  /** No tick in `[from, to)` saw a final status. */
  predicate NoneTerminal(results: nat -> PaymentApi.DetailsResult, from: nat, to: int)
  {
    forall j: nat :: from <= j < to ==> !IsTerminal(results(j))
  }

  /** Polling from tick `k` stops at the first final status, or with
      "Polling timeout" once `maxAttempts` ticks have passed (at least one
      tick is always polled). */
  lemma {:induction false} PollShape(results: nat -> PaymentApi.DetailsResult, maxAttempts: int, k: nat)
    ensures var (outcome, polls) := PollFrom(results, maxAttempts, k);
      && k + 1 <= polls <= Max(k + 1, maxAttempts)
      && NoneTerminal(results, k, polls - 1)
      && (outcome.Resolved? <==> IsTerminal(results(polls - 1)))
      && (outcome.Resolved? ==> outcome.payment == results(polls - 1).payment)
      && (outcome.Rejected? ==> outcome.message == PollingTimeout && polls == Max(k + 1, maxAttempts))
    decreases maxAttempts - k
  {
    if !IsTerminal(results(k)) && k + 1 < maxAttempts {
      PollShape(results, maxAttempts, k + 1);
    }
  }

  /** Polling resolves with the first final status, provided it comes
      within the first `maxAttempts` ticks (at least one), and polls no
      further. */
  lemma PollResolvesAtFirstFinal(results: nat -> PaymentApi.DetailsResult, maxAttempts: int, i: nat)
    requires i < Max(1, maxAttempts) && IsTerminal(results(i)) && NoneTerminal(results, 0, i)
    ensures PollFrom(results, maxAttempts, 0) == (Resolved(results(i).payment), i + 1)
  {
    PollShape(results, maxAttempts, 0);
  }

  /** Without a final status in the first `maxAttempts` ticks (at least
      one), polling rejects with "Polling timeout" after exactly that many
      polls; failed fetches count as attempts too. */
  lemma PollTimesOut(results: nat -> PaymentApi.DetailsResult, maxAttempts: int)
    requires NoneTerminal(results, 0, Max(1, maxAttempts))
    ensures PollFrom(results, maxAttempts, 0) == (Rejected(PollingTimeout), Max(1, maxAttempts))
  {
    PollShape(results, maxAttempts, 0);
    var polls := PollFrom(results, maxAttempts, 0).1;
    assert !IsTerminal(results(polls - 1));
  }

  /** With the default of twelve attempts, twelve polls without a final
      status end in "Polling timeout". */
  lemma DefaultPollingGivesUpAfterTwelve(results: nat -> PaymentApi.DetailsResult)
    requires NoneTerminal(results, 0, 12)
    ensures PollFrom(results, DefaultMaxAttempts, 0) == (Rejected(PollingTimeout), 12)
  {
    PollTimesOut(results, DefaultMaxAttempts);
  }

  /** The context's state. */
  class PaymentState {
    var loading: bool
    var integrations: seq<JsValue>
    var payment: Option<PaymentApi.PaymentBody>
    var error: Option<string>
    var paymentAmount: int
    var retryCount: nat

    constructor ()
      ensures !loading && integrations == [] && payment.None? && error.None?
      ensures paymentAmount == 0 && retryCount == 0
    {
      loading, integrations, payment, error := false, [], None, None;
      paymentAmount, retryCount := 0, 0;
    }

    /** `fetchIntegrations` at time `now`, through the session cache. On a
        429 the retry it schedules is returned as its delay in ms. */
    method FetchIntegrations(cache: PaymentApi.IntegrationsCache, now: int, reply: PaymentApi.ListReply)
      returns (retryIn: Option<int>)
      modifies this, cache
      ensures var (res, after, _) := PaymentApi.CacheStep(old(cache.State()), now, reply);
        && cache.State() == after
        && match FetchOutcomeOf(res)
           case Loaded(items) =>
             integrations == items && error.None? && retryIn.None?
           case RetryLater(ms) =>
             integrations == old(integrations) && error == old(error) && retryIn == Some(ms)
           case LoadError(message) =>
             integrations == old(integrations) && error == Some(message) && retryIn.None?
      ensures !loading
      ensures payment == old(payment) && paymentAmount == old(paymentAmount) && retryCount == old(retryCount)
    {
      loading := true;
      var res, _ := cache.GetActiveIntegrations(now, reply);
      retryIn := None;
      match FetchOutcomeOf(res) {
        case Loaded(items) =>
          integrations := items;
          error := None;
        case RetryLater(ms) =>
          retryIn := Some(ms);
        case LoadError(message) =>
          error := Some(message);
      }
      loading := false;
    }

    /** The timer `handleRateLimitError` set goes off; the changed
        `retryCount` makes the page fetch the integrations again. */
    method RetryTimerFired()
      modifies this
      ensures retryCount == old(retryCount) + 1
      ensures loading == old(loading) && integrations == old(integrations) && payment == old(payment)
      ensures error == old(error) && paymentAmount == old(paymentAmount)
    {
      retryCount := retryCount + 1;
    }

    /** `initiatePayment`. Missing fields are refused without a request;
        otherwise `createPayment` decides. Its failures, a 429 included, are
        reported as errors: the error caught never has a `response`. */
    method InitiatePayment(amount: JsValue, currency: JsValue, integrationId: JsValue,
                           replies: nat -> PaymentApi.CreateReply)
      returns (r: PaymentApi.CreateResult, requests: nat)
      modifies this
      ensures !(JsTruthy(amount) && JsTruthy(currency) && JsTruthy(integrationId)) ==>
        && r == PaymentApi.CreateFailed(MissingFields, None) && requests == 0
        && loading == old(loading) && payment == old(payment) && error == old(error)
        && paymentAmount == old(paymentAmount)
      ensures JsTruthy(amount) && JsTruthy(currency) && JsTruthy(integrationId) ==>
        && requests == PaymentApi.CreatePayment(replies).requests
        && !loading
        && match PaymentApi.CreatePayment(replies).result
           case Created(_, p) =>
             r == PaymentApi.CreatePayment(replies).result &&
             payment == Some(p) && paymentAmount == p.amount && error == old(error)
           case CreateFailed(message, _) =>
             r == PaymentApi.CreateFailed(message, None) &&
             payment == old(payment) && paymentAmount == old(paymentAmount) && error == Some(message)
      ensures integrations == old(integrations) && retryCount == old(retryCount)
    {
      if !JsTruthy(amount) || !JsTruthy(currency) || !JsTruthy(integrationId) {
        return PaymentApi.CreateFailed(MissingFields, None), 0;
      }
      loading := true;
      var run := PaymentApi.CreatePayment(replies);
      requests := run.requests;
      match run.result {
        case Created(_, p) =>
          payment := Some(p);
          paymentAmount := p.amount;
          r := run.result;
        case CreateFailed(message, _) =>
          error := Some(message);
          r := PaymentApi.CreateFailed(message, None);
      }
      loading := false;
    }

    /** `fetchPaymentDetails`: the payment is shown on success, the error
        otherwise. */
    method FetchPaymentDetails(replies: nat -> PaymentApi.DetailsReply) returns (r: PaymentApi.DetailsResult)
      modifies this
      ensures var result := PaymentApi.GetPaymentDetails(replies).result;
        match result
        case DetailsOk(p) => r == result && payment == Some(p) && error == old(error)
        case DetailsFailure(message, _) =>
          r == PaymentApi.DetailsFailure(message, None) && payment == old(payment) && error == Some(message)
      ensures !loading
      ensures integrations == old(integrations) && paymentAmount == old(paymentAmount) && retryCount == old(retryCount)
    {
      loading := true;
      var run := PaymentApi.GetPaymentDetails(replies);
      match run.result {
        case DetailsOk(p) =>
          payment := Some(p);
          r := run.result;
        case DetailsFailure(message, _) =>
          error := Some(message);
          r := PaymentApi.DetailsFailure(message, None);
      }
      loading := false;
    }
  }

  /** `pollPaymentStatus(reference, interval, maxAttempts)`: one
      `getPaymentDetails` call per tick until a final status or the last
      attempt. It leaves the context's state alone. */
  method PollPaymentStatus(results: nat -> PaymentApi.DetailsResult, maxAttempts: int)
    returns (outcome: PollOutcome, polls: nat)
    ensures (outcome, polls) == PollFrom(results, maxAttempts, 0)
  {
    var attempts: nat := 0;
    while true
      invariant PollFrom(results, maxAttempts, attempts) == PollFrom(results, maxAttempts, 0)
      invariant attempts == 0 || attempts < maxAttempts
      decreases maxAttempts - attempts
    {
      var res := results(attempts);
      if IsTerminal(res) {
        return Resolved(res.payment), attempts + 1;
      }
      attempts := attempts + 1;
      if attempts >= maxAttempts {
        return Rejected(PollingTimeout), attempts;
      }
    }
  }
}
