/** Payments: the payment record, its currency rule and the initiation loop
    that talks to the Paynow gateway (backend/payments/models.py).

    The gateway SDK is replaced by a script: `gateway(k)` is what attempt
    `k` (0, 1 or 2) gets back from sending the payment: an accepted
    response carrying references, a rejected response carrying an error, or
    an exception. `save()` is counted, not performed. */
module PaymentModels {
  import opened Text

  /** `Payment.STATUS_CHOICES`. */
  datatype Status = Created | Sent | Paid | Failed | Cancelled

  function StatusName(s: Status): string
  {
    match s
    case Created => "Created"
    case Sent => "Sent"
    case Paid => "Paid"
    case Failed => "Failed"
    case Cancelled => "Cancelled"
  }

  /** The status a stored string denotes, if it is one of the choices. */
  function ParseStatus(name: string): (r: Option<Status>)
    ensures r.Some? ==> StatusName(r.value) == name
  {
    if name == "Created" then Some(Created)
    else if name == "Sent" then Some(Sent)
    else if name == "Paid" then Some(Paid)
    else if name == "Failed" then Some(Failed)
    else if name == "Cancelled" then Some(Cancelled)
    else None
  }

  /** Every status is stored under a name that reads back as itself, and
      the names are distinct. */
  lemma StatusNameRoundTrip(s: Status)
    ensures ParseStatus(StatusName(s)) == Some(s)
  {
  }

  /** The fields of `PaynowIntegration` the payment rules read. */
  datatype Integration = Integration(name: string, isActive: bool, currency: string)

  function CurrencyMismatchMessage(currency: string, integrationCurrency: string): string
  {
    "Payment currency " + currency + " does not match integration's currency " + integrationCurrency
  }

  /** `Payment.clean`: the payment's currency must be the integration's.
      The foreign key is not nullable, so a saved payment always has one. */
  function PaymentClean(currency: string, integration: Integration): (r: Option<string>)
    ensures r.Some? <==> currency != integration.currency
    ensures r.Some? ==> r.value == CurrencyMismatchMessage(currency, integration.currency)
  {
    if currency != integration.currency then
      Some(CurrencyMismatchMessage(currency, integration.currency))
    else None
  }

  /** What one `payment.send()` produces. */
  datatype GatewayOutcome =
    | Accepted(paynowReference: string, pollUrl: string, paymentUrl: string)
    | Rejected(error: string)
    | Raised(message: string)

  const Retries: nat := 3
  const NoActiveIntegration := "No active Paynow integration found."
  const CurrencyMismatch := "Currency mismatch with integration"

  function FailedAfter(message: string): string
  {
    "Failed after 3 attempts: " + message
  }

  /** The checks `initiate_paynow_payment` makes before building the SDK
      client; when one fails the attempt raises without contacting Paynow. */
  function Precheck(integration: Integration, currency: string): (r: Option<string>)
    ensures r == Some(NoActiveIntegration) <==> !integration.isActive
    ensures r == Some(CurrencyMismatch) <==> integration.isActive && currency != integration.currency
    ensures r.None? <==> integration.isActive && currency == integration.currency
  {
    if !integration.isActive then Some(NoActiveIntegration)
    else if currency != integration.currency then Some(CurrencyMismatch)
    else None
  }

  /** The outcome of attempt `k`'s checks and `send()`. */
  function AttemptOutcome(integration: Integration, currency: string,
                          gateway: nat -> GatewayOutcome, k: nat): GatewayOutcome
  {
    match Precheck(integration, currency)
    case Some(message) => Raised(message)
    case None => gateway(k)
  }

  /** The fields `initiate_paynow_payment` may write. */
  datatype PaymentFields = PaymentFields(
    status: Status,
    paynowPaymentId: string,
    pollUrl: string,
    paymentUrl: string,
    errorMessage: string)

  /** The fields an attempt has written when it reaches `self.save()`: an
      accepted response sets Sent and copies the Paynow reference and both
      URLs, a rejection sets Failed and the gateway's error, and an attempt
      that raised earlier writes nothing. */
  function Written(before: PaymentFields, outcome: GatewayOutcome): PaymentFields
  {
    match outcome
    case Accepted(reference, poll, url) =>
      before.(status := Sent, paynowPaymentId := reference, pollUrl := poll, paymentUrl := url)
    case Rejected(error) => before.(status := Failed, errorMessage := error)
    case Raised(_) => before
  }

  /** The exception attempt `k` raises, if any: a failed check or a raising
      `send()`, or else the `self.save()` inside the `try` (`saveFails(k)`,
      the database error, if that save fails). */
  function AttemptRaise(integration: Integration, currency: string, gateway: nat -> GatewayOutcome,
                        saveFails: nat -> Option<string>, k: nat): (r: Option<string>)
    ensures AttemptOutcome(integration, currency, gateway, k).Raised? ==>
      r == Some(AttemptOutcome(integration, currency, gateway, k).message)
    ensures !AttemptOutcome(integration, currency, gateway, k).Raised? ==> r == saveFails(k)
  {
    match AttemptOutcome(integration, currency, gateway, k)
    case Raised(message) => Some(message)
    case _ => saveFails(k)
  }

  /** The fields after the attempts from `k` on: the first attempt that does
      not raise decides. A raising attempt keeps what it wrote before its
      `save()` failed, and the last one stores "Failed after 3 attempts". */
  function InitiateFrom(before: PaymentFields, integration: Integration, currency: string,
                        gateway: nat -> GatewayOutcome, saveFails: nat -> Option<string>, k: nat): (r: PaymentFields)
    requires k < Retries
    ensures r.status == Sent || r.status == Failed
    decreases Retries - k
  {
    var written := Written(before, AttemptOutcome(integration, currency, gateway, k));
    match AttemptRaise(integration, currency, gateway, saveFails, k)
    case None => written
    case Some(message) =>
      if k == Retries - 1 then written.(status := Failed, errorMessage := FailedAfter(message))
      else InitiateFrom(written, integration, currency, gateway, saveFails, k + 1)
  }

  /** How many attempts are made from attempt `k` on. */
  function AttemptsFrom(integration: Integration, currency: string, gateway: nat -> GatewayOutcome,
                        saveFails: nat -> Option<string>, k: nat): (n: nat)
    requires k < Retries
    ensures 1 <= n <= Retries - k
    decreases Retries - k
  {
    if AttemptRaise(integration, currency, gateway, saveFails, k).Some? && k < Retries - 1 then
      1 + AttemptsFrom(integration, currency, gateway, saveFails, k + 1)
    else 1
  }

  /** The fields after `initiate_paynow_payment`: initiation ends in Sent or
      Failed, never Paid. */
  function Initiated(before: PaymentFields, integration: Integration, currency: string,
                     gateway: nat -> GatewayOutcome, saveFails: nat -> Option<string>): (r: PaymentFields)
    ensures r.status in {Sent, Failed}
    ensures r.status != Paid
  {
    InitiateFrom(before, integration, currency, gateway, saveFails, 0)
  }

  /** How many attempts `initiate_paynow_payment` makes: one to three. */
  function Attempts(integration: Integration, currency: string, gateway: nat -> GatewayOutcome,
                    saveFails: nat -> Option<string>): (n: nat)
    ensures 1 <= n <= Retries
  {
    AttemptsFrom(integration, currency, gateway, saveFails, 0)
  }

  /** One attempt of the loop: what it writes, then whether it ends the
      loop, stores the final failure, or hands over to the next attempt. */
  lemma InitiateStep(before: PaymentFields, integration: Integration, currency: string,
                     gateway: nat -> GatewayOutcome, saveFails: nat -> Option<string>, k: nat)
    requires k < Retries
    ensures var written := Written(before, AttemptOutcome(integration, currency, gateway, k));
      var raised := AttemptRaise(integration, currency, gateway, saveFails, k);
      && (raised.None? ==>
            InitiateFrom(before, integration, currency, gateway, saveFails, k) == written &&
            AttemptsFrom(integration, currency, gateway, saveFails, k) == 1)
      && (raised.Some? && k == Retries - 1 ==>
            InitiateFrom(before, integration, currency, gateway, saveFails, k) ==
              written.(status := Failed, errorMessage := FailedAfter(raised.value)) &&
            AttemptsFrom(integration, currency, gateway, saveFails, k) == 1)
      && (raised.Some? && k < Retries - 1 ==>
            InitiateFrom(before, integration, currency, gateway, saveFails, k) ==
              InitiateFrom(written, integration, currency, gateway, saveFails, k + 1) &&
            AttemptsFrom(integration, currency, gateway, saveFails, k) ==
              1 + AttemptsFrom(integration, currency, gateway, saveFails, k + 1))
  {
  }

  /** Between one and three attempts, and the loop stops at the first attempt
      that does not raise: every earlier attempt raised. */
  lemma {:induction false} AttemptsFromBounds(integration: Integration, currency: string,
                                              gateway: nat -> GatewayOutcome, saveFails: nat -> Option<string>, k: nat)
    requires k < Retries
    ensures var n := AttemptsFrom(integration, currency, gateway, saveFails, k);
      && 1 <= n <= Retries - k
      && (forall j :: k <= j < k + n - 1 ==> AttemptRaise(integration, currency, gateway, saveFails, j).Some?)
      && (k + n < Retries ==> AttemptRaise(integration, currency, gateway, saveFails, k + n - 1).None?)
    decreases Retries - k
  {
    if AttemptRaise(integration, currency, gateway, saveFails, k).Some? && k < Retries - 1 {
      AttemptsFromBounds(integration, currency, gateway, saveFails, k + 1);
    }
  }

  /** A payment ends Sent only through an accepted response whose save
      succeeded, and it carries exactly that response's reference and URLs.
      Its error message is the earlier one, or the error of a rejection whose
      save raised on an earlier attempt. */
  lemma {:induction false} SentCopiesReferences(before: PaymentFields, integration: Integration, currency: string,
                                                gateway: nat -> GatewayOutcome, saveFails: nat -> Option<string>, k: nat)
    requires k < Retries
    ensures var after := InitiateFrom(before, integration, currency, gateway, saveFails, k);
      after.status == Sent ==>
        && (exists j :: k <= j < Retries && saveFails(j).None? &&
              gateway(j) == Accepted(after.paynowPaymentId, after.pollUrl, after.paymentUrl))
        && (after.errorMessage == before.errorMessage ||
              exists j :: k <= j < Retries && saveFails(j).Some? &&
                gateway(j).Rejected? && after.errorMessage == gateway(j).error)
    decreases Retries - k
  {
    var outcome := AttemptOutcome(integration, currency, gateway, k);
    var written := Written(before, outcome);
    var after := InitiateFrom(before, integration, currency, gateway, saveFails, k);
    if AttemptRaise(integration, currency, gateway, saveFails, k).None? {
      if outcome.Accepted? {
        assert gateway(k) == outcome;
      }
    } else if k < Retries - 1 {
      SentCopiesReferences(written, integration, currency, gateway, saveFails, k + 1);
      if after.status == Sent && after.errorMessage != before.errorMessage && after.errorMessage == written.errorMessage {
        assert outcome.Rejected? && gateway(k) == outcome;
      }
    }
  }

  /** A payment that ends Failed keeps the Paynow reference and URLs it had
      before, unless an accepted response's save raised: then it carries that
      response's reference and URLs. */
  lemma {:induction false} FailedKeepsReferences(before: PaymentFields, integration: Integration, currency: string,
                                                 gateway: nat -> GatewayOutcome, saveFails: nat -> Option<string>, k: nat)
    requires k < Retries
    ensures var after := InitiateFrom(before, integration, currency, gateway, saveFails, k);
      after.status == Failed ==>
        || (&& after.paynowPaymentId == before.paynowPaymentId
            && after.pollUrl == before.pollUrl
            && after.paymentUrl == before.paymentUrl)
        || (exists j :: k <= j < Retries && saveFails(j).Some? &&
              gateway(j) == Accepted(after.paynowPaymentId, after.pollUrl, after.paymentUrl))
    decreases Retries - k
  {
    var outcome := AttemptOutcome(integration, currency, gateway, k);
    var written := Written(before, outcome);
    var raised := AttemptRaise(integration, currency, gateway, saveFails, k);
    InitiateStep(before, integration, currency, gateway, saveFails, k);
    if raised.Some? && k < Retries - 1 {
      FailedKeepsReferences(written, integration, currency, gateway, saveFails, k + 1);
    }
    if outcome.Accepted? && raised.Some? {
      // The accepted response's writes survive its failed save.
      assert gateway(k) == outcome && saveFails(k) == raised;
    }
  }

  /** A rejected response on the first attempt is final when its save
      succeeds: one attempt, Failed, the gateway's error. When that save
      raises, the loop tries again from the fields the rejection wrote. */
  lemma RejectionIsNotRetried(before: PaymentFields, integration: Integration, currency: string,
                              gateway: nat -> GatewayOutcome, saveFails: nat -> Option<string>)
    requires Precheck(integration, currency).None? && gateway(0).Rejected?
    ensures saveFails(0).None? ==>
      && Attempts(integration, currency, gateway, saveFails) == 1
      && Initiated(before, integration, currency, gateway, saveFails) ==
           before.(status := Failed, errorMessage := gateway(0).error)
    ensures saveFails(0).Some? ==>
      && Attempts(integration, currency, gateway, saveFails) >= 2
      && Initiated(before, integration, currency, gateway, saveFails) ==
           InitiateFrom(before.(status := Failed, errorMessage := gateway(0).error),
                        integration, currency, gateway, saveFails, 1)
  {
  }

  /** With an inactive integration, or a currency the integration does not
      take, all three attempts raise before Paynow is contacted: the payment
      ends Failed with the "Failed after 3 attempts" message, whatever the
      gateway and the database would have done. */
  lemma PrecheckFailureFailsAfterThree(before: PaymentFields, integration: Integration, currency: string,
                                       gateway: nat -> GatewayOutcome, saveFails: nat -> Option<string>,
                                       other: nat -> GatewayOutcome, otherSaves: nat -> Option<string>)
    requires Precheck(integration, currency).Some?
    ensures Attempts(integration, currency, gateway, saveFails) == 3
    ensures Initiated(before, integration, currency, gateway, saveFails) ==
      before.(status := Failed, errorMessage := FailedAfter(Precheck(integration, currency).value))
    ensures Initiated(before, integration, currency, gateway, saveFails) ==
      Initiated(before, integration, currency, other, otherSaves)
  {
    var m := Precheck(integration, currency).value;
    assert AttemptOutcome(integration, currency, gateway, 2) == Raised(m);
    assert AttemptOutcome(integration, currency, gateway, 1) == Raised(m);
    assert AttemptOutcome(integration, currency, other, 2) == Raised(m);
    assert AttemptOutcome(integration, currency, other, 1) == Raised(m);
  }

  /** When `send()` raises on all three attempts, no attempt reaches its
      writes: everything but status and error message is untouched, and the
      message names the third exception only. */
  lemma ThreeExceptions(before: PaymentFields, integration: Integration, currency: string,
                        gateway: nat -> GatewayOutcome, saveFails: nat -> Option<string>)
    requires Precheck(integration, currency).None?
    requires gateway(0).Raised? && gateway(1).Raised? && gateway(2).Raised?
    ensures Attempts(integration, currency, gateway, saveFails) == 3
    ensures Initiated(before, integration, currency, gateway, saveFails) ==
      before.(status := Failed, errorMessage := FailedAfter(gateway(2).message))
  {
    assert AttemptOutcome(integration, currency, gateway, 2) == gateway(2);
    assert AttemptOutcome(integration, currency, gateway, 1) == gateway(1);
  }

  /** An accepted response whose save raises is not undone: when the two
      retries then raise in `send()`, the payment ends Failed but keeps the
      first response's Paynow reference and URLs. */
  lemma SaveErrorKeepsAcceptedReferences(before: PaymentFields, integration: Integration, currency: string,
                                         gateway: nat -> GatewayOutcome, saveFails: nat -> Option<string>)
    requires Precheck(integration, currency).None?
    requires gateway(0).Accepted? && saveFails(0).Some?
    requires gateway(1).Raised? && gateway(2).Raised?
    ensures Attempts(integration, currency, gateway, saveFails) == 3
    ensures Initiated(before, integration, currency, gateway, saveFails) ==
      before.(status := Failed, paynowPaymentId := gateway(0).paynowReference,
              pollUrl := gateway(0).pollUrl, paymentUrl := gateway(0).paymentUrl,
              errorMessage := FailedAfter(gateway(2).message))
  {
    assert AttemptOutcome(integration, currency, gateway, 2) == gateway(2);
    assert AttemptOutcome(integration, currency, gateway, 1) == gateway(1);
    assert AttemptOutcome(integration, currency, gateway, 0) == gateway(0);
  }

  class Payment {
    var amount: int
    var currency: string
    var status: Status
    var buyerPhone: Option<string>
    var integration: Integration
    var paynowPaymentId: string
    var pollUrl: string
    var paymentUrl: string
    var errorMessage: string
    /** How many times `save()` has written the row. */
    var saveCount: nat

    /** A new payment with the model's defaults: status Created and empty
        gateway fields. */
    constructor (amount: int, currency: string, buyerPhone: Option<string>, integration: Integration)
      ensures this.amount == amount && this.currency == currency
      ensures this.buyerPhone == buyerPhone && this.integration == integration
      ensures Fields() == PaymentFields(Created, "", "", "", "")
      ensures saveCount == 0
    {
      this.amount := amount;
      this.currency := currency;
      this.buyerPhone := buyerPhone;
      this.integration := integration;
      status := Created;
      paynowPaymentId, pollUrl, paymentUrl, errorMessage := "", "", "", "";
      saveCount := 0;
    }

    function Fields(): PaymentFields
      reads this
    {
      PaymentFields(status, paynowPaymentId, pollUrl, paymentUrl, errorMessage)
    }

    /** `Payment.clean`. */
    function Clean(): (r: Option<string>)
      reads this
      ensures r.Some? <==> currency != integration.currency
    {
      PaymentClean(currency, integration)
    }

    /** The writes of one attempt before its `self.save()`. */
    method WriteOutcome(outcome: GatewayOutcome)
      modifies this`status, this`errorMessage, this`paynowPaymentId, this`pollUrl, this`paymentUrl
      ensures Fields() == Written(old(Fields()), outcome)
    {
      match outcome {
        case Accepted(reference, poll, url) =>
          paynowPaymentId := reference;
          pollUrl := poll;
          paymentUrl := url;
          status := Sent;
        case Rejected(error) =>
          status := Failed;
          errorMessage := error;
        case Raised(_) =>
      }
    }

    /** `initiate_paynow_payment`: up to three attempts, stopping at the
        first that does not raise. `saveFails(k)` is the error the `save()`
        of attempt `k` raises, if any; `saveCount` counts the saves that
        succeed, and exactly one does. */
    method InitiatePaynowPayment(gateway: nat -> GatewayOutcome, saveFails: nat -> Option<string>)
      returns (attempts: nat)
      modifies this`status, this`errorMessage, this`paynowPaymentId, this`pollUrl, this`paymentUrl, this`saveCount
      ensures Fields() == Initiated(old(Fields()), integration, currency, gateway, saveFails)
      ensures attempts == Attempts(integration, currency, gateway, saveFails)
      ensures saveCount == old(saveCount) + 1
    {
      ghost var before := Fields();
      attempts := 0;
      for attempt := 0 to Retries
        invariant attempts == attempt
        invariant attempt < Retries ==> saveCount == old(saveCount)
        invariant attempt == Retries ==>
          && Fields() == Initiated(before, integration, currency, gateway, saveFails)
          && saveCount == old(saveCount) + 1
          && Attempts(integration, currency, gateway, saveFails) == Retries
        invariant attempt < Retries ==>
          Initiated(before, integration, currency, gateway, saveFails) ==
            InitiateFrom(Fields(), integration, currency, gateway, saveFails, attempt)
        invariant attempt < Retries ==>
          Attempts(integration, currency, gateway, saveFails) ==
            attempt + AttemptsFrom(integration, currency, gateway, saveFails, attempt)
      {
        attempts := attempts + 1;
        InitiateStep(Fields(), integration, currency, gateway, saveFails, attempt);
        WriteOutcome(AttemptOutcome(integration, currency, gateway, attempt));
        var raised := AttemptRaise(integration, currency, gateway, saveFails, attempt);
        if raised.None? {
          saveCount := saveCount + 1;
          break;
        }
        if attempt == Retries - 1 {
          status := Failed;
          errorMessage := FailedAfter(raised.value);
          saveCount := saveCount + 1;
        }
      }
    }
  }
}
