/** The payment serializers (backend/payments/serializers.py): the fields
    an integration is rendered with, which fields of a payment a client may
    write, the currency check on input and the two flags added on
    output. */
module PaymentSerializers {
  import opened Text
  import opened PaymentModels

  /** A stored `PaynowIntegration` row, without its encrypted credentials. */
  datatype IntegrationRow = IntegrationRow(id: nat, integration: Integration, returnUrl: string, resultUrl: string)

  /** `PaynowIntegrationSerializer.Meta.fields` as written: no `is_active`. */
  const IntegrationFieldsAsWritten: set<string> := {"id", "name", "currency", "return_url", "result_url"}

  /** The JSON object `PaynowIntegrationSerializer` renders, as written. */
  function SerializeIntegrationAsWritten(row: IntegrationRow): (r: map<string, JsValue>)
    ensures r.Keys == IntegrationFieldsAsWritten
    ensures "is_active" !in r
    ensures r["id"] == JsNumber(row.id)
    ensures r["name"] == JsString(row.integration.name) && r["currency"] == JsString(row.integration.currency)
    ensures r["return_url"] == JsString(row.returnUrl) && r["result_url"] == JsString(row.resultUrl)
  {
    map["id" := JsNumber(row.id), "name" := JsString(row.integration.name),
        "currency" := JsString(row.integration.currency),
        "return_url" := JsString(row.returnUrl), "result_url" := JsString(row.resultUrl)]
  }

  /** The same object with the `is_active` flag the client reads. */
  function SerializeIntegration(row: IntegrationRow): (r: map<string, JsValue>)
    ensures r.Keys == IntegrationFieldsAsWritten + {"is_active"}
    ensures r["is_active"] == JsBool(row.integration.isActive)
    ensures forall k :: k in IntegrationFieldsAsWritten ==> r[k] == SerializeIntegrationAsWritten(row)[k]
  {
    SerializeIntegrationAsWritten(row)["is_active" := JsBool(row.integration.isActive)]
  }

  /** `PaymentSerializer.Meta.fields`. */
  const DeclaredFields: set<string> := {
    "id", "reference", "amount", "currency", "status", "integration", "integration_id",
    "paynow_payment_id", "poll_url", "payment_url", "created_at", "buyer_phone"}

  /** `read_only_fields`, together with the nested `integration` that is
      declared read-only on its own. */
  const ReadOnlyFields: set<string> := {
    "id", "reference", "status", "integration",
    "paynow_payment_id", "poll_url", "payment_url", "created_at"}

  /** The fields a client may write: the declared ones that are not
      read-only (`amount`, `currency`, `integration_id`, `buyer_phone`). */
  const WritableFields: set<string> := DeclaredFields - ReadOnlyFields

  /** The part of a request body the serializer reads: read-only and
      undeclared keys are dropped, the others kept as sent. */
  function AcceptedInput(body: map<string, string>): (r: map<string, string>)
    ensures forall k :: k in r <==> k in body && k in WritableFields
    ensures forall k :: k in r ==> r[k] == body[k]
  {
    map k | k in body.Keys && k in WritableFields :: body[k]
  }

  /** Whatever a client sends, it cannot set the status, the reference or the
      gateway fields of a payment. */
  lemma ClientCannotSetServerFields(body: map<string, string>)
    ensures var accepted := AcceptedInput(body);
      && "status" !in accepted && "reference" !in accepted
      && "paynow_payment_id" !in accepted && "poll_url" !in accepted && "payment_url" !in accepted
  {
  }

  /** The validated input the serializer's `validate` sees: `integration` is
      the integration `integration_id` resolved to, absent on a partial
      update that does not send it. Amounts are in integer cents
      throughout; the `DecimalField` is rendered as a string with two
      places, which the model does not spell out. */
  datatype PaymentInput = PaymentInput(
    amount: int,
    currency: Option<string>,
    integration: Option<Integration>,
    buyerPhone: Option<string>)

  /** `data.get('currency', 'USD')`. */
  function EffectiveCurrency(data: PaymentInput): (c: string)
    ensures data.currency.None? ==> c == "USD"
    ensures data.currency.Some? ==> c == data.currency.value
  {
    if data.currency.Some? then data.currency.value else "USD"
  }

  function UnsupportedCurrencyMessage(integration: Integration): string
  {
    "Integration " + integration.name + " only supports " + integration.currency + " payments"
  }

  /** `PaymentSerializer.validate`. */
  function Validate(data: PaymentInput): (r: Result<PaymentInput, string>)
    ensures r.Err? <==> data.integration.Some? && EffectiveCurrency(data) != data.integration.value.currency
    ensures r.Err? ==> r.error == UnsupportedCurrencyMessage(data.integration.value)
    ensures r.Ok? ==> r.value == data
  {
    var currency := EffectiveCurrency(data);
    if data.integration.Some? && currency != data.integration.value.currency then
      Err(UnsupportedCurrencyMessage(data.integration.value))
    else Ok(data)
  }

  /** The serializer and the model agree: input with an integration that
      the serializer accepts makes a payment (whose currency defaults to
      "USD" too) that `Payment.clean` accepts, and input it refuses would
      fail `Payment.clean`; input without one passes this check. */
  lemma ValidateAgreesWithClean(data: PaymentInput)
    ensures data.integration.Some? ==>
      (Validate(data).Ok? <==> PaymentClean(EffectiveCurrency(data), data.integration.value).None?)
    ensures data.integration.None? ==> Validate(data) == Ok(data)
  {
  }

  /** A payment as `ModelSerializer.to_representation` renders it. */
  datatype PaymentData = PaymentData(
    id: nat,
    reference: string,
    amount: int,
    currency: string,
    status: string,
    integration: Integration,
    paynowPaymentId: string,
    pollUrl: string,
    paymentUrl: string,
    createdAt: int,
    buyerPhone: Option<string>)

  datatype PaymentRepresentation = PaymentRepresentation(
    data: PaymentData,
    isRedirectable: bool,
    isPollable: bool)

  /** `PaymentSerializer.to_representation`: two flags added, every other
      field as rendered. */
  function ToRepresentation(data: PaymentData): (r: PaymentRepresentation)
    ensures r.data == data
    ensures r.isRedirectable <==> Truthy(data.paymentUrl)
    ensures r.isPollable <==> Truthy(data.pollUrl)
  {
    PaymentRepresentation(data, Truthy(data.paymentUrl), Truthy(data.pollUrl))
  }

  /** The rendering of a payment record. */
  function Render(id: nat, reference: string, amount: int, currency: string, fields: PaymentFields,
                  integration: Integration, createdAt: int, buyerPhone: Option<string>): PaymentData
  {
    PaymentData(id, reference, amount, currency, StatusName(fields.status), integration,
                fields.paynowPaymentId, fields.pollUrl, fields.paymentUrl, createdAt, buyerPhone)
  }

  /** A new payment whose initiation failed is offered to the client neither
      for redirection nor for polling, and its status reads "Failed", as
      long as no accepted response's save raised. */
  lemma FailedPaymentIsNotOffered(id: nat, reference: string, amount: int, currency: string,
                                  integration: Integration, gateway: nat -> GatewayOutcome,
                                  saveFails: nat -> Option<string>, createdAt: int, buyerPhone: Option<string>)
    requires Initiated(PaymentFields(Created, "", "", "", ""), integration, currency, gateway, saveFails).status == Failed
    requires forall j :: 0 <= j < Retries ==> !(gateway(j).Accepted? && saveFails(j).Some?)
    ensures var fields := Initiated(PaymentFields(Created, "", "", "", ""), integration, currency, gateway, saveFails);
      var r := ToRepresentation(Render(id, reference, amount, currency, fields, integration, createdAt, buyerPhone));
      !r.isRedirectable && !r.isPollable && r.data.status == "Failed"
  {
    FailedKeepsReferences(PaymentFields(Created, "", "", "", ""), integration, currency, gateway, saveFails, 0);
  }

  /** The other case: when an accepted response's save raises and both
      retries raise in `send()`, the payment reads "Failed" but is still
      offered for redirection and polling with the first response's URLs. */
  lemma FailedPaymentOfferedAfterSaveError(id: nat, reference: string, amount: int, currency: string,
                                           integration: Integration, gateway: nat -> GatewayOutcome,
                                           saveFails: nat -> Option<string>, createdAt: int, buyerPhone: Option<string>)
    requires Precheck(integration, currency).None?
    requires gateway(0).Accepted? && Truthy(gateway(0).paymentUrl) && Truthy(gateway(0).pollUrl)
    requires saveFails(0).Some? && gateway(1).Raised? && gateway(2).Raised?
    ensures var fields := Initiated(PaymentFields(Created, "", "", "", ""), integration, currency, gateway, saveFails);
      var r := ToRepresentation(Render(id, reference, amount, currency, fields, integration, createdAt, buyerPhone));
      r.isRedirectable && r.isPollable && r.data.status == "Failed" &&
      r.data.paymentUrl == gateway(0).paymentUrl && r.data.pollUrl == gateway(0).pollUrl
  {
    SaveErrorKeepsAcceptedReferences(PaymentFields(Created, "", "", "", ""), integration, currency, gateway, saveFails);
  }
}
