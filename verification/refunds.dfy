/** Refunds (`processRefund`) and the receipt link shown for a CHIP
    transaction (`getTransactionReceiptUrl`). */
module Refunds {
  import opened PhpValues
  import opened Platform
  import opened Config
  import ChipApi

  const AmountRequired := "Refund amount is required."
  const InvalidTransaction := "Invalid transaction ID for refund."
  const CredentialsMissing := "CHIP API credentials are not configured."
  const NoResponse := "Refund could not be processed. Please check your CHIP account."
  const NotAccepted := "Refund could not be processed in CHIP. Please check your CHIP account."

  /** A `WP_Error` (all with code `fluent_cart_chip_refund_error`) or the refund id. */
  datatype RefundResult = RefundError(message: string) | RefundId(id: Value)

  /** The result and the refund request sent to the API, if one was. */
  datatype RefundRun = RefundRun(result: RefundResult, sent: Option<HttpRequest>)

  /** The refund body: the amount in cents. */
  function RefundParams(amount: int): Value {
    Assoc([("amount", Int(amount))])
  }

  /** The API's answer to the refund request. */
  function RefundReply(settings: Settings, env: Env, purchaseId: Value, amount: int): ChipApi.Reply {
    ChipApi.RefundPayment(ApiClient(settings, settings.brandId), env, purchaseId, RefundParams(amount))
  }

  /** A refund status CHIP reports as done (compared strictly). */
  predicate AcceptedStatus(reply: Value) {
    var status := Field(reply, "status", Str(""));
    status == Str("success") || status == Str("refunded")
  }

  /** `processRefund($transaction, $amount, $args)`, with the transaction's
      `vendor_charge_id` as the purchase to refund. */
  function ProcessRefund(settings: Settings, env: Env, vendorChargeId: Value, amount: int): (r: RefundRun)
    // The input checks, in order, each with its own message and no request.
    ensures r.result == RefundError(AmountRequired) <==> amount == 0
    ensures r.result == RefundError(InvalidTransaction) <==> amount != 0 && Empty(vendorChargeId)
    ensures r.result == RefundError(CredentialsMissing) <==>
              amount != 0 && !Empty(vendorChargeId) && !HasCredentials(settings)
    // A request is sent exactly when they all pass: the amount, to the charge's refund route.
    ensures r.sent.Some? <==> amount != 0 && !Empty(vendorChargeId) && HasCredentials(settings)
    ensures r.sent.Some? ==>
              r.sent.value == ChipApi.BuildRequest(ApiClient(settings, settings.brandId), env, "POST",
                                                   ChipApi.RefundRoute(vendorChargeId), RefundParams(amount))
    // Success exactly when the API answered with an accepted status; the id
    // is the answer's `id`, or the charge id when it has none.
    ensures r.result.RefundId? <==>
              && r.sent.Some?
              && RefundReply(settings, env, vendorChargeId, amount).result.Some?
              && AcceptedStatus(RefundReply(settings, env, vendorChargeId, amount).result.value)
    ensures r.result.RefundId? ==>
              r.result.id == Field(RefundReply(settings, env, vendorChargeId, amount).result.value, "id", vendorChargeId)
    ensures r.sent.Some? && r.result.RefundError? ==>
              r.result.message == (if RefundReply(settings, env, vendorChargeId, amount).result.None? then NoResponse else NotAccepted)
  {
    if amount == 0 then RefundRun(RefundError(AmountRequired), None)
    else if Empty(vendorChargeId) then RefundRun(RefundError(InvalidTransaction), None)
    else if !HasCredentials(settings) then RefundRun(RefundError(CredentialsMissing), None)
    else
      var reply := RefundReply(settings, env, vendorChargeId, amount);
      var sent := Some(reply.request);
      if reply.result.None? || Empty(reply.result.value) then RefundRun(RefundError(NoResponse), sent)
      else if !AcceptedStatus(reply.result.value) then RefundRun(RefundError(NotAccepted), sent)
      else RefundRun(RefundId(Field(reply.result.value, "id", vendorChargeId)), sent)
  }

  /** An accepted refund answer that carries no `id` reports the charge
      itself as the refund id. */
  lemma RefundIdFallsBackToCharge(settings: Settings, env: Env, vendorChargeId: Value, amount: int)
    requires ProcessRefund(settings, env, vendorChargeId, amount).result.RefundId?
    requires !Isset(RefundReply(settings, env, vendorChargeId, amount).result.value, StrKey("id"))
    ensures ProcessRefund(settings, env, vendorChargeId, amount).result == RefundId(vendorChargeId)
  {
  }

  /** Two refund requests for different charges go to different URLs, so a
      refund never reaches another purchase. */
  lemma RefundsReachTheirOwnCharge(settings: Settings, env: Env, a: Value, b: Value, amountA: int, amountB: int)
    requires HasCredentials(settings)
    requires amountA != 0 && !Empty(a)
    requires amountB != 0 && !Empty(b)
    ensures ProcessRefund(settings, env, a, amountA).sent.Some? && ProcessRefund(settings, env, b, amountB).sent.Some?
    ensures ProcessRefund(settings, env, a, amountA).sent.value.url == ProcessRefund(settings, env, b, amountB).sent.value.url
            ==> Interpolate(a) == Interpolate(b)
  {
    var ra := RefundReply(settings, env, a, amountA);
    var rb := RefundReply(settings, env, b, amountB);
    assert ProcessRefund(settings, env, a, amountA).sent == Some(ra.request);
    assert ProcessRefund(settings, env, b, amountB).sent == Some(rb.request);
    if ra.request.url == rb.request.url {
      ChipApi.RefundUrlIdentifiesPurchase(ApiClient(settings, settings.brandId), env, a, b, RefundParams(amountA), RefundParams(amountB));
    }
  }

  const ReceiptPrefix := "https://gate.chip-in.asia/p/"
  const ReceiptSuffix := "/receipt/"

  /** `getTransactionReceiptUrl($url, $data)`: refunds and transactions
      without a charge id keep the given URL; others link to CHIP's receipt
      page for the (sanitised) charge id. */
  function TransactionReceiptUrl(env: Env, url: string, data: Value): (r: string)
    ensures Field(data, "transaction_type", Str("")) == Str("refund") ==> r == url
    ensures Empty(Field(data, "vendor_charge_id", Str(""))) ==> r == url
    ensures Field(data, "transaction_type", Str("")) != Str("refund") && !Empty(Field(data, "vendor_charge_id", Str(""))) ==>
              && |r| == |ReceiptPrefix| + |env.sanitizeText(Interpolate(Field(data, "vendor_charge_id", Str(""))))| + |ReceiptSuffix|
              && r[..|ReceiptPrefix|] == ReceiptPrefix
              && r[|ReceiptPrefix|..|r| - |ReceiptSuffix|] == env.sanitizeText(Interpolate(Field(data, "vendor_charge_id", Str(""))))
              && r[|r| - |ReceiptSuffix|..] == ReceiptSuffix
  {
    if Field(data, "transaction_type", Str("")) == Str("refund") then url
    else
      var purchaseId := Field(data, "vendor_charge_id", Str(""));
      if Empty(purchaseId) then url
      else ReceiptPrefix + env.sanitizeText(Interpolate(purchaseId)) + ReceiptSuffix
  }

  /** Two receipt links to CHIP are equal only for the same sanitised charge id. */
  lemma ReceiptUrlIdentifiesCharge(env: Env, url: string, a: Value, b: Value)
    requires Field(a, "transaction_type", Str("")) != Str("refund") && !Empty(Field(a, "vendor_charge_id", Str("")))
    requires Field(b, "transaction_type", Str("")) != Str("refund") && !Empty(Field(b, "vendor_charge_id", Str("")))
    requires TransactionReceiptUrl(env, url, a) == TransactionReceiptUrl(env, url, b)
    ensures env.sanitizeText(Interpolate(Field(a, "vendor_charge_id", Str(""))))
         == env.sanitizeText(Interpolate(Field(b, "vendor_charge_id", Str(""))))
  {
    var r := TransactionReceiptUrl(env, url, a);
    assert r[|ReceiptPrefix|..|r| - |ReceiptSuffix|] == env.sanitizeText(Interpolate(Field(a, "vendor_charge_id", Str(""))));
  }
}
