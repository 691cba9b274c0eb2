/** The two paths that reconcile a CHIP payment with its order: the webhook
    (`processWebhook`) and the browser redirect back from the payment page
    (`handleInitRedirect`). Both take the order's lock, skip the write when the
    order is already processing or completed, and otherwise save the `chip`
    transaction as succeeded and hand the order to the status-sync collaborator. */
module Reconciliation {
  import opened PhpValues
  import opened Platform
  import opened Config
  import opened Store
  import opened PaymentMethods
  import ChipApi

  /** A handler's effect: the state afterwards and whether the status sync
      threw (the exception then propagates to the caller). */
  datatype Run = Run(state: State, raised: bool)

  // ---------------------------------------------------------------- webhook

  function Reference(data: Value): Value {
    Field(data, "reference", Str(""))
  }

  function TransactionData(data: Value): Value {
    Field(data, "transaction_data", Arr([]))
  }

  /** A `purchase.paid` or `purchase.settled` event whose status is `paid`
      (both compared strictly, so only strings match). */
  predicate PaidEvent(data: Value) {
    var event := Field(data, "event_type", Str(""));
    && (event == Str("purchase.paid") || event == Str("purchase.settled"))
    && Field(data, "status", Str("")) == Str("paid")
  }

  /** The purchase id the webhook records: its `id`, or "". */
  function WebhookPurchaseId(data: Value): Value {
    Field(data, "id", Str(""))
  }

  /** The label the webhook records: the mapped `transaction_data.payment_method`. */
  function WebhookLabel(data: Value): Value {
    MapPaymentMethodType(Field(TransactionData(data), "payment_method", Str("")), TransactionData(data))
  }

  /** The guards before the lock: the order (by `reference` as uuid) and its
      `chip` transaction, as positions, when the event qualifies. */
  function WebhookTarget(s: State, data: Value): (r: Option<(nat, nat)>)
    ensures r.Some? ==>
              && !Empty(data) && PaidEvent(data) && !Empty(Reference(data))
              && r.value.0 < |s.orders| && r.value.1 < |s.transactions|
              && Reference(data) == Str(s.orders[r.value.0].uuid)
              && s.transactions[r.value.1].orderId == s.orders[r.value.0].id
              && s.transactions[r.value.1].paymentMethod == "chip"
    ensures r.None? ==>
              || Empty(data) || !PaidEvent(data) || Empty(Reference(data))
              || (forall i :: 0 <= i < |s.orders| ==> Reference(data) != Str(s.orders[i].uuid))
              || (exists i :: 0 <= i < |s.orders| && Reference(data) == Str(s.orders[i].uuid)
                    && forall j :: 0 <= j < |s.transactions| ==>
                         !(s.transactions[j].orderId == s.orders[i].id && s.transactions[j].paymentMethod == "chip"))
  {
    if Empty(data) || !PaidEvent(data) || Empty(Reference(data)) then None
    else match OrderByUuid(s, Reference(data))
      case None => None
      case Some(oi) =>
        match ChipTransactionOf(s, s.orders[oi].id)
        case None => None
        case Some(ti) => Some((oi, ti))
  }

  /** `processWebhook`: everything after the guards happens under the order's
      lock, which is released on every exit. */
  function ProcessWebhook(s: State, data: Value, sync: Sync): (r: Run)
    // An event that does not qualify, or names no known order or chip
    // transaction, has no effect at all.
    ensures WebhookTarget(s, data).None? ==> r == Run(s, false)
    // The lock is released whatever happens, including a throwing sync.
    ensures WebhookTarget(s, data).Some? ==> s.orders[WebhookTarget(s, data).value.0].id !in r.state.locks
    // An order already processing or completed is left exactly as it was.
    ensures WebhookTarget(s, data).Some? && IsPaid(s.orders[WebhookTarget(s, data).value.0]) ==>
              !r.raised && r.state == s.(locks := r.state.locks)
  {
    match WebhookTarget(s, data)
    case None => Run(s, false)
    case Some((oi, ti)) =>
      var orderId := s.orders[oi].id;
      var locked := Acquire(s, orderId);
      // The re-fetch under the lock reads the same row of the locked state.
      if IsPaid(locked.orders[oi]) then Run(Release(locked, orderId), false)
      else
        var written := MarkSucceeded(locked, ti, WebhookPurchaseId(data), WebhookLabel(data));
        match sync(written, orderId, ti)
        case Synced(after) => Run(Release(after, orderId), false)
        // `finally` releases the lock after any throwable.
        case Threw(after, _) => Run(Release(after, orderId), true)
  }

  // --------------------------------------------------------------- redirect

  /** The query parameters the redirect reads: the passphrase under the
      redirect key and `transaction_uuid`, each absent or present. */
  datatype RedirectRequest = RedirectRequest(passphrase: Option<string>, transactionUuid: Option<string>)

  /** Where the redirect handler ends: not its request, an HTTP error page,
      the success or cancel redirect of a transaction, or a propagated
      exception. */
  datatype Outcome =
    | NotHandled
    | Halt(code: int, message: string)
    | ToSuccess(transactionUuid: string)
    | ToCancel(transactionUuid: string)
    | Raised

  /** The outcome, the state afterwards, and whether the payment API was polled. */
  datatype RedirectRun = RedirectRun(outcome: Outcome, state: State, polled: bool)

  function StoredPassphrase(s: State): Value {
    GetOption(s.options, RedirectPassphraseOption, Bool(false))
  }

  /** `sanitize_text_field(wp_unslash(...))` of a query parameter. */
  function QueryText(env: Env, raw: string): string {
    env.sanitizeText(StripSlashes(raw))
  }

  /** The transaction uuid parameter after sanitising; "" when absent. */
  function UuidParam(env: Env, req: RedirectRequest): string {
    match req.transactionUuid
    case None => ""
    case Some(u) => QueryText(env, u)
  }

  predicate PassphraseAccepted(s: State, env: Env, req: RedirectRequest) {
    && req.passphrase.Some?
    && !Empty(StoredPassphrase(s))
    && Str(QueryText(env, req.passphrase.value)) == StoredPassphrase(s)
  }

  /** The checks before the lock. */
  datatype Located = Skip | Reject(code: int, message: string) | Found(ti: nat, oi: nat)

  function Locate(s: State, env: Env, req: RedirectRequest): (r: Located)
    ensures r == Skip <==> req.passphrase.None? || Empty(StoredPassphrase(s))
    ensures r == Reject(403, "Invalid redirect passphrase") <==>
              req.passphrase.Some? && !Empty(StoredPassphrase(s)) && !PassphraseAccepted(s, env, req)
    ensures r == Reject(400, "Invalid transaction UUID") <==>
              PassphraseAccepted(s, env, req) && EmptyString(UuidParam(env, req))
    ensures r == Reject(404, "Transaction not found") <==>
              && PassphraseAccepted(s, env, req) && !EmptyString(UuidParam(env, req))
              && forall j :: 0 <= j < |s.transactions| ==> s.transactions[j].uuid != UuidParam(env, req)
    ensures r == Reject(404, "Order not found") <==>
              && PassphraseAccepted(s, env, req) && !EmptyString(UuidParam(env, req))
              && TransactionByUuid(s, UuidParam(env, req)).Some?
              && OrderById(s, s.transactions[TransactionByUuid(s, UuidParam(env, req)).value].orderId).None?
    ensures r.Reject? ==> r.code == 400 || r.code == 403 || r.code == 404
    // Found exactly when every check passes: the first transaction with the
    // uuid, and the first order with that transaction's order id.
    ensures r.Found? <==>
              && PassphraseAccepted(s, env, req) && !EmptyString(UuidParam(env, req))
              && TransactionByUuid(s, UuidParam(env, req)).Some?
              && OrderById(s, s.transactions[TransactionByUuid(s, UuidParam(env, req)).value].orderId).Some?
    ensures r.Found? ==>
              && r.ti < |s.transactions| && r.oi < |s.orders|
              && TransactionByUuid(s, UuidParam(env, req)) == Some(r.ti)
              && OrderById(s, s.transactions[r.ti].orderId) == Some(r.oi)
              && s.transactions[r.ti].uuid == UuidParam(env, req)
              && s.orders[r.oi].id == s.transactions[r.ti].orderId
  {
    if req.passphrase.None? || Empty(StoredPassphrase(s)) then Skip
    else if !PassphraseAccepted(s, env, req) then Reject(403, "Invalid redirect passphrase")
    else if EmptyString(UuidParam(env, req)) then Reject(400, "Invalid transaction UUID")
    else match TransactionByUuid(s, UuidParam(env, req))
      case None => Reject(404, "Transaction not found")
      case Some(ti) =>
        match OrderById(s, s.transactions[ti].orderId)
        case None => Reject(404, "Order not found")
        case Some(oi) => Found(ti, oi)
  }

  /** The slice of a purchase `checkPaymentStatus` returns. */
  datatype PaymentStatus = PaymentStatus(status: Value, methodType: Value, transactionData: Value)

  /** The status poll's answer (`None` for null) and whether the API was called. */
  datatype StatusCheck = StatusCheck(payment: Option<PaymentStatus>, called: bool)

  /** `checkPaymentStatus($purchase_id)`. */
  function CheckPaymentStatus(settings: Settings, env: Env, purchaseId: Value): (r: StatusCheck)
    // The API is called exactly when there is a purchase id and both credentials.
    ensures r.called <==> !Empty(purchaseId) && HasCredentials(settings)
    // An answer exists exactly when the purchase came back with a status.
    ensures var reply := ChipApi.GetPayment(ApiClient(settings, settings.brandId), env, purchaseId);
            r.payment.Some? <==> r.called && reply.result.Some? && Isset(reply.result.value, StrKey("status"))
    // The answer carries the purchase's own status and transaction data.
    ensures var reply := ChipApi.GetPayment(ApiClient(settings, settings.brandId), env, purchaseId);
            r.payment.Some? ==>
              && Get(reply.result.value, StrKey("status")) == Some(r.payment.value.status)
              && r.payment.value.transactionData == Field(reply.result.value, "transaction_data", Arr([]))
              && r.payment.value.methodType == Field(r.payment.value.transactionData, "payment_method", Str(""))
  {
    if Empty(purchaseId) || !HasCredentials(settings) then StatusCheck(None, false)
    else
      var reply := ChipApi.GetPayment(ApiClient(settings, settings.brandId), env, purchaseId);
      if reply.result.Some? && Isset(reply.result.value, StrKey("status")) then
        var payment := reply.result.value;
        var txData := Field(payment, "transaction_data", Arr([]));
        StatusCheck(Some(PaymentStatus(Get(payment, StrKey("status")).value,
                                       Field(txData, "payment_method", Str("")), txData)), true)
      else StatusCheck(None, true)
  }

  /** A poll that reports the purchase as paid. */
  predicate ReportsPaid(check: StatusCheck) {
    check.payment.Some? && check.payment.value.status == Str("paid")
  }

  /** The label the redirect records from a paid poll. */
  function PolledLabel(p: PaymentStatus): Value {
    MapPaymentMethodType(p.methodType, p.transactionData)
  }

  /** The one poll the redirect makes for an unpaid order reports it paid:
      the order has a stored purchase id and CHIP answers `paid` for it. */
  predicate PolledPaid(s: State, settings: Settings, env: Env, orderId: nat) {
    var purchaseId := PurchaseIdOf(s, orderId);
    !Empty(purchaseId) && ReportsPaid(CheckPaymentStatus(settings, env, purchaseId))
  }

  /** The state after the redirect's save under the lock, for a paid poll:
      the stored purchase id and the label mapped from the poll. */
  function RedirectWritten(s: State, settings: Settings, env: Env, ti: nat, oi: nat): State
    requires ti < |s.transactions| && oi < |s.orders|
    requires s.orders[oi].id == s.transactions[ti].orderId
    requires PolledPaid(s, settings, env, s.orders[oi].id)
  {
    var orderId := s.orders[oi].id;
    var purchaseId := PurchaseIdOf(s, orderId);
    MarkSucceeded(Acquire(s, orderId), ti, purchaseId, PolledLabel(CheckPaymentStatus(settings, env, purchaseId).payment.value))
  }

  /** What the sync reports after the redirect's save. */
  function RedirectSync(s: State, settings: Settings, env: Env, sync: Sync, ti: nat, oi: nat): SyncResult
    requires ti < |s.transactions| && oi < |s.orders|
    requires s.orders[oi].id == s.transactions[ti].orderId
    requires PolledPaid(s, settings, env, s.orders[oi].id)
  {
    sync(RedirectWritten(s, settings, env, ti, oi), s.orders[oi].id, ti)
  }

  /** `handleInitRedirect`, from the order's lock onwards: an order already
      paid goes to success without polling; otherwise a stored purchase id is
      polled once, a paid answer is written and synced, anything else goes to
      cancel. The lock is released before every exit and by the
      `catch (\Exception)` around them, which a PHP `\Error` passes through. */
  function LockedRedirect(s: State, settings: Settings, env: Env, sync: Sync, ti: nat, oi: nat): (r: RedirectRun)
    requires ti < |s.transactions| && oi < |s.orders|
    requires s.orders[oi].id == s.transactions[ti].orderId
    // An order already paid: success, no poll, no write.
    ensures IsPaid(s.orders[oi]) ==>
              r.outcome == ToSuccess(s.transactions[ti].uuid) && !r.polled && r.state == s.(locks := r.state.locks)
    ensures r.polled <==> !IsPaid(s.orders[oi]) && CheckPaymentStatus(settings, env, PurchaseIdOf(s, s.orders[oi].id)).called
    // Unpaid, and no purchase id or a poll that does not say paid: cancel, no write.
    ensures !IsPaid(s.orders[oi]) && !PolledPaid(s, settings, env, s.orders[oi].id) ==>
              r.outcome == ToCancel(s.transactions[ti].uuid) && r.state == s.(locks := r.state.locks)
    // Unpaid and polled paid: the save is synced, then success, or the sync's throwable propagates.
    ensures !IsPaid(s.orders[oi]) && PolledPaid(s, settings, env, s.orders[oi].id) ==>
              var synced := RedirectSync(s, settings, env, sync, ti, oi);
              && (synced.Synced? ==>
                    r.outcome == ToSuccess(s.transactions[ti].uuid) && r.state == Release(synced.state, s.orders[oi].id))
              && (synced.Threw? ==> r.outcome == Raised)
    ensures r.outcome == Raised ==>
              && !IsPaid(s.orders[oi]) && PolledPaid(s, settings, env, s.orders[oi].id)
              && var thrown := RedirectSync(s, settings, env, sync, ti, oi);
                 && thrown.Threw?
                 && r.state == (if thrown.isError then thrown.state else Release(thrown.state, s.orders[oi].id))
    // Every normal exit releases the lock.
    ensures r.outcome != Raised ==> s.orders[oi].id !in r.state.locks
    ensures r.outcome.ToSuccess? || r.outcome.ToCancel? || r.outcome.Raised?
  {
    var orderId := s.orders[oi].id;
    var txn := s.transactions[ti];
    var locked := Acquire(s, orderId);
    if IsPaid(locked.orders[oi]) then RedirectRun(ToSuccess(txn.uuid), Release(locked, orderId), false)
    else
      var check := CheckPaymentStatus(settings, env, PurchaseIdOf(locked, orderId));
      if PolledPaid(locked, settings, env, orderId) then
        match RedirectSync(s, settings, env, sync, ti, oi)
        case Synced(after) => RedirectRun(ToSuccess(txn.uuid), Release(after, orderId), check.called)
        case Threw(after, isError) =>
          RedirectRun(Raised, if isError then after else Release(after, orderId), check.called)
      else RedirectRun(ToCancel(txn.uuid), Release(locked, orderId), check.called)
  }

  /** `handleInitRedirect`. */
  function HandleInitRedirect(s: State, settings: Settings, env: Env, sync: Sync, req: RedirectRequest): (r: RedirectRun)
    // Without the redirect key or a stored passphrase the request is not this handler's.
    ensures req.passphrase.None? || Empty(StoredPassphrase(s)) ==> r == RedirectRun(NotHandled, s, false)
    // Every error page leaves the state alone and polls nothing.
    ensures r.outcome.Halt? ==> r.state == s && !r.polled && Locate(s, env, req) == Reject(r.outcome.code, r.outcome.message)
    // Past the checks, the order's lock is released on every normal exit.
    ensures Locate(s, env, req).Found? && r.outcome != Raised ==> s.orders[Locate(s, env, req).oi].id !in r.state.locks
    // An unpaid order whose poll does not report paid goes to cancel.
    ensures var loc := Locate(s, env, req);
            loc.Found? && !IsPaid(s.orders[loc.oi]) && !PolledPaid(s, settings, env, s.orders[loc.oi].id) ==>
              r.outcome == ToCancel(s.transactions[loc.ti].uuid)
    // An unpaid order polled paid goes to success exactly when the sync returns.
    ensures var loc := Locate(s, env, req);
            loc.Found? && !IsPaid(s.orders[loc.oi]) && PolledPaid(s, settings, env, s.orders[loc.oi].id) ==>
              (r.outcome == ToSuccess(s.transactions[loc.ti].uuid) <==> RedirectSync(s, settings, env, sync, loc.ti, loc.oi).Synced?)
    // Only a throwing sync after a paid poll propagates; after an `\Error` the lock stays as the sync left it.
    ensures var loc := Locate(s, env, req);
            r.outcome == Raised ==>
              && loc.Found? && !IsPaid(s.orders[loc.oi]) && PolledPaid(s, settings, env, s.orders[loc.oi].id)
              && var thrown := RedirectSync(s, settings, env, sync, loc.ti, loc.oi);
                 && thrown.Threw?
                 && r.state == (if thrown.isError then thrown.state else Release(thrown.state, s.orders[loc.oi].id))
    // A paid order goes straight to success, unpolled and unwritten.
    ensures Locate(s, env, req).Found? && IsPaid(s.orders[Locate(s, env, req).oi]) ==>
              && r.outcome == ToSuccess(s.transactions[Locate(s, env, req).ti].uuid)
              && !r.polled && r.state == s.(locks := r.state.locks)
    // Polling happens only for an order not yet paid.
    ensures r.polled ==> Locate(s, env, req).Found? && !IsPaid(s.orders[Locate(s, env, req).oi])
    // The cancel redirect never writes.
    ensures r.outcome.ToCancel? ==> r.state == s.(locks := r.state.locks)
  {
    match Locate(s, env, req)
    case Skip => RedirectRun(NotHandled, s, false)
    case Reject(code, message) => RedirectRun(Halt(code, message), s, false)
    case Found(ti, oi) => LockedRedirect(s, settings, env, sync, ti, oi)
  }
}
