/** The webhook and the redirect can both arrive for the same payment. Each
    runs its locked section atomically, so their interleavings are the two
    sequential orders. That is what a lock that was obtained guarantees. When
    `GET_LOCK` times out the callers carry on regardless, and sections that
    overlap are outside these theorems. Under the stated assumption about the status-sync
    collaborator (`Store.SyncSound`: it marks the order paid once its
    transaction has succeeded), every order gets at most one transaction save
    whichever runs first, and exactly one when a qualifying webhook finds the
    order unpaid. */
module Race {
  import opened PhpValues
  import opened Platform
  import opened Config
  import opened Store
  import opened Reconciliation

  /** What no handler touches: row identities, options and order meta; and it
      leaves no lock behind that was not already held. */
  predicate Frame(s: State, s': State) {
    && SameRows(s, s')
    && |s'.orders| == |s.orders| && |s'.transactions| == |s.transactions|
    && s'.options == s.options && s'.purchaseIds == s.purchaseIds
    && s'.locks <= s.locks
  }

  /** Some row of order `orderId` is neither processing nor completed. */
  predicate WasUnpaid(s: State, orderId: nat) {
    exists i :: 0 <= i < |s.orders| && s.orders[i].id == orderId && !IsPaid(s.orders[i])
  }

  /** Every row of order `orderId` is processing or completed. */
  predicate AllPaid(s: State, orderId: nat) {
    forall i :: 0 <= i < |s.orders| && s.orders[i].id == orderId ==> IsPaid(s.orders[i])
  }

  /** One handler run, seen from outside: either it saved nothing and left
      orders and transactions alone, or it saved one transaction of an order
      that was unpaid, after which exactly that order's rows are paid. */
  predicate Step(s: State, s': State, wrote: Option<nat>) {
    && Frame(s, s')
    && (wrote.None? ==> s'.orders == s.orders && s'.transactions == s.transactions && s'.writes == s.writes)
    && (wrote.Some? ==>
          && WasUnpaid(s, wrote.value)
          && s'.writes == s.writes + [wrote.value]
          && forall i :: 0 <= i < |s.orders| ==> RowSynced(s.orders[i], s'.orders[i], wrote.value))
  }

  lemma {:induction false} StepPaysOrder(s: State, s': State, orderId: nat)
    requires Step(s, s', Some(orderId))
    ensures AllPaid(s', orderId)
  {
    forall i | 0 <= i < |s'.orders| && s'.orders[i].id == orderId
      ensures IsPaid(s'.orders[i])
    {
      assert RowSynced(s.orders[i], s'.orders[i], orderId);
    }
  }

  // ------------------------------------------------------ row identities

  lemma {:induction false} SyncedRowsKeepIdentity(before: seq<Order>, after: seq<Order>, orderId: nat)
    requires |after| == |before|
    requires forall i :: 0 <= i < |before| ==> RowSynced(before[i], after[i], orderId)
    ensures OrderUuids(after) == OrderUuids(before) && OrderIds(after) == OrderIds(before)
  {
    assert forall i :: 0 <= i < |before| ==> OrderUuids(after)[i] == OrderUuids(before)[i] by {
      forall i | 0 <= i < |before| ensures OrderUuids(after)[i] == OrderUuids(before)[i] {
        assert RowSynced(before[i], after[i], orderId);
      }
    }
    assert forall i :: 0 <= i < |before| ==> OrderIds(after)[i] == OrderIds(before)[i] by {
      forall i | 0 <= i < |before| ensures OrderIds(after)[i] == OrderIds(before)[i] {
        assert RowSynced(before[i], after[i], orderId);
      }
    }
  }

  lemma {:induction false} MarkSucceededKeepsRows(s: State, ti: nat, purchaseId: Value, methodLabel: Value)
    requires ti < |s.transactions| && s.transactions[ti].orderId in s.locks
    ensures SameRows(s, MarkSucceeded(s, ti, purchaseId, methodLabel))
  {
    var s' := MarkSucceeded(s, ti, purchaseId, methodLabel);
    assert forall j :: 0 <= j < |s.transactions| ==> TxnUuids(s'.transactions)[j] == TxnUuids(s.transactions)[j];
    assert forall j :: 0 <= j < |s.transactions| ==> TxnOwners(s'.transactions)[j] == TxnOwners(s.transactions)[j];
  }

  /** The save followed by a sound sync, with the lock released: the step
      that saves for `orderId`. */
  lemma {:induction false} SaveAndSyncIsStep(s: State, sync: Sync, oi: nat, ti: nat, purchaseId: Value, methodLabel: Value)
    requires SyncSound(sync)
    requires oi < |s.orders| && ti < |s.transactions|
    requires s.transactions[ti].orderId == s.orders[oi].id && !IsPaid(s.orders[oi])
    ensures var orderId := s.orders[oi].id;
            var written := MarkSucceeded(Acquire(s, orderId), ti, purchaseId, methodLabel);
            && sync(written, orderId, ti).Synced?
            && Step(s, Release(sync(written, orderId, ti).state, orderId), Some(orderId))
            && Release(sync(written, orderId, ti).state, orderId).transactions == written.transactions
  {
    var orderId := s.orders[oi].id;
    var locked := Acquire(s, orderId);
    var written := MarkSucceeded(locked, ti, purchaseId, methodLabel);
    assert SyncMarksPaid(written, orderId, sync(written, orderId, ti));
    var after := sync(written, orderId, ti).state;
    MarkSucceededKeepsRows(locked, ti, purchaseId, methodLabel);
    SyncedRowsKeepIdentity(written.orders, after.orders, orderId);
    var s' := Release(after, orderId);
    assert s.orders[oi].id == orderId;
    assert WasUnpaid(s, orderId);
    assert s'.locks == s.locks - {orderId};
  }

  // ------------------------------------------------------------ the webhook

  /** The order the webhook saves for, if any. */
  function WebhookWrites(s: State, data: Value): Option<nat> {
    match WebhookTarget(s, data)
    case None => None
    case Some((oi, ti)) => if IsPaid(s.orders[oi]) then None else Some(s.orders[oi].id)
  }

  /** Under a sound sync the webhook never raises, and it is one step that
      saves for its target order exactly when that order was unpaid. */
  lemma {:induction false} WebhookStep(s: State, data: Value, sync: Sync)
    requires SyncSound(sync)
    ensures !ProcessWebhook(s, data, sync).raised
    ensures Step(s, ProcessWebhook(s, data, sync).state, WebhookWrites(s, data))
  {
    match WebhookTarget(s, data)
    case None =>
    case Some((oi, ti)) =>
      if !IsPaid(s.orders[oi]) {
        SaveAndSyncIsStep(s, sync, oi, ti, WebhookPurchaseId(data), WebhookLabel(data));
      }
  }

  /** What the webhook's save writes into the `chip` transaction: succeeded,
      the purchase id as charge and purchase id, the mapped label; no other
      transaction changes. */
  lemma {:induction false} WebhookWritesTransaction(s: State, data: Value, sync: Sync)
    requires SyncSound(sync)
    requires WebhookTarget(s, data).Some? && !IsPaid(s.orders[WebhookTarget(s, data).value.0])
    ensures var ti := WebhookTarget(s, data).value.1;
            var t := ProcessWebhook(s, data, sync).state.transactions;
            && |t| == |s.transactions|
            && t[ti] == s.transactions[ti].(status := Succeeded, chipPurchaseId := WebhookPurchaseId(data),
                                            vendorChargeId := WebhookPurchaseId(data), methodLabel := WebhookLabel(data))
            && forall j :: 0 <= j < |s.transactions| && j != ti ==> t[j] == s.transactions[j]
  {
    var (oi, ti) := WebhookTarget(s, data).value;
    SaveAndSyncIsStep(s, sync, oi, ti, WebhookPurchaseId(data), WebhookLabel(data));
  }

  /** Delivering the same webhook twice saves once: the second delivery finds
      the order paid. */
  lemma {:induction false} WebhookIsIdempotent(s: State, data: Value, sync: Sync)
    requires SyncSound(sync)
    ensures var s1 := ProcessWebhook(s, data, sync).state;
            ProcessWebhook(s1, data, sync).state.writes == s1.writes
  {
    var s1 := ProcessWebhook(s, data, sync).state;
    WebhookStep(s, data, sync);
    WebhookTargetIsStable(s, s1, data);
    WebhookStep(s1, data, sync);
    match WebhookTarget(s, data)
    case None =>
    case Some((oi, ti)) =>
      if !IsPaid(s.orders[oi]) {
        StepPaysOrder(s, s1, s.orders[oi].id);
        assert RowSynced(s.orders[oi], s1.orders[oi], s.orders[oi].id);
      }
  }

  /** The webhook's guards read only row identities. */
  lemma {:induction false} WebhookTargetIsStable(s: State, s': State, data: Value)
    requires SameRows(s, s')
    ensures WebhookTarget(s', data) == WebhookTarget(s, data)
  {
    assert OrderByUuid(s', Reference(data)) == OrderByUuid(s, Reference(data));
    match OrderByUuid(s, Reference(data))
    case None =>
    case Some(oi) =>
      assert OrderIds(s'.orders)[oi] == OrderIds(s.orders)[oi];
      assert ChipTransactionOf(s', s.orders[oi].id) == ChipTransactionOf(s, s.orders[oi].id);
  }

  // ------------------------------------------------------------ the redirect

  /** The order the redirect saves for, if any: a located order that is not
      yet paid, whose stored purchase id polls as paid. */
  function RedirectWrites(s: State, settings: Settings, env: Env, req: RedirectRequest): Option<nat> {
    match Locate(s, env, req)
    case Found(ti, oi) =>
      if IsPaid(s.orders[oi]) then None
      else
        var purchaseId := PurchaseIdOf(s, s.orders[oi].id);
        if !Empty(purchaseId) && ReportsPaid(CheckPaymentStatus(settings, env, purchaseId))
        then Some(s.orders[oi].id) else None
    case _ => None
  }

  /** Under a sound sync the redirect never raises, and it is one step that
      saves exactly when its order was unpaid and the poll reported paid. */
  lemma {:induction false} RedirectStep(s: State, settings: Settings, env: Env, sync: Sync, req: RedirectRequest)
    requires SyncSound(sync)
    ensures HandleInitRedirect(s, settings, env, sync, req).outcome != Raised
    ensures Step(s, HandleInitRedirect(s, settings, env, sync, req).state, RedirectWrites(s, settings, env, req))
  {
    match Locate(s, env, req)
    case Found(ti, oi) =>
      var orderId := s.orders[oi].id;
      var purchaseId := PurchaseIdOf(s, orderId);
      assert PurchaseIdOf(Acquire(s, orderId), orderId) == purchaseId;
      var check := CheckPaymentStatus(settings, env, purchaseId);
      if !IsPaid(s.orders[oi]) && !Empty(purchaseId) && ReportsPaid(check) {
        SaveAndSyncIsStep(s, sync, oi, ti, purchaseId, PolledLabel(check.payment.value));
      }
    case _ =>
  }

  /** The redirect's save writes the stored purchase id and the label mapped
      from the poll into the transaction the request named. */
  lemma {:induction false} RedirectWritesTransaction(s: State, settings: Settings, env: Env, sync: Sync, req: RedirectRequest)
    requires SyncSound(sync)
    requires RedirectWrites(s, settings, env, req).Some?
    ensures var loc := Locate(s, env, req);
            var purchaseId := PurchaseIdOf(s, s.orders[loc.oi].id);
            var check := CheckPaymentStatus(settings, env, purchaseId);
            var r := HandleInitRedirect(s, settings, env, sync, req);
            && r.outcome == ToSuccess(s.transactions[loc.ti].uuid)
            && r.polled
            && r.state.transactions[loc.ti] == s.transactions[loc.ti].(status := Succeeded, chipPurchaseId := purchaseId,
                   vendorChargeId := purchaseId, methodLabel := PolledLabel(check.payment.value))
            && forall j :: 0 <= j < |s.transactions| && j != loc.ti ==> r.state.transactions[j] == s.transactions[j]
  {
    var loc := Locate(s, env, req);
    var orderId := s.orders[loc.oi].id;
    var purchaseId := PurchaseIdOf(s, orderId);
    assert PurchaseIdOf(Acquire(s, orderId), orderId) == purchaseId;
    var check := CheckPaymentStatus(settings, env, purchaseId);
    SaveAndSyncIsStep(s, sync, loc.oi, loc.ti, purchaseId, PolledLabel(check.payment.value));
  }

  /** The redirect's checks read only the passphrase option and row identities. */
  lemma {:induction false} LocateIsStable(s: State, s': State, env: Env, req: RedirectRequest)
    requires SameRows(s, s') && s'.options == s.options
    ensures Locate(s', env, req) == Locate(s, env, req)
  {
    var u := UuidParam(env, req);
    assert TransactionByUuid(s', u) == TransactionByUuid(s, u);
    match TransactionByUuid(s, u)
    case None =>
    case Some(ti) =>
      assert TxnOwners(s'.transactions)[ti] == TxnOwners(s.transactions)[ti];
      assert OrderById(s', s.transactions[ti].orderId) == OrderById(s, s.transactions[ti].orderId);
  }

  // ------------------------------------------------------------ composition

  /** Two steps never save twice for the same order: the first leaves the
      order paid, and the second saves only for an unpaid one. */
  lemma {:induction false} TwoStepsSaveEachOrderAtMostOnce(s: State, s1: State, s2: State, x: Option<nat>, y: Option<nat>)
    requires Step(s, s1, x) && Step(s1, s2, y)
    ensures x.Some? && y.Some? ==> x.value != y.value
    ensures forall orderId :: WritesFor(s2, orderId) <= WritesFor(s, orderId) + 1
  {
    if x.Some? {
      StepPaysOrder(s, s1, x.value);
    }
    var first := if x.Some? then [x.value] else [];
    var second := if y.Some? then [y.value] else [];
    assert s2.writes == s.writes + first + second;
  }

  /** Webhook then redirect: at most one save per order. */
  lemma WebhookThenRedirectSavesAtMostOnce(s: State, settings: Settings, env: Env, sync: Sync,
                                           data: Value, req: RedirectRequest)
    requires SyncSound(sync)
    ensures var s1 := ProcessWebhook(s, data, sync).state;
            var s2 := HandleInitRedirect(s1, settings, env, sync, req).state;
            forall orderId :: WritesFor(s2, orderId) <= WritesFor(s, orderId) + 1
  {
    var s1 := ProcessWebhook(s, data, sync).state;
    WebhookStep(s, data, sync);
    RedirectStep(s1, settings, env, sync, req);
    TwoStepsSaveEachOrderAtMostOnce(s, s1, HandleInitRedirect(s1, settings, env, sync, req).state,
                                    WebhookWrites(s, data), RedirectWrites(s1, settings, env, req));
  }

  /** Redirect then webhook: at most one save per order. */
  lemma RedirectThenWebhookSavesAtMostOnce(s: State, settings: Settings, env: Env, sync: Sync,
                                           data: Value, req: RedirectRequest)
    requires SyncSound(sync)
    ensures var s1 := HandleInitRedirect(s, settings, env, sync, req).state;
            var s2 := ProcessWebhook(s1, data, sync).state;
            forall orderId :: WritesFor(s2, orderId) <= WritesFor(s, orderId) + 1
  {
    var s1 := HandleInitRedirect(s, settings, env, sync, req).state;
    RedirectStep(s, settings, env, sync, req);
    WebhookStep(s1, data, sync);
    TwoStepsSaveEachOrderAtMostOnce(s, s1, ProcessWebhook(s1, data, sync).state,
                                    RedirectWrites(s, settings, env, req), WebhookWrites(s1, data));
  }

  /** The race both paths are built for: a paid webhook for an unpaid order,
      and the shopper's redirect back for the same order. */
  predicate SamePaymentRace(s: State, env: Env, data: Value, req: RedirectRequest) {
    && WebhookTarget(s, data).Some?
    && !IsPaid(s.orders[WebhookTarget(s, data).value.0])
    && Locate(s, env, req).Found?
    && s.orders[Locate(s, env, req).oi].id == s.orders[WebhookTarget(s, data).value.0].id
  }

  /** Webhook first: exactly one save, by the webhook, and the redirect then
      goes to success without polling. */
  lemma WebhookFirstSavesExactlyOnce(s: State, settings: Settings, env: Env, sync: Sync,
                                     data: Value, req: RedirectRequest)
    requires SyncSound(sync)
    requires SamePaymentRace(s, env, data, req)
    ensures var orderId := s.orders[WebhookTarget(s, data).value.0].id;
            var s1 := ProcessWebhook(s, data, sync).state;
            var r := HandleInitRedirect(s1, settings, env, sync, req);
            && r.state.writes == s.writes + [orderId]
            && r.outcome == ToSuccess(s.transactions[Locate(s, env, req).ti].uuid)
            && !r.polled
  {
    var oi := WebhookTarget(s, data).value.0;
    var orderId := s.orders[oi].id;
    var s1 := ProcessWebhook(s, data, sync).state;
    WebhookStep(s, data, sync);
    StepPaysOrder(s, s1, orderId);
    LocateIsStable(s, s1, env, req);
    var loc := Locate(s, env, req);
    assert IsPaid(s1.orders[loc.oi]);
    assert TxnUuids(s1.transactions)[loc.ti] == TxnUuids(s.transactions)[loc.ti];
  }

  /** Redirect first: exactly one save, by whichever path finds the order
      unpaid — the redirect when its poll reports paid, the webhook otherwise. */
  lemma RedirectFirstSavesExactlyOnce(s: State, settings: Settings, env: Env, sync: Sync,
                                      data: Value, req: RedirectRequest)
    requires SyncSound(sync)
    requires SamePaymentRace(s, env, data, req)
    ensures var orderId := s.orders[WebhookTarget(s, data).value.0].id;
            var s1 := HandleInitRedirect(s, settings, env, sync, req).state;
            && ProcessWebhook(s1, data, sync).state.writes == s.writes + [orderId]
            && (RedirectWrites(s, settings, env, req).Some? <==> s1.writes == s.writes + [orderId])
  {
    var (oi, ti) := WebhookTarget(s, data).value;
    var orderId := s.orders[oi].id;
    var s1 := HandleInitRedirect(s, settings, env, sync, req).state;
    RedirectStep(s, settings, env, sync, req);
    WebhookTargetIsStable(s, s1, data);
    WebhookStep(s1, data, sync);
    match RedirectWrites(s, settings, env, req)
    case Some(x) =>
      assert x == orderId;
      StepPaysOrder(s, s1, orderId);
      assert IsPaid(s1.orders[oi]);
    case None =>
      assert s1.orders == s.orders;
  }

  // ------------------------------------------------------------ reachability

  /** A status sync that behaves as assumed: it marks every row of the order
      processing and returns normally. */
  function PayOrder(st: State, orderId: nat, ti: nat): SyncResult {
    Synced(st.(orders := seq(|st.orders|, i requires 0 <= i < |st.orders| =>
                               if st.orders[i].id == orderId then st.orders[i].(status := Processing) else st.orders[i])))
  }

  lemma {:induction false} PayOrderIsSound()
    ensures SyncSound(PayOrder)
  {
    forall st, orderId, ti ensures SyncMarksPaid(st, orderId, PayOrder(st, orderId, ti)) {
      var after := PayOrder(st, orderId, ti).state;
      forall i | 0 <= i < |st.orders| ensures RowSynced(st.orders[i], after.orders[i], orderId) {
      }
    }
  }

  /** One pending order `o` with its `chip` transaction `t`, and the
      redirect passphrase `p` stored. */
  function RaceState(): State {
    State([Order(1, "o", Pending)], [Transaction(1, "t", "chip", TxnPending, Null, Null, Null)],
          map[], map[RedirectPassphraseOption := Str("p")], {}, [])
  }

  /** A `purchase.paid` notification for order `o`. */
  function PaidWebhook(): Value {
    Arr([(StrKey("event_type"), Str("purchase.paid")), (StrKey("status"), Str("paid")), (StrKey("reference"), Str("o"))])
  }

  /** The shopper's return with passphrase `p` for transaction `t`. */
  function ReturnRequest(): RedirectRequest {
    RedirectRequest(Some("p"), Some("t"))
  }

  /** A platform whose text sanitiser leaves plain text alone. */
  function PlainEnv(): Env {
    Env(q => HttpResponse(0, ""), t => None, v => "", t => None, (d, g, k) => 0, t => t, 0)
  }

  lemma {:induction false} PaidWebhookFindsOrder()
    ensures WebhookTarget(RaceState(), PaidWebhook()) == Some((0, 0))
  {
    assert Get(PaidWebhook(), StrKey("event_type")) == Some(Str("purchase.paid"));
    assert Get(PaidWebhook(), StrKey("status")) == Some(Str("paid"));
    assert Get(PaidWebhook(), StrKey("reference")) == Some(Str("o"));
  }

  lemma {:induction false} ReturnFindsOrder()
    ensures Locate(RaceState(), PlainEnv(), ReturnRequest()) == Found(0, 0)
  {
    StripSlashesKeepsPlainText("p");
    StripSlashesKeepsPlainText("t");
  }

  /** The race the exactly-once theorems are about can happen: a paid
      webhook and the shopper's return can name the same unpaid order. With
      `PayOrderIsSound`, their assumptions can all hold at once. */
  lemma {:induction false} SamePaymentRaceCanHappen()
    ensures SamePaymentRace(RaceState(), PlainEnv(), PaidWebhook(), ReturnRequest())
  {
    PaidWebhookFindsOrder();
    ReturnFindsOrder();
    assert !IsPaid(RaceState().orders[0]);
  }
}
