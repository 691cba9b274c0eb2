/** The persistent state the reconciliation paths share: orders, their
    transactions, the `chip_purchase_id` order meta, the option store, the set
    of held per-order locks, and an audit trail of transaction saves. */
module Store {
  import opened PhpValues
  import opened Config

  datatype OrderStatus = Pending | Processing | Completed | Failed | Cancelled

  datatype Order = Order(id: nat, uuid: string, status: OrderStatus)

  datatype TxnStatus = TxnPending | Succeeded | TxnFailed

  datatype Transaction = Transaction(
    orderId: nat,
    uuid: string,
    paymentMethod: string,
    status: TxnStatus,
    chipPurchaseId: Value,
    vendorChargeId: Value,
    methodLabel: Value)

  /** `writes` lists, for every save of a transaction as succeeded, the id of
      the order it belongs to, oldest first. */
  datatype State = State(
    orders: seq<Order>,
    transactions: seq<Transaction>,
    purchaseIds: map<nat, string>,
    options: Options,
    locks: set<nat>,
    writes: seq<nat>)

  /** `Status::ORDER_PROCESSING` or `Status::ORDER_COMPLETED`: the statuses both
      paths read as "already paid". */
  predicate IsPaid(o: Order) {
    o.status == Processing || o.status == Completed
  }

  /** Position of the first occurrence of `x`: what `->first()` returns for an
      equality query over a table in row order. */
  function IndexOf<T(==)>(xs: seq<T>, x: T): (r: Option<nat>)
    ensures r.Some? ==> r.value < |xs| && xs[r.value] == x && forall j :: 0 <= j < r.value ==> xs[j] != x
    ensures r.None? ==> forall j :: 0 <= j < |xs| ==> xs[j] != x
  {
    if |xs| == 0 then None
    else if xs[0] == x then Some(0)
    else match IndexOf(xs[1..], x)
      case None => None
      case Some(j) => Some(j + 1)
  }

  function OrderUuids(orders: seq<Order>): (r: seq<string>)
    ensures |r| == |orders| && forall j :: 0 <= j < |orders| ==> r[j] == orders[j].uuid
  {
    seq(|orders|, j requires 0 <= j < |orders| => orders[j].uuid)
  }

  function OrderIds(orders: seq<Order>): (r: seq<nat>)
    ensures |r| == |orders| && forall j :: 0 <= j < |orders| ==> r[j] == orders[j].id
  {
    seq(|orders|, j requires 0 <= j < |orders| => orders[j].id)
  }

  /** The transactions' uuids: the same projection as `OrderUuids`, but over
      transactions, so that uuid lookups and frame conditions range over the
      transaction table. */
  function TxnUuids(txns: seq<Transaction>): (r: seq<string>)
    ensures |r| == |txns| && forall j :: 0 <= j < |txns| ==> r[j] == txns[j].uuid
  {
    seq(|txns|, j requires 0 <= j < |txns| => txns[j].uuid)
  }

  /** Each transaction's (order id, payment method) pair. */
  function TxnOwners(txns: seq<Transaction>): (r: seq<(nat, string)>)
    ensures |r| == |txns| && forall j :: 0 <= j < |txns| ==> r[j] == (txns[j].orderId, txns[j].paymentMethod)
  {
    seq(|txns|, j requires 0 <= j < |txns| => (txns[j].orderId, txns[j].paymentMethod))
  }

  /** `Order::where('uuid', $ref)->first()`; a reference that is not a string
      matches no row. */
  function OrderByUuid(s: State, ref: Value): (r: Option<nat>)
    ensures r.Some? ==> r.value < |s.orders| && ref == Str(s.orders[r.value].uuid)
    ensures r.Some? ==> forall j :: 0 <= j < r.value ==> ref != Str(s.orders[j].uuid)
    ensures r.None? ==> forall j :: 0 <= j < |s.orders| ==> ref != Str(s.orders[j].uuid)
  {
    if ref.Str? then IndexOf(OrderUuids(s.orders), ref.s) else None
  }

  /** `OrderResource::getQuery()->find($id)`. */
  function OrderById(s: State, id: nat): (r: Option<nat>)
    ensures r.Some? ==> r.value < |s.orders| && s.orders[r.value].id == id
    ensures r.None? ==> forall j :: 0 <= j < |s.orders| ==> s.orders[j].id != id
  {
    IndexOf(OrderIds(s.orders), id)
  }

  /** `OrderTransaction::where('order_id', $id)->where('payment_method', 'chip')->first()`. */
  function ChipTransactionOf(s: State, orderId: nat): (r: Option<nat>)
    ensures r.Some? ==> r.value < |s.transactions| && s.transactions[r.value].orderId == orderId
                        && s.transactions[r.value].paymentMethod == "chip"
    // The first such transaction, as `->first()` returns.
    ensures r.Some? ==> forall j :: 0 <= j < r.value ==>
                          !(s.transactions[j].orderId == orderId && s.transactions[j].paymentMethod == "chip")
    ensures r.None? ==> forall j :: 0 <= j < |s.transactions| ==>
                          !(s.transactions[j].orderId == orderId && s.transactions[j].paymentMethod == "chip")
  {
    IndexOf(TxnOwners(s.transactions), (orderId, "chip"))
  }

  /** `OrderTransaction::where('uuid', $uuid)->first()`. */
  function TransactionByUuid(s: State, uuid: string): (r: Option<nat>)
    ensures r.Some? ==> r.value < |s.transactions| && s.transactions[r.value].uuid == uuid
    ensures r.Some? ==> forall j :: 0 <= j < r.value ==> s.transactions[j].uuid != uuid
    ensures r.None? ==> forall j :: 0 <= j < |s.transactions| ==> s.transactions[j].uuid != uuid
  {
    IndexOf(TxnUuids(s.transactions), uuid)
  }

  /** `getPurchaseId($order)`: the order's `chip_purchase_id` meta, or null;
      an order id of 0 is falsy and is not looked up. */
  function PurchaseIdOf(s: State, orderId: nat): (r: Value)
    ensures orderId != 0 && orderId in s.purchaseIds ==> r == Str(s.purchaseIds[orderId])
    ensures orderId == 0 || orderId !in s.purchaseIds ==> r == Null
  {
    if orderId != 0 && orderId in s.purchaseIds then Str(s.purchaseIds[orderId]) else Null
  }

  /** `acquireLock`: its result is ignored by both callers, so acquisition
      always proceeds. */
  function Acquire(s: State, orderId: nat): (s': State)
    ensures orderId in s'.locks
    ensures s' == s.(locks := s'.locks)
  {
    s.(locks := s.locks + {orderId})
  }

  function Release(s: State, orderId: nat): (s': State)
    ensures orderId !in s'.locks
    ensures s' == s.(locks := s'.locks)
    ensures s'.locks + {orderId} == s.locks + {orderId}
  {
    s.(locks := s.locks - {orderId})
  }

  /** The `fill` + `save` both paths perform on a transaction, allowed only
      while its order's lock is held: status succeeded, the purchase id as both
      `chip_purchase_id` and `vendor_charge_id`, and the mapped method label.
      Nothing else changes, and the save is appended to the audit trail. */
  function MarkSucceeded(s: State, ti: nat, purchaseId: Value, methodLabel: Value): (s': State)
    requires ti < |s.transactions|
    requires s.transactions[ti].orderId in s.locks
    ensures |s'.transactions| == |s.transactions|
    ensures s'.transactions[ti].status == Succeeded
    ensures s'.transactions[ti].chipPurchaseId == purchaseId && s'.transactions[ti].vendorChargeId == purchaseId
    ensures s'.transactions[ti].methodLabel == methodLabel
    ensures s'.transactions[ti].orderId == s.transactions[ti].orderId
    ensures s'.transactions[ti].uuid == s.transactions[ti].uuid
    ensures s'.transactions[ti].paymentMethod == s.transactions[ti].paymentMethod
    ensures forall j :: 0 <= j < |s.transactions| && j != ti ==> s'.transactions[j] == s.transactions[j]
    ensures s'.writes == s.writes + [s.transactions[ti].orderId]
    ensures s' == s.(transactions := s'.transactions, writes := s'.writes)
  {
    var t := s.transactions[ti];
    var t' := t.(status := Succeeded, chipPurchaseId := purchaseId, vendorChargeId := purchaseId, methodLabel := methodLabel);
    s.(transactions := s.transactions[ti := t'], writes := s.writes + [t.orderId])
  }

  /** Number of saves recorded against one order. */
  function WritesFor(s: State, orderId: nat): nat {
    multiset(s.writes)[orderId]
  }

  /** The row identities every lookup depends on are the same in both states. */
  predicate SameRows(s: State, s': State) {
    && OrderUuids(s'.orders) == OrderUuids(s.orders)
    && OrderIds(s'.orders) == OrderIds(s.orders)
    && TxnUuids(s'.transactions) == TxnUuids(s.transactions)
    && TxnOwners(s'.transactions) == TxnOwners(s.transactions)
  }

  /** What `StatusHelper::syncOrderStatuses` reports: it returned normally, or
      it threw after possibly changing the state. `isError` tells a PHP
      `\Error` (a `TypeError`, say) from an `\Exception`: the two handlers
      clean up differently after each. */
  datatype SyncResult = Synced(state: State) | Threw(state: State, isError: bool)

  /** The status-sync collaborator, called with the state after the save, the
      order id and the saved transaction's position. */
  type Sync = (State, nat, nat) -> SyncResult

  /** One order row before and after syncing order `orderId`: only that order
      changes, it keeps its identity and it ends up paid. */
  predicate RowSynced(o: Order, o': Order, orderId: nat) {
    o'.id == o.id && o'.uuid == o.uuid && (if o.id == orderId then IsPaid(o') else o' == o)
  }

  /** The assumed effect of syncing order `orderId` once its transaction has
      succeeded: the call returns normally, every row of that order is paid
      afterwards, and no other row and no other part of the state changes. */
  predicate SyncMarksPaid(before: State, orderId: nat, r: SyncResult) {
    && r.Synced?
    && r.state == before.(orders := r.state.orders)
    && |r.state.orders| == |before.orders|
    && forall i :: 0 <= i < |before.orders| ==> RowSynced(before.orders[i], r.state.orders[i], orderId)
  }

  /** The explicit assumption about the collaborator under which the
      exactly-one-write theorem holds. */
  ghost predicate SyncSound(sync: Sync) {
    forall s, orderId, ti :: SyncMarksPaid(s, orderId, sync(s, orderId, ti))
  }
}
