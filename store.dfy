/**
 The relational store behind the warehouse controller, as values: the Product and
 Warehouse identities, the [Order] table and the Product_Warehouse table of receipt
 records, together with the order-matching predicate, the decisions taken before
 anything is written, and the write that fulfils one order.
 */
module Store {

  datatype Option<T> = None | Some(value: T)

  /** The body of a POST to add-product. Timestamps are DateTime ticks. */
  datatype Request = Request(productId: int, warehouseId: int, amount: int, createdAt: int)

  /** A row of [Order]; the map that holds it is keyed by IdOrder. */
  datatype Order = Order(productId: int, amount: int, price: real, createdAt: int, fulfilledAt: Option<int>)

  /** A row of Product_Warehouse: one unit of received stock matched to an order. */
  datatype Receipt = Receipt(id: int, warehouseId: int, productId: int, orderId: int,
                             amount: int, price: real, createdAt: int)

  datatype Tables = Tables(products: set<int>, warehouses: set<int>,
                           orders: map<int, Order>, receipts: seq<Receipt>)

  /** What add-product answers: 404, 400, 200 with the new record's id, or 500. */
  datatype Outcome = ProductNotFound | WarehouseNotFound | InvalidAmount | NoMatchingOrder | Ok(id: int) | Fault

  /** The statement at which the database throws, if any. */
  datatype FaultPoint = NoFault | AtOpen | AtProductQuery | AtWarehouseQuery | AtOrderQuery
                      | AtUpdate | AtInsert | AtCommit

  /** No Product_Warehouse row refers to the order (the LEFT JOIN finds nothing). */
  predicate Unreferenced(receipts: seq<Receipt>, orderId: int) {
    forall i :: 0 <= i < |receipts| ==> receipts[i].orderId != orderId
  }

  /** How many Product_Warehouse rows refer to the order. */
  function ReceiptsFor(receipts: seq<Receipt>, orderId: int): (n: nat) {
    if receipts == [] then 0
    else (if receipts[0].orderId == orderId then 1 else 0) + ReceiptsFor(receipts[1..], orderId)
  }

  /** The WHERE clause of the order query: same product, the exact amount, no receipt yet,
      and created strictly before the request. FulfilledAt is not consulted. */
  predicate Matches(t: Tables, req: Request, id: int) {
    && id in t.orders
    && t.orders[id].productId == req.productId
    && t.orders[id].amount == req.amount
    && Unreferenced(t.receipts, id)
    && t.orders[id].createdAt < req.createdAt
  }

  /** Some order satisfies the query; `id in t.orders` bounds the search to the table. */
  predicate HasMatch(t: Tables, req: Request) {
    exists id :: id in t.orders && Matches(t, req, id)
  }

  /** The line price written to Product_Warehouse: unit price times amount, exactly. */
  function LineTotal(unitPrice: real, amount: int): (total: real) {
    unitPrice * (amount as real)
  }

  /** The outcome of add-product when it ends before any write, in the order the
      checks run; None when a matching order exists and every read succeeded. */
  function EarlyExit(t: Tables, req: Request, fault: FaultPoint): (r: Option<Outcome>)
    ensures r == Some(ProductNotFound) <==>
              fault !in {AtOpen, AtProductQuery} && req.productId !in t.products
    ensures r == Some(WarehouseNotFound) <==>
              && fault !in {AtOpen, AtProductQuery, AtWarehouseQuery}
              && req.productId in t.products && req.warehouseId !in t.warehouses
    ensures r == Some(InvalidAmount) <==>
              && fault !in {AtOpen, AtProductQuery, AtWarehouseQuery}
              && req.productId in t.products && req.warehouseId in t.warehouses && req.amount <= 0
    ensures r == Some(NoMatchingOrder) <==>
              && fault !in {AtOpen, AtProductQuery, AtWarehouseQuery, AtOrderQuery}
              && req.productId in t.products && req.warehouseId in t.warehouses && req.amount > 0
              && !HasMatch(t, req)
    ensures r.None? <==>
              && fault !in {AtOpen, AtProductQuery, AtWarehouseQuery, AtOrderQuery}
              && req.productId in t.products && req.warehouseId in t.warehouses && req.amount > 0
              && HasMatch(t, req)
    ensures r.Some? ==> !r.value.Ok?
  {
    if fault == AtOpen || fault == AtProductQuery then Some(Fault)
    else if req.productId !in t.products then Some(ProductNotFound)
    else if fault == AtWarehouseQuery then Some(Fault)
    else if req.warehouseId !in t.warehouses then Some(WarehouseNotFound)
    else if req.amount <= 0 then Some(InvalidAmount)
    else if fault == AtOrderQuery then Some(Fault)
    else if !HasMatch(t, req) then Some(NoMatchingOrder)
    else None
  }

  /** The answer of add-product: the early answer if there is one, otherwise Ok with the
      next identity value when no statement throws, and Fault when one does. */
  function Answer(t: Tables, req: Request, fault: FaultPoint, newId: int): (out: Outcome) {
    match EarlyExit(t, req, fault)
    case Some(early) => early
    case None => if fault == NoFault then Ok(newId) else Fault
  }

  /** The committed effect of a successful add-product: order `id` gets its FulfilledAt
      and one priced record is appended with the generated id `newId`. */
  function Fulfil(t: Tables, req: Request, id: int, fulfilledAt: int, newId: int, recordedAt: int): (r: Tables)
    requires id in t.orders
    ensures r.products == t.products && r.warehouses == t.warehouses
    ensures r.orders.Keys == t.orders.Keys
    ensures forall k :: k in t.orders && k != id ==> r.orders[k] == t.orders[k]
    ensures r.orders[id].fulfilledAt == Some(fulfilledAt)
    ensures r.orders[id].(fulfilledAt := None) == t.orders[id].(fulfilledAt := None)
    ensures |r.receipts| == |t.receipts| + 1 && r.receipts[..|t.receipts|] == t.receipts
    ensures var rec := r.receipts[|t.receipts|];
              && rec.id == newId && rec.orderId == id && rec.createdAt == recordedAt
              && rec.warehouseId == req.warehouseId && rec.productId == req.productId
              && rec.amount == req.amount
              && rec.price == t.orders[id].price * (req.amount as real)
  {
    var o := t.orders[id];
    t.(orders := t.orders[id := o.(fulfilledAt := Some(fulfilledAt))],
       receipts := t.receipts + [Receipt(newId, req.warehouseId, req.productId, id,
                                         req.amount, LineTotal(o.price, req.amount), recordedAt)])
  }

  /** The store invariant: at most one record per order, generated ids below the identity
      counter and distinct, and every record refers to an order that is fulfilled. */
  ghost predicate Consistent(t: Tables, nextId: int) {
    && (forall orderId :: ReceiptsFor(t.receipts, orderId) <= 1)
    && (forall i :: 0 <= i < |t.receipts| ==>
          && t.receipts[i].id < nextId
          && t.receipts[i].orderId in t.orders
          && t.orders[t.receipts[i].orderId].fulfilledAt.Some?)
    && (forall i, j :: 0 <= i < j < |t.receipts| ==> t.receipts[i].id != t.receipts[j].id)
  }

  lemma {:induction false} UnreferencedIffNoReceipts(receipts: seq<Receipt>, orderId: int)
    ensures Unreferenced(receipts, orderId) <==> ReceiptsFor(receipts, orderId) == 0
  {
    if receipts != [] {
      UnreferencedIffNoReceipts(receipts[1..], orderId);
      assert Unreferenced(receipts, orderId) <==>
             receipts[0].orderId != orderId && Unreferenced(receipts[1..], orderId) by {
        if Unreferenced(receipts[1..], orderId) && receipts[0].orderId != orderId {
          forall i | 0 <= i < |receipts| ensures receipts[i].orderId != orderId {
            if i > 0 { assert receipts[i] == receipts[1..][i - 1]; }
          }
        }
      }
    }
  }

  lemma {:induction false} ReceiptsForAppend(receipts: seq<Receipt>, rec: Receipt, orderId: int)
    ensures ReceiptsFor(receipts + [rec], orderId)
            == ReceiptsFor(receipts, orderId) + (if rec.orderId == orderId then 1 else 0)
  {
    if receipts != [] {
      assert (receipts + [rec])[1..] == receipts[1..] + [rec];
      ReceiptsForAppend(receipts[1..], rec, orderId);
    }
  }

  /** A successful add-product keeps the store invariant, and afterwards exactly one
      record refers to the order it fulfilled. */
  lemma FulfilPreservesConsistent(t: Tables, nextId: int, req: Request, id: int,
                                  fulfilledAt: int, recordedAt: int)
    requires Consistent(t, nextId)
    requires Matches(t, req, id)
    ensures Consistent(Fulfil(t, req, id, fulfilledAt, nextId, recordedAt), nextId + 1)
    ensures ReceiptsFor(Fulfil(t, req, id, fulfilledAt, nextId, recordedAt).receipts, id) == 1
  {
    var r := Fulfil(t, req, id, fulfilledAt, nextId, recordedAt);
    var rec := r.receipts[|t.receipts|];
    assert r.receipts == t.receipts + [rec];
    UnreferencedIffNoReceipts(t.receipts, id);
    forall orderId ensures ReceiptsFor(r.receipts, orderId) <= 1 {
      ReceiptsForAppend(t.receipts, rec, orderId);
    }
    ReceiptsForAppend(t.receipts, rec, id);
  }

  /** After a fulfilment exactly the fulfilled order stops matching, for any request:
      re-submitting a request can never pick the same order again. */
  lemma FulfilRetiresOrder(t: Tables, req: Request, id: int, fulfilledAt: int, newId: int,
                           recordedAt: int, other: Request, k: int)
    requires id in t.orders
    ensures Matches(Fulfil(t, req, id, fulfilledAt, newId, recordedAt), other, k)
            <==> Matches(t, other, k) && k != id
  {
  }

  /** When the fulfilled order was the only one that matched, the same request sent
      again is answered "no matching order". */
  lemma RetryAfterSoleMatchRejected(t: Tables, req: Request, id: int, fulfilledAt: int,
                                    newId: int, recordedAt: int)
    requires EarlyExit(t, req, NoFault).None?
    requires Matches(t, req, id)
    requires forall k :: Matches(t, req, k) ==> k == id
    ensures EarlyExit(Fulfil(t, req, id, fulfilledAt, newId, recordedAt), req, NoFault)
            == Some(NoMatchingOrder)
  {
    var r := Fulfil(t, req, id, fulfilledAt, newId, recordedAt);
    forall k ensures !Matches(r, req, k) {
      FulfilRetiresOrder(t, req, id, fulfilledAt, newId, recordedAt, req, k);
    }
  }
}
