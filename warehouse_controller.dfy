/**
 WarehouseController.AddProduct as a step-by-step transaction over a database object
 whose tables the steps update in place. A fault at any statement, and every early
 return, leaves the tables as they were before the call.
 */
module Controller {
  import opened Store

  class WarehouseDb {
    var products: set<int>
    var warehouses: set<int>
    var orders: map<int, Order>
    var receipts: seq<Receipt>
    /** The identity counter of Product_Warehouse; a rollback does not give values back. */
    var nextId: int

    function Snapshot(): (t: Tables)
      reads this
    {
      Tables(products, warehouses, orders, receipts)
    }

    ghost predicate Valid()
      reads this
    {
      Consistent(Snapshot(), nextId)
    }

    /** A database holding the given products, warehouses and orders and no receipts yet. */
    constructor (products: set<int>, warehouses: set<int>, orders: map<int, Order>)
      ensures Valid()
      ensures Snapshot() == Tables(products, warehouses, orders, [])
      ensures nextId == 1
    {
      this.products := products;
      this.warehouses := warehouses;
      this.orders := orders;
      this.receipts := [];
      this.nextId := 1;
    }

    /** The statements inside the try block, up to and including the commit. Each early
        return leaves what was already written; AddProduct undoes it. */
    method TryAddProduct(req: Request, fault: FaultPoint, updateNow: int, insertNow: int)
      returns (out: Outcome, ghost matched: Option<int>)
      requires fault != AtOpen
      modifies this
      ensures products == old(products) && warehouses == old(warehouses)
      ensures var early := EarlyExit(old(Snapshot()), req, fault);
              && (early.Some? ==> out == early.value && Snapshot() == old(Snapshot()))
              && (early.None? ==> matched.Some? && Matches(old(Snapshot()), req, matched.value))
              && (early.None? && fault != NoFault ==> out == Fault)
              && (early.None? && fault == AtUpdate ==> Snapshot() == old(Snapshot()))
              && (early.None? && fault == AtInsert ==>
                    && orders == old(orders)[matched.value := old(orders)[matched.value].(fulfilledAt := Some(updateNow))]
                    && receipts == old(receipts))
              && (early.None? && fault in {NoFault, AtCommit} ==>
                    Snapshot() == Fulfil(old(Snapshot()), req, matched.value, updateNow, old(nextId), insertNow))
              && (early.None? && fault == NoFault ==> out == Ok(old(nextId)))
              && (early.Some? || fault == AtUpdate ==> nextId == old(nextId))
              && (early.None? && fault == AtInsert ==> nextId in {old(nextId), old(nextId) + 1})
              && (early.None? && fault in {NoFault, AtCommit} ==> nextId == old(nextId) + 1)
    {
      matched := None;
      if fault == AtProductQuery { return Fault, None; }
      if req.productId !in products { return ProductNotFound, None; }

      if fault == AtWarehouseQuery { return Fault, None; }
      if req.warehouseId !in warehouses { return WarehouseNotFound, None; }

      if req.amount <= 0 { return InvalidAmount, None; }

      if fault == AtOrderQuery { return Fault, None; }
      if !HasMatch(Snapshot(), req) { return NoMatchingOrder, None; }
      // TOP 1 without ORDER BY: any matching order may be the one returned
      var id :| id in orders && Matches(Snapshot(), req, id);
      matched := Some(id);
      var price := orders[id].price;

      if fault == AtUpdate { return Fault, matched; }
      orders := orders[id := orders[id].(fulfilledAt := Some(updateNow))];

      if fault == AtInsert {
        // a failed INSERT may or may not have taken an identity value already
        var consumed: bool :| true;
        if consumed { nextId := nextId + 1; }
        return Fault, matched;
      }
      receipts := receipts + [Receipt(nextId, req.warehouseId, req.productId, id,
                                      req.amount, LineTotal(price, req.amount), insertNow)];
      var insertedId := nextId;
      nextId := nextId + 1;

      if fault == AtCommit { return Fault, matched; }
      out := Ok(insertedId);
    }

    /** The whole endpoint: open the connection, begin the transaction, run the steps,
        and roll back on every exit other than a successful commit. `updateNow` and
        `insertNow` are the two readings of the clock. */
    method AddProduct(req: Request, fault: FaultPoint, updateNow: int, insertNow: int)
      returns (out: Outcome, ghost matched: Option<int>)
      requires Valid()
      modifies this
      ensures Valid()
      ensures var early := EarlyExit(old(Snapshot()), req, fault);
              && (early.Some? ==> out == early.value)
              && (early.None? ==> matched.Some? && Matches(old(Snapshot()), req, matched.value))
              && (early.None? && fault != NoFault ==> out == Fault)
              && (early.None? && fault == NoFault ==>
                    && out == Ok(old(nextId))
                    && Snapshot() == Fulfil(old(Snapshot()), req, matched.value, updateNow, old(nextId), insertNow)
                    && ReceiptsFor(receipts, matched.value) == 1)
      ensures out == Answer(old(Snapshot()), req, fault, old(nextId))
      ensures !out.Ok? ==> Snapshot() == old(Snapshot())
      ensures var early := EarlyExit(old(Snapshot()), req, fault);
              && (early.Some? || fault == AtUpdate ==> nextId == old(nextId))
              && (early.None? && fault == AtInsert ==> nextId in {old(nextId), old(nextId) + 1})
              && (early.None? && fault in {NoFault, AtCommit} ==> nextId == old(nextId) + 1)
    {
      if fault == AtOpen { return Fault, None; }
      var savedOrders, savedReceipts := orders, receipts;
      out, matched := TryAddProduct(req, fault, updateNow, insertNow);
      if out.Ok? {
        FulfilPreservesConsistent(old(Snapshot()), old(nextId), req, matched.value, updateNow, insertNow);
      } else {
        orders, receipts := savedOrders, savedReceipts;
      }
    }
  }

  /** A receipt of 10 units of product 7 into warehouse 2, matched to order 50 at a
      unit price of 3.00, and the same receipt sent again. */
  method SampleReceipt()
  {
    var db := new WarehouseDb({7}, {2}, map[50 := Order(7, 10, 3.0, 100, None)]);
    var req := Request(7, 2, 10, 200);
    assert Matches(db.Snapshot(), req, 50);
    var out, matched := db.AddProduct(req, NoFault, 300, 301);
    assert matched == Some(50);
    assert out == Ok(1);
    assert db.orders[50].fulfilledAt == Some(300);
    assert db.receipts == [Receipt(1, 2, 7, 50, 10, 30.0, 301)];
    out, matched := db.AddProduct(req, NoFault, 400, 401);
    assert out == NoMatchingOrder;
  }
}
