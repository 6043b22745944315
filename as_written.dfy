/**
 add-product as the controller's code is written, next to the intended behaviour in Store
 and Controller. The order query names `IdOrder` without a table prefix, though both
 joined tables have that column. So SQL Server refuses the query as ambiguous. The
 unqualified `Price` fails too: it is ambiguous if [Order] has that column, and otherwise
 it names the NULL `pw.Price` of the unmatched join row, whose decimal cast throws. Even
 with the query corrected, the update runs while the order reader is still open on a
 connection that does not enable multiple active result sets, and SqlClient refuses
 that command. Both failures land in the catch block, which rolls back and answers 500.
 */
module AsWritten {
  import opened Store

  /** The answer decided before any write, with the order query sent as written: every
      request that passes the amount check faults at ExecuteReader. */
  function EarlyExitAsWritten(t: Tables, req: Request, fault: FaultPoint): (r: Option<Outcome>)
    ensures r.Some? && r.value != NoMatchingOrder && !r.value.Ok?
    ensures EarlyExit(t, req, fault) !in {None, Some(NoMatchingOrder)} ==> r == EarlyExit(t, req, fault)
    ensures EarlyExit(t, req, fault) in {None, Some(NoMatchingOrder)} ==> r == Some(Fault)
  {
    if fault == AtOpen || fault == AtProductQuery then Some(Fault)
    else if req.productId !in t.products then Some(ProductNotFound)
    else if fault == AtWarehouseQuery then Some(Fault)
    else if req.warehouseId !in t.warehouses then Some(WarehouseNotFound)
    else if req.amount <= 0 then Some(InvalidAmount)
    else Some(Fault)
  }

  /** The final answer with the query corrected (both `IdOrder` and `Price` qualified by
      the order table) but the update still issued beside the open reader: whatever would
      have matched, the call ends in a rolled-back 500. */
  function AnswerWithOpenReader(t: Tables, req: Request, fault: FaultPoint): (r: Outcome)
    ensures !r.Ok?
  {
    match EarlyExit(t, req, fault)
    case Some(early) => early
    case None => Fault
  }

  /** For every store, request and fault point, the open reader changes exactly the
      answers that would have been a success, and turns each of them into Fault. */
  lemma OpenReaderLosesEverySuccess(t: Tables, req: Request, fault: FaultPoint, newId: int)
    ensures AnswerWithOpenReader(t, req, fault) == Answer(t, req, fault, newId)
            <==> !Answer(t, req, fault, newId).Ok?
    ensures Answer(t, req, fault, newId).Ok? ==> AnswerWithOpenReader(t, req, fault) == Fault
  {
  }

  /** Product 7, warehouse 2, and order 50 for 10 units at 3.00, created at tick 100. */
  function SampleStore(): (t: Tables) {
    Tables({7}, {2}, map[50 := Order(7, 10, 3.0, 100, None)], [])
  }

  /** A receipt of 10 units of product 7 into warehouse 2 at tick 200. */
  function SampleRequest(): (req: Request) {
    Request(7, 2, 10, 200)
  }

  /** On the sample, the intended query finds order 50, but the query as written faults. */
  lemma AmbiguousQueryExample()
    ensures EarlyExit(SampleStore(), SampleRequest(), NoFault) == None
    ensures EarlyExitAsWritten(SampleStore(), SampleRequest(), NoFault) == Some(Fault)
  {
    assert Matches(SampleStore(), SampleRequest(), 50);
  }

  /** On the sample with no database fault, the intended call answers Ok with the new
      record's id, but with the reader left open the answer is Fault. */
  lemma OpenReaderExample()
    ensures EarlyExit(SampleStore(), SampleRequest(), NoFault) == None
    ensures AnswerWithOpenReader(SampleStore(), SampleRequest(), NoFault) == Fault
  {
    assert Matches(SampleStore(), SampleRequest(), 50);
  }
}
