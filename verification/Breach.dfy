/** A concrete shop in which a late cancellation, or an adjustment, breaks the promise made to a pending order. */
module Breach {
  import opened Prelude
  import opened Tables
  import opened Allocation
  import opened Ledger
  import opened Orders
  import opened Lifecycle
  import opened Books
  import opened Runs
  import opened Conservation
  import opened Promises

  const LINES := [OrderItem(0, 1, 100, 100)]
  const PAID_ORDER := Order(Paid, LINES, [Created, StatusChanged(Paid)], 100, 0, 0, 0, 100, None, "", "", Some(0), None, None)
  const PENDING_ORDER := Order(Pending, LINES, [Created], 100, 0, 0, 0, 100, None, "", "", None, None, None)
  const LINES_OF_LEDGER := [Movement(0, 0, -1, Reservation, Some(0)), Movement(0, 0, -1, Reservation, Some(1)),
                            Movement(0, 0, -1, Sale, Some(0))]

  /** One unit on the shelf, reserved for the second order; the first order, for one unit too, is already paid. */
  const TWO_ORDERS := Shop(Depot(map["main" := Warehouse(true, 10)], [Stock(0, "main", 1, 1, 0)], LINES_OF_LEDGER),
                           map[], map[], map[], [PAID_ORDER, PENDING_ORDER], [])

  lemma OrdersInBreach()
    ensures Path(PAID_ORDER.events) == [Pending, Paid] && Path(PENDING_ORDER.events) == [Pending]
    ensures forall v :: Demand(LINES, v) == if v == 0 then 1 else 0
  {
    PathAppend([], Created);
    PathAppend([Created], StatusChanged(Paid));
    assert [] + [Created] == [Created];
    assert [Created] + [StatusChanged(Paid)] == PAID_ORDER.events;
    assert LINES[1..] == [];
  }

  lemma UnitsInBreach(v: VariantId)
    ensures Units(Outstanding, TWO_ORDERS.orders, v) == if v == 0 then 1 else 0
  {
    OrdersInBreach();
    UnitsAppend(Outstanding, [PAID_ORDER], v, PENDING_ORDER);
    UnitsAppend(Outstanding, [], v, PAID_ORDER);
    assert [PAID_ORDER] + [PENDING_ORDER] == TWO_ORDERS.orders;
    assert [] + [PAID_ORDER] == [PAID_ORDER];
  }

  lemma StockInBreach(q: Quantity, v: VariantId)
    requires q == Reserved || q == Committable
    ensures Sum(Plain(q), v, TWO_ORDERS.depot.rows) == if v == 0 then 1 else 0
  {
    SumAppend(Plain(q), v, [], TWO_ORDERS.depot.rows[0]);
    assert [] + [TWO_ORDERS.depot.rows[0]] == TWO_ORDERS.depot.rows;
  }

  lemma LedgerInBreach(reason: Reason, id: nat, v: VariantId)
    ensures Tally(LINES_OF_LEDGER, reason, id, v) ==
            if v != 0 then 0
            else if reason == Reservation && id <= 1 then -1
            else if reason == Sale && id == 0 then -1
            else 0
  {
    var m := LINES_OF_LEDGER;
    assert m[1..] == [m[1], m[2]] && m[1..][1..] == [m[2]];
    assert Tally([m[2]], reason, id, v) == TallyOf(m[2], reason, id, v) + Tally([], reason, id, v);
  }

  lemma LedgerAgreesInBreach()
    ensures LedgerFiled(LINES_OF_LEDGER, TWO_ORDERS.orders)
  {
    OrdersInBreach();
    forall id, v | 0 <= id < 2 ensures Filed(LINES_OF_LEDGER, id, TWO_ORDERS.orders[id], v) {
      LedgerInBreach(Reservation, id, v);
      LedgerInBreach(Sale, id, v);
      LedgerInBreach(ReservationRelease, id, v);
    }
    forall id, reason, v | id >= 2 ensures Tally(LINES_OF_LEDGER, reason, id, v) == 0 {
      LedgerInBreach(reason, id, v);
    }
  }

  lemma BreachStartsInOrder()
    ensures BooksAgree(TWO_ORDERS) && Balanced(TWO_ORDERS) && Covered(TWO_ORDERS.depot.rows)
  {
    OrdersInBreach();
    LedgerAgreesInBreach();
    forall v ensures InReserve(TWO_ORDERS, v) == Units(Outstanding, TWO_ORDERS.orders, v) {
      UnitsInBreach(v);
      StockInBreach(Reserved, v);
    }
  }

  /** A paid and a pending order for one unit each, one unit reserved: cancelling the first blocks the second. */
  lemma CancellingBlocks(s: Shop, engine: Engine)
    requires BooksAgree(s) && |s.orders| == 2 && s.orders[0].status == Paid
    requires Demand(s.orders[0].items, 0) == Demand(s.orders[1].items, 0) == 1
    requires InReserve(s, 0) == Units(Outstanding, s.orders, 0) == 1
    ensures Transition(Next(s, ChangeStatus(engine, 0, Cancelled, 0)), engine, 1, Paid, 0).Failure?
  {
    CancellingSucceedsIff(s, engine, 0, 0);
    OrdersFlow(s.orders, 0, Cancelled, 0, 0);
    LateCancellationBlocksPayment(s, ChangeStatus(engine, 0, Cancelled, 0), engine, 1, 0, 0);
  }

  lemma SecondCanBePaid(engine: Engine)
    ensures Transition(TWO_ORDERS, engine, 1, Paid, 0).Success?
  {
    OrdersInBreach();
    BreachStartsInOrder();
    forall v {
      StockInBreach(Committable, v);
    }
    PayingSucceedsIff(TWO_ORDERS, engine, 1, 0);
  }

  /** The pending order could be paid; once the paid one is cancelled, it cannot. */
  lemma LateCancellationBreaksAPromise(engine: Engine)
    ensures Transition(TWO_ORDERS, engine, 1, Paid, 0).Success?
    ensures Transition(Next(TWO_ORDERS, ChangeStatus(engine, 0, Cancelled, 0)), engine, 1, Paid, 0).Failure?
  {
    OrdersInBreach();
    BreachStartsInOrder();
    UnitsInBreach(0);
    StockInBreach(Reserved, 0);
    SecondCanBePaid(engine);
    CancellingBlocks(TWO_ORDERS, engine);
  }

  const TAKE_ONE := AdjustStock(0, "main", -1)

  lemma TakingOneUndercuts()
    ensures Undercuts(TWO_ORDERS, TAKE_ONE) && Next(TWO_ORDERS, TAKE_ONE).orders == TWO_ORDERS.orders
    ensures Next(TWO_ORDERS, TAKE_ONE).depot.rows == [Stock(0, "main", 0, 1, 0)]
  {
  }

  lemma PayingTheSecondPaysEveryone(engine: Engine)
    ensures PaysEveryone(TWO_ORDERS.orders, [Move(engine, 1, Paid, 0)])
  {
    assert [Move(engine, 1, Paid, 0)][0].id == 1;
  }

  /** So it is when someone takes the reserved unit off the shelf. */
  lemma UndercuttingBreaksAPromise(engine: Engine)
    ensures Transition(TWO_ORDERS, engine, 1, Paid, 0).Success?
    ensures Transition(Next(TWO_ORDERS, TAKE_ONE), engine, 1, Paid, 0).Failure?
  {
    SecondCanBePaid(engine);
    UndercuttingBlocks(engine);
  }

  lemma UndercuttingBlocks(engine: Engine)
    ensures Transition(Next(TWO_ORDERS, TAKE_ONE), engine, 1, Paid, 0).Failure?
  {
    BreachStartsInOrder();
    TakingOneUndercuts();
    PayingTheSecondPaysEveryone(engine);
    EveryoneCanStillPayIff(TWO_ORDERS, TAKE_ONE, [Move(engine, 1, Paid, 0)]);
    assert [Move(engine, 1, Paid, 0)][1..] == [];
  }
}
