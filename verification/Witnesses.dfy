/** Concrete shops for two things that the services let happen. */
module Witnesses {
  import opened Prelude
  import opened Tables
  import opened Allocation
  import opened Carts
  import opened Orders
  import opened Payments
  import opened Lifecycle
  import opened Runs
  import opened Promises
  import opened Breach
  import Checkouts
  import Webhooks

  // ---------- a cart that no checkout can reserve ----------

  const SHOPPER := User(0)
  const CLOSED_DEPOT := Depot(map["main" := Warehouse(false, 10)], [Stock(0, "main", 1, 0, 0)], [])
  const CLOSED_SHOP := Shop(CLOSED_DEPOT, map[0 := Listing(100, true)], map[SHOPPER := []], map[], [], [])

  lemma StockInClosedShop()
    ensures Inventory.GetAvailable(CLOSED_DEPOT, 0) == 1
    ensures Sum(Reach(Available, CLOSED_DEPOT.warehouses, None), 0, CLOSED_DEPOT.rows) == 0
  {
    SumAppend(Plain(Available), 0, [], CLOSED_DEPOT.rows[0]);
    SumAppend(Reach(Available, CLOSED_DEPOT.warehouses, None), 0, [], CLOSED_DEPOT.rows[0]);
    assert [] + [CLOSED_DEPOT.rows[0]] == CLOSED_DEPOT.rows;
  }

  /** The only unit lies in an inactive warehouse: it can be put into a cart, and the cart can never be checked out. */
  lemma CartOfUnreservableStock(engine: Engine, shippingMethod: string, now: int)
    ensures var s := Next(CLOSED_SHOP, AddToCart(SHOPPER, 0, 1));
            && SHOPPER in s.carts && QuantityIn(s.carts[SHOPPER], 0) == 1
            && Checkout(s, engine, SHOPPER, CheckoutInput("", shippingMethod), now) == Failure(CheckoutRefused)
  {
    var s := Next(CLOSED_SHOP, AddToCart(SHOPPER, 0, 1));
    StockInClosedShop();
    AddItemSpec([], CLOSED_SHOP.catalog, CLOSED_DEPOT, 0, 1);
    assert AddItem([], CLOSED_SHOP.catalog, CLOSED_DEPOT, 0, 1) == Success(s.carts[SHOPPER]);
    assert s.depot == CLOSED_DEPOT && CartOf(s.carts, SHOPPER) == s.carts[SHOPPER];
    Checkouts.CheckoutSucceedsIff(s, engine, SHOPPER, CheckoutInput("", shippingMethod), now);
  }

  // ---------- captured and unpaid ----------

  const CAPTURED := WebhookResult(true, "captured", Key(1), "", Some(Captured))
  const START := StartPayment(1, "stripe", ChargeResult(true, "ref"))

  lemma UndercutAfterStart()
    ensures var s := Run(TWO_ORDERS, [START, TAKE_ONE]);
            && s.depot.rows == [Stock(0, "main", 0, 1, 0)]
            && s.orders == [PAID_ORDER, PENDING_ORDER.(paymentProvider := "stripe", paymentReference := "ref")]
            && s.payments == [Payment(1, "stripe", PaymentPending, 100, "ref")]
  {
    TakingOneUndercuts();
    assert [START, TAKE_ONE][1..] == [TAKE_ONE] && [TAKE_ONE][1..] == [];
    assert Run(TWO_ORDERS, [START, TAKE_ONE]) == Run(Next(TWO_ORDERS, START), [TAKE_ONE]);
    assert Run(Next(TWO_ORDERS, START), [TAKE_ONE]) == Next(Next(TWO_ORDERS, START), TAKE_ONE);
  }

  lemma UndercutDoesNotFit()
    ensures var rows := [Stock(0, "main", 0, 1, 0)]; Greedy.Sound(rows) && !Fits(LINES, rows)
  {
    SumAppend(Plain(Committable), 0, [], Stock(0, "main", 0, 1, 0));
    assert [] + [Stock(0, "main", 0, 1, 0)] == [Stock(0, "main", 0, 1, 0)];
    OrdersInBreach();
    assert Demand(LINES, 0) > Sum(Plain(Committable), 0, [Stock(0, "main", 0, 1, 0)]);
  }

  /** A payment is started, an adjustment undercuts the order's reservation, the provider captures the money: the
      payment is marked captured and the order was never paid. */
  lemma CapturedButUnpaid(engine: Engine)
    ensures var s := Next(Run(TWO_ORDERS, [START, TAKE_ONE]), ReceiveWebhook(engine, "stripe", CAPTURED, 0));
            && |s.payments| == 1 && s.payments[0].order == 1 && s.payments[0].status == Captured
            && |s.orders| == 2 && Paid !in Path(s.orders[1].events)
  {
    var s := Run(TWO_ORDERS, [START, TAKE_ONE]);
    UndercutAfterStart();
    UndercutDoesNotFit();
    OrdersInBreach();
    PaymentUpdated(s, engine);
  }

  lemma PaymentUpdated(s: Shop, engine: Engine)
    requires Greedy.Sound(s.depot.rows) && |s.orders| == 2 && !Fits(s.orders[1].items, s.depot.rows)
    requires s.payments == [Payment(1, "stripe", PaymentPending, 100, "ref")] && Paid !in Path(s.orders[1].events)
    ensures var s' := Next(s, ReceiveWebhook(engine, "stripe", CAPTURED, 0));
            && |s'.payments| == 1 && s'.payments[0].order == 1 && s'.payments[0].status == Captured
            && |s'.orders| == 2 && Paid !in Path(s'.orders[1].events)
  {
    MatchOrderIff(s, CAPTURED);
    Webhooks.CapturedPaysIff(s, engine, "stripe", CAPTURED, 0, 1);
    MatchedWebhook(s, engine, "stripe", CAPTURED, 0, 1);
  }
}
