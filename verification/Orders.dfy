/** orders/models.py and orders/services.py: the status machine, what an order does to stock, and checkout. */
module Orders {
  import opened Prelude
  import opened Tables
  import opened Allocation
  import opened Greedy
  import opened Inventory
  import opened Carts
  import opened Pricing

  // ---------- the status machine ----------

  /** `Order.ALLOWED_TRANSITIONS`. */
  function AllowedTransitions(s: Status): set<Status> {
    match s
    case Pending => {Paid, Cancelled}
    case Paid => {Packed, Cancelled, Refunded}
    case Packed => {Shipped, Cancelled, Refunded}
    case Shipped => {Delivered, Refunded}
    case Delivered => {Refunded}
    case Cancelled => {}
    case Refunded => {}
  }

  predicate CanTransitionTo(o: Order, to: Status) {
    to in AllowedTransitions(o.status)
  }

  // ---------- orders against stock ----------

  /** How many units of a variant some order lines ask for. */
  function Demand(items: seq<OrderItem>, v: VariantId): nat {
    if items == [] then 0
    else (if items[0].variant == v then items[0].quantity else 0) + Demand(items[1..], v)
  }

  /** The loop of a checkout, a payment or a cancellation over an order's lines: all of them or none. */
  function Process(op: Operation, d: Depot, engine: Engine, items: seq<OrderItem>, order: nat): Result<Depot, Error>
    decreases |items|
  {
    if items == [] then Success(d)
    else
      match Perform(op, d, engine, items[0].variant, items[0].quantity, Some(order))
      case Failure(e) => Failure(e)
      case Success(d1) => Process(op, d1, engine, items[1..], order)
  }

  /** One line of the loop. */
  lemma ProcessStep(op: Operation, d: Depot, engine: Engine, items: seq<OrderItem>, k: nat, order: nat)
    requires k < |items|
    ensures Process(op, d, engine, items[k..], order) ==
            match Perform(op, d, engine, items[k].variant, items[k].quantity, Some(order))
            case Failure(e) => Failure(e)
            case Success(d1) => Process(op, d1, engine, items[k + 1..], order)
  {
    assert items[k..][1..] == items[k + 1..];
  }

  function Advance(o: Order, to: Status, now: int): Order {
    o.(status := to,
       events := o.events + [StatusChanged(to)],
       paidAt := if to == Paid then Some(now) else o.paidAt,
       cancelledAt := if to == Cancelled then Some(now) else o.cancelledAt,
       refundedAt := if to == Refunded then Some(now) else o.refundedAt)
  }

  /** What a transition does to stock: paying commits, cancelling releases, the rest leave it alone. */
  function StockEffect(d: Depot, engine: Engine, o: Order, id: nat, to: Status): Result<Depot, Error> {
    if to == Paid then Process(Committing, d, engine, o.items, id)
    else if to == Cancelled then Process(Releasing, d, engine, o.items, id)
    else Success(d)
  }

  function Transition(s: Shop, engine: Engine, id: nat, to: Status, now: int): Result<Shop, Error> {
    if id >= |s.orders| then Failure(DoesNotExist)
    else if !CanTransitionTo(s.orders[id], to) then Failure(CheckoutRefused)
    else
      match StockEffect(s.depot, engine, s.orders[id], id, to)
      case Failure(e) => Failure(e)
      case Success(d) => Success(s.(depot := d, orders := s.orders[id := Advance(s.orders[id], to, now)]))
  }

  // ---------- checkout ----------

  datatype CheckoutInput = CheckoutInput(couponCode: string, shippingMethod: string)

  /** One order line per live cart line. */
  function OrderItems(cart: Cart): seq<OrderItem> {
    if cart == [] then []
    else
      (if cart[0].alive then [OrderItem(cart[0].variant, cart[0].quantity, cart[0].unitPrice, LineTotal(cart[0]))] else [])
      + OrderItems(cart[1..])
  }

  /** The coupon exists, is switched on, has begun and not ended, and is not used up. */
  predicate CouponApplies(s: Shop, code: string, now: int) {
    && code in s.coupons
    && var c := s.coupons[code];
    && c.active && (c.startsAt == None || c.startsAt.value <= now) && (c.endsAt == None || now <= c.endsAt.value)
    && (c.maxUses == 0 || c.usedCount < c.maxUses)
  }

  /** The coupon a checkout applies: none, the named one, or a refusal. */
  function CouponFor(s: Shop, code: string, now: int): Result<Option<Coupon>, Error> {
    if code == "" then Success(None)
    else if code !in s.coupons || !IsValidNow(s.coupons[code], now) then Failure(CheckoutRefused)
    else Success(Some(s.coupons[code]))
  }

  function DiscountFor(c: Option<Coupon>, subtotal: int): int {
    if c.Some? then CalculateDiscount(c.value, subtotal) else 0
  }

  function NewOrder(cart: Cart, coupon: Option<Coupon>, input: CheckoutInput): Order {
    var subtotal := Subtotal(cart);
    var discount := DiscountFor(coupon, subtotal);
    var shipping := CalculateShipping(input.shippingMethod, subtotal - discount);
    Order(Pending, OrderItems(cart), [Created], subtotal, discount, shipping, CalculateTax(subtotal - discount + shipping),
          GrandTotal(subtotal, discount, input.shippingMethod), if coupon.Some? then Some(input.couponCode) else None,
          "", "", None, None, None)
  }

  /** `reserve_stock`'s shortage becomes a checkout error; its complaint about a quantity does not. */
  function AsCheckoutError(e: Error): Error {
    if e == OutOfStock then CheckoutRefused else e
  }

  /** The tables once every line is reserved: the order is written, its coupon counted and the cart emptied. */
  function Placed(s: Shop, d: Depot, owner: Owner, input: CheckoutInput, coupon: Option<Coupon>): Shop {
    var cart := CartOf(s.carts, owner);
    s.(depot := d,
       orders := s.orders + [NewOrder(cart, coupon, input)],
       coupons := if coupon.None? then s.coupons
                  else s.coupons[input.couponCode := coupon.value.(usedCount := coupon.value.usedCount + 1)],
       carts := s.carts[owner := ClearCart(cart)])
  }

  /** A checkout with its coupon chosen: reserve every line, then write the order, count the coupon and empty the
      cart. */
  function PlaceOrder(s: Shop, engine: Engine, owner: Owner, input: CheckoutInput, coupon: Option<Coupon>): Result<Shop, Error> {
    match Process(Reserving, s.depot, engine, OrderItems(CartOf(s.carts, owner)), |s.orders|)
    case Failure(e) => Failure(AsCheckoutError(e))
    case Success(d) => Success(Placed(s, d, owner, input, coupon))
  }

  function Checkout(s: Shop, engine: Engine, owner: Owner, input: CheckoutInput, now: int): Result<Shop, Error> {
    if OrderItems(CartOf(s.carts, owner)) == [] then Failure(CheckoutRefused)
    else
      match CouponFor(s, input.couponCode, now)
      case Failure(e) => Failure(e)
      case Success(coupon) => PlaceOrder(s, engine, owner, input, coupon)
  }

  // ---------- what processing an order's lines does ----------

  /** Booked as one: the lines together change stock and ledger like a single operation for this order. */
  lemma {:induction false} ProcessIsBooked(op: Operation, d: Depot, engine: Engine, items: seq<OrderItem>, order: nat)
    requires Process(op, d, engine, items, order).Success?
    ensures Booked(op, d, Process(op, d, engine, items, order).value, order)
    decreases |items|
  {
    if items == [] {
      BookedReflexive(op, d, order);
    } else {
      var it := items[0];
      var d1 := Perform(op, d, engine, it.variant, it.quantity, Some(order)).value;
      PerformIsBooked(op, d, engine, it.variant, it.quantity, order);
      ProcessIsBooked(op, d1, engine, items[1..], order);
      BookedTransitive(op, d, d1, Process(op, d1, engine, items[1..], order).value, order);
    }
  }

  /** What the lines took is no longer there to be taken. */
  lemma {:induction false} ProcessLowersSupply(op: Operation, d: Depot, engine: Engine, items: seq<OrderItem>, order: nat, v: VariantId)
    requires Process(op, d, engine, items, order).Success?
    ensures var d' := Process(op, d, engine, items, order).value;
            Supply(op, d', v) == Supply(op, d, v) - Taken(op, d, d', v)
    decreases |items|
  {
    if items != [] {
      var it := items[0];
      var d1 := Perform(op, d, engine, it.variant, it.quantity, Some(order)).value;
      PerformLowersSupply(op, d, engine, it.variant, it.quantity, Some(order), v);
      ProcessLowersSupply(op, d1, engine, items[1..], order, v);
      TakenSplits(op, d, d1, Process(op, d, engine, items, order).value, v);
    }
  }

  /** Of what is asked for, a release takes what there is, other operations all. */
  function Share(op: Operation, asked: int, supply: int): int {
    if op == Releasing then Min(asked, supply) else asked
  }

  /** Taking in two goes comes to the same as taking at once. */
  lemma ShareSplits(op: Operation, asked: nat, first: nat, rest: nat, supply: nat, left: int)
    requires asked == first + rest && left == supply - Share(op, first, supply)
    ensures Share(op, asked, supply) == Share(op, first, supply) + Share(op, rest, left)
  {
  }

  lemma PerformShare(op: Operation, d: Depot, engine: Engine, it: OrderItem, order: nat, v: VariantId)
    requires Sound(d.rows) && Perform(op, d, engine, it.variant, it.quantity, Some(order)).Success?
    ensures var d1 := Perform(op, d, engine, it.variant, it.quantity, Some(order)).value;
            && Sound(d1.rows)
            && Taken(op, d, d1, v) == Share(op, if it.variant == v then it.quantity else 0, Supply(op, d, v))
            && Supply(op, d1, v) == Supply(op, d, v) - Taken(op, d, d1, v)
  {
    SupplyNonnegative(op, d, v);
    PerformIsBooked(op, d, engine, it.variant, it.quantity, order);
    PerformTakes(op, d, engine, it.variant, it.quantity, Some(order), v);
    PerformLowersSupply(op, d, engine, it.variant, it.quantity, Some(order), v);
  }

  /** What the lines take of each variant: all they ask for, or, when releasing, as much of it as is reserved. */
  lemma {:induction false} ProcessTakes(op: Operation, d: Depot, engine: Engine, items: seq<OrderItem>, order: nat, v: VariantId)
    requires Sound(d.rows) && Process(op, d, engine, items, order).Success?
    ensures Taken(op, d, Process(op, d, engine, items, order).value, v) == Share(op, Demand(items, v), Supply(op, d, v))
    decreases |items|
  {
    SupplyNonnegative(op, d, v);
    if items != [] {
      var it := items[0];
      var d1 := Perform(op, d, engine, it.variant, it.quantity, Some(order)).value;
      var d2 := Process(op, d1, engine, items[1..], order).value;
      PerformShare(op, d, engine, it, order, v);
      ProcessTakes(op, d1, engine, items[1..], order, v);
      TakenSplits(op, d, d1, d2, v);
      ShareSplits(op, Demand(items, v), if it.variant == v then it.quantity else 0, Demand(items[1..], v),
                  Supply(op, d, v), Supply(op, d1, v));
      assert Process(op, d, engine, items, order).value == d2;
    }
  }

  lemma TakenSplits(op: Operation, d: Depot, d1: Depot, d2: Depot, v: VariantId)
    ensures Taken(op, d, d2, v) == Taken(op, d, d1, v) + Taken(op, d1, d2, v)
  {
  }

  lemma SupplyNonnegative(op: Operation, d: Depot, v: VariantId)
    requires Sound(d.rows)
    ensures Supply(op, d, v) >= 0
  {
    MeasureNonnegative(if op == Reserving then Reach(Available, d.warehouses, None) else Plain(Limit(op)), v, d.rows);
  }

  lemma {:induction false} MeasureNonnegative(m: Measure, v: VariantId, rows: seq<Stock>)
    requires Sound(rows)
    ensures Sum(m, v, rows) >= 0
  {
    if rows != [] {
      MeasureNonnegative(m, v, rows[..|rows| - 1]);
    }
  }

  /** The lines go through together exactly when no line is empty-handed on a reservation and every variant's supply
      covers what all the lines together ask of it. Releasing always goes through. */
  lemma {:induction false} ProcessSucceedsIff(op: Operation, d: Depot, engine: Engine, items: seq<OrderItem>, order: nat)
    requires Sound(d.rows)
    ensures Process(op, d, engine, items, order).Success? <==>
            && (op == Reserving ==> forall it :: it in items ==> it.quantity > 0)
            && (op != Releasing ==> forall v :: Demand(items, v) <= Supply(op, d, v))
    decreases |items|
  {
    forall v {
      SupplyNonnegative(op, d, v);
    }
    if items != [] {
      var it, rest := items[0], items[1..];
      assert items == [it] + rest;
      PerformSucceedsIff(op, d, engine, it.variant, it.quantity, Some(order));
      if Perform(op, d, engine, it.variant, it.quantity, Some(order)).Success? {
        var d1 := Perform(op, d, engine, it.variant, it.quantity, Some(order)).value;
        PerformIsBooked(op, d, engine, it.variant, it.quantity, order);
        ProcessSucceedsIff(op, d1, engine, rest, order);
        forall v ensures op != Releasing ==> Demand(items, v) - Supply(op, d, v) == Demand(rest, v) - Supply(op, d1, v) {
          PerformTakes(op, d, engine, it.variant, it.quantity, Some(order), v);
          PerformLowersSupply(op, d, engine, it.variant, it.quantity, Some(order), v);
        }
      } else {
        assert it in items;
        assert Demand(items, it.variant) >= it.quantity;
      }
    }
  }
}
