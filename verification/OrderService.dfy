/** orders/services.py as it runs: loops over an order's lines, inside transactions on the shared tables. */
module OrderService {
  import opened Prelude
  import opened Tables
  import opened Allocation
  import opened Greedy
  import opened Inventory
  import opened Carts
  import opened Pricing
  import opened Orders
  import InventoryService

  /** Turn an order's reservations into outflows; stops at the first shortage, leaving the rollback to the caller. */
  method CommitItems(db: Database, engine: Engine, items: seq<OrderItem>, id: nat) returns (r: Result<(), Error>)
    modifies db`rows, db`ledger
    ensures match Process(Committing, old(db.InventoryTables()), engine, items, id)
            case Success(d) => r == Success(()) && db.InventoryTables() == d
            case Failure(e) => r == Failure(e)
  {
    ghost var saved := db.InventoryTables();
    for k := 0 to |items|
      invariant db.warehouses == saved.warehouses
      invariant Process(Committing, saved, engine, items, id) == Process(Committing, db.InventoryTables(), engine, items[k..], id)
    {
      ProcessStep(Committing, db.InventoryTables(), engine, items, k, id);
      var sold := InventoryService.CommitSale(db, engine, items[k].variant, items[k].quantity, Some(id));
      if sold.Failure? {
        return sold;
      }
    }
    r := Success(());
  }

  /** Give an order's reservations back; this cannot fail. */
  method ReleaseItems(db: Database, engine: Engine, items: seq<OrderItem>, id: nat)
    modifies db`rows, db`ledger
    ensures Process(Releasing, old(db.InventoryTables()), engine, items, id) == Success(db.InventoryTables())
  {
    ghost var saved := db.InventoryTables();
    for k := 0 to |items|
      invariant Process(Releasing, saved, engine, items, id) == Process(Releasing, db.InventoryTables(), engine, items[k..], id)
    {
      ProcessStep(Releasing, db.InventoryTables(), engine, items, k, id);
      InventoryService.ReleaseReservation(db, engine, items[k].variant, items[k].quantity, Some(id));
    }
  }

  method TransitionStatus(db: Database, engine: Engine, id: nat, to: Status, now: int) returns (r: Result<(), Error>)
    modifies db`rows, db`ledger, db`orders
    ensures match Transition(old(db.AllTables()), engine, id, to, now)
            case Success(s) => r == Success(()) && db.AllTables() == s
            case Failure(e) => r == Failure(e) && db.AllTables() == old(db.AllTables())
  {
    if id >= |db.orders| {
      return Failure(DoesNotExist);
    }
    var order := db.orders[id];
    if to !in AllowedTransitions(order.status) {
      return Failure(CheckoutRefused);
    }
    order := order.(status := to);
    if to == Paid {
      order := order.(paidAt := Some(now));
      var saved := db.InventoryTables();
      var sold := CommitItems(db, engine, order.items, id);
      if sold.Failure? {
        db.RestoreDepot(saved);
        return sold;
      }
    } else if to == Cancelled {
      order := order.(cancelledAt := Some(now));
      ReleaseItems(db, engine, order.items, id);
    } else if to == Refunded {
      order := order.(refundedAt := Some(now));
    }
    order := order.(events := order.events + [StatusChanged(to)]);
    db.orders := db.orders[id := order];
    r := Success(());
  }

  /** The `try` around a reservation: a shortage becomes a checkout error. */
  method ReserveLine(db: Database, engine: Engine, line: OrderItem, id: nat) returns (r: Result<(), Error>)
    modifies db`rows, db`ledger
    ensures match Perform(Reserving, old(db.InventoryTables()), engine, line.variant, line.quantity, Some(id))
            case Success(d) => r == Success(()) && db.InventoryTables() == d
            case Failure(e) => r == Failure(AsCheckoutError(e)) && db.InventoryTables() == old(db.InventoryTables())
  {
    var reserved := InventoryService.ReserveStock(db, engine, line.variant, line.quantity, Some(id));
    if reserved.Failure? {
      return Failure(if reserved.error == OutOfStock then CheckoutRefused else reserved.error);
    }
    r := Success(());
  }

  /** Reserve the lines the cart shows and copy them into the order; stops at the first line that cannot be reserved,
      leaving the rollback to the caller. */
  method ReserveLines(db: Database, engine: Engine, lines: seq<OrderItem>, id: nat) returns (r: Result<seq<OrderItem>, Error>)
    modifies db`rows, db`ledger
    ensures match Process(Reserving, old(db.InventoryTables()), engine, lines, id)
            case Success(d) => r == Success(lines) && db.InventoryTables() == d
            case Failure(e) => r == Failure(AsCheckoutError(e))
  {
    ghost var saved := db.InventoryTables();
    var items: seq<OrderItem> := [];
    for k := 0 to |lines|
      invariant items == lines[..k]
      invariant Process(Reserving, saved, engine, lines, id) == Process(Reserving, db.InventoryTables(), engine, lines[k..], id)
    {
      var line := lines[k];
      assert lines[..k + 1] == lines[..k] + [line];
      ProcessStep(Reserving, db.InventoryTables(), engine, lines, k, id);
      var reserved := ReserveLine(db, engine, line, id);
      if reserved.Failure? {
        return Failure(reserved.error);
      }
      items := items + [line];
    }
    assert lines[..|lines|] == lines;
    r := Success(items);
  }

  /** The coupon a checkout applies, read under its row lock. */
  method SelectCoupon(db: Database, code: string, now: int) returns (r: Result<Option<Coupon>, Error>)
    ensures r == CouponFor(db.AllTables(), code, now)
    ensures r.Success? <==> (code != "" ==> CouponApplies(db.AllTables(), code, now))
    ensures r.Failure? ==> r.error == CheckoutRefused
  {
    if code == "" {
      return Success(None);
    }
    if code !in db.coupons || !IsValidNow(db.coupons[code], now) {
      return Failure(CheckoutRefused);
    }
    r := Success(Some(db.coupons[code]));
  }

  /** `Order.objects.create(...)`: priced, and still without lines and events. */
  method PriceOrder(cart: Cart, coupon: Option<Coupon>, input: CheckoutInput) returns (order: Order)
    ensures order == NewOrder(cart, coupon, input).(items := [], events := [])
    ensures order.subtotal == Subtotal(cart) && order.tax == 0
    ensures order.discount == if coupon.None? then 0 else CalculateDiscount(coupon.value, order.subtotal)
    ensures order.grand == order.subtotal - order.discount + order.shipping
  {
    var subtotal, discount := Subtotal(cart), 0;
    if coupon.Some? {
      discount := CalculateDiscount(coupon.value, subtotal);
    }
    var shipping := CalculateShipping(input.shippingMethod, subtotal - discount);
    var tax := CalculateTax(subtotal - discount + shipping);
    var grand := subtotal - discount + shipping + tax;
    var couponCode := if coupon.Some? then Some(input.couponCode) else None;
    order := Order(Pending, [], [], subtotal, discount, shipping, tax, grand, couponCode, "", "", None, None, None);
  }

  /** The tail of a checkout: complete the order row, count the coupon and empty the cart. */
  method Materialise(db: Database, owner: Owner, input: CheckoutInput, coupon: Option<Coupon>, order: Order, ghost before: Shop)
    requires owner in db.carts && db.orders != [] && order == NewOrder(db.carts[owner], coupon, input)
    requires db.AllTables() == before.(depot := db.InventoryTables(), orders := db.orders)
    requires db.orders[..|db.orders| - 1] == before.orders
    modifies db`orders, db`coupons, db`carts
    ensures db.AllTables() == Placed(before, old(db.InventoryTables()), owner, input, coupon)
  {
    db.orders := db.orders[|db.orders| - 1 := order];
    assert db.orders == before.orders + [order];
    if coupon.Some? {
      db.coupons := db.coupons[input.couponCode := coupon.value.(usedCount := coupon.value.usedCount + 1)];
    }
    db.carts := db.carts[owner := ClearCart(db.carts[owner])];
  }

  /** The part of a checkout that writes. */
  method WriteOrder(db: Database, engine: Engine, owner: Owner, input: CheckoutInput, coupon: Option<Coupon>)
    returns (r: Result<nat, Error>)
    requires owner in db.carts
    modifies db
    ensures match PlaceOrder(old(db.AllTables()), engine, owner, input, coupon)
            case Success(s) => r == Success(|old(db.orders)|) && db.AllTables() == s
            case Failure(e) => r == Failure(e) && db.AllTables() == old(db.AllTables())
  {
    var saved, id, cart := db.AllTables(), |db.orders|, db.carts[owner];
    var order := PriceOrder(cart, coupon, input);
    db.orders := db.orders + [order];
    var reserved := ReserveLines(db, engine, OrderItems(cart), id);
    if reserved.Failure? {
      db.Restore(saved);
      return Failure(reserved.error);
    }
    order := order.(items := reserved.value, events := [Created]);
    Materialise(db, owner, input, coupon, order, saved);
    r := Success(id);
  }

  method CreateOrderFromCart(db: Database, engine: Engine, owner: Owner, input: CheckoutInput, now: int)
    returns (r: Result<nat, Error>)
    requires owner in db.carts
    modifies db
    ensures match Checkout(old(db.AllTables()), engine, owner, input, now)
            case Success(s) => r == Success(|old(db.orders)|) && db.AllTables() == s
            case Failure(e) => r == Failure(e) && db.AllTables() == old(db.AllTables())
  {
    if OrderItems(db.carts[owner]) == [] {
      return Failure(CheckoutRefused);
    }
    var coupon := SelectCoupon(db, input.couponCode, now);
    if coupon.Failure? {
      return Failure(coupon.error);
    }
    r := WriteOrder(db, engine, owner, input, coupon.value);
  }
}
