/** The rows that the services share, and the database that holds them.

    Money is an integer number of cents. A primary key of `Stock` or `Order` is the row's position in
    its table: both tables only ever grow. */
module Tables {
  import opened Prelude

  type VariantId = nat

  // ---------- inventory ----------

  datatype Warehouse = Warehouse(active: bool, priority: nat)

  type Warehouses = map<string, Warehouse>

  /** One variant in one warehouse. */
  datatype Stock = Stock(variant: VariantId, warehouse: string, onHand: int, reserved: int, safetyBuffer: nat) {
    /** What may still be reserved here. */
    function Available(): int {
      Max(onHand - reserved - safetyBuffer, 0)
    }
  }

  datatype Reason = Reservation | ReservationRelease | Sale | Adjustment

  /** A ledger line. `row` is the stock row it is about and `variant` that row's variant; `reference` is the
      order it was made for. */
  datatype Movement = Movement(row: nat, variant: VariantId, quantity: int, reason: Reason, reference: Option<nat>)

  /** The inventory application's tables. */
  datatype Depot = Depot(warehouses: Warehouses, rows: seq<Stock>, ledger: seq<Movement>)

  // ---------- catalogue and carts ----------

  datatype Listing = Listing(price: nat, active: bool)

  type Catalog = map<VariantId, Listing>

  /** A cart line. Deleting it only clears `alive`; the dead row keeps occupying (cart, variant). */
  datatype CartItem = CartItem(variant: VariantId, quantity: nat, unitPrice: nat, alive: bool)

  type Cart = seq<CartItem>

  /** Who a live cart belongs to. */
  datatype Owner = User(id: nat) | Guest(session: string)

  // ---------- coupons ----------

  datatype CouponKind = Percent | Fixed | FreeShipping

  /** `value` is in cents for a fixed coupon and in hundredths of a percent for a percent one. */
  datatype Coupon = Coupon(
    kind: CouponKind, value: nat, minSubtotal: nat, maxDiscount: Option<nat>,
    maxUses: nat, usedCount: nat, startsAt: Option<int>, endsAt: Option<int>, active: bool)

  // ---------- orders ----------

  datatype Status = Pending | Paid | Packed | Shipped | Delivered | Cancelled | Refunded

  datatype OrderItem = OrderItem(variant: VariantId, quantity: nat, unitPrice: nat, lineTotal: int)

  datatype Event = Created | StatusChanged(to: Status) | WebhookReceived(eventType: string)

  datatype Order = Order(
    status: Status, items: seq<OrderItem>, events: seq<Event>,
    subtotal: int, discount: int, shipping: int, tax: int, grand: int,
    coupon: Option<string>, paymentProvider: string, paymentReference: string,
    paidAt: Option<int>, cancelledAt: Option<int>, refundedAt: Option<int>)

  // ---------- payments ----------

  datatype PaymentStatus = PaymentPending | Authorized | Captured | Failed | PaymentCancelled | PaymentRefunded

  datatype Payment = Payment(order: nat, provider: string, status: PaymentStatus, amount: int, reference: string)

  /** Everything the services can change. */
  datatype Shop = Shop(
    depot: Depot, catalog: Catalog, carts: map<Owner, Cart>, coupons: map<string, Coupon>,
    orders: seq<Order>, payments: seq<Payment>)

  /** The tables as the services update them, in place. */
  class Database {
    var warehouses: Warehouses
    var rows: seq<Stock>
    var ledger: seq<Movement>
    var catalog: Catalog
    var carts: map<Owner, Cart>
    var coupons: map<string, Coupon>
    var orders: seq<Order>
    var payments: seq<Payment>

    function InventoryTables(): Depot
      reads this`warehouses, this`rows, this`ledger
    {
      Depot(warehouses, rows, ledger)
    }

    function AllTables(): Shop
      reads this
    {
      Shop(InventoryTables(), catalog, carts, coupons, orders, payments)
    }

    constructor (s: Shop)
      ensures AllTables() == s
    {
      warehouses, rows, ledger := s.depot.warehouses, s.depot.rows, s.depot.ledger;
      catalog, carts, coupons := s.catalog, s.carts, s.coupons;
      orders, payments := s.orders, s.payments;
    }

    /** Rolling the inventory tables back to a savepoint. */
    method RestoreDepot(d: Depot)
      requires d.warehouses == warehouses
      modifies this`rows, this`ledger
      ensures InventoryTables() == d
    {
      rows, ledger := d.rows, d.ledger;
    }

    /** Rolling every table back to a savepoint. */
    method Restore(s: Shop)
      modifies this
      ensures AllTables() == s
    {
      warehouses := s.depot.warehouses;
      RestoreDepot(s.depot);
      catalog, carts, coupons, orders, payments := s.catalog, s.carts, s.coupons, s.orders, s.payments;
    }
  }
}
