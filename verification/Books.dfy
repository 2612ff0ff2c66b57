/** What stock, ledger and orders keep saying about each other while single services run. */
module Books {
  import opened Prelude
  import opened Tables
  import opened Allocation
  import opened Ledger
  import opened Greedy
  import opened Inventory
  import opened Orders
  import opened Lifecycle

  // ---------- units over orders ----------

  /** Outstanding units are promised to pending orders; sold units belong to orders that were ever paid. */
  datatype Kind = Outstanding | Sold

  predicate Counts(k: Kind, o: Order) {
    match k
    case Outstanding => o.status == Pending
    case Sold => Paid in Path(o.events)
  }

  function UnitsOf(k: Kind, o: Order, v: VariantId): nat {
    if Counts(k, o) then Demand(o.items, v) else 0
  }

  function Units(k: Kind, orders: seq<Order>, v: VariantId): nat {
    if orders == [] then 0
    else Units(k, orders[..|orders| - 1], v) + UnitsOf(k, orders[|orders| - 1], v)
  }

  lemma {:induction false} UnitsUpdate(k: Kind, orders: seq<Order>, v: VariantId, i: nat, o: Order)
    requires i < |orders|
    ensures Units(k, orders[i := o], v) == Units(k, orders, v) - UnitsOf(k, orders[i], v) + UnitsOf(k, o, v)
    ensures Units(k, orders, v) >= UnitsOf(k, orders[i], v)
  {
    var last := |orders| - 1;
    if i == last {
      assert orders[i := o][..last] == orders[..last];
    } else {
      UnitsUpdate(k, orders[..last], v, i, o);
      assert orders[i := o][..last] == orders[..last][i := o];
    }
  }

  lemma UnitsAppend(k: Kind, orders: seq<Order>, v: VariantId, o: Order)
    ensures Units(k, orders + [o], v) == Units(k, orders, v) + UnitsOf(k, o, v)
  {
    assert (orders + [o])[..|orders|] == orders;
  }

  lemma {:induction false} UnitsSame(k: Kind, orders: seq<Order>, orders': seq<Order>, v: VariantId)
    requires |orders| == |orders'| && forall i :: 0 <= i < |orders| ==> UnitsOf(k, orders[i], v) == UnitsOf(k, orders'[i], v)
    ensures Units(k, orders, v) == Units(k, orders', v)
  {
    if orders != [] {
      UnitsSame(k, orders[..|orders| - 1], orders'[..|orders| - 1], v);
    }
  }

  // ---------- the invariant ----------

  function OnShelf(s: Shop, v: VariantId): int {
    Sum(Plain(OnHand), v, s.depot.rows)
  }

  function InReserve(s: Shop, v: VariantId): int {
    Sum(Plain(Reserved), v, s.depot.rows)
  }

  /** The ledger about one order and variant: all of it was reserved; all of it was sold if the order was ever paid,
      else nothing; and something may have been released only if it was cancelled, never more than ordered. */
  ghost predicate Filed(ledger: seq<Movement>, id: nat, o: Order, v: VariantId) {
    && Tally(ledger, Reservation, id, v) == 0 - Demand(o.items, v)
    && Tally(ledger, Sale, id, v) == 0 - UnitsOf(Sold, o, v)
    && 0 <= Tally(ledger, ReservationRelease, id, v) <= Demand(o.items, v)
    && (Tally(ledger, ReservationRelease, id, v) > 0 ==> o.status == Cancelled)
  }

  ghost predicate LedgerFiled(ledger: seq<Movement>, orders: seq<Order>) {
    && (forall id, v :: 0 <= id < |orders| ==> Filed(ledger, id, orders[id], v))
    && (forall id, reason, v :: id >= |orders| ==> Tally(ledger, reason, id, v) == 0)
  }

  /** Every ledger line is about an existing row and names that row's variant. */
  ghost predicate LedgerRefers(d: Depot) {
    forall m :: m in d.ledger ==> m.row < |d.rows| && m.variant == d.rows[m.row].variant
  }

  ghost predicate BooksAgree(s: Shop) {
    && Sound(s.depot.rows)
    && LedgerRefers(s.depot)
    && (forall i :: 0 <= i < |s.orders| ==> Consistent(s.orders[i]))
    && LedgerFiled(s.depot.ledger, s.orders)
  }

  // ---------- adjusting ----------

  lemma AdjustKeepsBooks(s: Shop, v: VariantId, code: string, delta: int)
    requires BooksAgree(s) && Adjust(s.depot, v, code, delta).Success?
    ensures BooksAgree(s.(depot := Adjust(s.depot, v, code, delta).value))
  {
    var d' := Adjust(s.depot, v, code, delta).value;
    AdjustKeeps(s.depot, v, code, delta);
    AdjustLogs(s.depot, v, code, delta);
    GrownLedger(s.depot, d');
    forall reason, o, u ensures Tally(d'.ledger, reason, o, u) == Tally(s.depot.ledger, reason, o, u) {
      TallyConcat(s.depot.ledger, News(s.depot, d'), reason, o, u);
    }
    forall id, u | 0 <= id < |s.orders| ensures Filed(d'.ledger, id, s.orders[id], u) {
      assert Filed(s.depot.ledger, id, s.orders[id], u);
    }
  }

  lemma GrownLedger(d: Depot, d': Depot)
    requires d.ledger <= d'.ledger
    ensures d'.ledger == d.ledger + News(d, d')
    ensures forall m :: m in d'.ledger <==> m in d.ledger || m in News(d, d')
  {
  }

  // ---------- moving stock for one order ----------

  /** Structure first: sound rows, and a ledger that refers to them. */
  lemma StructuredKeeps(d: Depot, d': Depot)
    requires Structured(d, d') && Sound(d.rows) && LedgerRefers(d)
    ensures Sound(d'.rows) && LedgerRefers(d')
  {
    GrownLedger(d, d');
    assert forall i :: 0 <= i < |d.rows| ==> SameRow(d.rows[i], d'.rows[i]);
  }

  /** Only the order's own line of the ledger's books moves, and only under the operation's heading. */
  lemma TallyAfter(op: Operation, d: Depot, d': Depot, order: nat, reason: Reason, id: nat, v: VariantId)
    requires Booked(op, d, d', order)
    ensures Tally(d'.ledger, reason, id, v) ==
            Tally(d.ledger, reason, id, v) + if reason == ReasonFor(op) && id == order then Signed(op, Taken(op, d, d', v)) else 0
  {
    GrownLedger(d, d');
    TallyConcat(d.ledger, News(d, d'), reason, id, v);
  }

  /** What an order's lines add to the books of any order, read off the lines themselves. */
  lemma ProcessTally(op: Operation, d: Depot, engine: Engine, items: seq<OrderItem>, order: nat, reason: Reason, id: nat, v: VariantId)
    requires Sound(d.rows) && Process(op, d, engine, items, order).Success?
    ensures Tally(Process(op, d, engine, items, order).value.ledger, reason, id, v) ==
            Tally(d.ledger, reason, id, v) +
            if reason == ReasonFor(op) && id == order then Signed(op, Share(op, Demand(items, v), Supply(op, d, v))) else 0
  {
    ProcessIsBooked(op, d, engine, items, order);
    ProcessTakes(op, d, engine, items, order, v);
    TallyAfter(op, d, Process(op, d, engine, items, order).value, order, reason, id, v);
  }

  lemma ProcessKeepsStructure(op: Operation, d: Depot, engine: Engine, items: seq<OrderItem>, order: nat)
    requires Sound(d.rows) && LedgerRefers(d) && Process(op, d, engine, items, order).Success?
    ensures var d' := Process(op, d, engine, items, order).value;
            Sound(d'.rows) && LedgerRefers(d')
  {
    ProcessIsBooked(op, d, engine, items, order);
    StructuredKeeps(d, Process(op, d, engine, items, order).value);
  }

  // ---------- a status transition ----------

  /** The operation of a transition that moves stock. */
  function MovingStock(to: Status): Operation {
    if to == Paid then Committing else Releasing
  }

  lemma TransitionTally(d: Depot, engine: Engine, o: Order, id: nat, to: Status, reason: Reason, other: nat, v: VariantId)
    requires Sound(d.rows) && StockEffect(d, engine, o, id, to).Success?
    ensures Tally(StockEffect(d, engine, o, id, to).value.ledger, reason, other, v) ==
            Tally(d.ledger, reason, other, v) +
            if other != id then 0
            else if to == Paid && reason == Sale then 0 - Demand(o.items, v)
            else if to == Cancelled && reason == ReservationRelease then Min(Demand(o.items, v), Supply(Releasing, d, v))
            else 0
  {
    if to == Paid || to == Cancelled {
      ProcessTally(MovingStock(to), d, engine, o.items, id, reason, other, v);
    }
  }

  /** Where an order stands before a transition: nothing sold unless it was paid, and then it is not paid again;
      nothing released yet. */
  lemma BeforeTransition(o: Order, to: Status, now: int, v: VariantId)
    requires Consistent(o) && CanTransitionTo(o, to)
    ensures UnitsOf(Sold, Advance(o, to, now), v) == UnitsOf(Sold, o, v) + if to == Paid then Demand(o.items, v) else 0
    ensures o.status != Cancelled
  {
    AdvanceKeepsConsistent(o, to, now);
    LegalPathShape(Path(o.events) + [to]);
  }

  /** Paying sells everything; cancelling releases what is there; other transitions leave stock alone. */
  lemma TransitionFiles(d: Depot, engine: Engine, o: Order, id: nat, to: Status, now: int, v: VariantId)
    requires Sound(d.rows) && Consistent(o) && CanTransitionTo(o, to) && Filed(d.ledger, id, o, v)
    requires StockEffect(d, engine, o, id, to).Success?
    ensures Filed(StockEffect(d, engine, o, id, to).value.ledger, id, Advance(o, to, now), v)
  {
    BeforeTransition(o, to, now, v);
    SupplyNonnegative(Releasing, d, v);
    TransitionTally(d, engine, o, id, to, Reservation, id, v);
    TransitionTally(d, engine, o, id, to, Sale, id, v);
    TransitionTally(d, engine, o, id, to, ReservationRelease, id, v);
  }

  lemma TransitionKeepsOthers(d: Depot, engine: Engine, o: Order, id: nat, to: Status, other: nat, p: Order, v: VariantId)
    requires Sound(d.rows) && StockEffect(d, engine, o, id, to).Success? && other != id && Filed(d.ledger, other, p, v)
    ensures Filed(StockEffect(d, engine, o, id, to).value.ledger, other, p, v)
  {
    TransitionTally(d, engine, o, id, to, Reservation, other, v);
    TransitionTally(d, engine, o, id, to, Sale, other, v);
    TransitionTally(d, engine, o, id, to, ReservationRelease, other, v);
  }

  lemma TransitionKeepsStructure(d: Depot, engine: Engine, o: Order, id: nat, to: Status)
    requires Sound(d.rows) && LedgerRefers(d) && StockEffect(d, engine, o, id, to).Success?
    ensures var d' := StockEffect(d, engine, o, id, to).value;
            Sound(d'.rows) && LedgerRefers(d')
  {
    if to == Paid || to == Cancelled {
      ProcessKeepsStructure(MovingStock(to), d, engine, o.items, id);
    }
  }

  lemma TransitionKeepsFiles(s: Shop, engine: Engine, id: nat, to: Status, now: int)
    requires BooksAgree(s) && id < |s.orders| && CanTransitionTo(s.orders[id], to)
    requires StockEffect(s.depot, engine, s.orders[id], id, to).Success?
    ensures LedgerFiled(StockEffect(s.depot, engine, s.orders[id], id, to).value.ledger, s.orders[id := Advance(s.orders[id], to, now)])
  {
    var o := s.orders[id];
    var ledger, orders := StockEffect(s.depot, engine, o, id, to).value.ledger, s.orders[id := Advance(o, to, now)];
    forall other, v | 0 <= other < |s.orders| ensures Filed(ledger, other, orders[other], v) {
      if other == id {
        TransitionFiles(s.depot, engine, o, id, to, now, v);
      } else {
        TransitionKeepsOthers(s.depot, engine, o, id, to, other, s.orders[other], v);
      }
    }
    forall other, reason, v | other >= |s.orders| ensures Tally(ledger, reason, other, v) == 0 {
      TransitionTally(s.depot, engine, o, id, to, reason, other, v);
    }
  }

  lemma TransitionKeepsBooks(s: Shop, engine: Engine, id: nat, to: Status, now: int)
    requires BooksAgree(s) && Transition(s, engine, id, to, now).Success?
    ensures BooksAgree(Transition(s, engine, id, to, now).value)
  {
    TransitionKeepsStructure(s.depot, engine, s.orders[id], id, to);
    TransitionKeepsFiles(s, engine, id, to, now);
    AdvanceKeepsConsistent(s.orders[id], to, now);
  }

  // ---------- a checkout ----------

  /** What a checkout does to orders and stock: it adds one fresh order and reserves its lines. */
  lemma CheckoutShape(s: Shop, engine: Engine, owner: Owner, input: CheckoutInput, now: int) returns (o: Order)
    requires Checkout(s, engine, owner, input, now).Success?
    ensures var s' := Checkout(s, engine, owner, input, now).value;
            && s'.orders == s.orders + [o]
            && o.items == OrderItems(Carts.CartOf(s.carts, owner))
            && Process(Reserving, s.depot, engine, o.items, |s.orders|) == Success(s'.depot)
    ensures o.status == Pending && o.events == [Created] && o.paidAt == o.cancelledAt == o.refundedAt == None
  {
    o := NewOrder(Carts.CartOf(s.carts, owner), CouponFor(s, input.couponCode, now).value, input);
  }

  lemma FreshIsConsistent(o: Order)
    requires o.status == Pending && o.events == [Created] && o.paidAt == o.cancelledAt == o.refundedAt == None
    ensures Consistent(o) && Path(o.events) == [Pending]
  {
    PathAppend([], Created);
    assert [] + [Created] == o.events;
  }

  /** The books of the new order. */
  lemma CheckoutFiles(d: Depot, engine: Engine, o: Order, id: nat, v: VariantId)
    requires Sound(d.rows) && Process(Reserving, d, engine, o.items, id).Success?
    requires o.status == Pending && Path(o.events) == [Pending] && forall reason :: Tally(d.ledger, reason, id, v) == 0
    ensures Filed(Process(Reserving, d, engine, o.items, id).value.ledger, id, o, v)
  {
    ProcessTally(Reserving, d, engine, o.items, id, Reservation, id, v);
    ProcessTally(Reserving, d, engine, o.items, id, Sale, id, v);
    ProcessTally(Reserving, d, engine, o.items, id, ReservationRelease, id, v);
  }

  /** The books of the older ones. */
  lemma CheckoutKeepsOthers(d: Depot, engine: Engine, items: seq<OrderItem>, id: nat, other: nat, p: Order, v: VariantId)
    requires Sound(d.rows) && Process(Reserving, d, engine, items, id).Success? && other != id && Filed(d.ledger, other, p, v)
    ensures Filed(Process(Reserving, d, engine, items, id).value.ledger, other, p, v)
  {
    ProcessTally(Reserving, d, engine, items, id, Reservation, other, v);
    ProcessTally(Reserving, d, engine, items, id, Sale, other, v);
    ProcessTally(Reserving, d, engine, items, id, ReservationRelease, other, v);
  }

  lemma CheckoutKeepsFiles(s: Shop, engine: Engine, o: Order)
    requires BooksAgree(s) && Process(Reserving, s.depot, engine, o.items, |s.orders|).Success?
    requires o.status == Pending && Path(o.events) == [Pending]
    ensures LedgerFiled(Process(Reserving, s.depot, engine, o.items, |s.orders|).value.ledger, s.orders + [o])
  {
    var ledger, id := Process(Reserving, s.depot, engine, o.items, |s.orders|).value.ledger, |s.orders|;
    forall other, v | 0 <= other < |s.orders + [o]| ensures Filed(ledger, other, (s.orders + [o])[other], v) {
      if other == id {
        CheckoutFiles(s.depot, engine, o, id, v);
      } else {
        CheckoutKeepsOthers(s.depot, engine, o.items, id, other, s.orders[other], v);
      }
    }
    forall other, reason, v | other >= |s.orders + [o]| ensures Tally(ledger, reason, other, v) == 0 {
      ProcessTally(Reserving, s.depot, engine, o.items, id, reason, other, v);
    }
  }

  lemma CheckoutKeepsBooks(s: Shop, engine: Engine, owner: Owner, input: CheckoutInput, now: int)
    requires BooksAgree(s) && Checkout(s, engine, owner, input, now).Success?
    ensures BooksAgree(Checkout(s, engine, owner, input, now).value)
  {
    var o := CheckoutShape(s, engine, owner, input, now);
    FreshIsConsistent(o);
    ProcessKeepsStructure(Reserving, s.depot, engine, o.items, |s.orders|);
    CheckoutKeepsFiles(s, engine, o);
  }
}
