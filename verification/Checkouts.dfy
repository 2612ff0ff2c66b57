/** What a checkout makes of a cart, when it goes through, and what it leaves of the cart for later. */
module Checkouts {
  import opened Prelude
  import opened Tables
  import opened Allocation
  import opened Greedy
  import opened Inventory
  import opened Availability
  import opened Carts
  import opened Pricing
  import opened Orders
  import opened Books
  import opened Runs
  import opened Conservation

  // ---------- from cart to order ----------

  function LinesTotal(items: seq<OrderItem>): int {
    if items == [] then 0 else items[0].lineTotal + LinesTotal(items[1..])
  }

  lemma {:induction false} DemandConcat(a: seq<OrderItem>, b: seq<OrderItem>, v: VariantId)
    ensures Demand(a + b, v) == Demand(a, v) + Demand(b, v)
    ensures LinesTotal(a + b) == LinesTotal(a) + LinesTotal(b)
  {
    if a == [] {
      assert a + b == b;
    } else {
      assert (a + b)[1..] == a[1..] + b;
      DemandConcat(a[1..], b, v);
    }
  }

  /** The order asks for what the cart shows, line totals included. */
  lemma {:induction false} OrderShowsCart(cart: Cart, v: VariantId)
    requires Tidy(cart)
    ensures Demand(OrderItems(cart), v) == QuantityIn(cart, v)
    ensures LinesTotal(OrderItems(cart)) == Subtotal(cart)
    ensures forall it :: it in OrderItems(cart) ==> it.quantity > 0 && it.lineTotal == it.unitPrice * it.quantity
    ensures OrderItems(cart) == [] <==> forall i :: 0 <= i < |cart| ==> !cart[i].alive
  {
    if cart != [] {
      var head, rest := cart[0], cart[1..];
      assert cart == [head] + rest;
      OrderShowsCart(rest, v);
      TailRows(cart);
      if head.alive {
        var item := OrderItem(head.variant, head.quantity, head.unitPrice, LineTotal(head));
        DemandConcat([item], OrderItems(rest), v);
        assert [item][1..] == [];
      } else {
        assert [] + OrderItems(rest) == OrderItems(rest);
      }
    }
  }

  /** Active warehouses have every variant's units available. */
  ghost predicate CanReserve(cart: Cart, d: Depot) {
    forall v :: QuantityIn(cart, v) <= Sum(Reach(Available, d.warehouses, None), v, d.rows)
  }

  lemma CouponForIff(s: Shop, code: string, now: int)
    ensures CouponFor(s, code, now).Success? <==> (code != "" ==> CouponApplies(s, code, now))
    ensures CouponFor(s, code, now).Failure? ==> CouponFor(s, code, now).error == CheckoutRefused
  {
  }

  /** A checkout of a tidy cart goes through exactly when the cart shows something, its coupon applies, and every
      variant's units fit into what active warehouses have available. Whatever stops it is a refusal: the quantity
      check of `reserve_stock` never fires. */
  lemma CheckoutSucceedsIff(s: Shop, engine: Engine, owner: Owner, input: CheckoutInput, now: int)
    requires Sound(s.depot.rows) && Tidy(CartOf(s.carts, owner))
    ensures var cart, r := CartOf(s.carts, owner), Checkout(s, engine, owner, input, now);
            && (r.Success? <==>
                && (exists i :: 0 <= i < |cart| && cart[i].alive)
                && (input.couponCode != "" ==> CouponApplies(s, input.couponCode, now))
                && CanReserve(cart, s.depot))
            && (r.Failure? ==> r.error == CheckoutRefused)
  {
    var cart := CartOf(s.carts, owner);
    OrderShowsCart(cart, 0);
    LinesReservableIff(s.depot, engine, cart, |s.orders|);
    CouponForIff(s, input.couponCode, now);
  }

  /** What a cart shows can be reserved exactly if active warehouses have it available; nothing but a shortage can be in
      the way. */
  lemma LinesReservableIff(d: Depot, engine: Engine, cart: Cart, order: nat)
    requires Sound(d.rows) && Tidy(cart)
    ensures var r := Process(Reserving, d, engine, OrderItems(cart), order);
            && (r.Success? <==> CanReserve(cart, d))
            && (r.Failure? ==> r.error == OutOfStock)
  {
    OrderShowsCart(cart, 0);
    forall v ensures Demand(OrderItems(cart), v) == QuantityIn(cart, v) {
      OrderShowsCart(cart, v);
    }
    forall v ensures Supply(Reserving, d, v) == Sum(Reach(Available, d.warehouses, None), v, d.rows) {
    }
    ProcessSucceedsIff(Reserving, d, engine, OrderItems(cart), order);
    ProcessFailsFor(Reserving, d, engine, OrderItems(cart), order);
  }

  /** Positive quantities to reserve leave a shortage as the only thing that can go wrong. */
  lemma {:induction false} ProcessFailsFor(op: Operation, d: Depot, engine: Engine, items: seq<OrderItem>, order: nat)
    requires op == Reserving ==> forall it :: it in items ==> it.quantity > 0
    ensures var r := Process(op, d, engine, items, order); r.Failure? ==> r.error == OutOfStock
    decreases |items|
  {
    if items != [] {
      assert items[0] in items;
      var r := Perform(op, d, engine, items[0].variant, items[0].quantity, Some(order));
      if r.Success? {
        ProcessFailsFor(op, r.value, engine, items[1..], order);
      }
    }
  }

  /** What shipping costs a basket of so many cents after its discount. */
  predicate ShippingIs(shippingMethod: string, payable: int, shipping: int) {
    && (payable >= 20000 ==> shipping == 0)
    && (payable < 20000 ==>
          && (shippingMethod == "pickup" ==> shipping == 0)
          && (shippingMethod == "express" ==> shipping == 1999)
          && (shippingMethod != "pickup" && shippingMethod != "express" ==> shipping == 999))
  }

  /** The bill of a successful checkout: its lines add up to the subtotal; the coupon named, and no other, takes off
      its discount; shipping goes by method and by what is left to pay; there is no tax; and all this adds up to the
      grand total, which with a well-formed coupon is never negative. */
  lemma CheckoutBill(s: Shop, engine: Engine, owner: Owner, input: CheckoutInput, now: int)
    requires Tidy(CartOf(s.carts, owner)) && Checkout(s, engine, owner, input, now).Success?
    ensures var s' := Checkout(s, engine, owner, input, now).value;
            && |s'.orders| == |s.orders| + 1 && s'.orders[..|s.orders|] == s.orders
            && var o := s'.orders[|s.orders|];
            && o.status == Pending && o.events == [Created]
            && o.paymentProvider == "" && o.paymentReference == "" && o.paidAt == o.cancelledAt == o.refundedAt == None
            && LinesTotal(o.items) == o.subtotal == Subtotal(CartOf(s.carts, owner))
            && (input.couponCode == "" ==> o.coupon == None && o.discount == 0)
            && (input.couponCode != "" ==>
                  && o.coupon == Some(input.couponCode) && input.couponCode in s.coupons
                  && o.discount == CalculateDiscount(s.coupons[input.couponCode], o.subtotal))
            && ShippingIs(input.shippingMethod, o.subtotal - o.discount, o.shipping)
            && o.tax == 0
            && o.grand == o.subtotal - o.discount + o.shipping + o.tax
            && o.grand == GrandTotal(o.subtotal, o.discount, input.shippingMethod)
            && ((input.couponCode != "" ==> WellFormed(s.coupons[input.couponCode])) ==> 0 <= o.discount <= o.subtotal && o.grand >= 0)
  {
    var cart := CartOf(s.carts, owner);
    var coupon := CouponFor(s, input.couponCode, now).value;
    assert Checkout(s, engine, owner, input, now).value.orders == s.orders + [NewOrder(cart, coupon, input)];
    NewOrderBill(cart, coupon, input);
  }

  lemma NewOrderBill(cart: Cart, coupon: Option<Coupon>, input: CheckoutInput)
    requires Tidy(cart)
    ensures var o := NewOrder(cart, coupon, input);
            && LinesTotal(o.items) == o.subtotal == Subtotal(cart)
            && o.discount == (if coupon.None? then 0 else CalculateDiscount(coupon.value, o.subtotal))
            && ShippingIs(input.shippingMethod, o.subtotal - o.discount, o.shipping) && o.tax == 0
            && o.grand == o.subtotal - o.discount + o.shipping + o.tax
            && ((coupon.Some? ==> WellFormed(coupon.value)) ==> 0 <= o.discount <= o.subtotal && o.grand >= 0)
  {
    OrderShowsCart(cart, 0);
    if coupon.Some? && WellFormed(coupon.value) {
      DiscountBounds(coupon.value, Subtotal(cart));
    }
  }

  /** The order has one line per variant that the cart shows, with the cart's quantity and price, and no other line. */
  lemma {:induction false} OrderLinesAreCartLines(cart: Cart)
    requires Tidy(cart)
    ensures forall it :: it in OrderItems(cart) ==>
              && IsLive(cart, it.variant)
              && var line := cart[RowOf(cart, it.variant)];
              it.quantity == line.quantity && it.unitPrice == line.unitPrice && it.lineTotal == line.unitPrice * line.quantity
    ensures forall v :: IsLive(cart, v) ==> exists it :: it in OrderItems(cart) && it.variant == v
    ensures forall i, j :: 0 <= i < j < |OrderItems(cart)| ==> OrderItems(cart)[i].variant != OrderItems(cart)[j].variant
  {
    if cart != [] {
      var head, rest := cart[0], cart[1..];
      assert cart == [head] + rest;
      OrderLinesAreCartLines(rest);
      TailRows(cart);
      var items := OrderItems(cart);
      forall i, j | 0 <= i < j < |items| ensures items[i].variant != items[j].variant {
        LinesApart(head, OrderItems(rest), rest, items, i, j);
      }
      forall v | IsLive(cart, v) ensures exists it :: it in items && it.variant == v {
        if v == head.variant {
          assert items[0].variant == v;
        } else {
          var it :| it in OrderItems(rest) && it.variant == v;
          assert it in items;
        }
      }
    }
  }

  lemma LinesApart(head: CartItem, later: seq<OrderItem>, rest: Cart, items: seq<OrderItem>, i: nat, j: nat)
    requires i < j < |items| && Tidy([head] + rest)
    requires items == if head.alive then [OrderItem(head.variant, head.quantity, head.unitPrice, LineTotal(head))] + later else later
    requires forall a, b :: 0 <= a < b < |later| ==> later[a].variant != later[b].variant
    requires forall it :: it in later ==> IsLive(rest, it.variant)
    ensures items[i].variant != items[j].variant
  {
    if head.alive {
      assert items[j] == later[j - 1];
      assert later[j - 1] in later;
      var k := RowOf(rest, items[j].variant);
      assert ([head] + rest)[k + 1] == rest[k] && ([head] + rest)[0] == head;
    }
  }

  /** A successful checkout reserves exactly the cart's units and no others, takes nothing off the shelf, empties the
      cart, and leaves other carts, the catalogue and the payments as they were. */
  lemma CheckoutBalances(s: Shop, engine: Engine, owner: Owner, input: CheckoutInput, now: int, v: VariantId)
    requires Sound(s.depot.rows) && Tidy(CartOf(s.carts, owner)) && Checkout(s, engine, owner, input, now).Success?
    ensures var cart, s' := CartOf(s.carts, owner), Checkout(s, engine, owner, input, now).value;
            && Demand(s'.orders[|s.orders|].items, v) == QuantityIn(cart, v)
            && InReserve(s', v) == InReserve(s, v) + QuantityIn(cart, v)
            && OnShelf(s', v) == OnShelf(s, v)
            && GetAvailable(s'.depot, v) == GetAvailable(s.depot, v) - QuantityIn(cart, v)
            && TotalItems(s'.carts[owner]) == 0
            && s'.carts == s.carts[owner := s'.carts[owner]]
            && s'.catalog == s.catalog && s'.payments == s.payments
  {
    var cart := CartOf(s.carts, owner);
    OrderShowsCart(cart, v);
    ProcessIsBooked(Reserving, s.depot, engine, OrderItems(cart), |s.orders|);
    ProcessTakes(Reserving, s.depot, engine, OrderItems(cart), |s.orders|, v);
    ProcessAvailable(Reserving, s.depot, engine, OrderItems(cart), |s.orders|, v);
    ClearCartEmpty(cart);
  }

  /** It counts the coupon named, once, and changes no coupon otherwise. */
  lemma CheckoutCounts(s: Shop, engine: Engine, owner: Owner, input: CheckoutInput, now: int)
    requires Checkout(s, engine, owner, input, now).Success?
    ensures var s' := Checkout(s, engine, owner, input, now).value;
            && s'.coupons.Keys == s.coupons.Keys
            && forall code :: code in s.coupons ==>
                 s'.coupons[code] == s.coupons[code].(usedCount := s.coupons[code].usedCount + if code == input.couponCode && code != "" then 1 else 0)
  {
  }

  // ---------- availability of whole orders ----------

  /** Reserving an order lowers what is available by what it asks for, selling it changes nothing, and on healthy
      stock releasing it gives back what was released. */
  lemma {:induction false} ProcessAvailable(op: Operation, d: Depot, engine: Engine, items: seq<OrderItem>, order: nat, v: VariantId)
    requires Sound(d.rows) && Process(op, d, engine, items, order).Success?
    requires op == Releasing ==> Healthy(d.rows)
    ensures var d' := Process(op, d, engine, items, order).value;
            && (op == Reserving ==> GetAvailable(d', v) == GetAvailable(d, v) - Demand(items, v))
            && (op == Committing ==> GetAvailable(d', v) == GetAvailable(d, v))
            && (op == Releasing ==> GetAvailable(d', v) == GetAvailable(d, v) + Taken(op, d, d', v))
    decreases |items|
  {
    if items != [] {
      var it := items[0];
      var d1 := Perform(op, d, engine, it.variant, it.quantity, Some(order)).value;
      PerformIsBooked(op, d, engine, it.variant, it.quantity, order);
      PerformAvailable(op, d, engine, it.variant, it.quantity, order, v);
      if op == Releasing {
        PerformKeepsHealthy(op, d, engine, it.variant, it.quantity, Some(order));
      }
      ProcessAvailable(op, d1, engine, items[1..], order, v);
    }
  }

  lemma PerformAvailable(op: Operation, d: Depot, engine: Engine, v: VariantId, quantity: nat, order: nat, u: VariantId)
    requires Sound(d.rows) && Perform(op, d, engine, v, quantity, Some(order)).Success?
    requires op == Releasing ==> Healthy(d.rows)
    ensures var d' := Perform(op, d, engine, v, quantity, Some(order)).value;
            && (op == Reserving ==> GetAvailable(d', u) == GetAvailable(d, u) - if u == v then quantity else 0)
            && (op == Committing ==> GetAvailable(d', u) == GetAvailable(d, u))
            && (op == Releasing ==> GetAvailable(d', u) == GetAvailable(d, u) + Taken(op, d, d', u))
  {
    var d' := Perform(op, d, engine, v, quantity, Some(order)).value;
    match op
    case Reserving => ReserveLowersAvailable(d, engine, v, quantity, Some(order), u);
    case Committing => CommitKeepsAvailable(d, engine, v, quantity, Some(order));
    case Releasing =>
      var visit := Query(Releasing, d, engine, v);
      WalkKeepsRows(Releasing, d.rows, visit, quantity, Some(order));
      PerformTakes(Releasing, d, engine, v, quantity, Some(order), u);
      if u == v {
        assert ReservedVisit(d.rows, v, visit);
        ReleaseRaisesAvailable(d, engine, v, quantity, Some(order));
      } else {
        OtherVariantsKeepAvailable(d.rows, visit, quantity, Some(order), v, u);
      }
  }

  lemma OtherVariantsKeepAvailable(rows: seq<Stock>, visit: seq<nat>, want: nat, ref: Option<nat>, v: VariantId, u: VariantId)
    requires Within(visit, |rows|) && OnVariant(rows, visit, v) && u != v
    ensures Sum(Plain(Available), u, Walk(Releasing, rows, visit, want, ref).rows) == Sum(Plain(Available), u, rows)
  {
    var rows' := Walk(Releasing, rows, visit, want, ref).rows;
    WalkKeepsRows(Releasing, rows, visit, want, ref);
    forall i | 0 <= i < |rows| ensures Weight(Plain(Available), u, rows[i]) == Weight(Plain(Available), u, rows'[i]) {
      assert SameRow(rows[i], rows'[i]);
      assert i in visit ==> rows[i].variant == v;
    }
    SumSame(Plain(Available), u, rows, rows');
  }

  /** On healthy stock whose reservations are exactly the pending orders', cancelling a pending order gives every
      variant's units back to the shoppers. */
  lemma CancellingGivesBack(s: Shop, engine: Engine, id: nat, now: int, v: VariantId)
    requires BooksAgree(s) && Healthy(s.depot.rows) && InReserve(s, v) == Units(Outstanding, s.orders, v)
    requires id < |s.orders| && s.orders[id].status == Pending
    ensures var r := Transition(s, engine, id, Cancelled, now);
            r.Success? && GetAvailable(r.value.depot, v) == GetAvailable(s.depot, v) + Demand(s.orders[id].items, v)
  {
    CancellingSucceedsIff(s, engine, id, now);
    ProcessAvailable(Releasing, s.depot, engine, s.orders[id].items, id, v);
    ProcessTakes(Releasing, s.depot, engine, s.orders[id].items, id, v);
    UnitsUpdate(Outstanding, s.orders, v, id, s.orders[id]);
  }

  // ---------- carts over whole runs ----------

  ghost predicate TidyCarts(carts: map<Owner, Cart>) {
    forall owner :: owner in carts ==> Tidy(carts[owner])
  }

  /** One cart, replaced by a tidy one that forgets no deleted line. */
  ghost predicate CartReplaced(carts: map<Owner, Cart>, owner: Owner, cart: Cart) {
    Tidy(cart) && forall v :: IsDead(CartOf(carts, owner), v) ==> IsDead(cart, v)
  }

  /** Tidy carts, and no line deleted from a user's cart revived. */
  ghost predicate CartsKept(carts: map<Owner, Cart>, carts': map<Owner, Cart>) {
    && TidyCarts(carts')
    && forall user, v :: IsDead(CartOf(carts, User(user)), v) ==> IsDead(CartOf(carts', User(user)), v)
  }

  lemma ReplacingKeepsCarts(carts: map<Owner, Cart>, owner: Owner, cart: Cart)
    requires TidyCarts(carts) && CartReplaced(carts, owner, cart)
    ensures CartsKept(carts, carts[owner := cart])
  {
  }

  lemma CartStep(s: Shop, owner: Owner, step: Step)
    requires TidyCarts(s.carts) && owner in s.carts
    requires (step.AddToCart? || step.UpdateCartItem? || step.RemoveCartItem? || step.EmptyCart?) && step.owner == owner
    ensures CartsKept(s.carts, Next(s, step).carts)
  {
    var cart := s.carts[owner];
    if step.AddToCart? {
      AddItemSpec(cart, s.catalog, s.depot, step.variant, step.quantity);
    } else if step.UpdateCartItem? {
      UpdateItemSpec(cart, s.depot, step.item, step.quantity);
    } else if step.RemoveCartItem? {
      RemoveItemSpec(cart, step.item);
    } else {
      ClearCartSpec(cart);
    }
    ReplacingKeepsCarts(s.carts, owner, Next(s, step).carts[owner]);
  }

  lemma MergeStep(carts: map<Owner, Cart>, catalog: Catalog, session: string, user: nat)
    requires TidyCarts(carts)
    ensures CartsKept(carts, OrElse(MergeAnonymous(carts, catalog, session, user), carts))
  {
    if session != "" && Guest(session) in carts {
      MergeConserves(carts[Guest(session)], CartOf(carts, User(user)), catalog);
      if MergeLines(carts[Guest(session)], CartOf(carts, User(user)), catalog).Success? {
        var merged := MergeLines(carts[Guest(session)], CartOf(carts, User(user)), catalog).value;
        ReplacingKeepsCarts(carts, User(user), merged);
        RemovingKeepsCarts(carts[User(user) := merged], session);
      }
    }
  }

  lemma RemovingKeepsCarts(carts: map<Owner, Cart>, session: string)
    requires TidyCarts(carts)
    ensures CartsKept(carts, carts - {Guest(session)})
  {
    forall user ensures CartOf(carts - {Guest(session)}, User(user)) == CartOf(carts, User(user)) {
    }
  }

  lemma OtherStepsKeepCarts(s: Shop, step: Step)
    requires step.EditCatalog? || step.AdjustStock? || step.ChangeStatus? || step.StartPayment?
    ensures Next(s, step).carts == s.carts
  {
  }

  lemma OpeningKeepsCarts(carts: map<Owner, Cart>, owner: Owner)
    requires TidyCarts(carts)
    ensures CartsKept(carts, OrElse(GetOrCreateCart(carts, owner), carts))
  {
    ReplacingKeepsCarts(carts, owner, CartOf(carts, owner));
  }

  lemma CheckoutKeepsCarts(s: Shop, engine: Engine, owner: Owner, input: CheckoutInput, now: int)
    requires TidyCarts(s.carts)
    ensures CartsKept(s.carts, OrElse(Checkout(s, engine, owner, input, now), s).carts)
  {
    ClearCartSpec(CartOf(s.carts, owner));
    ReplacingKeepsCarts(s.carts, owner, ClearCart(CartOf(s.carts, owner)));
  }

  /** Every step keeps carts tidy, and no step revives a line deleted from a user's cart. */
  lemma StepKeepsCarts(s: Shop, step: Step)
    requires TidyCarts(s.carts)
    ensures CartsKept(s.carts, Next(s, step).carts)
  {
    if step.AddToCart? || step.UpdateCartItem? || step.RemoveCartItem? || step.EmptyCart? {
      if step.owner in s.carts {
        CartStep(s, step.owner, step);
      }
    } else if step.MergeCarts? {
      MergeStep(s.carts, s.catalog, step.session, step.user);
    } else if step.OpenCart? {
      OpeningKeepsCarts(s.carts, step.owner);
    } else if step.PlaceOrder? {
      CheckoutKeepsCarts(s, step.engine, step.owner, step.input, step.now);
    } else if step.ReceiveWebhook? {
      WebhookKeepsCarts(s, step.engine, step.provider, step.parsed, step.now);
    } else {
      OtherStepsKeepCarts(s, step);
    }
  }

  lemma WebhookKeepsCarts(s: Shop, engine: Engine, provider: string, parsed: Payments.WebhookResult, now: int)
    ensures Next(s, ReceiveWebhook(engine, provider, parsed, now)).carts == s.carts
  {
    if Payments.Heeded(provider, parsed) && Payments.MatchOrder(s, parsed).Success? && Payments.MatchOrder(s, parsed).value.Some? {
      MatchedWebhook(s, engine, provider, parsed, now, Payments.MatchOrder(s, parsed).value.value);
    } else {
      UnmatchedWebhook(s, engine, provider, parsed, now);
    }
  }

  lemma {:induction false} RunKeepsCarts(s: Shop, steps: seq<Step>, user: nat, v: VariantId)
    requires TidyCarts(s.carts)
    ensures TidyCarts(Run(s, steps).carts)
    ensures IsDead(CartOf(s.carts, User(user)), v) ==> IsDead(CartOf(Run(s, steps).carts, User(user)), v)
    decreases |steps|
  {
    if steps != [] {
      StepKeepsCarts(s, steps[0]);
      RunKeepsCarts(Next(s, steps[0]), steps[1..], user, v);
    }
  }

  /** In every reachable state a checkout can only be refused: no cart ever holds a line without units. */
  lemma CheckoutOnlyRefuses(s: Shop, steps: seq<Step>, engine: Engine, owner: Owner, input: CheckoutInput, now: int)
    requires BooksAgree(s) && TidyCarts(s.carts)
    ensures var r := Checkout(Run(s, steps), engine, owner, input, now); r.Failure? ==> r.error == CheckoutRefused
  {
    NoOversell(s, steps, 0);
    RunKeepsCarts(s, steps, 0, 0);
    CheckoutSucceedsIff(Run(s, steps), engine, owner, input, now);
  }

  /** What a user has bought once, that user can never put into the cart again: after a checkout, through every later
      run, adding the variant violates the unique constraint. */
  lemma NeverBoughtTwice(s: Shop, engine: Engine, user: nat, input: CheckoutInput, now: int, steps: seq<Step>, v: VariantId, quantity: int)
    requires TidyCarts(s.carts) && IsLive(CartOf(s.carts, User(user)), v)
    requires Checkout(s, engine, User(user), input, now).Success?
    requires quantity > 0
    ensures var s' := Run(Checkout(s, engine, User(user), input, now).value, steps);
            v in s'.catalog && s'.catalog[v].active ==>
              AddItem(CartOf(s'.carts, User(user)), s'.catalog, s'.depot, v, quantity) == Failure(IntegrityConflict)
  {
    var s1 := Checkout(s, engine, User(user), input, now).value;
    StepKeepsCarts(s, Step.PlaceOrder(engine, User(user), input, now));
    ClearCartSpec(CartOf(s.carts, User(user)));
    RunKeepsCarts(s1, steps, user, v);
  }
}
