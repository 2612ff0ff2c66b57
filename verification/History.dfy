/** What can be read back after any run: stock from its ledger, coupon counters from the orders. */
module History {
  import opened Prelude
  import opened Tables
  import opened Allocation
  import opened Ledger
  import opened Greedy
  import opened Inventory
  import opened Carts
  import opened Orders
  import opened Runs
  import opened Conservation

  // ---------- the ledger explains the stock ----------

  /** The ledger only grows, and its new lines, replayed row by row, explain every change of the rows. */
  ghost predicate Explained(d: Depot, d': Depot) {
    d.ledger <= d'.ledger && Replayed(d, d')
  }

  lemma ExplainedTransitive(d: Depot, d1: Depot, d2: Depot)
    requires Explained(d, d1) && Explained(d1, d2)
    ensures Explained(d, d2)
  {
    ReplayedTransitive(d, d1, d2);
  }

  lemma ExplainedReflexive(d: Depot)
    ensures Explained(d, d)
  {
    assert News(d, d) == [];
  }

  lemma MoveExplained(s: Shop, m: Move)
    ensures Explained(s.depot, AfterMove(s, m).depot)
  {
    ExplainedReflexive(s.depot);
    if Transition(s, m.engine, m.id, m.to, m.now).Success? && (m.to == Paid || m.to == Cancelled) {
      ProcessIsBooked(if m.to == Paid then Committing else Releasing, s.depot, m.engine, s.orders[m.id].items, m.id);
    }
  }

  lemma StepExplained(s: Shop, step: Step)
    ensures Explained(s.depot, Next(s, step).depot)
  {
    ExplainedReflexive(s.depot);
    if step.AdjustStock? {
      if Adjust(s.depot, step.variant, step.code, step.delta).Success? {
        AdjustLogs(s.depot, step.variant, step.code, step.delta);
      }
    } else if step.PlaceOrder? {
      if Checkout(s, step.engine, step.owner, step.input, step.now).Success? {
        ProcessIsBooked(Reserving, s.depot, step.engine, OrderItems(CartOf(s.carts, step.owner)), |s.orders|);
      }
    } else if step.ChangeStatus? {
      MoveExplained(s, Move(step.engine, step.id, step.to, step.now));
    } else if step.ReceiveWebhook? {
      var before := WebhookShape(s, step.engine, step.provider, step.parsed, step.now);
      if WebhookMove(s, step.engine, step.provider, step.parsed, step.now).Some? {
        MoveExplained(before, WebhookMove(s, step.engine, step.provider, step.parsed, step.now).value);
      }
    } else {
      OtherStepsAreQuiet(s, step);
    }
  }

  /** Replaying the ledger of any run, row by row from where the run started, gives every row's shelf and reservation
      figures: rolled-back calls left no lines, and clamped adjustments replay as clamped. */
  lemma LedgerReplaysRun(s: Shop, steps: seq<Step>, i: nat)
    ensures s.depot.ledger <= Run(s, steps).depot.ledger
    ensures Replay(LevelOf(s.depot.rows, i), News(s.depot, Run(s, steps).depot), i) == LevelOf(Run(s, steps).depot.rows, i)
  {
    RunExplained(s, steps);
  }

  lemma {:induction false} RunExplained(s: Shop, steps: seq<Step>)
    ensures Explained(s.depot, Run(s, steps).depot)
    decreases |steps|
  {
    if steps == [] {
      ExplainedReflexive(s.depot);
    } else {
      StepExplained(s, steps[0]);
      RunExplained(Next(s, steps[0]), steps[1..]);
      ExplainedTransitive(s.depot, Next(s, steps[0]).depot, Run(s, steps).depot);
    }
  }

  // ---------- one row per variant and warehouse ----------

  lemma ProcessKeepsOneEach(op: Operation, d: Depot, engine: Engine, items: seq<OrderItem>, order: nat)
    requires OneRowEach(d.rows) && Process(op, d, engine, items, order).Success?
    ensures OneRowEach(Process(op, d, engine, items, order).value.rows)
  {
    ProcessIsBooked(op, d, engine, items, order);
    SameRowsOneEach(d.rows, Process(op, d, engine, items, order).value.rows);
  }

  lemma MoveKeepsOneEach(s: Shop, m: Move)
    requires OneRowEach(s.depot.rows)
    ensures OneRowEach(AfterMove(s, m).depot.rows)
  {
    if Transition(s, m.engine, m.id, m.to, m.now).Success? && (m.to == Paid || m.to == Cancelled) {
      ProcessKeepsOneEach(if m.to == Paid then Committing else Releasing, s.depot, m.engine, s.orders[m.id].items, m.id);
    }
  }

  lemma StepKeepsOneEach(s: Shop, step: Step)
    requires OneRowEach(s.depot.rows)
    ensures OneRowEach(Next(s, step).depot.rows)
  {
    if step.AdjustStock? {
      var i := AdjustsItsRow(s.depot, step.variant, step.code, step.delta);
      if step.code in s.depot.warehouses {
        AdjustedIsOnly(s.depot, Next(s, step).depot, step.variant, step.code, step.delta, i);
      }
    } else if step.PlaceOrder? {
      if Checkout(s, step.engine, step.owner, step.input, step.now).Success? {
        ProcessKeepsOneEach(Reserving, s.depot, step.engine, OrderItems(CartOf(s.carts, step.owner)), |s.orders|);
      }
    } else if step.ChangeStatus? {
      MoveKeepsOneEach(s, Move(step.engine, step.id, step.to, step.now));
    } else if step.ReceiveWebhook? {
      var before := WebhookShape(s, step.engine, step.provider, step.parsed, step.now);
      var m := WebhookMove(s, step.engine, step.provider, step.parsed, step.now);
      if m.Some? {
        MoveKeepsOneEach(before, m.value);
      }
    } else {
      OtherStepsAreQuiet(s, step);
    }
  }

  /** In every run, no variant gets a second row in a warehouse. */
  lemma {:induction false} RowsStayOneEach(s: Shop, steps: seq<Step>)
    requires OneRowEach(s.depot.rows)
    ensures OneRowEach(Run(s, steps).depot.rows)
    decreases |steps|
  {
    if steps != [] {
      StepKeepsOneEach(s, steps[0]);
      RowsStayOneEach(Next(s, steps[0]), steps[1..]);
    }
  }

  // ---------- coupon counters ----------

  /** How many orders were created with the coupon. */
  function OrdersWith(orders: seq<Order>, code: string): nat {
    if orders == [] then 0
    else OrdersWith(orders[..|orders| - 1], code) + if orders[|orders| - 1].coupon == Some(code) then 1 else 0
  }

  lemma {:induction false} OrdersWithSame(orders: seq<Order>, orders': seq<Order>, code: string)
    requires |orders| == |orders'| && forall i :: 0 <= i < |orders| ==> orders[i].coupon == orders'[i].coupon
    ensures OrdersWith(orders, code) == OrdersWith(orders', code)
  {
    if orders != [] {
      OrdersWithSame(orders[..|orders| - 1], orders'[..|orders| - 1], code);
    }
  }

  function UsesOf(s: Shop, code: string): nat {
    if code in s.coupons then s.coupons[code].usedCount else 0
  }

  /** No coupon with a limit was used more often than it. */
  ghost predicate WithinLimits(s: Shop) {
    forall code :: code in s.coupons && s.coupons[code].maxUses > 0 ==> s.coupons[code].usedCount <= s.coupons[code].maxUses
  }

  lemma CheckoutCountsCoupon(s: Shop, engine: Engine, owner: Owner, input: CheckoutInput, now: int, code: string)
    requires Checkout(s, engine, owner, input, now).Success?
    ensures var s' := Checkout(s, engine, owner, input, now).value;
            && UsesOf(s', code) - UsesOf(s, code) == OrdersWith(s'.orders, code) - OrdersWith(s.orders, code)
            && (WithinLimits(s) ==> WithinLimits(s'))
            && s'.coupons.Keys == s.coupons.Keys
  {
    var s' := Checkout(s, engine, owner, input, now).value;
    assert s'.orders[..|s.orders|] == s.orders;
  }

  /** Steps of the other kinds do not touch orders as far as coupons go. */
  ghost predicate SameCoupons(s: Shop, s': Shop) {
    && s'.coupons == s.coupons
    && |s'.orders| == |s.orders| && forall i :: 0 <= i < |s.orders| ==> s'.orders[i].coupon == s.orders[i].coupon
  }

  lemma QuietKeepsCoupons(s: Shop, s': Shop)
    requires Quiet(s, s')
    ensures SameCoupons(s, s')
  {
    assert forall i :: 0 <= i < |s.orders| ==> SameOrder(s.orders[i], s'.orders[i]);
  }

  lemma MoveKeepsCoupons(s: Shop, m: Move)
    ensures SameCoupons(s, AfterMove(s, m))
  {
  }

  lemma OtherStepsKeepCoupons(s: Shop, step: Step)
    requires !step.PlaceOrder?
    ensures SameCoupons(s, Next(s, step))
  {
    if step.ReceiveWebhook? {
      var before := WebhookShape(s, step.engine, step.provider, step.parsed, step.now);
      var m := WebhookMove(s, step.engine, step.provider, step.parsed, step.now);
      var after := if m.Some? then AfterMove(before, m.value) else before;
      QuietKeepsCoupons(s, before);
      if m.Some? {
        MoveKeepsCoupons(before, m.value);
      }
      QuietKeepsCoupons(after, Next(s, step));
    } else if step.ChangeStatus? {
      MoveKeepsCoupons(s, Move(step.engine, step.id, step.to, step.now));
    } else if !step.AdjustStock? {
      OtherStepsAreQuiet(s, step);
      QuietKeepsCoupons(s, Next(s, step));
    }
  }

  lemma CouponsElsewhere(s: Shop, step: Step, code: string)
    requires !step.PlaceOrder?
    ensures Next(s, step).coupons == s.coupons && OrdersWith(Next(s, step).orders, code) == OrdersWith(s.orders, code)
  {
    OtherStepsKeepCoupons(s, step);
    OrdersWithSame(s.orders, Next(s, step).orders, code);
  }

  /** In every run a coupon's counter grows by exactly the orders created with it, whatever becomes of them, and a
      limited coupon stays within its limit. */
  lemma {:induction false} CouponUsage(s: Shop, steps: seq<Step>, code: string)
    requires WithinLimits(s)
    ensures UsesOf(Run(s, steps), code) - UsesOf(s, code) == OrdersWith(Run(s, steps).orders, code) - OrdersWith(s.orders, code)
    ensures WithinLimits(Run(s, steps))
    decreases |steps|
  {
    if steps != [] {
      var step := steps[0];
      if !step.PlaceOrder? {
        CouponsElsewhere(s, step, code);
      } else if Checkout(s, step.engine, step.owner, step.input, step.now).Success? {
        CheckoutCountsCoupon(s, step.engine, step.owner, step.input, step.now, code);
      }
      CouponUsage(Next(s, step), steps[1..], code);
    }
  }
}
