/** Whether a pending order can still be paid: always, unless someone took its reservation. */
module Promises {
  import opened Prelude
  import opened Tables
  import opened Allocation
  import opened Ledger
  import opened Greedy
  import opened Inventory
  import opened Orders
  import opened Books
  import opened Runs
  import opened Conservation

  // ---------- when paying succeeds ----------

  /** Variant by variant, some lines fit into what rows have both reserved and on the shelf. */
  ghost predicate Fits(items: seq<OrderItem>, rows: seq<Stock>) {
    forall v :: Demand(items, v) <= Sum(Plain(Committable), v, rows)
  }

  /** Lines can be sold together exactly when they fit. */
  lemma SellingSucceedsIff(d: Depot, engine: Engine, items: seq<OrderItem>, id: nat)
    requires Sound(d.rows)
    ensures Process(Committing, d, engine, items, id).Success? <==> Fits(items, d.rows)
  {
    ProcessSucceedsIff(Committing, d, engine, items, id);
    forall v ensures Supply(Committing, d, v) == Sum(Plain(Committable), v, d.rows) {
    }
  }

  /** An order can be paid exactly when it is pending and its lines fit. */
  lemma PayingSucceedsIff(s: Shop, engine: Engine, id: nat, now: int)
    requires Sound(s.depot.rows)
    ensures Transition(s, engine, id, Paid, now).Success? <==>
            id < |s.orders| && s.orders[id].status == Pending && Fits(s.orders[id].items, s.depot.rows)
  {
    TransitionSucceedsIff(s, engine, id, Paid, now);
    if id < |s.orders| {
      SellingSucceedsIff(s.depot, engine, s.orders[id].items, id);
    }
  }

  lemma TransitionSucceedsIff(s: Shop, engine: Engine, id: nat, to: Status, now: int)
    ensures Transition(s, engine, id, to, now).Success? <==>
            id < |s.orders| && CanTransitionTo(s.orders[id], to) && StockEffect(s.depot, engine, s.orders[id], id, to).Success?
  {
  }

  /** No row has more reserved than is on its shelf. */
  ghost predicate Covered(rows: seq<Stock>) {
    forall i :: 0 <= i < |rows| ==> rows[i].reserved <= rows[i].onHand
  }

  lemma {:induction false} CoveredIsCommittable(rows: seq<Stock>, v: VariantId)
    requires Covered(rows)
    ensures Sum(Plain(Committable), v, rows) == Sum(Plain(Reserved), v, rows)
  {
    if rows != [] {
      CoveredIsCommittable(rows[..|rows| - 1], v);
    }
  }

  // ---------- what keeps rows covered ----------

  lemma {:induction false} WalkKeepsCovered(op: Operation, rows: seq<Stock>, visit: seq<nat>, want: int, ref: Option<nat>)
    requires Within(visit, |rows|) && Sound(rows) && Covered(rows)
    ensures Covered(Walk(op, rows, visit, want, ref).rows)
    decreases |visit|
  {
    if visit != [] && want > 0 {
      var i := visit[0];
      var t := Min(Capacity(op, rows[i]), want);
      WalkKeepsCovered(op, rows[i := Moved(op, rows[i], t)], visit[1..], want - t, ref);
    }
  }

  lemma {:induction false} ProcessKeepsCovered(op: Operation, d: Depot, engine: Engine, items: seq<OrderItem>, order: nat)
    requires Sound(d.rows) && Covered(d.rows) && Process(op, d, engine, items, order).Success?
    ensures Covered(Process(op, d, engine, items, order).value.rows)
    decreases |items|
  {
    if items != [] {
      var it := items[0];
      var visit := Query(op, d, engine, it.variant);
      WalkKeepsCovered(op, d.rows, visit, it.quantity, Some(order));
      WalkKeepsSound(op, d.rows, visit, it.quantity, Some(order));
      ProcessKeepsCovered(op, Perform(op, d, engine, it.variant, it.quantity, Some(order)).value, engine, items[1..], order);
    }
  }

  /** An adjustment that takes a shelf below what is reserved on it. */
  predicate Undercuts(s: Shop, step: Step) {
    && step.AdjustStock? && step.code in s.depot.warehouses
    && var l := LevelOf(s.depot.rows, FindRow(s.depot.rows, step.variant, step.code));
    l.reserved > Max(l.onHand + step.delta, 0)
  }

  lemma MoveKeepsCovered(s: Shop, m: Move)
    requires BooksAgree(s) && Covered(s.depot.rows)
    ensures Covered(AfterMove(s, m).depot.rows)
  {
    if Transition(s, m.engine, m.id, m.to, m.now).Success? && (m.to == Paid || m.to == Cancelled) {
      ProcessKeepsCovered(if m.to == Paid then Committing else Releasing, s.depot, m.engine, s.orders[m.id].items, m.id);
    }
  }

  /** Of all steps, exactly the undercutting adjustments uncover a row. */
  lemma CoveredKeptIff(s: Shop, step: Step)
    requires BooksAgree(s) && Covered(s.depot.rows)
    ensures Covered(Next(s, step).depot.rows) <==> !Undercuts(s, step)
  {
    if step.AdjustStock? {
      if step.code in s.depot.warehouses {
        AdjustCovered(s.depot, step.variant, step.code, step.delta);
      }
    } else if step.PlaceOrder? {
      if Checkout(s, step.engine, step.owner, step.input, step.now).Success? {
        var cart := Carts.CartOf(s.carts, step.owner);
        ProcessKeepsCovered(Reserving, s.depot, step.engine, OrderItems(cart), |s.orders|);
      }
    } else if step.ChangeStatus? {
      MoveKeepsCovered(s, Move(step.engine, step.id, step.to, step.now));
    } else if step.ReceiveWebhook? {
      var before := WebhookShape(s, step.engine, step.provider, step.parsed, step.now);
      QuietBooks(s, before);
      if WebhookMove(s, step.engine, step.provider, step.parsed, step.now).Some? {
        MoveKeepsCovered(before, WebhookMove(s, step.engine, step.provider, step.parsed, step.now).value);
      }
    } else {
      OtherStepsAreQuiet(s, step);
    }
  }

  lemma AdjustCovered(d: Depot, v: VariantId, code: string, delta: int)
    requires Sound(d.rows) && Covered(d.rows) && Adjust(d, v, code, delta).Success?
    ensures Covered(Adjust(d, v, code, delta).value.rows) <==>
            var l := LevelOf(d.rows, FindRow(d.rows, v, code)); l.reserved <= Max(l.onHand + delta, 0)
  {
    var d' := Adjust(d, v, code, delta).value;
    var i := FindRow(d.rows, v, code);
    assert d'.rows[i].reserved == LevelOf(d.rows, i).reserved;
    assert forall j :: 0 <= j < |d'.rows| && j != i ==> d'.rows[j] == d.rows[j];
  }

  // ---------- the promise ----------

  /** A run without late cancellations and undercutting adjustments. */
  predicate Careful(s: Shop, steps: seq<Step>)
    decreases |steps|
  {
    steps == [] || (!CancelsLate(s, steps[0]) && !Undercuts(s, steps[0]) && Careful(Next(s, steps[0]), steps[1..]))
  }

  ghost predicate Balanced(s: Shop) {
    forall v :: InReserve(s, v) == Units(Outstanding, s.orders, v)
  }

  /** A shop that opens: whatever stock there is, nothing reserved, nothing logged and nothing ordered yet. */
  lemma OpeningShop(s: Shop)
    requires s.orders == [] && s.depot.ledger == []
    requires forall i :: 0 <= i < |s.depot.rows| ==> s.depot.rows[i].onHand >= 0 && s.depot.rows[i].reserved == 0
    ensures BooksAgree(s) && Balanced(s) && Covered(s.depot.rows)
  {
    forall v ensures InReserve(s, v) == 0 {
      NothingReserved(s.depot.rows, v);
    }
  }

  lemma {:induction false} NothingReserved(rows: seq<Stock>, v: VariantId)
    requires forall i :: 0 <= i < |rows| ==> rows[i].reserved == 0
    ensures Sum(Plain(Reserved), v, rows) == 0
  {
    if rows != [] {
      NothingReserved(rows[..|rows| - 1], v);
    }
  }

  lemma {:induction false} CarefulRunsKeepPromises(s: Shop, steps: seq<Step>)
    requires BooksAgree(s) && Balanced(s) && Covered(s.depot.rows) && Careful(s, steps)
    ensures var s' := Run(s, steps);
            BooksAgree(s') && Balanced(s') && Covered(s'.depot.rows)
    decreases |steps|
  {
    if steps != [] {
      var next := Next(s, steps[0]);
      StepFlow(s, steps[0], 0);
      CoveredKeptIff(s, steps[0]);
      forall v ensures InReserve(next, v) == Units(Outstanding, next.orders, v) {
        if Steals(s, steps[0], v) {
          OnlyLateCancellationSteals(s, steps[0], v);
          assert false;
        }
        BalanceKeptIff(s, steps[0], v);
      }
      CarefulRunsKeepPromises(next, steps[1..]);
    }
  }

  /** After any careful run, every pending order can be paid, in whatever order the database hands out the rows and
      although payment visits them in another order than the reservation did. */
  lemma PendingCanBePaid(s: Shop, steps: seq<Step>, engine: Engine, id: nat, now: int)
    requires BooksAgree(s) && Balanced(s) && Covered(s.depot.rows) && Careful(s, steps)
    requires id < |Run(s, steps).orders| && Run(s, steps).orders[id].status == Pending
    ensures Transition(Run(s, steps), engine, id, Paid, now).Success?
  {
    var s' := Run(s, steps);
    CarefulRunsKeepPromises(s, steps);
    forall v ensures Demand(s'.orders[id].items, v) <= Sum(Plain(Committable), v, s'.depot.rows) {
      CoveredIsCommittable(s'.depot.rows, v);
      UnitsUpdate(Outstanding, s'.orders, v, id, s'.orders[id]);
    }
    PayingSucceedsIff(s', engine, id, now);
  }

  // ---------- what exactly breaks the promise ----------

  /** Every variant's units on pending orders are reserved and on the shelf, row by row. */
  ghost predicate Promised(s: Shop) {
    forall v :: Units(Outstanding, s.orders, v) <= Sum(Plain(Committable), v, s.depot.rows)
  }

  /** One overdrawn row is enough to have less to sell than is reserved. */
  lemma {:induction false} OverdrawnRow(rows: seq<Stock>, i: nat)
    requires i < |rows| && rows[i].reserved > rows[i].onHand
    ensures Sum(Plain(Committable), rows[i].variant, rows) < Sum(Plain(Reserved), rows[i].variant, rows)
  {
    var last := |rows| - 1;
    if i < last {
      OverdrawnRow(rows[..last], i);
    } else {
      CommittableWithinReserved(rows[..last], rows[i].variant);
    }
  }

  /** What is promised is what no reservation lacks and no shelf undercuts. */
  lemma PromisedIff(s: Shop)
    requires forall v :: Uncovered(s, v) >= 0
    ensures Promised(s) <==> Balanced(s) && Covered(s.depot.rows)
  {
    if Promised(s) {
      forall v ensures InReserve(s, v) == Units(Outstanding, s.orders, v) == Sum(Plain(Committable), v, s.depot.rows) {
        CommittableWithinReserved(s.depot.rows, v);
        assert Uncovered(s, v) >= 0;
      }
      forall i | 0 <= i < |s.depot.rows| ensures s.depot.rows[i].reserved <= s.depot.rows[i].onHand {
        if s.depot.rows[i].reserved > s.depot.rows[i].onHand {
          OverdrawnRow(s.depot.rows, i);
        }
      }
    }
    if Balanced(s) && Covered(s.depot.rows) {
      forall v ensures Units(Outstanding, s.orders, v) <= Sum(Plain(Committable), v, s.depot.rows) {
        CoveredIsCommittable(s.depot.rows, v);
      }
    }
  }

  /** From a state that keeps its promises, exactly the undercutting adjustments and the late cancellations of orders
      whose variants are still reserved for others break one. */
  lemma PromisesKeptIff(s: Shop, step: Step)
    requires BooksAgree(s) && Balanced(s) && Covered(s.depot.rows)
    ensures Promised(Next(s, step)) <==> !Undercuts(s, step) && forall v :: !Steals(s, step, v)
  {
    var s' := Next(s, step);
    forall v ensures Uncovered(s', v) >= 0 && (InReserve(s', v) == Units(Outstanding, s'.orders, v) <==> !Steals(s, step, v)) {
      assert InReserve(s, v) == Units(Outstanding, s.orders, v);
      StepFlow(s, step, v);
      DriftKeepsInequality(s, step, v);
      BalanceKeptIff(s, step, v);
    }
    assert Balanced(s') <==> forall v :: !Steals(s, step, v);
    CoveredKeptIff(s, step);
    PromisedIff(s');
  }

  /** Payments, one per pending order, in any sequence. */
  ghost predicate PaysEveryone(orders: seq<Order>, payments: seq<Move>) {
    && (forall k :: 0 <= k < |payments| ==>
          && payments[k].to == Paid && payments[k].id < |orders| && orders[payments[k].id].status == Pending)
    && (forall j, k :: 0 <= j < k < |payments| ==> payments[j].id != payments[k].id)
    && (forall i :: 0 <= i < |orders| && orders[i].status == Pending ==> exists k :: 0 <= k < |payments| && payments[k].id == i)
  }

  /** The moves go through, one after the other. */
  predicate GoThrough(s: Shop, moves: seq<Move>)
    decreases |moves|
  {
    moves == [] ||
    (var r := Transition(s, moves[0].engine, moves[0].id, moves[0].to, moves[0].now);
     r.Success? && GoThrough(r.value, moves[1..]))
  }

  lemma {:induction false} NobodyWaits(orders: seq<Order>, v: VariantId)
    requires forall i :: 0 <= i < |orders| ==> orders[i].status != Pending
    ensures Units(Outstanding, orders, v) == 0
  {
    if orders != [] {
      NobodyWaits(orders[..|orders| - 1], v);
    }
  }

  lemma PaysTheRest(orders: seq<Order>, payments: seq<Move>, o: Order)
    requires PaysEveryone(orders, payments) && payments != [] && o.status != Pending
    ensures PaysEveryone(orders[payments[0].id := o], payments[1..])
  {
    var orders' := orders[payments[0].id := o];
    forall i | 0 <= i < |orders'| && orders'[i].status == Pending
      ensures exists k :: 0 <= k < |payments[1..]| && payments[1..][k].id == i
    {
      var k :| 0 <= k < |payments| && payments[k].id == i;
      assert payments[1..][k - 1].id == i;
    }
  }

  /** Paying takes the order's units off what is promised and off what can be sold alike. */
  lemma PayingKeepsPromised(s: Shop, m: Move)
    requires BooksAgree(s) && m.to == Paid && Transition(s, m.engine, m.id, Paid, m.now).Success?
    ensures Promised(AfterMove(s, m)) <==> Promised(s)
  {
    var s' := AfterMove(s, m);
    forall v
      ensures Units(Outstanding, s'.orders, v) - Sum(Plain(Committable), v, s'.depot.rows) ==
              Units(Outstanding, s.orders, v) - Sum(Plain(Committable), v, s.depot.rows)
    {
      MoveOutstanding(s, m, v);
      SellingLowersCommittable(s.depot, m.engine, s.orders[m.id].items, m.id, v);
    }
  }

  lemma SellingLowersCommittable(d: Depot, engine: Engine, items: seq<OrderItem>, id: nat, v: VariantId)
    requires Sound(d.rows) && Process(Committing, d, engine, items, id).Success?
    ensures Sum(Plain(Committable), v, Process(Committing, d, engine, items, id).value.rows) ==
            Sum(Plain(Committable), v, d.rows) - Demand(items, v)
  {
    ProcessTakes(Committing, d, engine, items, id, v);
    ProcessLowersSupply(Committing, d, engine, items, id, v);
  }

  /** Promised means that all pending orders can be paid, one after the other, in every sequence. */
  lemma {:induction false} EveryoneCanPayIff(s: Shop, payments: seq<Move>)
    requires BooksAgree(s) && PaysEveryone(s.orders, payments)
    ensures GoThrough(s, payments) <==> Promised(s)
    decreases |payments|
  {
    if payments == [] {
      forall v ensures Units(Outstanding, s.orders, v) <= Sum(Plain(Committable), v, s.depot.rows) {
        NobodyWaits(s.orders, v);
        MeasureNonnegative(Plain(Committable), v, s.depot.rows);
      }
    } else {
      var m := payments[0];
      PayingSucceedsIff(s, m.engine, m.id, m.now);
      if Transition(s, m.engine, m.id, Paid, m.now).Success? {
        TransitionKeepsBooks(s, m.engine, m.id, Paid, m.now);
        PaysTheRest(s.orders, payments, Advance(s.orders[m.id], Paid, m.now));
        PayingKeepsPromised(s, m);
        EveryoneCanPayIff(AfterMove(s, m), payments[1..]);
      } else {
        var v :| Demand(s.orders[m.id].items, v) > Sum(Plain(Committable), v, s.depot.rows);
        UnitsUpdate(Outstanding, s.orders, v, m.id, s.orders[m.id]);
      }
    }
  }

  /** The promise in its own words: after a step from a state that keeps its promises, all pending orders can be paid
      exactly if the step neither undercut a shelf nor took someone's reservation. */
  lemma EveryoneCanStillPayIff(s: Shop, step: Step, payments: seq<Move>)
    requires BooksAgree(s) && Balanced(s) && Covered(s.depot.rows) && PaysEveryone(Next(s, step).orders, payments)
    ensures GoThrough(Next(s, step), payments) <==> !Undercuts(s, step) && forall v :: !Steals(s, step, v)
  {
    StepFlow(s, step, 0);
    PromisesKeptIff(s, step);
    EveryoneCanPayIff(Next(s, step), payments);
  }

  // ---------- the promise broken ----------

  /** No step of the run cancels anything. */
  predicate NoCancellation(s: Shop, steps: seq<Step>)
    decreases |steps|
  {
    steps == [] || ((MoveOf(s, steps[0]).None? || MoveOf(s, steps[0]).value.to != Cancelled) && NoCancellation(Next(s, steps[0]), steps[1..]))
  }

  /** Units whose reservation is gone stay unpaid: whatever is restocked, reserved or paid afterwards, at least as
      many units remain on pending orders until one of them is cancelled. */
  lemma {:induction false} UncoveredUnitsStayUnpaid(s: Shop, steps: seq<Step>, v: VariantId)
    requires BooksAgree(s) && NoCancellation(s, steps)
    ensures Uncovered(Run(s, steps), v) == Uncovered(s, v)
    ensures Units(Outstanding, Run(s, steps).orders, v) >= Uncovered(s, v)
    decreases |steps|
  {
    if steps != [] {
      StepFlow(s, steps[0], v);
      UncoveredUnitsStayUnpaid(Next(s, steps[0]), steps[1..], v);
    } else {
      MeasureNonnegative(Plain(Reserved), v, s.depot.rows);
    }
  }

  /** One late cancellation strands pending orders for good. */
  lemma LateCancellationStrands(s: Shop, step: Step, steps: seq<Step>, v: VariantId)
    requires BooksAgree(s) && InReserve(s, v) == Units(Outstanding, s.orders, v)
    requires Steals(s, step, v) && NoCancellation(Next(s, step), steps)
    ensures Units(Outstanding, Run(Next(s, step), steps).orders, v) > 0
  {
    StepFlow(s, step, v);
    DriftKeepsInequality(s, step, v);
    UncoveredUnitsStayUnpaid(Next(s, step), steps, v);
  }

  lemma {:induction false} CommittableWithinReserved(rows: seq<Stock>, v: VariantId)
    ensures Sum(Plain(Committable), v, rows) <= Sum(Plain(Reserved), v, rows)
  {
    if rows != [] {
      CommittableWithinReserved(rows[..|rows| - 1], v);
    }
  }

  /** If one order is all that is pending for the variant, it is that order that can no longer be paid. */
  lemma LateCancellationBlocksPayment(s: Shop, step: Step, engine: Engine, id: nat, now: int, v: VariantId)
    requires BooksAgree(s) && InReserve(s, v) == Units(Outstanding, s.orders, v) && Steals(s, step, v)
    requires id < |Next(s, step).orders|
    requires Demand(Next(s, step).orders[id].items, v) == Units(Outstanding, Next(s, step).orders, v)
    ensures Transition(Next(s, step), engine, id, Paid, now).Failure?
  {
    var s' := Next(s, step);
    StepFlow(s, step, v);
    DriftKeepsInequality(s, step, v);
    CommittableWithinReserved(s'.depot.rows, v);
    PayingSucceedsIff(s', engine, id, now);
  }
}
