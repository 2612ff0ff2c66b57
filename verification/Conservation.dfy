/** No unit is lost, invented or sold twice: what every run of the services keeps, whoever calls them in whatever
    order. */
module Conservation {
  import opened Prelude
  import opened Tables
  import opened Allocation
  import opened Ledger
  import opened Greedy
  import opened Inventory
  import opened Orders
  import opened Payments
  import opened Lifecycle
  import opened Books
  import opened Runs

  /** Units promised to pending orders that no reservation covers. */
  function Uncovered(s: Shop, v: VariantId): int {
    Units(Outstanding, s.orders, v) - InReserve(s, v)
  }

  /** Units on the shelf or sold. */
  function Accountable(s: Shop, v: VariantId): int {
    OnShelf(s, v) + Units(Sold, s.orders, v)
  }

  // ---------- one call ----------

  /** How a transition shifts the balance of promises and reservations: only a cancellation can. From PENDING it
      settles what it could not release; from PAID or PACKED it takes what other orders have reserved. */
  function Drift(s: Shop, m: Move, v: VariantId): int {
    if m.to != Cancelled || Transition(s, m.engine, m.id, m.to, m.now).Failure? then 0
    else
      var o := s.orders[m.id];
      Min(Demand(o.items, v), InReserve(s, v)) - if o.status == Pending then Demand(o.items, v) else 0
  }

  /** What a transition does to the variant's stock totals. */
  lemma StockEffectFlow(s: Shop, engine: Engine, id: nat, to: Status, v: VariantId)
    requires Sound(s.depot.rows) && id < |s.orders| && CanTransitionTo(s.orders[id], to)
    requires StockEffect(s.depot, engine, s.orders[id], id, to).Success?
    ensures var d' := StockEffect(s.depot, engine, s.orders[id], id, to).value;
            var demand := Demand(s.orders[id].items, v);
            && Sum(Plain(OnHand), v, d'.rows) == OnShelf(s, v) - (if to == Paid then demand else 0)
            && Sum(Plain(Reserved), v, d'.rows) ==
               InReserve(s, v) - if to == Paid then demand else if to == Cancelled then Min(demand, InReserve(s, v)) else 0
  {
    if to == Paid || to == Cancelled {
      var op := if to == Paid then Committing else Releasing;
      ProcessIsBooked(op, s.depot, engine, s.orders[id].items, id);
      ProcessTakes(op, s.depot, engine, s.orders[id].items, id, v);
    }
  }

  /** What a transition does to the variant's units over orders. */
  lemma OrdersFlow(orders: seq<Order>, id: nat, to: Status, now: int, v: VariantId)
    requires id < |orders| && Consistent(orders[id]) && CanTransitionTo(orders[id], to)
    ensures var orders' := orders[id := Advance(orders[id], to, now)];
            var demand := Demand(orders[id].items, v);
            && Units(Sold, orders', v) == Units(Sold, orders, v) + (if to == Paid then demand else 0)
            && Units(Outstanding, orders', v) == Units(Outstanding, orders, v) -
               if to == Paid || (to == Cancelled && orders[id].status == Pending) then demand else 0
  {
    var o := orders[id];
    AdvanceKeepsConsistent(o, to, now);
    LegalPathShape(Path(o.events));
    UnitsUpdate(Outstanding, orders, v, id, Advance(o, to, now));
    UnitsUpdate(Sold, orders, v, id, Advance(o, to, now));
  }

  lemma MoveKeepsBooks(s: Shop, m: Move)
    requires BooksAgree(s)
    ensures BooksAgree(AfterMove(s, m))
  {
    if Transition(s, m.engine, m.id, m.to, m.now).Success? {
      TransitionKeepsBooks(s, m.engine, m.id, m.to, m.now);
    }
  }

  lemma MoveKeepsAccountable(s: Shop, m: Move, v: VariantId)
    requires BooksAgree(s)
    ensures Accountable(AfterMove(s, m), v) == Accountable(s, v)
  {
    if Transition(s, m.engine, m.id, m.to, m.now).Success? {
      StockEffectFlow(s, m.engine, m.id, m.to, v);
      OrdersFlow(s.orders, m.id, m.to, m.now, v);
    }
  }

  /** A transition that goes through, in numbers: the variant's reserved units and its units outstanding. */
  lemma MoveInReserve(s: Shop, m: Move, v: VariantId)
    requires BooksAgree(s) && Transition(s, m.engine, m.id, m.to, m.now).Success?
    ensures var demand, reserved := Demand(s.orders[m.id].items, v), InReserve(s, v);
            InReserve(AfterMove(s, m), v) ==
            reserved - if m.to == Paid then demand else if m.to == Cancelled then Min(demand, reserved) else 0
  {
    StockEffectFlow(s, m.engine, m.id, m.to, v);
  }

  lemma MoveOutstanding(s: Shop, m: Move, v: VariantId)
    requires BooksAgree(s) && Transition(s, m.engine, m.id, m.to, m.now).Success?
    ensures Units(Outstanding, AfterMove(s, m).orders, v) ==
            Units(Outstanding, s.orders, v) -
            if m.to == Paid || (m.to == Cancelled && s.orders[m.id].status == Pending) then Demand(s.orders[m.id].items, v) else 0
  {
    assert AfterMove(s, m).orders == s.orders[m.id := Advance(s.orders[m.id], m.to, m.now)];
    OrdersFlow(s.orders, m.id, m.to, m.now, v);
  }

  lemma MoveShiftsUncovered(s: Shop, m: Move, v: VariantId)
    requires BooksAgree(s)
    ensures Uncovered(AfterMove(s, m), v) == Uncovered(s, v) + Drift(s, m, v)
  {
    if Transition(s, m.engine, m.id, m.to, m.now).Success? {
      assert Drift(s, m, v) == if m.to != Cancelled then 0
        else Min(Demand(s.orders[m.id].items, v), InReserve(s, v)) - if s.orders[m.id].status == Pending then Demand(s.orders[m.id].items, v) else 0;
      MoveInReserve(s, m, v);
      MoveOutstanding(s, m, v);
    }
  }

  lemma MoveFlow(s: Shop, m: Move, v: VariantId)
    requires BooksAgree(s)
    ensures BooksAgree(AfterMove(s, m))
    ensures Accountable(AfterMove(s, m), v) == Accountable(s, v)
    ensures Uncovered(AfterMove(s, m), v) == Uncovered(s, v) + Drift(s, m, v)
  {
    MoveKeepsBooks(s, m);
    MoveKeepsAccountable(s, m, v);
    MoveShiftsUncovered(s, m, v);
  }

  lemma CheckoutFlow(s: Shop, engine: Engine, owner: Owner, input: CheckoutInput, now: int, v: VariantId)
    requires BooksAgree(s) && Checkout(s, engine, owner, input, now).Success?
    ensures var s' := Checkout(s, engine, owner, input, now).value;
            Accountable(s', v) == Accountable(s, v) && Uncovered(s', v) == Uncovered(s, v)
  {
    var o := CheckoutShape(s, engine, owner, input, now);
    FreshIsConsistent(o);
    ReservingFlow(s.depot, engine, o.items, |s.orders|, v);
    UnitsAppend(Outstanding, s.orders, v, o);
    UnitsAppend(Sold, s.orders, v, o);
  }

  lemma ReservingFlow(d: Depot, engine: Engine, items: seq<OrderItem>, id: nat, v: VariantId)
    requires Sound(d.rows) && Process(Reserving, d, engine, items, id).Success?
    ensures var d' := Process(Reserving, d, engine, items, id).value;
            && Sum(Plain(OnHand), v, d'.rows) == Sum(Plain(OnHand), v, d.rows)
            && Sum(Plain(Reserved), v, d'.rows) == Sum(Plain(Reserved), v, d.rows) + Demand(items, v)
  {
    ProcessIsBooked(Reserving, d, engine, items, id);
    ProcessTakes(Reserving, d, engine, items, id, v);
  }

  lemma QuietBooks(s: Shop, s': Shop)
    requires Quiet(s, s')
    ensures BooksAgree(s) <==> BooksAgree(s')
  {
    forall i | 0 <= i < |s.orders|
      ensures SameOrder(s.orders[i], s'.orders[i])
      ensures forall v :: Filed(s.depot.ledger, i, s.orders[i], v) <==> Filed(s.depot.ledger, i, s'.orders[i], v)
    {
    }
  }

  lemma QuietFlow(s: Shop, s': Shop, v: VariantId)
    requires Quiet(s, s')
    ensures Accountable(s', v) == Accountable(s, v) && Uncovered(s', v) == Uncovered(s, v)
  {
    assert forall i :: 0 <= i < |s.orders| ==> SameOrder(s.orders[i], s'.orders[i]);
    UnitsSame(Outstanding, s.orders, s'.orders, v);
    UnitsSame(Sold, s.orders, s'.orders, v);
  }

  /** What a cancellation fails to give back does not depend on quiet changes before it. */
  lemma QuietDrift(s: Shop, s': Shop, m: Move, v: VariantId)
    requires Quiet(s, s')
    ensures Drift(s', m, v) == Drift(s, m, v)
  {
    assert forall i :: 0 <= i < |s.orders| ==> SameOrder(s.orders[i], s'.orders[i]);
  }

  // ---------- one step ----------

  function MoveOf(s: Shop, step: Step): Option<Move> {
    match step
    case ChangeStatus(engine, id, to, now) => Some(Move(engine, id, to, now))
    case ReceiveWebhook(engine, provider, parsed, now) => WebhookMove(s, engine, provider, parsed, now)
    case _ => None
  }

  function DriftOf(s: Shop, step: Step, v: VariantId): int {
    if MoveOf(s, step).Some? then Drift(s, MoveOf(s, step).value, v) else 0
  }

  function AdjustedBy(s: Shop, step: Step, v: VariantId): int {
    if step.AdjustStock? && step.variant == v then EffectiveDelta(s.depot, v, step.code, step.delta) else 0
  }

  /** At most one transition between two quiet changes. */
  lemma QuietMoveQuiet(s: Shop, before: Shop, m: Option<Move>, s': Shop, v: VariantId)
    requires BooksAgree(s) && Quiet(s, before)
    requires Quiet(if m.Some? then AfterMove(before, m.value) else before, s')
    ensures BooksAgree(s') && Accountable(s', v) == Accountable(s, v)
    ensures Uncovered(s', v) == Uncovered(s, v) + if m.Some? then Drift(s, m.value, v) else 0
  {
    QuietBooks(s, before);
    QuietFlow(s, before, v);
    if m.Some? {
      QuietDrift(s, before, m.value, v);
      MoveFlow(before, m.value, v);
      QuietBooks(AfterMove(before, m.value), s');
      QuietFlow(AfterMove(before, m.value), s', v);
    } else {
      QuietBooks(before, s');
      QuietFlow(before, s', v);
    }
  }

  lemma AdjustFlow(s: Shop, variant: VariantId, code: string, delta: int, v: VariantId)
    requires BooksAgree(s)
    ensures var s' := Next(s, Step.AdjustStock(variant, code, delta));
            && BooksAgree(s')
            && Accountable(s', v) == Accountable(s, v) + AdjustedBy(s, Step.AdjustStock(variant, code, delta), v)
            && Uncovered(s', v) == Uncovered(s, v)
  {
    if Adjust(s.depot, variant, code, delta).Success? {
      AdjustKeepsBooks(s, variant, code, delta);
      AdjustSums(s.depot, variant, code, delta, v);
    }
  }

  lemma WebhookFlow(s: Shop, engine: Engine, provider: string, parsed: WebhookResult, now: int, v: VariantId)
    requires BooksAgree(s)
    ensures var step := ReceiveWebhook(engine, provider, parsed, now);
            && BooksAgree(Next(s, step))
            && Accountable(Next(s, step), v) == Accountable(s, v)
            && Uncovered(Next(s, step), v) == Uncovered(s, v) + DriftOf(s, step, v)
  {
    var before := WebhookShape(s, engine, provider, parsed, now);
    QuietMoveQuiet(s, before, WebhookMove(s, engine, provider, parsed, now), Next(s, ReceiveWebhook(engine, provider, parsed, now)), v);
  }

  lemma OtherStepsAreQuiet(s: Shop, step: Step)
    requires !step.AdjustStock? && !step.PlaceOrder? && !step.ChangeStatus? && !step.ReceiveWebhook?
    ensures Quiet(s, Next(s, step))
  {
  }

  /** Every step: stock and sales move only by what an adjustment really added, promises and reservations only by
      what a cancellation failed to give back or took from others. */
  lemma StepFlow(s: Shop, step: Step, v: VariantId)
    requires BooksAgree(s)
    ensures BooksAgree(Next(s, step))
    ensures Accountable(Next(s, step), v) == Accountable(s, v) + AdjustedBy(s, step, v)
    ensures Uncovered(Next(s, step), v) == Uncovered(s, v) + DriftOf(s, step, v)
  {
    if step.AdjustStock? {
      AdjustFlow(s, step.variant, step.code, step.delta, v);
    } else if step.PlaceOrder? {
      if Checkout(s, step.engine, step.owner, step.input, step.now).Success? {
        CheckoutKeepsBooks(s, step.engine, step.owner, step.input, step.now);
        CheckoutFlow(s, step.engine, step.owner, step.input, step.now, v);
      }
    } else if step.ChangeStatus? {
      MoveFlow(s, Move(step.engine, step.id, step.to, step.now), v);
    } else if step.ReceiveWebhook? {
      WebhookFlow(s, step.engine, step.provider, step.parsed, step.now, v);
    } else {
      OtherStepsAreQuiet(s, step);
      QuietBooks(s, Next(s, step));
      QuietFlow(s, Next(s, step), v);
    }
  }

  // ---------- whole runs ----------

  function TotalAdjusted(s: Shop, steps: seq<Step>, v: VariantId): int
    decreases |steps|
  {
    if steps == [] then 0 else AdjustedBy(s, steps[0], v) + TotalAdjusted(Next(s, steps[0]), steps[1..], v)
  }

  /** No oversell: in every run, what is on the shelf plus what was sold to orders that were ever paid equals what it
      was at the start plus what adjustments really added; shelves and reservations never go below zero, so no more
      can be sold than was ever there. */
  lemma {:induction false} NoOversell(s: Shop, steps: seq<Step>, v: VariantId)
    requires BooksAgree(s)
    ensures BooksAgree(Run(s, steps)) && Sound(Run(s, steps).depot.rows)
    ensures OnShelf(Run(s, steps), v) + Units(Sold, Run(s, steps).orders, v) ==
            OnShelf(s, v) + Units(Sold, s.orders, v) + TotalAdjusted(s, steps, v)
    ensures Units(Sold, Run(s, steps).orders, v) <= Units(Sold, s.orders, v) + OnShelf(s, v) + TotalAdjusted(s, steps, v)
    decreases |steps|
  {
    if steps != [] {
      StepFlow(s, steps[0], v);
      NoOversell(Next(s, steps[0]), steps[1..], v);
    }
    MeasureNonnegative(Plain(OnHand), v, Run(s, steps).depot.rows);
  }

  /** Sold at most once, for every order of every run, webhooks delivered any number of times included. */
  lemma SoldAtMostOnce(s: Shop, steps: seq<Step>, id: nat, v: VariantId)
    requires BooksAgree(s) && id < |Run(s, steps).orders|
    ensures var o, ledger := Run(s, steps).orders[id], Run(s, steps).depot.ledger;
            && Tally(ledger, Reservation, id, v) == 0 - Demand(o.items, v)
            && Tally(ledger, Sale, id, v) == (if Paid in Path(o.events) then 0 - Demand(o.items, v) else 0)
            && 0 <= Tally(ledger, ReservationRelease, id, v) <= Demand(o.items, v)
            && (Tally(ledger, ReservationRelease, id, v) > 0 ==> o.status == Cancelled)
  {
    NoOversell(s, steps, v);
    assert Filed(Run(s, steps).depot.ledger, id, Run(s, steps).orders[id], v);
  }

  /** What the record of an order tells about its life. */
  ghost predicate TellsItsLife(o: Order) {
    var p := Path(o.events);
    && LegalPath(p) && p[|p| - 1] == o.status && |p| <= 6
    && (forall i, j :: 0 <= i < j < |p| ==> Rank(p[i]) < Rank(p[j]))
    && (o.paidAt.Some? <==> Paid in p)
    && (o.status == Refunded ==> Paid in p)
    && (o.cancelledAt.Some? <==> o.status == Cancelled)
    && (o.refundedAt.Some? <==> o.status == Refunded)
  }

  lemma ConsistentTellsItsLife(o: Order)
    requires Consistent(o)
    ensures TellsItsLife(o)
  {
    LegalPathShape(Path(o.events));
  }

  /** The life of every order of every run is a legal one, and its record tells it. */
  lemma LivesAreLegal(s: Shop, steps: seq<Step>, id: nat)
    requires BooksAgree(s) && id < |Run(s, steps).orders|
    ensures TellsItsLife(Run(s, steps).orders[id])
  {
    NoOversell(s, steps, 0);
    ConsistentTellsItsLife(Run(s, steps).orders[id]);
  }

  // ---------- reservations ----------

  /** Someone else's reservation is taken: a cancellation of an order that was already paid. */
  predicate Steals(s: Shop, step: Step, v: VariantId) {
    && MoveOf(s, step).Some? && MoveOf(s, step).value.to == Cancelled
    && var id := MoveOf(s, step).value.id;
    && id < |s.orders| && s.orders[id].status in {Paid, Packed}
    && Demand(s.orders[id].items, v) > 0 && InReserve(s, v) > 0
  }

  /** Cancelling never fails: releasing settles for what is there. */
  lemma CancellingSucceedsIff(s: Shop, engine: Engine, id: nat, now: int)
    requires Sound(s.depot.rows)
    ensures Transition(s, engine, id, Cancelled, now).Success? <==> id < |s.orders| && s.orders[id].status in {Pending, Paid, Packed}
  {
    if id < |s.orders| {
      ProcessSucceedsIff(Releasing, s.depot, engine, s.orders[id].items, id);
    }
  }

  /** Reservation accounting over every run: no variant ever has more reserved than its pending orders ask for. */
  lemma {:induction false} ReservedWithinOutstanding(s: Shop, steps: seq<Step>, v: VariantId)
    requires BooksAgree(s) && InReserve(s, v) <= Units(Outstanding, s.orders, v)
    ensures InReserve(Run(s, steps), v) <= Units(Outstanding, Run(s, steps).orders, v)
    decreases |steps|
  {
    if steps != [] {
      StepFlow(s, steps[0], v);
      DriftKeepsInequality(s, steps[0], v);
      ReservedWithinOutstanding(Next(s, steps[0]), steps[1..], v);
    }
  }

  lemma DriftKeepsInequality(s: Shop, step: Step, v: VariantId)
    requires BooksAgree(s) && Uncovered(s, v) >= 0
    ensures Uncovered(s, v) + DriftOf(s, step, v) >= 0
    ensures Uncovered(s, v) == 0 ==> (DriftOf(s, step, v) == 0 <==> !Steals(s, step, v))
  {
    MeasureNonnegative(Plain(Reserved), v, s.depot.rows);
    if MoveOf(s, step).Some? {
      var m := MoveOf(s, step).value;
      if m.to == Cancelled {
        CancellingSucceedsIff(s, m.engine, m.id, m.now);
        if m.id < |s.orders| {
          UnitsUpdate(Outstanding, s.orders, v, m.id, s.orders[m.id]);
        }
      }
    }
  }

  /** The equality is kept by exactly those steps that do not take another order's reservation. */
  lemma BalanceKeptIff(s: Shop, step: Step, v: VariantId)
    requires BooksAgree(s) && InReserve(s, v) == Units(Outstanding, s.orders, v)
    ensures InReserve(Next(s, step), v) == Units(Outstanding, Next(s, step).orders, v) <==> !Steals(s, step, v)
  {
    StepFlow(s, step, v);
    DriftKeepsInequality(s, step, v);
  }

  /** No step of the run cancels an order from PAID or PACKED. */
  predicate NoLateCancellation(s: Shop, steps: seq<Step>)
    decreases |steps|
  {
    steps == [] || (!CancelsLate(s, steps[0]) && NoLateCancellation(Next(s, steps[0]), steps[1..]))
  }

  predicate CancelsLate(s: Shop, step: Step) {
    step.ChangeStatus? && step.to == Cancelled && step.id < |s.orders| && s.orders[step.id].status in {Paid, Packed}
  }

  /** Webhooks cancel only pending orders, so only an explicit status change can steal. */
  lemma OnlyLateCancellationSteals(s: Shop, step: Step, v: VariantId)
    requires Steals(s, step, v)
    ensures CancelsLate(s, step)
  {
  }

  /** On runs without late cancellations, exactly the units that pending orders ask for are reserved. */
  lemma {:induction false} ReservedIsOutstanding(s: Shop, steps: seq<Step>, v: VariantId)
    requires BooksAgree(s) && InReserve(s, v) == Units(Outstanding, s.orders, v) && NoLateCancellation(s, steps)
    ensures InReserve(Run(s, steps), v) == Units(Outstanding, Run(s, steps).orders, v)
    decreases |steps|
  {
    if steps != [] {
      StepFlow(s, steps[0], v);
      if Steals(s, steps[0], v) {
        OnlyLateCancellationSteals(s, steps[0], v);
        assert false;
      }
      BalanceKeptIff(s, steps[0], v);
      ReservedIsOutstanding(Next(s, steps[0]), steps[1..], v);
    }
  }
}
