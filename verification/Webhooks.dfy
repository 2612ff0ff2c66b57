/** Payment providers deliver at least once: what repeated and misdirected webhooks can and cannot do. */
module Webhooks {
  import opened Prelude
  import opened Tables
  import opened Allocation
  import opened Ledger
  import opened Greedy
  import opened Orders
  import opened Payments
  import opened Lifecycle
  import opened Books
  import opened Runs
  import opened Conservation
  import opened Promises
  import opened Deliveries

  // ---------- delivering twice ----------

  function WithoutWebhooks(events: seq<Event>): seq<Event> {
    if events == [] then []
    else WithoutWebhooks(events[..|events| - 1]) + if events[|events| - 1].WebhookReceived? then [] else [events[|events| - 1]]
  }

  /** The same order, except for how often a webhook about it was logged. */
  ghost predicate SameButLog(a: Order, b: Order) {
    a.(events := []) == b.(events := []) && WithoutWebhooks(a.events) == WithoutWebhooks(b.events)
  }

  ghost predicate SameButLogs(s: Shop, s': Shop) {
    && s' == s.(orders := s'.orders)
    && |s'.orders| == |s.orders| && forall i :: 0 <= i < |s.orders| ==> SameButLog(s.orders[i], s'.orders[i])
  }

  lemma LoggingOnlyLogs(s: Shop, id: nat, eventType: string)
    requires id < |s.orders|
    ensures SameButLogs(s, LogWebhook(s, id, eventType))
  {
    var events := s.orders[id].events;
    assert (events + [WebhookReceived(eventType)])[..|events|] == events;
  }

  lemma {:induction false} NewestSame(orders: seq<Order>, orders': seq<Order>, reference: string)
    requires |orders| == |orders'| && forall i :: 0 <= i < |orders| ==> orders[i].paymentReference == orders'[i].paymentReference
    ensures NewestWithReference(orders, reference) == NewestWithReference(orders', reference)
  {
    if orders != [] {
      NewestSame(orders[..|orders| - 1], orders'[..|orders| - 1], reference);
    }
  }

  lemma UpdateTwice(payments: seq<Payment>, order: nat, provider: string, status: PaymentStatus)
    ensures var once := UpdatePayments(payments, order, provider, status);
            UpdatePayments(once, order, provider, status) == once
  {
  }

  lemma AfterMoveKeeps(s: Shop, m: Move)
    requires Sound(s.depot.rows)
    ensures var s' := AfterMove(s, m);
            && |s'.orders| == |s.orders| && Sound(s'.depot.rows) && s'.payments == s.payments
            && (forall i :: 0 <= i < |s.orders| ==> s'.orders[i].paymentReference == s.orders[i].paymentReference)
  {
    if Transition(s, m.engine, m.id, m.to, m.now).Success? && (m.to == Paid || m.to == Cancelled) {
      ProcessIsBooked(if m.to == Paid then Committing else Releasing, s.depot, m.engine, s.orders[m.id].items, m.id);
    }
  }

  /** A webhook does not change which order the next one is about. */
  lemma DeliveredKeeps(s: Shop, m: Option<Move>, id: nat, provider: string, parsed: WebhookResult)
    requires Sound(s.depot.rows) && id < |s.orders|
    ensures var s' := AfterDelivery(s, m, id, provider, parsed);
            && |s'.orders| == |s.orders| && Sound(s'.depot.rows) && MatchOrder(s', parsed) == MatchOrder(s, parsed)
  {
    var s' := AfterDelivery(s, m, id, provider, parsed);
    if m.Some? {
      AfterMoveKeeps(LogWebhook(s, id, parsed.eventType), m.value);
    }
    NewestSame(s.orders, s'.orders, parsed.paymentReference);
  }

  /** Once delivered, the same webhook asks for nothing that would still go through. */
  lemma NothingLeftToMove(s: Shop, engine: Engine, engine': Engine, id: nat, provider: string, parsed: WebhookResult, now: int, now': int)
    requires Sound(s.depot.rows) && id < |s.orders|
    ensures var s1 := AfterDelivery(s, AsksFor(s.orders[id], engine, id, parsed.newStatus, now), id, provider, parsed);
            id < |s1.orders| &&
            var m := AsksFor(s1.orders[id], engine', id, parsed.newStatus, now');
            m.Some? ==> Transition(s1, engine', id, m.value.to, now').Failure?
  {
    var m := AsksFor(s.orders[id], engine, id, parsed.newStatus, now);
    var logged := LogWebhook(s, id, parsed.eventType);
    DeliveredKeeps(s, m, id, provider, parsed);
    if m.Some? {
      if m.value.to == Paid {
        PayingSucceedsIff(logged, engine, id, now);
        PayingSucceedsIff(AfterDelivery(s, m, id, provider, parsed), engine', id, now');
      } else if m.value.to == Cancelled {
        CancellingSucceedsIff(logged, engine, id, now);
      }
    }
  }

  /** A delivery that moves nothing and finds the payments as it wants them only logs. */
  lemma QuietDelivery(s: Shop, m: Option<Move>, id: nat, provider: string, parsed: WebhookResult)
    requires id < |s.orders|
    requires UpdatePayments(s.payments, id, provider, StatusOrPending(parsed.newStatus)) == s.payments || (m.Some? && m.value.to != Paid)
    requires m.Some? ==> Transition(s, m.value.engine, m.value.id, m.value.to, m.value.now).Failure?
    ensures SameButLogs(s, AfterDelivery(s, m, id, provider, parsed))
  {
    LoggingOnlyLogs(s, id, parsed.eventType);
    if m.Some? {
      TransitionOfLogged(s, id, parsed.eventType, m.value);
    }
  }

  /** A provider that repeats a webhook changes nothing the second time but the order's webhook log: no stock, no
      ledger line, no status, no payment. */
  lemma WebhookTwice(s: Shop, engine: Engine, engine': Engine, provider: string, parsed: WebhookResult, now: int, now': int)
    requires Sound(s.depot.rows)
    ensures var s1 := Next(s, ReceiveWebhook(engine, provider, parsed, now));
            SameButLogs(s1, Next(s1, ReceiveWebhook(engine', provider, parsed, now')))
  {
    if Heeded(provider, parsed) && MatchOrder(s, parsed).Success? && MatchOrder(s, parsed).value.Some? {
      var id := MatchOrder(s, parsed).value.value;
      var m := AsksFor(s.orders[id], engine, id, parsed.newStatus, now);
      var s1 := AfterDelivery(s, m, id, provider, parsed);
      MatchedWebhook(s, engine, provider, parsed, now, id);
      DeliveredKeeps(s, m, id, provider, parsed);
      MatchedWebhook(s1, engine', provider, parsed, now', id);
      RedeliveryIsQuiet(s, engine, engine', id, provider, parsed, now, now');
    } else {
      UnmatchedWebhook(s, engine, provider, parsed, now);
      UnmatchedWebhook(s, engine', provider, parsed, now');
    }
  }

  /** A delivery leaves the payments as it wants them, unless it was a refund that was rolled back. */
  lemma DeliverySettlesPayments(s: Shop, engine: Engine, id: nat, provider: string, parsed: WebhookResult, now: int)
    requires Sound(s.depot.rows) && id < |s.orders|
    ensures var s1 := AfterDelivery(s, AsksFor(s.orders[id], engine, id, parsed.newStatus, now), id, provider, parsed);
            || UpdatePayments(s1.payments, id, provider, StatusOrPending(parsed.newStatus)) == s1.payments
            || parsed.newStatus == Some(PaymentRefunded)
  {
    var m := AsksFor(s.orders[id], engine, id, parsed.newStatus, now);
    var logged := LogWebhook(s, id, parsed.eventType);
    if m.Some? {
      AfterMoveKeeps(logged, m.value);
      if m.value.to == Cancelled {
        CancellingSucceedsIff(logged, engine, id, now);
      }
    }
    UpdateTwice(s.payments, id, provider, StatusOrPending(parsed.newStatus));
  }

  lemma RedeliveryIsQuiet(s: Shop, engine: Engine, engine': Engine, id: nat, provider: string, parsed: WebhookResult, now: int, now': int)
    requires Sound(s.depot.rows) && id < |s.orders|
    ensures var s1 := AfterDelivery(s, AsksFor(s.orders[id], engine, id, parsed.newStatus, now), id, provider, parsed);
            && id < |s1.orders|
            && SameButLogs(s1, AfterDelivery(s1, AsksFor(s1.orders[id], engine', id, parsed.newStatus, now'), id, provider, parsed))
  {
    var s1 := AfterDelivery(s, AsksFor(s.orders[id], engine, id, parsed.newStatus, now), id, provider, parsed);
    NothingLeftToMove(s, engine, engine', id, provider, parsed, now, now');
    DeliverySettlesPayments(s, engine, id, provider, parsed, now);
    QuietDelivery(s1, AsksFor(s1.orders[id], engine', id, parsed.newStatus, now'), id, provider, parsed);
  }

  // ---------- captured is not paid ----------

  lemma WebhookPath(o: Order, o': Order, eventType: string, to: Status, now: int)
    requires LoggedAndMoved(o, o', eventType, to, now)
    ensures Path(o'.events) == Path(o.events) + if to == o.status then [] else [to]
  {
    PathAppend(o.events, WebhookReceived(eventType));
    PathAppend(o.events + [WebhookReceived(eventType)], StatusChanged(to));
  }

  /** A captured webhook always marks the payments captured. The order is then a paid one exactly if it was before, or
      was pending with every line still reserved and on the shelf. */
  lemma CapturedPaysIff(s: Shop, engine: Engine, provider: string, parsed: WebhookResult, now: int, id: nat)
    requires Sound(s.depot.rows) && Heeded(provider, parsed) && IsAbout(s, parsed, id) && parsed.newStatus == Some(Captured)
    ensures var s' := Next(s, ReceiveWebhook(engine, provider, parsed, now));
            && |s'.payments| == |s.payments| && |s'.orders| == |s.orders|
            && (forall i :: 0 <= i < |s.payments| && s.payments[i].order == id && s.payments[i].provider == provider ==>
                              s'.payments[i].status == Captured)
            && (Paid in Path(s'.orders[id].events) <==>
                || Paid in Path(s.orders[id].events)
                || (s.orders[id].status == Pending && Fits(s.orders[id].items, s.depot.rows)))
  {
    WebhookAboutOrder(s, engine, provider, parsed, now, id);
    NextIsDelivered(s, engine, provider, parsed, now);
    CapturedPath(s.orders[id], Next(s, ReceiveWebhook(engine, provider, parsed, now)).orders[id],
                 Fits(s.orders[id].items, s.depot.rows), parsed.eventType, now);
  }

  lemma NextIsDelivered(s: Shop, engine: Engine, provider: string, parsed: WebhookResult, now: int)
    ensures var r := HandleWebhook(s, engine, provider, parsed, now);
            Next(s, ReceiveWebhook(engine, provider, parsed, now)) == if r.Success? then r.value.shop else s
  {
  }

  lemma CapturedPath(o: Order, o': Order, payable: bool, eventType: string, now: int)
    requires LoggedAndMoved(o, o', eventType, StatusAfter(o, payable, Some(Captured)), now)
    ensures Paid in Path(o'.events) <==> Paid in Path(o.events) || (o.status == Pending && payable)
  {
    WebhookPath(o, o', eventType, StatusAfter(o, payable, Some(Captured)), now);
  }

  // ---------- webhooks only ----------

  ghost predicate WebhooksOnly(steps: seq<Step>) {
    forall k :: 0 <= k < |steps| ==> steps[k].ReceiveWebhook?
  }

  /** The ledger says the same about the order. */
  ghost predicate SameBooks(s: Shop, s': Shop, id: nat) {
    forall reason, v :: Tally(s'.depot.ledger, reason, id, v) == Tally(s.depot.ledger, reason, id, v)
  }

  /** A transition lengthens the path of its order by one status and leaves other orders alone. */
  lemma MovePath(s: Shop, m: Move, id: nat)
    requires BooksAgree(s) && id < |s.orders| && Transition(s, m.engine, m.id, m.to, m.now).Success?
    ensures var s' := AfterMove(s, m);
            && |s'.orders| == |s.orders|
            && (m.id != id ==> s'.orders[id] == s.orders[id])
            && (m.id == id ==>
                  s'.orders[id].status == m.to && Path(s'.orders[id].events) == Path(s.orders[id].events) + [m.to])
  {
    AdvanceKeepsConsistent(s.orders[m.id], m.to, m.now);
  }

  lemma MoveBooks(s: Shop, m: Move, id: nat)
    requires BooksAgree(s) && Transition(s, m.engine, m.id, m.to, m.now).Success?
    requires m.id != id || m.to == Refunded
    ensures SameBooks(s, AfterMove(s, m), id)
  {
    forall reason, v ensures Tally(AfterMove(s, m).depot.ledger, reason, id, v) == Tally(s.depot.ledger, reason, id, v) {
      TransitionTally(s.depot, m.engine, s.orders[m.id], m.id, m.to, reason, id, v);
    }
  }

  /** An order's path grew by at most one status, and its stock moved only if that took it out of PENDING. */
  ghost predicate MovedOnce(s: Shop, s': Shop, id: nat)
    requires id < |s.orders|
  {
    && |s'.orders| == |s.orders|
    && (Path(s'.orders[id].events) == Path(s.orders[id].events)
        || Path(s'.orders[id].events) == Path(s.orders[id].events) + [s'.orders[id].status])
    && (s.orders[id].status != Pending ==> s'.orders[id].status != Pending)
    && (s.orders[id].status != Pending || s'.orders[id].status == Pending ==> SameBooks(s, s', id))
  }

  lemma OtherMoved(s: Shop, m: Move, id: nat)
    requires BooksAgree(s) && id < |s.orders| && m.id != id && Transition(s, m.engine, m.id, m.to, m.now).Success?
    ensures MovedOnce(s, AfterMove(s, m), id)
  {
    MovePath(s, m, id);
    MoveBooks(s, m, id);
  }

  lemma ItselfMoved(s: Shop, m: Move)
    requires BooksAgree(s) && m.id < |s.orders| && m.to in {Paid, Cancelled, Refunded}
    requires m.to == Cancelled ==> s.orders[m.id].status == Pending
    requires Transition(s, m.engine, m.id, m.to, m.now).Success?
    ensures MovedOnce(s, AfterMove(s, m), m.id)
  {
    MovePath(s, m, m.id);
    if m.to == Refunded {
      MoveBooks(s, m, m.id);
    } else if m.to == Paid {
      PaidFromPending(s, m);
    }
  }

  lemma PaidFromPending(s: Shop, m: Move)
    requires m.to == Paid && Transition(s, m.engine, m.id, m.to, m.now).Success?
    ensures s.orders[m.id].status == Pending
  {
  }

  /** A transition that webhooks can ask for moves an order's stock only out of PENDING. */
  lemma MoveOnce(s: Shop, m: Move, id: nat)
    requires BooksAgree(s) && id < |s.orders| && m.to in {Paid, Cancelled, Refunded}
    requires m.id == id && m.to == Cancelled ==> s.orders[id].status == Pending
    ensures MovedOnce(s, AfterMove(s, m), id)
  {
    if Transition(s, m.engine, m.id, m.to, m.now).Failure? {
    } else if m.id == id {
      ItselfMoved(s, m);
    } else {
      OtherMoved(s, m, id);
    }
  }

  lemma MovedBetweenQuiet(s: Shop, before: Shop, after: Shop, s': Shop, id: nat)
    requires id < |s.orders| && Quiet(s, before) && MovedOnce(before, after, id) && Quiet(after, s')
    ensures MovedOnce(s, s', id)
  {
    assert SameOrder(s.orders[id], before.orders[id]);
    assert SameOrder(after.orders[id], s'.orders[id]);
  }

  lemma WebhookOnce(s: Shop, step: Step, id: nat)
    requires BooksAgree(s) && id < |s.orders| && step.ReceiveWebhook?
    ensures MovedOnce(s, Next(s, step), id)
  {
    var before := WebhookShape(s, step.engine, step.provider, step.parsed, step.now);
    var m := WebhookMove(s, step.engine, step.provider, step.parsed, step.now);
    QuietBooks(s, before);
    assert SameOrder(s.orders[id], before.orders[id]);
    if m.Some? {
      MoveOnce(before, m.value, id);
    }
    MovedBetweenQuiet(s, before, if m.Some? then AfterMove(before, m.value) else before, Next(s, step), id);
  }

  /** A pending order has had nothing sold and nothing released. */
  lemma PendingIsUntouched(s: Shop, id: nat, v: VariantId)
    requires BooksAgree(s) && id < |s.orders| && |Path(s.orders[id].events)| <= 2
    ensures Tally(s.depot.ledger, Sale, id, v) == 0 || Tally(s.depot.ledger, ReservationRelease, id, v) == 0
    ensures s.orders[id].status == Pending ==>
              Tally(s.depot.ledger, Sale, id, v) == 0 && Tally(s.depot.ledger, ReservationRelease, id, v) == 0
  {
    LegalPathShape(Path(s.orders[id].events));
    assert Filed(s.depot.ledger, id, s.orders[id], v);
  }

  /** The number of steps of a run that move the order's stock. */
  ghost function StockMoves(s: Shop, steps: seq<Step>, id: nat): nat
    decreases |steps|
  {
    if steps == [] then 0
    else (if SameBooks(s, Next(s, steps[0]), id) then 0 else 1) + StockMoves(Next(s, steps[0]), steps[1..], id)
  }

  lemma {:induction false} StockUnmoved(s: Shop, steps: seq<Step>, id: nat)
    requires StockMoves(s, steps, id) == 0
    ensures SameBooks(s, Run(s, steps), id)
    decreases |steps|
  {
    if steps != [] {
      StockUnmoved(Next(s, steps[0]), steps[1..], id);
    }
  }

  /** However many webhooks arrive, in whatever order: at most one of them moves an order's stock, and none does once
      the order is no longer pending. */
  lemma {:induction false} WebhooksMoveStockOnce(s: Shop, steps: seq<Step>, id: nat)
    requires BooksAgree(s) && id < |s.orders| && WebhooksOnly(steps)
    ensures StockMoves(s, steps, id) <= if s.orders[id].status == Pending then 1 else 0
    ensures |Run(s, steps).orders| == |s.orders|
    decreases |steps|
  {
    if steps != [] {
      StepFlow(s, steps[0], 0);
      WebhookOnce(s, steps[0], id);
      WebhooksMoveStockOnce(Next(s, steps[0]), steps[1..], id);
    }
  }

  /** And a pending order has its stock then either sold or released, never both. */
  lemma {:induction false} WebhooksSellOrRelease(s: Shop, steps: seq<Step>, id: nat, v: VariantId)
    requires BooksAgree(s) && id < |s.orders| && WebhooksOnly(steps)
    ensures var s' := Run(s, steps);
            && (s.orders[id].status != Pending ==> SameBooks(s, s', id))
            && (|| Tally(s'.depot.ledger, Sale, id, v) == Tally(s.depot.ledger, Sale, id, v)
                || Tally(s'.depot.ledger, ReservationRelease, id, v) == Tally(s.depot.ledger, ReservationRelease, id, v))
    decreases |steps|
  {
    WebhooksMoveStockOnce(s, steps, id);
    if s.orders[id].status != Pending {
      StockUnmoved(s, steps, id);
    } else if steps != [] {
      var next := Next(s, steps[0]);
      StepFlow(s, steps[0], v);
      WebhookOnce(s, steps[0], id);
      WebhooksSellOrRelease(next, steps[1..], id, v);
      LegalPathShape(Path(s.orders[id].events));
      PendingIsUntouched(s, id, v);
      PendingIsUntouched(next, id, v);
    }
  }
}
