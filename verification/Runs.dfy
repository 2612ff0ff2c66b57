/** The services as one state machine: every call is a step that either succeeds or leaves the tables alone. */
module Runs {
  import opened Prelude
  import opened Tables
  import opened Allocation
  import opened Inventory
  import opened Carts
  import opened Orders
  import opened Payments
  import opened Lifecycle

  datatype Step =
    | EditCatalog(variant: VariantId, listing: Listing)
    | OpenCart(owner: Owner)
    | AddToCart(owner: Owner, variant: VariantId, quantity: int)
    | UpdateCartItem(owner: Owner, item: nat, quantity: int)
    | RemoveCartItem(owner: Owner, item: nat)
    | EmptyCart(owner: Owner)
    | MergeCarts(session: string, user: nat)
    | AdjustStock(variant: VariantId, code: string, delta: int)
    | PlaceOrder(engine: Engine, owner: Owner, input: CheckoutInput, now: int)
    | ChangeStatus(engine: Engine, id: nat, to: Status, now: int)
    | StartPayment(id: nat, provider: string, charge: ChargeResult)
    | ReceiveWebhook(engine: Engine, provider: string, parsed: WebhookResult, now: int)

  function OrElse<T, E>(r: Result<T, E>, fallback: T): T {
    if r.Success? then r.value else fallback
  }

  /** The tables after a call; a call that raises is rolled back. */
  function Next(s: Shop, step: Step): Shop {
    match step
    case EditCatalog(v, listing) => s.(catalog := s.catalog[v := listing])
    case OpenCart(owner) => s.(carts := OrElse(GetOrCreateCart(s.carts, owner), s.carts))
    case AddToCart(owner, v, quantity) =>
      if owner !in s.carts then s
      else s.(carts := s.carts[owner := OrElse(AddItem(s.carts[owner], s.catalog, s.depot, v, quantity), s.carts[owner])])
    case UpdateCartItem(owner, item, quantity) =>
      if owner !in s.carts then s
      else s.(carts := s.carts[owner := OrElse(UpdateItem(s.carts[owner], s.depot, item, quantity), s.carts[owner])])
    case RemoveCartItem(owner, item) =>
      if owner !in s.carts then s else s.(carts := s.carts[owner := RemoveItem(s.carts[owner], item)])
    case EmptyCart(owner) =>
      if owner !in s.carts then s else s.(carts := s.carts[owner := ClearCart(s.carts[owner])])
    case MergeCarts(session, user) => s.(carts := OrElse(MergeAnonymous(s.carts, s.catalog, session, user), s.carts))
    case AdjustStock(v, code, delta) => s.(depot := OrElse(Adjust(s.depot, v, code, delta), s.depot))
    case PlaceOrder(engine, owner, input, now) => OrElse(Checkout(s, engine, owner, input, now), s)
    case ChangeStatus(engine, id, to, now) => OrElse(Transition(s, engine, id, to, now), s)
    case StartPayment(id, provider, charge) => OrElse(CreatePayment(s, id, provider, charge), s)
    case ReceiveWebhook(engine, provider, parsed, now) =>
      OrElse(HandleWebhook(s, engine, provider, parsed, now), Handled(s, Rejected)).shop
  }

  function Run(s: Shop, steps: seq<Step>): Shop
    decreases |steps|
  {
    if steps == [] then s else Run(Next(s, steps[0]), steps[1..])
  }

  // ---------- the shapes a step can have ----------

  /** As far as stock and order accounting are concerned, the same order. */
  ghost predicate SameOrder(a: Order, b: Order) {
    && a.status == b.status && a.items == b.items && a.coupon == b.coupon
    && Path(a.events) == Path(b.events)
    && a.paidAt == b.paidAt && a.cancelledAt == b.cancelledAt && a.refundedAt == b.refundedAt
  }

  /** A step that touches neither stock nor what orders mean. */
  ghost predicate Quiet(s: Shop, s': Shop) {
    && s'.depot == s.depot && s'.coupons == s.coupons
    && |s'.orders| == |s.orders| && forall i :: 0 <= i < |s.orders| ==> SameOrder(s.orders[i], s'.orders[i])
  }

  /** A status transition that a call made, if it made one. */
  datatype Move = Move(engine: Engine, id: nat, to: Status, now: int)

  function AfterMove(s: Shop, m: Move): Shop {
    OrElse(Transition(s, m.engine, m.id, m.to, m.now), s)
  }

  /** The transition a webhook about this order asks for. */
  function AsksFor(o: Order, engine: Engine, id: nat, newStatus: Option<PaymentStatus>, now: int): Option<Move> {
    if newStatus == Some(Captured) then Some(Move(engine, id, Paid, now))
    else if newStatus in {Some(Failed), Some(PaymentCancelled)} && o.status == Pending then Some(Move(engine, id, Cancelled, now))
    else if newStatus == Some(PaymentRefunded) then Some(Move(engine, id, Refunded, now))
    else None
  }

  function WebhookMove(s: Shop, engine: Engine, provider: string, parsed: WebhookResult, now: int): Option<Move> {
    if !Heeded(provider, parsed) then None
    else
      match MatchOrder(s, parsed)
      case Failure(_) => None
      case Success(None) => None
      case Success(Some(id)) =>
        AsksFor(s.orders[id], engine, id, parsed.newStatus, now)
  }

  lemma LogWebhookIsQuiet(s: Shop, id: nat, eventType: string)
    requires id < |s.orders|
    ensures Quiet(s, LogWebhook(s, id, eventType))
  {
    PathAppend(s.orders[id].events, WebhookReceived(eventType));
  }

  /** Logging a webhook does not change whether a transition goes through. */
  lemma TransitionOfLogged(s: Shop, id: nat, eventType: string, m: Move)
    requires id < |s.orders|
    ensures Transition(LogWebhook(s, id, eventType), m.engine, m.id, m.to, m.now).Success? <==>
            Transition(s, m.engine, m.id, m.to, m.now).Success?
  {
  }

  /** Whether a delivery is rolled back: its transition fails and is not one to PAID. */
  predicate RolledBack(s: Shop, m: Option<Move>) {
    m.Some? && m.value.to != Paid && Transition(s, m.value.engine, m.value.id, m.value.to, m.value.now).Failure?
  }

  /** What a matched webhook leaves behind: the transition it asked for, on the logged order, and the payments. */
  function AfterDelivery(s: Shop, m: Option<Move>, id: nat, provider: string, parsed: WebhookResult): Shop
    requires id < |s.orders|
  {
    var logged := LogWebhook(s, id, parsed.eventType);
    var moved := if m.Some? then AfterMove(logged, m.value) else logged;
    if RolledBack(logged, m) then s
    else moved.(payments := UpdatePayments(moved.payments, id, provider, StatusOrPending(parsed.newStatus)))
  }

  lemma MatchedWebhook(s: Shop, engine: Engine, provider: string, parsed: WebhookResult, now: int, id: nat)
    requires Heeded(provider, parsed) && MatchOrder(s, parsed) == Success(Some(id))
    ensures Next(s, ReceiveWebhook(engine, provider, parsed, now)) ==
            AfterDelivery(s, WebhookMove(s, engine, provider, parsed, now), id, provider, parsed)
  {
    var logged := LogWebhook(s, id, parsed.eventType);
    assert logged.orders[id].status == s.orders[id].status;
    WebhookTransitionIsMove(logged, engine, id, parsed.newStatus, now);
    assert WebhookMove(s, engine, provider, parsed, now) == AsksFor(logged.orders[id], engine, id, parsed.newStatus, now);
  }

  lemma WebhookTransitionIsMove(s: Shop, engine: Engine, id: nat, newStatus: Option<PaymentStatus>, now: int)
    requires id < |s.orders|
    ensures var m := AsksFor(s.orders[id], engine, id, newStatus, now);
            WebhookTransition(s, engine, id, newStatus, now) ==
            if m.None? then Success(s)
            else if m.value.to == Paid then Success(AfterMove(s, m.value))
            else Transition(s, engine, id, m.value.to, now)
  {
  }

  lemma UnmatchedWebhook(s: Shop, engine: Engine, provider: string, parsed: WebhookResult, now: int)
    requires Heeded(provider, parsed) ==> MatchOrder(s, parsed).Failure? || MatchOrder(s, parsed).value.None?
    ensures Next(s, ReceiveWebhook(engine, provider, parsed, now)) == s
    ensures WebhookMove(s, engine, provider, parsed, now).None?
  {
  }

  lemma FailedMove(s: Shop, m: Move)
    requires Transition(s, m.engine, m.id, m.to, m.now).Failure?
    ensures AfterMove(s, m) == s
  {
  }

  lemma PaymentsAreQuiet(s: Shop, payments: seq<Payment>)
    ensures Quiet(s, s.(payments := payments))
  {
  }

  /** A delivery takes its transition, if it goes through or its failure is swallowed, between two quiet changes. */
  lemma DeliveryShape(s: Shop, m: Option<Move>, id: nat, provider: string, parsed: WebhookResult) returns (before: Shop)
    requires id < |s.orders|
    ensures Quiet(s, before)
    ensures Quiet(if m.Some? then AfterMove(before, m.value) else before, AfterDelivery(s, m, id, provider, parsed))
  {
    before := LogWebhook(s, id, parsed.eventType);
    if RolledBack(before, m) {
      TransitionOfLogged(s, id, parsed.eventType, m.value);
      FailedMove(s, m.value);
      before := s;
    } else {
      LogWebhookIsQuiet(s, id, parsed.eventType);
      var moved := if m.Some? then AfterMove(before, m.value) else before;
      PaymentsAreQuiet(moved, UpdatePayments(moved.payments, id, provider, StatusOrPending(parsed.newStatus)));
    }
  }

  /** A webhook is quiet but for at most one transition, taken between two quiet changes. */
  lemma WebhookShape(s: Shop, engine: Engine, provider: string, parsed: WebhookResult, now: int) returns (before: Shop)
    ensures Quiet(s, before)
    ensures var m := WebhookMove(s, engine, provider, parsed, now);
            Quiet(if m.Some? then AfterMove(before, m.value) else before, Next(s, ReceiveWebhook(engine, provider, parsed, now)))
  {
    if Heeded(provider, parsed) && MatchOrder(s, parsed).Success? && MatchOrder(s, parsed).value.Some? {
      var id := MatchOrder(s, parsed).value.value;
      MatchedWebhook(s, engine, provider, parsed, now, id);
      before := DeliveryShape(s, WebhookMove(s, engine, provider, parsed, now), id, provider, parsed);
    } else {
      before := s;
      UnmatchedWebhook(s, engine, provider, parsed, now);
    }
  }
}
