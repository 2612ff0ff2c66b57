/** payments/services.py: recording a charge and digesting what a payment provider reports. */
module Payments {
  import opened Prelude
  import opened Tables
  import opened Allocation
  import opened Orders

  /** The providers that have an adapter; asking for another one is a ValueError. */
  const PROVIDERS := {"stripe", "paypal", "click", "payme", "manual"}

  /** The outcome of asking a gateway for a charge, or that its adapter raised; how it comes about is not modelled. */
  datatype ChargeResult = ChargeResult(success: bool, reference: string) | GatewayRaises

  /** An order id in a webhook: absent, the key of an order (which may not exist), or no key at all. */
  datatype OrderKey = NoKey | Key(id: nat) | NotAKey

  /** A webhook as the provider's adapter parsed it. `newStatus` is None when the adapter left it empty. */
  datatype WebhookResult = WebhookResult(
    accepted: bool, eventType: string, orderId: OrderKey, paymentReference: string, newStatus: Option<PaymentStatus>)

  /** What the endpoint answers. */
  datatype Reply = Rejected | Unmatched | Matched(order: nat)

  datatype Handled = Handled(shop: Shop, reply: Reply)

  function CreatePayment(s: Shop, id: nat, provider: string, charge: ChargeResult): Result<Shop, Error> {
    if id >= |s.orders| then Failure(DoesNotExist)
    else if provider !in PROVIDERS then Failure(InvalidValue)
    else if charge.GatewayRaises? then Failure(GatewayFailure)
    else if !charge.success then
      Success(s.(payments := s.payments + [Payment(id, provider, Failed, s.orders[id].grand, "")]))
    else
      Success(s.(payments := s.payments + [Payment(id, provider, PaymentPending, s.orders[id].grand, charge.reference)],
                 orders := s.orders[id := s.orders[id].(paymentProvider := provider, paymentReference := charge.reference)]))
  }

  /** The newest order with this payment reference, or the number of orders. */
  function NewestWithReference(orders: seq<Order>, reference: string): (id: nat)
    ensures id <= |orders|
    ensures id < |orders| ==> orders[id].paymentReference == reference
    ensures forall j :: id < j < |orders| || (id == |orders| && 0 <= j < id) ==> orders[j].paymentReference != reference
  {
    if orders == [] then 0
    else
      var last := |orders| - 1;
      if orders[last].paymentReference == reference then last
      else
        var id := NewestWithReference(orders[..last], reference);
        if id == last then |orders| else id
  }

  /** The order a webhook is about: by its id, else by its payment reference. */
  function MatchOrder(s: Shop, parsed: WebhookResult): (r: Result<Option<nat>, Error>)
    ensures r.Success? && r.value.Some? ==> r.value.value < |s.orders|
  {
    if parsed.orderId.NotAKey? then Failure(MalformedId)
    else if parsed.orderId.Key? && parsed.orderId.id < |s.orders| then Success(Some(parsed.orderId.id))
    else if parsed.paymentReference == "" then Success(None)
    else
      var id := NewestWithReference(s.orders, parsed.paymentReference);
      Success(if id < |s.orders| then Some(id) else None)
  }

  /** The order a webhook is about: the one it names, whatever its reference; if it names none that exists, the newest
      order with its reference, if it gives one. */
  predicate IsAbout(s: Shop, parsed: WebhookResult, id: nat) {
    && id < |s.orders| && !parsed.orderId.NotAKey?
    && (parsed.orderId.Key? && parsed.orderId.id < |s.orders| ==> id == parsed.orderId.id)
    && (parsed.orderId.NoKey? || parsed.orderId.id >= |s.orders| ==>
          && parsed.paymentReference != "" && s.orders[id].paymentReference == parsed.paymentReference
          && forall j :: id < j < |s.orders| ==> s.orders[j].paymentReference != parsed.paymentReference)
  }

  lemma MatchOrderIff(s: Shop, parsed: WebhookResult)
    ensures MatchOrder(s, parsed).Failure? <==> parsed.orderId.NotAKey?
    ensures forall id: nat :: MatchOrder(s, parsed) == Success(Some(id)) <==> IsAbout(s, parsed, id)
    ensures MatchOrder(s, parsed) == Success(None) <==> !parsed.orderId.NotAKey? && forall id: nat :: !IsAbout(s, parsed, id)
    ensures MatchOrder(s, parsed).Failure? ==> MatchOrder(s, parsed).error == MalformedId
  {
    var newest := NewestWithReference(s.orders, parsed.paymentReference);
    if MatchOrder(s, parsed).Success? && MatchOrder(s, parsed).value.Some? {
      assert IsAbout(s, parsed, MatchOrder(s, parsed).value.value);
    }
    forall id: nat | IsAbout(s, parsed, id) ensures MatchOrder(s, parsed) == Success(Some(id)) {
      if parsed.orderId.NoKey? || parsed.orderId.id >= |s.orders| {
        assert newest < |s.orders| && !(newest < id) && !(id < newest);
      }
    }
  }

  function LogWebhook(s: Shop, id: nat, eventType: string): Shop
    requires id < |s.orders|
  {
    s.(orders := s.orders[id := s.orders[id].(events := s.orders[id].events + [WebhookReceived(eventType)])])
  }

  /** A captured payment pays the order inside a savepoint and swallows what goes wrong; a failed or cancelled one
      cancels a pending order; a refunded one refunds it or fails as a whole. */
  function WebhookTransition(s: Shop, engine: Engine, id: nat, newStatus: Option<PaymentStatus>, now: int): Result<Shop, Error>
    requires id < |s.orders|
  {
    if newStatus == Some(Captured) then
      var paid := Transition(s, engine, id, Paid, now);
      if paid.Success? then paid else Success(s)
    else if newStatus in {Some(Failed), Some(PaymentCancelled)} && s.orders[id].status == Pending then
      Transition(s, engine, id, Cancelled, now)
    else if newStatus == Some(PaymentRefunded) then
      Transition(s, engine, id, Refunded, now)
    else Success(s)
  }

  function UpdatePayments(payments: seq<Payment>, order: nat, provider: string, status: PaymentStatus): (r: seq<Payment>)
    ensures |r| == |payments|
    ensures forall i :: 0 <= i < |payments| ==>
              r[i] == if payments[i].order == order && payments[i].provider == provider then payments[i].(status := status) else payments[i]
  {
    if payments == [] then []
    else
      [if payments[0].order == order && payments[0].provider == provider then payments[0].(status := status) else payments[0]]
      + UpdatePayments(payments[1..], order, provider, status)
  }

  function StatusOrPending(newStatus: Option<PaymentStatus>): PaymentStatus {
    if newStatus.Some? then newStatus.value else PaymentPending
  }

  /** A webhook that its provider's adapter accepts. */
  predicate Heeded(provider: string, parsed: WebhookResult) {
    provider in PROVIDERS && parsed.accepted
  }

  function HandleWebhook(s: Shop, engine: Engine, provider: string, parsed: WebhookResult, now: int): Result<Handled, Error> {
    if provider !in PROVIDERS then Failure(InvalidValue)
    else if !parsed.accepted then Success(Handled(s, Rejected))
    else
      match MatchOrder(s, parsed)
      case Failure(e) => Failure(e)
      case Success(None) => Success(Handled(s, Unmatched))
      case Success(Some(id)) =>
        match WebhookTransition(LogWebhook(s, id, parsed.eventType), engine, id, parsed.newStatus, now)
        case Failure(e) => Failure(e)
        case Success(moved) =>
          Success(Handled(moved.(payments := UpdatePayments(moved.payments, id, provider, StatusOrPending(parsed.newStatus))),
                          Matched(id)))
  }
}
