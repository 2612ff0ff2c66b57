/** What one webhook is answered, which order it is about and what it changes. */
module Deliveries {
  import opened Prelude
  import opened Tables
  import opened Allocation
  import opened Greedy
  import opened Orders
  import opened Payments
  import opened Promises
  import opened Transitions

  /** A webhook about no order changes nothing: its provider is unknown, its adapter rejects it, it names an order by
      something that is no key, or no order is the one it is about. */
  lemma WebhookAboutNothing(s: Shop, engine: Engine, provider: string, parsed: WebhookResult, now: int)
    ensures var r := HandleWebhook(s, engine, provider, parsed, now);
            && (provider !in {"stripe", "paypal", "click", "payme", "manual"} ==> r == Failure(InvalidValue))
            && (provider in {"stripe", "paypal", "click", "payme", "manual"} && !parsed.accepted ==> r == Success(Handled(s, Rejected)))
            && (Heeded(provider, parsed) && parsed.orderId.NotAKey? ==> r == Failure(MalformedId))
            && (Heeded(provider, parsed) && !parsed.orderId.NotAKey? && (forall id: nat :: !IsAbout(s, parsed, id)) ==>
                  r == Success(Handled(s, Unmatched)))
  {
    MatchOrderIff(s, parsed);
  }

  /** The status a webhook leaves its order in, which can be paid or not. */
  function StatusAfter(o: Order, payable: bool, newStatus: Option<PaymentStatus>): Status {
    if newStatus == Some(Captured) && o.status == Pending && payable then Paid
    else if newStatus in {Some(Failed), Some(PaymentCancelled)} && o.status == Pending then Cancelled
    else if newStatus == Some(PaymentRefunded) then Refunded
    else o.status
  }

  /** Exactly the payments of this order at this provider get the status reported; an empty one resets them. */
  predicate PaymentsMarked(before: seq<Payment>, after: seq<Payment>, id: nat, provider: string, newStatus: Option<PaymentStatus>) {
    && |after| == |before|
    && forall i :: 0 <= i < |before| ==>
         after[i] == if before[i].order != id || before[i].provider != provider then before[i]
                     else if newStatus.None? then before[i].(status := PaymentPending)
                     else before[i].(status := newStatus.value)
  }

  /** The order logged the webhook, and then perhaps moved. */
  predicate LoggedAndMoved(o: Order, o': Order, eventType: string, to: Status, now: int) {
    var logged := o.(events := o.events + [WebhookReceived(eventType)]);
    if to == o.status then o' == logged else IsMovedTo(logged, o', to, now)
  }

  /** The transition inside a delivery: refused only for a refund out of place, else the order is as reported. */
  predicate AnswersReport(s: Shop, r: Result<Shop, Error>, id: nat, payable: bool, newStatus: Option<PaymentStatus>, now: int)
    requires id < |s.orders|
  {
    var o := s.orders[id];
    var to := StatusAfter(o, payable, newStatus);
    && (r.Success? <==> (newStatus == Some(PaymentRefunded) ==> o.status in {Paid, Packed, Shipped, Delivered}))
    && (r.Failure? ==> r.error == CheckoutRefused)
    && (r.Success? ==>
          && OnlyOrderDiffers(s, r.value, id) && r.value.payments == s.payments
          && (if to == o.status then r.value == s else IsMovedTo(o, r.value.orders[id], to, now))
          && (to == Refunded ==> r.value.depot == s.depot))
  }

  lemma CaptureAnswers(s: Shop, engine: Engine, id: nat, payable: bool, now: int)
    requires id < |s.orders| && (Transition(s, engine, id, Paid, now).Success? <==> s.orders[id].status == Pending && payable)
    ensures AnswersReport(s, WebhookTransition(s, engine, id, Some(Captured), now), id, payable, Some(Captured), now)
  {
    if Transition(s, engine, id, Paid, now).Success? {
      TransitionChanges(s, engine, id, Paid, now);
    }
  }

  lemma FailureAnswers(s: Shop, engine: Engine, id: nat, payable: bool, newStatus: PaymentStatus, now: int)
    requires Sound(s.depot.rows) && id < |s.orders| && newStatus in {Failed, PaymentCancelled}
    ensures AnswersReport(s, WebhookTransition(s, engine, id, Some(newStatus), now), id, payable, Some(newStatus), now)
  {
    TransitionAnswers(s, engine, id, Cancelled, now);
    if s.orders[id].status == Pending {
      TransitionChanges(s, engine, id, Cancelled, now);
    }
  }

  lemma RefundAnswers(s: Shop, engine: Engine, id: nat, payable: bool, now: int)
    requires Sound(s.depot.rows) && id < |s.orders|
    ensures AnswersReport(s, WebhookTransition(s, engine, id, Some(PaymentRefunded), now), id, payable, Some(PaymentRefunded), now)
  {
    TransitionAnswers(s, engine, id, Refunded, now);
    if Refunded in AllowedTransitions(s.orders[id].status) {
      TransitionChanges(s, engine, id, Refunded, now);
    }
  }

  lemma WebhookTransitionAnswers(s: Shop, engine: Engine, id: nat, payable: bool, newStatus: Option<PaymentStatus>, now: int)
    requires Sound(s.depot.rows) && id < |s.orders| && payable == Fits(s.orders[id].items, s.depot.rows)
    ensures AnswersReport(s, WebhookTransition(s, engine, id, newStatus, now), id, payable, newStatus, now)
  {
    match newStatus
    case Some(Captured) =>
      PayingSucceedsIff(s, engine, id, now);
      CaptureAnswers(s, engine, id, payable, now);
    case Some(Failed) => FailureAnswers(s, engine, id, payable, Failed, now);
    case Some(PaymentCancelled) => FailureAnswers(s, engine, id, payable, PaymentCancelled, now);
    case Some(PaymentRefunded) => RefundAnswers(s, engine, id, payable, now);
    case _ =>
  }

  /** A webhook that is heeded and about an order fails only if it reports a refund that the order's status does not
      allow. Otherwise that order, and no other, logs it and moves as reported, and its payments at the provider take
      the status reported. */
  lemma WebhookAboutOrder(s: Shop, engine: Engine, provider: string, parsed: WebhookResult, now: int, id: nat)
    requires Sound(s.depot.rows) && Heeded(provider, parsed) && IsAbout(s, parsed, id)
    ensures var r, o := HandleWebhook(s, engine, provider, parsed, now), s.orders[id];
            var to := StatusAfter(o, Fits(o.items, s.depot.rows), parsed.newStatus);
            && (r.Success? <==> (parsed.newStatus == Some(PaymentRefunded) ==> o.status in {Paid, Packed, Shipped, Delivered}))
            && (r.Failure? ==> r.error == CheckoutRefused)
            && (r.Success? ==>
                  var s' := r.value.shop;
                  && r.value.reply == Matched(id)
                  && OnlyOrderDiffers(s, s', id)
                  && LoggedAndMoved(o, s'.orders[id], parsed.eventType, to, now)
                  && PaymentsMarked(s.payments, s'.payments, id, provider, parsed.newStatus)
                  && (to == o.status || to == Refunded ==> s'.depot == s.depot))
  {
    MatchOrderIff(s, parsed);
    var logged := LogWebhook(s, id, parsed.eventType);
    WebhookTransitionAnswers(logged, engine, id, Fits(s.orders[id].items, s.depot.rows), parsed.newStatus, now);
  }
}
