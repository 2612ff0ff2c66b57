/** payments/services.py as it runs. */
module PaymentService {
  import opened Prelude
  import opened Tables
  import opened Allocation
  import opened Payments
  import OrderService

  method Create(db: Database, id: nat, provider: string, charge: ChargeResult) returns (r: Result<Payment, Error>)
    modifies db`payments, db`orders
    ensures match CreatePayment(old(db.AllTables()), id, provider, charge)
            case Success(s) => db.AllTables() == s && |s.payments| > 0 && r == Success(s.payments[|s.payments| - 1])
            case Failure(e) => r == Failure(e) && db.AllTables() == old(db.AllTables())
  {
    if id >= |db.orders| {
      return Failure(DoesNotExist);
    }
    if provider !in PROVIDERS {
      return Failure(InvalidValue);
    }
    var saved, payment := db.payments, Payment(id, provider, PaymentPending, db.orders[id].grand, "");
    db.payments := saved + [payment];
    if charge.GatewayRaises? {
      db.payments := saved;
      return Failure(GatewayFailure);
    }
    if !charge.success {
      payment := payment.(status := Failed);
      db.payments := saved + [payment];
      return Success(payment);
    }
    payment := payment.(status := PaymentPending, reference := charge.reference);
    db.payments := saved + [payment];
    db.orders := db.orders[id := db.orders[id].(paymentProvider := provider, paymentReference := charge.reference)];
    r := Success(payment);
  }

  /** One transaction around the whole webhook; the transition to PAID has a savepoint of its own. */
  method Handle(db: Database, engine: Engine, provider: string, parsed: WebhookResult, now: int) returns (r: Result<Reply, Error>)
    modifies db
    ensures match HandleWebhook(old(db.AllTables()), engine, provider, parsed, now)
            case Success(handled) => r == Success(handled.reply) && db.AllTables() == handled.shop
            case Failure(e) => r == Failure(e) && db.AllTables() == old(db.AllTables())
  {
    if provider !in PROVIDERS {
      return Failure(InvalidValue);
    }
    if !parsed.accepted {
      return Success(Rejected);
    }
    var saved := db.AllTables();
    var found := MatchOrder(saved, parsed);
    if found.Failure? {
      return Failure(found.error);
    }
    if found.value.None? {
      return Success(Unmatched);
    }
    var id := found.value.value;
    var order := db.orders[id];
    db.orders := db.orders[id := order.(events := order.events + [WebhookReceived(parsed.eventType)])];
    if parsed.newStatus == Some(Captured) {
      var _ := OrderService.TransitionStatus(db, engine, id, Paid, now);
    } else if (parsed.newStatus == Some(Failed) || parsed.newStatus == Some(PaymentCancelled)) && order.status == Pending {
      var cancelled := OrderService.TransitionStatus(db, engine, id, Cancelled, now);
      if cancelled.Failure? {
        db.Restore(saved);
        return Failure(cancelled.error);
      }
    } else if parsed.newStatus == Some(PaymentRefunded) {
      var refunded := OrderService.TransitionStatus(db, engine, id, Refunded, now);
      if refunded.Failure? {
        db.Restore(saved);
        return Failure(refunded.error);
      }
    }
    db.payments := UpdatePayments(db.payments, id, provider, StatusOrPending(parsed.newStatus));
    r := Success(Matched(id));
  }
}
