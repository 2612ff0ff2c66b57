/** What one status transition answers and what it changes. */
module Transitions {
  import opened Prelude
  import opened Tables
  import opened Allocation
  import opened Greedy
  import opened Orders
  import opened Promises
  import Checkouts

  /** A transition goes through exactly if the order exists, the table allows it and, to be paid, its units are reserved
      and on the shelf; what stops it decides the error. */
  lemma TransitionAnswers(s: Shop, engine: Engine, id: nat, to: Status, now: int)
    requires Sound(s.depot.rows)
    ensures var r := Transition(s, engine, id, to, now);
            && (id >= |s.orders| ==> r == Failure(DoesNotExist))
            && (id < |s.orders| && to !in AllowedTransitions(s.orders[id].status) ==> r == Failure(CheckoutRefused))
            && (id < |s.orders| && to in AllowedTransitions(s.orders[id].status) ==>
                  && (r.Success? <==> (to == Paid ==> Fits(s.orders[id].items, s.depot.rows)))
                  && (r.Failure? ==> r.error == OutOfStock))
  {
    if id < |s.orders| && to in AllowedTransitions(s.orders[id].status) {
      StockAnswers(s.depot, engine, s.orders[id], id, to);
    }
  }

  lemma StockAnswers(d: Depot, engine: Engine, o: Order, id: nat, to: Status)
    requires Sound(d.rows)
    ensures var r := StockEffect(d, engine, o, id, to);
            && (r.Success? <==> (to == Paid ==> Fits(o.items, d.rows)))
            && (r.Failure? ==> r.error == OutOfStock)
  {
    if to == Paid {
      SellingSucceedsIff(d, engine, o.items, id);
      Checkouts.ProcessFailsFor(Committing, d, engine, o.items, id);
    } else if to == Cancelled {
      ProcessSucceedsIff(Releasing, d, engine, o.items, id);
    }
  }

  /** The order after a transition: its new status is logged, the timestamp of that status is set, and its lines, its
      bill, its coupon, its payment and the other timestamps are as they were. */
  predicate IsMovedTo(o: Order, o': Order, to: Status, now: int) {
    && o'.status == to && o'.events == o.events + [StatusChanged(to)]
    && o'.paidAt == (if to == Paid then Some(now) else o.paidAt)
    && o'.cancelledAt == (if to == Cancelled then Some(now) else o.cancelledAt)
    && o'.refundedAt == (if to == Refunded then Some(now) else o.refundedAt)
    && o'.items == o.items && o'.coupon == o.coupon
    && o'.subtotal == o.subtotal && o'.discount == o.discount && o'.shipping == o.shipping && o'.tax == o.tax && o'.grand == o.grand
    && o'.paymentProvider == o.paymentProvider && o'.paymentReference == o.paymentReference
  }

  /** Nothing but one order, and perhaps stock and ledger, differs. */
  predicate OnlyOrderDiffers(s: Shop, s': Shop, id: nat) {
    && |s'.orders| == |s.orders| && (forall i :: 0 <= i < |s.orders| && i != id ==> s'.orders[i] == s.orders[i])
    && s'.catalog == s.catalog && s'.carts == s.carts && s'.coupons == s.coupons
    && s'.depot.warehouses == s.depot.warehouses
  }

  /** A transition changes its order and, if it pays or cancels, stock. */
  lemma TransitionChanges(s: Shop, engine: Engine, id: nat, to: Status, now: int)
    requires Transition(s, engine, id, to, now).Success?
    ensures var s' := Transition(s, engine, id, to, now).value;
            && id < |s.orders| && OnlyOrderDiffers(s, s', id) && IsMovedTo(s.orders[id], s'.orders[id], to, now)
            && s'.payments == s.payments
            && (to != Paid && to != Cancelled ==> s'.depot == s.depot)
  {
    if to == Paid || to == Cancelled {
      ProcessIsBooked(if to == Paid then Committing else Releasing, s.depot, engine, s.orders[id].items, id);
    }
  }
}
