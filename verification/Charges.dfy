/** What a payment attempt records. */
module Charges {
  import opened Prelude
  import opened Tables
  import opened Allocation
  import opened Carts
  import opened Orders
  import opened Payments
  import opened Checkouts

  /** An attempt goes through exactly if the order exists, its provider is known and the adapter does not raise; a
      charge that fails is an attempt too. */
  lemma AttemptSucceedsIff(s: Shop, id: nat, provider: string, charge: ChargeResult)
    ensures var r := CreatePayment(s, id, provider, charge);
            && (r.Success? <==>
                && id < |s.orders|
                && provider in {"stripe", "paypal", "click", "payme", "manual"}
                && charge.ChargeResult?)
            && (id >= |s.orders| ==> r == Failure(DoesNotExist))
            && (id < |s.orders| && provider !in {"stripe", "paypal", "click", "payme", "manual"} ==> r == Failure(InvalidValue))
            && (r.Failure? && id < |s.orders| && provider in {"stripe", "paypal", "click", "payme", "manual"} ==> r == Failure(GatewayFailure))
  {
  }

  /** The payment that an attempt leaves behind: this order's, at this provider, over the order's grand total; failed
      and without a reference if the charge failed, else pending under the charge's reference. */
  predicate IsRecordOf(p: Payment, s: Shop, id: nat, provider: string, charge: ChargeResult)
    requires id < |s.orders| && charge.ChargeResult?
  {
    && p.order == id && p.provider == provider && p.amount == s.orders[id].grand
    && (!charge.success ==> p.status == Failed && p.reference == "")
    && (charge.success ==> p.status == PaymentPending && p.reference == charge.reference)
  }

  /** One payment is added, only a successful charge changes an order, and of that only provider and reference. */
  lemma AttemptRecords(s: Shop, id: nat, provider: string, charge: ChargeResult)
    requires CreatePayment(s, id, provider, charge).Success?
    ensures id < |s.orders| && charge.ChargeResult?
    ensures var s' := CreatePayment(s, id, provider, charge).value;
            && |s'.payments| == |s.payments| + 1 && s'.payments[..|s.payments|] == s.payments
            && IsRecordOf(s'.payments[|s.payments|], s, id, provider, charge)
            && |s'.orders| == |s.orders|
            && (forall i :: 0 <= i < |s.orders| && (i != id || !charge.success) ==> s'.orders[i] == s.orders[i])
            && (charge.success ==>
                  s'.orders[id] == s.orders[id].(paymentProvider := provider, paymentReference := charge.reference))
            && s'.depot == s.depot && s'.carts == s.carts && s'.catalog == s.catalog && s'.coupons == s.coupons
  {
  }

  /** What is charged for an order that was just placed: the cart's lines, less the coupon's discount, and shipping. */
  lemma FreshOrderIsChargedItsBill(s: Shop, engine: Engine, owner: Owner, input: CheckoutInput, now: int, provider: string, charge: ChargeResult)
    requires Tidy(CartOf(s.carts, owner)) && Checkout(s, engine, owner, input, now).Success?
    requires CreatePayment(Checkout(s, engine, owner, input, now).value, |s.orders|, provider, charge).Success?
    ensures var s1 := Checkout(s, engine, owner, input, now).value;
            var s2 := CreatePayment(s1, |s.orders|, provider, charge).value;
            && |s1.orders| == |s.orders| + 1 && |s2.payments| == |s.payments| + 1
            && var o, p := s1.orders[|s.orders|], s2.payments[|s.payments|];
            && p.order == |s.orders|
            && p.amount == LinesTotal(o.items) - o.discount + o.shipping
            && ShippingIs(input.shippingMethod, LinesTotal(o.items) - o.discount, o.shipping)
            && (input.couponCode == "" ==> o.discount == 0)
            && (input.couponCode != "" ==> input.couponCode in s.coupons && o.discount == Pricing.CalculateDiscount(s.coupons[input.couponCode], LinesTotal(o.items)))
  {
    CheckoutBill(s, engine, owner, input, now);
    AttemptRecords(Checkout(s, engine, owner, input, now).value, |s.orders|, provider, charge);
    assert Checkout(s, engine, owner, input, now).value.payments == s.payments;
  }
}
