/** coupons/models.py and the price rules of orders/services.py, in integer cents. */
module Pricing {
  import opened Prelude
  import opened Tables

  /** `Decimal.quantize` under the default context: ten-thousandths of a cent to the nearest cent, ties to the
      even one. */
  function RoundHalfEven(n: int): int {
    var q, r := n / 10000, n % 10000;
    if r < 5000 then q
    else if r > 5000 then q + 1
    else if q % 2 == 0 then q
    else q + 1
  }

  predicate IsValidNow(c: Coupon, now: int) {
    && c.active
    && (c.startsAt.Some? ==> now >= c.startsAt.value)
    && (c.endsAt.Some? ==> now <= c.endsAt.value)
    && (c.maxUses != 0 ==> c.usedCount < c.maxUses)
  }

  /** The percentage of a subtotal, in cents: `value` counts hundredths of a percent. */
  function PercentOf(value: nat, subtotal: int): int {
    RoundHalfEven(subtotal * value)
  }

  /** A missing or zero cap is no cap. */
  function CalculateDiscount(c: Coupon, subtotal: int): int {
    if subtotal < c.minSubtotal then 0
    else match c.kind
      case Percent =>
        var disc := PercentOf(c.value, subtotal);
        if c.maxDiscount.Some? && c.maxDiscount.value != 0 then Min(disc, c.maxDiscount.value) else disc
      case Fixed => Min(c.value, subtotal)
      case FreeShipping => 0
  }

  /** The rate of a shipping method before the free-shipping threshold. */
  function ShippingRate(shippingMethod: string): int {
    if shippingMethod == "express" then 1999
    else if shippingMethod == "pickup" then 0
    else 999
  }

  const FREE_SHIPPING_FROM := 20000

  function CalculateShipping(shippingMethod: string, subtotal: int): int {
    if subtotal >= FREE_SHIPPING_FROM then 0 else ShippingRate(shippingMethod)
  }

  function CalculateTax(subtotal: int): int {
    0
  }

  function GrandTotal(subtotal: int, discount: int, shippingMethod: string): int {
    var shipping := CalculateShipping(shippingMethod, subtotal - discount);
    subtotal - discount + shipping + CalculateTax(subtotal - discount + shipping)
  }

  // ---------- rounding ----------

  /** The rounded value is the one within half a cent; at a tie it is the even neighbour. */
  lemma RoundHalfEvenIsNearest(n: int, q: int)
    ensures q == RoundHalfEven(n) <==>
            && -5000 <= 10000 * q - n <= 5000
            && (10000 * q - n == 5000 || 10000 * q - n == -5000 ==> q % 2 == 0)
  {
  }

  /** A step of `k` cents or less rounds to a step of at most `k`, except from one tie to another. */
  lemma RoundHalfEvenSteps(n: int, n': int, k: nat)
    requires n <= n' <= n + 10000 * k
    ensures RoundHalfEven(n) <= RoundHalfEven(n')
    ensures n' < n + 10000 * k || n == n' || n % 10000 == 0 ==> RoundHalfEven(n') <= RoundHalfEven(n) + k
  {
  }

  // ---------- discounts ----------

  /** What the administrator is asked for: a percentage lies between 0 and 100. */
  predicate WellFormed(c: Coupon) {
    c.kind == Percent ==> c.value <= 10000
  }

  /** `subtotal * value` as seen from a larger subtotal. */
  lemma ProductSteps(value: nat, small: nat, large: nat)
    requires small <= large && value <= 10000
    ensures small * value <= large * value <= small * value + 10000 * (large - small)
    ensures value < 10000 && small < large ==> large * value < small * value + 10000 * (large - small)
  {
    var k := large - small;
    assert large * value == small * value + k * value;
    assert k * value + k * (10000 - value) == 10000 * k;
  }

  /** A percentage is rounded by at most half a cent, from a half to the even cent, and never exceeds what it is a
      percentage of. */
  lemma PercentBounds(value: nat, subtotal: nat)
    requires value <= 10000
    ensures var error := 10000 * PercentOf(value, subtotal) - subtotal * value;
            -5000 <= error <= 5000 && (error == 5000 || error == -5000 ==> PercentOf(value, subtotal) % 2 == 0)
    ensures 0 <= PercentOf(value, subtotal) <= subtotal
  {
    RoundHalfEvenIsNearest(subtotal * value, PercentOf(value, subtotal));
    ProductSteps(value, 0, subtotal);
    RoundHalfEvenSteps(0, subtotal * value, subtotal);
  }

  /** From one subtotal to a larger one, the rounded percentage grows, but no faster than the subtotal: half-cent
      ties included. */
  lemma PercentSteps(value: nat, small: nat, large: nat)
    requires value <= 10000 && small <= large
    ensures PercentOf(value, small) <= PercentOf(value, large) <= PercentOf(value, small) + (large - small)
  {
    ProductSteps(value, small, large);
    RoundHalfEvenSteps(small * value, large * value, large - small);
  }

  predicate HasCap(c: Coupon) {
    c.maxDiscount.Some? && c.maxDiscount.value != 0
  }

  /** A discount is never negative and never more than the subtotal, the minimum must be met to get one, only a
      percentage is capped and only by its cap, and a fixed amount is given in full or takes the whole subtotal. */
  lemma DiscountBounds(c: Coupon, subtotal: nat)
    requires WellFormed(c)
    ensures 0 <= CalculateDiscount(c, subtotal) <= subtotal
    ensures subtotal < c.minSubtotal || c.kind == FreeShipping ==> CalculateDiscount(c, subtotal) == 0
    ensures c.kind == Percent && HasCap(c) ==> CalculateDiscount(c, subtotal) <= c.maxDiscount.value
    ensures c.kind == Percent && subtotal >= c.minSubtotal && CalculateDiscount(c, subtotal) != PercentOf(c.value, subtotal) ==>
              HasCap(c) && CalculateDiscount(c, subtotal) == c.maxDiscount.value < PercentOf(c.value, subtotal)
    ensures c.kind == Fixed && subtotal >= c.minSubtotal && CalculateDiscount(c, subtotal) != c.value ==>
              CalculateDiscount(c, subtotal) == subtotal < c.value
  {
    if c.kind == Percent {
      PercentBounds(c.value, subtotal);
    }
  }

  /** A larger subtotal never gets a smaller discount. What remains to pay shrinks only across the minimum, and
      there exactly when the new discount outweighs the difference. */
  lemma DiscountSteps(c: Coupon, small: nat, large: nat)
    requires WellFormed(c) && small <= large
    ensures CalculateDiscount(c, small) <= CalculateDiscount(c, large)
    ensures small - CalculateDiscount(c, small) > large - CalculateDiscount(c, large) <==>
            small < c.minSubtotal <= large && CalculateDiscount(c, large) > large - small
  {
    DiscountBounds(c, large);
    if c.kind == Percent {
      PercentSteps(c.value, small, large);
    }
  }

  /** The larger of two baskets is the cheaper one after the discount. */
  predicate Undercut(c: Coupon, small: nat, large: nat) {
    small <= large && small - CalculateDiscount(c, small) > large - CalculateDiscount(c, large)
  }

  /** What an administrator can read off a coupon: at its minimum it already takes off more than one cent. For a
      percentage that is a cent and a half before rounding, and a cap that leaves it. */
  predicate MinimumPaysOff(c: Coupon) {
    match c.kind
    case Percent => c.minSubtotal * c.value >= 15000 && (HasCap(c) ==> c.maxDiscount.value >= 2)
    case Fixed => c.value >= 2 && c.minSubtotal >= 2
    case FreeShipping => false
  }

  lemma MinimumPaysOffIff(c: Coupon)
    ensures MinimumPaysOff(c) <==> c.minSubtotal > 0 && CalculateDiscount(c, c.minSubtotal) > 1
  {
    if c.kind == Percent {
      assert c.minSubtotal == 0 ==> c.minSubtotal * c.value == 0;
      TwoCentsFrom(c.minSubtotal * c.value);
    }
  }

  lemma TwoCentsFrom(n: nat)
    ensures RoundHalfEven(n) > 1 <==> n >= 15000
  {
  }

  /** A coupon makes some larger basket cheaper than a smaller one exactly when its minimum pays off. */
  lemma UndercutIff(c: Coupon)
    requires WellFormed(c)
    ensures (exists small: nat, large: nat :: Undercut(c, small, large)) <==> MinimumPaysOff(c)
  {
    MinimumPaysOffIff(c);
    var least := c.minSubtotal;
    if least > 0 {
      DiscountSteps(c, least - 1, least);
      DiscountBounds(c, least - 1);
      assert Undercut(c, least - 1, least) <==> CalculateDiscount(c, least) > 1;
    }
    forall small: nat, large: nat | Undercut(c, small, large) ensures MinimumPaysOff(c) {
      UndercutOnlyFromMinimum(c, small, large);
    }
  }

  lemma UndercutOnlyFromMinimum(c: Coupon, small: nat, large: nat)
    requires WellFormed(c) && Undercut(c, small, large)
    ensures c.minSubtotal > 0 && CalculateDiscount(c, c.minSubtotal) > 1
  {
    DiscountSteps(c, small, large);
    DiscountSteps(c, c.minSubtotal, large);
  }

  /** Crossing the minimum can make the larger basket the cheaper one. */
  lemma MinimumCanUndercut()
    ensures exists c: Coupon, small: nat, large: nat ::
              WellFormed(c) && small <= large && small - CalculateDiscount(c, small) > large - CalculateDiscount(c, large)
  {
    var c := Coupon(Fixed, 1000, 5000, None, 0, 0, None, None, true);
    assert WellFormed(c) && CalculateDiscount(c, 4999) == 0 && CalculateDiscount(c, 5000) == 1000;
    var small: nat, large: nat := 4999, 5000;
    assert small - CalculateDiscount(c, small) > large - CalculateDiscount(c, large);
  }

  // ---------- totals ----------

  /** With a discount within the subtotal nobody is paid to shop. The discounted basket costs more than the full one
      exactly when the discount loses free shipping and is worth less than the rate; collecting it costs nothing. */
  lemma CouponVersusShipping(subtotal: nat, discount: nat, shippingMethod: string)
    requires discount <= subtotal
    ensures GrandTotal(subtotal, discount, shippingMethod) >= 0
    ensures GrandTotal(subtotal, discount, shippingMethod) > GrandTotal(subtotal, 0, shippingMethod) <==>
            && subtotal >= 20000
            && subtotal - discount < 20000
            && shippingMethod != "pickup"
            && discount < if shippingMethod == "express" then 1999 else 999
  {
  }
}
