/**
 * Pricing: the fixed daily discount and the loyalty-point rate. The source
 * computes `Math.floor(price * 0.95)` and `Math.floor(total * 0.05)` in
 * floating point; here both are computed exactly on integers.
 */
module Pricing {
  import opened Base

  /** The discounted price of the daily item: 95% of `price`, rounded down. */
  function DiscountedPrice(price: int): (r: int)
    ensures r * 100 <= price * 95 < r * 100 + 100
    ensures price >= 0 ==> 0 <= r <= price
    ensures price > 0 ==> r < price
  {
    (price * 95) / 100
  }

  /**
   * What the player pays for one unit of item `id`: the discounted price when
   * `id` is today's discounted item, the base price otherwise.
   */
  function EffectivePrice(id: string, price: int, discountId: Option<string>): (r: int)
    ensures discountId == Some(id) ==> r == DiscountedPrice(price)
    ensures discountId != Some(id) ==> r == price
    ensures price >= 0 ==> 0 <= r <= price
  {
    if discountId == Some(id) then DiscountedPrice(price) else price
  }

  /** Points earned on a purchase: 5% of the total, rounded down, i.e. one point per 20 spent. */
  function PointsEarned(total: int): (r: int)
    ensures r * 100 <= total * 5 < r * 100 + 100
    ensures r == total / 20
    ensures total >= 0 ==> 0 <= r <= total
  {
    (total * 5) / 100
  }

  /** The discounted burger of the demo catalog: 25 becomes 23. */
  lemma DiscountedBurger()
    ensures DiscountedPrice(25) == 23
    ensures EffectivePrice("burger", 25, Some("burger")) == 23
    ensures EffectivePrice("burger", 25, Some("pizza")) == 25
  {
  }
}
