/** The part of the product document the fulfilment workflow reads: its price, and the
    `discount` virtual. */
module Catalog {
  import opened Common

  /** `price`: the amount charged and the optional "compare at" price shown struck through. */
  datatype Price = Price(amount: real, compareAtPrice: Option<real>)

  datatype Product = Product(id: ProductId, price: Price)
  {
    /** The schema bound `price.amount >= 0`. */
    predicate Valid() {
      price.amount >= 0.0
    }
  }

  /** `compareAtPrice && compareAtPrice > amount`: JavaScript truthiness makes a missing or zero
      compare-at price count as absent. */
  predicate Discounted(price: Price) {
    price.compareAtPrice.Some? && price.compareAtPrice.value != 0.0 &&
    price.compareAtPrice.value > price.amount
  }

  /** The `discount` virtual: the percentage saved against the compare-at price, rounded by
      `Math.round` (to the nearest integer, halves upwards); 0 when there is no discount. */
  function Discount(price: Price): (d: int)
    ensures !Discounted(price) ==> d == 0
    ensures Discounted(price) ==>
              var c := price.compareAtPrice.value;
              var saved := (c - price.amount) / c * 100.0;
              (d as real) - 0.5 <= saved < (d as real) + 0.5
    ensures price.amount >= 0.0 ==> 0 <= d <= 100
  {
    if Discounted(price) then
      var c := price.compareAtPrice.value;
      var saved := (c - price.amount) / c * 100.0;
      assert price.amount >= 0.0 ==> 0.0 < saved <= 100.0 by {
        if price.amount >= 0.0 {
          var f := (c - price.amount) / c;
          assert c > 0.0 && f * c == c - price.amount;
          assert 0.0 < f <= 1.0;
        }
      }
      (saved + 0.5).Floor
    else 0
  }
}
