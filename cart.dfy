/** The cart document: its lines, the derived counts and price, and `addProduct`. */
module CartModel {
  import opened Common

  datatype Line = Line(product: ProductId, quantity: int)

  /** A cart document; `totalPrice` is the stored field, recomputed by the pre-save hook. */
  datatype Cart = Cart(user: UserId, items: seq<Line>, totalPrice: real)

  /** The schema bound on every line: quantity >= 1. */
  predicate LinesValid(items: seq<Line>) {
    forall i :: 0 <= i < |items| ==> items[i].quantity >= 1
  }

  /** No product appears on two lines. */
  predicate ProductsUnique(items: seq<Line>) {
    forall i, j :: 0 <= i < j < |items| ==> items[i].product != items[j].product
  }

  predicate Has(items: seq<Line>, p: ProductId) {
    exists i :: 0 <= i < |items| && items[i].product == p
  }

  /** Every line's product has a price in the catalog (what `populate('items.product')` needs). */
  predicate Priced(items: seq<Line>, prices: map<ProductId, real>) {
    forall i :: 0 <= i < |items| ==> items[i].product in prices
  }

  /** The `itemCount` virtual: the number of lines, never more than the units they hold. */
  function ItemCount(c: Cart): (n: nat)
    ensures LinesValid(c.items) ==> n <= TotalQuantity(c.items)
    ensures n == 0 <==> c.items == []
  {
    |c.items|
  }

  /** The `totalQuantity` virtual: the sum of the line quantities. On valid lines it is at least
      the number of lines. */
  function TotalQuantity(items: seq<Line>): (n: int)
    ensures LinesValid(items) ==> n >= |items|
  {
    if items == [] then 0 else items[0].quantity + TotalQuantity(items[1..])
  }

  /** How many units of product p the lines hold. */
  function QuantityOf(items: seq<Line>, p: ProductId): (n: int)
    ensures !Has(items, p) ==> n == 0
    ensures LinesValid(items) ==> 0 <= n <= TotalQuantity(items)
  {
    if items == [] then 0
    else (if items[0].product == p then items[0].quantity else 0) + QuantityOf(items[1..], p)
  }

  /** `calcTotalPrice`: the sum of quantity times the product's current `price.amount`.
      With valid lines and non-negative prices it is never negative. */
  function TotalPrice(items: seq<Line>, prices: map<ProductId, real>): (t: real)
    requires Priced(items, prices)
    ensures LinesValid(items) && (forall p | p in prices :: prices[p] >= 0.0) ==> t >= 0.0
  {
    if items == [] then 0.0
    else (items[0].quantity as real) * prices[items[0].product] + TotalPrice(items[1..], prices)
  }

  /** `items.findIndex(item => item.product == p)`: the first line holding p, if any. */
  function FindIndex(items: seq<Line>, p: ProductId): (r: Option<nat>)
    ensures r.Some? ==> r.value < |items| && items[r.value].product == p
    ensures r.Some? ==> forall j :: 0 <= j < r.value ==> items[j].product != p
    ensures r.None? <==> !Has(items, p)
  {
    if items == [] then None
    else if items[0].product == p then Some(0)
    else match FindIndex(items[1..], p)
      case None => None
      case Some(i) => Some(i + 1)
  }

  /** The lines after adding q units of p: the existing line of p grows by q, or, when there is
      none, one line (p, q) is appended at the end. */
  function WithProduct(items: seq<Line>, p: ProductId, q: int): (r: seq<Line>)
    ensures |r| == if Has(items, p) then |items| else |items| + 1
    ensures forall i :: 0 <= i < |items| ==> r[i].product == items[i].product
    ensures forall i :: 0 <= i < |items| && items[i].product != p ==> r[i] == items[i]
    ensures !Has(items, p) ==> r[|items|] == Line(p, q)
    ensures ProductsUnique(items) ==> ProductsUnique(r)
    ensures LinesValid(items) && q >= 1 ==> LinesValid(r)
  {
    match FindIndex(items, p)
    case Some(i) => items[i := items[i].(quantity := items[i].quantity + q)]
    case None => items + [Line(p, q)]
  }

  /** `items.filter(item => item.product != p)`: every line of p dropped, the others kept in order. */
  function WithoutProduct(items: seq<Line>, p: ProductId): (r: seq<Line>)
    ensures !Has(r, p)
    ensures forall l :: l in r <==> l in items && l.product != p
    ensures |r| <= |items|
    ensures ProductsUnique(items) ==> ProductsUnique(r)
    ensures LinesValid(items) ==> LinesValid(r)
    ensures Subsequence(r, items)
  {
    if items == [] then []
    else if items[0].product == p then
      SubsequenceOfTail(WithoutProduct(items[1..], p), items);
      WithoutProduct(items[1..], p)
    else
      var rest := WithoutProduct(items[1..], p);
      assert ([items[0]] + rest)[1..] == rest;
      assert forall l :: l in rest ==> l in items[1..];
      assert ProductsUnique(items) ==> ProductsUnique([items[0]] + rest) by {
        if ProductsUnique(items) {
          forall k | 0 <= k < |rest| ensures rest[k].product != items[0].product {
            var j :| 0 <= j < |items[1..]| && items[1..][j] == rest[k];
            assert items[j + 1] == rest[k];
          }
          ConsUnique(items[0], rest);
        }
      }
      [items[0]] + rest
  }

  /** A line in front of unique lines of other products keeps the products unique. */
  lemma ConsUnique(l: Line, rest: seq<Line>)
    requires ProductsUnique(rest) && forall k | 0 <= k < |rest| :: rest[k].product != l.product
    ensures ProductsUnique([l] + rest)
  {
    var r := [l] + rest;
    assert forall k | 0 < k < |r| :: r[k] == rest[k - 1];
  }

  /** `productItem.quantity = q` on the line that `items.find` returns for p (none: no change). */
  function SetQuantity(items: seq<Line>, p: ProductId, q: int): (r: seq<Line>)
    ensures |r| == |items|
    ensures forall i :: 0 <= i < |items| ==> r[i].product == items[i].product
    ensures forall i :: 0 <= i < |items| && items[i].product != p ==> r[i] == items[i]
    ensures ProductsUnique(items) ==> ProductsUnique(r)
    ensures LinesValid(items) && q >= 1 ==> LinesValid(r)
  {
    match FindIndex(items, p)
    case Some(i) => items[i := items[i].(quantity := q)]
    case None => items
  }

  /** What one line contributes to QuantityOf(_, p). */
  function Share(l: Line, p: ProductId): int {
    if l.product == p then l.quantity else 0
  }

  /** Replacing one line changes the totals by the difference of the two lines. */
  lemma {:induction false} QuantitiesAfterUpdate(items: seq<Line>, i: nat, l: Line, p: ProductId)
    requires i < |items|
    ensures QuantityOf(items[i := l], p) == QuantityOf(items, p) - Share(items[i], p) + Share(l, p)
    ensures TotalQuantity(items[i := l]) == TotalQuantity(items) - items[i].quantity + l.quantity
  {
    if i > 0 {
      QuantitiesAfterUpdate(items[1..], i - 1, l, p);
      assert items[i := l][1..] == items[1..][i - 1 := l];
    }
  }

  /** Appending one line adds its quantity to the totals. */
  lemma {:induction false} QuantitiesAfterAppend(items: seq<Line>, l: Line, p: ProductId)
    ensures QuantityOf(items + [l], p) == QuantityOf(items, p) + Share(l, p)
    ensures TotalQuantity(items + [l]) == TotalQuantity(items) + l.quantity
  {
    if items != [] {
      QuantitiesAfterAppend(items[1..], l, p);
      assert (items + [l])[1..] == items[1..] + [l];
    }
  }

  /** With unique products, the line of p holds all of p. */
  lemma {:induction false} QuantityOfUniqueLine(items: seq<Line>, i: nat, p: ProductId)
    requires ProductsUnique(items) && i < |items| && items[i].product == p
    ensures QuantityOf(items, p) == items[i].quantity
  {
    if i == 0 {
      assert !Has(items[1..], p) by {
        forall j | 0 <= j < |items[1..]| ensures items[1..][j].product != p {
          assert items[1..][j] == items[j + 1];
        }
      }
    } else {
      QuantityOfUniqueLine(items[1..], i - 1, p);
    }
  }

  /** Adding q units of p adds q to p's quantity and to the total, and leaves every other
      product's quantity as it was. */
  lemma {:induction false} AddedQuantities(items: seq<Line>, p: ProductId, q: int, p': ProductId)
    ensures QuantityOf(WithProduct(items, p, q), p) == QuantityOf(items, p) + q
    ensures p' != p ==> QuantityOf(WithProduct(items, p, q), p') == QuantityOf(items, p')
    ensures TotalQuantity(WithProduct(items, p, q)) == TotalQuantity(items) + q
  {
    match FindIndex(items, p)
    case Some(i) =>
      var l := items[i].(quantity := items[i].quantity + q);
      assert WithProduct(items, p, q) == items[i := l];
      QuantitiesAfterUpdate(items, i, l, p);
      QuantitiesAfterUpdate(items, i, l, p');
    case None =>
      assert WithProduct(items, p, q) == items + [Line(p, q)];
      QuantitiesAfterAppend(items, Line(p, q), p);
      QuantitiesAfterAppend(items, Line(p, q), p');
  }

  /** Dropping the lines of p removes exactly p's quantity from the total and leaves every other
      product's quantity as it was. */
  lemma {:induction false} RemovedQuantities(items: seq<Line>, p: ProductId, p': ProductId)
    ensures QuantityOf(WithoutProduct(items, p), p) == 0
    ensures p' != p ==> QuantityOf(WithoutProduct(items, p), p') == QuantityOf(items, p')
    ensures TotalQuantity(WithoutProduct(items, p)) == TotalQuantity(items) - QuantityOf(items, p)
  {
    if items != [] {
      RemovedQuantities(items[1..], p, p');
      if items[0].product != p {
        assert ([items[0]] + WithoutProduct(items[1..], p))[1..] == WithoutProduct(items[1..], p);
      }
    }
  }

  /** Setting p's line to q makes p's quantity q (when p has a line and lines are unique) and
      leaves every other product's quantity as it was. */
  lemma {:induction false} SetQuantities(items: seq<Line>, p: ProductId, q: int, p': ProductId)
    requires ProductsUnique(items) && Has(items, p)
    ensures QuantityOf(SetQuantity(items, p, q), p) == q
    ensures p' != p ==> QuantityOf(SetQuantity(items, p, q), p') == QuantityOf(items, p')
    ensures TotalQuantity(SetQuantity(items, p, q)) == TotalQuantity(items) - QuantityOf(items, p) + q
  {
    var i := FindIndex(items, p).value;
    var l := items[i].(quantity := q);
    assert SetQuantity(items, p, q) == items[i := l];
    QuantitiesAfterUpdate(items, i, l, p);
    QuantitiesAfterUpdate(items, i, l, p');
    QuantityOfUniqueLine(items, i, p);
  }

  /** `addProduct`: rejects a malformed product id and a quantity below 1 (by throwing, with no
      change); otherwise merges the quantity into p's line or appends a new line, and the save's
      pre-save hook recomputes `totalPrice` from the current prices. */
  method AddProduct(cart: Cart, productId: RawId, quantity: int, prices: map<ProductId, real>)
    returns (r: Result<Cart>)
    requires Priced(cart.items, prices)
    requires productId.Id? ==> productId.value in prices
    ensures productId.Malformed? ==> r == Fail(AddProductInvalidId)
    ensures productId.Id? && quantity < 1 ==> r == Fail(AddProductBadQuantity)
    ensures productId.Id? && quantity >= 1 ==>
              r.Ok? && r.value.user == cart.user &&
              r.value.items == WithProduct(cart.items, productId.value, quantity) &&
              Priced(r.value.items, prices) &&
              r.value.totalPrice == TotalPrice(r.value.items, prices)
  {
    if productId.Malformed? {
      return Fail(AddProductInvalidId);
    }
    if quantity < 1 {
      return Fail(AddProductBadQuantity);
    }
    var p := productId.value;
    var items := cart.items;
    var index := FindIndex(items, p);
    if index.Some? {
      var i := index.value;
      items := items[i := items[i].(quantity := items[i].quantity + quantity)];
    } else {
      items := items + [Line(p, quantity)];
    }
    assert items == WithProduct(cart.items, p, quantity);
    r := Ok(Cart(cart.user, items, TotalPrice(items, prices)));
  }
}
