/** The storefront cart page: the totals it derives from its items and the two ways the
    shopper edits them. Prices are exact rationals here. */
module StorefrontCart {
  import opened Common

  /** A cart line as the page holds it: product id, unit price and quantity. */
  datatype Item = Item(id: int, price: real, quantity: int)

  /** What the page lets a cart hold: prices not negative, every quantity at least 1. */
  predicate WellFormed(items: seq<Item>) {
    forall i | 0 <= i < |items| :: items[i].price >= 0.0 && items[i].quantity >= 1
  }

  function LineTotal(it: Item): real {
    it.price * it.quantity as real
  }

  /** `price * quantity` summed over the items. The page folds from the left; the sum of exact
      values does not depend on the order. */
  function Subtotal(items: seq<Item>): (r: real)
    ensures WellFormed(items) ==> r >= 0.0
  {
    if items == [] then 0.0 else LineTotal(items[0]) + Subtotal(items[1..])
  }

  /** Free shipping from a subtotal of 100 on, 10 below it. */
  function ShippingFee(subtotal: real): (r: real)
    ensures r == 0.0 <==> subtotal >= 100.0
    ensures r == 10.0 <==> subtotal < 100.0
  {
    if subtotal >= 100.0 then 0.0 else 10.0
  }

  function Total(items: seq<Item>): real {
    Subtotal(items) + ShippingFee(Subtotal(items))
  }

  /** The total is the subtotal plus at most 10, and exactly the subtotal once shipping is free. */
  lemma TotalBounds(items: seq<Item>)
    ensures Subtotal(items) <= Total(items) <= Subtotal(items) + 10.0
    ensures Total(items) == Subtotal(items) <==> Subtotal(items) >= 100.0
  {
  }

  /** Reaching the threshold can lower the total: a cart just below 100 costs more in all than a
      cart at 100. */
  lemma ThresholdLowersTotal(below: seq<Item>, at: seq<Item>)
    requires 90.0 < Subtotal(below) < 100.0 && Subtotal(at) == 100.0
    ensures Total(at) < Total(below)
  {
  }

  /** The part of the subtotal that the items with id contribute. */
  function IdSubtotal(items: seq<Item>, id: int): real {
    if items == [] then 0.0
    else (if items[0].id == id then LineTotal(items[0]) else 0.0)
         + IdSubtotal(items[1..], id)
  }

  /** The sum of the unit prices of the items with id. */
  function IdPrices(items: seq<Item>, id: int): real {
    if items == [] then 0.0
    else (if items[0].id == id then items[0].price else 0.0) + IdPrices(items[1..], id)
  }

  /** `updateQuantity(id, q)`: nothing when q < 1; otherwise every item with that id gets
      quantity q, in place, everything else as it was. */
  function UpdateQuantity(items: seq<Item>, id: int, q: int): (r: seq<Item>)
    ensures |r| == |items|
    ensures q < 1 ==> r == items
    ensures forall i | 0 <= i < |items| ::
              && r[i].id == items[i].id && r[i].price == items[i].price
              && (items[i].id != id ==> r[i] == items[i])
              && (items[i].id == id && q >= 1 ==> r[i].quantity == q)
  {
    if q < 1 then items
    else if items == [] then []
    else [if items[0].id == id then items[0].(quantity := q) else items[0]]
         + UpdateQuantity(items[1..], id, q)
  }

  /** No update lets a quantity drop below 1. */
  lemma UpdateKeepsWellFormed(items: seq<Item>, id: int, q: int)
    requires WellFormed(items)
    ensures WellFormed(UpdateQuantity(items, id, q))
  {
  }

  /** The part of the subtotal that the items with id would contribute at quantity q. */
  function IdSubtotalAt(items: seq<Item>, id: int, q: int): real {
    if items == [] then 0.0
    else (if items[0].id == id then LineTotal(items[0].(quantity := q)) else 0.0)
         + IdSubtotalAt(items[1..], id, q)
  }

  /** After an update to q >= 1 the items with id contribute their prices at quantity q, and the
      rest of the subtotal is unchanged. */
  lemma {:induction false} UpdateSubtotal(items: seq<Item>, id: int, q: int)
    requires q >= 1
    ensures Subtotal(UpdateQuantity(items, id, q))
            == Subtotal(items) - IdSubtotal(items, id) + IdSubtotalAt(items, id, q)
  {
    if items != [] {
      var u := UpdateQuantity(items, id, q);
      UpdateSubtotal(items[1..], id, q);
      assert u[1..] == UpdateQuantity(items[1..], id, q);
      if items[0].id == id {
        assert u[0] == items[0].(quantity := q);
      } else {
        assert u[0] == items[0];
      }
    }
  }

  /** At quantity q the items with id contribute q times the sum of their prices. */
  lemma {:induction false} IdSubtotalAtScales(items: seq<Item>, id: int, q: int)
    ensures IdSubtotalAt(items, id, q) == q as real * IdPrices(items, id)
  {
    if items != [] {
      IdSubtotalAtScales(items[1..], id, q);
      var qr, h, rest := q as real, items[0].price, IdPrices(items[1..], id);
      assert qr * ((if items[0].id == id then h else 0.0) + rest)
             == (if items[0].id == id then h * qr else 0.0) + qr * rest;
    }
  }

  /** `removeItem(id)`: the items without that id, in their order. */
  function RemoveItem(items: seq<Item>, id: int): (r: seq<Item>)
    ensures forall x :: x in r <==> x in items && x.id != id
    ensures |r| <= |items|
    ensures Subsequence(r, items)
  {
    if items == [] then []
    else if items[0].id == id then
      var rest := RemoveItem(items[1..], id);
      SubsequenceOfTail(rest, items);
      rest
    else
      var rest := RemoveItem(items[1..], id);
      assert ([items[0]] + rest)[1..] == rest;
      [items[0]] + rest
  }

  /** Removing takes exactly the contribution of the removed items off the subtotal. */
  lemma {:induction false} RemoveSubtotal(items: seq<Item>, id: int)
    ensures Subtotal(RemoveItem(items, id)) == Subtotal(items) - IdSubtotal(items, id)
  {
    if items != [] {
      RemoveSubtotal(items[1..], id);
      if items[0].id != id {
        assert RemoveItem(items, id) == [items[0]] + RemoveItem(items[1..], id);
        assert ([items[0]] + RemoveItem(items[1..], id))[1..] == RemoveItem(items[1..], id);
      }
    }
  }

  /** Removing an id that no item has changes nothing; removing twice is removing once. */
  lemma {:induction false} RemoveAbsent(items: seq<Item>, id: int)
    requires forall i | 0 <= i < |items| :: items[i].id != id
    ensures RemoveItem(items, id) == items
  {
    if items != [] {
      RemoveAbsent(items[1..], id);
      assert [items[0]] + items[1..] == items;
    }
  }

  lemma RemoveTwice(items: seq<Item>, id: int)
    ensures RemoveItem(RemoveItem(items, id), id) == RemoveItem(items, id)
  {
    var once := RemoveItem(items, id);
    forall i | 0 <= i < |once| ensures once[i].id != id {
      assert once[i] in once;
    }
    RemoveAbsent(once, id);
  }
}
