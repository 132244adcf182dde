/** The inventory ledger: one record per product holding its stock counters, and the three
    counter moves the controllers apply to a record. */
module Inventory {
  import opened Common

  /** One entry of the restock history; its date comes from the clock and is left out. */
  datatype Restock = Restock(quantity: int)

  datatype Record = Record(product: ProductId, stock: int, reservedStock: int, sold: int,
                           restocks: seq<Restock>)
  {
    /** The schema's `min: 0` validators on stock, reservedStock and sold, run by every save. */
    predicate Valid() {
      stock >= 0 && reservedStock >= 0 && sold >= 0
    }
  }

  /** The record a create from `{product, stock}` produces: reservedStock and sold take their
      default 0 and the restock history starts empty, so it saves exactly when stock >= 0. */
  function Create(product: ProductId, stock: int): (r: Record)
    ensures r.product == product && r.stock == stock && r.restocks == []
    ensures r.reservedStock == 0 && r.sold == 0
    ensures r.Valid() <==> stock >= 0
  {
    Record(product, stock, 0, 0, [])
  }

  /** A reservation (a cart add, or a positive quantity change): `stock -= q; reservedStock += q`.
      It moves units between the two counters and creates none. */
  function Reserve(r: Record, q: int): (r': Record)
    ensures r'.stock + r'.reservedStock == r.stock + r.reservedStock
    ensures r'.reservedStock == r.reservedStock + q
    ensures r'.product == r.product && r'.sold == r.sold && r'.restocks == r.restocks
    ensures r.Valid() && 0 <= q ==> (r'.Valid() <==> q <= r.stock)
  {
    r.(stock := r.stock - q, reservedStock := r.reservedStock + q)
  }

  /** A release (a cart removal, or a negative quantity change):
      `reservedStock = max(0, reservedStock - q); stock += q`.
      The full q always returns to stock, but the reservation only shrinks to zero, so a release
      larger than the reservation creates the surplus units out of nothing. */
  function Release(r: Record, q: int): (r': Record)
    ensures r'.stock == r.stock + q
    ensures r'.stock + r'.reservedStock ==
            r.stock + r.reservedStock + (if q <= r.reservedStock then 0 else q - r.reservedStock)
    ensures r'.product == r.product && r'.sold == r.sold && r'.restocks == r.restocks
    ensures r.Valid() && 0 <= q ==> r'.Valid()
  {
    r.(reservedStock := if r.reservedStock - q > 0 then r.reservedStock - q else 0,
       stock := r.stock + q)
  }

  /** Settlement of a paid order line: `reservedStock -= q; sold += q`. The next save rejects the
      record when the reservation does not cover q. */
  function Settle(r: Record, q: int): (r': Record)
    ensures r'.reservedStock + r'.sold == r.reservedStock + r.sold
    ensures r'.sold == r.sold + q
    ensures r'.product == r.product && r'.stock == r.stock && r'.restocks == r.restocks
    ensures r.Valid() && 0 <= q ==> (r'.Valid() <==> q <= r.reservedStock)
  {
    r.(reservedStock := r.reservedStock - q, sold := r.sold + q)
  }

  /** Releasing what was just reserved restores the record exactly. */
  lemma ReleaseUndoesReserve(r: Record, q: int)
    requires r.Valid() && 0 <= q <= r.stock
    ensures Release(Reserve(r, q), q) == r
  {
  }

  /** A release of more than the reservation increases the units on hand (stock + reservedStock). */
  lemma OverReleaseCreatesUnits(r: Record, q: int)
    requires r.Valid() && q > r.reservedStock
    ensures Release(r, q).stock + Release(r, q).reservedStock > r.stock + r.reservedStock
    ensures Release(r, q).reservedStock == 0
  {
  }
}
