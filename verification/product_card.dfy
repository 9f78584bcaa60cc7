/**
 * The product card's stock and rating badges and its add button. Ratings
 * are in tenths of a star, so the `Top Rated` threshold 4.5 is 45.
 */
module ProductCard {
  import opened Wrappers
  import opened Types
  import Cart

  const TopRatedThreshold := 45
  const LimitedStockMax := 10

  datatype Badges = Badges(outOfStock: bool, limitedStock: bool, inStock: bool, topRated: bool, addEnabled: bool)

  /** Which badges a product's card shows. */
  function BadgesOf(p: Product): (b: Badges)
    ensures b.outOfStock <==> p.stock == 0
    ensures b.limitedStock <==> 0 < p.stock <= LimitedStockMax
    ensures b.inStock <==> p.stock > 0
    ensures b.topRated <==> p.rating >= TopRatedThreshold
    ensures b.addEnabled <==> p.stock != 0
  {
    Badges(p.stock == 0, p.stock > 0 && p.stock <= LimitedStockMax, p.stock > 0,
           p.rating >= TopRatedThreshold, !(p.stock == 0))
  }

  /** `Out of Stock` and `Limited Stock` never show together; for a non-negative stock exactly one of `Out of Stock` and `In Stock` shows. */
  lemma StockBadgesExclusive(p: Product)
    ensures !(BadgesOf(p).outOfStock && BadgesOf(p).limitedStock)
    ensures BadgesOf(p).limitedStock ==> BadgesOf(p).inStock
    ensures p.stock >= 0 ==> (BadgesOf(p).outOfStock <==> !BadgesOf(p).inStock)
    ensures p.stock >= 0 ==> (BadgesOf(p).addEnabled <==> BadgesOf(p).inStock)
  {
  }

  /** The add button calls `addItem(product)` without a quantity. */
  function AddRequest(p: Product): (r: Cart.CartRequest)
    ensures r.AddItem? && r.product == p && r.quantity.None?
  {
    Cart.AddItem(p, None)
  }
}
