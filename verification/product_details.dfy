/**
 * The product page's quantity stepper and its add-to-cart button. The
 * selected quantity starts at 1; the buttons clamp it to [1, stock] and
 * are disabled at the ends.
 */
module ProductDetails {
  import opened Wrappers
  import opened Types
  import Cart
  import ProductCard

  const InitialQuantity := 1

  /** The minus button is disabled at 1 or below. */
  predicate DecrementEnabled(q: int) {
    q > 1
  }

  /** The plus button is disabled once the quantity reaches the stock. */
  predicate IncrementEnabled(q: int, stock: int) {
    q < stock
  }

  /** `Math.max(1, quantity - 1)`. */
  function Decrement(q: int): (r: int)
    ensures r >= 1
    ensures q > 1 ==> r == q - 1
  {
    if q - 1 > 1 then q - 1 else 1
  }

  /** `Math.min(product.stock, quantity + 1)`. */
  function Increment(q: int, stock: int): (r: int)
    ensures r <= stock
    ensures q < stock ==> r == q + 1
  {
    if q + 1 < stock then q + 1 else stock
  }

  datatype Click = Minus | Plus

  /** A click on a disabled button does nothing. */
  function Press(q: int, stock: int, c: Click): int {
    match c
    case Minus => if DecrementEnabled(q) then Decrement(q) else q
    case Plus => if IncrementEnabled(q, stock) then Increment(q, stock) else q
  }

  function PressAll(q: int, stock: int, clicks: seq<Click>): int
    decreases |clicks|
  {
    if |clicks| == 0 then q else PressAll(Press(q, stock, clicks[0]), stock, clicks[1..])
  }

  /**
   * Whatever the user clicks, the quantity stays at least 1 and never
   * exceeds the stock, except that it stays at 1 for a product out of stock.
   */
  lemma {:induction false} QuantityStaysInRange(q: int, stock: int, clicks: seq<Click>)
    requires 1 <= q && (q <= stock || q == 1)
    ensures var r := PressAll(q, stock, clicks);
            1 <= r && (r <= stock || r == 1)
    decreases |clicks|
  {
    if |clicks| > 0 {
      var q' := Press(q, stock, clicks[0]);
      assert 1 <= q' && (q' <= stock || q' == 1);
      QuantityStaysInRange(q', stock, clicks[1..]);
    }
  }

  /** The add-to-cart button is disabled when the stock is exactly 0. */
  predicate AddEnabled(p: Product) {
    p.stock != 0
  }

  /** `handleAddToCart`: nothing without a loaded product, else `addItem(product, quantity)`. */
  function AddToCart(product: Option<Product>, q: int): (r: Option<Cart.CartRequest>)
    ensures product.None? <==> r.None?
    ensures r.Some? ==> r.value == Cart.AddItem(product.value, Some(q))
  {
    match product
    case None => None
    case Some(p) => Some(Cart.AddItem(p, Some(q)))
  }

  /** Starting from the initial quantity, the stepper stays in [1, stock] (at 1 when out of stock). */
  lemma StepperFromInitial(stock: int, clicks: seq<Click>)
    ensures var r := PressAll(InitialQuantity, stock, clicks);
            1 <= r && (r <= stock || r == 1)
  {
    QuantityStaysInRange(InitialQuantity, stock, clicks);
  }

  /** The details page enables its add button exactly when the product card does. */
  lemma AddEnabledMatchesCard(p: Product)
    ensures AddEnabled(p) <==> ProductCard.BadgesOf(p).addEnabled
  {
  }
}
