/**
 * The cart as its callers use it. The cart store's own implementation is
 * not part of this model, so pages are modelled by the requests they make
 * of it (`addItem`, `removeItem`, `updateQuantity`, `clearCart`), and the
 * cart page by what it computes from the lines it is shown.
 */
module Cart {
  import opened Wrappers
  import opened Types

  /** A call a page makes on the cart store; `AddItem` with `None` leaves the quantity to its default. */
  datatype CartRequest =
    | AddItem(product: Product, quantity: Option<int>)
    | RemoveItem(productId: string)
    | UpdateQuantity(productId: string, newQuantity: int)
    | ClearCart

  /** `items.reduce((sum, item) => sum + item.quantity, 0)`: the item count the cart page shows. */
  function ItemCount(lines: seq<CartItem>): int {
    if |lines| == 0 then 0 else lines[0].quantity + ItemCount(lines[1..])
  }

  /** A line's displayed subtotal. */
  function LineSubtotal(line: CartItem): int {
    line.product.price * line.quantity
  }

  /** Σ of the line subtotals. */
  function LinesTotal(lines: seq<CartItem>): int {
    if |lines| == 0 then 0 else LineSubtotal(lines[0]) + LinesTotal(lines[1..])
  }

  lemma {:induction false} ItemCountAppend(a: seq<CartItem>, b: seq<CartItem>)
    ensures ItemCount(a + b) == ItemCount(a) + ItemCount(b)
    decreases |a|
  {
    if |a| == 0 {
      assert a + b == b;
    } else {
      assert (a + b)[1..] == a[1..] + b;
      ItemCountAppend(a[1..], b);
    }
  }

  /** With every quantity at least 1, the count is at least the number of lines, so it is 0 only for an empty cart. */
  lemma {:induction false} ItemCountAtLeastLines(lines: seq<CartItem>)
    requires forall i :: 0 <= i < |lines| ==> lines[i].quantity >= 1
    ensures ItemCount(lines) >= |lines|
    ensures ItemCount(lines) == 0 <==> |lines| == 0
    decreases |lines|
  {
    if |lines| > 0 {
      ItemCountAtLeastLines(lines[1..]);
    }
  }

  /** The cart page shows its empty view exactly when there are no lines. */
  predicate ShowsEmptyView(lines: seq<CartItem>) {
    |lines| == 0
  }

  /** With every quantity at least 1, the empty view shows exactly when the item count is 0. */
  lemma EmptyViewIffNoItems(lines: seq<CartItem>)
    requires forall i :: 0 <= i < |lines| ==> lines[i].quantity >= 1
    ensures ShowsEmptyView(lines) <==> ItemCount(lines) == 0
  {
    ItemCountAtLeastLines(lines);
  }

  /** The minus button: disabled at quantity 1 or less, otherwise asks for one fewer. */
  function MinusRequest(line: CartItem): (r: Option<CartRequest>)
    ensures r.None? <==> line.quantity <= 1
    ensures r.Some? ==> r.value.UpdateQuantity? && r.value.productId == line.product.id
                        && r.value.newQuantity == line.quantity - 1 && r.value.newQuantity >= 1
  {
    if line.quantity <= 1 then None else Some(UpdateQuantity(line.product.id, line.quantity - 1))
  }

  /** The plus button: always enabled, with no upper bound. */
  function PlusRequest(line: CartItem): (r: CartRequest)
    ensures r.UpdateQuantity? && r.productId == line.product.id && r.newQuantity == line.quantity + 1
  {
    UpdateQuantity(line.product.id, line.quantity + 1)
  }

  /** The trash button removes the line by its own product id. */
  function RemoveRequest(line: CartItem): (r: CartRequest)
    ensures r.RemoveItem? && r.productId == line.product.id
  {
    RemoveItem(line.product.id)
  }

  /** No control of the cart page ever asks for a quantity below 1. */
  lemma NoRequestBelowOne(line: CartItem)
    requires line.quantity >= 0
    ensures MinusRequest(line).Some? ==> MinusRequest(line).value.newQuantity >= 1
    ensures PlusRequest(line).newQuantity >= 1
  {
  }
}
