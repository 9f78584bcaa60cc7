/**
 * The checkout page: the shipping-address and payment form, the snapshot of
 * the cart lines into order lines, and `handleSubmit`, which clears the
 * cart only once the order was created.
 */
module Checkout {
  import opened Wrappers
  import opened Types
  import opened Cart
  import OrderService

  /** The three payment radio buttons. */
  datatype PaymentChoice = Card | PayPal | CashOnDelivery

  function PaymentCode(p: PaymentChoice): string {
    match p
    case Card => "card"
    case PayPal => "paypal"
    case CashOnDelivery => "cod"
  }

  const PaymentCodes: seq<string> := ["card", "paypal", "cod"]

  lemma PaymentCodesListed(p: PaymentChoice)
    ensures PaymentCode(p) in PaymentCodes
    ensures forall q: PaymentChoice :: PaymentCode(q) == PaymentCode(p) ==> q == p
  {
  }

  datatype CheckoutForm = CheckoutForm(address: Address, payment: PaymentChoice, loading: bool)

  const EmptyAddress := Address("", "", "", "", "")

  /** The form opens with all five address fields empty, card payment selected and nothing in flight. */
  const InitialForm := CheckoutForm(EmptyAddress, Card, false)

  /** Every address input is `required`, so the browser only submits a complete address. */
  predicate AddressComplete(a: Address) {
    a.street != "" && a.city != "" && a.state != "" && a.zipCode != "" && a.country != ""
  }

  lemma InitialFormBlocked()
    ensures !AddressComplete(InitialForm.address)
    ensures PaymentCode(InitialForm.payment) == "card"
  {
  }

  /** The submit button is disabled while an order is in flight or when the cart is empty. */
  predicate SubmitEnabled(form: CheckoutForm, lines: seq<CartItem>) {
    !form.loading && |lines| > 0
  }

  /** No order can be placed while one is in flight or from an empty cart; otherwise the button is live. */
  lemma SubmitBlockedWhenBusyOrEmpty(form: CheckoutForm, lines: seq<CartItem>)
    ensures !SubmitEnabled(form.(loading := true), lines)
    ensures !SubmitEnabled(form, [])
    ensures !form.loading && |lines| > 0 ==> SubmitEnabled(form, lines)
  {
  }

  function SnapshotLine(line: CartItem): OrderItem {
    OrderItem(line.product.id, line.product.name, line.product.price, line.quantity, line.product.image)
  }

  /** `items.map(...)`: one order line per cart line, in the same order. */
  function Snapshot(lines: seq<CartItem>): (r: seq<OrderItem>)
    ensures |r| == |lines|
    ensures forall i :: 0 <= i < |lines| ==>
              && r[i].productId == lines[i].product.id
              && r[i].productName == lines[i].product.name
              && r[i].price == lines[i].product.price
              && r[i].quantity == lines[i].quantity
              && r[i].image == lines[i].product.image
  {
    if |lines| == 0 then [] else [SnapshotLine(lines[0])] + Snapshot(lines[1..])
  }

  /** The order's total is the sum of the line subtotals the summary shows. */
  lemma {:induction false} SnapshotTotal(lines: seq<CartItem>)
    ensures OrderService.Total(Snapshot(lines)) == LinesTotal(lines)
    decreases |lines|
  {
    if |lines| > 0 {
      var r := Snapshot(lines);
      assert r[1..] == Snapshot(lines[1..]);
      SnapshotTotal(lines[1..]);
    }
  }

  /** What a submission leaves behind. */
  datatype Submission = Submission(
    order: Result<Order, Failure>,
    cartRequests: seq<CartRequest>,
    navigateTo: Option<string>,
    form: CheckoutForm)

  /** `handleSubmit` given the server's answer to the order POST. */
  function HandleSubmit(lines: seq<CartItem>, form: CheckoutForm, api: Result<Order, Failure>,
                        freshId: string, now: string): (r: Submission)
    ensures r.order == OrderService.CreateOrder(Snapshot(lines), form.address, PaymentCode(form.payment), api, freshId, now)
    ensures r.order.Ok? <==> r.cartRequests == [ClearCart]
    ensures r.order.Err? <==> r.cartRequests == []
    ensures r.order.Ok? <==> r.navigateTo == Some("/orders")
    ensures r.order.Err? ==> r.navigateTo.None?
    ensures r.form == form.(loading := false)
  {
    var items := Snapshot(lines);
    var created := OrderService.CreateOrder(items, form.address, PaymentCode(form.payment), api, freshId, now);
    match created
    case Ok(_) => Submission(created, [ClearCart], Some("/orders"), form.(loading := false))
    case Err(_) => Submission(created, [], None, form.(loading := false))
  }

  /** A checkout that falls back offline still records exactly the cart's lines and total. */
  lemma OfflineOrderMatchesCart(lines: seq<CartItem>, form: CheckoutForm, freshId: string, now: string)
    ensures var r := HandleSubmit(lines, form, Err(NetworkError), freshId, now);
            && r.order.Ok?
            && r.order.value.items == Snapshot(lines)
            && r.order.value.total == LinesTotal(lines)
            && r.order.value.status == Pending
            && r.order.value.paymentMethod in PaymentCodes
            && r.cartRequests == [ClearCart]
  {
    SnapshotTotal(lines);
  }
}
