/**
 * The storefront's records: users, products, cart lines, orders, addresses
 * and catalogue filters, together with the error values its services raise.
 * Prices are integers in the smallest currency unit and ratings are
 * integers in tenths of a star (4.5 stars is 45).
 */
module Types {
  import opened Wrappers
  import opened JsValues

  /** A user account's role: exactly `user` or `admin`. */
  datatype Role = UserRole | AdminRole

  datatype User = User(id: string, email: string, name: string, role: Role, createdAt: string)

  /** What a successful login or registration returns. */
  datatype AuthResponse = AuthResponse(token: string, user: User)

  datatype Product = Product(
    id: string,
    name: string,
    description: string,
    price: int,
    image: string,
    category: string,
    stock: int,
    rating: int,
    reviews: int,
    createdAt: string)

  /** A cart line pairs a whole product with a quantity. */
  datatype CartItem = CartItem(product: Product, quantity: int)

  /**
   * An order line is a self-contained snapshot of a product: it holds no
   * reference to the product, so later edits of the catalogue leave it alone.
   */
  datatype OrderItem = OrderItem(productId: string, productName: string, price: int, quantity: int, image: string)

  /** An order's status: exactly one of five values. */
  datatype OrderStatus = Pending | Processing | Shipped | Delivered | Cancelled

  function StatusName(s: OrderStatus): string {
    match s
    case Pending => "pending"
    case Processing => "processing"
    case Shipped => "shipped"
    case Delivered => "delivered"
    case Cancelled => "cancelled"
  }

  function ParseStatus(s: string): (r: Option<OrderStatus>)
    ensures r.Some? ==> StatusName(r.value) == s
  {
    if s == "pending" then Some(Pending)
    else if s == "processing" then Some(Processing)
    else if s == "shipped" then Some(Shipped)
    else if s == "delivered" then Some(Delivered)
    else if s == "cancelled" then Some(Cancelled)
    else None
  }

  lemma ParseStatusName(s: OrderStatus)
    ensures ParseStatus(StatusName(s)) == Some(s)
  {
  }

  datatype Address = Address(street: string, city: string, state: string, zipCode: string, country: string)

  datatype Order = Order(
    id: string,
    userId: string,
    items: seq<OrderItem>,
    total: int,
    status: OrderStatus,
    shippingAddress: Address,
    paymentMethod: string,
    createdAt: string)

  /** Catalogue filters; every field is optional. */
  datatype ProductFilters = ProductFilters(
    category: Option<string>,
    minPrice: Option<JsNumber>,
    maxPrice: Option<JsNumber>,
    rating: Option<JsNumber>,
    search: Option<string>)

  const NoFilters := ProductFilters(None, None, None, None, None)

  /**
   * Why a call failed: the transport could not reach the server (axios code
   * `ERR_NETWORK`), the server answered with a non-2xx status, the client
   * code threw an `Error` with a message, or `JSON.parse` threw.
   */
  datatype Failure = NetworkError | HttpError(status: int) | Thrown(message: string) | ParseError
}
