/** Entities of the cart and order services (src/cart/models, src/order/models),
    the value types of their columns, and the error results that stand in for
    the exceptions the repositories and services throw. */
module Models {

  datatype Option<+T> = None | Some(value: T)

  /** UUID columns and identifiers: opaque, compared only for equality. */
  type Uuid = nat

  /** TIMESTAMPTZ values; every NOW() is a clock reading supplied by the caller. */
  type Timestamp = nat

  /** A JSON payload (payment, delivery), stored and returned verbatim. */
  type Json = string

  /** The range of a Postgres INTEGER column or parameter. */
  const INT32_MIN: int := -0x8000_0000
  const INT32_MAX: int := 0x7fff_ffff

  predicate IsInt32(n: int) {
    INT32_MIN <= n <= INT32_MAX
  }

  /** NUMERIC(10, 2) holds at most 8 digits before the decimal point; amounts
      are integer cents, so a storable amount has fewer than 10 digits. */
  const NUMERIC_10_2_BOUND: int := 10_000_000_000

  predicate FitsNumeric10_2(cents: int) {
    -NUMERIC_10_2_BOUND < cents < NUMERIC_10_2_BOUND
  }

  /** The values the `carts.status` CHECK constraint admits. */
  datatype CartStatus = Open | Ordered

  function CartStatusName(s: CartStatus): (name: string)
    ensures ParseCartStatus(name) == Some(s)
  {
    match s
    case Open => "OPEN"
    case Ordered => "ORDERED"
  }

  /** The text written into `carts.status`; None when the CHECK constraint rejects it. */
  function ParseCartStatus(text: string): (r: Option<CartStatus>)
    ensures r.Some? <==> text == "OPEN" || text == "ORDERED"
  {
    if text == "OPEN" then Some(CartStatus.Open)
    else if text == "ORDERED" then Some(CartStatus.Ordered)
    else None
  }

  /** The six values of the `orders.status` CHECK constraint and of the OrderStatus enum. */
  datatype OrderStatus = Open | Approved | Confirmed | Sent | Completed | Cancelled

  function OrderStatusName(s: OrderStatus): (name: string)
    ensures ParseOrderStatus(name) == Some(s)
  {
    match s
    case Open => "OPEN"
    case Approved => "APPROVED"
    case Confirmed => "CONFIRMED"
    case Sent => "SENT"
    case Completed => "COMPLETED"
    case Cancelled => "CANCELLED"
  }

  /** The text written into `orders.status`; None when the CHECK constraint rejects it. */
  function ParseOrderStatus(text: string): (r: Option<OrderStatus>)
    ensures r.Some? <==> text in {"OPEN", "APPROVED", "CONFIRMED", "SENT", "COMPLETED", "CANCELLED"}
  {
    if text == "OPEN" then Some(OrderStatus.Open)
    else if text == "APPROVED" then Some(Approved)
    else if text == "CONFIRMED" then Some(Confirmed)
    else if text == "SENT" then Some(Sent)
    else if text == "COMPLETED" then Some(Completed)
    else if text == "CANCELLED" then Some(Cancelled)
    else None
  }

  /** A status text the CHECK constraint admits is the name of the status it parses to. */
  lemma ParseOrderStatusName(text: string)
    requires ParseOrderStatus(text).Some?
    ensures OrderStatusName(ParseOrderStatus(text).value) == text
  {
  }

  /** A product as the catalog returns it; `price` is in cents. */
  datatype Product = Product(id: Uuid, title: string, description: string, price: int, count: int)

  datatype CartItem = CartItem(productId: Uuid, count: int)

  datatype CartItemPopulated = CartItemPopulated(product: Product, count: int)

  datatype Cart = Cart(
    id: Uuid,
    userId: Uuid,
    createdAt: Timestamp,
    updatedAt: Timestamp,
    status: CartStatus,
    items: seq<CartItem>)

  datatype PopulatedCart = PopulatedCart(
    id: Uuid,
    userId: Uuid,
    createdAt: Timestamp,
    updatedAt: Timestamp,
    status: CartStatus,
    items: seq<CartItemPopulated>)

  /** An order row; `total` is in cents and `comments` may be NULL. */
  datatype Order = Order(
    id: Uuid,
    userId: Uuid,
    cartId: Uuid,
    payment: Json,
    delivery: Json,
    comments: Option<string>,
    status: OrderStatus,
    total: int,
    createdAt: Timestamp,
    updatedAt: Timestamp)

  /** Why an operation failed. The source wraps every cause into a generic
      Error or BadRequestException with a message; the cause is kept here. */
  datatype Error =
    | RowNotFound            // an UPDATE or DELETE affected no row
    | CheckViolation         // a CHECK constraint rejected the new row
    | NotNullViolation       // a NOT NULL column was set to NULL
    | ForeignKeyViolation    // a REFERENCES constraint rejected the statement
    | UniqueViolation        // a PRIMARY KEY would be duplicated
    | OutOfRange             // a value does not fit INTEGER or NUMERIC(10, 2)
    | SyntaxError            // the generated SQL text is malformed
    | UndefinedColumn        // an UPDATE names a column the table lacks
    | DuplicateColumn        // an UPDATE assigns one column twice
    | TypeMismatch           // a parameter cannot be read as the column's type
    | ConnectionLost         // the database connection failed mid-transaction
    | CatalogUnavailable     // the product service request failed
    | ProductNotFound(productId: Uuid)
    | CartNotFound           // the user has no OPEN cart
    | OrderNotFound

  datatype Outcome = Success | Failure(error: Error)

  datatype Result<+T> = Ok(value: T) | Err(error: Error)
}
