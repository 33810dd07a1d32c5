/** The entities of the order service: carts, cart items, orders, order items
    and the values the product service answers with (the classes under Models). */
module Models {

  /** A Guid, represented by its canonical text form, so that putting one into
      a message is plain concatenation. */
  type Guid = string

  /** A DateTime as a tick count. */
  type Time = int

  /** `default(DateTime)`: the value of a timestamp nobody has set. */
  const DefaultTime: Time := 0

  /** A decimal(18,2) amount of money, in cents. */
  type Price = int

  /** A reference that may be null. */
  datatype Option<+T> = None | Some(value: T)

  /** A call that either returns a value or lets an exception escape. */
  datatype Outcome<+T> = Returned(value: T) | Threw(exception: string)

  /** A line of a cart. `cartId` is the foreign key behind the required
      `Cart` navigation: every item belongs to exactly one cart. */
  datatype CartItem = CartItem(
    id: Guid,
    productId: Guid,
    quantity: int,
    priceAtPurchase: Price,
    cartId: Guid)

  /** A cart as loaded from the store. `items` is None when the query did not
      load the item collection (no `Include`). */
  datatype Cart = Cart(id: Guid, createdAt: Time, items: Option<seq<CartItem>>)

  /** The receipt the product service returns for a successful purchase,
      stored with the order item as an owned value. */
  datatype PurchaseReceipt = PurchaseReceipt(
    transactionId: string,
    externalId: string,
    productId: Guid,
    quantity: int,
    isSuccess: bool,
    confirmationCode: string,
    totalAmount: Price,
    currencyCode: string,
    purchaseDate: Time,
    message: string,
    provider: string)

  /** A line of an order; the receipt is absent when the item was not created
      from a successful purchase. */
  datatype OrderItem = OrderItem(
    id: Guid,
    productId: Guid,
    quantity: int,
    priceAtPurchase: Price,
    purchaseResponse: Option<PurchaseReceipt>)

  /** An order with the items it owns. */
  datatype Order = Order(id: Guid, createdAt: Time, status: string, items: seq<OrderItem>)

  /** What the product service says about a product's availability. */
  datatype AvailabilityInfo = AvailabilityInfo(isAvailable: bool, currentPrice: Price)
}
