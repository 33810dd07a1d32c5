/** The transfer objects the services hand to the HTTP layer (the classes under DTO). */
module Dtos {
  import opened Models

  datatype CartItemDto = CartItemDto(id: Guid, productId: Guid, quantity: int, priceAtPurchase: Price)

  /** A cart as the API shows it; the projection always fills `items`. */
  datatype CartDto = CartDto(id: Guid, createdAt: Time, items: seq<CartItemDto>)

  datatype OrderItemDto = OrderItemDto(
    id: Guid,
    productId: Guid,
    quantity: int,
    priceAtPurchase: Price,
    purchaseResponse: Option<PurchaseReceipt>)

  datatype OrderDto = OrderDto(id: Guid, createdAt: Time, status: string, items: seq<OrderItemDto>)

  /** One page of the order listing. */
  datatype OrdersListDto = OrdersListDto(orders: seq<OrderDto>, page: int, pageSize: int, totalCount: int)
}
