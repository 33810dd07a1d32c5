/** The order service (OrderService/Services/OrderService.cs): creates,
    lists, reads, updates and deletes orders over the order store, and maps
    orders to their transfer objects. */
module OrderServices {
  import opened Models
  import opened Dtos
  import opened ServiceResults
  import opened OrderRepositories

  /** `char.IsWhiteSpace`: the characters of Unicode's White_Space property. */
  predicate IsWhiteSpace(c: char) {
    ('\U{9}' <= c <= '\U{D}') || c == ' ' || c == '\U{85}' || c == '\U{A0}'
    || c == '\U{1680}' || ('\U{2000}' <= c <= '\U{200A}') || c == '\U{2028}' || c == '\U{2029}'
    || c == '\U{202F}' || c == '\U{205F}' || c == '\U{3000}'
  }

  /** `string.IsNullOrWhiteSpace` on a non-null string: the empty string
      and strings of white space only. */
  predicate IsBlank(s: string): (b: bool)
    ensures s == [] ==> b
  {
    forall i :: 0 <= i < |s| ==> IsWhiteSpace(s[i])
  }

  function ToOrderItemDto(item: OrderItem): (d: OrderItemDto)
    ensures d.id == item.id && d.productId == item.productId
    ensures d.quantity == item.quantity && d.priceAtPurchase == item.priceAtPurchase
    ensures d.purchaseResponse == item.purchaseResponse
  {
    OrderItemDto(item.id, item.productId, item.quantity, item.priceAtPurchase, item.purchaseResponse)
  }

  function FromOrderItemDto(d: OrderItemDto): OrderItem {
    OrderItem(d.id, d.productId, d.quantity, d.priceAtPurchase, d.purchaseResponse)
  }

  /** `MapToOrderDto`: the order's fields and each of its items, in order,
      with the purchase receipt passed through. */
  function MapToOrderDto(order: Order): (d: OrderDto)
    ensures d.id == order.id && d.createdAt == order.createdAt && d.status == order.status
    ensures |d.items| == |order.items|
    ensures forall i :: 0 <= i < |d.items| ==> d.items[i] == ToOrderItemDto(order.items[i])
  {
    OrderDto(order.id, order.createdAt, order.status,
      seq(|order.items|, i requires 0 <= i < |order.items| => ToOrderItemDto(order.items[i])))
  }

  /** The order a transfer object describes. */
  function FromOrderDto(d: OrderDto): Order {
    Order(d.id, d.createdAt, d.status,
      seq(|d.items|, i requires 0 <= i < |d.items| => FromOrderItemDto(d.items[i])))
  }

  /** The transfer object loses nothing: the order can be rebuilt from it. */
  lemma MapToOrderDtoRoundTrip(order: Order)
    ensures FromOrderDto(MapToOrderDto(order)) == order
  {
    var back := FromOrderDto(MapToOrderDto(order));
    assert back.items == order.items;
  }

  /** Two orders map to the same transfer object only if they are the same. */
  lemma MapToOrderDtoInjective(a: Order, b: Order)
    ensures MapToOrderDto(a) == MapToOrderDto(b) ==> a == b
  {
    MapToOrderDtoRoundTrip(a);
    MapToOrderDtoRoundTrip(b);
  }

  /** `Select(MapToOrderDto)` over a list of orders. */
  function MapAll(orders: seq<Order>): (r: seq<OrderDto>)
    ensures |r| == |orders|
    ensures forall i :: 0 <= i < |r| ==> r[i] == MapToOrderDto(orders[i])
  {
    seq(|orders|, i requires 0 <= i < |orders| => MapToOrderDto(orders[i]))
  }

  /** Mapping keeps the newest-first order and maps only orders of `table`
      when the list is drawn from it. */
  lemma MapAllFacts(orders: seq<Order>, table: seq<Order>)
    requires NewestFirst(orders) && forall o :: o in orders ==> o in table
    ensures forall i, j :: 0 <= i < j < |MapAll(orders)| ==> MapAll(orders)[i].createdAt >= MapAll(orders)[j].createdAt
    ensures forall d :: d in MapAll(orders) ==> exists o :: o in table && d == MapToOrderDto(o)
  {
    var r := MapAll(orders);
    forall d | d in r
      ensures exists o :: o in table && d == MapToOrderDto(o)
    {
      var i :| 0 <= i < |r| && r[i] == d;
      assert orders[i] in orders;
    }
  }

  /** The order with its creation time set to `now` when nobody set it. */
  function Stamped(order: Order, now: Time): (r: Order)
    ensures r.id == order.id && r.status == order.status && r.items == order.items
    ensures order.createdAt == DefaultTime ==> r.createdAt == now
    ensures order.createdAt != DefaultTime ==> r.createdAt == order.createdAt
  {
    if order.createdAt == DefaultTime then order.(createdAt := now) else order
  }

  class OrderService {
    const repo: OrderRepository

    ghost predicate Valid()
      reads this, repo
    {
      repo.Valid()
    }

    constructor (repo: OrderRepository)
      requires repo.Valid()
      ensures this.repo == repo && Valid()
    {
      this.repo := repo;
    }

    /** `CreateOrderAsync`: stamps the order with the current time `now` when
        its creation time is unset, stores it and returns it. An order whose
        id or item ids are taken makes the store throw, and the exception
        escapes with nothing stored. */
    method CreateOrder(order: Order, now: Time) returns (r: Outcome<Order>)
      requires Valid()
      modifies repo
      ensures Valid()
      ensures Insertable(old(repo.orders), order) ==>
                r == Returned(Stamped(order, now))
                && repo.orders == old(repo.orders) + [r.value]
                && repo.GetOrderById(order.id) == Some(r.value)
      ensures !DistinctLineIds(order.items) ==>
                r == Threw(TrackingConflictMessage) && repo.orders == old(repo.orders)
      ensures DistinctLineIds(order.items) && !Insertable(old(repo.orders), order) ==>
                r == Threw(SaveFailedMessage) && repo.orders == old(repo.orders)
    {
      var stamped := order;
      if stamped.createdAt == DefaultTime {
        stamped := stamped.(createdAt := now);
      }
      var saved := repo.SaveOrder(stamped);
      if saved.Threw? {
        return Threw(saved.exception);
      }
      FindAfterAppend(old(repo.orders), stamped, order.id);
      r := Returned(stamped);
    }

    /** `DeleteOrderAsync`: success exactly when the order existed. */
    method DeleteOrder(id: Guid) returns (r: ServiceResult)
      requires Valid()
      modifies repo
      ensures Valid()
      ensures r.success <==> id in OrderIds(old(repo.orders))
      ensures r.success ==> r.message == "Order deleted successfully."
      ensures !r.success ==> r.message == "Order not found or could not be deleted."
      ensures r.data == NoData
      ensures repo.orders == WithoutOrder(old(repo.orders), id)
      ensures repo.GetOrderById(id) == None
    {
      var success := repo.DeleteOrder(id);
      r := ServiceResult(success,
        if success then "Order deleted successfully." else "Order not found or could not be deleted.",
        NoData);
    }

    /** `GetAllOrdersAsync`: one page of orders, newest first, as transfer
        objects. `totalCount` is the number of orders on this page, not in
        the store. The database's refusal of the page escapes unchanged. */
    function GetAllOrders(page: int, pageSize: int): (r: Outcome<OrdersListDto>)
      reads this, repo
      ensures r.Threw? <==> repo.GetAllOrders(page, pageSize).Threw?
      ensures r.Threw? ==> r == Threw(repo.GetAllOrders(page, pageSize).exception)
      ensures r.Returned? ==>
                var orders := repo.GetAllOrders(page, pageSize).value;
                && r.value.page == page && r.value.pageSize == pageSize
                && r.value.totalCount == |r.value.orders| == |orders|
                && (forall i :: 0 <= i < |r.value.orders| ==> r.value.orders[i] == MapToOrderDto(orders[i]))
                && (forall i, j :: 0 <= i < j < |r.value.orders| ==> r.value.orders[i].createdAt >= r.value.orders[j].createdAt)
                && (forall d :: d in r.value.orders ==> exists o :: o in repo.orders && d == MapToOrderDto(o))
    {
      match repo.GetAllOrders(page, pageSize)
      case Threw(e) => Threw(e)
      case Returned(orders) =>
        var dtos := MapAll(orders);
        MapAllFacts(orders, repo.orders);
        Returned(OrdersListDto(dtos, page, pageSize, |dtos|))
    }

    /** `GetOrderAsync`: the order's transfer object, or null when absent. */
    function GetOrder(id: Guid): (r: Option<OrderDto>)
      reads this, repo
      ensures r.None? <==> id !in OrderIds(repo.orders)
      ensures r.Some? ==> r.value.id == id && exists o :: o in repo.orders && r.value == MapToOrderDto(o)
    {
      match repo.GetOrderById(id)
      case None => None
      case Some(order) => Some(MapToOrderDto(order))
    }

    /** `UpdateOrderStatusAsync`, behind the controller's refusal of a blank
        status: "Order not found." and no change when the order is absent;
        otherwise only that order's status changes. */
    method UpdateOrderStatus(id: Guid, status: string) returns (r: ServiceResult)
      requires Valid() && !IsBlank(status)
      modifies repo
      ensures Valid()
      ensures r.success <==> id in OrderIds(old(repo.orders))
      ensures !r.success ==> r == Fail("Order not found.") && repo.orders == old(repo.orders)
      ensures r.success ==> r == Ok("Order status updated successfully.")
      ensures r.success ==>
        var updated := old(repo.GetOrderById(id)).value.(status := status);
        repo.orders == ReplaceOrder(old(repo.orders), updated)
        && repo.GetOrderById(id) == Some(updated)
        && forall other :: other != id ==> repo.GetOrderById(other) == old(repo.GetOrderById(other))
    {
      var order := repo.GetOrderById(id);
      if order.None? {
        return Fail("Order not found.");
      }
      var updated := order.value.(status := status);
      var success := repo.UpdateOrder(updated);
      forall other | true
        ensures FindOrder(repo.orders, other) == if other == id then Some(updated) else FindOrder(old(repo.orders), other)
      {
        FindAfterReplace(old(repo.orders), updated, other);
      }
      r := ServiceResult(success,
        if success then "Order status updated successfully." else "Failed to update order status.",
        NoData);
    }

    /** `UpdateOrderAsync`: null and no change when the order is absent;
        otherwise copies only the status from the transfer object (items and
        creation time stay) and returns the updated order's transfer object. */
    method UpdateOrder(id: Guid, orderDto: OrderDto) returns (r: Option<OrderDto>)
      requires Valid()
      modifies repo
      ensures Valid()
      ensures r.None? <==> id !in OrderIds(old(repo.orders))
      ensures r.None? ==> repo.orders == old(repo.orders)
      ensures r.Some? ==>
        var updated := old(repo.GetOrderById(id)).value.(status := orderDto.status);
        repo.orders == ReplaceOrder(old(repo.orders), updated)
        && r.value == MapToOrderDto(updated)
        && repo.GetOrderById(id) == Some(updated)
    {
      var existing := repo.GetOrderById(id);
      if existing.None? {
        return None;
      }
      var updated := existing.value.(status := orderDto.status);
      var success := repo.UpdateOrder(updated);
      FindAfterReplace(old(repo.orders), updated, id);
      if !success {
        return None;
      }
      r := Some(MapToOrderDto(updated));
    }
  }
}
