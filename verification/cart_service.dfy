/** The cart service (OrderService/Services/CartService.cs): adds, updates
    and removes cart lines, lists and projects carts, and checks a cart out
    into an order by purchasing every line from the product service. */
module CartServices {
  import opened Models
  import opened Dtos
  import opened ServiceResults
  import opened ProductGateway
  import opened CartRepositories
  import opened CartLines
  import OrderRepositories
  import OrderServices
  import Paging

  // ---------------------------------------------------------------------------
  // Projection

  function ToItemDto(item: CartItem): CartItemDto {
    CartItemDto(item.id, item.productId, item.quantity, item.priceAtPurchase)
  }

  /** `ToDto`: the cart's id, creation time and every item's fields in order;
      an unloaded item collection shows as an empty list. */
  function ToDto(cart: Cart): (d: CartDto)
    ensures d.id == cart.id && d.createdAt == cart.createdAt
    ensures cart.items.None? ==> d.items == []
    ensures cart.items.Some? ==> |d.items| == |cart.items.value|
    ensures cart.items.Some? ==> forall i :: 0 <= i < |d.items| ==>
              d.items[i].id == cart.items.value[i].id
              && d.items[i].productId == cart.items.value[i].productId
              && d.items[i].quantity == cart.items.value[i].quantity
              && d.items[i].priceAtPurchase == cart.items.value[i].priceAtPurchase
  {
    var items := ItemsOfCart(cart);
    CartDto(cart.id, cart.createdAt, seq(|items|, i requires 0 <= i < |items| => ToItemDto(items[i])))
  }

  /** The loaded cart a transfer object describes. */
  function FromDto(d: CartDto): Cart {
    Cart(d.id, d.createdAt, Some(seq(|d.items|, i requires 0 <= i < |d.items| =>
      CartItem(d.items[i].id, d.items[i].productId, d.items[i].quantity, d.items[i].priceAtPurchase, d.id))))
  }

  /** A loaded cart loses nothing in its transfer object. */
  lemma ToDtoRoundTrip(cart: Cart)
    requires cart.items.Some? && forall x :: x in cart.items.value ==> x.cartId == cart.id
    ensures FromDto(ToDto(cart)) == cart
  {
    var back := FromDto(ToDto(cart));
    assert back.items.value == cart.items.value by {
      forall i | 0 <= i < |cart.items.value|
        ensures back.items.value[i] == cart.items.value[i]
      {
        assert cart.items.value[i] in cart.items.value;
      }
    }
  }

  // ---------------------------------------------------------------------------
  // What the store writes do to one cart's lines

  /** Every cart other than `cartId` has the same lines in both tables. */
  ghost predicate OtherCartsKept(before: seq<CartItem>, after: seq<CartItem>, cartId: Guid) {
    forall other :: other != cartId ==> ItemsOf(after, other) == ItemsOf(before, other)
  }

  /** No cart holds a product on two lines: the invariant that adding to a
      product's first line (`FirstOrDefault`) relies on. */
  ghost predicate ProductsUnique(items: seq<CartItem>) {
    forall cartId :: UniqueProducts(ItemsOf(items, cartId))
  }

  /** Changing one cart's lines keeps the invariant when that cart keeps it. */
  lemma KeptUnique(before: seq<CartItem>, after: seq<CartItem>, cartId: Guid)
    requires ProductsUnique(before) && OtherCartsKept(before, after, cartId)
    requires UniqueProducts(ItemsOf(after, cartId))
    ensures ProductsUnique(after)
  {
    forall other
      ensures UniqueProducts(ItemsOf(after, other))
    {
      if other != cartId {
        assert ItemsOf(after, other) == ItemsOf(before, other);
      }
    }
  }

  /** Deleting a cart with its lines keeps the invariant. */
  lemma WithoutCartUnique(items: seq<CartItem>, cartId: Guid)
    requires ProductsUnique(items)
    ensures ProductsUnique(WithoutCartItems(items, cartId))
  {
    forall other
      ensures UniqueProducts(ItemsOf(WithoutCartItems(items, cartId), other))
    {
      ItemsOfWithoutCart(items, cartId, other);
    }
  }

  /** Overwriting line `k` of a cart changes that line and no other cart. */
  lemma ReplaceInCart(items: seq<CartItem>, cartId: Guid, k: nat, x: CartItem)
    requires DistinctItemIds(items)
    requires k < |ItemsOf(items, cartId)|
    requires x.id == ItemsOf(items, cartId)[k].id && x.cartId == cartId
    ensures ItemsOf(ReplaceItem(items, x), cartId) == ItemsOf(items, cartId)[k := x]
    ensures OtherCartsKept(items, ReplaceItem(items, x), cartId)
  {
    var lines := ItemsOf(items, cartId);
    var old_ := lines[k];
    assert old_ in lines;
    forall y | y in items && y.id == x.id
      ensures y.cartId == x.cartId
    {
      DistinctSameId(items, y, old_);
    }
    ItemsOfReplace(items, x, cartId);
    ReplaceItemAt(lines, k, x);
    forall other | other != cartId
      ensures ItemsOf(ReplaceItem(items, x), other) == ItemsOf(items, other)
    {
      ItemsOfReplace(items, x, other);
      ItemOfOneCart(items, old_, other);
      ReplaceItemAbsent(ItemsOf(items, other), x);
    }
  }

  /** Deleting the row of line `k` removes that line and touches no other cart. */
  lemma RemoveInCart(items: seq<CartItem>, cartId: Guid, k: nat)
    requires DistinctItemIds(items) && k < |ItemsOf(items, cartId)|
    ensures var lines := ItemsOf(items, cartId);
            ItemsOf(WithoutItem(items, lines[k].id), cartId) == RemoveAt(lines, k)
    ensures OtherCartsKept(items, WithoutItem(items, ItemsOf(items, cartId)[k].id), cartId)
  {
    var lines := ItemsOf(items, cartId);
    var gone := lines[k];
    assert gone in lines;
    ItemsOfWithoutItem(items, gone.id, cartId);
    RemoveAtIsWithoutItem(lines, k);
    forall other | other != cartId
      ensures ItemsOf(WithoutItem(items, gone.id), other) == ItemsOf(items, other)
    {
      ItemsOfWithoutItem(items, gone.id, other);
      ItemOfOneCart(items, gone, other);
    }
  }

  /** Inserting a row for a cart appends a line to that cart and no other. */
  lemma AppendInCart(items: seq<CartItem>, x: CartItem)
    ensures ItemsOf(items + [x], x.cartId) == ItemsOf(items, x.cartId) + [x]
    ensures OtherCartsKept(items, items + [x], x.cartId)
  {
    ItemsOfAppend(items, x, x.cartId);
    forall other | other != x.cartId
      ensures ItemsOf(items + [x], other) == ItemsOf(items, other)
    {
      ItemsOfAppend(items, x, other);
    }
  }

  /** Inserting a new line for a product the cart lacks is the merge of an
      added product not yet in the cart. */
  lemma MergeNewInCart(items: seq<CartItem>, cartId: Guid, productId: Guid, quantity: int, price: Price, newId: Guid)
    requires IndexOfProduct(ItemsOf(items, cartId), productId) == |ItemsOf(items, cartId)|
    ensures var after := items + [CartItem(newId, productId, quantity, price, cartId)];
            ItemsOf(after, cartId) == MergeLine(ItemsOf(items, cartId), cartId, productId, quantity, price, newId)
            && OtherCartsKept(items, after, cartId)
  {
    AppendInCart(items, CartItem(newId, productId, quantity, price, cartId));
    MergeLineCases(ItemsOf(items, cartId), cartId, productId, quantity, price, newId);
  }

  /** Saving a cart whose loaded lines lost line `k` deletes exactly that row. */
  lemma RemoveReconciles(items: seq<CartItem>, cartId: Guid, k: nat)
    requires DistinctItemIds(items) && k < |ItemsOf(items, cartId)|
    ensures var lines := ItemsOf(items, cartId);
            Reconcile(items, cartId, RemoveAt(lines, k)) == WithoutItem(items, lines[k].id)
  {
    var lines := ItemsOf(items, cartId);
    var gone := lines[k];
    var keep := RemoveAt(lines, k);
    assert gone in lines;
    RemoveAtIsWithoutItem(lines, k);
    forall y | y in items && y.id == gone.id
      ensures y.cartId == cartId
    {
      DistinctSameId(items, y, gone);
    }
    forall y | y in items && y.cartId == cartId
      ensures FindItem(keep, y.id) == if y.id == gone.id then None else Some(y)
    {
      if y.id != gone.id {
        FindItemDistinct(keep, y);
      }
    }
    ReconcileRemoves(items, cartId, keep, gone.id);
  }

  // ---------------------------------------------------------------------------
  // Checkout

  /** The purchase requests for the given lines, one per line, in order. */
  function PurchaseCalls(lines: seq<CartItem>): (calls: seq<GatewayCall>)
    ensures |calls| == |lines|
    ensures forall j :: 0 <= j < |lines| ==> calls[j] == Purchase(lines[j].productId, lines[j].quantity)
    ensures forall c :: c in calls ==> c.Purchase?
  {
    seq(|lines|, j requires 0 <= j < |lines| => Purchase(lines[j].productId, lines[j].quantity))
  }

  /** The product service's reply to the purchase of line `j`, sent after the
      purchases of the lines before it. */
  function PurchaseReply(answer: Oracle, log0: seq<GatewayCall>, lines: seq<CartItem>, j: nat): (reply: ServiceResult)
    requires j < |lines|
    ensures var calls := PurchaseCalls(lines);
            reply == answer(log0 + calls[..j], calls[j])
  {
    var calls := PurchaseCalls(lines);
    assert PurchaseCalls(lines[..j]) == calls[..j];
    answer(log0 + PurchaseCalls(lines[..j]), Purchase(lines[j].productId, lines[j].quantity))
  }

  /** The first line from `from` on whose purchase fails, or `|lines|` when
      all of them succeed. */
  function FirstFailure(answer: Oracle, log0: seq<GatewayCall>, lines: seq<CartItem>, from: nat): (k: nat)
    requires from <= |lines|
    ensures from <= k <= |lines|
    ensures forall j :: from <= j < k ==> PurchaseReply(answer, log0, lines, j).success
    ensures k < |lines| ==> !PurchaseReply(answer, log0, lines, k).success
    decreases |lines| - from
  {
    if from == |lines| then from
    else if !PurchaseReply(answer, log0, lines, from).success then from
    else FirstFailure(answer, log0, lines, from + 1)
  }

  /** The order items made from the first `n` lines: one per line, in order,
      with the line's product, quantity and cart price, the id `itemIds[j]`,
      and the purchase receipt the product service returned. */
  function OrderLines(answer: Oracle, log0: seq<GatewayCall>, lines: seq<CartItem>, itemIds: seq<Guid>, n: nat): (r: seq<OrderItem>)
    requires n <= |lines| && n <= |itemIds|
    ensures |r| == n
    ensures forall j :: 0 <= j < n ==>
              r[j].id == itemIds[j] && r[j].productId == lines[j].productId
              && r[j].quantity == lines[j].quantity && r[j].priceAtPurchase == lines[j].priceAtPurchase
              && r[j].purchaseResponse == AsReceipt(PurchaseReply(answer, log0, lines, j).data)
  {
    seq(n, j requires 0 <= j < n =>
      OrderItem(itemIds[j], lines[j].productId, lines[j].quantity, lines[j].priceAtPurchase,
                AsReceipt(PurchaseReply(answer, log0, lines, j).data)))
  }

  /** The cancellation requests the unused rollback would send, in order. */
  function CancelCalls(items: seq<OrderItem>): (calls: seq<GatewayCall>)
    ensures |calls| == |items|
    ensures forall j :: 0 <= j < |items| ==> calls[j] == GatewayCall.CancelPurchase(items[j].productId, items[j].quantity)
  {
    seq(|items|, j requires 0 <= j < |items| => GatewayCall.CancelPurchase(items[j].productId, items[j].quantity))
  }

  /** Checkout purchases in cart order and stops at the first failure: the
      lines before it all succeeded and the failing one is the first that did
      not. */
  lemma FirstFailureIsFirst(answer: Oracle, log0: seq<GatewayCall>, lines: seq<CartItem>, i: nat)
    requires i < |lines|
    requires forall j :: 0 <= j < i ==> PurchaseReply(answer, log0, lines, j).success
    requires !PurchaseReply(answer, log0, lines, i).success
    ensures FirstFailure(answer, log0, lines, 0) == i
  {
  }

  /** An order built from the lines with distinct item ids that the order
      table does not hold yet, and an unused order id, is accepted by the
      store. */
  lemma OrderLinesInsertable(answer: Oracle, log0: seq<GatewayCall>, lines: seq<CartItem>, itemIds: seq<Guid>,
                             table: seq<Order>, orderId: Guid, now: Time)
    requires |lines| <= |itemIds| && orderId !in OrderRepositories.OrderIds(table)
    requires forall i, j :: 0 <= i < j < |itemIds| ==> itemIds[i] != itemIds[j]
    requires forall i :: 0 <= i < |itemIds| ==> itemIds[i] !in OrderRepositories.OrderItemIds(table)
    ensures OrderRepositories.Insertable(table, Order(orderId, now, "Pending", OrderLines(answer, log0, lines, itemIds, |lines|)))
  {
    var items := OrderLines(answer, log0, lines, itemIds, |lines|);
    forall x | x in items
      ensures x.id !in OrderRepositories.OrderItemIds(table)
    {
      var j :| 0 <= j < |items| && items[j] == x;
    }
  }

  lemma OrderLinesSnoc(answer: Oracle, log0: seq<GatewayCall>, lines: seq<CartItem>, itemIds: seq<Guid>, n: nat)
    requires n < |lines| && n < |itemIds|
    ensures OrderLines(answer, log0, lines, itemIds, n + 1) ==
            OrderLines(answer, log0, lines, itemIds, n)
            + [OrderItem(itemIds[n], lines[n].productId, lines[n].quantity, lines[n].priceAtPurchase,
                         AsReceipt(PurchaseReply(answer, log0, lines, n).data))]
  {
  }

  lemma PurchaseCallsSnoc(lines: seq<CartItem>, i: nat)
    requires i < |lines|
    ensures PurchaseCalls(lines[..i + 1]) == PurchaseCalls(lines[..i]) + [Purchase(lines[i].productId, lines[i].quantity)]
  {
  }

  // ---------------------------------------------------------------------------

  class CartService {
    const carts: CartRepository
    const products: ProductService
    const orders: OrderServices.OrderService

    ghost predicate Valid()
      reads this, carts, orders, orders.repo
    {
      carts.Valid() && orders.Valid() && ProductsUnique(carts.cartItems)
    }

    constructor (carts: CartRepository, products: ProductService, orders: OrderServices.OrderService)
      requires carts.Valid() && orders.Valid() && ProductsUnique(carts.cartItems)
      ensures this.carts == carts && this.products == products && this.orders == orders
      ensures Valid()
    {
      this.carts := carts;
      this.products := products;
      this.orders := orders;
    }

    /** The store write of `AddItemToCartAsync`: raises the quantity of the
        product's first line, or inserts a new line; yields the failure
        message when the store reports no change. */
    method SaveAddedLine(cartId: Guid, lines: seq<CartItem>, productId: Guid, quantity: int, price: Price, newItemId: Guid)
      returns (failure: Option<string>)
      requires carts.Valid() && cartId in CartIds(carts.carts) && ProductsUnique(carts.cartItems)
      requires lines == ItemsOf(carts.cartItems, cartId)
      requires newItemId !in ItemIds(carts.cartItems)
      modifies carts
      ensures carts.Valid() && failure.None? && ProductsUnique(carts.cartItems)
      ensures carts.carts == old(carts.carts)
      ensures ItemsOf(carts.cartItems, cartId) == MergeLine(lines, cartId, productId, quantity, price, newItemId)
      ensures OtherCartsKept(old(carts.cartItems), carts.cartItems, cartId)
    {
      var k := IndexOfProduct(lines, productId);
      if k < |lines| {
        var updated := lines[k].(quantity := lines[k].quantity + quantity);
        ReplaceInCart(carts.cartItems, cartId, k, updated);
        MergeLineAt(lines, cartId, productId, quantity, price, newItemId, k, updated);
        assert lines[k] in carts.cartItems;
        var ok := carts.UpdateCartItem(updated);
        if !ok {
          return Some("Failed to update cart item. The item may have been modified.");
        }
      } else {
        var newItem := CartItem(newItemId, productId, quantity, price, cartId);
        MergeNewInCart(carts.cartItems, cartId, productId, quantity, price, newItemId);
        var ok := carts.AddCartItem(newItem);
        if !ok {
          return Some("Failed to add item to cart.");
        }
      }
      MergeLineUnique(lines, cartId, productId, quantity, price, newItemId);
      KeptUnique(old(carts.cartItems), carts.cartItems, cartId);
      failure := None;
    }

    /** `AddItemToCartAsync`, behind the controller's refusal of a quantity
        that is not positive. `newItemId` is the fresh id of a new line. */
    method AddItemToCart(cartId: Guid, productId: Guid, quantity: int, newItemId: Guid) returns (r: ServiceResult)
      requires Valid() && 0 < quantity
      requires newItemId !in ItemIds(carts.cartItems)
      modifies carts, products
      ensures Valid()
      ensures cartId !in CartIds(old(carts.carts)) ==>
                r == Fail("An error occurred while adding item to cart: " + NoCartMessage)
                && unchanged(carts, products)
      ensures cartId in CartIds(old(carts.carts)) ==>
                products.log == old(products.log) + [CheckAvailability(productId)]
      ensures cartId in CartIds(old(carts.carts)) ==>
                var reply := products.answer(old(products.log), CheckAvailability(productId));
                var info := AsAvailability(reply.data);
                && (!reply.success ==> r == reply && unchanged(carts))
                && (reply.success && (info.None? || !info.value.isAvailable) ==>
                      r == Fail("Product is not available.") && unchanged(carts))
                && (reply.success && info.Some? && info.value.isAvailable ==>
                      r == Ok("Item added to cart successfully.")
                      && carts.carts == old(carts.carts)
                      && ItemsOf(carts.cartItems, cartId) ==
                         MergeLine(ItemsOf(old(carts.cartItems), cartId), cartId, productId, quantity,
                                   info.value.currentPrice, newItemId)
                      && OtherCartsKept(old(carts.cartItems), carts.cartItems, cartId))
    {
      var found := carts.GetCartById(cartId);
      if found.Threw? {
        return Fail("An error occurred while adding item to cart: " + found.exception);
      }
      var cart := found.value;
      var availabilityResult := products.CheckProductAvailability(productId);
      if !availabilityResult.success {
        return availabilityResult;
      }
      var availability := AsAvailability(availabilityResult.data);
      if availability.None? || !availability.value.isAvailable {
        return Fail("Product is not available.");
      }
      var lines := ItemsOfCart(cart);
      var failure := SaveAddedLine(cartId, lines, productId, quantity, availability.value.currentPrice, newItemId);
      match failure
      case Some(message) => return Fail(message);
      case None =>
      r := Ok("Item added to cart successfully.");
    }

    /** The store write of `UpdateCartItemAsync`: deletes line `k` when
        `quantity` is zero and otherwise overwrites its quantity; reports
        whether the store changed. */
    method SaveQuantity(cartId: Guid, lines: seq<CartItem>, k: nat, quantity: int) returns (ok: bool)
      requires carts.Valid() && cartId in CartIds(carts.carts) && ProductsUnique(carts.cartItems)
      requires lines == ItemsOf(carts.cartItems, cartId) && k < |lines|
      modifies carts
      ensures carts.Valid() && ok && ProductsUnique(carts.cartItems)
      ensures carts.carts == old(carts.carts)
      ensures ItemsOf(carts.cartItems, cartId) == SetQuantity(lines, k, quantity)
      ensures OtherCartsKept(old(carts.cartItems), carts.cartItems, cartId)
    {
      var item := lines[k];
      if quantity == 0 {
        RemoveInCart(carts.cartItems, cartId, k);
        assert item in carts.cartItems;
        ok := carts.RemoveCartItem(item.id);
      } else {
        var updated := item.(quantity := quantity);
        ReplaceInCart(carts.cartItems, cartId, k, updated);
        ok := carts.UpdateCartItem(updated);
      }
      SetQuantityUnique(lines, k, quantity);
      KeptUnique(old(carts.cartItems), carts.cartItems, cartId);
    }

    /** `UpdateCartItemAsync`, behind the controller's refusal of a negative
        quantity: sets the first line of the product to `quantity`, and a
        quantity of zero deletes that line. */
    method UpdateCartItem(cartId: Guid, productId: Guid, quantity: int) returns (r: ServiceResult)
      requires Valid() && 0 <= quantity
      modifies carts
      ensures Valid()
      ensures cartId !in CartIds(old(carts.carts)) ==>
                r == Fail("An error occurred while updating cart item: " + NoCartMessage) && unchanged(carts)
      ensures cartId in CartIds(old(carts.carts)) ==>
                var lines := ItemsOf(old(carts.cartItems), cartId);
                var k := IndexOfProduct(lines, productId);
                && (k == |lines| ==> r == Fail("Item not found in cart.") && unchanged(carts))
                && (k < |lines| ==>
                      r == Ok("Cart item updated successfully.")
                      && carts.carts == old(carts.carts)
                      && ItemsOf(carts.cartItems, cartId) == SetQuantity(lines, k, quantity)
                      && OtherCartsKept(old(carts.cartItems), carts.cartItems, cartId))
    {
      var found := carts.GetCartById(cartId);
      if found.Threw? {
        return Fail("An error occurred while updating cart item: " + found.exception);
      }
      var lines := ItemsOfCart(found.value);
      var k := IndexOfProduct(lines, productId);
      if k == |lines| {
        return Fail("Item not found in cart.");
      }
      var updateSuccessful := SaveQuantity(cartId, lines, k, quantity);
      if !updateSuccessful {
        return Fail("Failed to update cart item.");
      }
      r := Ok("Cart item updated successfully.");
    }

    /** `RemoveItemFromCartAsync`: drops the first line of the product from
        the loaded cart and saves the cart, which deletes that line's row. */
    method RemoveItemFromCart(cartId: Guid, productId: Guid) returns (r: ServiceResult)
      requires Valid()
      modifies carts
      ensures Valid()
      ensures cartId !in CartIds(old(carts.carts)) ==>
                r == Fail("An error occurred while removing item from cart: " + NoCartMessage) && unchanged(carts)
      ensures cartId in CartIds(old(carts.carts)) ==>
                var lines := ItemsOf(old(carts.cartItems), cartId);
                var k := IndexOfProduct(lines, productId);
                && (k == |lines| ==> r == Fail("Item not found in cart.") && unchanged(carts))
                && (k < |lines| ==>
                      r == Ok("Item removed from cart successfully.")
                      && carts.carts == old(carts.carts)
                      && ItemsOf(carts.cartItems, cartId) == RemoveAt(lines, k)
                      && OtherCartsKept(old(carts.cartItems), carts.cartItems, cartId))
    {
      var found := carts.GetCartById(cartId);
      if found.Threw? {
        return Fail("An error occurred while removing item from cart: " + found.exception);
      }
      var cart := found.value;
      var lines := ItemsOfCart(cart);
      var k := IndexOfProduct(lines, productId);
      if k == |lines| {
        return Fail("Item not found in cart.");
      }
      var kept := cart.(items := Some(RemoveAt(lines, k)));
      RemoveReconciles(carts.cartItems, cartId, k);
      RemoveInCart(carts.cartItems, cartId, k);
      ReplaceCartRowPresent(carts.carts, CartRow(cartId, cart.createdAt));
      var updateSuccessful := carts.UpdateCart(kept);
      RemoveAtUnique(lines, k);
      KeptUnique(old(carts.cartItems), carts.cartItems, cartId);
      if !updateSuccessful {
        return Fail("Failed to update cart. The cart may have been modified.");
      }
      r := Ok("Item removed from cart successfully.");
    }

    /** `CheckoutCartAsync`. `orderId`, `orderItemIds` and `now` stand for the
        fresh ids and the clock. A missing cart escapes as an exception; an
        empty cart fails; otherwise every line is purchased in order until
        the first failure, which fails the checkout with no cancellation, no
        order and the cart kept. When every purchase succeeds, one "Pending"
        order is saved, the cart is deleted and the order is returned. */
    method CheckoutCart(cartId: Guid, orderId: Guid, orderItemIds: seq<Guid>, now: Time) returns (r: Outcome<ServiceResult>)
      requires Valid()
      requires orderId !in OrderRepositories.OrderIds(orders.repo.orders)
      requires |ItemsOf(carts.cartItems, cartId)| <= |orderItemIds|
      requires forall i, j :: 0 <= i < j < |orderItemIds| ==> orderItemIds[i] != orderItemIds[j]
      requires forall i :: 0 <= i < |orderItemIds| ==> orderItemIds[i] !in OrderRepositories.OrderItemIds(orders.repo.orders)
      modifies carts, products, orders.repo
      ensures Valid()
      ensures cartId !in CartIds(old(carts.carts)) ==>
                r == Threw(NoCartMessage) && unchanged(carts, products, orders.repo)
      ensures cartId in CartIds(old(carts.carts)) && ItemsOf(old(carts.cartItems), cartId) == [] ==>
                r == Returned(Fail("Cart not found or empty")) && unchanged(carts, products, orders.repo)
      ensures cartId in CartIds(old(carts.carts)) && ItemsOf(old(carts.cartItems), cartId) != [] ==>
                var lines := ItemsOf(old(carts.cartItems), cartId);
                var k := FirstFailure(products.answer, old(products.log), lines, 0);
                && (k < |lines| ==>
                      products.log == old(products.log) + PurchaseCalls(lines[..k + 1])
                      && r == Returned(Fail("Failed to purchase product " + lines[k].productId + ": "
                                            + PurchaseReply(products.answer, old(products.log), lines, k).message))
                      && unchanged(carts, orders.repo))
                && (k == |lines| ==>
                      var order := Order(orderId, now, "Pending",
                                         OrderLines(products.answer, old(products.log), lines, orderItemIds, |lines|));
                      products.log == old(products.log) + PurchaseCalls(lines)
                      && r == Returned(Ok("Oder is confiremd", OrderData(order)))
                      && orders.repo.orders == old(orders.repo.orders) + [order]
                      && carts.carts == WithoutCartRow(old(carts.carts), cartId)
                      && carts.cartItems == WithoutCartItems(old(carts.cartItems), cartId))
    {
      var found := carts.GetCartById(cartId);
      if found.Threw? {
        return Threw(found.exception);
      }
      var cart := found.value;
      if cart.items.None? || cart.items.value == [] {
        return Returned(Fail("Cart not found or empty"));
      }
      var lines := cart.items.value;
      var k, orderItems, failure := PurchaseLines(lines, orderItemIds);
      if k < |lines| {
        return Returned(Fail("Failed to purchase product " + lines[k].productId + ": " + failure.message));
      }
      var order := Order(orderId, now, "Pending", orderItems);
      OrderLinesInsertable(products.answer, old(products.log), lines, orderItemIds, orders.repo.orders, orderId, now);
      PlaceOrder(order, now);
      WithoutCartUnique(carts.cartItems, cartId);
      var deleted := carts.DeleteCart(cartId);
      r := Returned(Ok("Oder is confiremd", OrderData(order)));
    }

    /** The order save of `CheckoutCartAsync`: an order of fresh keys, stamped
        with the checkout time, is stored as it is. */
    method PlaceOrder(order: Order, now: Time)
      requires orders.Valid() && OrderRepositories.Insertable(orders.repo.orders, order) && order.createdAt == now
      modifies orders.repo
      ensures orders.Valid()
      ensures orders.repo.orders == old(orders.repo.orders) + [order]
    {
      var saved := orders.CreateOrder(order, now);
    }

    /** The purchase loop of `CheckoutCartAsync`: purchases the lines in
        order up to the first failure `k`, whose reply is `failure`, and
        builds the order items of the lines when all succeed. */
    method PurchaseLines(lines: seq<CartItem>, orderItemIds: seq<Guid>)
      returns (k: nat, orderItems: seq<OrderItem>, failure: ServiceResult)
      requires |lines| <= |orderItemIds|
      modifies products
      ensures k == FirstFailure(products.answer, old(products.log), lines, 0)
      ensures k < |lines| ==>
                products.log == old(products.log) + PurchaseCalls(lines[..k + 1])
                && failure == PurchaseReply(products.answer, old(products.log), lines, k)
      ensures k == |lines| ==>
                products.log == old(products.log) + PurchaseCalls(lines)
                && orderItems == OrderLines(products.answer, old(products.log), lines, orderItemIds, |lines|)
    {
      ghost var log0 := products.log;
      orderItems := [];
      var i := 0;
      while i < |lines|
        invariant 0 <= i <= |lines|
        invariant products.log == log0 + PurchaseCalls(lines[..i])
        invariant forall j :: 0 <= j < i ==> PurchaseReply(products.answer, log0, lines, j).success
        invariant orderItems == OrderLines(products.answer, log0, lines, orderItemIds, i)
      {
        var purchaseResult := products.PurchaseProduct(lines[i].productId, lines[i].quantity);
        assert purchaseResult == PurchaseReply(products.answer, log0, lines, i);
        PurchaseCallsSnoc(lines, i);
        if !purchaseResult.success {
          FirstFailureIsFirst(products.answer, log0, lines, i);
          return i, orderItems, purchaseResult;
        }
        var orderItem := OrderItem(orderItemIds[i], lines[i].productId, lines[i].quantity,
                                   lines[i].priceAtPurchase, AsReceipt(purchaseResult.data));
        OrderLinesSnoc(products.answer, log0, lines, orderItemIds, i);
        orderItems := orderItems + [orderItem];
        i := i + 1;
      }
      assert lines[..|lines|] == lines;
      k, failure := |lines|, Ok();
    }

    /** `RollbackPurchasesAsync`: cancels each given purchase in order. No
        operation calls it. */
    method RollbackPurchases(successfulItems: seq<OrderItem>)
      modifies products
      ensures products.log == old(products.log) + CancelCalls(successfulItems)
    {
      var i := 0;
      while i < |successfulItems|
        invariant 0 <= i <= |successfulItems|
        invariant products.log == old(products.log) + CancelCalls(successfulItems[..i])
      {
        var item := successfulItems[i];
        var _ := products.CancelPurchase(item.productId, item.quantity);
        assert CancelCalls(successfulItems[..i + 1]) == CancelCalls(successfulItems[..i]) + [GatewayCall.CancelPurchase(item.productId, item.quantity)];
        i := i + 1;
      }
      assert successfulItems[..i] == successfulItems;
    }

    /** `CreateCartAsync`: stores a new empty cart with the fresh id `newId`
        created at `now`, and returns its id. */
    method CreateCart(newId: Guid, now: Time) returns (id: Guid)
      requires Valid() && newId !in CartIds(carts.carts)
      modifies carts
      ensures Valid()
      ensures id == newId
      ensures carts.carts == old(carts.carts) + [CartRow(newId, now)]
      ensures carts.cartItems == old(carts.cartItems)
      ensures carts.GetCartById(id) == Returned(Cart(newId, now, Some([])))
    {
      var cart := Cart(newId, now, Some([]));
      assert carts.cartItems + [] == carts.cartItems;
      var created := carts.CreateCart(cart);
      assert ItemsOf(carts.cartItems, newId) == [];
      id := created.id;
    }

    /** `DeleteCartAsync`: success exactly when the cart existed; its items
        go with it. */
    method DeleteCart(cartId: Guid) returns (r: ServiceResult)
      requires Valid()
      modifies carts
      ensures Valid()
      ensures r.success <==> cartId in CartIds(old(carts.carts))
      ensures r.message == if r.success then "Cart deleted successfully." else "Failed to delete cart."
      ensures r.data == NoData
      ensures carts.carts == WithoutCartRow(old(carts.carts), cartId)
      ensures carts.cartItems == WithoutCartItems(old(carts.cartItems), cartId)
      ensures carts.GetCartById(cartId).Threw?
    {
      WithoutCartUnique(carts.cartItems, cartId);
      var deleted := carts.DeleteCart(cartId);
      r := ServiceResult(deleted, if deleted then "Cart deleted successfully." else "Failed to delete cart.", NoData);
    }

    /** `GetAllCartsAsync`: page `page` of the carts in store order. The
        store does not load items for the listing, so every cart shows an
        empty item list. */
    function GetAllCarts(page: int, pageSize: int): (r: seq<CartDto>)
      reads this, carts
      ensures pageSize <= 0 ==> r == []
      ensures 0 < pageSize ==> |r| <= pageSize
      ensures 0 < pageSize ==>
                |r| == Paging.Min(pageSize, Paging.Max(0, |carts.carts| - Paging.PageStart(page, pageSize)))
      ensures forall i :: 0 <= i < |r| ==>
                Paging.PageStart(page, pageSize) + i < |carts.carts|
                && r[i] == CartDto(carts.carts[Paging.PageStart(page, pageSize) + i].id,
                                   carts.carts[Paging.PageStart(page, pageSize) + i].createdAt, [])
    {
      var slice := Paging.Page(carts.GetAllCarts(), page, pageSize);
      seq(|slice|, i requires 0 <= i < |slice| => ToDto(slice[i]))
    }

    /** `GetCartAsync`: the cart's transfer object; a missing cart escapes as
        the store's exception. */
    function GetCart(cartId: Guid): (r: Outcome<CartDto>)
      reads this, carts
      ensures r.Threw? <==> cartId !in CartIds(carts.carts)
      ensures r.Threw? ==> r.exception == NoCartMessage
      ensures r.Returned? ==>
                var lines := ItemsOf(carts.cartItems, cartId);
                r.value.id == cartId && CartRow(cartId, r.value.createdAt) in carts.carts
                && |r.value.items| == |lines|
                && forall i :: 0 <= i < |lines| ==> r.value.items[i] == ToItemDto(lines[i])
    {
      match carts.GetCartById(cartId)
      case Threw(e) => Threw(e)
      case Returned(cart) => Returned(ToDto(cart))
    }
  }
}
