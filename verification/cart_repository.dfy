/** The cart store (Persistance/Repository/CartRepository.cs) over two tables:
    `Carts` and `CartItems`. A table is the sequence of its rows in stored
    order; each item row carries the id of the one cart it belongs to, and the
    foreign key deletes a cart's items with the cart
    (Migrations/20250530053316_cascade_for_items_2.cs). */
module CartRepositories {
  import opened Models

  /** The message of the exception a lookup of a missing cart throws. */
  const NoCartMessage := "No cart for such id"

  /** A row of the `Carts` table. */
  datatype CartRow = CartRow(id: Guid, createdAt: Time)

  function CartIds(rows: seq<CartRow>): set<Guid> {
    set r | r in rows :: r.id
  }

  function ItemIds(items: seq<CartItem>): set<Guid> {
    set x | x in items :: x.id
  }

  /** No two cart rows share an id (the primary key). */
  ghost predicate DistinctCartIds(rows: seq<CartRow>)
    decreases |rows|
  {
    rows == [] || (rows[0].id !in CartIds(rows[1..]) && DistinctCartIds(rows[1..]))
  }

  /** No two item rows share an id (the primary key). */
  ghost predicate DistinctItemIds(items: seq<CartItem>)
    decreases |items|
  {
    items == [] || (items[0].id !in ItemIds(items[1..]) && DistinctItemIds(items[1..]))
  }

  /** The items a cart value brings with it; none when they were not loaded. */
  function ItemsOfCart(cart: Cart): seq<CartItem> {
    if cart.items.Some? then cart.items.value else []
  }

  /** `Carts.FirstOrDefault(c => c.Id == id)` */
  function FindCartRow(rows: seq<CartRow>, id: Guid): (r: Option<CartRow>)
    ensures r.Some? <==> id in CartIds(rows)
    ensures r.Some? ==> r.value in rows && r.value.id == id
  {
    if rows == [] then None
    else if rows[0].id == id then Some(rows[0])
    else
      assert forall x :: x in rows && x != rows[0] ==> x in rows[1..];
      FindCartRow(rows[1..], id)
  }

  /** `CartItems.Find(id)` */
  function FindItem(items: seq<CartItem>, id: Guid): (r: Option<CartItem>)
    ensures r.Some? <==> id in ItemIds(items)
    ensures r.Some? ==> r.value in items && r.value.id == id
  {
    if items == [] then None
    else if items[0].id == id then Some(items[0])
    else
      assert forall x :: x in items && x != items[0] ==> x in items[1..];
      FindItem(items[1..], id)
  }

  /** The item rows of one cart, in table order (`Include(c => c.Items)`). */
  function ItemsOf(items: seq<CartItem>, cartId: Guid): (r: seq<CartItem>)
    ensures forall x :: x in r <==> x in items && x.cartId == cartId
    ensures ItemIds(r) <= ItemIds(items)
    ensures DistinctItemIds(items) ==> DistinctItemIds(r)
  {
    if items == [] then []
    else
      assert forall x :: x in items <==> x == items[0] || x in items[1..];
      if items[0].cartId == cartId then [items[0]] + ItemsOf(items[1..], cartId)
      else ItemsOf(items[1..], cartId)
  }

  /** The `Carts` table without the row `id`. */
  function WithoutCartRow(rows: seq<CartRow>, id: Guid): (r: seq<CartRow>)
    ensures forall x :: x in r <==> x in rows && x.id != id
    ensures CartIds(r) == CartIds(rows) - {id}
    ensures DistinctCartIds(rows) ==> DistinctCartIds(r)
    ensures id !in CartIds(rows) ==> r == rows
  {
    if rows == [] then []
    else
      assert forall x :: x in rows <==> x == rows[0] || x in rows[1..];
      var rest := WithoutCartRow(rows[1..], id);
      if rows[0].id == id then rest
      else [rows[0]] + rest
  }

  /** The `CartItems` table without the rows of cart `cartId`: the cascade. */
  function WithoutCartItems(items: seq<CartItem>, cartId: Guid): (r: seq<CartItem>)
    ensures forall x :: x in r <==> x in items && x.cartId != cartId
    ensures ItemIds(r) <= ItemIds(items)
    ensures DistinctItemIds(items) ==> DistinctItemIds(r)
  {
    if items == [] then []
    else
      assert forall x :: x in items <==> x == items[0] || x in items[1..];
      if items[0].cartId == cartId then WithoutCartItems(items[1..], cartId)
      else [items[0]] + WithoutCartItems(items[1..], cartId)
  }

  /** A sequence of items without the item `itemId`. */
  function WithoutItem(items: seq<CartItem>, itemId: Guid): (r: seq<CartItem>)
    ensures forall x :: x in r <==> x in items && x.id != itemId
    ensures ItemIds(r) == ItemIds(items) - {itemId}
    ensures DistinctItemIds(items) ==> DistinctItemIds(r)
    ensures itemId !in ItemIds(items) ==> r == items
    ensures DistinctItemIds(items) && itemId in ItemIds(items) ==> |r| == |items| - 1
  {
    if items == [] then []
    else
      assert forall x :: x in items <==> x == items[0] || x in items[1..];
      if items[0].id == itemId then WithoutItem(items[1..], itemId)
      else [items[0]] + WithoutItem(items[1..], itemId)
  }

  /** A sequence of items with the item whose id is `x.id` replaced by `x`. */
  function ReplaceItem(items: seq<CartItem>, x: CartItem): (r: seq<CartItem>)
    ensures |r| == |items|
    ensures forall i :: 0 <= i < |items| ==> r[i] == if items[i].id == x.id then x else items[i]
    ensures ItemIds(r) == ItemIds(items)
    ensures DistinctItemIds(items) ==> DistinctItemIds(r)
  {
    if items == [] then []
    else
      assert forall y :: y in items <==> y == items[0] || y in items[1..];
      [if items[0].id == x.id then x else items[0]] + ReplaceItem(items[1..], x)
  }

  /** The `Carts` table with the row of `row.id` replaced by `row`. */
  function ReplaceCartRow(rows: seq<CartRow>, row: CartRow): (r: seq<CartRow>)
    ensures |r| == |rows|
    ensures forall i :: 0 <= i < |rows| ==> r[i] == if rows[i].id == row.id then row else rows[i]
    ensures CartIds(r) == CartIds(rows)
    ensures DistinctCartIds(rows) ==> DistinctCartIds(r)
  {
    if rows == [] then []
    else
      assert forall y :: y in rows <==> y == rows[0] || y in rows[1..];
      [if rows[0].id == row.id then row else rows[0]] + ReplaceCartRow(rows[1..], row)
  }

  /** What saving an updated cart graph does to the `CartItems` table: the
      cart's rows that are still in `keep` take the value they have there, the
      cart's rows that are no longer in `keep` are deleted as orphans, and the
      rows of other carts stay. */
  function Reconcile(items: seq<CartItem>, cartId: Guid, keep: seq<CartItem>): (r: seq<CartItem>)
    ensures forall y :: y in r ==> (y in items && y.cartId != cartId) || (y in keep && y.id in ItemIds(items))
    ensures forall y :: y in items && y.cartId != cartId ==> y in r
    ensures forall y :: y in items && y.cartId == cartId && FindItem(keep, y.id).Some? ==> FindItem(keep, y.id).value in r
    ensures ItemIds(r) <= ItemIds(items)
    ensures DistinctItemIds(items) ==> DistinctItemIds(r)
  {
    if items == [] then []
    else
      assert forall y :: y in items <==> y == items[0] || y in items[1..];
      var rest := Reconcile(items[1..], cartId, keep);
      if items[0].cartId != cartId then [items[0]] + rest
      else
        match FindItem(keep, items[0].id)
        case None => rest
        case Some(x) => [x] + rest
  }

  // ---------------------------------------------------------------------------
  // Facts about item ids

  /** Two items of a sequence with distinct ids and the same id are the same item. */
  lemma {:induction false} DistinctSameId(items: seq<CartItem>, x: CartItem, y: CartItem)
    requires DistinctItemIds(items) && x in items && y in items && x.id == y.id
    ensures x == y
  {
    assert forall z :: z in items <==> z == items[0] || z in items[1..];
    if x != items[0] && y != items[0] {
      DistinctSameId(items[1..], x, y);
    }
  }

  /** Distinct ids hold pairwise. */
  lemma {:induction false} DistinctAt(items: seq<CartItem>, i: int, j: int)
    requires DistinctItemIds(items) && 0 <= i < |items| && 0 <= j < |items| && i != j
    ensures items[i].id != items[j].id
  {
    if items[i].id == items[j].id {
      DistinctSameIndex(items, i, j);
    }
  }

  lemma {:induction false} DistinctSameIndex(items: seq<CartItem>, i: int, j: int)
    requires DistinctItemIds(items) && 0 <= i < |items| && 0 <= j < |items|
    requires items[i].id == items[j].id
    ensures i == j
  {
    if i != 0 && j != 0 {
      DistinctSameIndex(items[1..], i - 1, j - 1);
    }
  }

  /** With distinct ids, replacing by the id of the item at `k` replaces
      exactly that position. */
  lemma ReplaceItemAt(items: seq<CartItem>, k: int, x: CartItem)
    requires DistinctItemIds(items) && 0 <= k < |items| && x.id == items[k].id
    ensures ReplaceItem(items, x) == items[k := x]
  {
    forall j | 0 <= j < |items| && j != k
      ensures items[j].id != x.id
    {
      DistinctAt(items, j, k);
    }
  }

  /** Replacing by an id no item has changes nothing. */
  lemma ReplaceItemAbsent(items: seq<CartItem>, x: CartItem)
    requires x.id !in ItemIds(items)
    ensures ReplaceItem(items, x) == items
  {
    assert forall j :: 0 <= j < |items| ==> items[j] in items;
  }

  /** An item id names an item of one cart only. */
  lemma ItemOfOneCart(items: seq<CartItem>, x: CartItem, other: Guid)
    requires DistinctItemIds(items) && x in items && x.cartId != other
    ensures x.id !in ItemIds(ItemsOf(items, other))
  {
    if x.id in ItemIds(ItemsOf(items, other)) {
      var y :| y in ItemsOf(items, other) && y.id == x.id;
      DistinctSameId(items, x, y);
    }
  }

  /** Two cart rows of a table with distinct ids and the same id are the same row. */
  lemma {:induction false} DistinctCartSameId(rows: seq<CartRow>, x: CartRow, y: CartRow)
    requires DistinctCartIds(rows) && x in rows && y in rows && x.id == y.id
    ensures x == y
  {
    assert forall z :: z in rows <==> z == rows[0] || z in rows[1..];
    if x != rows[0] && y != rows[0] {
      DistinctCartSameId(rows[1..], x, y);
    }
  }

  /** Saving a cart row unchanged leaves the table as it was. */
  lemma ReplaceCartRowPresent(rows: seq<CartRow>, row: CartRow)
    requires DistinctCartIds(rows) && row in rows
    ensures ReplaceCartRow(rows, row) == rows
  {
    forall i | 0 <= i < |rows| && rows[i].id == row.id
      ensures rows[i] == row
    {
      DistinctCartSameId(rows, rows[i], row);
    }
  }

  /** Appending a row with a fresh id keeps cart ids distinct. */
  lemma {:induction false} DistinctCartAppend(rows: seq<CartRow>, row: CartRow)
    requires DistinctCartIds(rows) && row.id !in CartIds(rows)
    ensures DistinctCartIds(rows + [row])
  {
    if rows != [] {
      assert (rows + [row])[1..] == rows[1..] + [row];
      assert forall z :: z in rows <==> z == rows[0] || z in rows[1..];
      DistinctCartAppend(rows[1..], row);
    } else {
      assert rows + [row] == [row];
    }
  }

  /** Appending items with fresh ids keeps ids distinct. */
  lemma {:induction false} DistinctAppend(items: seq<CartItem>, extra: seq<CartItem>)
    requires DistinctItemIds(items) && DistinctItemIds(extra)
    requires ItemIds(items) !! ItemIds(extra)
    ensures DistinctItemIds(items + extra)
  {
    if items != [] {
      assert (items + extra)[1..] == items[1..] + extra;
      assert forall z :: z in items <==> z == items[0] || z in items[1..];
      DistinctAppend(items[1..], extra);
    } else {
      assert items + extra == extra;
    }
  }

  /** On the item of a sequence with distinct ids, lookup by id finds that item. */
  lemma {:induction false} FindItemDistinct(items: seq<CartItem>, x: CartItem)
    requires DistinctItemIds(items) && x in items
    ensures FindItem(items, x.id) == Some(x)
  {
    var r := FindItem(items, x.id);
    DistinctSameId(items, r.value, x);
  }

  lemma SplitAtHead<T>(s: seq<T>, k: int)
    requires 0 < k < |s|
    ensures s[..k] + s[k + 1..] == [s[0]] + (s[1..][..k - 1] + s[1..][k..])
  {
    assert s[..k] == [s[0]] + s[1..][..k - 1];
    assert s[k + 1..] == s[1..][k..];
  }

  /** `List.Remove` of the item at index `k` removes the item with that id,
      when ids are distinct. */
  lemma {:induction false} RemoveAtIsWithoutItem(items: seq<CartItem>, k: int)
    requires DistinctItemIds(items) && 0 <= k < |items|
    ensures items[..k] + items[k + 1..] == WithoutItem(items, items[k].id)
  {
    var id := items[k].id;
    if k == 0 {
      assert WithoutItem(items, id) == items[1..] by {
        assert id !in ItemIds(items[1..]);
      }
      assert items[..k] + items[k + 1..] == items[1..];
    } else {
      var tail := items[1..];
      assert tail[k - 1] == items[k];
      assert items[0].id != id by {
        DistinctAt(items, 0, k);
      }
      RemoveAtIsWithoutItem(tail, k - 1);
      calc {
        items[..k] + items[k + 1..];
        == { SplitAtHead(items, k); }
        [items[0]] + (tail[..k - 1] + tail[k..]);
        ==
        [items[0]] + WithoutItem(tail, id);
        ==
        WithoutItem(items, id);
      }
    }
  }

  // ---------------------------------------------------------------------------
  // What each table change does to one cart's items

  /** Inserting a row adds it at the end of its own cart and nowhere else. */
  lemma {:induction false} ItemsOfAppend(items: seq<CartItem>, x: CartItem, cartId: Guid)
    ensures ItemsOf(items + [x], cartId) == ItemsOf(items, cartId) + (if x.cartId == cartId then [x] else [])
  {
    if items == [] {
      assert items + [x] == [x];
    } else {
      assert (items + [x])[1..] == items[1..] + [x];
      ItemsOfAppend(items[1..], x, cartId);
    }
  }

  /** Replacing a row by id replaces it inside its own cart and nowhere else. */
  lemma {:induction false} ItemsOfReplace(items: seq<CartItem>, x: CartItem, cartId: Guid)
    requires forall y :: y in items && y.id == x.id ==> y.cartId == x.cartId
    ensures ItemsOf(ReplaceItem(items, x), cartId) == ReplaceItem(ItemsOf(items, cartId), x)
  {
    if items != [] {
      assert forall y :: y in items[1..] ==> y in items;
      ItemsOfReplace(items[1..], x, cartId);
    }
  }

  /** Deleting a row by id deletes it from its cart's items and nowhere else. */
  lemma {:induction false} ItemsOfWithoutItem(items: seq<CartItem>, itemId: Guid, cartId: Guid)
    ensures ItemsOf(WithoutItem(items, itemId), cartId) == WithoutItem(ItemsOf(items, cartId), itemId)
  {
    if items != [] {
      ItemsOfWithoutItem(items[1..], itemId, cartId);
    }
  }

  /** The cascade empties the deleted cart and leaves every other cart's items. */
  lemma {:induction false} ItemsOfWithoutCart(items: seq<CartItem>, cartId: Guid, other: Guid)
    ensures ItemsOf(WithoutCartItems(items, cartId), other) ==
            if other == cartId then [] else ItemsOf(items, other)
  {
    if items != [] {
      ItemsOfWithoutCart(items[1..], cartId, other);
    }
  }

  /** Saving a cart whose item list lost exactly the item `itemId` deletes
      exactly that row. */
  lemma {:induction false} ReconcileRemoves(items: seq<CartItem>, cartId: Guid, keep: seq<CartItem>, itemId: Guid)
    requires forall y :: y in items && y.id == itemId ==> y.cartId == cartId
    requires forall y :: y in items && y.cartId == cartId ==>
               FindItem(keep, y.id) == if y.id == itemId then None else Some(y)
    ensures Reconcile(items, cartId, keep) == WithoutItem(items, itemId)
  {
    if items != [] {
      assert forall y :: y in items[1..] ==> y in items;
      ReconcileRemoves(items[1..], cartId, keep, itemId);
    }
  }

  // ---------------------------------------------------------------------------

  class CartRepository {
    /** The `Carts` table. */
    var carts: seq<CartRow>
    /** The `CartItems` table. */
    var cartItems: seq<CartItem>

    /** Primary keys are unique and every item's cart exists (the foreign key). */
    ghost predicate Valid()
      reads this
    {
      && DistinctCartIds(carts)
      && DistinctItemIds(cartItems)
      && forall x :: x in cartItems ==> x.cartId in CartIds(carts)
    }

    constructor ()
      ensures Valid() && carts == [] && cartItems == []
    {
      carts := [];
      cartItems := [];
    }

    /** `CreateCartAsync`: inserts the cart with the items it carries and
        returns the same cart. */
    method CreateCart(cart: Cart) returns (created: Cart)
      requires Valid()
      requires cart.id !in CartIds(carts)
      requires forall x :: x in ItemsOfCart(cart) ==> x.cartId == cart.id
      requires DistinctItemIds(ItemsOfCart(cart)) && ItemIds(ItemsOfCart(cart)) !! ItemIds(cartItems)
      modifies this
      ensures Valid()
      ensures created == cart
      ensures carts == old(carts) + [CartRow(cart.id, cart.createdAt)]
      ensures cartItems == old(cartItems) + ItemsOfCart(cart)
    {
      DistinctAppend(cartItems, ItemsOfCart(cart));
      DistinctCartAppend(carts, CartRow(cart.id, cart.createdAt));
      carts := carts + [CartRow(cart.id, cart.createdAt)];
      cartItems := cartItems + ItemsOfCart(cart);
      created := cart;
    }

    /** `GetCartByIdAsync`: the cart with its items, or the exception
        "No cart for such id"; it never yields null. */
    function GetCartById(cartId: Guid): (r: Outcome<Cart>)
      reads this
      ensures r.Returned? <==> cartId in CartIds(carts)
      ensures r.Threw? ==> r.exception == NoCartMessage
      ensures r.Returned? ==> r.value.id == cartId && CartRow(cartId, r.value.createdAt) in carts
      ensures r.Returned? ==> r.value.items == Some(ItemsOf(cartItems, cartId))
    {
      match FindCartRow(carts, cartId)
      case None => Threw(NoCartMessage)
      case Some(row) => Returned(Cart(row.id, row.createdAt, Some(ItemsOf(cartItems, cartId))))
    }

    /** `AddCartItemAsync`: inserts the item under its cart. */
    method AddCartItem(item: CartItem) returns (ok: bool)
      requires Valid()
      requires item.cartId in CartIds(carts) && item.id !in ItemIds(cartItems)
      modifies this
      ensures Valid() && ok
      ensures carts == old(carts) && cartItems == old(cartItems) + [item]
    {
      DistinctAppend(cartItems, [item]);
      cartItems := cartItems + [item];
      ok := true;
    }

    /** `UpdateCartItemAsync`: overwrites the stored item that has the same id. */
    method UpdateCartItem(item: CartItem) returns (ok: bool)
      requires Valid()
      requires item.id in ItemIds(cartItems) && item.cartId in CartIds(carts)
      modifies this
      ensures Valid() && ok
      ensures carts == old(carts) && cartItems == ReplaceItem(old(cartItems), item)
    {
      cartItems := ReplaceItem(cartItems, item);
      ok := true;
    }

    /** `RemoveCartItemAsync`: false and no change when no item has that id,
        otherwise deletes that item. */
    method RemoveCartItem(itemId: Guid) returns (ok: bool)
      requires Valid()
      modifies this
      ensures Valid()
      ensures ok <==> itemId in ItemIds(old(cartItems))
      ensures carts == old(carts)
      ensures !ok ==> cartItems == old(cartItems)
      ensures ok ==> cartItems == WithoutItem(old(cartItems), itemId)
    {
      var found := FindItem(cartItems, itemId);
      if found.None? {
        return false;
      }
      cartItems := WithoutItem(cartItems, itemId);
      ok := true;
    }

    /** `UpdateCartAsync`: saves the cart row and its item collection; items
        missing from the collection are deleted as orphans. */
    method UpdateCart(cart: Cart) returns (ok: bool)
      requires Valid()
      requires cart.id in CartIds(carts)
      requires forall x :: x in ItemsOfCart(cart) ==>
                 x.cartId == cart.id && x.id in ItemIds(ItemsOf(cartItems, cart.id))
      modifies this
      ensures Valid() && ok
      ensures carts == ReplaceCartRow(old(carts), CartRow(cart.id, cart.createdAt))
      ensures cart.items.None? ==> cartItems == old(cartItems)
      ensures cart.items.Some? ==> cartItems == Reconcile(old(cartItems), cart.id, cart.items.value)
    {
      var row := CartRow(cart.id, cart.createdAt);
      carts := ReplaceCartRow(carts, row);
      if cart.items.Some? {
        cartItems := Reconcile(cartItems, cart.id, cart.items.value);
      }
      ok := true;
    }

    /** `GetAllCartsAsync`: every cart in table order, without its items. */
    function GetAllCarts(): (r: seq<Cart>)
      reads this
      ensures |r| == |carts|
      ensures forall i :: 0 <= i < |r| ==>
                r[i].id == carts[i].id && r[i].createdAt == carts[i].createdAt && r[i].items.None?
    {
      var rows := carts;
      seq(|rows|, i requires 0 <= i < |rows| => Cart(rows[i].id, rows[i].createdAt, None))
    }

    /** `DeleteCartAsync`: true iff the cart existed; deletes it and, by
        cascade, its items. */
    method DeleteCart(cartId: Guid) returns (ok: bool)
      requires Valid()
      modifies this
      ensures Valid()
      ensures ok <==> cartId in CartIds(old(carts))
      ensures carts == WithoutCartRow(old(carts), cartId)
      ensures cartItems == WithoutCartItems(old(cartItems), cartId)
    {
      ok := cartId in CartIds(carts);
      carts := WithoutCartRow(carts, cartId);
      cartItems := WithoutCartItems(cartItems, cartId);
    }
  }
}
