/** What the cart operations of OrderService/Services/CartService.cs do to the
    lines of one cart: find the line of a product, merge an added product,
    set or clear a line's quantity, and remove a line. */
module CartLines {
  import opened Models

  /** Index of the first line holding `productId`, or `|lines|` when none
      does (`FirstOrDefault` and `List.Find` both take the first match). */
  function IndexOfProduct(lines: seq<CartItem>, productId: Guid): (k: nat)
    ensures k <= |lines|
    ensures k < |lines| ==> lines[k].productId == productId
    ensures forall j :: 0 <= j < k ==> lines[j].productId != productId
  {
    if lines == [] then 0
    else if lines[0].productId == productId then 0
    else 1 + IndexOfProduct(lines[1..], productId)
  }

  /** No product appears on two lines. */
  ghost predicate UniqueProducts(lines: seq<CartItem>) {
    forall i, j :: 0 <= i < j < |lines| ==> lines[i].productId != lines[j].productId
  }

  /** The total quantity of `productId` over all lines. */
  function QuantityOf(lines: seq<CartItem>, productId: Guid): int {
    if lines == [] then 0
    else (if lines[0].productId == productId then lines[0].quantity else 0) + QuantityOf(lines[1..], productId)
  }

  /** The lines after adding `quantity` of `productId`: the first line of the
      product grows by `quantity`, or, when there is none, a new line with id
      `newId` and the price `price` is appended. */
  function MergeLine(lines: seq<CartItem>, cartId: Guid, productId: Guid, quantity: int, price: Price, newId: Guid): (r: seq<CartItem>)
    ensures |r| == |lines| <==> exists x :: x in lines && x.productId == productId
    ensures |r| == |lines| || |r| == |lines| + 1
    ensures exists x :: x in r && x.productId == productId
    ensures forall x :: x in r && x.productId != productId ==> x in lines
  {
    var k := IndexOfProduct(lines, productId);
    if k < |lines| then
      var r := lines[k := lines[k].(quantity := lines[k].quantity + quantity)];
      assert r[k] in r;
      r
    else
      var r := lines + [CartItem(newId, productId, quantity, price, cartId)];
      assert r[|lines|] in r;
      r
  }

  /** `List.Remove` of the line at `k`: the others stay, in order. */
  function RemoveAt(lines: seq<CartItem>, k: nat): (r: seq<CartItem>)
    requires k < |lines|
    ensures |r| == |lines| - 1
    ensures forall j :: 0 <= j < k ==> r[j] == lines[j]
    ensures forall j :: k <= j < |r| ==> r[j] == lines[j + 1]
  {
    lines[..k] + lines[k + 1..]
  }

  /** The lines after setting line `k` to `quantity`; zero removes the line. */
  function SetQuantity(lines: seq<CartItem>, k: nat, quantity: int): (r: seq<CartItem>)
    requires k < |lines|
    ensures quantity == 0 ==> |r| == |lines| - 1
                              && (forall j :: 0 <= j < k ==> r[j] == lines[j])
                              && (forall j :: k <= j < |r| ==> r[j] == lines[j + 1])
    ensures quantity != 0 ==> |r| == |lines| && r[k] == lines[k].(quantity := quantity)
                              && forall j :: 0 <= j < |lines| && j != k ==> r[j] == lines[j]
  {
    if quantity == 0 then RemoveAt(lines, k) else lines[k := lines[k].(quantity := quantity)]
  }

  // ---------------------------------------------------------------------------
  // Quantities

  lemma {:induction false} QuantityOfAppend(lines: seq<CartItem>, x: CartItem, p: Guid)
    ensures QuantityOf(lines + [x], p) == QuantityOf(lines, p) + (if x.productId == p then x.quantity else 0)
  {
    if lines == [] {
      assert lines + [x] == [x];
    } else {
      assert (lines + [x])[1..] == lines[1..] + [x];
      QuantityOfAppend(lines[1..], x, p);
    }
  }

  lemma {:induction false} QuantityOfUpdate(lines: seq<CartItem>, k: nat, x: CartItem, p: Guid)
    requires k < |lines|
    ensures QuantityOf(lines[k := x], p) ==
            QuantityOf(lines, p) - (if lines[k].productId == p then lines[k].quantity else 0)
                                 + (if x.productId == p then x.quantity else 0)
  {
    if k == 0 {
      assert lines[k := x][1..] == lines[1..];
    } else {
      assert lines[k := x][1..] == lines[1..][k - 1 := x];
      QuantityOfUpdate(lines[1..], k - 1, x, p);
    }
  }

  lemma {:induction false} QuantityOfRemoveAt(lines: seq<CartItem>, k: nat, p: Guid)
    requires k < |lines|
    ensures QuantityOf(RemoveAt(lines, k), p) ==
            QuantityOf(lines, p) - (if lines[k].productId == p then lines[k].quantity else 0)
  {
    if k == 0 {
      assert RemoveAt(lines, k) == lines[1..];
    } else {
      assert RemoveAt(lines, k) == [lines[0]] + RemoveAt(lines[1..], k - 1);
      QuantityOfRemoveAt(lines[1..], k - 1, p);
    }
  }

  lemma {:induction false} QuantityOfAbsent(lines: seq<CartItem>, p: Guid)
    requires forall j :: 0 <= j < |lines| ==> lines[j].productId != p
    ensures QuantityOf(lines, p) == 0
  {
    if lines != [] {
      QuantityOfAbsent(lines[1..], p);
    }
  }

  /** When products are unique, a product's quantity is that of its line. */
  lemma {:induction false} QuantityOfUnique(lines: seq<CartItem>, k: nat)
    requires UniqueProducts(lines) && k < |lines|
    ensures QuantityOf(lines, lines[k].productId) == lines[k].quantity
  {
    var p := lines[k].productId;
    if k == 0 {
      QuantityOfAbsent(lines[1..], p);
    } else {
      assert lines[0].productId != p;
      QuantityOfUnique(lines[1..], k - 1);
    }
  }

  // ---------------------------------------------------------------------------
  // Adding a product

  /** The two cases of `MergeLine`, as equations. */
  lemma MergeLineCases(lines: seq<CartItem>, cartId: Guid, productId: Guid, quantity: int, price: Price, newId: Guid)
    ensures var k := IndexOfProduct(lines, productId);
            MergeLine(lines, cartId, productId, quantity, price, newId) ==
            if k < |lines| then lines[k := lines[k].(quantity := lines[k].quantity + quantity)]
            else lines + [CartItem(newId, productId, quantity, price, cartId)]
  {
  }

  /** `MergeLine` when the product is on line `k`, as an equation. */
  lemma MergeLineAt(lines: seq<CartItem>, cartId: Guid, productId: Guid, quantity: int, price: Price, newId: Guid, k: nat, updated: CartItem)
    requires k == IndexOfProduct(lines, productId) && k < |lines|
    requires updated == lines[k].(quantity := lines[k].quantity + quantity)
    ensures MergeLine(lines, cartId, productId, quantity, price, newId) == lines[k := updated]
  {
  }

  /** Adding raises the product's total by exactly `quantity` and leaves
      every other product's total unchanged. */
  lemma MergeLineQuantity(lines: seq<CartItem>, cartId: Guid, productId: Guid, quantity: int, price: Price, newId: Guid, p: Guid)
    ensures QuantityOf(MergeLine(lines, cartId, productId, quantity, price, newId), p) ==
            QuantityOf(lines, p) + (if p == productId then quantity else 0)
  {
    var k := IndexOfProduct(lines, productId);
    if k < |lines| {
      QuantityOfUpdate(lines, k, lines[k].(quantity := lines[k].quantity + quantity), p);
    } else {
      QuantityOfAppend(lines, CartItem(newId, productId, quantity, price, cartId), p);
    }
  }

  /** Adding a product already in the cart changes only its first line's
      quantity: no line is added, and every other line stays. */
  lemma MergeLineExisting(lines: seq<CartItem>, cartId: Guid, productId: Guid, quantity: int, price: Price, newId: Guid)
    requires IndexOfProduct(lines, productId) < |lines|
    ensures var r := MergeLine(lines, cartId, productId, quantity, price, newId);
            var k := IndexOfProduct(lines, productId);
            |r| == |lines| && r[k].productId == productId && r[k].id == lines[k].id
            && r[k].quantity == lines[k].quantity + quantity && r[k].priceAtPurchase == lines[k].priceAtPurchase
            && forall j :: 0 <= j < |lines| && j != k ==> r[j] == lines[j]
  {
  }

  /** Adding a product not in the cart appends exactly one line: the product
      with quantity `quantity` at the checked price. */
  lemma MergeLineNew(lines: seq<CartItem>, cartId: Guid, productId: Guid, quantity: int, price: Price, newId: Guid)
    requires forall x :: x in lines ==> x.productId != productId
    ensures MergeLine(lines, cartId, productId, quantity, price, newId) ==
            lines + [CartItem(newId, productId, quantity, price, cartId)]
  {
  }

  /** Adding never puts a product on a second line. */
  lemma MergeLineUnique(lines: seq<CartItem>, cartId: Guid, productId: Guid, quantity: int, price: Price, newId: Guid)
    requires UniqueProducts(lines)
    ensures UniqueProducts(MergeLine(lines, cartId, productId, quantity, price, newId))
  {
  }

  // ---------------------------------------------------------------------------
  // Updating and removing a product

  /** Removing a line never puts a product on a second line. */
  lemma RemoveAtUnique(lines: seq<CartItem>, k: nat)
    requires UniqueProducts(lines) && k < |lines|
    ensures UniqueProducts(RemoveAt(lines, k))
  {
    var r := RemoveAt(lines, k);
    forall i, j | 0 <= i < j < |r|
      ensures r[i].productId != r[j].productId
    {
      var i' := if i < k then i else i + 1;
      var j' := if j < k then j else j + 1;
      assert r[i] == lines[i'] && r[j] == lines[j'];
    }
  }

  /** Updating a line's quantity never puts a product on a second line. */
  lemma SetQuantityUnique(lines: seq<CartItem>, k: nat, quantity: int)
    requires UniqueProducts(lines) && k < |lines|
    ensures UniqueProducts(SetQuantity(lines, k, quantity))
  {
    if quantity == 0 {
      RemoveAtUnique(lines, k);
    }
  }

  /** Setting a line to a quantity makes that the product's total when
      products are unique (zero when the line is removed), and leaves every
      other product's total unchanged. */
  lemma SetQuantityEffect(lines: seq<CartItem>, productId: Guid, quantity: int, p: Guid)
    requires UniqueProducts(lines) && IndexOfProduct(lines, productId) < |lines|
    ensures QuantityOf(SetQuantity(lines, IndexOfProduct(lines, productId), quantity), p) ==
            if p == productId then quantity else QuantityOf(lines, p)
  {
    var k := IndexOfProduct(lines, productId);
    QuantityOfUnique(lines, k);
    if quantity == 0 {
      QuantityOfRemoveAt(lines, k, p);
    } else {
      QuantityOfUpdate(lines, k, lines[k].(quantity := quantity), p);
    }
  }

  /** Removing the first line of a product takes that line's quantity off
      the product's total and leaves every other product's total unchanged. */
  lemma RemoveFirstEffect(lines: seq<CartItem>, productId: Guid, p: Guid)
    requires IndexOfProduct(lines, productId) < |lines|
    ensures var k := IndexOfProduct(lines, productId);
            QuantityOf(RemoveAt(lines, k), p) ==
            QuantityOf(lines, p) - (if p == productId then lines[k].quantity else 0)
  {
    QuantityOfRemoveAt(lines, IndexOfProduct(lines, productId), p);
  }
}
