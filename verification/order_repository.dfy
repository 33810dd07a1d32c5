/** The order store (Persistance/Repository/OrderRepository.cs). The `Orders`
    table is the sequence of its orders in stored order; an order owns its
    items, so deleting it deletes them (AppDbContext.cs, cascade on OrderId). */
module OrderRepositories {
  import opened Models
  import opened Paging

  function OrderIds(orders: seq<Order>): set<Guid> {
    set o | o in orders :: o.id
  }

  /** No two orders share an id (the primary key). */
  ghost predicate DistinctOrderIds(orders: seq<Order>)
    decreases |orders|
  {
    orders == [] || (orders[0].id !in OrderIds(orders[1..]) && DistinctOrderIds(orders[1..]))
  }

  /** `Orders.FirstOrDefault(o => o.Id == id)` */
  function FindOrder(orders: seq<Order>, id: Guid): (r: Option<Order>)
    ensures r.Some? <==> id in OrderIds(orders)
    ensures r.Some? ==> r.value in orders && r.value.id == id
  {
    if orders == [] then None
    else if orders[0].id == id then Some(orders[0])
    else
      assert forall x :: x in orders && x != orders[0] ==> x in orders[1..];
      FindOrder(orders[1..], id)
  }

  /** The table with the order of id `order.id` replaced by `order`. */
  function ReplaceOrder(orders: seq<Order>, order: Order): (r: seq<Order>)
    ensures |r| == |orders|
    ensures forall i :: 0 <= i < |orders| ==> r[i] == if orders[i].id == order.id then order else orders[i]
    ensures OrderIds(r) == OrderIds(orders)
    ensures DistinctOrderIds(orders) ==> DistinctOrderIds(r)
  {
    if orders == [] then []
    else
      assert forall y :: y in orders <==> y == orders[0] || y in orders[1..];
      [if orders[0].id == order.id then order else orders[0]] + ReplaceOrder(orders[1..], order)
  }

  /** The table without the order `id` (and so without its items). */
  function WithoutOrder(orders: seq<Order>, id: Guid): (r: seq<Order>)
    ensures forall x :: x in r <==> x in orders && x.id != id
    ensures OrderIds(r) == OrderIds(orders) - {id}
    ensures DistinctOrderIds(orders) ==> DistinctOrderIds(r)
    ensures id !in OrderIds(orders) ==> r == orders
  {
    if orders == [] then []
    else
      assert forall x :: x in orders <==> x == orders[0] || x in orders[1..];
      if orders[0].id == id then WithoutOrder(orders[1..], id)
      else [orders[0]] + WithoutOrder(orders[1..], id)
  }

  /** The message of the exception a save that breaks a key throws
      (Entity Framework Core's `DbUpdateException`). */
  const SaveFailedMessage := "An error occurred while saving the entity changes. See the inner exception for details."

  /** The message of the exception `Orders.Add` throws when two items of the
      added order share a key (Entity Framework Core's identity conflict,
      raised by the change tracker before anything is saved). */
  const TrackingConflictMessage := "The instance of entity type 'OrderItem' cannot be tracked because another instance with the same key value for {'Id'} is already being tracked. When attaching existing entities, ensure that only one entity instance with a given key value is attached. Consider using 'DbContextOptionsBuilder.EnableSensitiveDataLogging' to see the conflicting key values."

  /** The message of SQL Server's refusal of a negative `OFFSET`. */
  const NegativeOffsetMessage := "The offset specified in a OFFSET clause may not be negative."

  /** The message of SQL Server's refusal of a `FETCH` of no rows or fewer. */
  const FetchRowsMessage := "The number of rows provided for a FETCH clause must be greater then zero."

  /** The row offset the order listing sends to the database, unclamped. */
  function Offset(page: int, pageSize: int): int {
    (page - 1) * pageSize
  }

  /** The ids of the items of every order in the table. */
  function OrderItemIds(orders: seq<Order>): set<Guid> {
    set o, x | o in orders && x in o.items :: x.id
  }

  /** No two items of an order share an id. */
  predicate DistinctLineIds(items: seq<OrderItem>) {
    forall i, j :: 0 <= i < j < |items| ==> items[i].id != items[j].id
  }

  /** Whether the order can be inserted without breaking a primary key: its
      id and its items' ids are new and its items' ids are distinct. */
  predicate Insertable(orders: seq<Order>, order: Order) {
    && order.id !in OrderIds(orders)
    && DistinctLineIds(order.items)
    && forall x :: x in order.items ==> x.id !in OrderItemIds(orders)
  }

  /** Appending an order with a fresh id keeps ids distinct. */
  lemma {:induction false} DistinctOrderAppend(orders: seq<Order>, order: Order)
    requires DistinctOrderIds(orders) && order.id !in OrderIds(orders)
    ensures DistinctOrderIds(orders + [order])
  {
    if orders != [] {
      assert (orders + [order])[1..] == orders[1..] + [order];
      assert forall z :: z in orders <==> z == orders[0] || z in orders[1..];
      DistinctOrderAppend(orders[1..], order);
    } else {
      assert orders + [order] == [order];
    }
  }

  /** A lookup after an append finds the appended order by its fresh id and
      every other order where it was. */
  lemma {:induction false} FindAfterAppend(orders: seq<Order>, order: Order, id: Guid)
    requires order.id !in OrderIds(orders)
    ensures FindOrder(orders + [order], id) == if id == order.id then Some(order) else FindOrder(orders, id)
  {
    if orders == [] {
      assert orders + [order] == [order];
    } else {
      assert (orders + [order])[1..] == orders[1..] + [order];
      assert forall z :: z in orders <==> z == orders[0] || z in orders[1..];
      FindAfterAppend(orders[1..], order, id);
    }
  }

  /** A lookup after a replacement finds the new order by its id and every
      other order unchanged. */
  lemma {:induction false} FindAfterReplace(orders: seq<Order>, order: Order, id: Guid)
    ensures id != order.id ==> FindOrder(ReplaceOrder(orders, order), id) == FindOrder(orders, id)
    ensures order.id in OrderIds(orders) ==> FindOrder(ReplaceOrder(orders, order), order.id) == Some(order)
  {
    if orders != [] {
      var r := ReplaceOrder(orders, order);
      assert r == [r[0]] + ReplaceOrder(orders[1..], order);
      assert forall z :: z in orders <==> z == orders[0] || z in orders[1..];
      FindAfterReplace(orders[1..], order, id);
    }
  }

  // ---------------------------------------------------------------------------
  // OrderByDescending(o => o.createdAt)

  /** Newest first: creation times never increase along the sequence. */
  ghost predicate NewestFirst(s: seq<Order>) {
    forall i, j :: 0 <= i < j < |s| ==> s[i].createdAt >= s[j].createdAt
  }

  /** Inserts `o` into a newest-first sequence before every order that is not
      newer than it, so that `o` keeps its place ahead of equal timestamps. */
  function InsertNewestFirst(o: Order, s: seq<Order>): (r: seq<Order>)
    requires NewestFirst(s)
    ensures NewestFirst(r)
    ensures multiset(r) == multiset(s) + multiset{o}
    ensures forall x :: x in r <==> x == o || x in s
  {
    if s == [] then [o]
    else
      HeadIsNewest(s);
      if s[0].createdAt <= o.createdAt then
        ConsNewestFirst(o, s);
        [o] + s
      else
        var rest := InsertNewestFirst(o, s[1..]);
        InsertBehindHead(o, s, rest);
        [s[0]] + rest
  }

  /** Putting the head back in front of the insertion into the tail gives the
      insertion into the whole sequence. */
  lemma InsertBehindHead(o: Order, s: seq<Order>, rest: seq<Order>)
    requires NewestFirst(s) && s != [] && o.createdAt < s[0].createdAt
    requires forall x :: x in s ==> x.createdAt <= s[0].createdAt
    requires NewestFirst(rest)
    requires multiset(rest) == multiset(s[1..]) + multiset{o}
    requires forall x :: x in rest <==> x == o || x in s[1..]
    ensures NewestFirst([s[0]] + rest)
    ensures multiset([s[0]] + rest) == multiset(s) + multiset{o}
    ensures forall x :: x in [s[0]] + rest <==> x == o || x in s
  {
    assert s == [s[0]] + s[1..];
    ConsNewestFirst(s[0], rest);
  }

  /** The first order of a newest-first sequence is no older than any. */
  lemma HeadIsNewest(s: seq<Order>)
    requires NewestFirst(s) && s != []
    ensures forall x :: x in s ==> x.createdAt <= s[0].createdAt
  {
    forall x | x in s
      ensures x.createdAt <= s[0].createdAt
    {
      var i :| 0 <= i < |s| && s[i] == x;
    }
  }

  /** An order no older than every order of a newest-first sequence can go
      in front of it. */
  lemma ConsNewestFirst(o: Order, s: seq<Order>)
    requires NewestFirst(s) && forall x :: x in s ==> x.createdAt <= o.createdAt
    ensures NewestFirst([o] + s)
  {
    var r := [o] + s;
    forall i, j | 0 <= i < j < |r|
      ensures r[i].createdAt >= r[j].createdAt
    {
      assert r[j] == s[j - 1];
      if i > 0 {
        assert r[i] == s[i - 1];
      }
    }
  }

  /** A stable sort of the orders, newest first (LINQ's `OrderByDescending`). */
  function SortNewestFirst(s: seq<Order>): (r: seq<Order>)
    ensures NewestFirst(r)
    ensures multiset(r) == multiset(s)
    ensures |r| == |s|
  {
    if s == [] then []
    else
      assert s == [s[0]] + s[1..];
      InsertNewestFirst(s[0], SortNewestFirst(s[1..]))
  }

  /** The orders created at time `t`, in sequence order. */
  function CreatedAt(s: seq<Order>, t: Time): (r: seq<Order>)
    ensures forall x :: x in r <==> x in s && x.createdAt == t
  {
    if s == [] then []
    else
      assert forall x :: x in s <==> x == s[0] || x in s[1..];
      if s[0].createdAt == t then [s[0]] + CreatedAt(s[1..], t) else CreatedAt(s[1..], t)
  }

  lemma {:induction false} InsertIsStable(o: Order, s: seq<Order>, t: Time)
    requires NewestFirst(s)
    ensures CreatedAt(InsertNewestFirst(o, s), t) == (if o.createdAt == t then [o] else []) + CreatedAt(s, t)
  {
    if s != [] && s[0].createdAt > o.createdAt {
      InsertIsStable(o, s[1..], t);
    }
  }

  /** The sort is stable: orders with the same creation time keep their
      relative order. */
  lemma {:induction false} SortIsStable(s: seq<Order>, t: Time)
    ensures CreatedAt(SortNewestFirst(s), t) == CreatedAt(s, t)
  {
    if s != [] {
      SortIsStable(s[1..], t);
      InsertIsStable(s[0], SortNewestFirst(s[1..]), t);
    }
  }

  /** A page of a newest-first sequence is newest first. */
  lemma PageOfNewestFirst(s: seq<Order>, page: int, pageSize: int)
    requires NewestFirst(s)
    ensures NewestFirst(Page(s, page, pageSize))
  {
    var r := Page(s, page, pageSize);
    if r != [] {
      RunOfNewestFirst(s, r, PageStart(page, pageSize));
    }
  }

  /** A run of consecutive orders of a newest-first sequence is newest first. */
  lemma RunOfNewestFirst(s: seq<Order>, r: seq<Order>, start: nat)
    requires NewestFirst(s) && start + |r| <= |s|
    requires forall i :: 0 <= i < |r| ==> r[i] == s[start + i]
    ensures NewestFirst(r)
  {
    forall i, j | 0 <= i < j < |r|
      ensures r[i].createdAt >= r[j].createdAt
    {
      assert r[i] == s[start + i] && r[j] == s[start + j];
    }
  }

  // ---------------------------------------------------------------------------

  class OrderRepository {
    /** The `Orders` table, each order with its items. */
    var orders: seq<Order>

    ghost predicate Valid()
      reads this
    {
      DistinctOrderIds(orders)
    }

    constructor ()
      ensures Valid() && orders == []
    {
      orders := [];
    }

    /** `SaveOrderAsync`: adds the order together with its items. Items of
        the order that share an id make `Add` throw; a key already in the
        table makes the save throw; either way the table stays as it was. */
    method SaveOrder(order: Order) returns (r: Outcome<()>)
      requires Valid()
      modifies this
      ensures Valid()
      ensures Insertable(old(orders), order) ==> r == Returned(()) && orders == old(orders) + [order]
      ensures !DistinctLineIds(order.items) ==> r == Threw(TrackingConflictMessage) && orders == old(orders)
      ensures DistinctLineIds(order.items) && !Insertable(old(orders), order) ==>
                r == Threw(SaveFailedMessage) && orders == old(orders)
    {
      if !DistinctLineIds(order.items) {
        return Threw(TrackingConflictMessage);
      }
      if !Insertable(orders, order) {
        return Threw(SaveFailedMessage);
      }
      DistinctOrderAppend(orders, order);
      orders := orders + [order];
      r := Returned(());
    }

    /** `GetOrderByIdAsync`: the order with its items, or null. */
    function GetOrderById(id: Guid): (r: Option<Order>)
      reads this
      ensures r.Some? <==> id in OrderIds(orders)
      ensures r.Some? ==> r.value in orders && r.value.id == id
    {
      FindOrder(orders, id)
    }

    /** `GetAllOrdersAsync`: page `page` of the orders sorted newest first.
        The paging runs in the database as `OFFSET (page-1)*pageSize ROWS
        FETCH NEXT pageSize ROWS`, which SQL Server refuses for a negative
        offset or a page size below one. */
    function GetAllOrders(page: int, pageSize: int): (r: Outcome<seq<Order>>)
      reads this
      ensures r.Threw? <==> Offset(page, pageSize) < 0 || pageSize <= 0
      ensures Offset(page, pageSize) < 0 ==> r == Threw(NegativeOffsetMessage)
      ensures 0 <= Offset(page, pageSize) && pageSize <= 0 ==> r == Threw(FetchRowsMessage)
      ensures r.Returned? ==>
                && r.value == Page(SortNewestFirst(orders), page, pageSize)
                && |r.value| == Min(pageSize, Max(0, |orders| - Offset(page, pageSize)))
                && NewestFirst(r.value)
                && forall o :: o in r.value ==> o in orders
    {
      if Offset(page, pageSize) < 0 then Threw(NegativeOffsetMessage)
      else if pageSize <= 0 then Threw(FetchRowsMessage)
      else
        var sorted := SortNewestFirst(orders);
        assert PageStart(page, pageSize) == Offset(page, pageSize) && |sorted| == |orders|;
        PageOfNewestFirst(sorted, page, pageSize);
        assert forall o :: o in sorted ==> o in multiset(orders);
        Returned(Page(sorted, page, pageSize))
    }

    /** `UpdateOrderAsync`: overwrites the stored order and reports success. */
    method UpdateOrder(order: Order) returns (ok: bool)
      requires Valid() && order.id in OrderIds(orders)
      modifies this
      ensures Valid() && ok
      ensures orders == ReplaceOrder(old(orders), order)
    {
      orders := ReplaceOrder(orders, order);
      ok := true;
    }

    /** `DeleteOrderAsync`: false and no change when the order is absent,
        otherwise deletes it with its items. */
    method DeleteOrder(id: Guid) returns (ok: bool)
      requires Valid()
      modifies this
      ensures Valid()
      ensures ok <==> id in OrderIds(old(orders))
      ensures orders == WithoutOrder(old(orders), id)
    {
      var order := FindOrder(orders, id);
      if order.None? {
        return false;
      }
      orders := WithoutOrder(orders, id);
      ok := true;
    }
  }
}
