/** The order service's table of placed orders (`OrderRepository`, with the
    derived `findAllByAccountId` and `deleteAllByAccountId`) and
    `OrderService`, which lists, deletes, finds and creates orders on it. */
module Orders {
  import opened Common
  import opened Tables
  import opened Records

  function OrderOwner(order: OrderData): Option<int> { order.accountId }

  /** The orders of account `a`, in table order (`findAllByAccountId`); a
      null `a` selects the orders without an account. */
  function OrdersOf(rows: seq<Row<OrderData>>, a: Option<int>): (r: seq<Row<OrderData>>)
    ensures forall i :: 0 <= i < |r| ==> r[i] in rows && r[i].data.accountId == a
    ensures forall i :: 0 <= i < |rows| && rows[i].data.accountId == a ==> rows[i] in r
  {
    FilterElements(rows, Owned(OrderOwner, a));
    FilterKeeps(rows, Owned(OrderOwner, a));
    Filter(rows, Owned(OrderOwner, a))
  }

  /** What `deleteAllByAccountId(a)` leaves: every order not of account `a`, in order. */
  function WithoutOrdersOf(rows: seq<Row<OrderData>>, a: Option<int>): seq<Row<OrderData>>
  {
    Filter(rows, NotOwned(OrderOwner, a))
  }

  /** After removing account `a`'s orders, `a` has none and every other
      account has exactly the orders it had. */
  lemma WithoutOrdersOfIsolated(rows: seq<Row<OrderData>>, a: Option<int>, b: Option<int>)
    ensures OrdersOf(WithoutOrdersOf(rows, a), a) == []
    ensures b != a ==> OrdersOf(WithoutOrdersOf(rows, a), b) == OrdersOf(rows, b)
  {
    PurgeOwner(rows, OrderOwner, a, b);
  }

  class OrderRepository {
    var rows: seq<Row<OrderData>>
    var nextId: int

    ghost predicate Valid()
      reads this
    {
      Keyed(rows, nextId)
    }

    constructor (rows: seq<Row<OrderData>>, nextId: int)
      requires Keyed(rows, nextId)
      ensures this.rows == rows && this.nextId == nextId && Valid()
    {
      this.rows := rows;
      this.nextId := nextId;
    }

    function FindAllByAccountId(a: Option<int>): seq<Row<OrderData>>
      reads this
    {
      OrdersOf(rows, a)
    }

    /** Removes every order of account `a`, one row at a time. */
    method DeleteAllByAccountId(a: Option<int>)
      requires Valid()
      modifies this`rows
      ensures Valid()
      ensures rows == WithoutOrdersOf(old(rows), a)
    {
      FilterKeyed(rows, nextId, NotOwned(OrderOwner, a));
      rows := RetainWhere(rows, NotOwned(OrderOwner, a));
    }

    /** `save` of an order without a key: appended under a fresh key, which the entity receives. */
    method Persist(data: OrderData) returns (saved: Row<OrderData>)
      requires Valid()
      modifies this
      ensures Valid()
      ensures saved == Row(old(nextId), data) && !HasId(old(rows), saved.id)
      ensures rows == old(rows) + [saved] && nextId == old(nextId) + 1
    {
      var s := Save(rows, nextId, None, data);
      rows, nextId := s.rows, s.nextId;
      saved := s.row;
    }
  }

  class OrderService {
    const repo: OrderRepository

    ghost predicate Valid()
      reads this, repo
    {
      repo.Valid()
    }

    constructor (repo: OrderRepository)
      requires repo.Valid()
      ensures this.repo == repo && Valid()
    {
      this.repo := repo;
    }

    /** `retrieveAllOrders`: the order history of account `a`. */
    function RetrieveAllOrders(a: Option<int>): seq<Row<OrderData>>
      reads this, repo
    {
      repo.FindAllByAccountId(a)
    }

    /** `deleteAllOrders`: removes the history of account `a` and nothing else. */
    method DeleteAllOrders(a: Option<int>)
      requires Valid()
      modifies repo`rows
      ensures Valid()
      ensures repo.rows == WithoutOrdersOf(old(repo.rows), a)
    {
      repo.DeleteAllByAccountId(a);
    }

    /** `retrieveOrderById`: the stored order with that key, or null. */
    function RetrieveOrderById(id: int): (r: Option<OrderData>)
      requires Valid()
      reads this, repo
      ensures r.Some? <==> HasId(repo.rows, id)
      ensures r.Some? ==> Row(id, r.value) in repo.rows
    {
      FindOne(repo.rows, id)
    }

    /** `createOrder`: copies account id, addressee, address, cost and date
        into a new order, whatever key the request carried, saves it as a new
        row and returns it with its generated key. */
    method CreateOrder(requestId: Option<int>, newOrder: OrderData) returns (order: Row<OrderData>)
      requires Valid()
      modifies repo
      ensures Valid()
      ensures order.data == newOrder && order.id == old(repo.nextId) && !HasId(old(repo.rows), order.id)
      ensures repo.rows == old(repo.rows) + [order] && repo.nextId == old(repo.nextId) + 1
    {
      var copy := OrderData(newOrder.accountId, newOrder.addressee, newOrder.address, newOrder.cost, newOrder.date);
      order := repo.Persist(copy);
    }
  }

  /** Creating an order adds it to its account's history and leaves every
      other account's history as it was. */
  lemma CreatedOrderInHistory(rows: seq<Row<OrderData>>, order: Row<OrderData>, b: Option<int>)
    ensures OrdersOf(rows + [order], order.data.accountId) == OrdersOf(rows, order.data.accountId) + [order]
    ensures b != order.data.accountId ==> OrdersOf(rows + [order], b) == OrdersOf(rows, b)
  {
    var own := Owned(OrderOwner, order.data.accountId);
    FilterAppend(rows, [order], own);
    FilterSingle(order, own);
    assert own(order);
    if b != order.data.accountId {
      var other := Owned(OrderOwner, b);
      FilterAppend(rows, [order], other);
      FilterSingle(order, other);
      assert !other(order);
    }
  }
}
