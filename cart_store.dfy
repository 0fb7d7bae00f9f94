/** `CartItemRepository`: the cart service's table of cart lines with its
    three derived queries. The list query answers row values; the single
    result query answers a freshly loaded `CartItem` bean, as JPA does. */
module CartStore {
  import opened Common
  import opened Tables
  import opened Records
  import opened CartEntities

  function LineOwner(line: CartLine): Option<int> { line.accountId }

  /** The rows of the line for product `p`. */
  function ForProduct(p: Option<int>): Row<CartLine> -> bool
  {
    (r: Row<CartLine>) => r.data.productId == p
  }

  /** The lines of account `a` (`findAllByCartItemAccountId`). */
  function LinesOf(rows: seq<Row<CartLine>>, a: Option<int>): (r: seq<Row<CartLine>>)
    ensures forall i :: 0 <= i < |r| ==> r[i] in rows && r[i].data.accountId == a
    ensures forall i :: 0 <= i < |rows| && rows[i].data.accountId == a ==> rows[i] in r
  {
    FilterElements(rows, Owned(LineOwner, a));
    FilterKeeps(rows, Owned(LineOwner, a));
    Filter(rows, Owned(LineOwner, a))
  }

  /** The line for product `p` whatever its account (`findCartItemByCartItemProductId`):
      none, the only one, or more than one, which the query rejects. */
  function LineForProduct(rows: seq<Row<CartLine>>, p: Option<int>): (r: Lookup<Row<CartLine>>)
    ensures r == Absent <==> forall i :: 0 <= i < |rows| ==> rows[i].data.productId != p
    ensures r.Unique? ==> r.value in rows && r.value.data.productId == p
  {
    var matches := Filter(rows, ForProduct(p));
    FilterElements(rows, ForProduct(p));
    FilterKeeps(rows, ForProduct(p));
    assert |matches| > 0 ==> ForProduct(p)(matches[0]) && matches[0] in rows;
    assert (forall i :: 0 <= i < |rows| ==> rows[i].data.productId != p) || |matches| > 0 by {
      if exists i :: 0 <= i < |rows| && rows[i].data.productId == p {
        var i :| 0 <= i < |rows| && rows[i].data.productId == p;
        assert ForProduct(p)(rows[i]);
        assert rows[i] in matches;
      }
    }
    SingleResult(matches)
  }

  /** What `deleteAllByCartItemAccountId(a)` leaves: every line not of account `a`, in order. */
  function WithoutLinesOf(rows: seq<Row<CartLine>>, a: Option<int>): seq<Row<CartLine>>
  {
    Filter(rows, NotOwned(LineOwner, a))
  }

  /** After removing account `a`'s lines, `a` has no lines and every other
      account has exactly the lines it had. */
  lemma WithoutLinesOfIsolated(rows: seq<Row<CartLine>>, a: Option<int>, b: Option<int>)
    ensures LinesOf(WithoutLinesOf(rows, a), a) == []
    ensures b != a ==> LinesOf(WithoutLinesOf(rows, a), b) == LinesOf(rows, b)
  {
    PurgeOwner(rows, LineOwner, a, b);
  }

  class CartItemRepository {
    var rows: seq<Row<CartLine>>
    var nextId: int

    predicate Valid()
      reads this
    {
      Keyed(rows, nextId)
    }

    constructor ()
      ensures Valid() && rows == []
    {
      rows := [];
      nextId := 1;
    }

    function FindAllByCartItemAccountId(a: Option<int>): seq<Row<CartLine>>
      reads this
    {
      LinesOf(rows, a)
    }

    /** Loads the line for product `p` into a new bean, or answers null; a
        product with several lines fails with IncorrectResultSizeDataAccessException. */
    method FindCartItemByCartItemProductId(p: Option<int>) returns (r: Result<Option<CartItem>>)
      ensures LineForProduct(rows, p) == Absent ==> r == Success(None)
      ensures LineForProduct(rows, p) == Ambiguous ==> r == Failure(IncorrectResultSizeDataAccessException)
      ensures LineForProduct(rows, p).Unique? ==>
        r.Success? && r.value.Some? && fresh(r.value.value)
        && r.value.value.cartItemId == Some(LineForProduct(rows, p).value.id)
        && r.value.value.Line() == LineForProduct(rows, p).value.data
    {
      var lookup := LineForProduct(rows, p);
      if lookup == Absent {
        r := Success(None);
      } else if lookup == Ambiguous {
        r := Failure(IncorrectResultSizeDataAccessException);
      } else {
        var row := lookup.value;
        var item := new CartItem.Of(row.data.productId, row.data.accountId, row.data.name,
                                    row.data.price, row.data.quantity);
        item.SetCartItemId(Some(row.id));
        r := Success(Some(item));
      }
    }

    /** `save(item)`: merges or persists the bean's values and gives it its key. */
    method Save(item: CartItem)
      requires Valid()
      modifies this, item`cartItemId
      ensures Valid()
      ensures var s := Tables.Save(old(rows), old(nextId), old(item.cartItemId), old(item.Line()));
        rows == s.rows && nextId == s.nextId && item.cartItemId == Some(s.row.id)
    {
      var s := Tables.Save(rows, nextId, item.cartItemId, item.Line());
      rows, nextId := s.rows, s.nextId;
      item.SetCartItemId(Some(s.row.id));
    }

    /** Removes every line of account `a`, one row at a time. */
    method DeleteAllByCartItemAccountId(a: Option<int>)
      requires Valid()
      modifies this
      ensures Valid()
      ensures rows == WithoutLinesOf(old(rows), a) && nextId == old(nextId)
    {
      FilterKeyed(rows, nextId, NotOwned(LineOwner, a));
      rows := RetainWhere(rows, NotOwned(LineOwner, a));
    }
  }
}
