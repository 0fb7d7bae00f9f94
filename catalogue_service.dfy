/** `CatalogueService`: the product table (Spring Data's `ProductRepository`
    with its derived `findAllByProductCategory` and `findAllByProductColor`)
    and the operations the catalogue controller runs on it, among them the
    list of category names, each non-null category once, in the order in
    which the table first mentions it. */
module Catalogue {
  import opened Common
  import opened Tables
  import opened Records

  /** The category names of `rows`, as one pass over the table collects
      them: a row's category is appended unless it is null or already listed. */
  function DistinctCategories(rows: seq<Row<ProductData>>): seq<string>
  {
    if |rows| == 0 then []
    else
      var names := DistinctCategories(rows[..|rows| - 1]);
      var category := rows[|rows| - 1].data.category;
      if category.Some? && category.value !in names then names + [category.value] else names
  }

  /** The index of the first row whose category is `name`, or `|rows|` when there is none. */
  function FirstMention(rows: seq<Row<ProductData>>, name: string): (k: nat)
    ensures k <= |rows|
    ensures k < |rows| ==> rows[k].data.category == Some(name)
    ensures forall i :: 0 <= i < k ==> rows[i].data.category != Some(name)
  {
    if |rows| == 0 then 0
    else if rows[0].data.category == Some(name) then 0
    else
      var k := FirstMention(rows[1..], name);
      assert forall i :: 1 <= i < |rows| ==> rows[i] == rows[1..][i - 1];
      1 + k
  }

  /** A first mention inside a prefix is the first mention in the whole table. */
  lemma FirstMentionExtend(init: seq<Row<ProductData>>, last: Row<ProductData>, name: string)
    ensures FirstMention(init, name) < |init| ==> FirstMention(init + [last], name) == FirstMention(init, name)
    ensures FirstMention(init, name) == |init| && last.data.category == Some(name) ==>
      FirstMention(init + [last], name) == |init|
  {
    var rows := init + [last];
    assert forall i :: 0 <= i < |init| ==> rows[i] == init[i];
    assert rows[|init|] == last;
  }

  /** The category list names every non-null category of the table and nothing else. */
  lemma {:induction false} CategoriesMembers(rows: seq<Row<ProductData>>)
    ensures forall name :: name in DistinctCategories(rows) <==>
      exists i :: 0 <= i < |rows| && rows[i].data.category == Some(name)
  {
    if |rows| > 0 {
      var init, last := rows[..|rows| - 1], rows[|rows| - 1];
      CategoriesMembers(init);
      forall name ensures name in DistinctCategories(rows) <==>
        exists i :: 0 <= i < |rows| && rows[i].data.category == Some(name)
      {
        if exists i :: 0 <= i < |init| && init[i].data.category == Some(name) {
          var i :| 0 <= i < |init| && init[i].data.category == Some(name);
          assert rows[i] == init[i];
        }
        if exists i :: 0 <= i < |rows| && rows[i].data.category == Some(name) {
          var i :| 0 <= i < |rows| && rows[i].data.category == Some(name);
          if i < |init| {
            assert init[i] == rows[i];
          }
        }
      }
    }
  }

  /** No category is listed twice. */
  lemma {:induction false} CategoriesDistinct(rows: seq<Row<ProductData>>)
    ensures forall i, j :: 0 <= i < j < |DistinctCategories(rows)| ==>
      DistinctCategories(rows)[i] != DistinctCategories(rows)[j]
  {
    if |rows| > 0 {
      var before := DistinctCategories(rows[..|rows| - 1]);
      CategoriesDistinct(rows[..|rows| - 1]);
      var names := DistinctCategories(rows);
      var category := rows[|rows| - 1].data.category;
      if category.Some? && category.value !in before {
        assert names == before + [category.value];
        forall i, j | 0 <= i < j < |names| ensures names[i] != names[j] {
          if j == |before| {
            assert names[j] == category.value;
            assert names[i] == before[i] && before[i] in before;
          } else {
            assert names[i] == before[i] && names[j] == before[j];
          }
        }
      }
    }
  }

  /** A listed category is mentioned by some row of the table. */
  lemma CategoryMentioned(rows: seq<Row<ProductData>>, name: string)
    requires name in DistinctCategories(rows)
    ensures FirstMention(rows, name) < |rows|
  {
    CategoriesMembers(rows);
    var i :| 0 <= i < |rows| && rows[i].data.category == Some(name);
  }

  /** Categories are listed in the order of their first mention in the table. */
  lemma {:induction false} CategoriesOrdered(rows: seq<Row<ProductData>>)
    ensures forall i, j :: 0 <= i < j < |DistinctCategories(rows)| ==>
      FirstMention(rows, DistinctCategories(rows)[i]) < FirstMention(rows, DistinctCategories(rows)[j])
  {
    if |rows| > 0 {
      var init, last := rows[..|rows| - 1], rows[|rows| - 1];
      assert rows == init + [last];
      CategoriesOrdered(init);
      var before := DistinctCategories(init);
      var category := last.data.category;
      if category.Some? && category.value !in before {
        var c := category.value;
        var names := before + [c];
        assert DistinctCategories(rows) == names;
        CategoriesMembers(init);
        assert forall i :: 0 <= i < |init| ==> init[i].data.category != Some(c);
        FirstMentionExtend(init, last, c);
        forall i, j | 0 <= i < j < |names| ensures FirstMention(rows, names[i]) < FirstMention(rows, names[j]) {
          assert names[i] == before[i] && before[i] in before;
          CategoryMentioned(init, before[i]);
          FirstMentionExtend(init, last, before[i]);
          if j < |before| {
            assert names[j] == before[j] && before[j] in before;
            CategoryMentioned(init, before[j]);
            FirstMentionExtend(init, last, before[j]);
          }
        }
      } else {
        assert DistinctCategories(rows) == before;
        forall i, j | 0 <= i < j < |before| ensures FirstMention(rows, before[i]) < FirstMention(rows, before[j]) {
          assert before[i] in before && before[j] in before;
          CategoryMentioned(init, before[i]);
          CategoryMentioned(init, before[j]);
          FirstMentionExtend(init, last, before[i]);
          FirstMentionExtend(init, last, before[j]);
        }
      }
    }
  }

  function CategoryIs(category: Option<string>): Row<ProductData> -> bool
  {
    (r: Row<ProductData>) => r.data.category == category
  }

  function ColorIs(color: Option<string>): Row<ProductData> -> bool
  {
    (r: Row<ProductData>) => r.data.color == color
  }

  class CatalogueService {
    var rows: seq<Row<ProductData>>
    var nextId: int

    ghost predicate Valid()
      reads this
    {
      Keyed(rows, nextId)
    }

    constructor (rows: seq<Row<ProductData>>, nextId: int)
      requires Keyed(rows, nextId)
      ensures this.rows == rows && this.nextId == nextId && Valid()
    {
      this.rows := rows;
      this.nextId := nextId;
    }

    /** `retrieveAllCategoriesNames`: one pass over `findAll`, appending each
        category that is not null and not yet listed. */
    method RetrieveAllCategoriesNames() returns (names: seq<string>)
      ensures names == DistinctCategories(rows)
      ensures forall i, j :: 0 <= i < j < |names| ==> names[i] != names[j]
      ensures forall name :: name in names <==> exists i :: 0 <= i < |rows| && rows[i].data.category == Some(name)
      ensures forall i, j :: 0 <= i < j < |names| ==> FirstMention(rows, names[i]) < FirstMention(rows, names[j])
    {
      names := [];
      var products := rows;
      var i := 0;
      while i < |products|
        invariant 0 <= i <= |products|
        invariant names == DistinctCategories(products[..i])
      {
        assert products[..i + 1][..i] == products[..i];
        var category := products[i].data.category;
        var listed := category.Some? && category.value in names;
        if !listed && category.Some? {
          names := names + [category.value];
        }
        i := i + 1;
      }
      assert products[..|products|] == products;
      CategoriesMembers(rows);
      CategoriesDistinct(rows);
      CategoriesOrdered(rows);
    }

    /** `retrieveProductsByCategory`: the products of that category, in table order. */
    function RetrieveProductsByCategory(categoryName: string): (r: seq<Row<ProductData>>)
      reads this
      ensures forall i :: 0 <= i < |r| ==> r[i] in rows && r[i].data.category == Some(categoryName)
      ensures forall i :: 0 <= i < |rows| && rows[i].data.category == Some(categoryName) ==> rows[i] in r
    {
      FilterElements(rows, CategoryIs(Some(categoryName)));
      FilterKeeps(rows, CategoryIs(Some(categoryName)));
      Filter(rows, CategoryIs(Some(categoryName)))
    }

    /** `retrieveProductsByColor`: the products of that colour, in table order. */
    function RetrieveProductsByColor(productColor: string): (r: seq<Row<ProductData>>)
      reads this
      ensures forall i :: 0 <= i < |r| ==> r[i] in rows && r[i].data.color == Some(productColor)
      ensures forall i :: 0 <= i < |rows| && rows[i].data.color == Some(productColor) ==> rows[i] in r
    {
      FilterElements(rows, ColorIs(Some(productColor)));
      FilterKeeps(rows, ColorIs(Some(productColor)));
      Filter(rows, ColorIs(Some(productColor)))
    }

    /** `retrieveAllProducts`: `findAll`. */
    function RetrieveAllProducts(): seq<Row<ProductData>>
      reads this
    {
      rows
    }

    /** `deleteAllProducts`: `deleteAll` empties the catalogue. */
    method DeleteAllProducts()
      requires Valid()
      modifies this`rows
      ensures Valid() && rows == []
    {
      rows := [];
    }

    /** `retrieveProductById`: the stored product with that key, or null. */
    function RetrieveProductById(id: int): (r: Option<ProductData>)
      requires Valid()
      reads this
      ensures r.Some? <==> HasId(rows, id)
      ensures r.Some? ==> Row(id, r.value) in rows
    {
      FindOne(rows, id)
    }

    /** `saveProduct`: `save` of the request's product, returning the stored
        row (never null): a stored key is overwritten, any other is appended
        under a new key. */
    method SaveProduct(id: Option<int>, data: ProductData) returns (saved: Row<ProductData>)
      requires Valid()
      modifies this
      ensures Valid()
      ensures var s := Save(old(rows), old(nextId), id, data);
        rows == s.rows && nextId == s.nextId && saved == s.row
    {
      var s := Save(rows, nextId, id, data);
      rows, nextId := s.rows, s.nextId;
      saved := s.row;
    }

    /** `updateProduct`: replaces name, category, price and colour of the
        product with key `id` and saves it under the same key; throws
        NullPointerException (and changes nothing) when there is none. */
    method UpdateProduct(id: int, update: ProductData) returns (r: Outcome)
      requires Valid()
      modifies this`rows
      ensures Valid()
      ensures var u := Updated(old(rows), nextId, id, update);
        (u.Failure? ==> r == Fail(u.error) && rows == old(rows))
        && (u.Success? ==> r == Pass && rows == u.value)
      ensures HasId(old(rows), id) ==>
        |rows| == |old(rows)|
        && forall i :: 0 <= i < |rows| ==>
             rows[i] == if old(rows)[i].id == id then Row(id, update) else old(rows)[i]
    {
      var product := FindOne(rows, id);
      if product.None? {
        return Fail(NullPointerException);
      }
      var s := Save(rows, nextId, Some(id), update);
      rows := s.rows;
      r := Pass;
    }

    /** `deleteProduct`: `delete(id)`, which throws when there is no such product. */
    method DeleteProduct(id: int) returns (r: Outcome)
      requires Valid()
      modifies this`rows
      ensures Valid()
      ensures HasId(old(rows), id) ==> r == Pass && rows == Delete(old(rows), id).value
      ensures !HasId(old(rows), id) ==> r == Fail(EmptyResultDataAccessException) && rows == old(rows)
    {
      var after := Delete(rows, id);
      if after.Failure? {
        return Fail(after.error);
      }
      FilterKeyed(rows, nextId, KeyIsNot(id));
      rows := after.value;
      r := Pass;
    }

    /** `checkProductExist`: whether a product has key `id`. */
    function CheckProductExist(id: int): (r: bool)
      reads this
      ensures r <==> exists i :: 0 <= i < |rows| && rows[i].id == id
    {
      FindOne(rows, id).Some?
    }
  }
}
