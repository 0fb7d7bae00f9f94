/** `CatalogueController`: the `/catalogue` routes. Every list handler
    answers 204 without a body for an empty list and 200 with the list
    otherwise; a missing product is a 200 message when read, a 404 when
    edited, and the delete exception when removed. */
module CatalogueWeb {
  import opened Common
  import opened JavaText
  import opened Tables
  import opened Records
  import opened Http
  import opened Catalogue

  const CATALOGUE_EMPTY: string := "Catalogue is empty."
  const CATALOGUE_REMOVED: string := "Catalogue has been removed."
  const UNKNOWN_PRODUCT: string := "Product requested does not exist"
  const PRODUCT_UPDATED: string := "Product has been updated successfully."

  function MissingProductText(id: int): string
  {
    "Product with ID: " + IntText(id) + " does not exist."
  }

  function RemovedProductText(id: int): string
  {
    "The product with ID: " + IntText(id) + " has been removed."
  }

  /** The status mapping every list handler shares. */
  function ListResponse<T>(items: seq<T>): (r: Response<seq<T>>)
    ensures r.status == NoContent <==> |items| == 0
    ensures r.status == NoContent ==> r.body == NoBody
    ensures r.status != NoContent ==> r == Response(Ok, Content(items))
  {
    if |items| == 0 then Response(NoContent, NoBody) else Response(Ok, Content(items))
  }

  class CatalogueController {
    const service: CatalogueService

    ghost predicate Valid()
      reads this, service
    {
      service.Valid()
    }

    constructor (service: CatalogueService)
      requires service.Valid()
      ensures this.service == service && Valid()
    {
      this.service := service;
    }

    /** `GET /catalogue/categories`. */
    method GetAllCategories() returns (r: Response<seq<string>>)
      ensures r == ListResponse(DistinctCategories(service.rows))
      ensures r.status == NoContent <==> forall i :: 0 <= i < |service.rows| ==> service.rows[i].data.category.None?
    {
      var allCategories := service.RetrieveAllCategoriesNames();
      if |allCategories| == 0 {
        return Response(NoContent, NoBody);
      }
      assert allCategories[0] in allCategories;
      r := Response(Ok, Content(allCategories));
    }

    /** `GET /catalogue/categories/category={name}`. */
    function GetProductsByCategory(categoryName: string): (r: Response<seq<Row<ProductData>>>)
      reads this, service
      ensures r.status == NoContent <==>
        forall i :: 0 <= i < |service.rows| ==> service.rows[i].data.category != Some(categoryName)
      ensures r.status != NoContent ==> r == Response(Ok, Content(service.RetrieveProductsByCategory(categoryName)))
    {
      var products := service.RetrieveProductsByCategory(categoryName);
      if |products| > 0 then assert products[0] in service.rows; ListResponse(products)
      else ListResponse(products)
    }

    /** `GET /catalogue/products/color={colour}`. */
    function GetProductsByColor(productColor: string): (r: Response<seq<Row<ProductData>>>)
      reads this, service
      ensures r.status == NoContent <==>
        forall i :: 0 <= i < |service.rows| ==> service.rows[i].data.color != Some(productColor)
      ensures r.status != NoContent ==> r == Response(Ok, Content(service.RetrieveProductsByColor(productColor)))
    {
      var products := service.RetrieveProductsByColor(productColor);
      if |products| > 0 then assert products[0] in service.rows; ListResponse(products)
      else ListResponse(products)
    }

    /** `GET /catalogue/products`. */
    function GetAllProducts(): (r: Response<seq<Row<ProductData>>>)
      reads this, service
      ensures r.status == NoContent <==> |service.rows| == 0
      ensures r.status != NoContent ==> r == Response(Ok, Content(service.rows))
    {
      ListResponse(service.RetrieveAllProducts())
    }

    /** `DELETE /catalogue/products`: on an empty catalogue only a message;
        otherwise every product is removed. */
    method RemoveAllProducts() returns (r: Response<()>)
      requires Valid()
      modifies service`rows
      ensures Valid()
      ensures |old(service.rows)| == 0 ==> r == Response(Ok, Text(CATALOGUE_EMPTY)) && service.rows == old(service.rows)
      ensures |old(service.rows)| > 0 ==> r == Response(Ok, Text(CATALOGUE_REMOVED)) && service.rows == []
    {
      if |service.RetrieveAllProducts()| == 0 {
        return Response(Ok, Text(CATALOGUE_EMPTY));
      }
      service.DeleteAllProducts();
      r := Response(Ok, Text(CATALOGUE_REMOVED));
    }

    /** `GET /catalogue/products/id={id}`: the product, or a 200 message naming
        the missing key (never 404). */
    function GetProductById(id: int): (r: Response<ProductData>)
      requires Valid()
      reads this, service
      ensures r.status == Ok
      ensures r.body.Content? <==> HasId(service.rows, id)
      ensures r.body.Content? ==> Row(id, r.body.value) in service.rows
      ensures !r.body.Content? ==> r.body == Text(MissingProductText(id))
    {
      match service.RetrieveProductById(id)
      case None => Response(Ok, Text(MissingProductText(id)))
      case Some(product) => Response(Ok, Content(product))
    }

    /** `POST /catalogue/products`: saves the product (whose body may carry a
        key) and answers 201 with the location of the stored row: the request
        URL's path with `/id=<key>` appended, followed by the request's query
        string when it has one; `save` never returns null, so the 204 branch
        is never taken. */
    method AddProduct(requestPath: string, query: Option<string>, id: Option<int>, product: ProductData)
      returns (r: Response<()>, location: string)
      requires Valid()
      modifies service
      ensures Valid()
      ensures var s := Save(old(service.rows), old(service.nextId), id, product);
        service.rows == s.rows && service.nextId == s.nextId && r == Response(Created, NoBody)
        && location == requestPath + "/id=" + IntText(s.row.id) + (if query.Some? then "?" + query.value else "")
    {
      var saved := service.SaveProduct(id, product);
      location := requestPath + "/id=" + IntText(saved.id);
      if query.Some? {
        location := location + "?" + query.value;
      }
      r := Response(Created, NoBody);
    }

    /** `PUT /catalogue/products/id={id}`: 404 and no update for an unknown
        key; otherwise the update, and 200. */
    method EditProduct(id: int, update: ProductData) returns (r: Response<()>)
      requires Valid()
      modifies service`rows
      ensures Valid()
      ensures !HasId(old(service.rows), id) ==>
        r == Response(NotFound, Text(UNKNOWN_PRODUCT)) && service.rows == old(service.rows)
      ensures HasId(old(service.rows), id) ==>
        r == Response(Ok, Text(PRODUCT_UPDATED))
        && service.rows == Updated(old(service.rows), service.nextId, id, update).value
    {
      if !service.CheckProductExist(id) {
        return Response(NotFound, Text(UNKNOWN_PRODUCT));
      }
      var updated := service.UpdateProduct(id, update);
      r := Response(Ok, Text(PRODUCT_UPDATED));
    }

    /** `DELETE /catalogue/products/id={id}`: deletes without checking first,
        so an unknown key fails with the repository's exception; otherwise
        200 naming the key. */
    method RemoveProduct(id: int) returns (r: Result<Response<()>>)
      requires Valid()
      modifies service`rows
      ensures Valid()
      ensures !HasId(old(service.rows), id) ==>
        r == Failure(EmptyResultDataAccessException) && service.rows == old(service.rows)
      ensures HasId(old(service.rows), id) ==>
        r == Success(Response(Ok, Text(RemovedProductText(id)))) && service.rows == Delete(old(service.rows), id).value
    {
      var deleted := service.DeleteProduct(id);
      if deleted.Fail? {
        return Failure(deleted.error);
      }
      r := Success(Response(Ok, Text(RemovedProductText(id))));
    }
  }
}
