/** `OrderController`: the `/orders` routes. The handlers that read the
    principal take its account id from the authentication's details and
    clear the security context before calling the service; an order is
    shown only to the account that placed it, with no administrator
    override. Creating an order does not look at the principal. */
module OrderWeb {
  import opened Common
  import opened Tables
  import opened Records
  import opened Http
  import opened CartAuth
  import opened Orders

  const NO_ORDERS: string := "You have not made any order yet."
  const UNKNOWN_ORDER: string := "There is no order registered with the provided id."
  const NOT_YOURS: string := "Order requested does not belong to account who requested it."

  function AlreadyEmptyText(name: string): string
  {
    name + ", your order history is already empty."
  }

  function RemovedText(name: string): string
  {
    name + ", your order history has been removed successfully."
  }

  /** `principalId.equals(order.getAccountId())`: a null principal id is
      dereferenced; a null account id equals no principal. */
  function IsOwner(principalId: Option<int>, order: OrderData): (r: Result<bool>)
    ensures r.Failure? <==> principalId.None?
    ensures r.Success? ==> (r.value <==> order.accountId.Some? && order.accountId.value == principalId.value)
  {
    match principalId
    case None => Failure(NullPointerException)
    case Some(p) => Success(order.accountId == Some(p))
  }

  class OrderController {
    const service: OrderService
    const context: SecurityContext<CartProfile>

    ghost predicate Valid()
      reads this, service, service.repo
    {
      service.Valid()
    }

    constructor (service: OrderService, context: SecurityContext<CartProfile>)
      requires service.Valid()
      ensures this.service == service && this.context == context && Valid()
    {
      this.service := service;
      this.context := context;
    }

    /** `GET /orders`: the principal's orders, or a message when there are none. */
    method GetAllOrders() returns (r: Result<Response<seq<Row<OrderData>>>>)
      requires Valid()
      modifies context
      ensures Valid()
      ensures old(context.authentication).None? ==>
        r == Failure(NullPointerException) && context.authentication == None
      ensures old(context.authentication).Some? ==>
        var orders := OrdersOf(service.repo.rows, old(context.authentication).value.GetDetails());
        context.authentication == None
        && r == Success(if |orders| == 0 then Response(Ok, Text(NO_ORDERS)) else Response(Ok, Content(orders)))
    {
      if context.authentication.None? {
        return Failure(NullPointerException);
      }
      var principalId := context.authentication.value.GetDetails();
      context.SetAuthentication(None);
      var orders := service.RetrieveAllOrders(principalId);
      if |orders| == 0 {
        return Success(Response(Ok, Text(NO_ORDERS)));
      }
      r := Success(Response(Ok, Content(orders)));
    }

    /** `DELETE /orders`: on an empty history only a message; otherwise the
        principal's orders, and no one else's, are removed. */
    method RemoveAllOrders() returns (r: Result<Response<()>>)
      requires Valid()
      modifies context, service.repo`rows
      ensures Valid()
      ensures old(context.authentication).None? ==>
        r == Failure(NullPointerException) && context.authentication == None
        && service.repo.rows == old(service.repo.rows)
      ensures old(context.authentication).Some? ==>
        var profile := old(context.authentication).value;
        var a := profile.GetDetails();
        context.authentication == None
        && (|OrdersOf(old(service.repo.rows), a)| == 0 ==>
              r == Success(Response(Ok, Text(AlreadyEmptyText(profile.GetName()))))
              && service.repo.rows == old(service.repo.rows))
        && (|OrdersOf(old(service.repo.rows), a)| > 0 ==>
              r == Success(Response(Ok, Text(RemovedText(profile.GetName()))))
              && service.repo.rows == WithoutOrdersOf(old(service.repo.rows), a))
    {
      if context.authentication.None? {
        return Failure(NullPointerException);
      }
      var authentication := context.authentication.value;
      var principalId := authentication.GetDetails();
      context.SetAuthentication(None);
      var orders := service.RetrieveAllOrders(principalId);
      if |orders| == 0 {
        return Success(Response(Ok, Text(AlreadyEmptyText(authentication.GetName()))));
      }
      service.DeleteAllOrders(principalId);
      r := Success(Response(Ok, Text(RemovedText(authentication.GetName()))));
    }

    /** `GET /orders/id={id}`: 404 for an unknown key; otherwise the order
        to the account that placed it and 403 to any other principal. */
    method GetOrderById(orderId: int) returns (r: Result<Response<OrderData>>)
      requires Valid()
      modifies context
      ensures Valid()
      ensures old(context.authentication).None? ==>
        r == Failure(NullPointerException) && context.authentication == None
      ensures old(context.authentication).Some? ==>
        var principalId := old(context.authentication).value.GetDetails();
        context.authentication == None
        && (!HasId(service.repo.rows, orderId) ==> r == Success(Response(NotFound, Text(UNKNOWN_ORDER))))
        && (HasId(service.repo.rows, orderId) ==>
              var order := FindOne(service.repo.rows, orderId).value;
              (principalId.None? ==> r == Failure(NullPointerException))
              && (principalId.Some? && order.accountId == principalId ==> r == Success(Response(Ok, Content(order))))
              && (principalId.Some? && order.accountId != principalId ==>
                    r == Success(Response(Forbidden, Text(NOT_YOURS)))))
      ensures r.Success? && r.value.status == Ok ==>
        old(context.authentication).Some? && Row(orderId, r.value.body.value) in service.repo.rows
        && r.value.body.value.accountId == old(context.authentication).value.GetDetails()
    {
      if context.authentication.None? {
        return Failure(NullPointerException);
      }
      var principalId := context.authentication.value.GetDetails();
      context.SetAuthentication(None);
      var order := service.RetrieveOrderById(orderId);
      if order.None? {
        return Success(Response(NotFound, Text(UNKNOWN_ORDER)));
      }
      var owner := IsOwner(principalId, order.value);
      if owner.Failure? {
        return Failure(owner.error);
      }
      if owner.value {
        return Success(Response(Ok, Content(order.value)));
      }
      r := Success(Response(Forbidden, Text(NOT_YOURS)));
    }

    /** `POST /orders`: creates the order and answers 200 with it. */
    method CreateOrder(requestId: Option<int>, newOrder: OrderData) returns (r: Response<Row<OrderData>>)
      requires Valid()
      modifies service.repo
      ensures Valid()
      ensures var order := Row(old(service.repo.nextId), newOrder);
        r == Response(Ok, Content(order)) && service.repo.rows == old(service.repo.rows) + [order]
        && service.repo.nextId == old(service.repo.nextId) + 1
    {
      var order := service.CreateOrder(requestId, newOrder);
      r := Response(Ok, Content(order));
    }
  }
}
