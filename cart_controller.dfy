/** `CartController`: the `/cart` routes. Each handler reads the account id
    from the authentication the request filter placed in the security
    context, calls the cart service, clears the context and answers 200 with
    a message or the cart. With no authentication in the context, reading
    its details throws NullPointerException; an exception from the service
    propagates. */
module CartWeb {
  import opened Common
  import opened Tables
  import opened Records
  import opened Http
  import opened CartAuth
  import opened CartStore
  import opened CartCheckout

  const ADDED: string := "Product added to your shopping cart."

  function EmptyCartText(name: string): string
  {
    name + ", your shopping cart is empty.\n" + "You can add some awesome products from our catalogue!"
  }

  function AlreadyEmptyText(name: string): string
  {
    name + ", your shopping cart is already empty."
  }

  function EmptiedText(name: string): string
  {
    name + ", your shopping cart has been emptied successfully."
  }

  function NothingToConfirmText(name: string): string
  {
    name + ", your shopping cart is empty.\n" + "Please, add some products to your shopping cart in order to make an order."
  }

  class CartController {
    const service: CartService
    const context: SecurityContext<CartProfile>

    predicate Valid()
      reads this, service, service.repo
    {
      service.Valid()
    }

    constructor (service: CartService, context: SecurityContext<CartProfile>)
      requires service.Valid()
      ensures this.service == service && this.context == context && Valid()
    {
      this.service := service;
      this.context := context;
    }

    /** `GET /cart`: the caller's cart, or a message when it is empty. */
    method GetCart() returns (r: Result<Response<seq<Row<CartLine>>>>)
      requires Valid()
      modifies context
      ensures Valid()
      ensures old(context.authentication).None? ==>
        r == Failure(NullPointerException) && context.authentication == None
      ensures old(context.authentication).Some? ==>
        var profile := old(context.authentication).value;
        var cart := LinesOf(service.repo.rows, profile.GetDetails());
        context.authentication == None
        && r == Success(if |cart| == 0 then Response(Ok, Text(EmptyCartText(profile.GetName())))
                        else Response(Ok, Content(cart)))
    {
      if context.authentication.None? {
        return Failure(NullPointerException);
      }
      var authentication := context.authentication.value;
      var principalId := authentication.GetDetails();
      var cart := service.RetrieveCart(principalId);
      if |cart| == 0 {
        context.SetAuthentication(None);
        return Success(Response(Ok, Text(EmptyCartText(authentication.GetName()))));
      }
      context.SetAuthentication(None);
      r := Success(Response(Ok, Content(cart)));
    }

    /** `POST /cart` with a product id: adds the product to the caller's cart. */
    method AddCartItem(productId: Option<int>) returns (r: Result<Response<()>>)
      requires Valid()
      modifies context, service`sent, service.repo
      ensures Valid()
      ensures old(context.authentication).None? ==>
        r == Failure(NullPointerException) && context.authentication == None
        && service.repo.rows == old(service.repo.rows) && service.repo.nextId == old(service.repo.nextId)
        && service.sent == old(service.sent)
      ensures old(context.authentication).Some? ==>
        var e := AddToCart(service.upstream, old(service.repo.rows), old(service.repo.nextId), productId,
                           old(context.authentication).value.GetDetails());
        service.repo.rows == e.rows && service.repo.nextId == e.nextId && service.sent == old(service.sent) + e.sent
        && (e.reply.Fail? ==> r == Failure(e.reply.error) && context.authentication == old(context.authentication))
        && (e.reply.Pass? ==> r == Success(Response(Ok, Text(ADDED))) && context.authentication == None)
    {
      if context.authentication.None? {
        return Failure(NullPointerException);
      }
      var authentication := context.authentication.value;
      var principalId := authentication.GetDetails();
      var saved := service.SaveCartItem(productId, principalId);
      if saved.Fail? {
        return Failure(saved.error);
      }
      context.SetAuthentication(None);
      r := Success(Response(Ok, Text(ADDED)));
    }

    /** `DELETE /cart`: empties the caller's cart. */
    method RemoveCart() returns (r: Result<Response<()>>)
      requires Valid()
      modifies context, service.repo
      ensures Valid()
      ensures old(context.authentication).None? ==>
        r == Failure(NullPointerException) && context.authentication == None
        && service.repo.rows == old(service.repo.rows) && service.repo.nextId == old(service.repo.nextId)
      ensures old(context.authentication).Some? ==>
        var profile := old(context.authentication).value;
        var a := profile.GetDetails();
        context.authentication == None && service.repo.nextId == old(service.repo.nextId)
        && service.repo.rows == WithoutLinesOf(old(service.repo.rows), a)
        && r == Success(Response(Ok, Text(
             if |LinesOf(old(service.repo.rows), a)| == 0 then AlreadyEmptyText(profile.GetName())
             else EmptiedText(profile.GetName()))))
    {
      if context.authentication.None? {
        return Failure(NullPointerException);
      }
      var authentication := context.authentication.value;
      var principalId := authentication.GetDetails();
      var cart := service.RetrieveCart(principalId);
      if |cart| == 0 {
        WithoutEmptyCart(service.repo.rows, principalId);
        context.SetAuthentication(None);
        return Success(Response(Ok, Text(AlreadyEmptyText(authentication.GetName()))));
      }
      service.DeleteCart(principalId);
      context.SetAuthentication(None);
      r := Success(Response(Ok, Text(EmptiedText(authentication.GetName()))));
    }

    /** `POST /cart/confirm`: confirms the caller's cart, forwarding the
        request's Authorization header to the account service unchanged. The
        context is cleared before the service is called, so it is cleared
        also when the confirmation throws. */
    method ConfirmCart(authorization: Option<string>, date: string) returns (r: Result<Response<()>>)
      requires Valid()
      modifies context, service`sent, service.repo
      ensures Valid()
      ensures old(context.authentication).None? ==>
        r == Failure(NullPointerException) && context.authentication == None
        && service.repo.rows == old(service.repo.rows) && service.repo.nextId == old(service.repo.nextId)
        && service.sent == old(service.sent)
      ensures old(context.authentication).Some? ==>
        var profile := old(context.authentication).value;
        var a := profile.GetDetails();
        context.authentication == None
        && (|LinesOf(old(service.repo.rows), a)| == 0 ==>
              r == Success(Response(Ok, Text(NothingToConfirmText(profile.GetName()))))
              && service.repo.rows == old(service.repo.rows) && service.repo.nextId == old(service.repo.nextId)
              && service.sent == old(service.sent))
        && (|LinesOf(old(service.repo.rows), a)| > 0 ==>
              var e := Checkout(service.upstream, old(service.repo.rows), old(service.repo.nextId), a, authorization,
                                date, service.decimalText);
              service.repo.rows == e.rows && service.repo.nextId == e.nextId && service.sent == old(service.sent) + e.sent
              && (e.reply.Failure? ==> r == Failure(e.reply.error))
              && (e.reply.Success? ==> r == Success(Response(Ok, Text(e.reply.value)))))
    {
      if context.authentication.None? {
        return Failure(NullPointerException);
      }
      var authentication := context.authentication.value;
      var principalId := authentication.GetDetails();
      var cart := service.RetrieveCart(principalId);
      context.SetAuthentication(None);
      if |cart| == 0 {
        return Success(Response(Ok, Text(NothingToConfirmText(authentication.GetName()))));
      }
      var confirmationMessage := service.ConfirmCart(principalId, authorization, date);
      if confirmationMessage.Failure? {
        return Failure(confirmationMessage.error);
      }
      r := Success(Response(Ok, Text(confirmationMessage.value)));
    }
  }

  /** Emptying a cart that holds no lines changes nothing. */
  lemma WithoutEmptyCart(rows: seq<Row<CartLine>>, a: Option<int>)
    requires |LinesOf(rows, a)| == 0
    ensures WithoutLinesOf(rows, a) == rows
  {
    FilterMembers(rows, Owned(LineOwner, a));
    assert Filter(rows, Owned(LineOwner, a)) == [];
    forall x | x in rows ensures NotOwned(LineOwner, a)(x) {
      assert x !in Filter(rows, Owned(LineOwner, a));
    }
    FilterAll(rows, NotOwned(LineOwner, a));
  }
}
