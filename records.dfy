/** The column values of the entities the services store, without their
    generated primary keys (those live in `Tables.Row`). Java's nullable
    fields are `Option`s; `BigDecimal` amounts are exact reals. */
module Records {
  import opened Common

  /** A cart line (the cart service's `CartItem` entity). */
  datatype CartLine = CartLine(
    productId: Option<int>,
    accountId: Option<int>,
    name: Option<string>,
    price: Option<real>,
    quantity: Option<int>)

  /** An order (the cart service's `Order` draft and the order service's stored order). */
  datatype OrderData = OrderData(
    accountId: Option<int>,
    addressee: Option<string>,
    address: Option<string>,
    cost: Option<real>,
    date: Option<string>)

  /** An account of the account service. */
  datatype AccountData = AccountData(
    name: Option<string>,
    surname: Option<string>,
    address: Option<string>,
    username: Option<string>,
    password: Option<string>)

  /** A product of the catalogue service. */
  datatype ProductData = ProductData(
    name: Option<string>,
    category: Option<string>,
    price: Option<real>,
    color: Option<string>)
}
