/** The cart service's two mutable beans: `CartItem`, the JPA entity of a cart
    line, and `Order`, the draft the checkout posts to the order service.
    Each setter writes one field only, which its `modifies` frame enforces. */
module CartEntities {
  import opened Common
  import opened JavaText
  import opened Records

  /** `"" + x` for a nullable `BigDecimal`, given how a value is rendered. */
  function DecimalText(x: Option<real>, decimalText: real -> string): string
  {
    match x
    case None => "null"
    case Some(v) => decimalText(v)
  }

  /** Each key followed by its value: the entries of a `toString`. */
  function Labelled(keys: seq<string>, values: seq<string>): (e: seq<string>)
    requires |keys| == |values|
    ensures |e| == |keys|
  {
    seq(|keys|, i requires 0 <= i < |keys| => keys[i] + values[i])
  }

  const CART_ITEM_KEYS: seq<string> :=
    ["cartItemId=", "cartItemProductId=", "cartItemAccountId=", "cartItemName='", "cartItemPrice=", "cartItemQuantity="]

  /** The values `CartItem.toString` writes after its keys. */
  function CartItemValues(id: Option<int>, line: CartLine, decimalText: real -> string): seq<string>
  {
    [NullableIntText(id), NullableIntText(line.productId), NullableIntText(line.accountId),
     NullableText(line.name) + "'", DecimalText(line.price, decimalText), NullableIntText(line.quantity)]
  }

  /** `CartItem.toString`. */
  function CartItemText(id: Option<int>, line: CartLine, decimalText: real -> string): string
  {
    "CartItem{" + Join(Labelled(CART_ITEM_KEYS, CartItemValues(id, line, decimalText)), ", ") + "}"
  }

  const ORDER_KEYS: seq<string> := ["orderId=", "accountId=", "addressee='", "address='", "cost=", "date="]

  /** The values `Order.toString` writes after its keys. */
  function OrderValues(id: Option<int>, order: OrderData, decimalText: real -> string): seq<string>
  {
    [NullableIntText(id), NullableIntText(order.accountId), NullableText(order.addressee) + "'",
     NullableText(order.address) + "'", DecimalText(order.cost, decimalText), NullableText(order.date)]
  }

  /** `Order.toString`. */
  function OrderText(id: Option<int>, order: OrderData, decimalText: real -> string): string
  {
    "Order{" + Join(Labelled(ORDER_KEYS, OrderValues(id, order, decimalText)), ", ") + "}"
  }

  /** The text of a nullable integer has no comma. */
  lemma IntTextNoComma(i: Option<int>)
    ensures ',' !in NullableIntText(i)
  {
    if i.Some? {
      var n := if i.value < 0 then -i.value else i.value;
      var digits := NatText(n);
      assert ',' !in digits by {
        forall k | 0 <= k < |digits| ensures digits[k] != ',' {
          assert '0' <= digits[k] <= '9';
        }
      }
      assert IntText(i.value) == digits || IntText(i.value) == "-" + digits;
    }
  }

  /** Comma-free keys and values, labelled and joined with ", " between a
      prefix and "}", split back into entries that each start with their key
      and continue with their value. */
  lemma {:induction false} EntriesReadBack(prefix: string, keys: seq<string>, values: seq<string>)
    requires |keys| == |values| >= 2 && keys[|keys| - 1] != ""
    requires forall i :: 0 <= i < |keys| ==> ',' !in keys[i] && ',' !in values[i]
    ensures var t := prefix + Join(Labelled(keys, values), ", ") + "}";
      |t| > |prefix| && t[..|prefix|] == prefix && t[|t| - 1] == '}'
      && var e := Split(t[|prefix|..|t| - 1], ", ");
      |e| == |keys|
      && forall i :: 0 <= i < |e| ==> |keys[i]| <= |e[i]| && e[i][..|keys[i]|] == keys[i] && e[i][|keys[i]|..] == values[i]
  {
    var e := Labelled(keys, values);
    forall i | 0 <= i < |e| ensures SeparatorFree(e[i], ", ") && e[i][..|keys[i]|] == keys[i] && e[i][|keys[i]|..] == values[i] {
      NoCommaSeparatorFree(e[i]);
    }
    SplitOfJoin(e, ", ");
    var t := prefix + Join(e, ", ") + "}";
    assert t[|prefix|..|t| - 1] == Join(e, ", ");
  }

  /** `CartItem.toString` reads back: between "CartItem{" and "}" the text
      splits at ", " into six entries, which name the fields in declaration
      order, each followed by that field's value, as long as the name and the
      price's rendering hold no comma. */
  lemma CartItemTextLayout(id: Option<int>, line: CartLine, decimalText: real -> string)
    requires ',' !in NullableText(line.name) && ',' !in DecimalText(line.price, decimalText)
    ensures var t := CartItemText(id, line, decimalText);
      |t| >= 10 && t[..9] == "CartItem{" && t[|t| - 1] == '}'
      && var e := Split(t[9..|t| - 1], ", ");
      var v := CartItemValues(id, line, decimalText);
      |e| == |CART_ITEM_KEYS|
      && forall i :: 0 <= i < |e| ==>
           |CART_ITEM_KEYS[i]| <= |e[i]| && e[i][..|CART_ITEM_KEYS[i]|] == CART_ITEM_KEYS[i] && e[i][|CART_ITEM_KEYS[i]|..] == v[i]
  {
    var v := CartItemValues(id, line, decimalText);
    IntTextNoComma(id);
    IntTextNoComma(line.productId);
    IntTextNoComma(line.accountId);
    IntTextNoComma(line.quantity);
    assert ',' !in v[3];
    EntriesReadBack("CartItem{", CART_ITEM_KEYS, v);
  }

  /** `Order.toString` reads back: between "Order{" and "}" the text splits
      at ", " into six entries, which name orderId, accountId, addressee,
      address, cost and date in that order, each followed by that field's
      value, as long as the addressee, the address, the cost's rendering and
      the date hold no comma. */
  lemma OrderTextLayout(id: Option<int>, order: OrderData, decimalText: real -> string)
    requires ',' !in NullableText(order.addressee) && ',' !in NullableText(order.address)
    requires ',' !in DecimalText(order.cost, decimalText) && ',' !in NullableText(order.date)
    ensures var t := OrderText(id, order, decimalText);
      |t| >= 7 && t[..6] == "Order{" && t[|t| - 1] == '}'
      && var e := Split(t[6..|t| - 1], ", ");
      var v := OrderValues(id, order, decimalText);
      |e| == |ORDER_KEYS|
      && forall i :: 0 <= i < |e| ==>
           |ORDER_KEYS[i]| <= |e[i]| && e[i][..|ORDER_KEYS[i]|] == ORDER_KEYS[i] && e[i][|ORDER_KEYS[i]|..] == v[i]
  {
    var v := OrderValues(id, order, decimalText);
    IntTextNoComma(id);
    IntTextNoComma(order.accountId);
    assert ',' !in v[2] && ',' !in v[3];
    EntriesReadBack("Order{", ORDER_KEYS, v);
  }

  class CartItem {
    var cartItemId: Option<int>
    var cartItemProductId: Option<int>
    var cartItemAccountId: Option<int>
    var cartItemName: Option<string>
    var cartItemPrice: Option<real>
    var cartItemQuantity: Option<int>

    /** The line's column values. */
    function Line(): CartLine
      reads this
    {
      CartLine(cartItemProductId, cartItemAccountId, cartItemName, cartItemPrice, cartItemQuantity)
    }

    /** The default constructor: every field null except the quantity, initialised to 0. */
    constructor ()
      ensures cartItemId == None
      ensures Line() == CartLine(None, None, None, None, Some(0))
    {
      cartItemId := None;
      cartItemProductId := None;
      cartItemAccountId := None;
      cartItemName := None;
      cartItemPrice := None;
      cartItemQuantity := Some(0);
    }

    /** The five-argument constructor; the id stays unset until the item is saved. */
    constructor Of(productId: Option<int>, accountId: Option<int>, name: Option<string>,
                   price: Option<real>, quantity: Option<int>)
      ensures cartItemId == None
      ensures Line() == CartLine(productId, accountId, name, price, quantity)
    {
      cartItemId := None;
      cartItemProductId := productId;
      cartItemAccountId := accountId;
      cartItemName := name;
      cartItemPrice := price;
      cartItemQuantity := quantity;
    }

    function GetCartItemId(): Option<int> reads this { cartItemId }
    function GetCartItemProductId(): Option<int> reads this { cartItemProductId }
    function GetCartItemAccountId(): Option<int> reads this { cartItemAccountId }
    function GetCartItemName(): Option<string> reads this { cartItemName }
    function GetCartItemPrice(): Option<real> reads this { cartItemPrice }
    function GetCartItemQuantity(): Option<int> reads this { cartItemQuantity }

    method SetCartItemId(id: Option<int>)
      modifies this`cartItemId
      ensures GetCartItemId() == id
    {
      cartItemId := id;
    }

    method SetCartItemProductId(productId: Option<int>)
      modifies this`cartItemProductId
      ensures GetCartItemProductId() == productId
    {
      cartItemProductId := productId;
    }

    method SetCartItemAccountId(accountId: Option<int>)
      modifies this`cartItemAccountId
      ensures GetCartItemAccountId() == accountId
    {
      cartItemAccountId := accountId;
    }

    method SetCartItemName(name: Option<string>)
      modifies this`cartItemName
      ensures GetCartItemName() == name
    {
      cartItemName := name;
    }

    /** The price setter is named after the cost but writes the price field. */
    method SetCartItemCost(cost: Option<real>)
      modifies this`cartItemPrice
      ensures GetCartItemPrice() == cost
    {
      cartItemPrice := cost;
    }

    method SetCartItemQuantity(quantity: Option<int>)
      modifies this`cartItemQuantity
      ensures GetCartItemQuantity() == quantity
    {
      cartItemQuantity := quantity;
    }

    function ToString(decimalText: real -> string): string
      reads this
    {
      CartItemText(cartItemId, Line(), decimalText)
    }
  }

  class Order {
    var orderId: Option<int>
    var accountId: Option<int>
    var addressee: Option<string>
    var address: Option<string>
    var cost: Option<real>
    var date: Option<string>

    /** The order's column values. */
    function Data(): OrderData
      reads this
    {
      OrderData(accountId, addressee, address, cost, date)
    }

    /** The default constructor: every field null. */
    constructor ()
      ensures orderId == None
      ensures Data() == OrderData(None, None, None, None, None)
    {
      orderId := None;
      accountId := None;
      addressee := None;
      address := None;
      cost := None;
      date := None;
    }

    /** The five-argument constructor; the order id stays unset. */
    constructor Of(accountId: Option<int>, addressee: Option<string>, address: Option<string>,
                   cost: Option<real>, date: Option<string>)
      ensures orderId == None
      ensures Data() == OrderData(accountId, addressee, address, cost, date)
    {
      orderId := None;
      this.accountId := accountId;
      this.addressee := addressee;
      this.address := address;
      this.cost := cost;
      this.date := date;
    }

    function GetOrderId(): Option<int> reads this { orderId }
    function GetAccountId(): Option<int> reads this { accountId }
    function GetAddressee(): Option<string> reads this { addressee }
    function GetAddress(): Option<string> reads this { address }
    function GetCost(): Option<real> reads this { cost }
    function GetDate(): Option<string> reads this { date }

    method SetOrderId(id: Option<int>)
      modifies this`orderId
      ensures GetOrderId() == id
    {
      orderId := id;
    }

    method SetAccountId(id: Option<int>)
      modifies this`accountId
      ensures GetAccountId() == id
    {
      accountId := id;
    }

    method SetAddressee(addressee: Option<string>)
      modifies this`addressee
      ensures GetAddressee() == addressee
    {
      this.addressee := addressee;
    }

    method SetAddress(address: Option<string>)
      modifies this`address
      ensures GetAddress() == address
    {
      this.address := address;
    }

    method SetCost(cost: Option<real>)
      modifies this`cost
      ensures GetCost() == cost
    {
      this.cost := cost;
    }

    method SetDate(date: Option<string>)
      modifies this`date
      ensures GetDate() == date
    {
      this.date := date;
    }

    function ToString(decimalText: real -> string): string
      reads this
    {
      OrderText(orderId, Data(), decimalText)
    }
  }
}
