/** `CartService`: adding a product to a cart at the price the catalogue
    service quotes, emptying a cart, and confirming a cart as an order
    addressed with the account service's data and posted to the order
    service.

    The other services are parameters (`Upstream`); every request the cart
    service sends is recorded. Each operation is specified by a function from
    the store before the call to its reply, the requests sent and the store
    after; the methods of `CartService` follow the source step by step and
    are proved to agree with those functions. */
module CartCheckout {
  import opened Common
  import opened JavaText
  import opened Tables
  import opened Records
  import opened CartEntities
  import opened CartStore

  // ----- the other services -----

  /** A JSON value as Jackson decodes it into `Object`. */
  datatype JsonValue = JsonString(text: string) | JsonDouble(number: real) | JsonInteger(whole: int) | JsonNull | JsonOther

  /** The catalogue's reply decoded into `Object`: a JSON object (a map),
      any other JSON value, or no body at all (null). */
  datatype ProductReply = JsonObject(fields: map<string, JsonValue>) | JsonScalar | EmptyBody

  /** A request the cart service sends to another service. */
  datatype Request =
    | ProductRequest(url: string)
    | AccountRequest(url: string, authorization: Option<string>)
    | OrderPost(url: string, order: OrderData)

  /** The other services as the cart service reaches them: the URIs the
      discovery client lists for the catalogue, the catalogue's product reply
      for a URL, the text of the account service's reply body for a URL and an
      authorization header (null when there is no body), and the order
      service's answer to a posted order. A failed call is the exception the
      REST client throws. */
  datatype Upstream = Upstream(
    catalogueInstances: seq<string>,
    getProduct: string -> Result<ProductReply>,
    getAccount: (string, Option<string>) -> Result<Option<string>>,
    postOrder: (string, OrderData) -> Outcome)

  const CATALOGUE_NOT_FOUND: string := "catalogue-microservice not found."
  const ORDER_URL: string := "http://order-microservice/orders/"

  function ProductUrl(instance: string, productId: Option<int>): string
  {
    instance + "/catalogue/products/id=" + NullableIntText(productId)
  }

  /** The account service's reply for account `a`. */
  function AccountReply(up: Upstream, a: Option<int>, authorization: Option<string>): Result<Option<string>>
  {
    up.getAccount(AccountUrl(a), authorization)
  }

  function AccountUrl(accountId: Option<int>): string
  {
    "http://account-microservice/accounts" + "/id=" + NullableIntText(accountId)
  }

  /** `((HashMap) reply).get(key)`: null for a missing key, a
      ClassCastException for a reply that is not an object, a
      NullPointerException for no reply. */
  function FieldOf(reply: ProductReply, key: string): Result<JsonValue>
  {
    match reply
    case EmptyBody => Failure(NullPointerException)
    case JsonScalar => Failure(ClassCastException)
    case JsonObject(fields) => Success(if key in fields then fields[key] else JsonNull)
  }

  /** The cast `(String) v`. */
  function AsString(v: JsonValue): Result<Option<string>>
  {
    match v
    case JsonString(t) => Success(Some(t))
    case JsonNull => Success(None)
    case _ => Failure(ClassCastException)
  }

  /** The cast `(Double) v`: a JSON number without a fractional part decodes
      to an Integer and fails the cast. */
  function AsDouble(v: JsonValue): Result<Option<real>>
  {
    match v
    case JsonDouble(d) => Success(Some(d))
    case JsonNull => Success(None)
    case _ => Failure(ClassCastException)
  }

  /** The product's name and price read from the catalogue's reply. */
  function ProductDetails(reply: ProductReply): (r: Result<(Option<string>, Option<real>)>)
    ensures r.Success? <==> (reply.JsonObject?
      && AsString(FieldOf(reply, "productName").value).Success?
      && AsDouble(FieldOf(reply, "productPrice").value).Success?)
  {
    match FieldOf(reply, "productName")
    case Failure(x) => Failure(x)
    case Success(n) =>
      match AsString(n)
      case Failure(x) => Failure(x)
      case Success(name) =>
        match FieldOf(reply, "productPrice")
        case Failure(x) => Failure(x)
        case Success(p) =>
          match AsDouble(p)
          case Failure(x) => Failure(x)
          case Success(price) => Success((name, price))
  }

  // ----- what the operations do to the store -----

  /** The reply of an operation, the requests it sent and the store it leaves. */
  datatype Effect<R> = Effect(reply: R, sent: seq<Request>, rows: seq<Row<CartLine>>, nextId: int)

  /** The catalogue's product reply for `url`, read into name and price. */
  function FetchDetails(up: Upstream, url: string): Result<(Option<string>, Option<real>)>
  {
    match up.getProduct(url)
    case Failure(x) => Failure(x)
    case Success(reply) => ProductDetails(reply)
  }

  /** What `saveCartItem` does to the store once it knows the product's name
      and price. */
  function StoreProduct(rows: seq<Row<CartLine>>, nextId: int, p: Option<int>, a: Option<int>,
                        name: Option<string>, price: Option<real>): (e: Effect<Outcome>)
    requires Keyed(rows, nextId)
    ensures Keyed(e.rows, e.nextId) && e.sent == []
    ensures e.reply.Fail? ==> e.rows == rows && e.nextId == nextId
  {
    match LineForProduct(rows, p)
    case Ambiguous => Effect(Fail(IncorrectResultSizeDataAccessException), [], rows, nextId)
    case Absent => NewLineEffect(rows, nextId, p, a, name, price)
    case Unique(row) =>
      if row.data.accountId.None? then Effect(Fail(NullPointerException), [], rows, nextId)
      else if row.data.accountId != a then Effect(Pass, [], rows, nextId)
      else IncrementEffect(rows, nextId, row)
  }

  /** A new line with quantity 1 at the quoted price; no price throws NullPointerException. */
  function NewLineEffect(rows: seq<Row<CartLine>>, nextId: int, p: Option<int>, a: Option<int>,
                         name: Option<string>, price: Option<real>): Effect<Outcome>
    requires Keyed(rows, nextId)
  {
    if price.None? then Effect(Fail(NullPointerException), [], rows, nextId)
    else
      var s := Tables.Save(rows, nextId, None, CartLine(p, a, name, price, Some(1)));
      Effect(Pass, [], s.rows, s.nextId)
  }

  /** `row` saved with its quantity incremented; no quantity throws NullPointerException. */
  function IncrementEffect(rows: seq<Row<CartLine>>, nextId: int, row: Row<CartLine>): Effect<Outcome>
    requires Keyed(rows, nextId)
  {
    if row.data.quantity.None? then Effect(Fail(NullPointerException), [], rows, nextId)
    else
      var s := Tables.Save(rows, nextId, Some(row.id), row.data.(quantity := Some(WrapInt32(row.data.quantity.value + 1))));
      Effect(Pass, [], s.rows, s.nextId)
  }

  /** `saveCartItem(p, a)`: the product is looked up in the catalogue first.
      A product no cart holds gets a new line of quantity 1 in `a`'s cart; a
      product already in `a`'s cart has its quantity incremented (with
      Integer wrap-around); a product in another account's cart is left
      alone. */
  function AddToCart(up: Upstream, rows: seq<Row<CartLine>>, nextId: int, p: Option<int>, a: Option<int>): (e: Effect<Outcome>)
    requires Keyed(rows, nextId)
    ensures Keyed(e.rows, e.nextId)
    ensures e.reply.Fail? ==> e.rows == rows && e.nextId == nextId
  {
    if |up.catalogueInstances| == 0 then Effect(Fail(RuntimeException(CATALOGUE_NOT_FOUND)), [], rows, nextId)
    else
      var url := ProductUrl(up.catalogueInstances[0], p);
      match FetchDetails(up, url)
      case Failure(x) => Effect(Fail(x), [ProductRequest(url)], rows, nextId)
      case Success(details) => StoreProduct(rows, nextId, p, a, details.0, details.1).(sent := [ProductRequest(url)])
  }

  /** Every line has a price and a quantity, as the total needs. */
  predicate AllPriced(lines: seq<Row<CartLine>>)
  {
    forall i :: 0 <= i < |lines| ==> lines[i].data.price.Some? && lines[i].data.quantity.Some?
  }

  /** `price * quantity` of one line. */
  function Amount(line: CartLine): real
    requires line.price.Some? && line.quantity.Some?
  {
    line.price.value * line.quantity.value as real
  }

  /** The sum of the lines' amounts, added up from the first line on. */
  function Total(lines: seq<Row<CartLine>>): real
    requires AllPriced(lines)
  {
    if |lines| == 0 then 0.0
    else Total(lines[..|lines| - 1]) + Amount(lines[|lines| - 1].data)
  }

  /** The confirmation's line for one cart line. */
  function LineText(line: CartLine, decimalText: real -> string): string
    requires line.price.Some? && line.quantity.Some?
  {
    Join(["\t\t", IntText(line.quantity.value), "x ", NullableText(line.name), " (#ref ",
          NullableIntText(line.productId), "): ", decimalText(line.price.value), " euro(s) \n"], "")
  }

  function LinesText(lines: seq<Row<CartLine>>, decimalText: real -> string): string
    requires AllPriced(lines)
  {
    if |lines| == 0 then ""
    else LinesText(lines[..|lines| - 1], decimalText) + LineText(lines[|lines| - 1].data, decimalText)
  }

  /** The confirmation's heading, up to the list of products (the message
      texts here are written as the pieces the source concatenates). */
  function ConfirmationHead(date: string, name: Option<string>, surname: Option<string>, address: Option<string>): string
  {
    Join(["Cart confirmed with the following details: \n\t-> Date: ", date,
          "\n\t-> Addressee: ", NullableText(name), " ", NullableText(surname),
          "\n\t-> Address: ", NullableText(address), "\n\t-> Products: \n"], "")
  }

  function ConfirmationTail(total: real, decimalText: real -> string): string
  {
    Join(["\t-> Total cost: ", decimalText(total), " euro(s) \n"], "")
  }

  /** The order a confirmation posts. */
  function DraftOrder(a: Option<int>, name: Option<string>, surname: Option<string>, address: Option<string>,
                      total: real, date: string): OrderData
  {
    OrderData(a, Some(NullableText(name) + " " + NullableText(surname)), address, Some(total), Some(date))
  }

  /** The confirmation message for `lines`. */
  function Confirmation(date: string, name: Option<string>, surname: Option<string>, address: Option<string>,
                        lines: seq<Row<CartLine>>, decimalText: real -> string): string
    requires AllPriced(lines)
  {
    ConfirmationHead(date, name, surname, address) + LinesText(lines, decimalText)
    + ConfirmationTail(Total(lines), decimalText)
  }

  /** The name, surname and address read from the account's text. */
  function ReadAccount(body: string): Result<(Option<string>, Option<string>, Option<string>)>
  {
    var name := ValueOf(body, "accountName");
    var surname := ValueOf(body, "accountSurname");
    var address := ValueOf(body, "accountAddress");
    if name.Failure? then Failure(name.error)
    else if surname.Failure? then Failure(surname.error)
    else if address.Failure? then Failure(address.error)
    else Success((name.value, surname.value, address.value))
  }

  /** What `confirmCart` does once it has the account's name, surname and
      address: totals `a`'s lines, posts the order and only then empties
      `a`'s cart. */
  function PlaceOrder(up: Upstream, rows: seq<Row<CartLine>>, nextId: int, a: Option<int>,
                      name: Option<string>, surname: Option<string>, address: Option<string>,
                      date: string, decimalText: real -> string): (e: Effect<Result<string>>)
  {
    var lines := LinesOf(rows, a);
    if !AllPriced(lines) then Effect(Failure(NullPointerException), [], rows, nextId)
    else
      Posted(up, rows, nextId, a, DraftOrder(a, name, surname, address, Total(lines), date),
             Confirmation(date, name, surname, address, lines, decimalText))
  }

  /** Posting `order` for account `a`: once the order service accepts it,
      `a`'s cart is emptied and the reply is `message`. */
  function Posted(up: Upstream, rows: seq<Row<CartLine>>, nextId: int, a: Option<int>, order: OrderData,
                  message: string): Effect<Result<string>>
  {
    match up.postOrder(ORDER_URL, order)
    case Fail(x) => Effect(Failure(x), [OrderPost(ORDER_URL, order)], rows, nextId)
    case Pass => Effect(Success(message), [OrderPost(ORDER_URL, order)], WithoutLinesOf(rows, a), nextId)
  }

  /** `confirmCart(a, authorization)` at time `date`: fetches the account,
      reads name, surname and address from its text, then places the order. */
  function Checkout(up: Upstream, rows: seq<Row<CartLine>>, nextId: int, a: Option<int>, authorization: Option<string>,
                    date: string, decimalText: real -> string): (e: Effect<Result<string>>)
  {
    var url := AccountUrl(a);
    var request := AccountRequest(url, authorization);
    match AccountReply(up, a, authorization)
    case Failure(x) => Effect(Failure(x), [request], rows, nextId)
    case Success(None) => Effect(Failure(NullPointerException), [request], rows, nextId)
    case Success(Some(body)) =>
      var e := AfterAccount(up, rows, nextId, a, body, date, decimalText);
      e.(sent := [request] + e.sent)
  }

  /** The rest of `confirmCart` once the account's text `body` is in hand:
      reads name, surname and address from it, then places the order. */
  function AfterAccount(up: Upstream, rows: seq<Row<CartLine>>, nextId: int, a: Option<int>, body: string,
                              date: string, decimalText: real -> string): Effect<Result<string>>
  {
    match ReadAccount(body)
    case Failure(x) => Effect(Failure(x), [], rows, nextId)
    case Success(fields) => PlaceOrder(up, rows, nextId, a, fields.0, fields.1, fields.2, date, decimalText)
  }

  // ----- reading a field from the text of a map -----

  /** One element split at "=": its first two pieces, or nothing when there
      are fewer than two (reading them throws ArrayIndexOutOfBoundsException). */
  function KeyValue(element: string): Option<(string, string)>
  {
    var pieces := Split(element, "=");
    if |pieces| < 2 then None else Some((pieces[0], pieces[1]))
  }

  /** Every element cut at "=" into its key and value, or nothing. */
  function Cut(elements: seq<string>): (r: seq<Option<(string, string)>>)
    ensures |r| == |elements|
  {
    if |elements| == 0 then []
    else Cut(elements[..|elements| - 1]) + [KeyValue(elements[|elements| - 1])]
  }

  /** The `i`th element, cut. */
  lemma {:induction false} CutAt(elements: seq<string>, i: int)
    requires 0 <= i < |elements|
    ensures Cut(elements)[i] == KeyValue(elements[i])
  {
    if i < |elements| - 1 {
      CutAt(elements[..|elements| - 1], i);
    }
  }

  /** One step of `getValue`'s loop: the element's key and value put into
      the map read so far; an element without them throws. */
  function AddPair(parsed: Result<map<string, string>>, kv: Option<(string, string)>): Result<map<string, string>>
  {
    match parsed
    case Failure(x) => Failure(x)
    case Success(m) =>
      match kv
      case None => Failure(ArrayIndexOutOfBoundsException)
      case Some(pair) => Success(m[pair.0 := pair.1])
  }

  /** The map built from elements already cut at "=", a later key
      replacing an earlier one. */
  function PairsOf(cut: seq<Option<(string, string)>>): Result<map<string, string>>
  {
    if |cut| == 0 then Success(map[])
    else AddPair(PairsOf(cut[..|cut| - 1]), cut[|cut| - 1])
  }

  /** The map `getValue` builds from `key=value` elements. */
  function Pairs(elements: seq<string>): Result<map<string, string>>
  {
    PairsOf(Cut(elements))
  }

  /** `getValue` from the text of a map: the value stored under `key` in the map
      read from the text's ", "-separated elements, or null. */
  function ValueOf(text: string, key: string): Result<Option<string>>
  {
    match Pairs(Split(text, ", "))
    case Failure(x) => Failure(x)
    case Success(m) => Success(if key in m then Some(m[key]) else None)
  }

  lemma CutPrefix(elements: seq<string>, k: int)
    requires 0 <= k <= |elements|
    ensures Cut(elements[..k]) == Cut(elements)[..k]
  {
    forall i | 0 <= i < k
      ensures Cut(elements[..k])[i] == Cut(elements)[i]
    {
      CutAt(elements[..k], i);
      CutAt(elements, i);
    }
  }

  lemma CutAppend(elements: seq<string>, element: string)
    ensures Cut(elements + [element]) == Cut(elements) + [KeyValue(element)]
  {
    var more := elements + [element];
    assert more[..|more| - 1] == elements;
  }

  /** The loop's step: one more element read. */
  lemma PairsStep(elements: seq<string>, i: int)
    requires 0 <= i < |elements|
    ensures Pairs(elements[..i + 1]) == AddPair(Pairs(elements[..i]), KeyValue(elements[i]))
  {
    CutPrefix(elements, i + 1);
    CutPrefix(elements, i);
    var c := Cut(elements)[..i + 1];
    assert c[..i] == Cut(elements)[..i];
  }

  /** Once a prefix of the cut elements fails, the whole fold fails the same way. */
  lemma {:induction false} PairsOfFailurePersists(cut: seq<Option<(string, string)>>, k: nat)
    requires k <= |cut| && PairsOf(cut[..k]).Failure?
    ensures PairsOf(cut) == PairsOf(cut[..k])
    decreases |cut|
  {
    if k < |cut| {
      var init := cut[..|cut| - 1];
      assert init[..k] == cut[..k];
      PairsOfFailurePersists(init, k);
    } else {
      assert cut[..k] == cut;
    }
  }

  /** Once a prefix of the elements fails to parse, the whole parse fails the same way. */
  lemma PairsFailurePersists(elements: seq<string>, k: nat)
    requires k <= |elements| && Pairs(elements[..k]).Failure?
    ensures Pairs(elements) == Pairs(elements[..k])
  {
    CutPrefix(elements, k);
    PairsOfFailurePersists(Cut(elements), k);
  }

  /** The fold fails exactly when some element was not cut into a key and
      a value, and then with ArrayIndexOutOfBoundsException. */
  lemma {:induction false} PairsOfFailure(cut: seq<Option<(string, string)>>)
    ensures PairsOf(cut).Failure? <==> exists i :: 0 <= i < |cut| && cut[i].None?
    ensures PairsOf(cut).Failure? ==> PairsOf(cut).error == ArrayIndexOutOfBoundsException
  {
    if |cut| > 0 {
      var init, last := cut[..|cut| - 1], cut[|cut| - 1];
      PairsOfFailure(init);
      if PairsOf(init).Failure? {
        var i :| 0 <= i < |init| && init[i].None?;
        assert cut[i] == init[i];
      } else if last.None? {
        assert PairsOf(cut) == Failure(ArrayIndexOutOfBoundsException);
      } else {
        forall i | 0 <= i < |cut|
          ensures cut[i].Some?
        {
          if i < |init| {
            assert cut[i] == init[i];
          }
        }
      }
    }
  }

  /** The parse fails exactly when some element does not split into a key
      and a value, and then always with ArrayIndexOutOfBoundsException. */
  lemma PairsFailure(elements: seq<string>)
    ensures Pairs(elements).Failure? <==> exists i :: 0 <= i < |elements| && KeyValue(elements[i]).None?
    ensures Pairs(elements).Failure? ==> Pairs(elements).error == ArrayIndexOutOfBoundsException
  {
    forall i | 0 <= i < |elements|
      ensures Cut(elements)[i] == KeyValue(elements[i])
    {
      CutAt(elements, i);
    }
    PairsOfFailure(Cut(elements));
  }

  /** An element without "=" makes the whole parse fail. */
  lemma ElementWithoutEquals(elements: seq<string>, i: int)
    requires 0 <= i < |elements| && '=' !in elements[i]
    ensures Pairs(elements) == Failure(ArrayIndexOutOfBoundsException)
  {
    CharAbsent(elements[i], '=');
    SplitWithoutSeparator(elements[i], "=");
    assert KeyValue(elements[i]).None?;
    PairsFailure(elements);
  }

  /** `key + "=" + value`, the text of one map entry. */
  function EntryText(entry: (string, string)): string
  {
    entry.0 + "=" + entry.1
  }

  /** A key and a value that `getValue` reads back intact: neither holds a
      comma or "=", and the value is not empty. */
  predicate Clean(entry: (string, string))
  {
    ',' !in entry.0 && '=' !in entry.0 && ',' !in entry.1 && '=' !in entry.1 && entry.1 != ""
  }

  function EntryTexts(entries: seq<(string, string)>): (r: seq<string>)
    ensures |r| == |entries|
    ensures forall i :: 0 <= i < |r| ==> r[i] == EntryText(entries[i])
  {
    if |entries| == 0 then []
    else EntryTexts(entries[..|entries| - 1]) + [EntryText(entries[|entries| - 1])]
  }

  /** The map a sequence of entries denotes, later keys replacing earlier ones. */
  function MapOf(entries: seq<(string, string)>): map<string, string>
  {
    if |entries| == 0 then map[]
    else MapOf(entries[..|entries| - 1])[entries[|entries| - 1].0 := entries[|entries| - 1].1]
  }

  /** A clean entry's text splits at "=" into its key and value. */
  lemma SplitEntry(entry: (string, string))
    requires Clean(entry)
    ensures KeyValue(EntryText(entry)) == Some(entry)
  {
    var parts := [entry.0, entry.1];
    assert Join(parts, "=") == EntryText(entry);
    SingleCharSeparatorFree(entry.0, '=');
    SingleCharSeparatorFree(entry.1, '=');
    SplitOfJoin(parts, "=");
  }

  /** Elements all cut into the given entries fold into the map those entries denote. */
  lemma {:induction false} PairsOfPresent(cut: seq<Option<(string, string)>>, entries: seq<(string, string)>)
    requires |cut| == |entries|
    requires forall i :: 0 <= i < |cut| ==> cut[i] == Some(entries[i])
    ensures PairsOf(cut) == Success(MapOf(entries))
  {
    if |cut| > 0 {
      PairsOfPresent(cut[..|cut| - 1], entries[..|entries| - 1]);
    }
  }

  /** Clean entries parse back into the map they denote. */
  lemma PairsOfEntries(entries: seq<(string, string)>)
    requires forall i :: 0 <= i < |entries| ==> Clean(entries[i])
    ensures Pairs(EntryTexts(entries)) == Success(MapOf(entries))
  {
    var cut := Cut(EntryTexts(entries));
    forall i | 0 <= i < |entries|
      ensures cut[i] == Some(entries[i])
    {
      CutAt(EntryTexts(entries), i);
      SplitEntry(entries[i]);
    }
    PairsOfPresent(cut, entries);
  }

  /** A clean entry appended to parsable elements updates the parsed map. */
  lemma PairsSnoc(elements: seq<string>, entry: (string, string))
    requires Clean(entry) && Pairs(elements).Success?
    ensures Pairs(elements + [EntryText(entry)]) == Success(Pairs(elements).value[entry.0 := entry.1])
  {
    CutAppend(elements, EntryText(entry));
    SplitEntry(entry);
    var cut := Cut(elements) + [KeyValue(EntryText(entry))];
    assert cut[..|cut| - 1] == Cut(elements);
  }

  /** When a key occurs twice, the later value is the one read. */
  lemma LaterEntryWins(elements: seq<string>, key: string, first: string, second: string)
    requires Clean((key, first)) && Clean((key, second))
    requires Pairs(elements).Success?
    ensures Pairs(elements + [EntryText((key, first)), EntryText((key, second))])
            == Success(Pairs(elements).value[key := second])
  {
    var m := Pairs(elements).value;
    assert m[key := first][key := second] == m[key := second];
    var once := elements + [EntryText((key, first))];
    assert elements + [EntryText((key, first)), EntryText((key, second))] == once + [EntryText((key, second))];
    PairsSnoc(elements, (key, first));
    PairsSnoc(once, (key, second));
  }

  /** The fields of an account in the order the account service's reply
      lists them; the map's braces stick to the first key and the last value. */
  function AccountEntries(id: int, account: AccountData): seq<(string, string)>
  {
    [("{accountId", IntText(id)),
     ("accountName", NullableText(account.name)),
     ("accountSurname", NullableText(account.surname)),
     ("accountAddress", NullableText(account.address)),
     ("accountUsername", NullableText(account.username)),
     ("accountPassword", NullableText(account.password) + "}")]
  }

  /** The text of the account service's reply for an account
      (`{accountId=1, accountName=..., ..., accountPassword=...}`). */
  function AccountBody(id: int, account: AccountData): string
  {
    Join(EntryTexts(AccountEntries(id, account)), ", ")
  }

  lemma {:induction false} NatTextClean(n: nat)
    ensures ',' !in NatText(n) && '=' !in NatText(n) && '-' !in NatText(n)
  {
    var s := NatText(n);
    forall i | 0 <= i < |s| ensures s[i] != ',' && s[i] != '=' && s[i] != '-' {
      assert '0' <= s[i] <= '9';
    }
  }

  /** An account with readable fields: name, surname, address and username
      non-empty and free of commas and "=", a password free of both (a null
      field is written as "null"). */
  predicate ReadableAccount(account: AccountData)
  {
    Clean(("accountName", NullableText(account.name))) && Clean(("accountSurname", NullableText(account.surname)))
    && Clean(("accountAddress", NullableText(account.address))) && Clean(("accountUsername", NullableText(account.username)))
    && ',' !in NullableText(account.password) && '=' !in NullableText(account.password)
  }

  lemma AccountEntriesClean(id: int, account: AccountData)
    requires ReadableAccount(account)
    ensures forall i :: 0 <= i < |AccountEntries(id, account)| ==> Clean(AccountEntries(id, account)[i])
  {
    if id < 0 {
      NatTextClean(-id);
      assert IntText(id) == "-" + NatText(-id);
    } else {
      NatTextClean(id);
    }
  }

  /** The account's reply splits at ", " into its six entries. */
  lemma AccountBodyElements(id: int, account: AccountData)
    requires ReadableAccount(account)
    ensures Split(AccountBody(id, account), ", ") == EntryTexts(AccountEntries(id, account))
  {
    var entries := AccountEntries(id, account);
    var texts := EntryTexts(entries);
    AccountEntriesClean(id, account);
    forall i | 0 <= i < |texts| ensures SeparatorFree(texts[i], ", ") {
      assert ',' !in EntryText(entries[i]);
      NoCommaSeparatorFree(texts[i]);
    }
    SplitOfJoin(texts, ", ");
  }

  /** An account with readable fields has its name, surname and address
      read back intact from the account service's reply; a null field reads
      back as the text "null". */
  lemma AccountBodyValues(id: int, account: AccountData)
    requires ReadableAccount(account)
    ensures ValueOf(AccountBody(id, account), "accountName") == Success(Some(NullableText(account.name)))
    ensures ValueOf(AccountBody(id, account), "accountSurname") == Success(Some(NullableText(account.surname)))
    ensures ValueOf(AccountBody(id, account), "accountAddress") == Success(Some(NullableText(account.address)))
  {
    AccountBodyElements(id, account);
    AccountEntriesClean(id, account);
    PairsOfEntries(AccountEntries(id, account));
    AccountMap(id, account);
  }

  /** The map of six entries, built one update at a time. */
  lemma MapOfSix(e: seq<(string, string)>)
    requires |e| == 6
    ensures MapOf(e) == map[][e[0].0 := e[0].1][e[1].0 := e[1].1][e[2].0 := e[2].1]
                              [e[3].0 := e[3].1][e[4].0 := e[4].1][e[5].0 := e[5].1]
  {
    assert e[..1][..0] == [];
    assert MapOf(e[..1]) == map[][e[0].0 := e[0].1];
    assert e[..2][..1] == e[..1];
    assert MapOf(e[..2]) == MapOf(e[..1])[e[1].0 := e[1].1];
    assert e[..3][..2] == e[..2];
    assert MapOf(e[..3]) == MapOf(e[..2])[e[2].0 := e[2].1];
    assert e[..4][..3] == e[..3];
    assert MapOf(e[..4]) == MapOf(e[..3])[e[3].0 := e[3].1];
    assert e[..5][..4] == e[..4];
    assert MapOf(e[..5]) == MapOf(e[..4])[e[4].0 := e[4].1];
    assert e[..5] == e[..|e| - 1];
  }

  /** Name, surname and address are keys of the account's map, each once. */
  lemma AccountMap(id: int, account: AccountData)
    ensures var m := MapOf(AccountEntries(id, account));
      && "accountName" in m && m["accountName"] == NullableText(account.name)
      && "accountSurname" in m && m["accountSurname"] == NullableText(account.surname)
      && "accountAddress" in m && m["accountAddress"] == NullableText(account.address)
  {
    var e := AccountEntries(id, account);
    MapOfSix(e);
    assert "accountSurname"[7] != "accountAddress"[7];
    assert |"accountName"| != |"accountSurname"|;
    assert |"accountUsername"| != |"accountName"| && |"accountUsername"| != |"accountSurname"|;
    assert |"accountPassword"| != |"accountName"| && |"accountPassword"| != |"accountSurname"|;
  }

  /** An address holding ", " splits the reply into an element without "=",
      so confirming the cart fails whatever the rest of the account says. */
  lemma CommaInAddressBreaksParse(before: seq<string>, street: string, rest: string, after: seq<string>, key: string)
    requires '=' !in rest && |after| > 0
    ensures var elements := before + [EntryText(("accountAddress", street)), rest] + after;
      Pairs(elements) == Failure(ArrayIndexOutOfBoundsException)
  {
    var elements := before + [EntryText(("accountAddress", street)), rest] + after;
    assert elements[|before| + 1] == rest;
    ElementWithoutEquals(elements, |before| + 1);
  }

  // ----- properties of the specification -----

  /** Totals add up over concatenation. */
  lemma {:induction false} TotalAppend(xs: seq<Row<CartLine>>, ys: seq<Row<CartLine>>)
    requires AllPriced(xs) && AllPriced(ys)
    ensures AllPriced(xs + ys)
    ensures Total(xs + ys) == Total(xs) + Total(ys)
    decreases |ys|
  {
    assert forall i :: 0 <= i < |xs + ys| ==> (xs + ys)[i] == if i < |xs| then xs[i] else ys[i - |xs|];
    if |ys| > 0 {
      var init := ys[..|ys| - 1];
      assert (xs + ys)[..|xs + ys| - 1] == xs + init;
      TotalAppend(xs, init);
    } else {
      assert xs + ys == xs;
    }
  }

  /** Lines with non-negative prices and quantities never total below zero. */
  lemma {:induction false} TotalNonNegative(lines: seq<Row<CartLine>>)
    requires AllPriced(lines)
    requires forall i :: 0 <= i < |lines| ==> lines[i].data.price.value >= 0.0 && lines[i].data.quantity.value >= 0
    ensures Total(lines) >= 0.0
  {
    if |lines| > 0 {
      TotalNonNegative(lines[..|lines| - 1]);
      var last := lines[|lines| - 1].data;
      assert last.price.value * last.quantity.value as real >= 0.0;
    }
  }

  /** Without a catalogue instance nothing is sent and nothing changes. */
  lemma AddToCartWithoutCatalogue(up: Upstream, rows: seq<Row<CartLine>>, nextId: int, p: Option<int>, a: Option<int>)
    requires Keyed(rows, nextId) && |up.catalogueInstances| == 0
    ensures AddToCart(up, rows, nextId, p, a) == Effect(Fail(RuntimeException(CATALOGUE_NOT_FOUND)), [], rows, nextId)
  {
  }

  /** With a catalogue instance, exactly one request is sent: the product
      request to the first instance listed. */
  lemma AddToCartAsksFirstInstance(up: Upstream, rows: seq<Row<CartLine>>, nextId: int, p: Option<int>, a: Option<int>)
    requires Keyed(rows, nextId) && |up.catalogueInstances| > 0
    ensures AddToCart(up, rows, nextId, p, a).sent == [ProductRequest(ProductUrl(up.catalogueInstances[0], p))]
  {
  }

  /** A priced product no cart holds becomes a new line of quantity 1 at
      the end of `a`'s cart; every other account's cart is unchanged. */
  lemma AddToCartNewLine(up: Upstream, rows: seq<Row<CartLine>>, nextId: int, p: Option<int>, a: Option<int>,
                         name: Option<string>, price: real, b: Option<int>)
    requires Keyed(rows, nextId) && |up.catalogueInstances| > 0
    requires up.getProduct(ProductUrl(up.catalogueInstances[0], p)).Success?
    requires ProductDetails(up.getProduct(ProductUrl(up.catalogueInstances[0], p)).value) == Success((name, Some(price)))
    requires forall i :: 0 <= i < |rows| ==> rows[i].data.productId != p
    ensures var e := AddToCart(up, rows, nextId, p, a);
      e.reply == Pass && e.nextId == nextId + 1
      && LinesOf(e.rows, a) == LinesOf(rows, a) + [Row(nextId, CartLine(p, a, name, Some(price), Some(1)))]
      && (b != a ==> LinesOf(e.rows, b) == LinesOf(rows, b))
      && LineForProduct(e.rows, p) == Unique(Row(nextId, CartLine(p, a, name, Some(price), Some(1))))
  {
    StoreNewLine(rows, nextId, p, a, name, price, b);
  }

  /** The store side of a new line: appended under the next key, it joins
      `a`'s lines and is the product's only line. */
  lemma StoreNewLine(rows: seq<Row<CartLine>>, nextId: int, p: Option<int>, a: Option<int>,
                     name: Option<string>, price: real, b: Option<int>)
    requires Keyed(rows, nextId)
    requires forall i :: 0 <= i < |rows| ==> rows[i].data.productId != p
    ensures var e := StoreProduct(rows, nextId, p, a, name, Some(price));
      var row := Row(nextId, CartLine(p, a, name, Some(price), Some(1)));
      e.reply == Pass && e.nextId == nextId + 1 && e.rows == rows + [row]
      && LinesOf(e.rows, a) == LinesOf(rows, a) + [row]
      && (b != a ==> LinesOf(e.rows, b) == LinesOf(rows, b))
      && LineForProduct(e.rows, p) == Unique(row)
  {
    var row := Row(nextId, CartLine(p, a, name, Some(price), Some(1)));
    assert LineForProduct(rows, p) == Absent;
    assert StoreProduct(rows, nextId, p, a, name, Some(price)) == Effect(Pass, [], rows + [row], nextId + 1);
    FilterAppend(rows, [row], Owned(LineOwner, a));
    FilterSingle(row, Owned(LineOwner, a));
    FilterAppend(rows, [row], Owned(LineOwner, b));
    FilterSingle(row, Owned(LineOwner, b));
    FilterAppend(rows, [row], ForProduct(p));
    FilterSingle(row, ForProduct(p));
    FilterNone(rows, ForProduct(p));
  }

  /** A product already in `a`'s cart has its quantity raised by one (wrapping
      at the largest Integer) in place; no other line changes. */
  lemma AddToCartOwnLine(up: Upstream, rows: seq<Row<CartLine>>, nextId: int, p: Option<int>, a: Option<int>, other: int)
    requires Keyed(rows, nextId) && |up.catalogueInstances| > 0
    requires up.getProduct(ProductUrl(up.catalogueInstances[0], p)).Success?
    requires ProductDetails(up.getProduct(ProductUrl(up.catalogueInstances[0], p)).value).Success?
    requires LineForProduct(rows, p).Unique?
    requires LineForProduct(rows, p).value.data.accountId == a && a.Some?
    requires LineForProduct(rows, p).value.data.quantity.Some?
    ensures var e := AddToCart(up, rows, nextId, p, a);
      var row := LineForProduct(rows, p).value;
      var q := row.data.quantity.value;
      e.reply == Pass && e.nextId == nextId
      && FindOne(e.rows, row.id) == Some(row.data.(quantity := Some(WrapInt32(q + 1))))
      && (other != row.id ==> FindOne(e.rows, other) == FindOne(rows, other))
  {
    var row := LineForProduct(rows, p).value;
    var updated := row.data.(quantity := Some(WrapInt32(row.data.quantity.value + 1)));
    FindAfterSave(rows, nextId, Some(row.id), updated, other);
  }

  /** A product that sits in another account's cart is silently not added. */
  lemma AddToCartForeignLine(up: Upstream, rows: seq<Row<CartLine>>, nextId: int, p: Option<int>, a: Option<int>)
    requires Keyed(rows, nextId) && |up.catalogueInstances| > 0
    requires up.getProduct(ProductUrl(up.catalogueInstances[0], p)).Success?
    requires ProductDetails(up.getProduct(ProductUrl(up.catalogueInstances[0], p)).value).Success?
    requires LineForProduct(rows, p).Unique?
    requires LineForProduct(rows, p).value.data.accountId.Some?
    requires LineForProduct(rows, p).value.data.accountId != a
    ensures var e := AddToCart(up, rows, nextId, p, a);
      e.reply == Pass && e.rows == rows && e.nextId == nextId
  {
  }

  /** Adding the same priced product twice to an empty store leaves `a`
      with one line for it, of quantity 2, at the quoted price, under the
      first key generated. */
  lemma AddTwiceToEmptyCart(up: Upstream, nextId: int, p: Option<int>, a: Option<int>, name: Option<string>, price: real)
    requires a.Some? && |up.catalogueInstances| > 0
    requires up.getProduct(ProductUrl(up.catalogueInstances[0], p)).Success?
    requires ProductDetails(up.getProduct(ProductUrl(up.catalogueInstances[0], p)).value) == Success((name, Some(price)))
    ensures var e1 := AddToCart(up, [], nextId, p, a);
      var e2 := AddToCart(up, e1.rows, e1.nextId, p, a);
      e1.reply == Pass && e2.reply == Pass && e2.nextId == nextId + 1
      && LinesOf(e2.rows, a) == [Row(nextId, CartLine(p, a, name, Some(price), Some(2)))]
  {
    var row := Row(nextId, CartLine(p, a, name, Some(price), Some(1)));
    StoreNewLine([], nextId, p, a, name, price, a);
    var e1 := AddToCart(up, [], nextId, p, a);
    assert e1.rows == [row] && e1.nextId == nextId + 1;
    var twice := Row(nextId, row.data.(quantity := Some(WrapInt32(1 + 1))));
    assert HasId([row], nextId);
    var s := Save([row], nextId + 1, Some(nextId), twice.data);
    assert s.rows == [twice];
    FilterSingle(twice, Owned(LineOwner, a));
  }

  /** Placing an order sends at most the order itself, keeps the key
      counter, and changes the store only when the order was accepted. */
  lemma PlaceOrderShape(up: Upstream, rows: seq<Row<CartLine>>, nextId: int, a: Option<int>,
                        name: Option<string>, surname: Option<string>, address: Option<string>,
                        date: string, decimalText: real -> string)
    ensures var e := PlaceOrder(up, rows, nextId, a, name, surname, address, date, decimalText);
      |e.sent| <= 1 && e.nextId == nextId
      && (e.reply.Failure? ==> e.rows == rows)
      && (e.reply.Success? ==> |e.sent| == 1 && e.rows == WithoutLinesOf(rows, a))
      && (|e.sent| == 1 ==>
            AllPriced(LinesOf(rows, a))
            && e.sent[0] == OrderPost(ORDER_URL, DraftOrder(a, name, surname, address, Total(LinesOf(rows, a)), date)))
  {
  }

  /** The same once the account's text is in hand: an order is posted only
      after name, surname and address have been read from it. */
  lemma AfterAccountShape(up: Upstream, rows: seq<Row<CartLine>>, nextId: int, a: Option<int>, body: string,
                          date: string, decimalText: real -> string)
    ensures var e := AfterAccount(up, rows, nextId, a, body, date, decimalText);
      |e.sent| <= 1 && e.nextId == nextId
      && (e.reply.Failure? ==> e.rows == rows)
      && (e.reply.Success? ==> |e.sent| == 1 && e.rows == WithoutLinesOf(rows, a))
      && (|e.sent| == 1 ==>
            var fields := ReadAccount(body);
            fields.Success? && AllPriced(LinesOf(rows, a))
            && e.sent[0] == OrderPost(ORDER_URL, DraftOrder(a, fields.value.0, fields.value.1, fields.value.2,
                                                           Total(LinesOf(rows, a)), date)))
  {
    var fields := ReadAccount(body);
    if fields.Success? {
      PlaceOrderShape(up, rows, nextId, a, fields.value.0, fields.value.1, fields.value.2, date, decimalText);
    }
  }

  /** A confirmation always asks the account service first; it posts an
      order only once the account's text has been read and every line is
      priced, and the cart is emptied only when the order service accepted
      the order. A failed confirmation leaves the store as it was. */
  lemma CheckoutOrder(up: Upstream, rows: seq<Row<CartLine>>, nextId: int, a: Option<int>, authorization: Option<string>,
                      date: string, decimalText: real -> string)
    ensures var e := Checkout(up, rows, nextId, a, authorization, date, decimalText);
      1 <= |e.sent| <= 2 && e.sent[0] == AccountRequest(AccountUrl(a), authorization)
      && e.nextId == nextId
      && (e.reply.Failure? ==> e.rows == rows)
      && (e.reply.Success? ==> |e.sent| == 2 && e.rows == WithoutLinesOf(rows, a))
      && (|e.sent| == 2 ==> e.sent[1].OrderPost? && e.sent[1].url == ORDER_URL && AllPriced(LinesOf(rows, a)))
  {
    var reply := AccountReply(up, a, authorization);
    if reply.Success? && reply.value.Some? {
      AfterAccountShape(up, rows, nextId, a, reply.value.value, date, decimalText);
    }
  }

  /** A successful confirmation posts an order for `a`, addressed to the
      account's name and surname at its address, costing the total of `a`'s
      lines and dated `date`; afterwards `a`'s cart is empty and every other
      cart is as it was. */
  lemma CheckoutSuccess(up: Upstream, rows: seq<Row<CartLine>>, nextId: int, a: Option<int>, authorization: Option<string>,
                        date: string, decimalText: real -> string, b: Option<int>)
    requires Checkout(up, rows, nextId, a, authorization, date, decimalText).reply.Success?
    ensures var e := Checkout(up, rows, nextId, a, authorization, date, decimalText);
      var body := AccountReply(up, a, authorization).value.value;
      AllPriced(LinesOf(rows, a))
      && e.sent[1] == OrderPost(ORDER_URL, DraftOrder(a, ValueOf(body, "accountName").value, ValueOf(body, "accountSurname").value,
                                                       ValueOf(body, "accountAddress").value, Total(LinesOf(rows, a)), date))
      && LinesOf(e.rows, a) == []
      && (b != a ==> LinesOf(e.rows, b) == LinesOf(rows, b))
  {
    var body := AccountReply(up, a, authorization).value.value;
    AfterAccountShape(up, rows, nextId, a, body, date, decimalText);
    WithoutLinesOfIsolated(rows, a, b);
  }

  /** Confirming a cart of three items at 2.00 and one at 5.00 posts an
      order costing 11.00 and leaves the cart empty. */
  lemma ConfirmTwoLines(up: Upstream, rows: seq<Row<CartLine>>, nextId: int, a: Option<int>,
                        authorization: Option<string>, date: string, decimalText: real -> string,
                        first: Row<CartLine>, second: Row<CartLine>)
    requires LinesOf(rows, a) == [first, second]
    requires first.data.price == Some(2.0) && first.data.quantity == Some(3)
    requires second.data.price == Some(5.0) && second.data.quantity == Some(1)
    requires Checkout(up, rows, nextId, a, authorization, date, decimalText).reply.Success?
    ensures var e := Checkout(up, rows, nextId, a, authorization, date, decimalText);
      e.sent[1].OrderPost? && e.sent[1].order.cost == Some(11.0) && LinesOf(e.rows, a) == []
  {
    var lines := [first, second];
    assert Total(lines) == 11.0 by {
      assert lines[..1][..0] == [] && lines[..1] == [first];
      assert Total([first]) == Amount(first.data) == 6.0;
      assert Total(lines) == Total([first]) + Amount(second.data);
    }
    CheckoutSuccess(up, rows, nextId, a, authorization, date, decimalText, a);
  }

  /** An account reply that cannot be parsed fails the confirmation before
      any order is posted. */
  lemma CheckoutUnreadableAccount(up: Upstream, rows: seq<Row<CartLine>>, nextId: int, a: Option<int>,
                                  authorization: Option<string>, date: string, decimalText: real -> string)
    requires AccountReply(up, a, authorization).Success?
    requires AccountReply(up, a, authorization).value.Some?
    requires Pairs(Split(AccountReply(up, a, authorization).value.value, ", ")).Failure?
    ensures var e := Checkout(up, rows, nextId, a, authorization, date, decimalText);
      e.reply == Failure(ArrayIndexOutOfBoundsException) && |e.sent| == 1 && e.rows == rows
  {
    PairsFailure(Split(AccountReply(up, a, authorization).value.value, ", "));
  }

  // ----- the service -----

  class CartService {
    const repo: CartItemRepository
    const upstream: Upstream
    /** How `BigDecimal.toString` renders an amount. */
    const decimalText: real -> string
    /** Every request sent so far, in order. */
    ghost var sent: seq<Request>

    predicate Valid()
      reads this, repo
    {
      repo.Valid()
    }

    constructor (repo: CartItemRepository, upstream: Upstream, decimalText: real -> string)
      requires repo.Valid()
      ensures this.repo == repo && this.upstream == upstream && this.decimalText == decimalText
      ensures sent == [] && Valid()
    {
      this.repo := repo;
      this.upstream := upstream;
      this.decimalText := decimalText;
      sent := [];
    }

    /** `retrieveCart(a)`: the lines of `a`'s cart. */
    function RetrieveCart(a: Option<int>): (r: seq<Row<CartLine>>)
      reads this, repo
      ensures forall i :: 0 <= i < |r| ==> r[i] in repo.rows && r[i].data.accountId == a
      ensures forall i :: 0 <= i < |repo.rows| && repo.rows[i].data.accountId == a ==> repo.rows[i] in r
    {
      repo.FindAllByCartItemAccountId(a)
    }

    /** `getProductDetails(p)`: asks the first catalogue instance for the product. */
    method GetProductDetails(productId: Option<int>) returns (r: Result<ProductReply>)
      modifies this`sent
      ensures |upstream.catalogueInstances| == 0 ==>
        r == Failure(RuntimeException(CATALOGUE_NOT_FOUND)) && sent == old(sent)
      ensures |upstream.catalogueInstances| > 0 ==>
        var url := ProductUrl(upstream.catalogueInstances[0], productId);
        r == upstream.getProduct(url) && sent == old(sent) + [ProductRequest(url)]
    {
      if |upstream.catalogueInstances| == 0 {
        return Failure(RuntimeException(CATALOGUE_NOT_FOUND));
      }
      var url := upstream.catalogueInstances[0] + "/catalogue/products/id=";
      url := url + NullableIntText(productId);
      sent := sent + [ProductRequest(url)];
      r := upstream.getProduct(url);
    }

    /** `saveCartItem(p, a)`. */
    method SaveCartItem(productId: Option<int>, accountId: Option<int>) returns (r: Outcome)
      requires Valid()
      modifies this`sent, repo
      ensures Valid()
      ensures var e := AddToCart(upstream, old(repo.rows), old(repo.nextId), productId, accountId);
        r == e.reply && repo.rows == e.rows && repo.nextId == e.nextId && sent == old(sent) + e.sent
    {
      var productResponse := GetProductDetails(productId);
      if productResponse.Failure? {
        return Fail(productResponse.error);
      }
      var details := ProductDetails(productResponse.value);
      if details.Failure? {
        return Fail(details.error);
      }
      r := AddProduct(productId, accountId, details.value.0, details.value.1);
    }

    /** The part of `saveCartItem` after the catalogue lookup: inserts a new
        line, increments the account's own line, or leaves another account's
        line alone. */
    method AddProduct(productId: Option<int>, accountId: Option<int>, productName: Option<string>, productPrice: Option<real>)
      returns (r: Outcome)
      requires Valid()
      modifies repo
      ensures Valid()
      ensures var e := StoreProduct(old(repo.rows), old(repo.nextId), productId, accountId, productName, productPrice);
        r == e.reply && repo.rows == e.rows && repo.nextId == e.nextId
    {
      ghost var lookup := LineForProduct(repo.rows, productId);
      var c := repo.FindCartItemByCartItemProductId(productId);
      if c.Failure? {
        assert lookup == Ambiguous;
        return Fail(c.error);
      }
      if c.value.None? {
        assert lookup == Absent;
        r := NewLine(productId, accountId, productName, productPrice);
        return;
      }
      var found := c.value.value;
      assert lookup.Unique? && found.Line() == lookup.value.data;
      if found.GetCartItemAccountId().None? {
        return Fail(NullPointerException);
      }
      if found.GetCartItemAccountId() == accountId {
        r := IncrementLine(productId, lookup.value);
        return;
      }
      return Pass;
    }

    /** A product not yet in any cart: a new line with quantity 1 at the
        quoted price; a missing price throws NullPointerException. */
    method NewLine(productId: Option<int>, accountId: Option<int>, productName: Option<string>, productPrice: Option<real>)
      returns (r: Outcome)
      requires Valid()
      modifies repo
      ensures Valid()
      ensures Effect(r, [], repo.rows, repo.nextId)
              == NewLineEffect(old(repo.rows), old(repo.nextId), productId, accountId, productName, productPrice)
    {
      var cartItem := new CartItem();
      cartItem.SetCartItemProductId(productId);
      cartItem.SetCartItemAccountId(accountId);
      cartItem.SetCartItemName(productName);
      if productPrice.None? {
        return Fail(NullPointerException);
      }
      cartItem.SetCartItemCost(productPrice);
      cartItem.SetCartItemQuantity(Some(1));
      assert cartItem.cartItemId == None && cartItem.Line() == CartLine(productId, accountId, productName, productPrice, Some(1));
      repo.Save(cartItem);
      r := Pass;
    }

    /** The account's own line for the product, `row`: reloaded and saved
        with its quantity incremented (wrapping at 32 bits); a missing
        quantity throws NullPointerException. */
    method IncrementLine(productId: Option<int>, ghost row: Row<CartLine>) returns (r: Outcome)
      requires Valid() && LineForProduct(repo.rows, productId) == Unique(row)
      modifies repo
      ensures Valid()
      ensures Effect(r, [], repo.rows, repo.nextId) == IncrementEffect(old(repo.rows), old(repo.nextId), row)
    {
      var again := repo.FindCartItemByCartItemProductId(productId);
      var cartItem := again.value.value;
      if cartItem.GetCartItemQuantity().None? {
        return Fail(NullPointerException);
      }
      cartItem.SetCartItemQuantity(Some(WrapInt32(cartItem.GetCartItemQuantity().value + 1)));
      assert cartItem.cartItemId == Some(row.id);
      assert cartItem.Line() == row.data.(quantity := Some(WrapInt32(row.data.quantity.value + 1)));
      repo.Save(cartItem);
      r := Pass;
    }

    /** `deleteCart(a)`. */
    method DeleteCart(accountId: Option<int>)
      requires Valid()
      modifies repo
      ensures Valid()
      ensures repo.rows == WithoutLinesOf(old(repo.rows), accountId) && repo.nextId == old(repo.nextId)
    {
      repo.DeleteAllByCartItemAccountId(accountId);
    }

    /** `getAccountDetails(a, authorization)`: the text of the account
      service's reply; a reply without a body throws NullPointerException. */
    method GetAccountDetails(accountId: Option<int>, authorization: Option<string>) returns (r: Result<string>)
      modifies this`sent
      ensures var reply := AccountReply(upstream, accountId, authorization);
        sent == old(sent) + [AccountRequest(AccountUrl(accountId), authorization)]
        && (reply.Failure? ==> r == Failure(reply.error))
        && (reply == Success(None) ==> r == Failure(NullPointerException))
        && (reply.Success? && reply.value.Some? ==> r == Success(reply.value.value))
    {
      var url := AccountUrl(accountId);
      sent := sent + [AccountRequest(url, authorization)];
      var response := upstream.getAccount(url, authorization);
      if response.Failure? {
        return Failure(response.error);
      }
      if response.value.None? {
        return Failure(NullPointerException);
      }
      r := Success(response.value.value);
    }

    /** `getValue(text, key)`: builds the map one element at a time. */
    method GetValue(objectResponse: string, value: string) returns (r: Result<Option<string>>)
      ensures r == ValueOf(objectResponse, value)
    {
      var result: map<string, string> := map[];
      var elements := Split(objectResponse, ", ");
      var i := 0;
      while i < |elements|
        invariant 0 <= i <= |elements|
        invariant Pairs(elements[..i]) == Success(result)
      {
        var keyValue := Split(elements[i], "=");
        PairsStep(elements, i);
        if |keyValue| < 2 {
          PairsFailurePersists(elements, i + 1);
          return Failure(ArrayIndexOutOfBoundsException);
        }
        result := result[keyValue[0] := keyValue[1]];
        i := i + 1;
      }
      assert elements[..i] == elements;
      r := Success(if value in result then Some(result[value]) else None);
    }

    /** The three `getValue` calls of `confirmCart`, in order: name, surname, address. */
    method ReadAccountDetails(body: string) returns (r: Result<(Option<string>, Option<string>, Option<string>)>)
      ensures r == ReadAccount(body)
    {
      var accountName := GetValue(body, "accountName");
      if accountName.Failure? {
        return Failure(accountName.error);
      }
      var accountSurname := GetValue(body, "accountSurname");
      if accountSurname.Failure? {
        return Failure(accountSurname.error);
      }
      var accountAddress := GetValue(body, "accountAddress");
      if accountAddress.Failure? {
        return Failure(accountAddress.error);
      }
      r := Success((accountName.value, accountSurname.value, accountAddress.value));
    }

    /** `confirmCart(a, authorization)` at time `date`. */
    method ConfirmCart(accountId: Option<int>, authorization: Option<string>, date: string) returns (r: Result<string>)
      requires Valid()
      modifies this`sent, repo
      ensures Valid()
      ensures var e := Checkout(upstream, old(repo.rows), old(repo.nextId), accountId, authorization, date, decimalText);
        r == e.reply && repo.rows == e.rows && repo.nextId == e.nextId && sent == old(sent) + e.sent
    {
      ghost var before, rows, nextId := sent, repo.rows, repo.nextId;
      ghost var spec := Checkout(upstream, rows, nextId, accountId, authorization, date, decimalText);
      ghost var request := AccountRequest(AccountUrl(accountId), authorization);
      var accountResponse := GetAccountDetails(accountId, authorization);
      if accountResponse.Failure? {
        assert spec == Effect(Failure(accountResponse.error), [request], rows, nextId);
        return Failure(accountResponse.error);
      }
      ghost var e := AfterAccount(upstream, rows, nextId, accountId, accountResponse.value, date, decimalText);
      assert spec == e.(sent := [request] + e.sent);
      r := ConfirmFromAccount(accountId, accountResponse.value, date);
      assert sent == before + ([request] + e.sent);
    }

    /** The part of `confirmCart` after the account has been fetched. */
    method ConfirmFromAccount(accountId: Option<int>, accountResponse: string, date: string) returns (r: Result<string>)
      requires Valid()
      modifies this`sent, repo
      ensures Valid()
      ensures var e := AfterAccount(upstream, old(repo.rows), old(repo.nextId), accountId, accountResponse, date, decimalText);
        r == e.reply && repo.rows == e.rows && repo.nextId == e.nextId && sent == old(sent) + e.sent
    {
      var fields := ReadAccountDetails(accountResponse);
      if fields.Failure? {
        return Failure(fields.error);
      }
      r := SubmitOrder(accountId, fields.value.0, fields.value.1, fields.value.2, date);
    }

    /** The loop of `confirmCart` over the cart's lines: adds up each line's
        price times its quantity and writes one line of the message for it;
        a line without price or quantity throws NullPointerException. */
    method SummariseLines(cartItems: seq<Row<CartLine>>) returns (r: Result<(real, string)>)
      ensures AllPriced(cartItems) ==> r == Success((Total(cartItems), LinesText(cartItems, decimalText)))
      ensures !AllPriced(cartItems) ==> r == Failure(NullPointerException)
    {
      var total := 0.0;
      var products := "";
      var i := 0;
      while i < |cartItems|
        invariant 0 <= i <= |cartItems|
        invariant AllPriced(cartItems[..i])
        invariant total == Total(cartItems[..i])
        invariant products == LinesText(cartItems[..i], decimalText)
      {
        var cartItem := cartItems[i].data;
        if cartItem.price.None? || cartItem.quantity.None? {
          assert !AllPriced(cartItems);
          return Failure(NullPointerException);
        }
        var next := cartItems[..i + 1];
        assert next[..i] == cartItems[..i] && next[i].data == cartItem;
        assert AllPriced(next) by {
          forall j | 0 <= j < i + 1 ensures next[j].data.price.Some? && next[j].data.quantity.Some? {
            if j < i {
              assert next[j] == cartItems[..i][j];
            }
          }
        }
        assert Total(next) == Total(cartItems[..i]) + Amount(cartItem);
        total := total + cartItem.price.value * cartItem.quantity.value as real;
        products := products + LineText(cartItem, decimalText);
        i := i + 1;
      }
      assert cartItems[..i] == cartItems;
      r := Success((total, products));
    }

    /** The part of `confirmCart` after the account has been read: writes the
        message while totalling the account's lines, posts the order and,
        once it is accepted, empties the cart. */
    method SubmitOrder(accountId: Option<int>, accountName: Option<string>, accountSurname: Option<string>,
                       accountAddress: Option<string>, date: string) returns (r: Result<string>)
      requires Valid()
      modifies this`sent, repo
      ensures Valid()
      ensures var e := PlaceOrder(upstream, old(repo.rows), old(repo.nextId), accountId, accountName, accountSurname,
                                  accountAddress, date, decimalText);
        r == e.reply && repo.rows == e.rows && repo.nextId == e.nextId && sent == old(sent) + e.sent
    {
      var cartItems := repo.FindAllByCartItemAccountId(accountId);
      var summary := SummariseLines(cartItems);
      if summary.Failure? {
        return Failure(summary.error);
      }
      var total := summary.value.0;
      var message := ConfirmationHead(date, accountName, accountSurname, accountAddress)
                     + summary.value.1 + ConfirmationTail(total, decimalText);
      r := PostOrder(accountId, accountName, accountSurname, accountAddress, total, date, message);
    }

    /** The order `confirmCart` builds and posts; once it is accepted the
        account's cart is emptied and the reply is `message`. */
    method PostOrder(accountId: Option<int>, accountName: Option<string>, accountSurname: Option<string>,
                     accountAddress: Option<string>, total: real, date: string, message: string) returns (r: Result<string>)
      requires Valid()
      modifies this`sent, repo
      ensures Valid()
      ensures var e := Posted(upstream, old(repo.rows), old(repo.nextId), accountId,
                              DraftOrder(accountId, accountName, accountSurname, accountAddress, total, date), message);
        r == e.reply && repo.rows == e.rows && repo.nextId == e.nextId && sent == old(sent) + e.sent
    {
      var order := new Order();
      order.SetAccountId(accountId);
      order.SetAddressee(Some(NullableText(accountName) + " " + NullableText(accountSurname)));
      order.SetAddress(accountAddress);
      order.SetCost(Some(total));
      order.SetDate(Some(date));
      sent := sent + [OrderPost(ORDER_URL, order.Data())];
      var posted := upstream.postOrder(ORDER_URL, order.Data());
      if posted.Fail? {
        return Failure(posted.error);
      }
      repo.DeleteAllByCartItemAccountId(accountId);
      r := Success(message);
    }
  }
}
