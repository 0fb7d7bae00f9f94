# E-commerce microservices: checkout, authentication and table services

This project models the core of a small Spring microservice shop:

- the **cart service**: its store of cart lines, adding a product at the price the catalogue quotes, emptying a cart, and confirming a cart;
- the **account service**: its login filter, its request filter that turns a signed token into a principal, its owner-or-admin checks, and its account table;
- the **catalogue service**: the product table, the de-duplicated list of category names, and the status mapping of its handlers;
- the **order service**: the order table, order creation, and the owner-only order lookup.

Confirming a cart goes through a fixed sequence:
1. The account is fetched from the account service.
2. Name, surname and address are read from the reply's text with the cart service's own `k=v, k=v` parser.
3. The account's lines are read and their exact total is computed.
4. The order is posted to the order service.
5. Only then are the account's lines deleted.

The model proves that a confirmation that fails at any step leaves the store as it was.

A cart is meant to hold one line per product per account, but `findCartItemByCartItemProductId` (cart/src/main/java/com/accenture/repository/CartItemRepository.java:26) looks a line up by product id alone, across all accounts. The model follows the code: a product already in another account's cart is silently not added (`AddToCartForeignLine`).

Every JPA table is a sequence of rows. Each row holds a generated integer key (`Tables.Row`), and the table keeps a next-key counter. Spring Data's `save`, `findOne` and `delete` and the derived queries are functions on that sequence. Mutable objects are classes whose methods change their fields under `modifies` frames. The services and controllers are classes, and so are the `CartItem` and `Order` beans, the security context, the filter chain and the servlet response.

The cart service reaches the other services through an `Upstream` value:
- the catalogue instances the discovery client lists;
- a function from URL to the catalogue's decoded product reply;
- a function from URL and header to the account reply's text;
- a function from posted order to success or failure.

Every request the cart service sends is recorded. Each cart operation is specified by a function from the store before the call to the reply, the requests sent and the store after (`AddToCart`, `Checkout`). The methods follow the source step by step and are proved equal to those functions, and the properties are proved about the functions.

Signed tokens are modelled by a concrete stand-in for the compact JSON Web Token form of RFC 7519. It has three dot-separated segments, and the signature is an arbitrary message authentication code passed as a parameter. HS256 (section 3.2 of RFC 7518) is not modelled. The round trip and the rejection of forged signatures are proved for every such code.

Java `null` is `Option.None`. A thrown exception is `Result.Failure` or `Outcome.Fail`. `BigDecimal` arithmetic is exact arithmetic on `real`. A JPA single-result query that matches several rows yields `Ambiguous`, which the callers turn into `IncorrectResultSizeDataAccessException`.

## Model

| member | source | states |
|---|---|---|
| CartCheckout.ProductDetails | cart/src/main/java/com/accenture/CartService.java:63-65 | The product's name and price are read exactly when the reply is a JSON object whose name casts to a String and whose price casts to a Double; any other reply throws. |
| CartCheckout.StoreProduct | cart/src/main/java/com/accenture/CartService.java:67-81 | The store step of `saveCartItem` keeps the table keyed and sends nothing. When it throws, the store is unchanged. |
| CartCheckout.AddToCart | cart/src/main/java/com/accenture/CartService.java:61-82 | `saveCartItem` keeps the table keyed. Whenever it throws (no catalogue, failed fetch, bad reply, ambiguous line, null price or quantity), the store is unchanged. |
| CartCheckout.AddToCartWithoutCatalogue | cart/src/main/java/com/accenture/CartService.java:149-152 | With no catalogue instance, `saveCartItem` fails with "catalogue-microservice not found.", sends nothing and changes nothing. |
| CartCheckout.AddToCartAsksFirstInstance | cart/src/main/java/com/accenture/CartService.java:153-156 | With a catalogue instance, exactly one request is sent: the product URL on the first instance listed. |
| CartCheckout.AddToCartNewLine | cart/src/main/java/com/accenture/CartService.java:67-76 | For a priced product no cart holds, one line is added at the end of the caller's cart: that product, the caller's account, the fetched name and price, quantity 1, under the next key. Other accounts' carts are unchanged, and the product's line is now that line. |
| CartCheckout.StoreNewLine | cart/src/main/java/com/accenture/CartService.java:68-76 | The store side of the new line: it is appended to the table, the key counter rises by one, and only the caller's cart gains it. |
| CartCheckout.AddToCartOwnLine | cart/src/main/java/com/accenture/CartService.java:77-81 | When the product's line belongs to the caller, only that line changes, and only its quantity, which rises by one with Java Integer wrap-around. Every other key reads as before. |
| CartCheckout.AddTwiceToEmptyCart | cart/src/main/java/com/accenture/CartService.java:61-82 | Adding the same priced product twice to an empty store succeeds both times and leaves the caller one line for it: quantity 2, the quoted name and price, under the first key generated. |
| CartCheckout.AddToCartForeignLine | cart/src/main/java/com/accenture/CartService.java:67-81 | When the product's line belongs to another account, the call succeeds and the store is unchanged. |
| CartCheckout.PlaceOrderShape | cart/src/main/java/com/accenture/CartService.java:117-140 | After the account is read: at most one request is sent, and it is the order carrying the account id, "name surname", the address, the exact total of the account's lines and the date. The lines are deleted only when the post succeeds; on failure the store is unchanged. |
| CartCheckout.AfterAccountShape | cart/src/main/java/com/accenture/CartService.java:103-140 | An order is posted only after name, surname and address have been read from the account's text. The posted order carries those values. The store changes only after a successful post. |
| CartCheckout.CheckoutOrder | cart/src/main/java/com/accenture/CartService.java:100-142 | A confirmation first sends the account request with the caller's Authorization header unchanged. It sends at most the order post after that. A failed confirmation leaves the store unchanged. A successful one has posted the order and removed exactly the account's lines. |
| CartCheckout.CheckoutSuccess | cart/src/main/java/com/accenture/CartService.java:100-142 | A successful confirmation posted an order whose fields are the account's name, surname, address, the exact total and the date. Afterwards the account has no lines, and every other account's lines are as they were. |
| CartCheckout.ConfirmTwoLines | cart/src/main/java/com/accenture/CartService.java:117-140 | A successful confirmation of a cart of three items at 2.00 and one at 5.00 posts an order costing exactly 11.00 and leaves that cart empty. |
| CartCheckout.CheckoutUnreadableAccount | cart/src/main/java/com/accenture/CartService.java:102-105 | An account reply that `getValue` cannot parse fails the confirmation with ArrayIndexOutOfBoundsException. Only the account request was sent, and the store is unchanged. |
| CartCheckout.TotalAppend | cart/src/main/java/com/accenture/CartService.java:119-125 | The total of concatenated carts is the sum of their totals. |
| CartCheckout.TotalNonNegative | cart/src/main/java/com/accenture/CartService.java:119-125 | Lines with non-negative prices and quantities never total below zero. |
| CartCheckout.PairsFailurePersists | cart/src/main/java/com/accenture/CartService.java:198-201 | Once an element fails to parse, the rest of the loop does not matter: the whole parse fails the same way. |
| CartCheckout.PairsFailure | cart/src/main/java/com/accenture/CartService.java:197-203 | `getValue` throws exactly when some element does not split at "=" into at least two pieces, and then always with ArrayIndexOutOfBoundsException. |
| CartCheckout.ElementWithoutEquals | cart/src/main/java/com/accenture/CartService.java:199-200 | An element without "=" makes the whole parse throw ArrayIndexOutOfBoundsException. |
| CartCheckout.PairsOfEntries | cart/src/main/java/com/accenture/CartService.java:194-203 | Clean `key=value` elements parse into the map they denote, with later keys replacing earlier ones. |
| CartCheckout.PairsSnoc | cart/src/main/java/com/accenture/CartService.java:198-201 | One more clean element puts its key and value into the map parsed so far. |
| CartCheckout.LaterEntryWins | cart/src/main/java/com/accenture/CartService.java:198-201 | When a key occurs twice, the later value is the one stored. |
| CartCheckout.AccountBodyElements | cart/src/main/java/com/accenture/CartService.java:197 | The account reply's text, for readable fields, splits at ", " into exactly its six `key=value` entries. |
| CartCheckout.AccountBodyValues | cart/src/main/java/com/accenture/CartService.java:102-105 | From the account reply's text, `getValue` reads back the account's name, surname and address (a null field reads as the text "null"). |
| CartCheckout.AccountMap | cart/src/main/java/com/accenture/CartService.java:185 | The map the account's entries denote holds name, surname and address under their keys. |
| CartCheckout.CommaInAddressBreaksParse | cart/src/main/java/com/accenture/CartService.java:197-200 | An address containing ", " followed by text without "=" breaks the parse: the reply then fails with ArrayIndexOutOfBoundsException, whatever the other fields say. |
| CartCheckout.CartService.constructor | cart/src/main/java/com/accenture/CartService.java:41-45 | The service holds its repository, the other services and the decimal rendering, and has sent nothing yet. |
| CartCheckout.CartService.RetrieveCart | cart/src/main/java/com/accenture/CartService.java:52-54 | Returns exactly the stored lines whose account is the requested one. |
| CartCheckout.CartService.GetProductDetails | cart/src/main/java/com/accenture/CartService.java:149-157 | With no catalogue instance it throws "catalogue-microservice not found." and sends nothing. Otherwise it sends one request, for the product on the first instance, and returns the reply. |
| CartCheckout.CartService.SaveCartItem | cart/src/main/java/com/accenture/CartService.java:61-82 | The reply, requests sent and new store are exactly those of `AddToCart`. |
| CartCheckout.CartService.AddProduct | cart/src/main/java/com/accenture/CartService.java:67-81 | After the catalogue lookup, the store changes as `StoreProduct` says. At most one of the insert and increment branches runs, because the line is read once. |
| CartCheckout.CartService.NewLine | cart/src/main/java/com/accenture/CartService.java:68-76 | Saves a new line of quantity 1 at the quoted price; a missing price throws NullPointerException with the store unchanged. |
| CartCheckout.CartService.IncrementLine | cart/src/main/java/com/accenture/CartService.java:77-81 | Reloads the caller's line and saves it with its quantity incremented; a missing quantity throws with the store unchanged. |
| CartCheckout.CartService.DeleteCart | cart/src/main/java/com/accenture/CartService.java:89-91 | Leaves exactly the lines of other accounts, in order, and keeps the key counter. |
| CartCheckout.CartService.GetAccountDetails | cart/src/main/java/com/accenture/CartService.java:175-186 | Sends one request, for the account URL with the Authorization header unchanged. It returns the reply's text, propagates a failed call, and throws NullPointerException for a reply without a body. |
| CartCheckout.CartService.GetValue | cart/src/main/java/com/accenture/CartService.java:194-203 | The loop's result equals `ValueOf`: the value under the key in the map parsed from the ", "-separated elements, null for an absent key, or the parse's exception. |
| CartCheckout.CartService.ReadAccountDetails | cart/src/main/java/com/accenture/CartService.java:103-105 | The three `getValue` calls, in order, give name, surname and address, or the first exception. |
| CartCheckout.CartService.ConfirmCart | cart/src/main/java/com/accenture/CartService.java:100-142 | The reply, requests sent and new store are exactly those of `Checkout`. |
| CartCheckout.CartService.ConfirmFromAccount | cart/src/main/java/com/accenture/CartService.java:103-141 | The rest of the confirmation agrees with `AfterAccount`. |
| CartCheckout.CartService.SummariseLines | cart/src/main/java/com/accenture/CartService.java:119-130 | The loop yields the exact sum of price × quantity and the product lines of the message. A line without a price or quantity throws NullPointerException. |
| CartCheckout.CartService.SubmitOrder | cart/src/main/java/com/accenture/CartService.java:109-141 | From the account's fields to the reply, the step agrees with `PlaceOrder`. |
| CartCheckout.CartService.PostOrder | cart/src/main/java/com/accenture/CartService.java:132-141 | Posts the draft order. Only after the post succeeds does it delete the account's lines and return the message; a failed post leaves the store unchanged. |
| CartWeb.WithoutEmptyCart | cart/src/main/java/com/accenture/CartController.java:81-84 | Emptying a cart that holds no lines changes nothing. |
| CartWeb.CartController.constructor | cart/src/main/java/com/accenture/CartController.java:28-30 | The controller holds the cart service and the security context. |
| CartWeb.CartController.GetCart | cart/src/main/java/com/accenture/CartController.java:38-51 | Answers 200 with the principal's lines, or with "<name>, your shopping cart is empty..." when there are none. The context is cleared in both cases. With no authentication it throws. |
| CartWeb.CartController.AddCartItem | cart/src/main/java/com/accenture/CartController.java:60-68 | Runs `saveCartItem` with the principal's id from `getDetails`. On success it clears the context and answers 200 "Product added to your shopping cart."; otherwise it propagates the exception. |
| CartWeb.CartController.RemoveCart | cart/src/main/java/com/accenture/CartController.java:76-89 | Removes exactly the principal's lines, or nothing when there are none, with the matching message. The context is cleared in both cases. |
| CartWeb.CartController.ConfirmCart | cart/src/main/java/com/accenture/CartController.java:98-120 | On an empty cart it answers the "add some products" message and makes no call: nothing is sent, nothing changes. Otherwise the reply, requests, rows and key counter are those of `Checkout` with the raw Authorization header. On an empty cart or without a principal the key counter is unchanged too. The context is cleared either way. |
| CartStore.LinesOf | cart/src/main/java/com/accenture/repository/CartItemRepository.java:19 | Exactly the stored lines whose account id matches. |
| CartStore.LineForProduct | cart/src/main/java/com/accenture/repository/CartItemRepository.java:26 | Absent exactly when no line has the product, whatever its account. A unique answer is a stored line with that product. |
| CartStore.WithoutLinesOfIsolated | cart/src/main/java/com/accenture/repository/CartItemRepository.java:32 | After the delete, the account has no lines and every other account has exactly the lines it had. |
| CartStore.CartItemRepository.constructor | cart/src/main/java/com/accenture/repository/CartItemRepository.java:12 | A new repository holds an empty, keyed table. |
| CartStore.CartItemRepository.FindCartItemByCartItemProductId | cart/src/main/java/com/accenture/repository/CartItemRepository.java:26 | Answers null when no line has the product. It throws when several lines do. Otherwise it answers a new bean carrying the stored line's key and values. |
| CartStore.CartItemRepository.Save | cart/src/main/java/com/accenture/CartService.java:75 | The bean's values are saved: merged under its key or appended under a new one. The bean receives the stored key. |
| CartStore.CartItemRepository.DeleteAllByCartItemAccountId | cart/src/main/java/com/accenture/repository/CartItemRepository.java:32 | Leaves exactly the lines not of that account, in order. |
| CartEntities.CartItemTextLayout | cart/src/main/java/com/accenture/entity/CartItem.java:89-98 | When the name and the rendered price hold no comma, `toString` reads back: between "CartItem{" and "}" it splits at ", " into six entries naming id, product id, account id, name, price and quantity in that order, each followed by that field's value. |
| CartEntities.OrderTextLayout | cart/src/main/java/com/accenture/entity/Order.java:89-98 | When addressee, address, rendered cost and date hold no comma, `toString` reads back: between "Order{" and "}" it splits at ", " into six entries naming orderId, accountId, addressee, address, cost and date in that order, each followed by that field's value. |
| CartEntities.CartItem.constructor | cart/src/main/java/com/accenture/entity/CartItem.java:23-28 | The default bean has quantity 0 and every other field null. |
| CartEntities.CartItem.Of | cart/src/main/java/com/accenture/entity/CartItem.java:38-44 | Stores product id, account id, name, price and quantity, and leaves the id unset. |
| CartEntities.CartItem.SetCartItemId | cart/src/main/java/com/accenture/entity/CartItem.java:56-58 | Sets the id; the frame allows no other field to change. |
| CartEntities.CartItem.SetCartItemProductId | cart/src/main/java/com/accenture/entity/CartItem.java:49-51 | Sets the product id only. |
| CartEntities.CartItem.SetCartItemAccountId | cart/src/main/java/com/accenture/entity/CartItem.java:63-65 | Sets the account id only. |
| CartEntities.CartItem.SetCartItemName | cart/src/main/java/com/accenture/entity/CartItem.java:70-72 | Sets the name only. |
| CartEntities.CartItem.SetCartItemCost | cart/src/main/java/com/accenture/entity/CartItem.java:77-79 | Writes the field that the price getter reads, and nothing else. |
| CartEntities.CartItem.SetCartItemQuantity | cart/src/main/java/com/accenture/entity/CartItem.java:84-86 | Sets the quantity only. |
| CartEntities.Order.constructor | cart/src/main/java/com/accenture/entity/Order.java:28 | The default order has every field null. |
| CartEntities.Order.Of | cart/src/main/java/com/accenture/entity/Order.java:38-44 | Stores account id, addressee, address, cost and date, and leaves the order id unset. |
| CartEntities.Order.SetOrderId | cart/src/main/java/com/accenture/entity/Order.java:49-51 | Sets the order id only; its getter returns the value set. |
| CartEntities.Order.SetAccountId | cart/src/main/java/com/accenture/entity/Order.java:56-58 | Sets the account id only. |
| CartEntities.Order.SetAddressee | cart/src/main/java/com/accenture/entity/Order.java:63-65 | Sets the addressee only. |
| CartEntities.Order.SetAddress | cart/src/main/java/com/accenture/entity/Order.java:70-72 | Sets the address only. |
| CartEntities.Order.SetCost | cart/src/main/java/com/accenture/entity/Order.java:77-79 | Sets the cost only. |
| CartEntities.Order.SetDate | cart/src/main/java/com/accenture/entity/Order.java:84-86 | Sets the date only. |
| CartAuth.ProfileReportsConstruction | cart/src/main/java/com/accenture/auth/JwtAuthProfile.java:19-59 | The principal reports its username as name, its account id as details and its one authority. Credentials and principal are null. It is always authenticated, and `setAuthenticated` changes nothing. |
| AccountAuth.RoleFor | account/src/main/java/com/accenture/auth/JwtAuthFilter.java:55-62 | The role is ROLE_ADMIN exactly for the subject "admin" and ROLE_USER otherwise. |
| AccountAuth.DoFilter | account/src/main/java/com/accenture/auth/JwtAuthFilter.java:39-69 | Without a header, the context is untouched and the chain runs once. With a header there are two outcomes. If verification throws, the exception propagates, the context is unchanged and the chain does not run. Otherwise the context holds the subject with its role and the chain runs once. |
| AccountAuth.SignedHeaderAuthenticates | account/src/main/java/com/accenture/auth/JwtAuthFilter.java:49-62 | "Bearer " and a token signed with the shared key authenticate as the token's subject with the subject's role: every "Bearer " is removed and nothing else is. |
| AccountAuth.ForgedHeaderRejected | account/src/main/java/com/accenture/auth/JwtAuthFilter.java:49-52 | A token whose signature is not the code of its content under the shared key is rejected with SignatureException. |
| AccountAuth.SubjectlessHeaderFails | account/src/main/java/com/accenture/auth/JwtAuthFilter.java:54-55 | A validly signed token without a subject throws NullPointerException. |
| AccountAuth.RoleIgnoresId | account/src/main/java/com/accenture/auth/JwtAuthFilter.java:54-62 | The principal depends on the subject alone; the `id` claim is not consulted. |
| AccountAuth.ProfileReportsConstruction | account/src/main/java/com/accenture/auth/JwtAuthProfile.java:18-56 | The principal reports its username as name and its one authority. Details, credentials and principal are null. It is always authenticated, and `setAuthenticated` changes nothing. |
| AccountLogin.LoadUserByUsername | account/src/main/java/com/accenture/login/LoginUserDetailsService.java:40-53 | Null exactly when no account has the username. Otherwise the user has that username, a stored password of such an account, and the single authority ROLE_ADMIN for "admin" or ROLE_USER for anyone else. |
| AccountLogin.GetAccountId | account/src/main/java/com/accenture/login/LoginUserDetailsService.java:60-63 | The key of the account with that username. It throws NullPointerException exactly when there is none. |
| AccountLogin.AttemptAuthentication | account/src/main/java/com/accenture/login/LoginFilter.java:55-84 | A null username or password fails with "Please provide username and password."; an unknown username fails with "Account username was not found.". |
| AccountLogin.LoginSucceedsExactly | account/src/main/java/com/accenture/login/LoginFilter.java:70-83 | Login succeeds exactly when one account holds the non-empty username and its stored password is the submitted one. The result is then the username, that account's key as credentials, and the username's role. |
| AccountLogin.WrongPasswordRejected | account/src/main/java/com/accenture/login/LoginFilter.java:70-83 | A known username with another password fails with "Invalid login: please check username and password provided.". |
| AccountLogin.SuccessfulAuthentication | account/src/main/java/com/accenture/login/LoginFilter.java:96-107 | Appends exactly one header: "Authorization: Bearer " and a token with subject = the name and id = the credentials, signed with the shared key, with no expiry. |
| AccountLogin.IssuedHeaderAuthenticates | account/src/main/java/com/accenture/login/LoginFilter.java:100-106 | The header issued at login is accepted by the request filter with the same single role the login computed, and its token carries the account's key. |
| Accounts.FindByUsername | account/src/main/java/com/accenture/repository/AccountRepository.java:17 | Absent exactly when no account has the username; ambiguous exactly when two do. A unique answer is the only stored account with it. |
| Accounts.FindOnlyUsername | account/src/main/java/com/accenture/repository/AccountRepository.java:17 | A row that is the only one with its username is what the query finds. |
| Accounts.AccountService.constructor | account/src/main/java/com/accenture/AccountService.java:23-25 | The service holds a keyed account table. |
| Accounts.AccountService.DeleteAllAccounts | account/src/main/java/com/accenture/AccountService.java:38-40 | Empties the table. |
| Accounts.AccountService.RetrieveAccountById | account/src/main/java/com/accenture/AccountService.java:47-49 | Answers an account exactly when one has that key, and then the stored one. |
| Accounts.AccountService.SaveAccount | account/src/main/java/com/accenture/AccountService.java:55-57 | Stores the account through `save`: a stored key is overwritten, any other key gets a new row. |
| Accounts.AccountService.UpdateAccount | account/src/main/java/com/accenture/AccountService.java:64-76 | Replaces every column of the account with that key, keeps its key and position, and changes no other row. A missing account throws NullPointerException and changes nothing. |
| Accounts.AccountService.DeleteAccount | account/src/main/java/com/accenture/AccountService.java:82-84 | Removes only the row with that key; with none it throws and changes nothing. |
| Accounts.AccountService.CheckUsername | account/src/main/java/com/accenture/AccountService.java:91-95 | True exactly when some account has the username. It throws exactly when two accounts share it. |
| Accounts.AccountService.CheckAccountExist | account/src/main/java/com/accenture/AccountService.java:102-106 | True exactly when an account has that key. |
| AccountWeb.MayAccess | account/src/main/java/com/accenture/AccountController.java:94 | Throws exactly for a null stored username. Otherwise grants access when the username equals the principal's name or the rendered authorities contain "ROLE_ADMIN". |
| AccountWeb.Permit | account/src/main/java/com/accenture/AccountController.java:88-94 | Throws exactly when there is no authentication or the stored username is null. |
| AccountWeb.OwnerOrAdmin | account/src/main/java/com/accenture/AccountController.java:94 | For principals the request filter builds, the textual rule is exactly "the owner, or the user admin". |
| AccountWeb.ReadAllowedExactly | account/src/main/java/com/accenture/AccountController.java:82-98 | Reading an existing account through a filter-built principal answers 200 exactly for the owner and for admin, and 403 otherwise. |
| AccountWeb.AccountController.constructor | account/src/main/java/com/accenture/AccountController.java:27-29 | The controller holds the account service and the security context. |
| AccountWeb.AccountController.GetAllAccounts | account/src/main/java/com/accenture/AccountController.java:37-42 | 204 without a body exactly when there are no accounts, and 200 with every account otherwise. |
| AccountWeb.AccountController.RemoveAllAccounts | account/src/main/java/com/accenture/AccountController.java:50-57 | On an empty table it replies "NO CONTENT: ..." with 200 and deletes nothing; otherwise it empties the table. |
| AccountWeb.AccountController.AddAccount | account/src/main/java/com/accenture/AccountController.java:66-73 | A taken username gives 409 and saves nothing. Otherwise the account is saved and the answer is 201. |
| AccountWeb.AccountController.GetAccountById | account/src/main/java/com/accenture/AccountController.java:82-98 | 404 for an unknown key before any authorisation check. Otherwise 200 with the stored account when permitted, 403 when not. |
| AccountWeb.AccountController.EditAccount | account/src/main/java/com/accenture/AccountController.java:108-128 | Checks in order: 404 for a missing account, 409 when any account (the edited one too) has the new username, then the authorisation check. Only the permitted path updates, and every other path leaves the table unchanged. |
| AccountWeb.AccountController.RemoveAccount | account/src/main/java/com/accenture/AccountController.java:137-154 | 404 for a missing account. Otherwise the permitted path deletes that row only, and 403 deletes nothing. |
| Catalogue.FirstMention | catalogue/src/main/java/com/accenture/CatalogueService.java:34-40 | The index of the first product with that category (or the table length): no earlier product has it. |
| Catalogue.FirstMentionExtend | catalogue/src/main/java/com/accenture/CatalogueService.java:34-40 | Appending a product does not move an existing first mention. |
| Catalogue.CategoriesMembers | catalogue/src/main/java/com/accenture/CatalogueService.java:36-38 | The category list names every non-null category of the table and nothing else. |
| Catalogue.CategoriesDistinct | catalogue/src/main/java/com/accenture/CatalogueService.java:37 | No category is listed twice. |
| Catalogue.CategoryMentioned | catalogue/src/main/java/com/accenture/CatalogueService.java:36-38 | A listed category is mentioned by some product. |
| Catalogue.CategoriesOrdered | catalogue/src/main/java/com/accenture/CatalogueService.java:34-40 | Categories are listed in the order of their first mention. |
| Catalogue.CatalogueService.constructor | catalogue/src/main/java/com/accenture/CatalogueService.java:24-26 | The service holds a keyed product table. |
| Catalogue.CatalogueService.RetrieveAllCategoriesNames | catalogue/src/main/java/com/accenture/CatalogueService.java:32-41 | The loop's list has no duplicates and no null. It names exactly the categories of the table, in first-occurrence order. |
| Catalogue.CatalogueService.RetrieveProductsByCategory | catalogue/src/main/java/com/accenture/CatalogueService.java:48-50 | Exactly the stored products of that category. |
| Catalogue.CatalogueService.RetrieveProductsByColor | catalogue/src/main/java/com/accenture/CatalogueService.java:57-59 | Exactly the stored products of that colour. |
| Catalogue.CatalogueService.DeleteAllProducts | catalogue/src/main/java/com/accenture/CatalogueService.java:73-75 | Empties the catalogue. |
| Catalogue.CatalogueService.RetrieveProductById | catalogue/src/main/java/com/accenture/CatalogueService.java:82-84 | Answers a product exactly when one has that key, and then the stored one. |
| Catalogue.CatalogueService.SaveProduct | catalogue/src/main/java/com/accenture/CatalogueService.java:91-93 | Saves the product and returns the stored row, never null. |
| Catalogue.CatalogueService.UpdateProduct | catalogue/src/main/java/com/accenture/CatalogueService.java:100-111 | Replaces name, category, price and colour of that product, keeps its key and position, and changes no other product. A missing product throws NullPointerException and changes nothing. |
| Catalogue.CatalogueService.DeleteProduct | catalogue/src/main/java/com/accenture/CatalogueService.java:117-119 | Removes only that key; with none it throws and changes nothing. |
| Catalogue.CatalogueService.CheckProductExist | catalogue/src/main/java/com/accenture/CatalogueService.java:126-131 | True exactly when a product has that key. |
| CatalogueWeb.ListResponse | catalogue/src/main/java/com/accenture/CatalogueController.java:38-41 | 204 without a body exactly for an empty list, and 200 with the list otherwise. |
| CatalogueWeb.CatalogueController.constructor | catalogue/src/main/java/com/accenture/CatalogueController.java:27-29 | The controller holds the catalogue service. |
| CatalogueWeb.CatalogueController.GetAllCategories | catalogue/src/main/java/com/accenture/CatalogueController.java:37-42 | Lists the distinct categories. It answers 204 exactly when no product has a category. |
| CatalogueWeb.CatalogueController.GetProductsByCategory | catalogue/src/main/java/com/accenture/CatalogueController.java:51-56 | 204 exactly when no product has the category, and 200 with those products otherwise. |
| CatalogueWeb.CatalogueController.GetProductsByColor | catalogue/src/main/java/com/accenture/CatalogueController.java:65-70 | 204 exactly when no product has the colour, and 200 with those products otherwise. |
| CatalogueWeb.CatalogueController.GetAllProducts | catalogue/src/main/java/com/accenture/CatalogueController.java:78-86 | 204 exactly for an empty catalogue, and 200 with every product otherwise. |
| CatalogueWeb.CatalogueController.RemoveAllProducts | catalogue/src/main/java/com/accenture/CatalogueController.java:94-100 | On an empty catalogue it replies "Catalogue is empty." without deleting. Otherwise it empties the catalogue and replies "Catalogue has been removed.". |
| CatalogueWeb.CatalogueController.GetProductById | catalogue/src/main/java/com/accenture/CatalogueController.java:109-114 | Always 200: the stored product when the key exists, and otherwise a text naming the missing key. |
| CatalogueWeb.CatalogueController.AddProduct | catalogue/src/main/java/com/accenture/CatalogueController.java:123-130 | Saves the product and answers 201 with the location "<request path>/id=<stored key>", followed by "?<query>" when the request had a query string. |
| CatalogueWeb.CatalogueController.EditProduct | catalogue/src/main/java/com/accenture/CatalogueController.java:140-147 | 404 and no update for an unknown key. Otherwise the field-replacing update, and 200. |
| CatalogueWeb.CatalogueController.RemoveProduct | catalogue/src/main/java/com/accenture/CatalogueController.java:156-159 | Deletes without checking first. An unknown key fails with the repository's exception and changes nothing; otherwise 200 naming the key. |
| Orders.OrdersOf | order/src/main/java/com/accenture/repository/OrderRepository.java:19 | Exactly the stored orders with that account id. |
| Orders.WithoutOrdersOfIsolated | order/src/main/java/com/accenture/repository/OrderRepository.java:19-25 | After the delete, the account's history is empty and every other account's history is unchanged. |
| Orders.CreatedOrderInHistory | order/src/main/java/com/accenture/OrderService.java:60-65 | A created order joins the end of its account's history and leaves every other history unchanged. |
| Orders.OrderRepository.constructor | order/src/main/java/com/accenture/repository/OrderRepository.java:12 | The repository holds a keyed order table. |
| Orders.OrderRepository.DeleteAllByAccountId | order/src/main/java/com/accenture/repository/OrderRepository.java:25 | Leaves exactly the orders not of that account, in order. |
| Orders.OrderRepository.Persist | order/src/main/java/com/accenture/OrderService.java:63 | A keyless order is appended under a fresh key, which it receives. |
| Orders.OrderService.constructor | order/src/main/java/com/accenture/OrderService.java:24-26 | The service holds its order repository. |
| Orders.OrderService.DeleteAllOrders | order/src/main/java/com/accenture/OrderService.java:42-44 | Removes that account's orders and no others. |
| Orders.OrderService.RetrieveOrderById | order/src/main/java/com/accenture/OrderService.java:51-53 | Answers an order exactly when one has that key, and then the stored one. |
| Orders.OrderService.CreateOrder | order/src/main/java/com/accenture/OrderService.java:60-65 | Copies account id, addressee, address, cost and date into a new order; the request's key is ignored. It saves exactly that one row under a new key, raises the key counter by one and returns the row. |
| OrderWeb.IsOwner | order/src/main/java/com/accenture/OrderController.java:96 | Throws exactly for a null principal id. Otherwise it is true exactly when the order's account id equals the principal's id. |
| OrderWeb.OrderController.constructor | order/src/main/java/com/accenture/OrderController.java:27-29 | The controller holds the order service and the security context. |
| OrderWeb.OrderController.GetAllOrders | order/src/main/java/com/accenture/OrderController.java:37-50 | Clears the context, then answers 200 with the principal's orders, or "You have not made any order yet." when there are none. |
| OrderWeb.OrderController.RemoveAllOrders | order/src/main/java/com/accenture/OrderController.java:58-75 | Clears the context. On an empty history it replies "already empty" and deletes nothing; otherwise it deletes only the principal's orders. |
| OrderWeb.OrderController.GetOrderById | order/src/main/java/com/accenture/OrderController.java:84-100 | 404 for a missing order. Otherwise 200 only when the principal's id is the order's account id, with no admin override, and 403 otherwise. A 200 answer is the stored order of the principal. |
| OrderWeb.OrderController.CreateOrder | order/src/main/java/com/accenture/OrderController.java:109-112 | Always 200 with the new order, which is appended to the table under the old key counter; the counter rises by one. |
| Tables.Position | account/src/main/java/com/accenture/AccountService.java:47-49 | The index of the first row with that key, negative exactly when no row has it. |
| Tables.FindOneStored | account/src/main/java/com/accenture/AccountService.java:47-49 | In a keyed table `findOne` answers a value exactly when that row is stored, and null exactly when the key is absent. |
| Tables.Save | account/src/main/java/com/accenture/AccountService.java:55-57 | A stored key is replaced in place, with the key counter kept. Any other entity is appended under a fresh key. The table stays keyed. |
| Tables.FindAfterSave | catalogue/src/main/java/com/accenture/CatalogueService.java:91-93 | After a save, the saved key reads the saved data and every other key reads as before. |
| Tables.Updated | account/src/main/java/com/accenture/AccountService.java:64-76 | The update throws NullPointerException exactly when the key is absent. |
| Tables.UpdateReplacesOnly | catalogue/src/main/java/com/accenture/CatalogueService.java:100-111 | After an update the key reads the new columns and every other key reads as before. No row is added, and the table stays keyed. |
| Tables.Delete | account/src/main/java/com/accenture/AccountService.java:82-84 | A delete succeeds exactly when the key is stored. |
| Tables.DeleteRemovesOnly | catalogue/src/main/java/com/accenture/CatalogueService.java:117-119 | After a delete the key reads null and every other key reads as before. The table stays keyed. |
| Tables.RetainWhere | cart/src/main/java/com/accenture/repository/CartItemRepository.java:32 | The derived delete's pass over the table keeps exactly the rows the condition keeps, in order. |
| Tables.PurgeOwner | order/src/main/java/com/accenture/repository/OrderRepository.java:25 | After an owner's rows are removed, querying that owner finds nothing and every other owner finds what it found before. |
| Common.SingleResult | cart/src/main/java/com/accenture/repository/CartItemRepository.java:26 | A single-result query answers null for no match, the match for one, and is ambiguous for more. |
| Common.WrapInt32 | cart/src/main/java/com/accenture/CartService.java:79 | Java int arithmetic: the result is a 32-bit value congruent to the exact one, and equal to it when it fits. |
| Common.IncrementInt32 | cart/src/main/java/com/accenture/CartService.java:79 | Incrementing a quantity is exact below the largest Integer and wraps to the smallest at it. |
| Http.FilterChain.DoFilter | account/src/main/java/com/accenture/auth/JwtAuthFilter.java:68 | One more invocation of the chain. |
| Http.ServletResponse.AddHeader | account/src/main/java/com/accenture/login/LoginFilter.java:106 | Appends exactly that header. |
| Http.SecurityContext.SetAuthentication | cart/src/main/java/com/accenture/CartController.java:45 | The context then holds exactly the given authentication. |
| Tokens.VerifySign | account/src/main/java/com/accenture/auth/JwtAuthFilter.java:49-52 | A token verifies, under the key it was signed with, to exactly the claims it carries. |
| Tokens.ForgedSignatureRejected | account/src/main/java/com/accenture/auth/JwtAuthFilter.java:49-52 | A token whose signature is not the code of its content under the key is rejected with SignatureException. |
| Tokens.TokenHasNoSpace | account/src/main/java/com/accenture/auth/JwtAuthFilter.java:51 | Tokens contain no space, so removing "Bearer " cannot alter them. |
| Tokens.UnescapeEscape | account/src/main/java/com/accenture/login/LoginFilter.java:100-104 | The claim encoding round-trips: unescaping an escaped text gives it back. |
| JavaText.SplitOfJoin | cart/src/main/java/com/accenture/CartService.java:197 | `split` of a text joined from parts that do not contain the separator gives the parts back. |
| JavaText.SplitWithoutSeparator | cart/src/main/java/com/accenture/CartService.java:199 | A text without the separator splits into itself. |
| JavaText.RemoveAllPrefix | account/src/main/java/com/accenture/auth/JwtAuthFilter.java:51 | `replace` removes a leading copy of the pattern along with every later one. |

## Left out

- The four `*SecurityConfig` classes: route protection lives in Spring's ant-matcher DSL, whose matching rules are library code.
- The cart and order services' own request filters and the `JwtAuthToken` wrapper are not part of this model. The cart and order controllers read a principal of the cart service's `JwtAuthProfile` shape (username, account id, authority) from the security context.
- The order service's own `Order` entity and `JwtAuthProfile` are not part of this model. Its table stores the same columns as the cart's `Order` draft, and its principal is the cart profile.
- JWT encoding and HS256 signing (jjwt): a concrete three-segment stand-in with the message authentication code as a parameter replaces them. Base64url, JSON and HMAC-SHA256 are not modelled.
- The REST client, the discovery client and the network are function-valued parameters (`Upstream`). Transport, load balancing, timeouts and retries are not modelled.
- Jackson decoding: replies arrive already decoded (`ProductReply`, the account reply's text), and the login body arrives as `Credentials`.
- `LocalDateTime.now()` and its formatting: the date is a parameter of the confirmation.
- `BigDecimal.toString`: its rendering of amounts in the confirmation message and `toString` is the parameter `decimalText`.
- `new BigDecimal(Double)`: the catalogue's Double price is taken as the exact `real` it denotes, and floating point is not modelled.
- The message literals of `confirmCart` are written as the pieces the source concatenates, not as single literals.
- The final delete of `confirmCart` cannot fail in the model, so the window in which an order is posted but the cart is not yet cleared is not represented.
- Concurrency, transactions and races between simultaneous adds or confirmations are not modelled; every operation runs alone.
- CartWeb.CartController.RemoveCart: an unauthenticated `DELETE /cart` is not protected by the cart's security configuration, so it reaches the handler with Spring's anonymous token, whose details are not an Integer, and the source throws ClassCastException. The cart side has no anonymous principal in this model: such a request is an empty security context, which throws NullPointerException. The store is unchanged either way.
- The thread-local `SecurityContextHolder` is one explicit `SecurityContext` object per controller.
- Code that cannot run: `confirmCart`'s null-message reply in the controller (the service never returns null), the 204 branch of the catalogue's `addProduct` (`save` never returns null), and `LoginFilter`'s null-authorities check (`loadUserByUsername` always gives one authority). Each has no branch in the model, and the member's contract states the behaviour that does occur.
- `retrieveAllAccounts`, `retrieveAllProducts`, `retrieveAllOrders`, `findAllByCartItemAccountId` and `findAllByAccountId` are modelled as plain reads of the table with no contract of their own; `LinesOf` and `OrdersOf` carry what the queries return.
- The `CartItem` and `Order` getters are plain reads of the fields; the setters' contracts state what each getter returns.
- The cart service's `CartService` methods `AddProduct`, `NewLine`, `IncrementLine`, `ReadAccountDetails`, `ConfirmFromAccount`, `SummariseLines`, `SubmitOrder` and `PostOrder` are steps of `saveCartItem` and `confirmCart` split out so that each can be proved on its own; they run in the order of the source.
- `*Application`, `*Initializer`, the welcome service and the entity classes of accounts and products: bootstrapping, seed data and plain records, which appear only as the `Records` datatypes.
