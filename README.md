# QKart storefront: a verified model of its cart and form logic

QKart's frontend is a React storefront over a REST backend. This project models
the sequential logic inside four of its components and proves properties of
that logic in Dafny:

- **Cart** (`cart.dfy`, module `Cart`). `generateCartItemsFrom` joins the
  server's cart records `(productId, qty)` with the product catalogue.
  `getTotalCartValue` and `getTotalItems` are the two totals. `RenderCart`
  describes what the `Cart` component offers: per-item quantity buttons, the
  checkout button and the read-only order details. A product is a class whose
  only mutable field is `qty`, because the join writes the quantity onto the
  catalogue objects and returns those same objects. The specification
  function `CartProducts` reads only the products' constant fields. The
  method `GenerateCartItemsFrom` is proved equal to it and says which objects
  it changed.
- **Products page** (`products.dfy`, module `Products`). Class `ProductsPage`
  holds the page state: the displayed `products`, the joined `cartData`, the
  raw `itemData` and the session token. Its methods are the add-to-cart
  guards, quantity changes, cart fetching, catalogue loading, search and the
  cart sidebar. Every method that talks to the backend takes the backend's
  answer as an argument. The cart methods (`FetchCart`, `HandleAddToCart`,
  `HandleQuantity`, `AddFromCard`) also return the request they would send,
  so "no request is sent" is stated as `request == None`.
- **Registration and login forms** (`register.dfy`, `login.dfy`,
  `validation.dfy`). Field updates, validation and submit gating are pure
  functions. The validation chains are proved equal to the reference
  `FirstFailure`, which runs an ordered list of checks and reports the first
  one that fails. `persistLogin` is three writes into a `KeyValueStore`
  (`common.dfy`), a class over a string map.
- **Session** (`session.dfy`). A token recorded by `persistLogin` is read back
  by a products page built afterwards.

Prices and quantities are unbounded integers, not JavaScript numbers. An
absent `qty` (JavaScript `undefined`) is `None`. A missing or empty token
counts as logged out, the JavaScript truthiness of the stored value.

The join does not build fresh cart items. At `src/components/Cart.js:56` it
assigns `product.qty` on the catalogue objects themselves and returns those
same objects, so `GenerateCartItemsFrom` modifies the catalogue. Its
postcondition says which objects change and to what: a product some record
names gets the quantity of the first such record, and every other product
keeps the `qty` it had before (the `else old(p.qty)` clause). A product that
has left the server's cart therefore keeps its old quantity on the catalogue
object; it is no longer in the returned list, so the totals never see it.

## Model

| member | source | states |
|---|---|---|
| `Cart.FirstMatch` | src/components/Cart.js:54-58 | the position the inner scan stops at: the record there names the product, and every earlier record names another one; past the end when none does |
| `Cart.InCartIff` | src/components/Cart.js:53-59 | a product is kept exactly when some cart record's `productId` equals its `_id` |
| `Cart.QtyForIsFirstRecord` | src/components/Cart.js:54-57 | the quantity given to a kept product is that of the earliest record naming it, because the scan returns at the first match |
| `Cart.PositionsIndex` | src/components/Cart.js:53-60 | the positions of the named catalogue products, in catalogue order, index the join's output item by item |
| `Cart.PositionsIncreasing` | src/components/Cart.js:53-60 | those positions lie inside the catalogue and strictly increase |
| `Cart.PositionsCover` | src/components/Cart.js:53-60 | a catalogue position is among them exactly when some record names the product there |
| `Cart.CartProductsPositions` | src/components/Cart.js:53-60 | the join's output is the catalogue taken at strictly increasing positions, namely exactly the positions whose product some record names: a subsequence in catalogue order (not record order) that skips no matched product |
| `Cart.CartProductsMembership` | src/components/Cart.js:53-59 | a product object is in the output exactly when it is in the catalogue and some record names it, so records without a catalogue match are dropped |
| `Cart.CartProductsEmpty` | src/components/Cart.js:53-60 | empty cart data or an empty catalogue gives an empty result |
| `Cart.CartProductsLength` | src/components/Cart.js:53-60 | the output is never longer than the catalogue |
| `Cart.RecordIdsBound` | src/components/Cart.js:54 | the records name at most as many distinct product ids as there are records |
| `Cart.CartProductsIdsSubset` | src/components/Cart.js:53-59 | every id in the output is the id of a catalogue product and is named by some record |
| `Cart.CartProductsIdsDistinct` | src/components/Cart.js:53-60 | over a catalogue whose ids are distinct, the output's ids are distinct too |
| `Cart.CartProductsBoundedByRecords` | src/components/Cart.js:53-60 | over a catalogue whose ids are distinct, the output has no more items than there are cart records, indeed no more than the ids both the catalogue and the records hold |
| `Cart.DuplicateIdsExceedRecords` | src/components/Cart.js:53-60 | without distinct catalogue ids the bound fails: two catalogue objects with id A and a single record for A give both objects, two items for one record |
| `Cart.CartProductsSnoc` | src/components/Cart.js:53-60 | the defining equation of `CartProducts` unfolded at `catalog + [p]`: one more catalogue product at the end adds that product at the end of the output exactly when some record names it; a helper for the concrete scenarios |
| `Cart.CatalogueOrderWins` | src/components/Cart.js:53-60 | records naming B then A, over a catalogue listing A then B, yield A then B |
| `Cart.MatchRecord` | src/components/Cart.js:53-59 | the filter's callback scans the records and stops at the first naming the product: it reports a match exactly when some record names it, and then writes that first record's quantity onto the product; otherwise the product is unchanged |
| `Cart.GenerateCartItemsFrom` | src/components/Cart.js:52-63 | the filter over the catalogue, calling `MatchRecord` for each product, returns `CartProducts` of its inputs; it sets `qty` on every catalogue object that some record names to that of the first such record, and leaves every other product unmodified |
| `Cart.JoinedItemsArePriced` | src/components/Cart.js:53-60 | after the join, every returned item carries the quantity of the first record naming it |
| `Cart.TotalsAppend` | src/components/Cart.js:75-89 | both totals are additive over concatenated item lists |
| `Cart.TotalsNonNegative` | src/components/Cart.js:75-89 | with non-negative costs and quantities neither total is negative |
| `Cart.TotalValueAtLeastCheapest` | src/components/Cart.js:75-89 | when every price is at least `c` and no quantity is negative, the cart's value is at least `c` times its item count |
| `Cart.GetTotalCartValue` | src/components/Cart.js:75-81 | the accumulating loop returns the sum of `cost * qty` over the items, and 0 for an empty or omitted list |
| `Cart.GetTotalItems` | src/components/Cart.js:83-89 | the accumulating loop returns the sum of `qty` over the items, and 0 for an empty or omitted list |
| `Cart.JoinOneRecord` | src/components/Cart.js:53-60 | one record for 3 of B over a catalogue listing A then B keeps B alone, with quantity 3, and drops A |
| `Cart.SingleItemTotals` | src/components/Cart.js:75-89 | a one-item cart's value is that item's price times its quantity and its count is its quantity |
| `Cart.ScenarioSingleRecord` | src/components/Cart.js:52-89 | two products A at 100 and B at 50 are built, joined with one record for 3 of B, and both totals taken of the result: the join returns B alone with `qty` 3 written onto it, the value is 150 and the count 3 |
| `Cart.CartRows` | src/components/Cart.js:165-196 | one row per item in item order, each with the item's id, name, image, cost and quantity; in the editable cart its buttons request `qty - 1` and `qty + 1` for that id, with no clamping; read-only rows show the quantity alone |
| `Cart.RenderCart` | src/components/Cart.js:142-289 | an empty item list shows the empty cart; otherwise the rows above, an order total equal to the sum of `cost * qty`, a checkout (tagged `from: "Cart"`) only in the editable view, and only when read-only the order details: count, subtotal, shipping 0, and grand total = subtotal + shipping, which equals the subtotal |
| `Products.JoinedCartHasProduct` | src/components/Products.js:185-206 | after a cart update, the joined cart holds a product id exactly when the catalogue has it and some returned record names it; this is the fact the duplicate guard tests |
| `Products.ProductsPage.constructor` | src/components/Products.js:44-55 | a new page starts with an empty catalogue and cart and the token the store holds |
| `Products.ProductsPage.PerformAPICall` | src/components/Products.js:73-86 | a catalogue response replaces the products; a failure keeps them |
| `Products.ProductsPage.PerformSearch` | src/components/Products.js:108-119 | search results replace the products; a 404 empties them; any other failure keeps them |
| `Products.ProductsPage.FetchCart` | src/components/Products.js:145-171 | no token: no request and nothing changes. An empty server cart changes nothing. A non-empty one becomes the join of the records with the current catalogue, with `qty` written onto the matched products. A 404 empties the catalogue with "No Products found"; any other failure keeps the state and reports the generic error |
| `Products.ProductsPage.HandleAddToCart` | src/components/Products.js:177-211 | no token: warning, no request, nothing changes. Duplicate check on and the id already in `cartData`: warning, no request, nothing changes. Otherwise it posts `{productId, qty}` with the token; success sets `itemData` to the response and `cartData` to the join of the response with the catalogue; failure leaves the state as it was |
| `Products.ProductsPage.HandleQuantity` | src/components/Products.js:213-216 | with a token, the new quantity is always posted whatever the cart holds: the duplicate guard never blocks a quantity change. Success sets `itemData` to the response and `cartData` to its join with the catalogue, writing onto every named product the quantity of its first record, so the changed quantity is what the cart shows. An error answer reports its message; no token warns "Login to add an item to the Cart"; without success nothing changes |
| `Products.ProductsPage.CartSidebar` | src/components/Products.js:300-320 | the cart sidebar is shown exactly when there is a token; it is the editable cart of `cartData`: empty exactly when `cartData` is, otherwise its rows, order total `TotalValue` of the items, a checkout, and no order details |
| `Products.ProductsPage.AddFromCard` | src/components/Products.js:270 | a product card requests quantity 1 for its product with the duplicate check on: a request is sent exactly when there is a token and the product is not in the cart. When nothing is sent it warns "Login to add an item to the Cart" without a token and "Item already in cart…" otherwise. Success joins the response with the catalogue and writes each named product's quantity; an error answer reports its message; without success nothing changes |
| `Validation.FirstFailure` | src/components/Register.js:113-136 | an ordered chain of checks passes exactly when every check holds; otherwise it reports the warning of a failing check before which all checks hold |
| `Validation.FirstFailureAt` | src/components/Register.js:113-136 | the first failing check's warning is the one reported, whatever later checks say |
| `Register.HandleInput` | src/components/Register.js:23-28 | the named field takes the value and the other two fields keep theirs |
| `Register.Utf16Length` | src/components/Register.js:118-126 | the `.length` of a JavaScript string: its count of UTF-16 code units, between its character count and twice that, and zero exactly for the empty string |
| `Register.ValidateInput` | src/components/Register.js:113-136 | validation passes exactly when the username and the password each have at least 6 UTF-16 code units and the password equals the confirmation |
| `Register.ValidateInputIsFirstFailure` | src/components/Register.js:113-136 | the if/else chain reports exactly the first failing check of the ordered list: username required, username length, password required, password length, passwords match |
| `Register.ValidationWarnings` | src/components/Register.js:115-133 | the warning of each case, lengths counted in UTF-16 code units: "Username is a required field", "Username must be at least 6 characters", "Password is a required field", "Password must be at least 6 characters", "Passwords do not match" |
| `Register.AstralUsernamePasses` | src/components/Register.js:118 | a username of three characters outside the Basic Multilingual Plane is six code units long, so with a confirmed seven-letter password the form passes |
| `Register.SubmitEmptyForm` | src/components/Register.js:15-19 | submitting the form as first shown, with every input empty, sends nothing and reports "Username is a required field" |
| `Register.FillEmptyForm` | src/components/Register.js:15-28 | typing into each input of the initial empty form yields exactly the typed values, in either filling order |
| `Register.HandleSubmit` | src/components/Register.js:30-39 | a request is built exactly when validation passes; its body carries username and password and no confirmation; otherwise the validation warning is the result |
| `Login.HandleInput` | src/components/Login.js:24-29 | the named field takes the value and the other keeps its own |
| `Login.ValidateInput` | src/components/Login.js:112-125 | validation passes exactly when both fields are non-empty, with no length check |
| `Login.ValidateInputIsFirstFailure` | src/components/Login.js:112-125 | the chain reports the first failing check; an empty username gives "Username is a required field" whatever the password; a username with an empty password gives "Password is a required field" |
| `Login.HandleSubmit` | src/components/Login.js:31-41 | `login` is called with username and password exactly when validation passes |
| `Login.SubmitEmptyForm` | src/components/Login.js:15-18 | submitting the form as first shown, with both inputs empty, calls nothing and reports "Username is a required field" |
| `Login.FillEmptyForm` | src/components/Login.js:15-29 | typing into both inputs of the initial empty form yields exactly the typed values, in either order |
| `Login.PersistLogin` | src/components/Login.js:143-148 | afterwards the store maps "token", "username" and "balance" to the given values, and every other key keeps its value |
| `Session.LoginThenChangeQuantity` | src/components/Products.js:55 | once a non-empty token is persisted, a products page built afterwards posts a quantity change with that token |

## Left out

- HTTP requests. The axios calls are not modelled. Every method that talks to the backend takes its answer as an argument (`Response`); the cart methods `FetchCart`, `HandleAddToCart`, `HandleQuantity` and `AddFromCard` also return the request they would send.
- Handling of the login and registration responses is not modelled: success notices, the 400 message, the unreachable-backend message, navigation, and the `isProcessing`/`Loader` spinner flags. This is response handling of HTTP calls.
- The debounced search timer (`debounceSearch`, `setTimeout`/`clearTimeout`) is not modelled; it is timer scheduling. The text of a search query is not modelled either, only the answer.
- Rendering, routing and notification display are not modelled: JSX, MUI components, snackbar display, `history.push`, `src/components/Header.js` (buttons and logout, which clears the store and reloads the page) and `src/components/ProductCard.js`. Notices and the checkout navigation are returned as values.
- React's asynchronous state updates are not modelled: setters take effect at once, and a handler sees the state current at its call, not the state of the render that created it.
- The session token is read once, when a `ProductsPage` is built, whereas the component reads it from the store on each render (src/components/Products.js:55). A change to the store after the page is built, such as a logout or a later login, is not seen by the model's page.
- `Cart.GetTotalCartValue`, `Cart.GetTotalItems` and `Cart.RenderCart` require every item to carry a quantity (`Priced`). Every list the source passes comes from the join, and `ProductsPage` keeps `Priced(cartData)` as a precondition and postcondition of each of its methods. JavaScript's `NaN` for an absent quantity is not modelled.
- Prices and quantities are integers. Floating point and the JavaScript `+` on a string `qty` (the typedef says string) are not modelled.
- `Login.PersistLogin` takes the balance as the string the store keeps. The conversion of the backend's number to a string by `setItem` is not modelled.
- `Register.HandleInput` and `Login.HandleInput` take one of the form's own input names. An unknown name, which would add a new key to the JavaScript object, is not modelled.
- `Products.ProductsPage.HandleAddToCart` reports, on an error response, `Failed.message`, which stands for `err.response.message` exactly as the source reads it (src/components/Products.js:209). That is a property of the axios response object, not necessarily the backend's message, which the login and registration handlers read from `err.response.data.message`. With no response at all, the source's error handler throws and shows nothing, and the model returns no notice.
- The empty stubs `register` and `OrderDetails` have no behaviour to model.
