/** The products page: the catalogue it shows, the cart it keeps beside it,
    and the rules by which it asks the backend to change the cart. Requests
    are returned as values; the backend's answer is an argument. */
module Products {
  import opened Common
  import opened Cart

  /** The authorised cart requests the page sends, with their bearer token. */
  datatype CartRequest = GetCart(token: string) | PostCart(token: string, productId: string, qty: int)

  const LoginToAdd := "Login to add an item to the Cart"
  const AlreadyInCart := "Item already in cart. Use the cart sidebar to update quantity or remove item"
  const NoProductsFound := "No Products found"
  const SomethingWentWrong := "Something went wrong. Check the backend console for more details"

  /** Some item of the cart is the product `id`. */
  predicate HasProduct(items: seq<Product>, id: string)
  {
    exists i :: 0 <= i < |items| && items[i].id == id
  }

  /** Once the server's records name a product of the catalogue, the joined
      cart holds it, so a second add from its card is a duplicate; a product
      that no record names, or that the catalogue lacks, is not in it. */
  lemma {:induction false} JoinedCartHasProduct(records: seq<CartRecord>, catalog: seq<Product>, id: string)
    ensures HasProduct(CartProducts(records, catalog), id) <==> HasProduct(catalog, id) && InCart(records, id)
  {
    var items := CartProducts(records, catalog);
    if HasProduct(items, id) {
      var i :| 0 <= i < |items| && items[i].id == id;
      CartProductsMembership(records, catalog, items[i]);
      var j :| 0 <= j < |catalog| && catalog[j] == items[i];
    }
    if HasProduct(catalog, id) && InCart(records, id) {
      var j :| 0 <= j < |catalog| && catalog[j].id == id;
      CartProductsMembership(records, catalog, catalog[j]);
      var i :| 0 <= i < |items| && items[i] == catalog[j];
    }
  }

  /** The state of the `Products` component: the displayed catalogue, the
      joined cart items, the raw records of the last cart update, and the
      session token read from the key-value store. */
  class ProductsPage {
    var products: seq<Product>
    var cartData: seq<Product>
    var itemData: seq<CartRecord>
    const token: Option<string>

    /** A fresh page: empty catalogue and cart, and the token as the store
        holds it when the page is built. */
    constructor (store: KeyValueStore)
      ensures products == [] && cartData == [] && itemData == []
      ensures token == store.GetItem(TokenKey)
      ensures Priced(cartData)
    {
      products := [];
      cartData := [];
      itemData := [];
      token := store.GetItem(TokenKey);
    }

    /** `performAPICall`: a catalogue response replaces the products; a
        failure leaves them as they were. */
    method PerformAPICall(response: Response<seq<Product>>)
      requires Priced(cartData)
      modifies this`products
      ensures products == (if response.Ok? then response.data else old(products))
      ensures Priced(cartData)
    {
      if response.Ok? {
        products := response.data;
      }
    }

    /** `performSearch`: the matching products replace the list, and a 404
        empties it. Any other error keeps the list; with no response at all
        the error handler itself fails reading the status, which also keeps
        it. */
    method PerformSearch(response: Response<seq<Product>>)
      requires Priced(cartData)
      modifies this`products
      ensures Priced(cartData)
      ensures response.Ok? ==> products == response.data
      ensures response.Failed? && response.status == 404 ==> products == []
      ensures !response.Ok? && !(response.Failed? && response.status == 404) ==> products == old(products)
    {
      match response
      case Ok(data) =>
        products := data;
      case Failed(status, _) =>
        if status == 404 {
          products := [];
        }
      case Unreachable =>
    }

    /** `fetchCart`: with no token nothing is requested. Otherwise the cart is
        requested; a non-empty answer becomes the cart, joined with the
        current catalogue (the join runs twice, once for a log line, which
        writes the same quantities twice); an empty answer changes nothing; a
        404 empties the catalogue. The notices carry no variant because the
        options misspell the key. */
    method FetchCart(token: Option<string>, response: Response<seq<CartRecord>>)
      returns (request: Option<CartRequest>, notice: Option<Notice>)
      requires Priced(cartData)
      modifies this`cartData, this`products, products
      ensures Priced(cartData)
      ensures request == (if Truthy(token) then Some(GetCart(token.value)) else None)
      ensures request.None? || (response.Ok? && response.data == []) ==>
        notice == None && cartData == old(cartData) && products == old(products) &&
        forall p :: p in old(products) ==> p.qty == old(p.qty)
      ensures request.Some? && response.Ok? && response.data != [] ==>
        notice == None && products == old(products) &&
        cartData == CartProducts(response.data, products) &&
        forall p :: p in products ==>
          p.qty == (if InCart(response.data, p.id) then Some(QtyFor(response.data, p.id)) else old(p.qty))
      ensures request.Some? && response.Failed? && response.status == 404 ==>
        notice == Some(Notice(NoProductsFound, Default)) && products == [] && cartData == old(cartData)
      ensures request.Some? && !response.Ok? && !(response.Failed? && response.status == 404) ==>
        notice == Some(Notice(SomethingWentWrong, Default)) && products == old(products) && cartData == old(cartData)
      ensures request.Some? && !response.Ok? ==> forall p :: p in old(products) ==> p.qty == old(p.qty)
    {
      if !Truthy(token) {
        return None, None;
      }
      request := Some(GetCart(token.value));
      notice := None;
      match response
      case Ok(records) =>
        if |records| != 0 {
          var logged := GenerateCartItemsFrom(records, products);
          var items := GenerateCartItemsFrom(records, products);
          JoinedItemsArePriced(records, products, items);
          cartData := items;
        }
      case Failed(status, _) =>
        if status == 404 {
          products := [];
          notice := Some(Notice(NoProductsFound, Default));
        } else {
          notice := Some(Notice(SomethingWentWrong, Default));
        }
      case Unreachable =>
        notice := Some(Notice(SomethingWentWrong, Default));
    }

    /** `handleAddToCart`: without a token, or when the duplicate check is on
        and the product is already in the cart, it warns and sends nothing.
        Otherwise it posts the product and quantity; the answer becomes the
        raw records and, joined with the catalogue, the cart. An error answer
        is reported with its message and changes nothing; with no response
        the error handler itself fails, so nothing is reported. */
    method HandleAddToCart(productId: string, qty: int, addToCartFlag: bool, response: Response<seq<CartRecord>>)
      returns (request: Option<CartRequest>, notice: Option<Notice>)
      requires Priced(cartData)
      modifies this`cartData, this`itemData, products
      ensures Priced(cartData)
      ensures !Truthy(token) ==> request == None && notice == Some(Notice(LoginToAdd, Warning))
      ensures Truthy(token) && addToCartFlag && HasProduct(old(cartData), productId) ==>
        request == None && notice == Some(Notice(AlreadyInCart, Warning))
      ensures Truthy(token) && !(addToCartFlag && HasProduct(old(cartData), productId)) ==>
        request == Some(PostCart(token.value, productId, qty))
      ensures request.Some? && response.Ok? ==>
        notice == None && itemData == response.data &&
        cartData == CartProducts(response.data, products) &&
        forall p :: p in products ==>
          p.qty == (if InCart(response.data, p.id) then Some(QtyFor(response.data, p.id)) else old(p.qty))
      ensures request.Some? && response.Failed? ==> notice == Some(Notice(response.message, Error))
      ensures request.Some? && response.Unreachable? ==> notice == None
      ensures request.None? || !response.Ok? ==>
        cartData == old(cartData) && itemData == old(itemData) &&
        forall p :: p in products ==> p.qty == old(p.qty)
    {
      if !Truthy(token) {
        return None, Some(Notice(LoginToAdd, Warning));
      }
      if addToCartFlag && HasProduct(cartData, productId) {
        return None, Some(Notice(AlreadyInCart, Warning));
      }
      request := Some(PostCart(token.value, productId, qty));
      notice := None;
      match response
      case Ok(records) =>
        itemData := records;
        cartData := GenerateCartItemsFrom(records, products);
        JoinedItemsArePriced(records, products, cartData);
      case Failed(_, message) =>
        notice := Some(Notice(message, Error));
      case Unreachable =>
    }

    /** `handleQuantity`: a cart button's quantity change goes through
        `handleAddToCart` with the duplicate check off, so with a token the
        new quantity is always posted, whatever the cart holds. */
    method HandleQuantity(productId: string, qty: int, response: Response<seq<CartRecord>>)
      returns (request: Option<CartRequest>, notice: Option<Notice>)
      requires Priced(cartData)
      modifies this`cartData, this`itemData, products
      ensures Priced(cartData)
      ensures request == (if Truthy(token) then Some(PostCart(token.value, productId, qty)) else None)
      ensures request.None? ==> notice == Some(Notice(LoginToAdd, Warning))
      ensures request.Some? && response.Ok? ==>
        notice == None && itemData == response.data &&
        cartData == CartProducts(response.data, products) &&
        forall p :: p in products ==>
          p.qty == (if InCart(response.data, p.id) then Some(QtyFor(response.data, p.id)) else old(p.qty))
      ensures request.Some? && response.Failed? ==> notice == Some(Notice(response.message, Error))
      ensures request.Some? && response.Unreachable? ==> notice == None
      ensures request.None? || !response.Ok? ==>
        cartData == old(cartData) && itemData == old(itemData) &&
        forall p :: p in products ==> p.qty == old(p.qty)
    {
      request, notice := HandleAddToCart(productId, qty, false, response);
    }

    /** The add button of a product card: one unit of that product, with the
        duplicate check on, so a product already in the cart is not posted. */
    method AddFromCard(product: Product, response: Response<seq<CartRecord>>)
      returns (request: Option<CartRequest>, notice: Option<Notice>)
      requires Priced(cartData)
      modifies this`cartData, this`itemData, products
      ensures Priced(cartData)
      ensures request.Some? <==> Truthy(token) && !HasProduct(old(cartData), product.id)
      ensures request.Some? ==> request.value == PostCart(token.value, product.id, 1)
      ensures request.None? ==> notice == Some(Notice(if Truthy(token) then AlreadyInCart else LoginToAdd, Warning))
      ensures request.None? || !response.Ok? ==>
        cartData == old(cartData) && itemData == old(itemData) &&
        forall p :: p in products ==> p.qty == old(p.qty)
      ensures request.Some? && response.Ok? ==>
        notice == None && itemData == response.data &&
        cartData == CartProducts(response.data, products) &&
        forall p :: p in products ==>
          p.qty == (if InCart(response.data, p.id) then Some(QtyFor(response.data, p.id)) else old(p.qty))
      ensures request.Some? && response.Failed? ==> notice == Some(Notice(response.message, Error))
      ensures request.Some? && response.Unreachable? ==> notice == None
    {
      request, notice := HandleAddToCart(product.id, 1, true, response);
    }

    /** The cart sidebar: shown only to a logged-in user, as the editable
        cart of the joined items. Every item there carries a quantity, so
        the totals are defined. */
    method CartSidebar() returns (view: Option<CartView>)
      requires Priced(cartData)
      ensures view.Some? <==> Truthy(token)
      ensures view.Some? ==> (view.value.EmptyCart? <==> cartData == [])
      ensures view.Some? && view.value.Filled? ==>
        view.value.rows == CartRows(cartData, false) &&
        view.value.orderTotal == TotalValue(LinesOf(cartData)) &&
        view.value.checkout == Some(Navigate("/checkout", Some("Cart"))) &&
        view.value.details == None
    {
      if !Truthy(token) {
        return None;
      }
      var cart := RenderCart(cartData);
      view := Some(cart);
    }
  }
}
