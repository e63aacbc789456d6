/** How the login page and the products page meet: through the session
    token in the key-value store. */
module Session {
  import opened Common
  import opened Cart
  import opened Products
  import Login

  /** After `persistLogin` has recorded a non-empty token, a products page
      built afterwards reads that token back, so a quantity change from its
      cart is posted with it. */
  method LoginThenChangeQuantity(store: KeyValueStore, token: string, username: string, balance: string,
                                 productId: string, qty: int, response: Response<seq<CartRecord>>)
    returns (request: Option<CartRequest>)
    requires token != ""
    modifies store
    ensures request == Some(PostCart(token, productId, qty))
  {
    Login.PersistLogin(store, token, username, balance);
    var page := new ProductsPage(store);
    var notice;
    request, notice := page.HandleQuantity(productId, qty, response);
  }
}
