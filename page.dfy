/** The root application and one product together: the root's `premium`
    flag is the product's prop, and the product's cart events carry the
    ids the root's cart handlers receive. */
module Page {
  import opened Cart
  import opened Catalog

  /** A premium root gives free shipping. Adding the selected (first)
      variant, then selecting the second and removing it, leaves only the
      first variant's id in the cart. */
  method ShopScenario() returns (shipping: ShippingCost, contents: seq<int>)
    ensures shipping == Free
    ensures contents == [2234]
  {
    var app := new App();
    var product := new Product(app.premium);
    shipping := product.Shipping();
    var added := product.AddToCart();
    app.UpdateCart(added);
    product.UpdateProduct(1);
    var removed := product.OutOfCart();
    app.RemoveItem(removed);
    contents := app.cart;
    WithoutAbsent([2234], 2235);
  }
}
