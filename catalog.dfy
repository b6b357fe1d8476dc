/** The `product` component: the variant selection, its derived values,
    the cart events it emits, and the review channel it subscribes to. */
module Catalog {
  import opened Reviews

  datatype Variant = Variant(variantId: int, variantColor: string, variantImage: string, variantQty: int)

  /** The shipping value: the text "Free" or an amount in cents. */
  datatype ShippingCost = Free | Amount(cents: nat)

  /** The standard shipping charge, 2.99, in cents. */
  const StandardShippingCents: nat := 299

  const OnSaleSuffix: string := " are on sale!"
  const NotOnSaleSuffix: string := " are not on sale"

  predicate EndsWith(s: string, suffix: string) {
    |suffix| <= |s| && s[|s| - |suffix|..] == suffix
  }

  class Product {
    const premium: bool
    const brand: string
    const name: string
    const onSale: bool
    const variants: seq<Variant>
    var selectedVariant: int
    var reviews: seq<Review>

    /** The selected index points into `variants`. */
    ghost predicate Valid()
      reads this
    {
      0 <= selectedVariant < |variants|
    }

    /** The component's initial data, with `premium` passed in as its prop. */
    constructor (premium: bool)
      ensures Valid()
      ensures this.premium == premium && brand == "Vue Mastery" && name == "Socks" && onSale
      ensures variants == [
        Variant(2234, "green", "./assets/vmSocks-green.jpg", 10),
        Variant(2235, "blue", "./assets/vmSocks-blue.jpg", 0)]
      ensures selectedVariant == 0 && reviews == []
    {
      this.premium := premium;
      brand := "Vue Mastery";
      name := "Socks";
      onSale := true;
      variants := [
        Variant(2234, "green", "./assets/vmSocks-green.jpg", 10),
        Variant(2235, "blue", "./assets/vmSocks-blue.jpg", 0)];
      selectedVariant := 0;
      reviews := [];
    }

    /** `add-to-cart` event: its payload is the selected variant's id. */
    method AddToCart() returns (id: int)
      requires Valid()
      ensures id == variants[selectedVariant].variantId
      ensures exists k :: 0 <= k < |variants| && variants[k].variantId == id
    {
      id := variants[selectedVariant].variantId;
    }

    /** `remove-from-cart` event: its payload is the selected variant's id. */
    method OutOfCart() returns (id: int)
      requires Valid()
      ensures id == variants[selectedVariant].variantId
      ensures exists k :: 0 <= k < |variants| && variants[k].variantId == id
    {
      id := variants[selectedVariant].variantId;
    }

    /** `updateProduct(index)`: select another variant; the derived values
        follow it and nothing else changes. */
    method UpdateProduct(index: int)
      requires 0 <= index < |variants|
      modifies this`selectedVariant
      ensures Valid() && selectedVariant == index
      ensures Image() == variants[index].variantImage
      ensures InStock() <==> variants[index].variantQty != 0
    {
      selectedVariant := index;
    }

    /** `title`: the brand and the name joined by one space, so both can be
        read back from it. */
    function Title(): (t: string)
      ensures |t| == |brand| + 1 + |name|
      ensures t[..|brand|] == brand && t[|brand|] == ' ' && t[|brand| + 1..] == name
    {
      brand + " " + name
    }

    /** `image`: the selected variant's image, so always one of the
        variants' images. */
    function Image(): (img: string)
      reads this
      requires Valid()
      ensures img == variants[selectedVariant].variantImage
      ensures exists k :: 0 <= k < |variants| && variants[k].variantImage == img
    {
      variants[selectedVariant].variantImage
    }

    /** `inStock`: the truthiness of the selected variant's quantity. */
    function InStock(): (inStock: bool)
      reads this
      requires Valid()
      ensures inStock <==> variants[selectedVariant].variantQty != 0
      ensures !inStock ==> variants[selectedVariant].variantQty == 0
    {
      variants[selectedVariant].variantQty != 0
    }

    /** `sale`: the title followed by a suffix that tells whether the
        product is on sale. */
    function Sale(): (msg: string)
      ensures |Title()| < |msg| && msg[..|Title()|] == Title()
      ensures |msg| == |Title()| + if onSale then |OnSaleSuffix| else |NotOnSaleSuffix|
      ensures EndsWith(msg, OnSaleSuffix) <==> onSale
      ensures !onSale ==> EndsWith(msg, NotOnSaleSuffix)
    {
      if onSale then brand + " " + name + OnSaleSuffix
      else
        var m := brand + " " + name + NotOnSaleSuffix;
        assert m[|m| - |OnSaleSuffix|..][|OnSaleSuffix| - 1] == m[|m| - 1] == 'e';
        m
    }

    /** `shipping`: free exactly for premium users, otherwise 2.99. */
    function Shipping(): (s: ShippingCost)
      ensures s == Free <==> premium
      ensures !premium ==> s == Amount(StandardShippingCents)
    {
      if premium then Free else Amount(StandardShippingCents)
    }

    /** The `review-submitted` handler registered in `mounted`. */
    method OnReviewSubmitted(r: Review)
      modifies this`reviews
      ensures reviews == old(reviews) + [r]
    {
      reviews := reviews + [r];
    }

    /** `mounted`: register this product's handler on the review channel. */
    method Mounted(bus: ReviewBus)
      requires bus.Valid() && this !in bus.subscribers
      modifies bus
      ensures bus.Valid() && bus.subscribers == old(bus.subscribers) + [this]
    {
      bus.Subscribe(this);
    }
  }

  /** The shared review channel: the products subscribed to it, in
      subscription order. There is no way to unsubscribe. */
  class ReviewBus {
    var subscribers: seq<Product>

    /** Each component instance is mounted, and so subscribed, once. */
    ghost predicate Valid()
      reads this
    {
      forall i, j :: 0 <= i < j < |subscribers| ==> subscribers[i] != subscribers[j]
    }

    constructor ()
      ensures Valid() && subscribers == []
    {
      subscribers := [];
    }

    method Subscribe(p: Product)
      requires Valid() && p !in subscribers
      modifies this
      ensures Valid() && subscribers == old(subscribers) + [p]
    {
      subscribers := subscribers + [p];
    }

    /** Deliver `r` to every subscriber: each one's reviews gain `r` at the
        end, nothing already there changes, and no selection moves. */
    method Publish(r: Review)
      requires Valid()
      modifies set p | p in subscribers
      ensures forall p :: p in subscribers ==> p.reviews == old(p.reviews) + [r]
      ensures forall p :: p in subscribers ==> p.selectedVariant == old(p.selectedVariant)
    {
      var i := 0;
      while i < |subscribers|
        invariant 0 <= i <= |subscribers|
        invariant forall k :: 0 <= k < i ==> subscribers[k].reviews == old(subscribers[k].reviews) + [r]
        invariant forall k :: i <= k < |subscribers| ==> subscribers[k].reviews == old(subscribers[k].reviews)
        invariant forall k :: 0 <= k < |subscribers| ==> subscribers[k].selectedVariant == old(subscribers[k].selectedVariant)
      {
        subscribers[i].OnReviewSubmitted(r);
        i := i + 1;
      }
    }
  }
}
