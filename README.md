# Product page state: cart ledger, variant selection, review pipeline

A model of the state logic of a small Vue product page (`main.js`). It has three parts.

- **Cart ledger** (module `Cart`). This is the root application's `cart`, a list of variant ids. `updateCart(id)` pushes an id. `removeItem(id)` walks the list from the back and splices out every entry equal to `id`. `Cart.App` is a class whose `cart` field is a `seq<int>`. `RemoveItem` keeps the source's backward loop with in-place deletion. It is proved equal to `Without(old(cart), id)`, which drops every `id` and keeps everything else in order. The lemmas about `Without` cover the rest: multiplicities, concatenation, idempotence, and what it does to an id that is absent or was just pushed.
- **Product component** (module `Catalog`). `Catalog.Product` holds the component's data: brand, name, sale flag, the two variants, `premium` (a prop), the selected index and the review list. `UpdateProduct` moves the selection. `AddToCart` and `OutOfCart` return the variant id their event carries. `Title`, `Image`, `InStock`, `Sale` and `Shipping` are the computed values. `Shipping` returns a tagged union, `ShippingCost = Free | Amount(cents)`, with 2.99 held as 299 cents.
- **Review pipeline** (modules `Reviews`, `Catalog`, `ReviewForm`). The global event bus is an explicit `Catalog.ReviewBus` object. It holds a list of subscribed products, and every component that uses it gets it as a parameter. A product's `mounted` hook subscribes it. `Publish` runs each subscriber's handler in subscription order, and the handler appends the review to that product's `reviews`. The form's `onSubmit` is `ReviewForm.ProductReview.OnSubmit`. It is proved against a pure transition `Reviews.Submit` on the form state. The properties of submission are proved about `Submit`: what one call publishes, which error messages it appends, and how repeated failures accumulate.
- **Page** (module `Page`). This joins the root application and a product. The root's `premium` flag becomes the product's prop, and the product's cart-event ids go to the root's cart methods.

JavaScript truthiness is written out. A text field (name, review, recommend) is present when it is set and not the empty string. The rating is present when it is set and not 0. A variant is in stock when its quantity is not 0.

Two points where the model follows the code:
- `updateProduct` has no bounds check (main.js:98-99). So `UpdateProduct` requires an index inside `variants`. That is all the template's `v-for` passes (main.js:29-33).
- `onSubmit` checks only truthiness (main.js:199). So `Review` carries any non-zero rating and any non-empty recommend text.

## Model

| member | source | states |
|---|---|---|
| `Cart.Without` | main.js:271-277 | the result is no longer than the input and no entry of it equals the removed id |
| `Cart.WithoutConcat` | main.js:272-276 | removal distributes over concatenation, so surviving entries keep their relative order |
| `Cart.WithoutMultiset` | main.js:272-276 | every other id keeps its multiplicity; the removed id has multiplicity 0 |
| `Cart.WithoutMembers` | main.js:271-277 | an id is in the result exactly when it was in the cart and is not the removed id |
| `Cart.WithoutAbsent` | main.js:271-277 | removing an id that is not in the cart leaves it unchanged |
| `Cart.WithoutIdempotent` | main.js:271-277 | a second removal of the same id is a no-op |
| `Cart.WithoutAfterPush` | main.js:268-277 | removing after a push drops the pushed entry exactly when it is the removed id, and keeps it at the end otherwise |
| `Cart.WithoutFrom` | main.js:272-275 | one backward step: the filtered suffix from `i` is the entry at `i` (unless it is the id) before the filtered suffix from `i + 1` |
| `Cart.WithoutExamples` | main.js:271-277 | removing 5 from [5, 7, 5, 9] gives [7, 9], and removing 2234 from [2234, 2235, 2234] gives [2235] |
| `Cart.App.constructor` | main.js:261-266 | the root state starts with `premium` true and an empty cart |
| `Cart.App.UpdateCart` | main.js:268-270 | the new cart is the old cart plus `[id]`, with every earlier entry unchanged |
| `Cart.App.RemoveItem` | main.js:271-277 | the backward splicing loop leaves exactly `Without(old cart, id)` |
| `Cart.RemoveDuplicatesScenario` | main.js:271-277 | pushing 5, 7, 5, 9 and removing 5 leaves [7, 9] |
| `Cart.AddRemoveScenario` | main.js:268-277 | pushing 2234, 2235, 2234 and removing 2234 leaves [2235] |
| `Reviews.Rank` | main.js:212-215 | each fixed message has one position in the order the form checks the fields |
| `Reviews.MissingMessages` | main.js:211-216 | no message is appended exactly when all four fields are present |
| `Reviews.MissingMessagesExact` | main.js:211-216 | the appended messages are the fixed messages of the missing fields only, each once, in the order name, review, rating, recommendation |
| `Reviews.Submit` | main.js:198-218 | one submission publishes a review exactly when all four fields are present; its branches are stated in `SubmitComplete` and `SubmitIncomplete` |
| `Reviews.SubmitComplete` | main.js:199-210 | a complete form publishes one review carrying exactly its four values, resets the four fields to unset and leaves the errors unchanged |
| `Reviews.SubmitIncomplete` | main.js:211-216 | an incomplete form publishes nothing, keeps its four fields and appends the missing-field messages to the existing errors |
| `Reviews.SubmitKeepsErrors` | main.js:198-218 | the error list is never cleared: the old list is a prefix of the new one |
| `Reviews.FailuresAccumulate` | main.js:211-216 | N failed submissions in a row append N copies of the same messages and leave the fields as they were |
| `Reviews.ResubmitAfterSuccess` | main.js:199-216 | submitting again right after a success publishes nothing and appends all four messages |
| `Catalog.Product.constructor` | main.js:50-90 | the initial data: brand, name, on sale, the two variants with their ids, images and quantities, the first variant selected, no reviews |
| `Catalog.Product.AddToCart` | main.js:92-94 | the `add-to-cart` payload is the selected variant's id |
| `Catalog.Product.OutOfCart` | main.js:95-97 | the `remove-from-cart` payload is the selected variant's id |
| `Catalog.Product.UpdateProduct` | main.js:98-101 | only the selection changes, to the given index; afterwards `image` is that variant's image and `inStock` holds exactly when its quantity is not 0 |
| `Catalog.Product.Image` | main.js:107-109 | the image is the selected variant's image, and so one of the variants' images; `UpdateProduct` states it for a newly selected variant |
| `Catalog.Product.InStock` | main.js:110-112 | the product is in stock exactly when the selected variant's quantity is not 0, the truthiness test the template applies; `UpdateProduct` states it for a newly selected variant |
| `Catalog.Product.Title` | main.js:104-106 | the title is the brand, one space and the name, and both can be read back from it |
| `Catalog.Product.Sale` | main.js:113-118 | the message is the title followed directly by the suffix: it starts with the title, its length is the title's plus the suffix's, and it ends in " are on sale!" exactly when the product is on sale and in " are not on sale" otherwise |
| `Catalog.Product.Shipping` | main.js:119-124 | shipping is `Free` exactly for premium users, and 299 cents otherwise |
| `Catalog.Product.OnReviewSubmitted` | main.js:127-129 | the handler appends the review at the end of `reviews` |
| `Catalog.Product.Mounted` | main.js:126-130 | mounting adds this product at the end of the channel's subscribers |
| `Catalog.ReviewBus.constructor` | main.js:1 | the channel starts with no subscribers |
| `Catalog.ReviewBus.Subscribe` | main.js:127 | a subscription is added at the end, and subscribers stay distinct |
| `Catalog.ReviewBus.Publish` | main.js:127-129 | every subscriber's reviews gain the published review at the end, with nothing earlier removed or changed; no selection moves |
| `ReviewForm.ProductReview.constructor` | main.js:188-196 | the form starts with all four fields unset and no errors |
| `ReviewForm.ProductReview.OnSubmit` | main.js:198-218 | the new form state is `Submit` of the old one; the review it publishes, if any, is appended to every subscribed product's reviews, and otherwise no reviews change |
| `ReviewForm.SubmitScenario` | main.js:199-210 | submitting Ann / Great / 5 / yes stores exactly that review, resets the fields and leaves the error list empty |
| `ReviewForm.RepeatedFailureScenario` | main.js:211-216 | two submissions with only a name store nothing and leave the three other messages twice, in order |

| `Page.ShopScenario` | main.js:92-99 | the root's `premium` (true) passed as the product's prop gives free shipping; adding the first variant, selecting the second and removing it leaves [2234] |

## Left out

- Templates, DOM rendering, CSS classes and `v-if`/`v-show` visibility are presentation, so they are not modelled. This includes the Add button being disabled when the variant is out of stock.
- The `productDetails` component and the `productTabs` tab switcher are left out. The tab switcher is only an unconditional field assignment in a click handler.
- The `desc`, `qty`, `href`, `details` and `sizes` data are left out because no logic reads them.
- Vue reactivity and `v-model` are left out. `ReviewForm`'s fields are ordinary fields that a caller assigns directly, which is what a binding does. Computed values are plain functions.
- The `$emit`/`$on` machinery is left out. Subscribers are the `Product` objects themselves rather than closures. A component event is the id its method returns.
- The page markup that routes `add-to-cart`/`remove-from-cart` to `updateCart`/`removeItem` and binds `premium` to the product's prop is not part of this model. `Page.ShopScenario` passes these values by hand.
- `console.log` in `updateProduct` is left out because it is I/O.
- `Catalog.ReviewBus.Subscribe`: requires that the product is not already subscribed, since Vue runs `mounted` once per instance. So a product subscribed twice, which would receive every review twice, is not modelled.
- `Catalog.Product.Shipping`: returns 2.99 as 299 integer cents, not as a JavaScript floating-point number.
- The cart holds `int` ids and uses mathematical equality for `===`, so values of other JavaScript types in the cart are not modelled.
- The review channel is global and does not filter by product. With several mounted products, every review reaches all of them. `Publish` states exactly that, and the model does not scope the channel.
