/** The `productReview` component: four bound fields, an error list, and
    `onSubmit`, which either publishes a review on the channel or reports
    the missing fields. */
module ReviewForm {
  import opened Reviews
  import opened Catalog

  class ProductReview {
    var name: Option<string>
    var review: Option<string>
    var rating: Option<int>
    var recommend: Option<string>
    var errors: seq<string>

    /** The form's fields as one value. */
    function State(): FormState
      reads this
    {
      FormState(name, review, rating, recommend, errors)
    }

    /** All fields start unset and there are no errors. */
    constructor ()
      ensures State() == FormState(None, None, None, None, [])
    {
      name, review, rating, recommend := None, None, None, None;
      errors := [];
    }

    /** `onSubmit`: the new form state is `Submit` of the old one, and the
        review `Submit` publishes, if any, reaches every subscriber once. */
    method OnSubmit(bus: ReviewBus)
      requires bus.Valid()
      modifies this, set p | p in bus.subscribers
      ensures State() == Submit(old(State())).form
      ensures match Submit(old(State())).published
        case Some(r) => forall p :: p in bus.subscribers ==> p.reviews == old(p.reviews) + [r]
        case None => forall p :: p in bus.subscribers ==> p.reviews == old(p.reviews)
      ensures forall p :: p in bus.subscribers ==> p.selectedVariant == old(p.selectedVariant)
    {
      ghost var f := State();
      if TextPresent(name) && TextPresent(review) && RatingPresent(rating) && TextPresent(recommend) {
        var productReview := Review(name.value, review.value, rating.value, recommend.value);
        bus.Publish(productReview);
        name := None;
        review := None;
        rating := None;
        recommend := None;
      } else {
        if !TextPresent(name) { errors := errors + ["Name required"]; }
        if !TextPresent(review) { errors := errors + ["Review required"]; }
        if !RatingPresent(rating) { errors := errors + ["Rating required"]; }
        if !TextPresent(recommend) { errors := errors + ["Recommendation required"]; }
        assert errors == f.errors + MissingMessages(f);
      }
    }
  }

  /** A complete submission reaches the mounted product's reviews, clears
      the fields and leaves the (empty) error list alone. */
  method SubmitScenario() returns (stored: seq<Review>, form: FormState)
    ensures stored == [Review("Ann", "Great", 5, "yes")]
    ensures form == FormState(None, None, None, None, [])
  {
    var bus := new ReviewBus();
    var product := new Product(true);
    product.Mounted(bus);
    var composer := new ProductReview();
    composer.name := Some("Ann");
    composer.review := Some("Great");
    composer.rating := Some(5);
    composer.recommend := Some("yes");
    composer.OnSubmit(bus);
    stored, form := product.reviews, composer.State();
  }

  /** Two submissions with only a name: the three other messages twice. */
  method RepeatedFailureScenario() returns (stored: seq<Review>, errs: seq<string>)
    ensures stored == []
    ensures errs == Messages[1..] + Messages[1..]
  {
    var bus := new ReviewBus();
    var product := new Product(false);
    product.Mounted(bus);
    var composer := new ProductReview();
    composer.name := Some("Ann");
    composer.OnSubmit(bus);
    composer.OnSubmit(bus);
    stored, errs := product.reviews, composer.errors;
  }
}
