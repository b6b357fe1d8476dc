/** The review record and the validation performed by the review form's
    `onSubmit`, as a pure transition on the form's state. */
module Reviews {

  datatype Option<T> = None | Some(value: T)

  /** A published review: the four form values, taken as they were. */
  datatype Review = Review(name: string, review: string, rating: int, recommend: string)

  /** The form's four bound fields (unset is `None`) and its error list. */
  datatype FormState = FormState(
    name: Option<string>,
    review: Option<string>,
    rating: Option<int>,
    recommend: Option<string>,
    errors: seq<string>)

  /** What one submission yields: the next form state and what it publishes. */
  datatype Outcome = Outcome(form: FormState, published: Option<Review>)

  /** The error messages, in the order the form appends them. */
  const Messages: seq<string> :=
    ["Name required", "Review required", "Rating required", "Recommendation required"]

  /** JavaScript truthiness of a bound text field: set and not empty. */
  predicate TextPresent(v: Option<string>) {
    v.Some? && v.value != ""
  }

  /** JavaScript truthiness of the bound rating: set and not zero. */
  predicate RatingPresent(v: Option<int>) {
    v.Some? && v.value != 0
  }

  /** Whether field `k` (0 name, 1 review, 2 rating, 3 recommend) fails the check. */
  predicate Missing(f: FormState, k: nat)
    requires k < 4
  {
    match k
    case 0 => !TextPresent(f.name)
    case 1 => !TextPresent(f.review)
    case 2 => !RatingPresent(f.rating)
    case _ => !TextPresent(f.recommend)
  }

  predicate Complete(f: FormState) {
    TextPresent(f.name) && TextPresent(f.review) && RatingPresent(f.rating) && TextPresent(f.recommend)
  }

  /** Position of a message in `Messages`. */
  function Rank(m: string): (k: nat)
    requires m in Messages
    ensures k < 4 && Messages[k] == m
  {
    if m == Messages[0] then 0
    else if m == Messages[1] then 1
    else if m == Messages[2] then 2
    else 3
  }

  /** The messages a failed submission appends, checked field by field. */
  function MissingMessages(f: FormState): (msgs: seq<string>)
    ensures msgs == [] <==> Complete(f)
  {
    (if !TextPresent(f.name) then [Messages[0]] else [])
    + (if !TextPresent(f.review) then [Messages[1]] else [])
    + (if !RatingPresent(f.rating) then [Messages[2]] else [])
    + (if !TextPresent(f.recommend) then [Messages[3]] else [])
  }

  /** The appended messages are one per missing field, in the fixed order
      of `Messages`, and nothing else. */
  lemma MissingMessagesExact(f: FormState)
    ensures var msgs := MissingMessages(f);
      && (forall i :: 0 <= i < |msgs| ==> msgs[i] in Messages)
      && (forall k :: 0 <= k < 4 ==> (Messages[k] in msgs <==> Missing(f, k)))
      && (forall i, j :: 0 <= i < j < |msgs| ==> Rank(msgs[i]) < Rank(msgs[j]))
  {
  }

  /** One call of `onSubmit` on the form state `f`. */
  function Submit(f: FormState): (r: Outcome)
    ensures r.published.Some? <==> Complete(f)
  {
    if Complete(f) then
      Outcome(
        FormState(None, None, None, None, f.errors),
        Some(Review(f.name.value, f.review.value, f.rating.value, f.recommend.value)))
    else
      Outcome(f.(errors := f.errors + MissingMessages(f)), None)
  }

  /** A complete form publishes exactly its four values, clears the fields
      and leaves the error list as it was. */
  lemma SubmitComplete(f: FormState)
    requires Complete(f)
    ensures Submit(f).published == Some(Review(f.name.value, f.review.value, f.rating.value, f.recommend.value))
    ensures var g := Submit(f).form;
      g.name == None && g.review == None && g.rating == None && g.recommend == None && g.errors == f.errors
  {
  }

  /** An incomplete form publishes nothing, keeps its fields and appends
      only the messages of the missing fields to its errors. */
  lemma SubmitIncomplete(f: FormState)
    requires !Complete(f)
    ensures Submit(f).published == None
    ensures var g := Submit(f).form;
      g.name == f.name && g.review == f.review && g.rating == f.rating && g.recommend == f.recommend
    ensures Submit(f).form.errors == f.errors + MissingMessages(f)
    ensures |Submit(f).form.errors| > |f.errors|
  {
  }

  /** The error list is append-only: every submission keeps it as a prefix. */
  lemma SubmitKeepsErrors(f: FormState)
    ensures var e := Submit(f).form.errors; |f.errors| <= |e| && e[..|f.errors|] == f.errors
  {
  }

  /** `n` submissions in a row with no edits in between. */
  function SubmitTimes(f: FormState, n: nat): FormState
    decreases n
  {
    if n == 0 then f else SubmitTimes(Submit(f).form, n - 1)
  }

  function Repeat(s: seq<string>, n: nat): seq<string>
    decreases n
  {
    if n == 0 then [] else s + Repeat(s, n - 1)
  }

  /** N failed submissions with the same missing fields append N copies of
      their messages and never clear the list. */
  lemma {:induction false} FailuresAccumulate(f: FormState, n: nat)
    requires !Complete(f)
    ensures SubmitTimes(f, n) == f.(errors := f.errors + Repeat(MissingMessages(f), n))
    decreases n
  {
    if n == 0 {
      assert f.errors + [] == f.errors;
    } else {
      var g := Submit(f).form;
      assert g == f.(errors := f.errors + MissingMessages(f));
      assert MissingMessages(g) == MissingMessages(f);
      FailuresAccumulate(g, n - 1);
      assert f.errors + MissingMessages(f) + Repeat(MissingMessages(f), n - 1)
          == f.errors + Repeat(MissingMessages(f), n);
    }
  }

  /** Submitting again right after a success reports all four fields. */
  lemma ResubmitAfterSuccess(f: FormState)
    requires Complete(f)
    ensures Submit(Submit(f).form).published == None
    ensures Submit(Submit(f).form).form.errors == f.errors + Messages
  {
  }
}
