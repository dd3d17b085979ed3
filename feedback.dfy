/** The feedback form: a thumbs rating, a review text and a loading flag. */
module FeedbackScreen {
  import opened Js
  import opened Storage
  import opened Navigation

  /** `rating` is `null`, "positive" or "negative": the type admits nothing else. */
  datatype Rating = Unrated | Positive | Negative

  function RatingText(r: Rating): (t: string)
    requires r != Unrated
    ensures t == "positive" || t == "negative"
  {
    if r == Positive then "positive" else "negative"
  }

  /** The feedback request's reply: `res.data.success`, `res.data.message`, or a rejection. */
  datatype FeedbackOutcome =
    | FeedbackReplied(success: bool, message: Option<string>)
    | FeedbackFailed

  /** A reply is taken as accepted when `success || message` is truthy. */
  predicate Accepted(o: FeedbackOutcome) {
    o.FeedbackReplied? && (o.success || Truthy(o.message))
  }

  datatype FeedbackRequest = FeedbackRequest(rating: string, review: string, authorization: string)

  class FeedbackForm {
    var rating: Rating
    var review: string
    var loading: bool

    constructor ()
      ensures rating == Unrated && review == "" && !loading
    {
      rating := Unrated;
      review := "";
      loading := false;
    }

    /** The two rating buttons. */
    method ChooseRating(positive: bool)
      modifies this
      ensures rating == (if positive then Positive else Negative)
      ensures review == old(review) && loading == old(loading)
    {
      rating := if positive then Positive else Negative;
    }

    /** The review text area. */
    method ChangeReview(text: string)
      modifies this
      ensures review == text
      ensures rating == old(rating) && loading == old(loading)
    {
      review := text;
    }

    /**
     * `handleSubmit`: no rating stops before anything else; no token stops
     * before the request; an accepted reply resets the form and calls
     * `onBack`; `loading` ends false whenever the rating check passed.
     */
    method HandleSubmit(store: LocalStore, outcome: FeedbackOutcome, app: App)
      returns (request: Option<FeedbackRequest>)
      modifies this, app
      ensures old(rating) == Unrated ==>
        && request == None
        && rating == old(rating) && review == old(review) && loading == old(loading)
        && app.Current() == old(app.Current())
      ensures old(rating) != Unrated ==> !loading
      ensures old(rating) != Unrated && !Truthy(store.Token(TokenKey)) ==>
        && request == None
        && rating == old(rating) && review == old(review)
        && app.Current() == old(app.Current())
      ensures old(rating) != Unrated && Truthy(store.Token(TokenKey)) ==>
        && request == Some(FeedbackRequest(RatingText(old(rating)), old(review), Bearer(store.Token(TokenKey))))
        && (Accepted(outcome) ==>
              rating == Unrated && review == "" && app.Current() == Step(old(app.Current()), FeedbackClosed))
        && (!Accepted(outcome) ==>
              rating == old(rating) && review == old(review) && app.Current() == old(app.Current()))
    {
      if rating == Unrated {
        return None;
      }
      loading := true;
      var token := store.Token(TokenKey);
      if !Truthy(token) {
        loading := false;
        request := None;
      } else {
        request := Some(FeedbackRequest(RatingText(rating), review, Bearer(token)));
        if Accepted(outcome) {
          review := "";
          rating := Unrated;
          app.OnFeedbackBack();
        }
      }
      // the `finally` block
      loading := false;
    }

    /** The back link calls `onBack` only. */
    method Back(app: App)
      modifies app
      ensures app.Current() == Step(old(app.Current()), FeedbackClosed)
    {
      app.OnFeedbackBack();
    }
  }
}
