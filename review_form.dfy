/** The review form on a product page: a star rating, a title and a comment,
    checked on submission (lengths after trimming), then stored through the review
    store with the signed-in user's id and name. The panel shows a login prompt to
    a guest and a notice to a user who has already reviewed the product. */
module ReviewForm {
  import opened Common
  import opened Text
  import Users
  import Reviews

  const RatingMissing := "Please select a rating"
  const TitleTooShort := "Title must be at least 3 characters"
  const TitleTooLong := "Title must be less than 100 characters"
  const CommentTooShort := "Review must be at least 10 characters"
  const CommentTooLong := "Review must be less than 1000 characters"

  /** The `maxLength` of the two text inputs. */
  const TitleMaxLength := 100
  const CommentMaxLength := 1000

  /** The error object `validateForm` builds: each check writes its field in turn,
      so a later check of a field replaces an earlier one. */
  function FormErrors(rating: int, title: string, comment: string): (r: map<string, string>)
    ensures r.Keys <= {"rating", "title", "comment"}
  {
    var t := |Trim(title)|;
    var c := |Trim(comment)|;
    var e0: map<string, string> := if rating == 0 then map["rating" := RatingMissing] else map[];
    var e1 := if t < 3 then e0["title" := TitleTooShort] else e0;
    var e2 := if t > 100 then e1["title" := TitleTooLong] else e1;
    var e3 := if c < 10 then e2["comment" := CommentTooShort] else e2;
    if c > 1000 then e3["comment" := CommentTooLong] else e3
  }

  /** The form passes exactly when a star is chosen, the trimmed title has 3 to 100
      characters and the trimmed comment 10 to 1000; each field's message names the
      bound it misses, and no other field is ever reported. */
  lemma FormErrorsSpec(rating: int, title: string, comment: string)
    ensures var e := FormErrors(rating, title, comment);
            var t := |Trim(title)|;
            var c := |Trim(comment)|;
            && (e == map[] <==> rating != 0 && 3 <= t <= 100 && 10 <= c <= 1000)
            && e.Keys <= {"rating", "title", "comment"}
            && ("rating" in e <==> rating == 0)
            && (rating == 0 ==> e["rating"] == RatingMissing)
            && ("title" in e <==> t < 3 || t > 100)
            && (t < 3 ==> e["title"] == TitleTooShort)
            && (t > 100 ==> e["title"] == TitleTooLong)
            && ("comment" in e <==> c < 10 || c > 1000)
            && (c < 10 ==> e["comment"] == CommentTooShort)
            && (c > 1000 ==> e["comment"] == CommentTooLong)
  {
    var e := FormErrors(rating, title, comment);
    if e == map[] {
      assert "rating" !in e && "title" !in e && "comment" !in e;
    }
  }

  lemma TrimShorter(s: string)
    ensures |Trim(s)| <= |s|
  {
    TrimSpec(s);
  }

  /** Through the inputs, whose `maxLength` caps what is typed, the two "less than"
      messages cannot appear: a trimmed text is never longer than the text. */
  lemma CappedInputsNeverTooLong(rating: int, title: string, comment: string)
    requires |title| <= TitleMaxLength && |comment| <= CommentMaxLength
    ensures var e := FormErrors(rating, title, comment);
            && ("title" in e ==> e["title"] == TitleTooShort)
            && ("comment" in e ==> e["comment"] == CommentTooShort)
  {
    TrimShorter(title);
    TrimShorter(comment);
    FormErrorsSpec(rating, title, comment);
  }

  /** What the panel shows. */
  datatype Panel = LoginPrompt | AlreadyReviewed | Form

  /** `hasReviewed`: false without a user. */
  predicate HasReviewedFor(user: Option<Users.User>, reviews: seq<Reviews.Review>, productId: string) {
    user.Some? && Reviews.HasReviewed(reviews, productId, user.value.id)
  }

  function PanelFor(user: Option<Users.User>, reviews: seq<Reviews.Review>, productId: string): (p: Panel)
    ensures p == Form <==> user.Some? && !HasReviewedFor(user, reviews, productId)
    ensures p == LoginPrompt <==> user.None?
  {
    if user.None? then LoginPrompt
    else if HasReviewedFor(user, reviews, productId) then AlreadyReviewed
    else Form
  }

  /** After the user's own review is stored, the panel shows the notice instead of
      the form. */
  lemma PanelAfterSubmit(user: Users.User, reviews: seq<Reviews.Review>, review: Reviews.Review)
    requires review.userId == user.id
    ensures PanelFor(Some(user), reviews + [review], review.productId) == AlreadyReviewed
  {
    Reviews.AddedIsFound(reviews, review);
  }

  class ReviewFormState {
    const productId: string
    var rating: int
    var title: string
    var comment: string
    var isSubmitting: bool
    var errors: map<string, string>

    constructor (productId: string)
      ensures this.productId == productId && rating == 0 && title == "" && comment == ""
      ensures !isSubmitting && errors == map[]
    {
      this.productId := productId;
      rating := 0;
      title := "";
      comment := "";
      isSubmitting := false;
      errors := map[];
    }

    /** A click on one of the five stars. */
    method SetRating(star: int)
      requires 1 <= star <= 5
      modifies this
      ensures rating == star && title == old(title) && comment == old(comment)
      ensures errors == old(errors) && isSubmitting == old(isSubmitting)
    {
      rating := star;
    }

    /** Typing in the title; the input keeps at most 100 characters. */
    method SetTitle(value: string)
      modifies this
      ensures title == Take(value, TitleMaxLength) && |title| <= TitleMaxLength
      ensures rating == old(rating) && comment == old(comment)
      ensures errors == old(errors) && isSubmitting == old(isSubmitting)
    {
      title := Take(value, TitleMaxLength);
    }

    /** Typing in the comment; the input keeps at most 1000 characters. */
    method SetComment(value: string)
      modifies this
      ensures comment == Take(value, CommentMaxLength) && |comment| <= CommentMaxLength
      ensures rating == old(rating) && title == old(title)
      ensures errors == old(errors) && isSubmitting == old(isSubmitting)
    {
      comment := Take(value, CommentMaxLength);
    }

    /** `validateForm`. */
    method ValidateForm() returns (ok: bool)
      modifies this
      ensures errors == FormErrors(rating, title, comment) && ok == (errors == map[])
      ensures rating == old(rating) && title == old(title) && comment == old(comment)
      ensures isSubmitting == old(isSubmitting)
    {
      var t := |Trim(title)|;
      var c := |Trim(comment)|;
      var e: map<string, string> := map[];
      if rating == 0 {
        e := e["rating" := RatingMissing];
      }
      if t < 3 {
        e := e["title" := TitleTooShort];
      }
      if t > 100 {
        e := e["title" := TitleTooLong];
      }
      if c < 10 {
        e := e["comment" := CommentTooShort];
      }
      if c > 1000 {
        e := e["comment" := CommentTooLong];
      }
      errors := e;
      ok := e == map[];
    }

    /** `handleSubmit`. `fails` stands for the simulated 10% failure; the review's id
        and timestamp are supplied. A guest changes nothing; an invalid form only
        shows its errors; a failure leaves the form filled in; a success stores the
        trimmed title and comment under the user's id and name and empties the form. */
    method HandleSubmit(user: Option<Users.User>, store: Reviews.ReviewStore, fails: bool, id: string, now: int)
      returns (submitted: bool)
      modifies this, store
      ensures submitted <==> user.Some? && FormErrors(old(rating), old(title), old(comment)) == map[] && !fails
      ensures user.None? ==>
                store.stored == old(store.stored) && errors == old(errors) && rating == old(rating)
                && title == old(title) && comment == old(comment) && isSubmitting == old(isSubmitting)
      ensures user.Some? && FormErrors(old(rating), old(title), old(comment)) != map[] ==>
                isSubmitting == old(isSubmitting)
      ensures user.Some? && fails && FormErrors(old(rating), old(title), old(comment)) == map[] ==> !isSubmitting
      ensures user.Some? && !submitted ==>
                store.stored == old(store.stored) && rating == old(rating)
                && title == old(title) && comment == old(comment)
                && errors == FormErrors(old(rating), old(title), old(comment))
      ensures submitted ==>
                var review := Reviews.Review(id, productId, user.value.id, user.value.name, old(rating),
                                             Trim(old(title)), Trim(old(comment)), now, 0);
                && store.stored == Some(Reviews.Current(old(store.stored), store.loadTime) + [review])
                && Reviews.HasReviewed(store.All(), productId, user.value.id)
                && rating == 0 && title == "" && comment == "" && errors == map[] && !isSubmitting
    {
      if user.None? {
        return false;
      }
      var ok := ValidateForm();
      if !ok {
        return false;
      }
      isSubmitting := true;
      if fails {
        isSubmitting := false;
        return false;
      }
      var u := user.value;
      var review := store.AddReview(productId, u.id, u.name, rating, Trim(title), Trim(comment), id, now);
      rating := 0;
      title := "";
      comment := "";
      errors := map[];
      isSubmitting := false;
      return true;
    }
  }
}
