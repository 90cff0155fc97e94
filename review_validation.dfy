/** The review schemas of `src/lib/validations/review.ts`. */
module ReviewValidation {
  import opened Wrappers
  import opened Rules

  datatype ReviewInput = ReviewInput(rating: Option<real>, comment: Option<string>)

  /** `rating` an integer from 1 to 5 */
  predicate ValidRating(x: real) {
    IntBetween(x, 1, 5)
  }

  predicate ValidComment(c: Option<string>) {
    c.None? || |c.value| <= 2000
  }

  /** A new review needs a rating; the comment is optional. */
  predicate ValidCreateReview(input: ReviewInput) {
    input.rating.Some? && ValidRating(input.rating.value) && ValidComment(input.comment)
  }

  /** An update may leave out either field. */
  predicate ValidUpdateReview(input: ReviewInput) {
    (input.rating.None? || ValidRating(input.rating.value)) && ValidComment(input.comment)
  }

  /** The accepted ratings are exactly 1, 2, 3, 4 and 5. */
  lemma RatingsAccepted(x: real)
    ensures ValidRating(x) <==> x == 1.0 || x == 2.0 || x == 3.0 || x == 4.0 || x == 5.0
  {
    if ValidRating(x) {
      var n := x.Floor;
      assert 1 <= n <= 5;
    }
  }

  /** Whatever a create accepts, an update accepts; the converse fails only for a missing rating. */
  lemma CreateWithinUpdate(input: ReviewInput)
    ensures ValidCreateReview(input) ==> ValidUpdateReview(input)
    ensures ValidUpdateReview(input) && !ValidCreateReview(input) ==> input.rating.None?
  {
  }

  lemma EmptyReviewInputs()
    ensures ValidUpdateReview(ReviewInput(None, None))
    ensures !ValidCreateReview(ReviewInput(None, None))
  {
  }
}
