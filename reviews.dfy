/**
 * Reviews in the product card and the product window: the average rating,
 * the five-star display, the card's "no reviews" branch, the review form
 * and the buttons that forward the product.
 */
module Reviews {
  import opened Wrappers
  import opened Text
  import opened Types

  function SumRatings(rs: seq<Review>): int {
    if rs == [] then 0 else rs[0].rating + SumRatings(rs[1..])
  }

  /** `reviews.reduce((a, r) => a + r.rating, 0) / reviews.length`, or 0 without reviews. */
  function AverageRating(p: Product): (avg: real)
    ensures ReviewsOf(p) == [] ==> avg == 0.0
    ensures ReviewsOf(p) != [] ==> avg * |ReviewsOf(p)| as real == SumRatings(ReviewsOf(p)) as real
  {
    var rs := ReviewsOf(p);
    if |rs| > 0 then SumRatings(rs) as real / |rs| as real else 0.0
  }

  /** Ratings as the star picker produces them. */
  predicate RatingsInRange(rs: seq<Review>) {
    forall i :: 0 <= i < |rs| ==> 1 <= rs[i].rating <= 5
  }

  lemma {:induction false} SumRatingsBounds(rs: seq<Review>)
    requires RatingsInRange(rs)
    ensures |rs| <= SumRatings(rs) <= 5 * |rs|
  {
    if rs != [] {
      SumRatingsBounds(rs[1..]);
    }
  }

  /** With ratings from 1 to 5, a product with reviews averages between 1 and 5. */
  lemma AverageInRange(p: Product)
    requires RatingsInRange(ReviewsOf(p)) && ReviewsOf(p) != []
    ensures 1.0 <= AverageRating(p) <= 5.0
  {
    var rs := ReviewsOf(p);
    SumRatingsBounds(rs);
    QuotientBounds(SumRatings(rs) as real, |rs| as real);
  }

  lemma QuotientBounds(s: real, n: real)
    requires n > 0.0 && n <= s <= 5.0 * n
    ensures 1.0 <= s / n <= 5.0
  {
    var q := s / n;
    assert q * n == s;
    assert (q - 1.0) * n == s - n;
    assert (5.0 - q) * n == 5.0 * n - s;
  }

  /** `Math.round(x)`: the nearest integer, halves rounded up. */
  function JsRound(x: real): (r: int)
    ensures r as real <= x + 0.5 < r as real + 1.0
  {
    (x + 0.5).Floor
  }

  const StarSlots := 5

  /** `[...Array(5)].map((_, i) => i < Math.round(rating))` */
  function Stars(rating: real): (filled: seq<bool>)
    ensures |filled| == StarSlots
    ensures forall i :: 0 <= i < StarSlots ==> (filled[i] <==> i < JsRound(rating))
  {
    seq(StarSlots, i requires 0 <= i < StarSlots => i < JsRound(rating))
  }

  function CountFilled(filled: seq<bool>): nat {
    if filled == [] then 0 else (if filled[0] then 1 else 0) + CountFilled(filled[1..])
  }

  /** The first `m` slots, filled below `n`. */
  function Threshold(m: nat, n: int): (filled: seq<bool>)
    ensures |filled| == m
    ensures forall i :: 0 <= i < m ==> (filled[i] <==> i < n)
  {
    seq(m, i requires 0 <= i < m => i < n)
  }

  lemma {:induction false} ThresholdCount(m: nat, n: int)
    ensures CountFilled(Threshold(m, n)) == if n <= 0 then 0 else if n >= m then m else n
  {
    if m > 0 {
      assert Threshold(m, n)[1..] == Threshold(m - 1, n - 1);
      ThresholdCount(m - 1, n - 1);
    }
  }

  /** The filled slots are the first ones, as many as the rounded rating allows. */
  lemma FilledCount(rating: real)
    ensures var n := JsRound(rating);
            CountFilled(Stars(rating)) == if n <= 0 then 0 else if n >= StarSlots then StarSlots else n
  {
    assert Stars(rating) == Threshold(StarSlots, JsRound(rating));
    ThresholdCount(StarSlots, JsRound(rating));
  }

  /** The card's rating line. */
  datatype CardRating = NoReviews | StarLine(filled: seq<bool>, count: nat)

  /** `StarRating`: "Sin reseñas" without reviews; otherwise the stars of the average and the count. */
  function CardRatingOf(p: Product): (r: CardRating)
    ensures ReviewsOf(p) == [] <==> r == NoReviews
    ensures r.StarLine? ==> r.filled == Stars(AverageRating(p)) && r.count == |ReviewsOf(p)|
  {
    var count := |ReviewsOf(p)|;
    if count == 0 then NoReviews else StarLine(Stars(AverageRating(p)), count)
  }

  /** Ratings 4 and 5 average 4.5, which rounds up to five filled stars. */
  lemma CardExample(p: Product, a: Review, b: Review)
    requires p.reviews == Some([a, b]) && a.rating == 4 && b.rating == 5
    ensures AverageRating(p) == 4.5
    ensures CardRatingOf(p) == StarLine([true, true, true, true, true], 2)
  {
    assert [b][1..] == [];
    assert SumRatings([b]) == 5;
    assert [a, b][1..] == [b];
    assert SumRatings([a, b]) == 9;
    assert JsRound(4.5) == 5;
  }

  /** Something a button of the card or the window asks for. */
  datatype Action = Cart(call: CartCall) | CompareProduct(product: Product) | ViewDetails(product: Product) | BuyNow(product: Product) | CloseWindow

  /** The card's buttons each forward exactly the card's product. */
  function CardAddToCart(p: Product): (actions: seq<Action>)
    ensures actions == [Cart(AddToCart(p))]
  {
    [Cart(AddToCart(p))]
  }

  function CardCompare(p: Product): (actions: seq<Action>)
    ensures actions == [CompareProduct(p)]
  {
    [CompareProduct(p)]
  }

  /** The window's add-to-cart adds this product, then closes the window. */
  function WindowAddToCart(p: Product): (actions: seq<Action>)
    ensures actions == [Cart(AddToCart(p)), CloseWindow]
  {
    [Cart(AddToCart(p)), CloseWindow]
  }

  /** The review form of the product window. */
  class ReviewForm {
    var rating: int
    var comment: string

    constructor()
      ensures rating == 0 && comment == []
    {
      rating := 0;
      comment := [];
    }

    /** The send button is enabled with a rating and a comment that is not blank. */
    predicate CanSend()
      reads this
    {
      rating != 0 && Trim(comment) != []
    }

    method PickRating(star: int)
      modifies this
      ensures rating == star && comment == old(comment)
    {
      rating := star;
    }

    method EditComment(text: string)
      modifies this
      ensures comment == text && rating == old(rating)
    {
      comment := text;
    }

    /**
     * `handleAddReviewSubmit`: with a positive rating, a comment that is not
     * blank and a signed-in user, the review (author and avatar from the
     * user, rating and comment as entered; id and date passed in) is handed
     * on and the form is cleared; otherwise nothing happens.
     */
    method Submit(user: Option<User>, id: string, date: string) returns (sent: Option<Review>)
      modifies this
      ensures sent.Some? <==> old(rating) > 0 && !IsBlank(old(comment)) && user.Some?
      ensures sent.Some? ==> sent.value == Review(id, user.value.name, user.value.avatar, old(rating), old(comment), date)
      ensures sent.Some? ==> rating == 0 && comment == []
      ensures sent.None? ==> rating == old(rating) && comment == old(comment)
    {
      if rating > 0 && Trim(comment) != [] && user.Some? {
        sent := Some(Review(id, user.value.name, user.value.avatar, rating, comment, date));
        rating := 0;
        comment := [];
      } else {
        sent := None;
      }
    }
  }
}
