/** Reviews submitted through the feedback form and the dashboard figures
    derived from them: the total count, the average rating and the number of
    reviews per star. The component recomputes these from the whole list on
    every render, so they are plain functions of the list here. */
module Reviews {

  /** One submitted piece of feedback: the reviewer's name, the star rating
      chosen in the form (0 when left at the placeholder) and the review text. */
  datatype Review = Review(name: string, rating: int, review: string)

  /** The values the form's rating select offers: 0 is the "Star Rating"
      placeholder, 1 to 5 are stars. */
  predicate IsFormRating(v: int) { 0 <= v <= 5 }

  /** A rating that lands in one of the five dashboard buckets. */
  predicate IsStar(v: int) { 1 <= v <= 5 }

  /** Every review in the list carries a rating the form can produce. */
  predicate AllFormRatings(rs: seq<Review>) {
    forall i :: 0 <= i < |rs| ==> IsFormRating(rs[i].rating)
  }

  /** The ratings of the reviews, in list order. */
  function Ratings(rs: seq<Review>): seq<int>
  {
    if rs == [] then [] else [rs[0].rating] + Ratings(rs[1..])
  }

  /** The dashboard's total: the length of the list. */
  function TotalReviews(rs: seq<Review>): nat
  {
    |rs|
  }

  /** The sum the dashboard's reduce computes over the ratings. */
  function SumRatings(rs: seq<Review>): int
  {
    if rs == [] then 0 else rs[0].rating + SumRatings(rs[1..])
  }

  /** The average rating, guarded to 0 for an empty list. It is a real here;
      the one-decimal rendering is not modelled. */
  function AverageRating(rs: seq<Review>): (avg: real)
    ensures TotalReviews(rs) == 0 ==> avg == 0.0
    ensures TotalReviews(rs) > 0 ==> avg * (TotalReviews(rs) as real) == SumRatings(rs) as real
  {
    if TotalReviews(rs) == 0 then 0.0
    else (SumRatings(rs) as real) / (TotalReviews(rs) as real)
  }

  /** The reviews whose rating is exactly `star`, in list order. */
  function WithRating(rs: seq<Review>, star: int): (sel: seq<Review>)
    ensures |sel| <= |rs|
    ensures forall r :: r in sel ==> r in rs && r.rating == star
    ensures forall r :: r in rs && r.rating == star ==> r in sel
  {
    if rs == [] then []
    else if rs[0].rating == star then [rs[0]] + WithRating(rs[1..], star)
    else WithRating(rs[1..], star)
  }

  /** The dashboard breaks the reviews down by the stars 1 to 5, in that order. */
  const Buckets: nat := 5

  /** The per-star breakdown: entry i is how many reviews were given i + 1
      stars, which is the multiplicity of i + 1 among the ratings. */
  function RatingCounts(rs: seq<Review>): (counts: seq<nat>)
    ensures |counts| == Buckets
    ensures forall i :: 0 <= i < Buckets ==> counts[i] == multiset(Ratings(rs))[i + 1]
  {
    AllStarCounts(rs);
    seq(Buckets, i requires 0 <= i < Buckets => |WithRating(rs, i + 1)|)
  }

  /** How many reviews carry a rating of 1 to 5 stars. */
  function CountStarred(rs: seq<Review>): nat
  {
    if rs == [] then 0 else (if IsStar(rs[0].rating) then 1 else 0) + CountStarred(rs[1..])
  }

  /** The sum of the five per-star counts. */
  function BucketTotal(counts: seq<nat>): nat
    requires |counts| == Buckets
  {
    counts[0] + counts[1] + counts[2] + counts[3] + counts[4]
  }

  /** Filtering by a rating keeps exactly as many reviews as that rating
      occurs among the ratings. */
  lemma {:induction false} StarCountIsMultiplicity(rs: seq<Review>, star: int)
    ensures |WithRating(rs, star)| == multiset(Ratings(rs))[star]
  {
    if rs != [] {
      StarCountIsMultiplicity(rs[1..], star);
    }
  }

  lemma AllStarCounts(rs: seq<Review>)
    ensures forall star :: 1 <= star <= Buckets ==> |WithRating(rs, star)| == multiset(Ratings(rs))[star]
  {
    forall star | 1 <= star <= Buckets
      ensures |WithRating(rs, star)| == multiset(Ratings(rs))[star]
    {
      StarCountIsMultiplicity(rs, star);
    }
  }

  /** The five buckets together hold exactly the reviews rated 1 to 5 stars;
      a review with any other rating (in the form, only the placeholder 0)
      falls in no bucket. */
  lemma {:induction false} BucketsCountStarred(rs: seq<Review>)
    ensures BucketTotal(RatingCounts(rs)) == CountStarred(rs)
  {
    var m := multiset(Ratings(rs));
    assert BucketTotal(RatingCounts(rs)) == m[1] + m[2] + m[3] + m[4] + m[5];
    StarredIsMultiplicitySum(rs);
  }

  /** At most every review has stars, and all of them do exactly when the
      count reaches the length of the list. */
  lemma {:induction false} CountStarredRange(rs: seq<Review>)
    ensures CountStarred(rs) <= |rs|
    ensures CountStarred(rs) == |rs| <==> forall i :: 0 <= i < |rs| ==> IsStar(rs[i].rating)
  {
    if rs != [] {
      CountStarredRange(rs[1..]);
      if CountStarred(rs) == |rs| {
        assert IsStar(rs[0].rating);
        forall i | 0 <= i < |rs| ensures IsStar(rs[i].rating) {
          if i > 0 { assert rs[i] == rs[1..][i - 1]; }
        }
      }
      if forall i :: 0 <= i < |rs| ==> IsStar(rs[i].rating) {
        assert forall i :: 0 <= i < |rs[1..]| ==> rs[1..][i] == rs[i + 1];
      }
    }
  }

  lemma {:induction false} StarredIsMultiplicitySum(rs: seq<Review>)
    ensures CountStarred(rs) == multiset(Ratings(rs))[1] + multiset(Ratings(rs))[2]
      + multiset(Ratings(rs))[3] + multiset(Ratings(rs))[4] + multiset(Ratings(rs))[5]
  {
    if rs != [] {
      StarredIsMultiplicitySum(rs[1..]);
      assert multiset(Ratings(rs)) == multiset{rs[0].rating} + multiset(Ratings(rs[1..]));
    }
  }

  /** With ratings from the form, the buckets account for every review
      exactly when no review was left at the placeholder rating 0. */
  lemma BucketsCoverAllUnlessUnrated(rs: seq<Review>)
    requires AllFormRatings(rs)
    ensures BucketTotal(RatingCounts(rs)) <= TotalReviews(rs)
    ensures BucketTotal(RatingCounts(rs)) == TotalReviews(rs) <==> forall i :: 0 <= i < |rs| ==> rs[i].rating != 0
  {
    BucketsCountStarred(rs);
    CountStarredRange(rs);
  }

  /** With ratings from the form, the total is the five buckets plus the
      reviews left at the placeholder rating 0: every review is counted once. */
  lemma {:induction false} TotalIsBucketsPlusUnrated(rs: seq<Review>)
    requires AllFormRatings(rs)
    ensures TotalReviews(rs) == BucketTotal(RatingCounts(rs)) + multiset(Ratings(rs))[0]
  {
    BucketsCountStarred(rs);
    StarredPlusUnrated(rs);
  }

  lemma {:induction false} StarredPlusUnrated(rs: seq<Review>)
    requires AllFormRatings(rs)
    ensures CountStarred(rs) + multiset(Ratings(rs))[0] == |rs|
  {
    if rs != [] {
      assert AllFormRatings(rs[1..]) by {
        assert forall i :: 0 <= i < |rs[1..]| ==> rs[1..][i] == rs[i + 1];
      }
      StarredPlusUnrated(rs[1..]);
      assert multiset(Ratings(rs)) == multiset{rs[0].rating} + multiset(Ratings(rs[1..]));
      assert IsFormRating(rs[0].rating);
    }
  }

  /** Bounds on the rating sum for ratings from the form; it is 0 exactly
      when every rating is the placeholder 0. */
  lemma {:induction false} SumRatingsBounds(rs: seq<Review>)
    requires AllFormRatings(rs)
    ensures 0 <= SumRatings(rs) <= 5 * |rs|
    ensures SumRatings(rs) == 0 <==> forall i :: 0 <= i < |rs| ==> rs[i].rating == 0
    ensures (forall i :: 0 <= i < |rs| ==> IsStar(rs[i].rating)) ==> |rs| <= SumRatings(rs)
  {
    if rs != [] {
      assert forall i :: 0 <= i < |rs[1..]| ==> rs[1..][i] == rs[i + 1];
      SumRatingsBounds(rs[1..]);
      if SumRatings(rs) == 0 {
        assert rs[0].rating == 0;
        forall i | 0 <= i < |rs| ensures rs[i].rating == 0 {
          if i > 0 { assert rs[i] == rs[1..][i - 1]; }
        }
      }
    }
  }

  /** The average of ratings from the form lies between 0 and 5; it is 0
      exactly when the list is empty or every review was left unrated, and at
      least 1 when every review has stars. */
  lemma AverageRatingRange(rs: seq<Review>)
    requires AllFormRatings(rs)
    ensures 0.0 <= AverageRating(rs) <= 5.0
    ensures AverageRating(rs) == 0.0 <==> forall i :: 0 <= i < |rs| ==> rs[i].rating == 0
    ensures |rs| > 0 && (forall i :: 0 <= i < |rs| ==> IsStar(rs[i].rating)) ==> 1.0 <= AverageRating(rs)
  {
    SumRatingsBounds(rs);
    if |rs| > 0 {
      var n, s, a := |rs| as real, SumRatings(rs) as real, AverageRating(rs);
      assert a * n == s;
      ScaledBound(a, n, 0.0, s);
      ScaledBound(a, n, 5.0, s);
      ScaledBound(a, n, 1.0, s);
    }
  }

  /** For a positive count n, a quotient a with a * n == s is above (below)
      a bound b exactly when s is above (below) b * n. */
  lemma ScaledBound(a: real, n: real, b: real, s: real)
    requires n > 0.0 && a * n == s
    ensures a <= b <==> s <= b * n
    ensures a >= b <==> s >= b * n
  {
    assert (a - b) * n == s - b * n;
  }

  lemma {:induction false} RatingsAppend(rs: seq<Review>, r: Review)
    ensures Ratings(rs + [r]) == Ratings(rs) + [r.rating]
    ensures SumRatings(rs + [r]) == SumRatings(rs) + r.rating
  {
    if rs != [] {
      assert (rs + [r])[1..] == rs[1..] + [r];
      RatingsAppend(rs[1..], r);
    }
  }

  /** Appending a review adds one to the total, its rating to the sum, and
      one to the bucket of its rating only. */
  lemma AppendReview(rs: seq<Review>, r: Review)
    ensures TotalReviews(rs + [r]) == TotalReviews(rs) + 1
    ensures SumRatings(rs + [r]) == SumRatings(rs) + r.rating
    ensures forall i :: 0 <= i < Buckets ==>
      RatingCounts(rs + [r])[i] == RatingCounts(rs)[i] + (if r.rating == i + 1 then 1 else 0)
  {
    RatingsAppend(rs, r);
    assert multiset(Ratings(rs + [r])) == multiset(Ratings(rs)) + multiset{r.rating};
  }
}
